/**
 * Task phases: the generated enumeration and its string table
 * (go/tasks/pluginmachinery/core/phase_enumer.go). A phase is an integer
 * code; the nine codes 0..8 are the enumerated phases and their names are
 * slices of one packed string, cut at the offsets of an index table.
 */
module Phases {
  import opened Wrappers
  import Decimal

  /**
   * All nine names, packed end to end: the same 145 characters as `_PhaseName`,
   * written as nine literals so that the verifier can read every position.
   */
  const PhaseName: string :=
    "PhaseUndefined" + "PhaseNotReady" + "PhaseWaitingForResources" + "PhaseQueued" +
    "PhaseInitializing" + "PhaseRunning" + "PhaseSuccess" + "PhaseRetryableFailure" +
    "PhasePermanentFailure"

  /** The name of code i is `PhaseName[PhaseIndex[i]..PhaseIndex[i + 1]]`. */
  const PhaseIndex: seq<nat> := [0, 14, 27, 51, 62, 79, 91, 103, 124, 145]

  /** `len(_PhaseIndex) - 1`, the number of enumerated phases. */
  const PhaseCount: nat := |PhaseIndex| - 1

  /** A code that names an enumerated phase. */
  type PhaseCode = p: int | 0 <= p < 9

  const PhaseUndefined: PhaseCode := 0
  const PhaseNotReady: PhaseCode := 1
  const PhaseWaitingForResources: PhaseCode := 2
  const PhaseQueued: PhaseCode := 3
  const PhaseInitializing: PhaseCode := 4
  const PhaseRunning: PhaseCode := 5
  const PhaseSuccess: PhaseCode := 6
  const PhaseRetryableFailure: PhaseCode := 7
  const PhasePermanentFailure: PhaseCode := 8

  /** The version a phase starts with (core.DefaultPhaseVersion). */
  const DefaultPhaseVersion: nat := 0

  /** The nine canonical names written out one by one, independently of the packed table. */
  const CanonicalNames: seq<string> := [
    "PhaseUndefined", "PhaseNotReady", "PhaseWaitingForResources", "PhaseQueued",
    "PhaseInitializing", "PhaseRunning", "PhaseSuccess", "PhaseRetryableFailure",
    "PhasePermanentFailure"]

  /** `_PhaseValues`. */
  const PhaseValueTable: seq<int> := [0, 1, 2, 3, 4, 5, 6, 7, 8]

  /** `_PhaseNameToValueMap`, built from the same slices as `String`. */
  const PhaseNameToValueMap: map<string, int> := map[
    PhaseName[0..14] := 0,
    PhaseName[14..27] := 1,
    PhaseName[27..51] := 2,
    PhaseName[51..62] := 3,
    PhaseName[62..79] := 4,
    PhaseName[79..91] := 5,
    PhaseName[91..103] := 6,
    PhaseName[103..124] := 7,
    PhaseName[124..145] := 8]

  /** The offset table starts at 0, rises strictly and ends at the length of the packed string. */
  lemma PhaseIndexWellFormed()
    ensures PhaseCount == 9 && |PhaseName| == 145
    ensures PhaseIndex[0] == 0 && PhaseIndex[PhaseCount] == |PhaseName|
    ensures forall i, j :: 0 <= i < j < |PhaseIndex| ==> PhaseIndex[i] < PhaseIndex[j]
  {
  }

  /** Each slice of the packed string is the canonical name of its code. */
  lemma PhaseNameSlices()
    ensures forall i :: 0 <= i < 9 ==> PhaseName[PhaseIndex[i]..PhaseIndex[i + 1]] == CanonicalNames[i]
  {
    PackedSlices();
  }

  /** The nine slices the name map is built from, read off the packed string. */
  lemma PackedSlices()
    ensures PhaseName[0..14] == "PhaseUndefined" && PhaseName[14..27] == "PhaseNotReady"
    ensures PhaseName[27..51] == "PhaseWaitingForResources" && PhaseName[51..62] == "PhaseQueued"
    ensures PhaseName[62..79] == "PhaseInitializing" && PhaseName[79..91] == "PhaseRunning"
    ensures PhaseName[91..103] == "PhaseSuccess" && PhaseName[103..124] == "PhaseRetryableFailure"
    ensures PhaseName[124..145] == "PhasePermanentFailure"
  {
  }

  /** The name map sends each canonical name to its own code, and holds no other name. */
  lemma NameMapAgrees()
    ensures forall k :: 0 <= k < |CanonicalNames| ==>
      CanonicalNames[k] in PhaseNameToValueMap && PhaseNameToValueMap[CanonicalNames[k]] == k
    ensures forall s :: s in PhaseNameToValueMap ==> s in CanonicalNames
  {
    PackedSlices();
  }

  /** `Phase.String()`: the name of an enumerated code, `Phase(<i>)` for any other integer. */
  function String(i: int): (r: string)
    ensures 0 <= i < PhaseCount ==> r == CanonicalNames[i]
    ensures !(0 <= i < PhaseCount) ==> r == "Phase(" + Decimal.IntToString(i) + ")"
  {
    PhaseNameSlices();
    if i < 0 || i >= PhaseCount then
      "Phase(" + Decimal.IntToString(i) + ")"
    else
      PhaseName[PhaseIndex[i]..PhaseIndex[i + 1]]
  }

  /** What `PhaseString` returns: a value and, on failure, the error text. */
  datatype Parsed = Parsed(value: int, err: Option<string>)

  /** `PhaseString`: the code whose name is `s`, or 0 and an error. */
  function PhaseString(s: string): (r: Parsed)
    ensures r.err.None? <==> s in CanonicalNames
    ensures r.err.None? ==> 0 <= r.value < PhaseCount && CanonicalNames[r.value] == s
    ensures r.err.Some? ==> r.value == 0 && r.err.value == s + " does not belong to Phase values"
  {
    NameMapAgrees();
    if s in PhaseNameToValueMap then
      Parsed(PhaseNameToValueMap[s], None)
    else
      Parsed(0, Some(s + " does not belong to Phase values"))
  }

  /** `PhaseValues`: every enumerated code, once each, in ascending order. */
  function PhaseValues(): (r: seq<int>)
    ensures |r| == PhaseCount
    ensures forall k :: 0 <= k < |r| ==> r[k] == k
  {
    PhaseValueTable
  }

  /** `Phase.IsAPhase`: a linear search of `_PhaseValues`. */
  method IsAPhase(i: int) returns (b: bool)
    ensures b <==> 0 <= i < PhaseCount
    ensures b <==> i in PhaseValues()
  {
    var values := PhaseValues();
    for k := 0 to |values|
      invariant forall j :: 0 <= j < k ==> values[j] != i
      invariant i < 0 || k <= i
    {
      if i == values[k] {
        return true;
      }
    }
    return false;
  }

  /** No two enumerated codes share a name, so the name map is injective. */
  lemma NamesDistinct()
    ensures forall i, j :: 0 <= i < j < |CanonicalNames| ==> CanonicalNames[i] != CanonicalNames[j]
  {
    forall i, j | 0 <= i < j < |CanonicalNames|
      ensures CanonicalNames[i] != CanonicalNames[j]
    {
      var a, b := CanonicalNames[i], CanonicalNames[j];
      if |a| == |b| {
        assert a[5] != b[5];
      }
    }
  }

  /** Round trip: parsing the name of an enumerated code yields that code and no error. */
  lemma StringThenParse(p: int)
    requires 0 <= p < PhaseCount
    ensures PhaseString(String(p)) == Parsed(p, None)
  {
    NamesDistinct();
    var r := PhaseString(String(p));
    assert CanonicalNames[r.value] == CanonicalNames[p];
  }

  /** Round trip the other way: a string that parses is the name of the code it parses to. */
  lemma ParseThenString(s: string)
    requires PhaseString(s).err.None?
    ensures String(PhaseString(s).value) == s
  {
  }

  /** The fallback rendering of an integer outside the enumeration never parses. */
  lemma OutOfRangeNameRejected(i: int)
    requires !(0 <= i < PhaseCount)
    ensures PhaseString(String(i)) == Parsed(0, Some(String(i) + " does not belong to Phase values"))
  {
    var s := String(i);
    assert s[5] == '(';
    forall k | 0 <= k < |CanonicalNames|
      ensures s != CanonicalNames[k]
    {
      assert CanonicalNames[k][5] != '(';
    }
  }

  /** Distinct integers have distinct renderings, in range or not. */
  lemma StringInjective(i: int, j: int)
    requires String(i) == String(j)
    ensures i == j
  {
    if 0 <= i < PhaseCount && 0 <= j < PhaseCount {
      NamesDistinct();
    } else if 0 <= i < PhaseCount {
      OutOfRangeNameRejected(j);
      StringThenParse(i);
    } else if 0 <= j < PhaseCount {
      OutOfRangeNameRejected(i);
      StringThenParse(j);
    } else {
      var di, dj := Decimal.IntToString(i), Decimal.IntToString(j);
      assert String(i)[6..|String(i)| - 1] == di;
      assert String(j)[6..|String(j)| - 1] == dj;
      Decimal.IntToStringInjective(i, j);
    }
  }
}
