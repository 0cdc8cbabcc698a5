/** The result filter run by the detection worker: among the detector's
    parallel lists of decoded payloads and symbology tags, select the first
    payload tagged EAN-13.  The lists come from an external detector and
    are not required to have the same length; reading a tag past the end
    of the tag list is an index fault, which the worker catches. */
module ResultFilter {

  /** The only accepted symbology tag. */
  const Ean13: string := "EAN_13"

  /** Outcome of one pass of the filter loop over a detector result. */
  datatype FilterResult =
    | Match(index: nat, code: string)   // first EAN-13 entry, loop left by `break`
    | NoMatch                           // loop ran to the end of the payload list
    | TypeIndexFault(index: nat)        // tag lookup past the end of the tag list threw

  /** No entry with an index in [lo, hi) is tagged EAN-13, and every such
      index has a tag (so reading it does not fault). */
  ghost predicate NoEan13Between(types: seq<string>, lo: nat, hi: nat)
  {
    (lo < hi ==> hi <= |types|) && forall j :: lo <= j < hi ==> types[j] != Ean13
  }

  /** Reference definition: `r` is what a scan starting at index `from`
      must produce.  A match is the lowest index whose tag is EAN-13, an
      index fault is raised at the first visited index without a tag
      (`|types|`, or `from` itself when that is already past the tags) when
      no match came before it, and otherwise there is no match. */
  ghost predicate Selects(info: seq<string>, types: seq<string>, from: nat, r: FilterResult)
  {
    match r
    case Match(k, c) =>
      from <= k < |info| && k < |types| && types[k] == Ean13 && c == info[k]
      && NoEan13Between(types, from, k)
    case NoMatch =>
      NoEan13Between(types, from, |info|)
    case TypeIndexFault(k) =>
      from <= k < |info| && |types| <= k && NoEan13Between(types, from, k)
  }

  /** The filter loop from index `i` on, as a recursive function. */
  function ScanFrom(info: seq<string>, types: seq<string>, i: nat): (r: FilterResult)
    requires i <= |info|
    ensures Selects(info, types, i, r)
    decreases |info| - i
  {
    if i == |info| then NoMatch
    else if i >= |types| then TypeIndexFault(i)
    else if types[i] == Ean13 then Match(i, info[i])
    else ScanFrom(info, types, i + 1)
  }

  /** The whole filter: scan the detector result from its first entry. */
  function FirstEan13(info: seq<string>, types: seq<string>): (r: FilterResult)
    ensures Selects(info, types, 0, r)
  {
    ScanFrom(info, types, 0)
  }

  /** The reference definition leaves no choice: at most one outcome
      satisfies it, so it pins down the filter's result. */
  lemma SelectsUnique(info: seq<string>, types: seq<string>, from: nat, r1: FilterResult, r2: FilterResult)
    requires Selects(info, types, from, r1) && Selects(info, types, from, r2)
    ensures r1 == r2
  {
  }

  /** Once an EAN-13 entry has been found, entries the detector appends
      after it are never looked at: the loop has already broken out. */
  lemma LaterEntriesIgnored(info: seq<string>, types: seq<string>, moreInfo: seq<string>, moreTypes: seq<string>)
    requires FirstEan13(info, types).Match?
    ensures FirstEan13(info + moreInfo, types + moreTypes) == FirstEan13(info, types)
  {
    var r := FirstEan13(info, types);
    var k := r.index;
    assert (info + moreInfo)[k] == info[k] && (types + moreTypes)[k] == types[k];
    assert NoEan13Between(types + moreTypes, 0, k) by {
      forall j | 0 <= j < k ensures j < |types + moreTypes| && (types + moreTypes)[j] != Ean13 {
        assert types[j] != Ean13;
      }
    }
    assert Selects(info + moreInfo, types + moreTypes, 0, r);
    SelectsUnique(info + moreInfo, types + moreTypes, 0, r, FirstEan13(info + moreInfo, types + moreTypes));
  }

  /** A detector result whose first candidate is a CODE_128 and whose
      second is an EAN-13 yields the second payload. */
  lemma SecondCandidateSelected()
    ensures FirstEan13(["123", "7501234567895"], ["CODE_128", "EAN_13"]) == Match(1, "7501234567895")
  {
  }

  /** The worker's indexed loop with `break`: walk the payload list, read
      each tag, stop at the first EAN-13 tag; reading a missing tag faults. */
  method FindFirstEan13(info: seq<string>, types: seq<string>) returns (r: FilterResult)
    ensures r == FirstEan13(info, types)
  {
    r := NoMatch;
    var i := 0;
    while i < |info|
      invariant 0 <= i <= |info|
      invariant NoEan13Between(types, 0, i)
    {
      if i >= |types| {
        r := TypeIndexFault(i);
        break;
      }
      if types[i] == Ean13 {
        r := Match(i, info[i]);
        break;
      }
      i := i + 1;
    }
    SelectsUnique(info, types, 0, r, FirstEan13(info, types));
  }
}
