/** Ranges of message ids in delete requests: checking them against the last id, collapsing a sorted
    list and counting how many unread messages a list covers. */
module Ranges {
  import opened AccessMode

  /** Ids from `low` to `hi` exclusive; a zero `hi` stands for the single id `low`. */
  datatype Range = Range(low: int, hi: int)

  function End(r: Range): int {
    if r.hi == 0 then r.low + 1 else r.hi
  }

  predicate In(r: Range, id: int) {
    r.low <= id < End(r)
  }

  predicate Covers(rs: seq<Range>, id: int) {
    exists k :: 0 <= k < |rs| && In(rs[k], id)
  }

  predicate WellFormed(r: Range) {
    r.low >= 0 && (r.hi == 0 || r.low < r.hi)
  }

  // ----- checking a request

  /** An entry of a request names ids from `low` up to `hi`, or `low` alone. */
  predicate Requested(r: Range, id: int) {
    if r.hi == 0 || r.hi == r.low then id == r.low else r.low <= id < r.hi
  }

  predicate Acceptable(r: Range, lastID: int) {
    r.low <= lastID && r.low >= 0 && r.hi >= 0 && (r.hi > 0 ==> r.low <= r.hi) && !(r.low == 0 && r.hi == 0)
  }

  function Canonical(r: Range, lastID: int): Range {
    if r.hi > lastID then Range(r.low, lastID + 1)
    else if r.low == r.hi || r.low + 1 == r.hi then Range(r.low, 0)
    else r
  }

  /** The canonical range denotes exactly the requested ids up to the last one. */
  lemma CanonicalKeepsMeaning(r: Range, lastID: int, id: int)
    requires Acceptable(r, lastID)
    ensures WellFormed(Canonical(r, lastID))
    ensures In(Canonical(r, lastID), id) <==> Requested(r, id) && id <= lastID
  {
  }

  function TotalSize(rs: seq<Range>): int {
    if rs == [] then 0 else TotalSize(rs[..|rs| - 1]) + End(rs[|rs| - 1]) - rs[|rs| - 1].low
  }

  /** The checking loop of a delete request: `None` if some entry is malformed, otherwise canonical
      ranges which cover exactly the requested ids up to `lastID`, and the number of ids listed. */
  method CheckRanges(request: seq<Range>, lastID: int) returns (ranges: Option<seq<Range>>, count: int)
    ensures ranges.Some? <==> request != [] && forall k :: 0 <= k < |request| ==> Acceptable(request[k], lastID)
    ensures ranges.Some? ==> |ranges.value| == |request| && count == TotalSize(ranges.value)
    ensures ranges.Some? ==> forall k :: 0 <= k < |request| ==>
              WellFormed(ranges.value[k]) && ranges.value[k] == Canonical(request[k], lastID)
    ensures ranges.Some? ==> forall id :: Covers(ranges.value, id) <==>
              id <= lastID && exists k :: 0 <= k < |request| && Requested(request[k], id)
  {
    count := 0;
    if |request| == 0 {
      return None, 0;
    }
    var out: seq<Range> := [];
    for k := 0 to |request|
      invariant |out| == k && count == TotalSize(out)
      invariant forall j :: 0 <= j < k ==> Acceptable(request[j], lastID) && out[j] == Canonical(request[j], lastID)
    {
      var dq := request[k];
      if dq.low > lastID || dq.low < 0 || dq.hi < 0 || (dq.hi > 0 && dq.low > dq.hi) || (dq.low == 0 && dq.hi == 0) {
        return None, count;
      }
      if dq.hi > lastID {
        dq := dq.(hi := lastID + 1);
      } else if dq.low == dq.hi || dq.low + 1 == dq.hi {
        dq := dq.(hi := 0);
      }
      if dq.hi == 0 {
        count := count + 1;
      } else {
        count := count + (dq.hi - dq.low);
      }
      assert (out + [dq])[..|out|] == out;
      out := out + [dq];
    }
    ranges := Some(out);
    forall id, k | 0 <= k < |request|
      ensures WellFormed(out[k]) && (In(out[k], id) <==> Requested(request[k], id) && id <= lastID)
    {
      CanonicalKeepsMeaning(request[k], lastID, id);
    }
  }

  // ----- collapsing a sorted list

  /** Sorted by the low end, of equal low ends the wider range comes first. */
  ghost predicate Sorted(rs: seq<Range>) {
    forall j, k :: 0 <= j < k < |rs| ==> rs[j].low < rs[k].low || (rs[j].low == rs[k].low && rs[j].hi >= rs[k].hi)
  }

  ghost predicate AllWellFormed(rs: seq<Range>) {
    forall k :: 0 <= k < |rs| ==> WellFormed(rs[k])
  }

  /** The loop consumes range `b` while `a` is the range it extends. */
  predicate Touches(a: Range, b: Range) {
    a.low == b.low || (a.hi > 0 && a.hi + 1 >= b.low)
  }

  function Merge(a: Range, b: Range): Range {
    if a.low != b.low && a.hi < b.hi then a.(hi := b.hi) else a
  }

  /** The loop of the source from some point on: `prev` is the range being extended, `i` the next one
      to look at. Note that a range which is not consumed is not copied next to `prev`. */
  function Collapse(rs: seq<Range>, prev: nat, i: nat): seq<Range>
    requires prev < i <= |rs|
    decreases |rs| - i
  {
    if i == |rs| then rs[..prev + 1]
    else if Touches(rs[prev], rs[i]) then Collapse(rs[prev := Merge(rs[prev], rs[i])], prev, i + 1)
    else Collapse(rs, prev + 1, i + 1)
  }

  function Normalized(rs: seq<Range>): seq<Range> {
    if |rs| <= 1 then rs else Collapse(rs, 0, 1)
  }

  /** In place, as in the source: the result is the first `n` elements. */
  method Normalize(rs: array<Range>) returns (n: nat)
    modifies rs
    ensures n <= rs.Length && rs[..n] == Normalized(old(rs[..]))
  {
    n := rs.Length;
    if n > 1 {
      var prev := 0;
      for i := 1 to rs.Length
        invariant prev < i && rs.Length == n
        invariant Collapse(rs[..], prev, i) == Normalized(old(rs[..]))
      {
        if rs[prev].low == rs[i].low {
          assert rs[..][prev := rs[prev]] == rs[..];
          continue;
        }
        if rs[prev].hi > 0 && rs[prev].hi + 1 >= rs[i].low {
          ghost var was := rs[..];
          if rs[prev].hi < rs[i].hi {
            rs[prev] := rs[prev].(hi := rs[i].hi);
          }
          assert rs[..] == was[prev := Merge(was[prev], was[i])];
          continue;
        }
        prev := prev + 1;
      }
      n := prev + 1;
    }
  }

  /** What a collapsed list should be: nothing left to collapse, and the same ids as before. */
  ghost predicate Collapsed(rs: seq<Range>) {
    forall k :: 0 < k < |rs| ==> !Touches(rs[k - 1], rs[k])
  }

  ghost predicate SameIds(rs: seq<Range>, qs: seq<Range>) {
    forall id :: Covers(rs, id) <==> Covers(qs, id)
  }

  /** All of `rest` is consumed by `a` one after another. */
  predicate AllTouch(a: Range, rest: seq<Range>)
    decreases |rest|
  {
    rest == [] || (Touches(a, rest[0]) && AllTouch(Merge(a, rest[0]), rest[1..]))
  }

  function MergeAll(a: Range, rest: seq<Range>): Range
    decreases |rest|
  {
    if rest == [] then a else MergeAll(Merge(a, rest[0]), rest[1..])
  }

  /** Consuming `rest` loses no id and invents none. `gap` tells that the id just after `a` was asked
      for as a single id, which the loop forgets unless the next range starts right behind it. */
  predicate ExactMerges(a: Range, gap: bool, rest: seq<Range>)
    decreases |rest|
  {
    if rest == [] then !gap
    else
      var b, more := rest[0], rest[1..];
      if b.low == a.low || b.low < a.hi then ExactMerges(Merge(a, b), gap, more)
      else if b.low == a.hi then ExactMerges(Merge(a, b), b.hi == 0, more)
      else b.hi > 0 && gap && ExactMerges(Merge(a, b), false, more)
  }

  /** The condition under which the loop is right: ranges are apart until some range touches its
      predecessor, and from there on everything is consumed by that predecessor, exactly. */
  predicate CollapsesCleanly(rs: seq<Range>)
    decreases |rs|
  {
    |rs| <= 1 ||
    (if Touches(rs[0], rs[1]) then AllTouch(rs[0], rs[1..]) && ExactMerges(rs[0], false, rs[1..])
     else CollapsesCleanly(rs[1..]))
  }

  // ----- what the loop computes

  lemma {:induction false} CollapseKeepsPrefix(rs: seq<Range>, prev: nat, i: nat)
    requires prev < i <= |rs|
    ensures |Collapse(rs, prev, i)| > prev
    ensures Collapse(rs, prev, i)[..prev] == rs[..prev] && Collapse(rs, prev, i)[prev].low == rs[prev].low
    decreases |rs| - i
  {
    if i < |rs| {
      if Touches(rs[prev], rs[i]) {
        CollapseKeepsPrefix(rs[prev := Merge(rs[prev], rs[i])], prev, i + 1);
      } else {
        CollapseKeepsPrefix(rs, prev + 1, i + 1);
        assert Collapse(rs, prev + 1, i + 1)[..prev + 1][prev] == rs[prev];
        assert Collapse(rs, prev + 1, i + 1)[..prev] == Collapse(rs, prev + 1, i + 1)[..prev + 1][..prev];
        assert rs[..prev] == rs[..prev + 1][..prev];
      }
    }
  }

  /** If everything that is left is consumed the loop ends with one merged range. */
  lemma {:induction false} CollapseMerges(rs: seq<Range>, prev: nat, i: nat)
    requires prev < i <= |rs| && AllTouch(rs[prev], rs[i..])
    ensures Collapse(rs, prev, i) == rs[..prev] + [MergeAll(rs[prev], rs[i..])]
    decreases |rs| - i
  {
    if i < |rs| {
      var qs := rs[prev := Merge(rs[prev], rs[i])];
      assert rs[i..][1..] == qs[i + 1..];
      CollapseMerges(qs, prev, i + 1);
      assert qs[..prev] == rs[..prev];
    } else {
      assert rs[..prev + 1] == rs[..prev] + [rs[prev]];
    }
  }

  /** If something was consumed by `prev` and not all that is left is, then the consumed neighbour of
      `prev` shows up in the result again. */
  lemma {:induction false} CollapseResurrects(rs: seq<Range>, prev: nat, i: nat)
    requires prev + 1 < i <= |rs| && Touches(rs[prev], rs[prev + 1]) && !AllTouch(rs[prev], rs[i..])
    ensures !Collapsed(Collapse(rs, prev, i))
    decreases |rs| - i
  {
    if Touches(rs[prev], rs[i]) {
      var qs := rs[prev := Merge(rs[prev], rs[i])];
      assert rs[i..][1..] == qs[i + 1..];
      assert qs[prev + 1] == rs[prev + 1] && Touches(qs[prev], qs[prev + 1]);
      CollapseResurrects(qs, prev, i + 1);
    } else {
      var out := Collapse(rs, prev + 1, i + 1);
      CollapseKeepsPrefix(rs, prev + 1, i + 1);
      assert out[..prev + 1][prev] == rs[..prev + 1][prev];
      assert Touches(out[prev], out[prev + 1]);
    }
  }

  // ----- what merging denotes

  /** `rest` may follow `a` in a sorted list, with `gap` as above. */
  ghost predicate Follows(a: Range, gap: bool, rest: seq<Range>) {
    WellFormed(a) && AllWellFormed(rest) && Sorted(rest) &&
    (forall k :: 0 <= k < |rest| ==> a.low <= rest[k].low) &&
    (forall k :: 0 <= k < |rest| && rest[k].low == a.low ==> rest[k].hi <= a.hi) &&
    (gap ==> a.hi > 0 && forall k :: 0 <= k < |rest| ==>
      rest[k].low >= a.hi && (rest[k].low == a.hi ==> rest[k].hi == 0))
  }

  /** The ids asked for by `a`, the gap and `rest`. */
  ghost predicate Asked(a: Range, gap: bool, rest: seq<Range>, id: int) {
    In(a, id) || (gap && id == a.hi) || Covers(rest, id)
  }

  lemma CoversSplit(rest: seq<Range>, id: int)
    requires rest != []
    ensures Covers(rest, id) <==> In(rest[0], id) || Covers(rest[1..], id)
  {
    if Covers(rest, id) {
      var k :| 0 <= k < |rest| && In(rest[k], id);
      assert k > 0 ==> rest[1..][k - 1] == rest[k];
    }
    if Covers(rest[1..], id) {
      var k :| 0 <= k < |rest[1..]| && In(rest[1..][k], id);
      assert rest[k + 1] == rest[1..][k];
    }
  }

  lemma {:induction false} MergeAllGrows(a: Range, rest: seq<Range>)
    requires WellFormed(a) && AllWellFormed(rest) && AllTouch(a, rest)
    ensures MergeAll(a, rest).low == a.low && MergeAll(a, rest).hi >= a.hi && WellFormed(MergeAll(a, rest))
    decreases |rest|
  {
    if rest != [] {
      MergeAllGrows(Merge(a, rest[0]), rest[1..]);
    }
  }

  /** Behind a lost single id nothing can be consumed but more copies of it. */
  lemma {:induction false} MergeAllStuck(a: Range, rest: seq<Range>)
    requires a.hi > 0 && AllTouch(a, rest)
    requires forall k :: 0 <= k < |rest| ==> rest[k].low > a.hi && rest[k].low > a.low && (rest[k].low == a.hi + 1 ==> rest[k].hi == 0)
    ensures MergeAll(a, rest) == a
    decreases |rest|
  {
    if rest != [] {
      assert Merge(a, rest[0]) == a;
      MergeAllStuck(a, rest[1..]);
    }
  }

  /** Why an inexact merge shows: the id that is invented or lost. */
  lemma InexactMergeShows(a: Range, gap: bool, rest: seq<Range>) returns (id: int)
    requires Follows(a, gap, rest) && AllTouch(a, rest) && rest != []
    requires rest[0].low != a.low && rest[0].low > a.hi && !(rest[0].hi > 0 && gap)
    ensures In(MergeAll(a, rest), id) != Asked(a, gap, rest, id)
  {
    var b := rest[0];
    MergeAllGrows(Merge(a, b), rest[1..]);
    assert b.low == a.hi + 1;
    if b.hi > 0 {
      id := a.hi;
      assert !Covers(rest, id);
    } else {
      id := b.low;
      assert In(rest[0], id);
      forall k | 0 <= k < |rest[1..]| ensures rest[1..][k].low > a.hi && (rest[1..][k].low == a.hi + 1 ==> rest[1..][k].hi == 0) {
        assert rest[1..][k] == rest[k + 1];
      }
      MergeAllStuck(a, rest[1..]);
    }
  }

  /** One consumed range: what is asked for stays the same if the gap is remembered. */
  lemma MergeStep(a: Range, gap: bool, rest: seq<Range>, gap': bool, id: int)
    requires Follows(a, gap, rest) && rest != [] && Touches(a, rest[0])
    requires gap' == if rest[0].low == a.low || rest[0].low < a.hi then gap
                     else if rest[0].low == a.hi then rest[0].hi == 0 else false
    requires rest[0].low > a.hi && rest[0].low != a.low ==> gap && rest[0].hi > 0
    ensures Follows(Merge(a, rest[0]), gap', rest[1..])
    ensures Asked(a, gap, rest, id) <==> Asked(Merge(a, rest[0]), gap', rest[1..], id)
  {
    CoversSplit(rest, id);
    forall k | 0 <= k < |rest[1..]| ensures rest[1..][k] == rest[k + 1] {
    }
  }

  /** Merging everything that is left denotes what was asked for if and only if all merges are exact. */
  lemma {:induction false} MergeAllExact(a: Range, gap: bool, rest: seq<Range>)
    requires Follows(a, gap, rest) && AllTouch(a, rest)
    ensures ExactMerges(a, gap, rest) <==> forall id :: In(MergeAll(a, rest), id) <==> Asked(a, gap, rest, id)
    decreases |rest|
  {
    if rest == [] {
      assert !Covers(rest, a.hi);
      if gap {
        assert Asked(a, gap, rest, a.hi) && !In(a, a.hi);
      } else {
        forall id ensures Asked(a, gap, rest, id) <==> In(a, id) {
        }
      }
    } else {
      var b := rest[0];
      var gap' := if b.low == a.low || b.low < a.hi then gap else if b.low == a.hi then b.hi == 0 else false;
      if b.low > a.hi && b.low != a.low && !(gap && b.hi > 0) {
        var id := InexactMergeShows(a, gap, rest);
        assert !ExactMerges(a, gap, rest);
      } else {
        forall id ensures Asked(a, gap, rest, id) <==> Asked(Merge(a, b), gap', rest[1..], id) {
          MergeStep(a, gap, rest, gap', id);
        }
        MergeStep(a, gap, rest, gap', 0);
        MergeAllExact(Merge(a, b), gap', rest[1..]);
      }
    }
  }

  // ----- when the loop is right

  /** The first `p + 1` ranges are apart from each other. */
  ghost predicate Apart(rs: seq<Range>, p: nat)
    requires p < |rs|
  {
    forall k :: 0 < k <= p ==> !Touches(rs[k - 1], rs[k])
  }

  /** Ranges that are apart end before the next one starts. */
  lemma {:induction false} ApartEndsBefore(rs: seq<Range>, p: nat, k: nat)
    requires k < p < |rs| && Sorted(rs) && AllWellFormed(rs) && Apart(rs, p)
    ensures End(rs[k]) <= rs[p].low
  {
    if k + 1 < p {
      assert Apart(rs, p - 1);
      ApartEndsBefore(rs, p - 1, k);
    } else {
      assert !Touches(rs[p - 1], rs[p]);
    }
  }

  lemma AppendCovers(rs: seq<Range>, m: Range, id: int)
    ensures Covers(rs + [m], id) <==> Covers(rs, id) || In(m, id)
  {
    var out := rs + [m];
    if Covers(rs, id) {
      var k :| 0 <= k < |rs| && In(rs[k], id);
      assert out[k] == rs[k];
    }
    assert out[|rs|] == m;
  }

  /** The ranges before `p` cover nothing that `m` or the rest does. */
  lemma PrefixIsBefore(rs: seq<Range>, p: nat, m: Range, id: int)
    requires p < |rs| && Sorted(rs) && AllWellFormed(rs) && Apart(rs, p) && m.low == rs[p].low && Covers(rs[..p], id)
    ensures !In(m, id) && !Asked(rs[p], false, rs[p + 1..], id)
  {
    var k :| 0 <= k < p && In(rs[..p][k], id);
    ApartEndsBefore(rs, p, k);
    assert id < rs[p].low;
    var rest := rs[p + 1..];
    assert forall j :: 0 <= j < |rest| ==> rest[j] == rs[p + 1 + j];
  }

  lemma TailFollows(rs: seq<Range>, p: nat)
    requires p < |rs| && Sorted(rs) && AllWellFormed(rs)
    ensures Follows(rs[p], false, rs[p + 1..])
  {
    var rest := rs[p + 1..];
    assert forall j :: 0 <= j < |rest| ==> rest[j] == rs[p + 1 + j];
  }

  /** With one merged range at the end, the same ids are covered if and only if the merges are exact. */
  lemma MergedTail(rs: seq<Range>, p: nat)
    requires p < |rs| && Sorted(rs) && AllWellFormed(rs) && Apart(rs, p) && AllTouch(rs[p], rs[p + 1..])
    ensures SameIds(rs[..p] + [MergeAll(rs[p], rs[p + 1..])], rs) <==> ExactMerges(rs[p], false, rs[p + 1..])
  {
    var a, rest := rs[p], rs[p + 1..];
    TailFollows(rs, p);
    var m := MergeAll(a, rest);
    MergeAllGrows(a, rest);
    MergeAllExact(a, false, rest);
    forall id
      ensures (Covers(rs[..p] + [m], id) <==> Covers(rs, id)) <==> (In(m, id) <==> Asked(a, false, rest, id))
    {
      SplitCovers(rs, p, id);
      AppendCovers(rs[..p], m, id);
      if Covers(rs[..p], id) {
        PrefixIsBefore(rs, p, m, id);
      }
    }
  }

  lemma MergedTailCollapsed(rs: seq<Range>, p: nat, m: Range)
    requires p < |rs| && Apart(rs, p) && m.low == rs[p].low
    ensures Collapsed(rs[..p] + [m])
  {
    var out := rs[..p] + [m];
    forall k | 0 < k < |out| ensures !Touches(out[k - 1], out[k]) {
      assert !Touches(rs[k - 1], rs[k]);
    }
  }

  lemma SplitCovers(rs: seq<Range>, p: nat, id: int)
    requires p < |rs|
    ensures Covers(rs, id) <==> Covers(rs[..p], id) || In(rs[p], id) || Covers(rs[p + 1..], id)
  {
    if Covers(rs, id) {
      var k :| 0 <= k < |rs| && In(rs[k], id);
      assert k < p ==> rs[..p][k] == rs[k];
      assert k > p ==> rs[p + 1..][k - p - 1] == rs[k];
    }
    if Covers(rs[p + 1..], id) {
      var k :| 0 <= k < |rs[p + 1..]| && In(rs[p + 1..][k], id);
      assert rs[k + p + 1] == rs[p + 1..][k];
    }
  }

  lemma {:induction false} CollapseRightIffClean(rs: seq<Range>, p: nat)
    requires p < |rs| && Sorted(rs) && AllWellFormed(rs) && Apart(rs, p)
    ensures Collapsed(Collapse(rs, p, p + 1)) && SameIds(Collapse(rs, p, p + 1), rs) <==> CollapsesCleanly(rs[p..])
    decreases |rs| - p
  {
    if p + 1 == |rs| {
      assert rs[..p + 1] == rs;
    } else {
      assert rs[p..][1..] == rs[p + 1..];
      if !Touches(rs[p], rs[p + 1]) {
        CollapseRightIffClean(rs, p + 1);
      } else if AllTouch(rs[p], rs[p + 1..]) {
        CollapseMerges(rs, p, p + 1);
        MergedTail(rs, p);
        MergeAllGrows(rs[p], rs[p + 1..]);
        MergedTailCollapsed(rs, p, MergeAll(rs[p], rs[p + 1..]));
      } else {
        var qs := rs[p := Merge(rs[p], rs[p + 1])];
        assert rs[p + 1..][1..] == qs[p + 2..];
        CollapseResurrects(qs, p, p + 2);
      }
    }
  }

  /** On sorted ranges the loop leaves nothing to collapse and keeps the ids covered if and only if the
      list collapses cleanly. */
  lemma NormalizeRightIffClean(rs: seq<Range>)
    requires Sorted(rs) && AllWellFormed(rs)
    ensures Collapsed(Normalized(rs)) && SameIds(Normalized(rs), rs) <==> CollapsesCleanly(rs)
  {
    if |rs| > 1 {
      CollapseRightIffClean(rs, 0);
      assert rs[0..] == rs;
    }
  }

  /** The three ways to go wrong. A range behind a consumed one is dropped (10 and 11 are lost), two
      ranges with one id between them are joined (4 is invented), a single id at the end of a range is
      forgotten (4 is lost). */
  lemma NormalizeGoesWrong()
    ensures Normalized([Range(1, 5), Range(2, 4), Range(10, 12)]) == [Range(1, 5), Range(2, 4)]
    ensures Covers([Range(1, 5), Range(2, 4), Range(10, 12)], 10) && !Covers([Range(1, 5), Range(2, 4)], 10)
    ensures Normalized([Range(1, 4), Range(5, 7)]) == [Range(1, 7)]
    ensures Covers([Range(1, 7)], 4) && !Covers([Range(1, 4), Range(5, 7)], 4)
    ensures Normalized([Range(1, 4), Range(4, 0)]) == [Range(1, 4)]
    ensures Covers([Range(1, 4), Range(4, 0)], 4) && !Covers([Range(1, 4)], 4)
  {
    var lagging := [Range(1, 5), Range(2, 4), Range(10, 12)];
    assert lagging[0 := Merge(lagging[0], lagging[1])] == lagging;
    assert Collapse(lagging, 0, 1) == Collapse(lagging, 0, 2) == Collapse(lagging, 1, 3) == lagging[..2];
    assert In(lagging[2], 10);
    var near := [Range(1, 4), Range(5, 7)];
    assert near[0 := Merge(near[0], near[1])] == [Range(1, 7), Range(5, 7)];
    assert Collapse(near, 0, 1) == Collapse([Range(1, 7), Range(5, 7)], 0, 2) == [Range(1, 7), Range(5, 7)][..1];
    assert In([Range(1, 7)][0], 4);
    var single := [Range(1, 4), Range(4, 0)];
    assert single[0 := Merge(single[0], single[1])] == single;
    assert Collapse(single, 0, 1) == Collapse(single, 0, 2) == single[..1];
    assert In(single[1], 4);
  }

  // ----- when the loop keeps the ids, collapsed or not

  /** The end of the range that reaches furthest. */
  function Reach(rs: seq<Range>): int
    requires rs != []
  {
    var e := End(rs[|rs| - 1]);
    if |rs| == 1 then e else Max(Reach(rs[..|rs| - 1]), e)
  }

  /** Extending `a` to the end of `b` takes in the id between them. */
  predicate TakesInGap(a: Range, b: Range) {
    a.low < b.low == a.hi + 1 && a.hi < b.hi
  }

  /** The condition, checked along the loop: an id between two joined ranges was asked for by some other
      range, and in the end no dropped range reaches further than the kept ones do. */
  predicate KeepsIds(asked: seq<Range>, rs: seq<Range>, prev: nat, i: nat)
    requires prev < i <= |rs| && asked != []
    decreases |rs| - i
  {
    if i == |rs| then Reach(asked) <= Reach(rs[..prev + 1])
    else if Touches(rs[prev], rs[i]) then
      (TakesInGap(rs[prev], rs[i]) ==> Covers(asked, rs[prev].hi)) &&
      KeepsIds(asked, rs[prev := Merge(rs[prev], rs[i])], prev, i + 1)
    else KeepsIds(asked, rs, prev + 1, i + 1)
  }

  /** The list while the loop runs: what is behind `prev` is untouched, what is not may have grown. */
  ghost predicate Underway(asked: seq<Range>, rs: seq<Range>, prev: nat) {
    |rs| == |asked| && prev < |rs| && AllWellFormed(rs) && (forall k :: prev < k < |rs| ==> rs[k] == asked[k]) &&
    forall k :: 0 <= k <= prev ==> rs[k].low == asked[k].low && End(asked[k]) <= End(rs[k])
  }

  ghost predicate Within(rs: seq<Range>, asked: seq<Range>) {
    forall id :: Covers(rs, id) ==> Covers(asked, id)
  }

  lemma {:induction false} ReachIsReached(rs: seq<Range>) returns (m: nat)
    requires rs != []
    ensures m < |rs| && End(rs[m]) == Reach(rs) && forall k :: 0 <= k < |rs| ==> End(rs[k]) <= Reach(rs)
    decreases |rs|
  {
    var last := |rs| - 1;
    m := last;
    if |rs| > 1 {
      var before := rs[..last];
      var j := ReachIsReached(before);
      assert forall k :: 0 <= k < last ==> before[k] == rs[k];
      if Reach(rs) != End(rs[last]) {
        m := j;
      }
    }
  }

  lemma ReachedIsCovered(asked: seq<Range>, rs: seq<Range>, prev: nat, id: int)
    requires AllWellFormed(asked) && Underway(asked, rs, prev) && LowsSorted(rs) && Covers(asked, id)
    requires Reach(asked) <= Reach(rs[..prev + 1])
    ensures Covers(rs[..prev + 1], id)
  {
    var out := rs[..prev + 1];
    var m := ReachIsReached(out);
    var n := ReachIsReached(asked);
    var k :| 0 <= k < |asked| && In(asked[k], id);
    if k <= prev {
      assert In(out[k], id);
    } else {
      assert out[m].low <= rs[k].low == asked[k].low;
      assert In(out[m], id);
    }
  }

  /** Nothing is lost if and only if the dropped ranges reach no further than the kept ones, because
      they start no earlier. */
  lemma NothingLostIffReached(asked: seq<Range>, rs: seq<Range>, prev: nat)
    requires AllWellFormed(asked) && Underway(asked, rs, prev) && LowsSorted(rs)
    ensures Within(asked, rs[..prev + 1]) <==> Reach(asked) <= Reach(rs[..prev + 1])
  {
    var out := rs[..prev + 1];
    if Reach(asked) <= Reach(out) {
      forall id | Covers(asked, id) ensures Covers(out, id) {
        ReachedIsCovered(asked, rs, prev, id);
      }
    } else {
      UnreachedIsLost(asked, out);
    }
  }

  lemma UnreachedIsLost(asked: seq<Range>, out: seq<Range>)
    requires AllWellFormed(asked) && asked != [] && out != [] && Reach(out) < Reach(asked)
    ensures !Within(asked, out)
  {
    var n := ReachIsReached(asked);
    var m := ReachIsReached(out);
    var id := Reach(asked) - 1;
    assert In(asked[n], id);
    assert !Covers(out, id);
  }

  ghost predicate LowsSorted(rs: seq<Range>) {
    forall j, k :: 0 <= j < k < |rs| ==> rs[j].low <= rs[k].low
  }

  lemma PrefixCovers(rs: seq<Range>, prev: nat, k: nat, id: int)
    requires k <= prev < |rs| && In(rs[k], id)
    ensures Covers(rs[..prev + 1], id)
  {
    assert rs[..prev + 1][k] == rs[k];
  }

  /** What is covered once stays covered. */
  lemma {:induction false} CollapseCovers(rs: seq<Range>, prev: nat, i: nat, id: int)
    requires prev < i <= |rs| && AllWellFormed(rs) && LowsSorted(rs) && Covers(rs[..prev + 1], id)
    ensures Covers(Collapse(rs, prev, i), id)
    decreases |rs| - i
  {
    if i < |rs| {
      var k :| 0 <= k <= prev && In(rs[..prev + 1][k], id);
      if Touches(rs[prev], rs[i]) {
        var qs := rs[prev := Merge(rs[prev], rs[i])];
        MergeCovers(rs[prev], rs[i], id);
        PrefixCovers(qs, prev, k, id);
        CollapseCovers(qs, prev, i + 1, id);
      } else {
        PrefixCovers(rs, prev + 1, k, id);
        CollapseCovers(rs, prev + 1, i + 1, id);
      }
    }
  }

  /** Joining two ranges covers what they do and, possibly, the id between them. */
  lemma MergeCovers(a: Range, b: Range, id: int)
    requires WellFormed(a) && WellFormed(b) && Touches(a, b) && a.low <= b.low
    ensures In(a, id) ==> In(Merge(a, b), id)
    ensures In(Merge(a, b), id) ==> In(a, id) || In(b, id) || (TakesInGap(a, b) && id == a.hi)
    ensures TakesInGap(a, b) ==> In(Merge(a, b), a.hi)
    ensures WellFormed(Merge(a, b)) && Merge(a, b).low == a.low && End(a) <= End(Merge(a, b))
  {
  }

  lemma JoiningIsUnderway(asked: seq<Range>, rs: seq<Range>, prev: nat, i: nat)
    requires Underway(asked, rs, prev) && LowsSorted(rs) && prev < i < |rs| && Touches(rs[prev], rs[i])
    ensures Underway(asked, rs[prev := Merge(rs[prev], rs[i])], prev) && LowsSorted(rs[prev := Merge(rs[prev], rs[i])])
  {
    MergeCovers(rs[prev], rs[i], 0);
  }

  lemma JoiningStaysWithin(asked: seq<Range>, rs: seq<Range>, prev: nat, i: nat)
    requires Underway(asked, rs, prev) && LowsSorted(rs) && prev < i < |rs| && Touches(rs[prev], rs[i])
    requires Within(rs[..prev + 1], asked) && (TakesInGap(rs[prev], rs[i]) ==> Covers(asked, rs[prev].hi))
    ensures Within(rs[prev := Merge(rs[prev], rs[i])][..prev + 1], asked)
  {
    var qs := rs[prev := Merge(rs[prev], rs[i])];
    forall id | Covers(qs[..prev + 1], id) ensures Covers(asked, id) {
      var k :| 0 <= k <= prev && In(qs[..prev + 1][k], id);
      MergeCovers(rs[prev], rs[i], id);
      if k < prev || In(rs[prev], id) {
        assert In(rs[..prev + 1][k], id);
      } else if In(rs[i], id) {
        assert In(asked[i], id);
      }
    }
  }

  lemma NextStaysWithin(asked: seq<Range>, rs: seq<Range>, prev: nat)
    requires Underway(asked, rs, prev) && prev + 1 < |rs| && Within(rs[..prev + 1], asked)
    ensures Within(rs[..prev + 2], asked)
  {
    assert rs[..prev + 2] == rs[..prev + 1] + [rs[prev + 1]];
    forall id | Covers(rs[..prev + 2], id) ensures Covers(asked, id) {
      AppendCovers(rs[..prev + 1], rs[prev + 1], id);
      assert In(rs[prev + 1], id) ==> In(asked[prev + 1], id);
    }
  }

  /** The loop so far has kept to what was asked for. */
  ghost predicate OnTrack(asked: seq<Range>, rs: seq<Range>, prev: nat) {
    Underway(asked, rs, prev) && LowsSorted(rs) && Within(rs[..prev + 1], asked)
  }

  /** Either the loop stays on track or an id that nobody asked for is covered to the end. */
  lemma JoiningStaysOnTrack(asked: seq<Range>, rs: seq<Range>, prev: nat, i: nat)
    requires OnTrack(asked, rs, prev) && prev < i < |rs| && Touches(rs[prev], rs[i])
    ensures var qs := rs[prev := Merge(rs[prev], rs[i])];
            if TakesInGap(rs[prev], rs[i]) && !Covers(asked, rs[prev].hi)
            then Covers(Collapse(qs, prev, i + 1), rs[prev].hi) else OnTrack(asked, qs, prev)
  {
    var qs := rs[prev := Merge(rs[prev], rs[i])];
    MergeCovers(rs[prev], rs[i], rs[prev].hi);
    JoiningIsUnderway(asked, rs, prev, i);
    if TakesInGap(rs[prev], rs[i]) && !Covers(asked, rs[prev].hi) {
      PrefixCovers(qs, prev, prev, rs[prev].hi);
      CollapseCovers(qs, prev, i + 1, rs[prev].hi);
    } else {
      JoiningStaysWithin(asked, rs, prev, i);
    }
  }

  lemma NextStaysOnTrack(asked: seq<Range>, rs: seq<Range>, prev: nat)
    requires OnTrack(asked, rs, prev) && prev + 1 < |rs|
    ensures OnTrack(asked, rs, prev + 1)
  {
    NextStaysWithin(asked, rs, prev);
  }

  lemma {:induction false} CollapseKeepsIdsIff(asked: seq<Range>, rs: seq<Range>, prev: nat, i: nat)
    requires AllWellFormed(asked) && OnTrack(asked, rs, prev) && prev < i <= |rs|
    ensures SameIds(Collapse(rs, prev, i), asked) <==> KeepsIds(asked, rs, prev, i)
    decreases |rs| - i
  {
    if i == |rs| {
      NothingLostIffReached(asked, rs, prev);
    } else if Touches(rs[prev], rs[i]) {
      JoiningStaysOnTrack(asked, rs, prev, i);
      if !TakesInGap(rs[prev], rs[i]) || Covers(asked, rs[prev].hi) {
        CollapseKeepsIdsIff(asked, rs[prev := Merge(rs[prev], rs[i])], prev, i + 1);
      }
    } else {
      NextStaysOnTrack(asked, rs, prev);
      CollapseKeepsIdsIff(asked, rs, prev + 1, i + 1);
    }
  }

  /** On sorted ranges the ids covered stay the same if and only if every id taken in between two joined
      ranges was asked for and no dropped range reaches further than all kept ones. */
  lemma NormalizeKeepsIdsIff(rs: seq<Range>)
    requires Sorted(rs) && AllWellFormed(rs)
    ensures SameIds(Normalized(rs), rs) <==> |rs| <= 1 || KeepsIds(rs, rs, 0, 1)
  {
    if |rs| > 1 {
      assert Within(rs[..1], rs) by {
        forall id | Covers(rs[..1], id) ensures Covers(rs, id) {
          assert In(rs[0], id);
        }
      }
      CollapseKeepsIdsIff(rs, rs, 0, 1);
    }
  }

  /** A list that does not collapse cleanly may still keep its ids, by luck: here the dropped range is a
      copy of one that is kept. */
  lemma UncleanMayKeepIds()
    ensures var rs := [Range(1, 5), Range(2, 4), Range(10, 12), Range(10, 12)];
            Normalized(rs) == rs[..3] && SameIds(Normalized(rs), rs) && !CollapsesCleanly(rs)
  {
    var rs := [Range(1, 5), Range(2, 4), Range(10, 12), Range(10, 12)];
    assert rs[0 := Merge(rs[0], rs[1])] == rs;
    assert Collapse(rs, 0, 1) == Collapse(rs, 0, 2) == Collapse(rs, 1, 3) == Collapse(rs, 2, 4) == rs[..3];
    forall id ensures Covers(rs[..3], id) <==> Covers(rs, id) {
      AppendCovers(rs[..3], rs[3], id);
      assert rs[..3] + [rs[3]] == rs;
      assert In(rs[3], id) ==> In(rs[..3][2], id);
    }
    assert rs[1..][0] == rs[1] && Merge(rs[0], rs[1]) == rs[0] && rs[1..][1..][0] == rs[2];
    assert !AllTouch(rs[0], rs[1..]);
  }

  // ----- counting unread messages

  ghost predicate Disjoint(rs: seq<Range>) {
    forall j, k, id :: 0 <= j < k < |rs| && In(rs[j], id) ==> !In(rs[k], id)
  }

  /** The reference count: how many of the `n` ids from `from` on are covered. */
  ghost function CountCovered(rs: seq<Range>, from: int, n: nat): nat {
    if n == 0 then 0 else (if Covers(rs, from + n - 1) then 1 else 0) + CountCovered(rs, from, n - 1)
  }

  function Max(a: int, b: int): int {
    if a < b then b else a
  }

  function Min(a: int, b: int): int {
    if a < b then a else b
  }

  /** The number of messages after `readID`. */
  function Unread(readID: int, lastID: int): nat {
    Max(0, lastID - readID)
  }

  function Overlap(r: Range, from: int, n: nat): nat {
    Max(0, Min(from + n, End(r)) - Max(from, r.low))
  }

  /** Some id of the window is covered already and again by `r`. */
  ghost predicate Clashes(rs: seq<Range>, r: Range, from: int, n: nat) {
    exists id :: from <= id < from + n && Covers(rs, id) && In(r, id)
  }

  lemma {:induction false} CountMore(rs: seq<Range>, r: Range, from: int, n: nat)
    requires WellFormed(r)
    ensures CountCovered(rs + [r], from, n) <= CountCovered(rs, from, n) + Overlap(r, from, n)
    ensures CountCovered(rs + [r], from, n) == CountCovered(rs, from, n) + Overlap(r, from, n) <==> !Clashes(rs, r, from, n)
  {
    if n > 0 {
      CountMore(rs, r, from, n - 1);
      var id := from + n - 1;
      AppendCovers(rs, r, id);
      assert Clashes(rs, r, from, n) <==> Clashes(rs, r, from, n - 1) || (Covers(rs, id) && In(r, id));
      assert Overlap(r, from, n) == Overlap(r, from, n - 1) + if In(r, id) then 1 else 0;
    }
  }

  lemma {:induction false} CountNothing(from: int, n: nat)
    ensures CountCovered([], from, n) == 0
  {
    if n > 0 {
      CountNothing(from, n - 1);
    }
  }

  lemma {:induction false} CountBounded(rs: seq<Range>, from: int, n: nat)
    ensures CountCovered(rs, from, n) <= n
  {
    if n > 0 {
      CountBounded(rs, from, n - 1);
    }
  }

  lemma {:induction false} CountSame(rs: seq<Range>, qs: seq<Range>, from: int, n: nat)
    requires SameIds(rs, qs)
    ensures CountCovered(rs, from, n) == CountCovered(qs, from, n)
  {
    if n > 0 {
      CountSame(rs, qs, from, n - 1);
    }
  }

  /** No id of the window lies in two ranges. */
  ghost predicate NotTwice(rs: seq<Range>, from: int, n: nat) {
    forall j, k, id :: 0 <= j < k < |rs| && from <= id < from + n && In(rs[j], id) ==> !In(rs[k], id)
  }

  /** The sum of what each range covers of the window. */
  function TotalOverlap(rs: seq<Range>, from: int, n: nat): nat {
    if rs == [] then 0 else TotalOverlap(rs[..|rs| - 1], from, n) + Overlap(rs[|rs| - 1], from, n)
  }

  lemma NotTwiceAgain(rs: seq<Range>, r: Range, from: int, n: nat)
    ensures NotTwice(rs + [r], from, n) <==> NotTwice(rs, from, n) && !Clashes(rs, r, from, n)
  {
    var qs := rs + [r];
    assert qs[|rs|] == r && forall k :: 0 <= k < |rs| ==> qs[k] == rs[k];
    if NotTwice(qs, from, n) {
      assert NotTwice(rs, from, n) by {
        forall j, k, id | 0 <= j < k < |rs| && from <= id < from + n && In(rs[j], id) ensures !In(rs[k], id) {
          assert In(qs[j], id);
        }
      }
      forall id | from <= id < from + n && Covers(rs, id) ensures !In(r, id) {
        var j :| 0 <= j < |rs| && In(rs[j], id);
        assert In(qs[j], id);
      }
    }
    if NotTwice(rs, from, n) && !Clashes(rs, r, from, n) {
      forall j, k, id | 0 <= j < k < |qs| && from <= id < from + n && In(qs[j], id) ensures !In(qs[k], id) {
        assert In(rs[j], id) && Covers(rs, id);
      }
    }
  }

  /** The sum is never too small, and right if and only if no id of the window lies in two ranges. */
  lemma {:induction false} SumRightIffNotTwice(rs: seq<Range>, from: int, n: nat)
    requires AllWellFormed(rs)
    ensures TotalOverlap(rs, from, n) >= CountCovered(rs, from, n)
    ensures TotalOverlap(rs, from, n) == CountCovered(rs, from, n) <==> NotTwice(rs, from, n)
    decreases |rs|
  {
    if rs == [] {
      CountNothing(from, n);
    } else {
      var before, r := rs[..|rs| - 1], rs[|rs| - 1];
      assert before + [r] == rs;
      SumRightIffNotTwice(before, from, n);
      CountMore(before, r, from, n);
      NotTwiceAgain(before, r, from, n);
    }
  }

  /** The result is the number of unread ids which the ranges cover if and only if no unread id lies in
      two of them, and then never more than there are; otherwise it is too large. */
  method CalculateUnreadInRanges(readID: int, lastID: int, ranges: seq<Range>) returns (count: int)
    requires AllWellFormed(ranges)
    ensures count == TotalOverlap(ranges, readID + 1, Unread(readID, lastID))
    ensures count >= CountCovered(ranges, readID + 1, Unread(readID, lastID))
    ensures count == CountCovered(ranges, readID + 1, Unread(readID, lastID)) <==>
            NotTwice(ranges, readID + 1, Unread(readID, lastID))
    ensures NotTwice(ranges, readID + 1, Unread(readID, lastID)) ==> count <= Unread(readID, lastID)
  {
    SumRightIffNotTwice(ranges, readID + 1, Unread(readID, lastID));
    CountBounded(ranges, readID + 1, Unread(readID, lastID));
    if readID >= lastID {
      NoOverlap(ranges, readID + 1);
      return 0;
    }
    var unreadStart, unreadEnd := readID + 1, lastID;
    count := 0;
    for i := 0 to |ranges|
      invariant count == TotalOverlap(ranges[..i], unreadStart, Unread(readID, lastID))
    {
      var rangeStart, rangeEnd := ranges[i].low, ranges[i].hi;
      assert ranges[..i + 1][..i] == ranges[..i];
      if rangeEnd == 0 {
        rangeEnd := rangeStart + 1;
      }
      if rangeEnd <= readID {
        continue;
      }
      var intersectionStart := Max(unreadStart, rangeStart);
      var intersectionEnd := Min(unreadEnd + 1, rangeEnd);
      if intersectionStart < intersectionEnd {
        count := count + (intersectionEnd - intersectionStart);
      }
    }
    assert ranges[..|ranges|] == ranges;
  }

  lemma {:induction false} NoOverlap(rs: seq<Range>, from: int)
    requires AllWellFormed(rs)
    ensures TotalOverlap(rs, from, 0) == 0
    decreases |rs|
  {
    if rs != [] {
      NoOverlap(rs[..|rs| - 1], from);
    }
  }

  /** Of three unread messages all of which two overlapping ranges cover four are counted; the same two
      ranges are counted right once message 2 was read. */
  lemma OverlapIsCountedTwice()
    ensures var rs := [Range(1, 3), Range(2, 4)];
            TotalOverlap(rs, 1, Unread(0, 3)) == 4 && CountCovered(rs, 1, Unread(0, 3)) == 3 &&
            !Disjoint(rs) && NotTwice(rs, 3, Unread(2, 3))
  {
    var rs := [Range(1, 3), Range(2, 4)];
    assert rs[..1][..0] == [] && rs[..1] == [Range(1, 3)];
    assert In(rs[0], 1) && In(rs[0], 2) && In(rs[1], 2) && In(rs[1], 3);
    assert TotalOverlap(rs, 1, 3) == TotalOverlap(rs[..1], 1, 3) + 2;
    assert TotalOverlap(rs[..1], 1, 3) == TotalOverlap([], 1, 3) + 2;
    assert CountCovered(rs, 1, 3) == 1 + CountCovered(rs, 1, 2) == 2 + CountCovered(rs, 1, 1) == 3 + CountCovered(rs, 1, 0);
  }

  /** Collapsed sorted ranges are pairwise disjoint. */
  lemma CollapsedDisjoint(rs: seq<Range>)
    requires Sorted(rs) && AllWellFormed(rs) && Collapsed(rs)
    ensures Disjoint(rs)
  {
    forall j, k, id | 0 <= j < k < |rs| && In(rs[j], id) ensures !In(rs[k], id) {
      assert Apart(rs, k);
      ApartEndsBefore(rs, k, j);
    }
  }

  lemma {:induction false} CollapseShape(rs: seq<Range>, prev: nat, i: nat)
    requires prev < i <= |rs| && AllWellFormed(rs)
    requires forall j, k :: 0 <= j < k < |rs| ==> rs[j].low <= rs[k].low
    ensures var out := Collapse(rs, prev, i);
            AllWellFormed(out) && forall j, k :: 0 <= j < k < |out| ==> out[j].low <= out[k].low
    decreases |rs| - i
  {
    if i < |rs| {
      if Touches(rs[prev], rs[i]) {
        CollapseShape(rs[prev := Merge(rs[prev], rs[i])], prev, i + 1);
      } else {
        CollapseShape(rs, prev + 1, i + 1);
      }
    }
  }

  /** From a delete request to the unread counter: if the sorted canonical ranges collapse cleanly the
      counter goes down by exactly the number of unread messages asked to be deleted. */
  method UnreadDeleted(readID: int, lastID: int, rs: array<Range>) returns (count: int)
    requires Sorted(rs[..]) && AllWellFormed(rs[..]) && CollapsesCleanly(rs[..])
    modifies rs
    ensures count == CountCovered(old(rs[..]), readID + 1, Unread(readID, lastID))
  {
    ghost var sorted := rs[..];
    CleanOutput(sorted);
    var n := Normalize(rs);
    CountSame(rs[..n], sorted, readID + 1, Unread(readID, lastID));
    assert NotTwice(rs[..n], readID + 1, Unread(readID, lastID));
    count := CalculateUnreadInRanges(readID, lastID, rs[..n]);
  }

  lemma CleanOutput(sorted: seq<Range>)
    requires Sorted(sorted) && AllWellFormed(sorted) && CollapsesCleanly(sorted)
    ensures SameIds(Normalized(sorted), sorted) && AllWellFormed(Normalized(sorted)) && Disjoint(Normalized(sorted))
  {
    var out := Normalized(sorted);
    NormalizeRightIffClean(sorted);
    if |sorted| > 1 {
      CollapseShape(sorted, 0, 1);
    }
    assert Sorted(out) by {
      forall j, k | 0 <= j < k < |out| ensures out[j].low < out[k].low {
        assert !Touches(out[j], out[j + 1]);
      }
    }
    CollapsedDisjoint(out);
  }
}
