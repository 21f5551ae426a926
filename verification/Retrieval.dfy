/** Reciprocal rank fusion, `rag/retrieve.py`, over exact rationals. */
module Retrieval {
  import opened Basics

  type ChunkId = nat

  /** What rank `r`, counted from 1, contributes. */
  function Share(rrfK: nat, r: nat): real
    requires r >= 1
  {
    1.0 / (rrfK + r) as real
  }

  lemma ShareFalls(rrfK: nat, r: nat, s: nat)
    requires 1 <= r <= s
    ensures 0.0 < Share(rrfK, s) <= Share(rrfK, r)
    ensures r < s ==> Share(rrfK, s) < Share(rrfK, r)
  {
    InverseFalls((rrfK + r) as real, (rrfK + s) as real);
  }

  lemma InverseFalls(a: real, b: real)
    requires 0.0 < a <= b
    ensures 0.0 < 1.0 / b <= 1.0 / a && (a < b ==> 1.0 / b < 1.0 / a)
  {
    assert 1.0 / a - 1.0 / b == (b - a) / (a * b);
    assert a * b > 0.0;
  }

  /** What the first `n` hits of one list contribute to `id`. */
  function ListScore(hits: seq<ChunkId>, n: nat, rrfK: nat, id: ChunkId): real
    requires n <= |hits|
  {
    if n == 0 then 0.0 else ListScore(hits, n - 1, rrfK, id) + if hits[n - 1] == id then Share(rrfK, n) else 0.0
  }

  function Score(lists: seq<seq<ChunkId>>, n: nat, rrfK: nat, id: ChunkId): real
    requires n <= |lists|
  {
    if n == 0 then 0.0 else Score(lists, n - 1, rrfK, id) + ListScore(lists[n - 1], |lists[n - 1]|, rrfK, id)
  }

  function Fused(lists: seq<seq<ChunkId>>, rrfK: nat, id: ChunkId): real {
    Score(lists, |lists|, rrfK, id)
  }

  /** In a list without duplicates an id contributes the share of its one rank. */
  lemma {:induction false} ListScoreIsShare(hits: seq<ChunkId>, n: nat, rrfK: nat, i: nat)
    requires Distinct(hits) && n <= |hits| && i < |hits|
    ensures ListScore(hits, n, rrfK, hits[i]) == if i < n then Share(rrfK, i + 1) else 0.0
  {
    hide Share;
    if n > 0 {
      ListScoreIsShare(hits, n - 1, rrfK, i);
      assert i < n - 1 ==> hits[i] != hits[n - 1];
      assert n - 1 < i ==> hits[n - 1] != hits[i];
    }
  }

  lemma {:induction false} AbsentScoresNothing(hits: seq<ChunkId>, n: nat, rrfK: nat, id: ChunkId)
    requires n <= |hits| && id !in hits
    ensures ListScore(hits, n, rrfK, id) == 0.0
  {
    if n > 0 {
      AbsentScoresNothing(hits, n - 1, rrfK, id);
    }
  }

  lemma ListScoreRange(hits: seq<ChunkId>, rrfK: nat, id: ChunkId)
    requires Distinct(hits)
    ensures ListScore(hits, |hits|, rrfK, id) >= 0.0
    ensures id in hits <==> ListScore(hits, |hits|, rrfK, id) > 0.0
  {
    if id in hits {
      var i :| 0 <= i < |hits| && hits[i] == id;
      ListScoreIsShare(hits, |hits|, rrfK, i);
      ShareFalls(rrfK, i + 1, i + 1);
    } else {
      AbsentScoresNothing(hits, |hits|, rrfK, id);
    }
  }

  // ---------------------------------------------------------------- dominance

  /** Wherever the list holds `y` it holds `x` further up. */
  predicate AheadIn(hits: seq<ChunkId>, x: ChunkId, y: ChunkId) {
    forall j :: 0 <= j < |hits| && hits[j] == y ==> exists i :: 0 <= i < j && hits[i] == x
  }

  lemma AheadScoresMore(hits: seq<ChunkId>, rrfK: nat, x: ChunkId, y: ChunkId)
    requires Distinct(hits) && AheadIn(hits, x, y)
    ensures ListScore(hits, |hits|, rrfK, x) >= ListScore(hits, |hits|, rrfK, y)
    ensures y in hits ==> ListScore(hits, |hits|, rrfK, x) > ListScore(hits, |hits|, rrfK, y)
  {
    if y in hits {
      var j :| 0 <= j < |hits| && hits[j] == y;
      var i :| 0 <= i < j && hits[i] == x;
      ListScoreIsShare(hits, |hits|, rrfK, i);
      ListScoreIsShare(hits, |hits|, rrfK, j);
      ShareFalls(rrfK, i + 1, j + 1);
    } else {
      AbsentScoresNothing(hits, |hits|, rrfK, y);
      ListScoreRange(hits, rrfK, x);
    }
  }

  /** An item ahead in every list that holds the other scores strictly more. */
  lemma {:induction false} DominanceRespected(lists: seq<seq<ChunkId>>, n: nat, rrfK: nat, x: ChunkId, y: ChunkId)
    requires n <= |lists| && forall l :: 0 <= l < n ==> Distinct(lists[l]) && AheadIn(lists[l], x, y)
    ensures Score(lists, n, rrfK, x) >= Score(lists, n, rrfK, y)
    ensures (exists l :: 0 <= l < n && y in lists[l]) ==> Score(lists, n, rrfK, x) > Score(lists, n, rrfK, y)
  {
    if n > 0 {
      DominanceRespected(lists, n - 1, rrfK, x, y);
      AheadScoresMore(lists[n - 1], rrfK, x, y);
    }
  }

  // ---------------------------------------------------------------- agreement beats a single list

  lemma TwoLists(a: seq<ChunkId>, b: seq<ChunkId>, rrfK: nat, id: ChunkId)
    ensures Fused([a, b], rrfK, id) == ListScore(a, |a|, rrfK, id) + ListScore(b, |b|, rrfK, id)
  {
    var lists := [a, b];
    assert Score(lists, 0, rrfK, id) == 0.0;
    assert Score(lists, 1, rrfK, id) == ListScore(a, |a|, rrfK, id);
  }

  /** Two of the lowest shares against one of the highest. */
  lemma TwiceLowestBeatsHighest(rrfK: nat, depth: nat)
    requires depth >= 1
    ensures 2.0 * Share(rrfK, depth) > Share(rrfK, 1) <==> depth < rrfK + 2
  {
    var (p, q) := ((rrfK + depth) as real, (rrfK + 1) as real);
    assert 2.0 * Share(rrfK, depth) - Share(rrfK, 1) == (2.0 * q - p) / (p * q);
    assert p * q > 0.0;
    assert 2.0 * q - p > 0.0 <==> depth < rrfK + 2;
  }

  predicate Shallow(hits: seq<ChunkId>, depth: nat) {
    Distinct(hits) && |hits| <= depth
  }

  /** Every item in both lists outscores every item in only one of them. */
  ghost predicate AgreementWins(rrfK: nat, depth: nat) {
    forall a: seq<ChunkId>, b: seq<ChunkId>, x, y ::
      Shallow(a, depth) && Shallow(b, depth) && x in a && x in b && (y in a || y in b) && !(y in a && y in b)
      ==> Fused([a, b], rrfK, x) > Fused([a, b], rrfK, y)
  }

  lemma BothBeatSingle(a: seq<ChunkId>, b: seq<ChunkId>, rrfK: nat, depth: nat, x: ChunkId, y: ChunkId)
    requires Shallow(a, depth) && Shallow(b, depth) && depth < rrfK + 2
    requires x in a && x in b && !(y in a && y in b)
    ensures Fused([a, b], rrfK, x) > Fused([a, b], rrfK, y)
  {
    TwoLists(a, b, rrfK, x);
    TwoLists(a, b, rrfK, y);
    TwiceLowestBeatsHighest(rrfK, depth);
    LowestShare(a, rrfK, depth, x);
    LowestShare(b, rrfK, depth, x);
    HighestShare(a, rrfK, y);
    HighestShare(b, rrfK, y);
  }

  lemma LowestShare(hits: seq<ChunkId>, rrfK: nat, depth: nat, id: ChunkId)
    requires Shallow(hits, depth) && id in hits
    ensures depth >= 1 && ListScore(hits, |hits|, rrfK, id) >= Share(rrfK, depth)
  {
    var i :| 0 <= i < |hits| && hits[i] == id;
    ListScoreIsShare(hits, |hits|, rrfK, i);
    ShareFalls(rrfK, i + 1, depth);
  }

  lemma HighestShare(hits: seq<ChunkId>, rrfK: nat, id: ChunkId)
    requires Distinct(hits)
    ensures ListScore(hits, |hits|, rrfK, id) <= Share(rrfK, 1)
    ensures id !in hits ==> ListScore(hits, |hits|, rrfK, id) == 0.0
  {
    ShareFalls(rrfK, 1, 1);
    if id in hits {
      var i :| 0 <= i < |hits| && hits[i] == id;
      ListScoreIsShare(hits, |hits|, rrfK, i);
      ShareFalls(rrfK, 1, i + 1);
    } else {
      AbsentScoresNothing(hits, |hits|, rrfK, id);
    }
  }

  /** Fillers in front of a last item. */
  function Fillers(first: nat, n: nat): (r: seq<ChunkId>)
    ensures |r| == n && forall i :: 0 <= i < n ==> r[i] == first + i
  {
    seq(n, i => first + i)
  }

  /** Agreement wins for all lists of a given depth exactly when the depth is below rrf_k + 2. */
  lemma AgreementWinsExactly(rrfK: nat, depth: nat)
    ensures AgreementWins(rrfK, depth) <==> depth < rrfK + 2
  {
    if depth < rrfK + 2 {
      forall a: seq<ChunkId>, b: seq<ChunkId>, x, y
        | Shallow(a, depth) && Shallow(b, depth) && x in a && x in b && (y in a || y in b) && !(y in a && y in b)
        ensures Fused([a, b], rrfK, x) > Fused([a, b], rrfK, y)
      {
        BothBeatSingle(a, b, rrfK, depth, x, y);
      }
    } else {
      LastInBothLoses(rrfK, depth);
    }
  }

  lemma LastInBothLoses(rrfK: nat, depth: nat)
    requires depth >= rrfK + 2
    ensures !AgreementWins(rrfK, depth)
  {
    var (a, b) := (Fillers(1, depth - 1) + [0], Fillers(depth, depth - 1) + [0]);
    var (x, y) := (0, 1);
    assert a[depth - 1] == 0 && b[depth - 1] == 0 && a[0] == 1;
    assert Shallow(a, depth) && Shallow(b, depth);
    assert y !in b;
    TwoLists(a, b, rrfK, x);
    TwoLists(a, b, rrfK, y);
    ListScoreIsShare(a, |a|, rrfK, depth - 1);
    ListScoreIsShare(b, |b|, rrfK, depth - 1);
    ListScoreIsShare(a, |a|, rrfK, 0);
    AbsentScoresNothing(b, |b|, rrfK, y);
    TwiceLowestBeatsHighest(rrfK, depth);
    assert Fused([a, b], rrfK, x) <= Fused([a, b], rrfK, y);
  }

  // ---------------------------------------------------------------- the fusion loop

  /** Higher score first; equal scores keep the order of first appearance. */
  predicate Ranks(score: ChunkId -> real, seen: ChunkId -> nat, a: ChunkId, b: ChunkId) {
    score(a) > score(b) || (score(a) == score(b) && seen(a) < seen(b))
  }

  /** The ids of the first `n` lists and `m` more hits in order of first appearance. */
  function Appeared(lists: seq<seq<ChunkId>>, n: nat, m: nat): (r: seq<ChunkId>)
    requires n <= |lists| && (m > 0 ==> n < |lists| && m <= |lists[n]|)
    ensures Distinct(r)
    decreases n, m
  {
    if m > 0 then
      var r := Appeared(lists, n, m - 1);
      if lists[n][m - 1] in r then r else r + [lists[n][m - 1]]
    else if n > 0 then Appeared(lists, n - 1, |lists[n - 1]|) else []
  }

  function PlaceOf(ids: seq<ChunkId>, id: ChunkId): (r: nat)
    ensures r <= |ids| && (r < |ids| ==> ids[r] == id) && (r == |ids| <==> id !in ids)
  {
    if ids == [] then 0 else
    var r := PlaceOf(ids[..|ids| - 1], id);
    if r < |ids| - 1 then r else if ids[|ids| - 1] == id then |ids| - 1 else |ids|
  }

  /** What is scored after `n` lists and `m` more hits. */
  function Partial(lists: seq<seq<ChunkId>>, n: nat, m: nat, rrfK: nat, id: ChunkId): real
    requires n <= |lists| && (m > 0 ==> n < |lists| && m <= |lists[n]|)
  {
    Score(lists, n, rrfK, id) + if m > 0 then ListScore(lists[n], m, rrfK, id) else 0.0
  }

  ghost predicate Accumulated(fused: map<ChunkId, real>, order: seq<ChunkId>, lists: seq<seq<ChunkId>>, n: nat,
                              m: nat, rrfK: nat)
    requires n <= |lists| && (m > 0 ==> n < |lists| && m <= |lists[n]|)
  {
    && order == Appeared(lists, n, m) && (forall id :: id in fused <==> id in order)
    && (forall id :: (if id in fused then fused[id] else 0.0) == Partial(lists, n, m, rrfK, id))
  }

  predicate InSome(lists: seq<seq<ChunkId>>, id: ChunkId) {
    exists l :: 0 <= l < |lists| && id in lists[l]
  }

  /** Falling fused scores, ties in order of first appearance. */
  ghost predicate InRankOrder(ranked: seq<ChunkId>, lists: seq<seq<ChunkId>>, rrfK: nat) {
    forall i, j :: 0 <= i < j < |ranked| ==>
      Ranks((id: ChunkId) => Fused(lists, rrfK, id), (id: ChunkId) => PlaceOf(Appeared(lists, |lists|, 0), id),
            ranked[i], ranked[j])
  }

  /** `rrf_fuse`: each id of the union once with its fused score, best first. */
  method RrfFuse(lists: seq<seq<ChunkId>>, rrfK: nat) returns (ranked: seq<ChunkId>, fused: map<ChunkId, real>)
    ensures Distinct(ranked) && InRankOrder(ranked, lists, rrfK)
    ensures forall id :: id in ranked <==> InSome(lists, id)
    ensures forall id :: id in ranked ==> id in fused && fused[id] == Fused(lists, rrfK, id)
  {
    fused := map[];
    var order: seq<ChunkId> := [];
    for n := 0 to |lists|
      invariant Accumulated(fused, order, lists, n, 0, rrfK)
    {
      for m := 0 to |lists[n]|
        invariant Accumulated(fused, order, lists, n, m, rrfK)
      {
        var id := lists[n][m];
        HitAccumulates(fused, order, lists, n, m, rrfK);
        if id !in fused {
          order := order + [id];
        }
        fused := fused[id := (if id in fused then fused[id] else 0.0) + 1.0 / (rrfK + (m + 1)) as real];
      }
      ListDone(fused, order, lists, n, rrfK);
    }
    hide Score, ListScore, Appeared;
    var score := (id: ChunkId) => if id in fused then fused[id] else 0.0;
    var seen := (id: ChunkId) => PlaceOf(order, id);
    Sortable(order, score, seen);
    ranked := SortRanked(order, score, seen);
    AppearedExactly(lists, |lists|);
  }

  lemma HitAccumulates(fused: map<ChunkId, real>, order: seq<ChunkId>, lists: seq<seq<ChunkId>>, n: nat, m: nat,
                       rrfK: nat)
    requires n < |lists| && m < |lists[n]| && Accumulated(fused, order, lists, n, m, rrfK)
    ensures var id := lists[n][m];
            Accumulated(fused[id := (if id in fused then fused[id] else 0.0) + 1.0 / (rrfK + (m + 1)) as real],
                        if id in fused then order else order + [id], lists, n, m + 1, rrfK)
  {
    var id := lists[n][m];
    forall x
      ensures Partial(lists, n, m + 1, rrfK, x)
           == Partial(lists, n, m, rrfK, x) + if x == id then Share(rrfK, m + 1) else 0.0
    {
      assert ListScore(lists[n], 0, rrfK, x) == 0.0;
    }
  }

  lemma ListDone(fused: map<ChunkId, real>, order: seq<ChunkId>, lists: seq<seq<ChunkId>>, n: nat, rrfK: nat)
    requires n < |lists| && Accumulated(fused, order, lists, n, |lists[n]|, rrfK)
    ensures Accumulated(fused, order, lists, n + 1, 0, rrfK)
  {
    forall x ensures Partial(lists, n + 1, 0, rrfK, x) == Partial(lists, n, |lists[n]|, rrfK, x) {
      assert |lists[n]| == 0 ==> ListScore(lists[n], |lists[n]|, rrfK, x) == 0.0;
    }
    assert Appeared(lists, n + 1, 0) == Appeared(lists, n, |lists[n]|);
  }

  lemma {:induction false} AppearedIn(lists: seq<seq<ChunkId>>, n: nat, m: nat, id: ChunkId)
    requires n <= |lists| && (m > 0 ==> n < |lists| && m <= |lists[n]|)
    ensures id in Appeared(lists, n, m) <==>
      (exists l :: 0 <= l < n && id in lists[l]) || (m > 0 && id in lists[n][..m])
    decreases n, m
  {
    if m > 0 {
      AppearedIn(lists, n, m - 1, id);
      assert lists[n][..m] == lists[n][..m - 1] + [lists[n][m - 1]];
    } else if n > 0 {
      AppearedIn(lists, n - 1, |lists[n - 1]|, id);
      assert lists[n - 1][..|lists[n - 1]|] == lists[n - 1];
    }
  }

  lemma AppearedExactly(lists: seq<seq<ChunkId>>, n: nat)
    requires n <= |lists|
    ensures forall id :: id in Appeared(lists, n, 0) <==> exists l :: 0 <= l < n && id in lists[l]
  {
    forall id ensures id in Appeared(lists, n, 0) <==> exists l :: 0 <= l < n && id in lists[l] {
      AppearedIn(lists, n, 0, id);
    }
  }

  /** `x` stands at place `p` of list `l`, and `y` is nowhere up to there. */
  predicate SeenFirst(lists: seq<seq<ChunkId>>, x: ChunkId, y: ChunkId, l: nat, p: nat) {
    && l < |lists| && p < |lists[l]| && lists[l][p] == x && x != y && y !in lists[l][..p]
    && forall k :: 0 <= k < l ==> y !in lists[k]
  }

  lemma {:induction false} AppearedFirst(lists: seq<seq<ChunkId>>, n: nat, m: nat, i: nat, j: nat)
    returns (l: nat, p: nat)
    requires n <= |lists| && (m > 0 ==> n < |lists| && m <= |lists[n]|) && i < j < |Appeared(lists, n, m)|
    ensures SeenFirst(lists, Appeared(lists, n, m)[i], Appeared(lists, n, m)[j], l, p)
    decreases n, m
  {
    if m == 0 {
      l, p := AppearedFirst(lists, n - 1, |lists[n - 1]|, i, j);
    } else {
      var (r, y) := (Appeared(lists, n, m - 1), lists[n][m - 1]);
      if j < |r| {
        l, p := AppearedFirst(lists, n, m - 1, i, j);
      } else {
        AppearedIn(lists, n, m - 1, r[i]);
        AppearedIn(lists, n, m - 1, y);
        hide Appeared;
        l, p := ShownAt(lists, n, m - 1, r[i], y);
      }
    }
  }

  lemma ShownAt(lists: seq<seq<ChunkId>>, n: nat, m: nat, x: ChunkId, y: ChunkId) returns (l: nat, p: nat)
    requires n < |lists| && m <= |lists[n]| && x != y
    requires (exists l :: 0 <= l < n && x in lists[l]) || x in lists[n][..m]
    requires (forall l :: 0 <= l < n ==> y !in lists[l]) && y !in lists[n][..m]
    ensures SeenFirst(lists, x, y, l, p)
  {
    if k: nat :| k < n && x in lists[k] {
      l := k;
      p :| 0 <= p < |lists[l]| && lists[l][p] == x;
    } else {
      l := n;
      p :| 0 <= p < m && lists[n][..m][p] == x;
      assert forall k :: 0 <= k < p ==> lists[n][..p][k] == lists[n][..m][k];
    }
  }

  /** What the rank order says: of two ids the earlier one has the higher fused score, or the same one
      and was seen first when the lists are read one after the other. */
  lemma TiesByFirstAppearance(ranked: seq<ChunkId>, lists: seq<seq<ChunkId>>, rrfK: nat, i: nat, j: nat)
    requires InRankOrder(ranked, lists, rrfK) && i < j < |ranked| && InSome(lists, ranked[j])
    ensures || Fused(lists, rrfK, ranked[i]) > Fused(lists, rrfK, ranked[j])
            || (Fused(lists, rrfK, ranked[i]) == Fused(lists, rrfK, ranked[j])
                && exists l, p :: SeenFirst(lists, ranked[i], ranked[j], l, p))
  {
    var order := Appeared(lists, |lists|, 0);
    AppearedExactly(lists, |lists|);
    hide Appeared, Fused, SeenFirst;
    var (a, b) := (PlaceOf(order, ranked[i]), PlaceOf(order, ranked[j]));
    if Fused(lists, rrfK, ranked[i]) <= Fused(lists, rrfK, ranked[j]) {
      var l, p := AppearedFirst(lists, |lists|, 0, a, b);
    }
  }

  /** On the ids at hand the order is strict and total. */
  ghost predicate TotalOn(ids: seq<ChunkId>, score: ChunkId -> real, seen: ChunkId -> nat) {
    forall a, b :: a in ids && b in ids ==> Ranks(score, seen, a, b) || a == b || Ranks(score, seen, b, a)
  }

  lemma Sortable(order: seq<ChunkId>, score: ChunkId -> real, seen: ChunkId -> nat)
    requires forall id :: seen(id) == PlaceOf(order, id)
    ensures TotalOn(order, score, seen)
  {
  }

  ghost predicate Ranked(ids: seq<ChunkId>, score: ChunkId -> real, seen: ChunkId -> nat) {
    forall i, j :: 0 <= i < j < |ids| ==> Ranks(score, seen, ids[i], ids[j])
  }

  lemma InsertRanked(ids: seq<ChunkId>, k: nat, x: ChunkId, score: ChunkId -> real, seen: ChunkId -> nat)
    requires Distinct(ids) && Ranked(ids, score, seen) && k <= |ids| && x !in ids
    requires forall i :: 0 <= i < k ==> Ranks(score, seen, ids[i], x)
    requires k < |ids| ==> Ranks(score, seen, x, ids[k])
    ensures var more := ids[..k] + [x] + ids[k..];
            Distinct(more) && Ranked(more, score, seen) && forall id :: id in more <==> id in ids || id == x
  {
    assert ids == ids[..k] + ids[k..];
    forall i | k <= i < |ids| ensures Ranks(score, seen, x, ids[i]) {
      assert i > k ==> Ranks(score, seen, ids[k], ids[i]);
    }
  }

  /** The stable descending sort of `sorted(..., reverse=True)`. */
  method SortRanked(ids: seq<ChunkId>, score: ChunkId -> real, seen: ChunkId -> nat) returns (ranked: seq<ChunkId>)
    requires Distinct(ids) && TotalOn(ids, score, seen)
    ensures Distinct(ranked) && forall id :: id in ranked <==> id in ids
    ensures Ranked(ranked, score, seen)
  {
    ranked := [];
    for n := 0 to |ids|
      invariant Distinct(ranked) && forall id :: id in ranked <==> id in ids[..n]
      invariant Ranked(ranked, score, seen)
    {
      var x := ids[n];
      assert x !in ids[..n] && ids[..n + 1] == ids[..n] + [x];
      var k := 0;
      while k < |ranked| && Ranks(score, seen, ranked[k], x)
        invariant k <= |ranked| && forall i :: 0 <= i < k ==> Ranks(score, seen, ranked[i], x)
      {
        k := k + 1;
      }
      assert k < |ranked| ==> ranked[k] in ids[..n] && Ranks(score, seen, x, ranked[k]);
      InsertRanked(ranked, k, x, score, seen);
      ranked := ranked[..k] + [x] + ranked[k..];
    }
    assert ids[..|ids|] == ids;
  }

  /** The first `k` of the fusion, and all of it if there are not `k`. */
  ghost predicate IsTop(hits: seq<ChunkId>, lists: seq<seq<ChunkId>>, k: nat, rrfK: nat) {
    && |hits| <= k && Distinct(hits) && InRankOrder(hits, lists, rrfK)
    && (forall id :: id in hits ==> InSome(lists, id))
    && (forall y :: InSome(lists, y) && y !in hits ==> |hits| == k)
    && (forall x, y :: x in hits && InSome(lists, y) && y !in hits ==> Fused(lists, rrfK, x) >= Fused(lists, rrfK, y))
  }

  /** `hybrid_search`, given what its two searches return. */
  method HybridSearch(dense: seq<ChunkId>, lexical: seq<ChunkId>, k: int, candidateK: int, rrfK: int)
    returns (hits: Option<seq<ChunkId>>)
    ensures hits.None? <==> k < 1 || candidateK < 1 || rrfK < 0
    ensures hits.Some? ==> IsTop(hits.value, [dense, lexical], k, rrfK)
  {
    if k < 1 || candidateK < 1 || rrfK < 0 {
      return None;
    }
    var lists := [dense, lexical];
    var ranked, fused := RrfFuse(lists, rrfK);
    var top := if k <= |ranked| then ranked[..k] else ranked;
    TopOfRanking(ranked, top, lists, k, rrfK);
    hits := Some(top);
  }

  lemma TopOfRanking(ranked: seq<ChunkId>, top: seq<ChunkId>, lists: seq<seq<ChunkId>>, k: nat, rrfK: nat)
    requires Distinct(ranked) && InRankOrder(ranked, lists, rrfK)
    requires forall id :: id in ranked <==> InSome(lists, id)
    requires top == if k <= |ranked| then ranked[..k] else ranked
    ensures IsTop(top, lists, k, rrfK)
  {
    hide Fused, PlaceOf, Appeared, InSome;
    assert forall m :: 0 <= m < |top| ==> top[m] == ranked[m] && top[m] in ranked;
    forall x, y | x in top && y in ranked && y !in top ensures Fused(lists, rrfK, x) >= Fused(lists, rrfK, y) {
      var i, j :| 0 <= i < |top| && top[i] == x && 0 <= j < |ranked| && ranked[j] == y;
      assert top[i] == ranked[i];
    }
  }
}
