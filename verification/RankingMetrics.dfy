/** Recall, reciprocal rank and nDCG of `rag/evaluate.py`, over exact reals.  The logarithmic gain is
    any strictly falling positive function of the position. */
module RankingMetrics {
  import opened Basics

  datatype Doc = Doc(text: string)

  type Gain = nat -> real

  ghost predicate GainOk(gain: Gain) {
    (forall p :: p >= 1 ==> gain(p) > 0.0) && forall p, q :: 1 <= p < q ==> gain(p) > gain(q)
  }

  // ---------------------------------------------------------------- document ranking

  /** The documents of the first `n` hits in order of first appearance. */
  function FirstSeen(hits: seq<Doc>, n: nat): (r: seq<Doc>)
    requires n <= |hits|
    ensures Distinct(r) && |r| <= n
  {
    if n == 0 then [] else
    var r := FirstSeen(hits, n - 1);
    if hits[n - 1] in r then r else r + [hits[n - 1]]
  }

  lemma {:induction false} FirstSeenExactly(hits: seq<Doc>, n: nat, d: Doc)
    requires n <= |hits|
    ensures d in FirstSeen(hits, n) <==> d in hits[..n]
  {
    if n > 0 {
      FirstSeenExactly(hits, n - 1, d);
      assert hits[..n] == hits[..n - 1] + [hits[n - 1]];
    }
  }

  /** Deduplicating keeps the order of first appearances: some hit shows the earlier document before
      the later one is seen at all. */
  lemma {:induction false} FirstSeenKeepsOrder(hits: seq<Doc>, n: nat, i: nat, j: nat) returns (p: nat)
    requires n <= |hits| && i < j < |FirstSeen(hits, n)|
    ensures p < n && hits[p] == FirstSeen(hits, n)[i] && forall q :: 0 <= q <= p ==> hits[q] != FirstSeen(hits, n)[j]
  {
    FirstSeenStep(hits, n);
    hide FirstSeen, Distinct;
    var (r, before) := (FirstSeen(hits, n), FirstSeen(hits, n - 1));
    if j < |before| {
      p := FirstSeenKeepsOrder(hits, n - 1, i, j);
    } else {
      p := ShownBy(hits, n - 1, r[i]);
      forall q | 0 <= q <= p ensures hits[q] != r[j] {
        FirstSeenExactly(hits, n - 1, hits[q]);
        assert hits[..n - 1][q] == hits[q];
      }
    }
  }

  lemma {:induction false} FirstSeenStep(hits: seq<Doc>, n: nat)
    requires n <= |hits| && FirstSeen(hits, n) != []
    ensures n > 0
    ensures var (r, before) := (FirstSeen(hits, n), FirstSeen(hits, n - 1));
            r == before || (hits[n - 1] !in before && r == before + [hits[n - 1]])
  {
  }

  lemma {:induction false} ShownBy(hits: seq<Doc>, n: nat, d: Doc) returns (p: nat)
    requires n <= |hits| && d in FirstSeen(hits, n)
    ensures p < n && hits[p] == d
  {
    FirstSeenExactly(hits, n, d);
    p :| 0 <= p < n && hits[..n][p] == d;
  }

  /** `_ranked_doc_keys`. */
  method RankedDocKeys(hits: seq<Doc>) returns (ranked: seq<Doc>)
    ensures ranked == FirstSeen(hits, |hits|)
  {
    ranked := [];
    var seen: set<Doc> := {};
    for n := 0 to |hits|
      invariant ranked == FirstSeen(hits, n) && forall d :: d in seen <==> d in ranked
    {
      if hits[n] !in seen {
        seen := seen + {hits[n]};
        ranked := ranked + [hits[n]];
      }
    }
  }

  // ---------------------------------------------------------------- the metrics

  /** Expected documents among the first `n`. */
  function Found(top: seq<Doc>, expected: set<Doc>, n: nat): nat
    requires n <= |top|
  {
    if n == 0 then 0 else Found(top, expected, n - 1) + if top[n - 1] in expected then 1 else 0
  }

  function Dcg(top: seq<Doc>, expected: set<Doc>, gain: Gain, n: nat): real
    requires n <= |top|
  {
    if n == 0 then 0.0 else Dcg(top, expected, gain, n - 1) + if top[n - 1] in expected then gain(n) else 0.0
  }

  /** The best possible: the first `n` positions. */
  function Ideal(gain: Gain, n: nat): real {
    if n == 0 then 0.0 else Ideal(gain, n - 1) + gain(n)
  }

  /** The position of the first expected document, counted from 1, or 0. */
  function FirstHit(top: seq<Doc>, expected: set<Doc>, n: nat): nat
    requires n <= |top|
  {
    if n == 0 then 0 else
    var f := FirstHit(top, expected, n - 1);
    if f > 0 then f else if top[n - 1] in expected then n else 0
  }

  datatype Metrics = Metrics(recall: real, reciprocalRank: real, ndcg: real)

  /** The ideal gain, with the source's stand-in when nothing can be found. */
  function IdealOrOne(gain: Gain, n: nat): real {
    if Ideal(gain, n) == 0.0 then 1.0 else Ideal(gain, n)
  }

  /** The expected documents that were found, each counted once. */
  function Recalled(top: seq<Doc>, expected: set<Doc>): set<Doc> {
    set d | d in expected && d in top
  }

  function MetricsOf(ranked: seq<Doc>, expected: set<Doc>, k: nat, gain: Gain): Metrics
    requires GainOk(gain)
  {
    var top := ranked[..Min(k, |ranked|)];
    var f := FirstHit(top, expected, |top|);
    Metrics(if expected == {} then 0.0 else |Recalled(top, expected)| as real / |expected| as real,
            if f > 0 then 1.0 / f as real else 0.0,
            Dcg(top, expected, gain, |top|) / IdealOrOne(gain, Min(|expected|, k)))
  }

  /** `_query_metrics`. */
  method QueryMetrics(ranked: seq<Doc>, expected: set<Doc>, k: nat, gain: Gain) returns (m: Metrics)
    requires GainOk(gain)
    ensures m == MetricsOf(ranked, expected, k, gain)
  {
    var top := ranked[..Min(k, |ranked|)];
    var found: set<Doc>, first, dcg := {}, 0, 0.0;
    for i := 0 to |top|
      invariant found == Recalled(top[..i], expected) && first == FirstHit(top, expected, i)
                && dcg == Dcg(top, expected, gain, i)
    {
      if top[i] in expected {
        found, dcg := found + {top[i]}, dcg + gain(i + 1);
        if first == 0 {
          first := i + 1;
        }
      }
    }
    assert top[..|top|] == top;
    var ideal := 0.0;
    for j := 0 to Min(|expected|, k)
      invariant ideal == Ideal(gain, j)
    {
      ideal := ideal + gain(j + 1);
    }
    if ideal == 0.0 {
      ideal := 1.0;
    }
    m := Metrics(if expected == {} then 0.0 else |found| as real / |expected| as real,
                 if first > 0 then 1.0 / first as real else 0.0, dcg / ideal);
  }

  lemma {:induction false} IdealPositive(gain: Gain, n: nat)
    requires GainOk(gain)
    ensures Ideal(gain, n) >= 0.0 && (n > 0 ==> Ideal(gain, n) > 0.0)
  {
    if n > 0 {
      IdealPositive(gain, n - 1);
    }
  }

  lemma {:induction false} IdealGrows(gain: Gain, m: nat, n: nat)
    requires GainOk(gain) && m <= n
    ensures Ideal(gain, m) <= Ideal(gain, n) && (m < n ==> Ideal(gain, m) < Ideal(gain, n))
  {
    if m < n {
      IdealGrows(gain, m, n - 1);
    }
  }

  /** The documents found are distinct members of the expected set. */
  lemma {:induction false} FoundAtMostExpected(top: seq<Doc>, expected: set<Doc>, n: nat)
    requires Distinct(top) && n <= |top|
    ensures Found(top, expected, n) <= |expected| && Found(top, expected, n) <= n
    decreases n
  {
    if n > 0 {
      if top[n - 1] in expected {
        FoundAtMostExpected(top, expected - {top[n - 1]}, n - 1);
        SameFound(top, expected, top[n - 1], n - 1);
      } else {
        FoundAtMostExpected(top, expected, n - 1);
      }
    }
  }

  lemma {:induction false} SameFound(top: seq<Doc>, expected: set<Doc>, d: Doc, n: nat)
    requires n <= |top| && forall i :: 0 <= i < n ==> top[i] != d
    ensures Found(top, expected - {d}, n) == Found(top, expected, n)
  {
    if n > 0 {
      SameFound(top, expected, d, n - 1);
    }
  }

  /** Hits at any positions gain at most what as many hits gain in front, and exactly that only when
      they are in front. */
  lemma {:induction false} DcgAtMostIdeal(top: seq<Doc>, expected: set<Doc>, gain: Gain, n: nat)
    requires GainOk(gain) && n <= |top|
    ensures Found(top, expected, n) <= n
    ensures 0.0 <= Dcg(top, expected, gain, n) <= Ideal(gain, Found(top, expected, n))
    ensures Dcg(top, expected, gain, n) == Ideal(gain, Found(top, expected, n))
       <==> forall i :: 0 <= i < Found(top, expected, n) ==> top[i] in expected
  {
    if n > 0 {
      DcgAtMostIdeal(top, expected, gain, n - 1);
      var f := Found(top, expected, n - 1);
      if top[n - 1] in expected {
        assert gain(n) > 0.0 && (f + 1 < n ==> gain(f + 1) > gain(n));
        assert Ideal(gain, f + 1) == Ideal(gain, f) + gain(f + 1);
        if f + 1 < n {
          NotAllInFront(top, expected, n);
        }
      }
    }
  }

  /** With a gap before position `n`, the first `Found` documents are not all expected. */
  lemma {:induction false} NotAllInFront(top: seq<Doc>, expected: set<Doc>, n: nat)
    requires 0 < n <= |top| && top[n - 1] in expected && Found(top, expected, n - 1) + 1 < n
    ensures exists i :: 0 <= i < Found(top, expected, n) && top[i] !in expected
  {
    var f := Found(top, expected, n);
    if forall i :: 0 <= i < f ==> top[i] in expected {
      FrontFound(top, expected, f);
      FoundGrows(top, expected, f, n - 1);
    }
  }

  lemma {:induction false} FrontFound(top: seq<Doc>, expected: set<Doc>, n: nat)
    requires n <= |top| && forall i :: 0 <= i < n ==> top[i] in expected
    ensures Found(top, expected, n) == n
  {
    if n > 0 {
      FrontFound(top, expected, n - 1);
    }
  }

  lemma {:induction false} FoundGrows(top: seq<Doc>, expected: set<Doc>, m: nat, n: nat)
    requires m <= n <= |top|
    ensures Found(top, expected, m) <= Found(top, expected, n)
  {
    if m < n {
      FoundGrows(top, expected, m, n - 1);
    }
  }

  lemma {:induction false} FirstHitInRange(top: seq<Doc>, expected: set<Doc>, n: nat)
    requires n <= |top|
    ensures FirstHit(top, expected, n) <= n
    ensures FirstHit(top, expected, n) == 0 <==> Found(top, expected, n) == 0
    ensures FirstHit(top, expected, n) > 0 ==>
              && top[FirstHit(top, expected, n) - 1] in expected
              && Found(top, expected, FirstHit(top, expected, n) - 1) == 0
  {
    if n > 0 {
      FirstHitInRange(top, expected, n - 1);
    }
  }

  lemma Quotient(a: real, b: real)
    requires 0.0 <= a <= b && b > 0.0
    ensures 0.0 <= a / b <= 1.0 && (a / b == 1.0 <==> a == b)
  {
  }

  /** All three metrics lie between 0 and 1 ... */
  lemma {:induction false} MetricsInRange(ranked: seq<Doc>, expected: set<Doc>, k: nat, gain: Gain)
    requires Distinct(ranked) && GainOk(gain)
    ensures var m := MetricsOf(ranked, expected, k, gain);
            0.0 <= m.recall <= 1.0 && 0.0 <= m.reciprocalRank <= 1.0 && 0.0 <= m.ndcg <= 1.0
  {
    var top := ranked[..Min(k, |ranked|)];
    var f := Found(top, expected, |top|);
    FoundAtMostExpected(top, expected, |top|);
    if expected != {} {
      SubsetSize(Recalled(top, expected), expected);
      Quotient(|Recalled(top, expected)| as real, |expected| as real);
    }
    FirstHitInRange(top, expected, |top|);
    var hit := FirstHit(top, expected, |top|);
    if hit > 0 {
      Quotient(1.0, hit as real);
    }
    DcgAtMostIdeal(top, expected, gain, |top|);
    IdealGrows(gain, f, Min(|expected|, k));
    IdealPositive(gain, Min(|expected|, k));
    Quotient(Dcg(top, expected, gain, |top|), IdealOrOne(gain, Min(|expected|, k)));
  }

  /** ... and nDCG is 1 exactly when something can be found and the first min(|expected|, k) results
      exist and are all expected. */
  lemma {:induction false} NdcgIsOneExactly(ranked: seq<Doc>, expected: set<Doc>, k: nat, gain: Gain)
    requires Distinct(ranked) && GainOk(gain)
    ensures MetricsOf(ranked, expected, k, gain).ndcg == 1.0 <==>
      var n := Min(|expected|, k); 1 <= n <= |ranked| && forall i :: 0 <= i < n ==> ranked[i] in expected
  {
    var top := ranked[..Min(k, |ranked|)];
    var (f, n) := (Found(top, expected, |top|), Min(|expected|, k));
    FoundAtMostExpected(top, expected, |top|);
    DcgAtMostIdeal(top, expected, gain, |top|);
    IdealGrows(gain, f, n);
    IdealPositive(gain, n);
    Quotient(Dcg(top, expected, gain, |top|), IdealOrOne(gain, n));
    assert MetricsOf(ranked, expected, k, gain).ndcg == 1.0
           <==> n > 0 && Dcg(top, expected, gain, |top|) == Ideal(gain, n);
    assert Dcg(top, expected, gain, |top|) == Ideal(gain, n) ==> f == n;
    if n <= |ranked| && forall i :: 0 <= i < n ==> ranked[i] in expected {
      FrontFound(top, expected, n);
      FoundGrows(top, expected, n, |top|);
    }
  }

  /** Recall is 1 exactly when something is expected and all of it is among the first `k`. */
  lemma {:induction false} RecallIsOneExactly(ranked: seq<Doc>, expected: set<Doc>, k: nat, gain: Gain)
    requires GainOk(gain)
    ensures MetricsOf(ranked, expected, k, gain).recall == 1.0 <==>
      expected != {} && forall d :: d in expected ==> d in ranked[..Min(k, |ranked|)]
  {
    if expected != {} {
      var found := Recalled(ranked[..Min(k, |ranked|)], expected);
      SubsetSize(found, expected);
      Quotient(|found| as real, |expected| as real);
    }
  }

  /** The reciprocal rank is that of the first expected result among the first `k`, wherever it is. */
  lemma {:induction false} ReciprocalRankExactly(ranked: seq<Doc>, expected: set<Doc>, k: nat, gain: Gain, r: nat)
    requires GainOk(gain)
    ensures r < k && r < |ranked| && ranked[r] in expected && (forall i :: 0 <= i < r ==> ranked[i] !in expected)
            <==> MetricsOf(ranked, expected, k, gain).reciprocalRank == 1.0 / (r + 1) as real
    ensures MetricsOf(ranked, expected, k, gain).reciprocalRank == 0.0
            <==> forall i :: 0 <= i < k && i < |ranked| ==> ranked[i] !in expected
  {
    var top := ranked[..Min(k, |ranked|)];
    FirstHitExactly(top, expected, |top|);
    hide FirstHit;
    var hit := FirstHit(top, expected, |top|);
    if hit > 0 {
      SameInverse(hit, r + 1);
      assert top[hit - 1] == ranked[hit - 1];
    }
    assert forall i :: 0 <= i < |top| ==> top[i] == ranked[i];
  }

  /** The first hit is the position before which nothing expected stands. */
  lemma {:induction false} FirstHitExactly(top: seq<Doc>, expected: set<Doc>, n: nat)
    requires n <= |top|
    ensures var f := FirstHit(top, expected, n);
            && f <= n && (f > 0 ==> top[f - 1] in expected)
            && forall i :: 0 <= i < (if f > 0 then f - 1 else n) ==> top[i] !in expected
  {
    if n > 0 {
      FirstHitExactly(top, expected, n - 1);
    }
  }

  lemma SameInverse(a: nat, b: nat)
    requires a > 0 && b > 0
    ensures 1.0 / a as real == 1.0 / b as real <==> a == b
    ensures 1.0 / a as real > 0.0
  {
    assert 1.0 / a as real * a as real == 1.0 && 1.0 / b as real * b as real == 1.0;
  }

  /** Recall is the share of the expected documents that are among the first `k`, and 0 when nothing
      is expected. */
  lemma {:induction false} RecallExactly(ranked: seq<Doc>, expected: set<Doc>, k: nat, gain: Gain, hits: set<Doc>)
    requires GainOk(gain) && forall d :: d in hits <==> d in expected && exists i :: IsAt(ranked, k, d, i)
    ensures MetricsOf(ranked, expected, k, gain).recall * |expected| as real == |hits| as real
    ensures expected == {} ==> MetricsOf(ranked, expected, k, gain).recall == 0.0
  {
    RecallIs(ranked, expected, k, gain);
    hide MetricsOf, GainOk;
    var found := Recalled(ranked[..Min(k, |ranked|)], expected);
    assert hits == found by {
      forall d ensures d in found <==> d in expected && exists i :: IsAt(ranked, k, d, i) {
        AmongFirst(ranked, k, d);
      }
    }
    hide *;
    if expected == {} {
      assert |expected| == 0 && hits <= expected;
    } else {
      TimesDivisor(|found| as real, |expected| as real);
    }
  }

  lemma RecallIs(ranked: seq<Doc>, expected: set<Doc>, k: nat, gain: Gain)
    requires GainOk(gain)
    ensures var found := Recalled(ranked[..Min(k, |ranked|)], expected);
            MetricsOf(ranked, expected, k, gain).recall
            == if expected == {} then 0.0 else |found| as real / |expected| as real
  {
    hide GainOk, FirstHit, Dcg, Ideal, Recalled;
  }

  lemma NdcgIs(ranked: seq<Doc>, expected: set<Doc>, k: nat, gain: Gain)
    requires GainOk(gain)
    ensures var n := Min(k, |ranked|);
            MetricsOf(ranked, expected, k, gain).ndcg
            == Dcg(ranked[..n], expected, gain, n) / IdealOrOne(gain, Min(|expected|, k))
  {
    hide GainOk, FirstHit, Dcg, Ideal, Recalled;
  }

  lemma TimesDivisor(a: real, b: real)
    requires b != 0.0
    ensures a / b * b == a
  {
  }

  lemma AmongFirst(ranked: seq<Doc>, k: nat, d: Doc)
    ensures d in ranked[..Min(k, |ranked|)] <==> exists i :: IsAt(ranked, k, d, i)
  {
    var top := ranked[..Min(k, |ranked|)];
    if d in top {
      var i :| 0 <= i < |top| && top[i] == d;
      assert IsAt(ranked, k, d, i);
    }
    if i: nat :| IsAt(ranked, k, d, i) {
      assert top[i] == d;
    }
  }

  predicate IsAt(ranked: seq<Doc>, k: nat, d: Doc, i: nat) {
    i < k && i < |ranked| && ranked[i] == d
  }

  /** The gain collected: a single expected document counts what its position gains, and documents
      count independently of each other. */
  lemma {:induction false} DcgOfOne(top: seq<Doc>, d: Doc, gain: Gain, n: nat, r: nat)
    requires n <= |top| && Distinct(top) && r < |top| && top[r] == d
    ensures Dcg(top, {d}, gain, n) == if r < n then gain(r + 1) else 0.0
  {
    if n > 0 {
      DcgOfOne(top, d, gain, n - 1, r);
    }
  }

  lemma {:induction false} DcgAdds(top: seq<Doc>, a: set<Doc>, b: set<Doc>, gain: Gain, n: nat)
    requires n <= |top| && a !! b
    ensures Dcg(top, a + b, gain, n) == Dcg(top, a, gain, n) + Dcg(top, b, gain, n)
  {
    if n > 0 {
      DcgAdds(top, a, b, gain, n - 1);
    }
  }

  /** nDCG is the gain collected by the first `k` over what the best ranking would collect, and 0 when
      nothing can be found. */
  lemma {:induction false} NdcgIsShare(ranked: seq<Doc>, expected: set<Doc>, k: nat, gain: Gain, best: seq<Doc>)
    requires GainOk(gain) && |best| >= |expected| && forall i :: 0 <= i < |expected| ==> best[i] in expected
    ensures var (m, n) := (Min(k, |ranked|), Min(|expected|, k));
            var (share, all) := (Dcg(ranked[..m], expected, gain, m), Dcg(best, expected, gain, n));
            if n == 0 then MetricsOf(ranked, expected, k, gain).ndcg == 0.0
            else all > 0.0 && MetricsOf(ranked, expected, k, gain).ndcg == share / all
  {
    var (m, n) := (Min(k, |ranked|), Min(|expected|, k));
    NdcgIs(ranked, expected, k, gain);
    FrontGain(best, expected, gain, n);
    IdealPositive(gain, n);
    if n == 0 {
      assert Ideal(gain, n) == 0.0;
      NoGain(ranked[..m], expected, gain, m);
    }
    hide MetricsOf, GainOk, Dcg, Ideal;
  }

  lemma {:induction false} NoGain(top: seq<Doc>, expected: set<Doc>, gain: Gain, n: nat)
    requires n <= |top| && (expected == {} || n == 0)
    ensures Dcg(top, expected, gain, n) == 0.0
  {
    if n > 0 {
      NoGain(top, expected, gain, n - 1);
    }
  }

  lemma {:induction false} FrontGain(top: seq<Doc>, expected: set<Doc>, gain: Gain, n: nat)
    requires n <= |top| && forall i :: 0 <= i < n ==> top[i] in expected
    ensures Dcg(top, expected, gain, n) == Ideal(gain, n)
  {
    if n > 0 {
      FrontGain(top, expected, gain, n - 1);
    }
  }

  /** A reciprocal rank of 1 means the first result is expected. */
  lemma {:induction false} ReciprocalRankIsOneExactly(ranked: seq<Doc>, expected: set<Doc>, k: nat, gain: Gain)
    requires GainOk(gain)
    ensures MetricsOf(ranked, expected, k, gain).reciprocalRank == 1.0
            <==> k >= 1 && ranked != [] && ranked[0] in expected
  {
    var top := ranked[..Min(k, |ranked|)];
    FirstHitInRange(top, expected, |top|);
    var hit := FirstHit(top, expected, |top|);
    if hit > 0 {
      Quotient(1.0, hit as real);
    }
    if top != [] && top[0] in expected {
      assert FirstHit(top, expected, 0) == 0 && FirstHit(top, expected, 1) == 1;
      FirstHitStays(top, expected, |top|);
    }
  }

  lemma {:induction false} FirstHitStays(top: seq<Doc>, expected: set<Doc>, n: nat)
    requires 1 <= n <= |top| && top[0] in expected
    ensures FirstHit(top, expected, n) == 1
  {
    if n > 1 {
      FirstHitStays(top, expected, n - 1);
    } else {
      assert FirstHit(top, expected, 0) == 0;
    }
  }
}
