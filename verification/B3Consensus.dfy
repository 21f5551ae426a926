/** The three-reading consensus of `workbench/ai_arm.py` over the dispatcher and the attempt store. */
module B3Consensus {
  import opened Basics
  import A = B3Attempts
  import opened B3Dispatch
  import O = Order

  // ---------------------------------------------------------------- counting votes

  /** Receipts among the first `n` that propose `u`: a receipt may name any admitted unit. */
  function Votes(receipts: seq<Receipt>, n: nat, u: A.UnitId): nat
    requires n <= |receipts|
  {
    if n == 0 then 0 else Votes(receipts, n - 1, u) + if u in receipts[n - 1].proposals then 1 else 0
  }

  function Proposals(receipts: seq<Receipt>, n: nat): nat
    requires n <= |receipts|
  {
    if n == 0 then 0 else Proposals(receipts, n - 1) + |receipts[n - 1].proposals|
  }

  function NonAnswers(receipts: seq<Receipt>, n: nat): nat
    requires n <= |receipts|
  {
    if n == 0 then 0 else NonAnswers(receipts, n - 1) + if receipts[n - 1].proposals == [] then 1 else 0
  }

  function VotersOf(receipts: seq<Receipt>, n: nat, u: A.UnitId): set<nat>
    requires n <= |receipts|
  {
    set k: nat | k < n && u in receipts[k].proposals
  }

  function SilentOf(receipts: seq<Receipt>, n: nat): set<nat>
    requires n <= |receipts|
  {
    set k: nat | k < n && receipts[k].proposals == []
  }

  /** Each receipt that names a unit is one vote for it ... */
  lemma {:induction false} VotesAreReceipts(receipts: seq<Receipt>, n: nat, u: A.UnitId)
    requires n <= |receipts|
    ensures Votes(receipts, n, u) == |VotersOf(receipts, n, u)|
  {
    if n == 0 {
      assert VotersOf(receipts, 0, u) == {};
    } else {
      VotesAreReceipts(receipts, n - 1, u);
      var before := VotersOf(receipts, n - 1, u);
      assert VotersOf(receipts, n, u) == if u in receipts[n - 1].proposals then before + {n - 1} else before;
    }
  }

  /** ... and each empty one is one non-answer. */
  lemma {:induction false} NonAnswersAreReceipts(receipts: seq<Receipt>, n: nat)
    requires n <= |receipts|
    ensures NonAnswers(receipts, n) == |SilentOf(receipts, n)|
  {
    if n == 0 {
      assert SilentOf(receipts, 0) == {};
    } else {
      NonAnswersAreReceipts(receipts, n - 1);
      var before := SilentOf(receipts, n - 1);
      assert SilentOf(receipts, n) == if receipts[n - 1].proposals == [] then before + {n - 1} else before;
    }
  }

  function SumVotes(receipts: seq<Receipt>, n: nat, ids: seq<A.UnitId>, m: nat): nat
    requires n <= |receipts| && m <= |ids|
  {
    if m == 0 then 0 else SumVotes(receipts, n, ids, m - 1) + Votes(receipts, n, ids[m - 1])
  }

  /** The ids among the first `m` that occur in `p`. */
  function Hits(p: seq<A.UnitId>, ids: seq<A.UnitId>, m: nat): nat
    requires m <= |ids|
  {
    if m == 0 then 0 else Hits(p, ids, m - 1) + if ids[m - 1] in p then 1 else 0
  }

  lemma {:induction false} OneMoreReceipt(receipts: seq<Receipt>, n: nat, ids: seq<A.UnitId>, m: nat)
    requires n < |receipts| && m <= |ids|
    ensures SumVotes(receipts, n + 1, ids, m) == SumVotes(receipts, n, ids, m) + Hits(receipts[n].proposals, ids, m)
  {
    if m > 0 {
      OneMoreReceipt(receipts, n, ids, m - 1);
    }
  }

  lemma {:induction false} NoHits(ids: seq<A.UnitId>, m: nat)
    requires m <= |ids|
    ensures Hits([], ids, m) == 0
  {
    if m > 0 {
      NoHits(ids, m - 1);
    }
  }

  lemma {:induction false} OneMoreHit(p: seq<A.UnitId>, x: A.UnitId, ids: seq<A.UnitId>, m: nat)
    requires m <= |ids| && Distinct(ids) && x !in p
    ensures Hits(p + [x], ids, m) == Hits(p, ids, m) + if x in ids[..m] then 1 else 0
  {
    if m > 0 {
      OneMoreHit(p, x, ids, m - 1);
      assert ids[..m] == ids[..m - 1] + [ids[m - 1]];
      assert ids[m - 1] !in ids[..m - 1];
    }
  }

  /** Distinct proposals from the frame are hit once each. */
  lemma {:induction false} HitsAreProposals(p: seq<A.UnitId>, ids: seq<A.UnitId>)
    requires Admitted(p, ids) && Distinct(ids)
    ensures Hits(p, ids, |ids|) == |p|
  {
    if p == [] {
      NoHits(ids, |ids|);
    } else {
      var (init, x) := (p[..|p| - 1], p[|p| - 1]);
      assert p == init + [x];
      HitsAreProposals(init, ids);
      assert x in ids && ids[..|ids|] == ids;
      OneMoreHit(init, x, ids, |ids|);
    }
  }

  /** The recurrence counts add up to all proposals: none is lost and none counted twice. */
  lemma {:induction false} RecurrenceConserves(receipts: seq<Receipt>, n: nat, ids: seq<A.UnitId>)
    requires n <= |receipts| && Distinct(ids)
    requires forall k :: 0 <= k < n ==> Admitted(receipts[k].proposals, ids)
    ensures SumVotes(receipts, n, ids, |ids|) == Proposals(receipts, n)
  {
    if n > 0 {
      RecurrenceConserves(receipts, n - 1, ids);
      OneMoreReceipt(receipts, n - 1, ids, |ids|);
      HitsAreProposals(receipts[n - 1].proposals, ids);
    } else {
      NoVotes(receipts, ids, |ids|);
    }
  }

  lemma {:induction false} NoVotes(receipts: seq<Receipt>, ids: seq<A.UnitId>, m: nat)
    requires m <= |ids|
    ensures SumVotes(receipts, 0, ids, m) == 0
  {
    if m > 0 {
      NoVotes(receipts, ids, m - 1);
    }
  }

  // ---------------------------------------------------------------- the worklist order

  /** More receipts first, then the smaller id. */
  predicate Before(votes: A.UnitId -> nat, a: A.UnitId, b: A.UnitId) {
    votes(a) > votes(b) || (votes(a) == votes(b) && O.Less(a.text, b.text))
  }

  lemma BeforeIsStrictTotal(votes: A.UnitId -> nat)
    ensures O.StrictTotal((a, b) => Before(votes, a, b))
  {
    forall a: A.UnitId ensures !Before(votes, a, a) {
      O.LessIrreflexive(a.text);
    }
    forall a, b, c | Before(votes, a, b) && Before(votes, b, c) ensures Before(votes, a, c) {
      if votes(a) == votes(b) == votes(c) {
        O.LessTransitive(a.text, b.text, c.text);
      }
    }
    forall a: A.UnitId, b: A.UnitId ensures Before(votes, a, b) || a == b || Before(votes, b, a) {
      O.LessTotal(a.text, b.text);
    }
  }

  lemma BeforeIsAsymmetric(votes: A.UnitId -> nat, a: A.UnitId, b: A.UnitId)
    ensures !(Before(votes, a, b) && Before(votes, b, a))
  {
    O.LessIrreflexive(a.text);
    if O.Less(a.text, b.text) && O.Less(b.text, a.text) {
      O.LessTransitive(a.text, b.text, a.text);
    }
  }

  lemma TextIsStrictTotal()
    ensures O.StrictTotal((a: A.UnitId, b: A.UnitId) => O.Less(a.text, b.text))
  {
    forall a: A.UnitId ensures !O.Less(a.text, a.text) {
      O.LessIrreflexive(a.text);
    }
    forall a: A.UnitId, b: A.UnitId, c: A.UnitId | O.Less(a.text, b.text) && O.Less(b.text, c.text)
      ensures O.Less(a.text, c.text)
    {
      O.LessTransitive(a.text, b.text, c.text);
    }
    forall a: A.UnitId, b: A.UnitId ensures O.Less(a.text, b.text) || a == b || O.Less(b.text, a.text) {
      O.LessTotal(a.text, b.text);
    }
  }

  /** The first twelve of the ids in at least two receipts. */
  ghost predicate IsWorklist(worklist: seq<A.UnitId>, receipts: seq<Receipt>, ids: seq<A.UnitId>) {
    var votes := (u: A.UnitId) => Votes(receipts, |receipts|, u);
    && |worklist| == 12
    && (forall i, j :: 0 <= i < j < 12 ==> Before(votes, worklist[i], worklist[j]))
    && (forall u :: u in worklist ==> u in ids && votes(u) >= 2)
    && (forall u, w :: u in ids && votes(u) >= 2 && u !in worklist && w in worklist ==> Before(votes, w, u))
  }

  /** A worklist holds the twelve most often named units: votes fall along it, equal votes follow the
      ids, every unit on it has two receipts or more, and none left out has more votes than one on it. */
  lemma WorklistMeans(w: seq<A.UnitId>, receipts: seq<Receipt>, ids: seq<A.UnitId>)
    requires IsWorklist(w, receipts, ids)
    ensures |w| == 12 && forall i :: 0 <= i < 12 ==> w[i] in ids && |VotersOf(receipts, |receipts|, w[i])| >= 2
    ensures forall i, j :: 0 <= i < j < 12 ==>
              var (m, n) := (|VotersOf(receipts, |receipts|, w[i])|, |VotersOf(receipts, |receipts|, w[j])|);
              m > n || (m == n && O.Less(w[i].text, w[j].text))
    ensures forall u, i :: u in ids && u !in w && 0 <= i < 12 ==>
              |VotersOf(receipts, |receipts|, u)| < 2
              || |VotersOf(receipts, |receipts|, u)| <= |VotersOf(receipts, |receipts|, w[i])|
  {
    forall u ensures Votes(receipts, |receipts|, u) == |VotersOf(receipts, |receipts|, u)| {
      VotesAreReceipts(receipts, |receipts|, u);
    }
    hide VotersOf, Votes, O.Less;
  }

  /** The worklist is determined by the receipts. */
  lemma WorklistUnique(a: seq<A.UnitId>, b: seq<A.UnitId>, receipts: seq<Receipt>, ids: seq<A.UnitId>)
    requires IsWorklist(a, receipts, ids) && IsWorklist(b, receipts, ids)
    ensures a == b
  {
    var votes := (u: A.UnitId) => Votes(receipts, |receipts|, u);
    BeforeIsStrictTotal(votes);
    forall u | u in a || u in b ensures u in a && u in b {
      if u in a {
        WorklistCovers(a, b, receipts, ids, u);
      } else {
        WorklistCovers(b, a, receipts, ids, u);
      }
    }
    hide Before, IsWorklist;
    assert O.Ascending(a, (x, y) => Before(votes, x, y)) && O.Ascending(b, (x, y) => Before(votes, x, y)) by {
      WorklistAscends(a, receipts, ids);
      WorklistAscends(b, receipts, ids);
    }
    O.AscendingUnique(a, b, (x, y) => Before(votes, x, y));
  }

  lemma WorklistAscends(a: seq<A.UnitId>, receipts: seq<Receipt>, ids: seq<A.UnitId>)
    requires IsWorklist(a, receipts, ids)
    ensures var votes := (u: A.UnitId) => Votes(receipts, |receipts|, u);
            O.Ascending(a, (x, y) => Before(votes, x, y))
  {
  }

  lemma WorklistCovers(a: seq<A.UnitId>, b: seq<A.UnitId>, receipts: seq<Receipt>, ids: seq<A.UnitId>, u: A.UnitId)
    requires IsWorklist(a, receipts, ids) && IsWorklist(b, receipts, ids) && u in a
    ensures u in b
  {
    var votes := (x: A.UnitId) => Votes(receipts, |receipts|, x);
    var before := (x, y) => Before(votes, x, y);
    BeforeIsStrictTotal(votes);
    if u !in b {
      SameSizeMisses(a, b, u, before);
      var w :| w in b && w !in a;
      BeforeIsAsymmetric(votes, w, u);
      assert false;
    }
  }

  /** Of two ascending lists of one length, if one has an element the other lacks, so has the other. */
  lemma SameSizeMisses(a: seq<A.UnitId>, b: seq<A.UnitId>, u: A.UnitId, before: (A.UnitId, A.UnitId) -> bool)
    requires O.StrictTotal(before) && O.Ascending(a, before) && O.Ascending(b, before)
    requires |a| == |b| && u in a && u !in b
    ensures exists w :: w in b && w !in a
  {
    var (x, y) := (set v | v in a, set v | v in b);
    AscendingSize(a, before);
    AscendingSize(b, before);
    if forall w :: w in b ==> w in a {
      assert y <= x - {u};
      SubsetSize(y, x - {u});
    }
  }

  lemma {:induction false} AscendingSize(a: seq<A.UnitId>, before: (A.UnitId, A.UnitId) -> bool)
    requires O.StrictTotal(before) && O.Ascending(a, before)
    ensures |set v | v in a| == |a|
  {
    if a != [] {
      var init := a[..|a| - 1];
      AscendingSize(init, before);
      assert a == init + [a[|a| - 1]];
      assert a[|a| - 1] !in init;
      assert (set v | v in a) == (set v | v in init) + {a[|a| - 1]};
    }
  }

  // ---------------------------------------------------------------- the consensus run

  /** Three readings of all units, reading by reading. */
  function Row(ids: seq<A.UnitId>, reading: nat, m: nat): seq<(nat, A.UnitId)>
    requires m <= |ids|
  {
    if m == 0 then [] else Row(ids, reading, m - 1) + [(reading, ids[m - 1])]
  }

  function Plan(ids: seq<A.UnitId>, readings: nat): seq<(nat, A.UnitId)> {
    if readings == 0 then [] else Plan(ids, readings - 1) + Row(ids, readings, |ids|)
  }

  lemma {:induction false} RowLength(ids: seq<A.UnitId>, reading: nat, m: nat)
    requires m <= |ids|
    ensures |Row(ids, reading, m)| == m
  {
    if m > 0 {
      RowLength(ids, reading, m - 1);
    }
  }

  function Labels(receipts: seq<Receipt>): (r: seq<(nat, A.UnitId)>)
    ensures |r| == |receipts| && forall k :: 0 <= k < |r| ==> r[k] == (receipts[k].reading, receipts[k].unit)
  {
    seq(|receipts|, k requires 0 <= k < |receipts| => (receipts[k].reading, receipts[k].unit))
  }

  ghost predicate SucceededFor(me: nat, before: A.Db, db: A.Db, key: A.Key) {
    exists id :: NewSuccess(me, before, db, id) && db.attempts[id].key == key
  }

  function KeyOf(run: A.RunId, selection: Digest, r: Receipt): A.Key {
    A.Key(run, r.reading, selection, r.unit)
  }

  /** Every receipt stands for a key that was free before the run, and for an attempt this process
      made for it since, which succeeded. */
  ghost predicate Backed(me: nat, before: A.Db, db: A.Db, run: A.RunId, selection: Digest, receipts: seq<Receipt>) {
    forall k :: 0 <= k < |receipts| ==>
      var key := KeyOf(run, selection, receipts[k]); !A.Taken(before, key) && SucceededFor(me, before, db, key)
  }

  datatype Consensus = Consensus(requests: nat, worklist: seq<A.UnitId>, recurrence: map<A.UnitId, nat>,
                       nonAnswers: nat)

  ghost predicate Counts(recurrence: map<A.UnitId, nat>, ids: seq<A.UnitId>, receipts: seq<Receipt>) {
    && (forall u :: u in recurrence <==> u in ids)
    && (forall u :: u in recurrence ==> recurrence[u] == Votes(receipts, |receipts|, u))
  }

  ghost predicate AllAdmitted(receipts: seq<Receipt>, ids: seq<A.UnitId>) {
    forall k :: 0 <= k < |receipts| ==> Admitted(receipts[k].proposals, ids)
  }

  lemma DispatchBacks(me: nat, before: A.Db, db: A.Db, run: A.RunId, selection: Digest, receipts: seq<Receipt>,
                      key: A.Key, profile: A.Profile, answer: Answer, ids: seq<A.UnitId>, d: Effect)
    requires Grown(me, before, db) && Backed(me, before, db, run, selection, receipts)
    requires key.run == run && key.selection == selection && Dispatches(me, db, key, profile, answer, ids, d)
    ensures Grown(me, before, d.db) && Backed(me, before, d.db, run, selection, receipts)
    ensures d.proposals.Some? ==>
              var r := Receipt(key.reading, key.unit, d.proposals.value);
              Backed(me, before, d.db, run, selection, receipts + [r])
  {
    hide Dispatches, Admitted, OnlyAttempts, A.Taken, Grown, SucceededFor, NewSuccess, A.KeysDistinct, A.Evolves;
    assert A.KeysDistinct(db) && A.Evolves(before, db) by { GrownMeans(me, before, db); }
    DispatchSettles(me, db, key, profile, answer, ids, d);
    GrownMeans(me, db, d.db);
    GrownTransitive(me, before, db, d.db);
    forall k | 0 <= k < |receipts| ensures SucceededFor(me, before, d.db, KeyOf(run, selection, receipts[k])) {
      SuccessStays(me, before, db, d.db, KeyOf(run, selection, receipts[k]));
    }
    if d.proposals.Some? {
      NewSuccessForKey(me, before, db, d.db, key);
      if A.Taken(before, key) {
        TakenStays(before, db, key);
        assert false;
      }
    }
  }

  lemma GrownMeans(me: nat, a: A.Db, b: A.Db)
    requires Grown(me, a, b)
    ensures A.Evolves(a, b) && A.KeysDistinct(b)
  {
  }

  lemma GrownTransitive(me: nat, a: A.Db, b: A.Db, c: A.Db)
    requires Grown(me, a, b) && Grown(me, b, c)
    ensures Grown(me, a, c)
  {
    EvolvesTransitive(a, b, c);
    forall id | id in c.attempts && id.owner == me && id !in a.attempts ensures A.Rank(c.attempts[id].status) == 2 {
      if id in b.attempts {
        assert A.Successor(b.attempts[id], c.attempts[id]);
      }
    }
  }

  lemma SuccessStays(me: nat, before: A.Db, db: A.Db, later: A.Db, key: A.Key)
    requires SucceededFor(me, before, db, key) && A.Evolves(db, later)
    ensures SucceededFor(me, before, later, key)
  {
    var id :| NewSuccess(me, before, db, id) && db.attempts[id].key == key;
    assert A.Successor(db.attempts[id], later.attempts[id]);
    assert NewSuccess(me, before, later, id);
  }

  lemma NewSuccessForKey(me: nat, before: A.Db, db: A.Db, later: A.Db, key: A.Key)
    requires A.Evolves(before, db) && OnlyAttempts(me, db, later, key)
    requires exists id :: NewSuccess(me, db, later, id)
    ensures SucceededFor(me, before, later, key)
  {
    var id :| NewSuccess(me, db, later, id);
    assert NewSuccess(me, before, later, id);
  }

  /** The inner body of the nested loops: the proposals of one receipt. */
  method CountProposals(recurrence: map<A.UnitId, nat>, ghost ids: seq<A.UnitId>, ghost receipts: seq<Receipt>,
                        r: Receipt)
    returns (more: map<A.UnitId, nat>)
    requires Counts(recurrence, ids, receipts) && Admitted(r.proposals, ids)
    ensures Counts(more, ids, receipts + [r])
  {
    more := recurrence;
    for i := 0 to |r.proposals|
      invariant forall u :: u in more <==> u in ids
      invariant forall u :: u in more ==>
                  more[u] == Votes(receipts, |receipts|, u) + if u in r.proposals[..i] then 1 else 0
    {
      var u := r.proposals[i];
      assert r.proposals[..i + 1] == r.proposals[..i] + [u];
      assert u !in r.proposals[..i];
      more := more[u := (if u in more then more[u] else 0) + 1];
    }
    assert r.proposals[..|r.proposals|] == r.proposals;
    forall u
      ensures Votes(receipts + [r], |receipts| + 1, u)
           == Votes(receipts, |receipts|, u) + if u in r.proposals then 1 else 0
    {
      VotesOfPrefix(receipts, r, |receipts|, u);
    }
  }

  lemma {:induction false} VotesOfPrefix(receipts: seq<Receipt>, r: Receipt, n: nat, u: A.UnitId)
    requires n <= |receipts|
    ensures Votes(receipts + [r], n, u) == Votes(receipts, n, u)
  {
    if n > 0 {
      VotesOfPrefix(receipts, r, n - 1, u);
    }
  }

  lemma {:induction false} NonAnswersOfPrefix(receipts: seq<Receipt>, r: Receipt, n: nat)
    requires n <= |receipts|
    ensures NonAnswers(receipts + [r], n) == NonAnswers(receipts, n)
  {
    if n > 0 {
      NonAnswersOfPrefix(receipts, r, n - 1);
    }
  }

  /** The ids in at least two receipts, by falling count and rising id, cut to twelve. */
  method SelectWorklist(recurrence: map<A.UnitId, nat>, ids: seq<A.UnitId>, ghost receipts: seq<Receipt>)
    returns (worklist: Option<seq<A.UnitId>>)
    requires Distinct(ids) && Counts(recurrence, ids, receipts)
    ensures worklist.Some? ==> IsWorklist(worklist.value, receipts, ids)
    ensures worklist.None? ==> forall w :: !IsWorklist(w, receipts, ids)
  {
    var eligible: seq<A.UnitId> := [];
    for i := 0 to |ids|
      invariant Distinct(eligible)
      invariant forall u :: u in eligible <==> u in ids[..i] && Votes(receipts, |receipts|, u) >= 2
    {
      assert ids[..i + 1] == ids[..i] + [ids[i]] && ids[i] !in ids[..i];
      if recurrence[ids[i]] >= 2 {
        eligible := eligible + [ids[i]];
      }
    }
    assert ids[..|ids|] == ids;
    ghost var votes := (u: A.UnitId) => Votes(receipts, |receipts|, u);
    var counted := (u: A.UnitId) => if u in recurrence then recurrence[u] else 0;
    BeforeIsStrictTotal(counted);
    var sorted := O.Sort(eligible, (a, b) => Before(counted, a, b));
    if |sorted| < 12 {
      worklist := None;
      TooFewEligible(eligible, receipts, ids);
    } else {
      worklist := Some(sorted[..12]);
      TwelveFirst(sorted, counted, receipts, ids);
    }
  }

  lemma {:induction false} TwelveFirst(sorted: seq<A.UnitId>, counted: A.UnitId -> nat, receipts: seq<Receipt>,
                                       ids: seq<A.UnitId>)
    requires |sorted| >= 12 && O.Ascending(sorted, (a, b) => Before(counted, a, b))
    requires forall u :: u in sorted <==> u in ids && Votes(receipts, |receipts|, u) >= 2
    requires forall u :: u in ids ==> counted(u) == Votes(receipts, |receipts|, u)
    ensures IsWorklist(sorted[..12], receipts, ids)
  {
    var (list, before) := (sorted[..12], (a, b) => Before(counted, a, b));
    assert forall i, j :: 0 <= i < j < |sorted| ==> before(sorted[i], sorted[j]);
    forall u, w | u in ids && Votes(receipts, |receipts|, u) >= 2 && u !in list && w in list
      ensures Before(counted, w, u)
    {
      assert u in sorted;
      var i, j :| 0 <= i < |sorted| && sorted[i] == u && 0 <= j < 12 && list[j] == w;
      assert forall k :: 0 <= k < 12 ==> list[k] == sorted[k] && list[k] in list;
      assert before(sorted[j], sorted[i]);
    }
    assert forall u :: u in list ==> u in sorted;
  }

  lemma TooFewEligible(eligible: seq<A.UnitId>, receipts: seq<Receipt>, ids: seq<A.UnitId>)
    requires Distinct(eligible) && |eligible| < 12
    requires forall u :: u in eligible <==> u in ids && Votes(receipts, |receipts|, u) >= 2
    ensures forall w :: !IsWorklist(w, receipts, ids)
  {
    forall w ensures !IsWorklist(w, receipts, ids) {
      if IsWorklist(w, receipts, ids) {
        var votes := (u: A.UnitId) => Votes(receipts, |receipts|, u);
        BeforeIsStrictTotal(votes);
        WorklistAscends(w, receipts, ids);
        AscendingSize(w, (a, b) => Before(votes, a, b));
        DistinctSize(eligible);
        assert (set u | u in w) <= (set u | u in eligible);
        SubsetSize(set u | u in w, set u | u in eligible);
      }
    }
  }

  /** What a success of process `me` on run and selection stands for. */
  ghost predicate RunDone(me: nat, before: A.Db, db: A.Db, run: A.RunId, selection: Digest, ids: seq<A.UnitId>,
                          receipts: seq<Receipt>, c: Consensus)
  {
    && Labels(receipts) == Plan(ids, 3) && |receipts| == 3 * |ids| == c.requests
    && Backed(me, before, db, run, selection, receipts) && AllAdmitted(receipts, ids)
    && Counts(c.recurrence, ids, receipts) && c.nonAnswers == NonAnswers(receipts, |receipts|)
    && IsWorklist(c.worklist, receipts, ids)
  }

  /** What the loops know: the store, the receipts, and the counts made from them. */
  ghost predicate Recorded(me: nat, before: A.Db, db: A.Db, run: A.RunId, selection: Digest, ids: seq<A.UnitId>,
                           receipts: seq<Receipt>, recurrence: map<A.UnitId, nat>, nonAnswers: nat)
  {
    && Backed(me, before, db, run, selection, receipts) && AllAdmitted(receipts, ids)
    && Counts(recurrence, ids, receipts) && nonAnswers == NonAnswers(receipts, |receipts|)
  }

  /** One dispatch of the nested loops. */
  method ReadUnit(run: A.RunId, selection: Digest, ids: seq<A.UnitId>, reading: nat, unit: A.UnitId,
                  dispatcher: Dispatcher, answer: Answer, recurrence: map<A.UnitId, nat>, nonAnswers: nat,
                  ghost before: A.Db, ghost receipts: seq<Receipt>)
    returns (receipt: Option<Receipt>, counts: map<A.UnitId, nat>, silent: nat)
    requires dispatcher.store.Valid() && Grown(dispatcher.store.me, before, dispatcher.store.db)
    requires Recorded(dispatcher.store.me, before, dispatcher.store.db, run, selection, ids, receipts, recurrence,
                      nonAnswers)
    modifies dispatcher, dispatcher.store
    ensures dispatcher.store.Valid() && Grown(dispatcher.store.me, before, dispatcher.store.db)
    ensures dispatcher.calls <= old(dispatcher.calls) + 1
    ensures receipt.Some? ==>
      && (receipt.value.reading, receipt.value.unit) == (reading, unit) && dispatcher.calls == old(dispatcher.calls) + 1
      && Recorded(dispatcher.store.me, before, dispatcher.store.db, run, selection, ids, receipts + [receipt.value],
                  counts, silent)
  {
    hide Backed, Grown, Counts, AllAdmitted, Dispatches, Admitted;
    counts, silent := recurrence, nonAnswers;
    var key := A.Key(run, reading, selection, unit);
    ghost var (me, db, calls) := (dispatcher.store.me, dispatcher.store.db, dispatcher.calls);
    receipt := dispatcher.Dispatch(key, answer, ids);
    ghost var d := Effect(dispatcher.store.db, dispatcher.calls - calls, ProposalsOf(receipt));
    DispatchBacks(me, before, db, run, selection, receipts, key, dispatcher.profile, answer, ids, d);
    DispatchSettles(me, db, key, dispatcher.profile, answer, ids, d);
    if receipt.Some? {
      var r := receipt.value;
      if r.proposals == [] {
        silent := silent + 1;
      }
      counts := CountProposals(counts, ids, receipts, r);
      OneMoreAdmitted(receipts, r, ids);
      NonAnswersOfPrefix(receipts, r, |receipts|);
    }
  }

  /** One pass over all units. */
  method Read(run: A.RunId, selection: Digest, ids: seq<A.UnitId>, reading: nat, dispatcher: Dispatcher,
              world: (nat, A.UnitId) -> Answer, recurrence: map<A.UnitId, nat>, nonAnswers: nat,
              ghost before: A.Db, ghost receipts: seq<Receipt>)
    returns (ok: bool, counts: map<A.UnitId, nat>, silent: nat, ghost more: seq<Receipt>)
    requires dispatcher.store.Valid() && Grown(dispatcher.store.me, before, dispatcher.store.db)
    requires Recorded(dispatcher.store.me, before, dispatcher.store.db, run, selection, ids, receipts, recurrence,
                      nonAnswers)
    modifies dispatcher, dispatcher.store
    ensures dispatcher.store.Valid() && Grown(dispatcher.store.me, before, dispatcher.store.db)
    ensures dispatcher.calls <= old(dispatcher.calls) + |ids|
    ensures ok ==>
      && |more| == |receipts| + |ids| && dispatcher.calls == old(dispatcher.calls) + |ids|
      && Labels(more) == Labels(receipts) + Row(ids, reading, |ids|)
      && Recorded(dispatcher.store.me, before, dispatcher.store.db, run, selection, ids, more, counts, silent)
  {
    hide Recorded, Grown;
    ok, counts, silent, more := true, recurrence, nonAnswers, receipts;
    for i := 0 to |ids|
      invariant dispatcher.store.Valid() && Grown(dispatcher.store.me, before, dispatcher.store.db)
      invariant |more| == |receipts| + i && dispatcher.calls == old(dispatcher.calls) + i
      invariant Labels(more) == Labels(receipts) + Row(ids, reading, i)
      invariant Recorded(dispatcher.store.me, before, dispatcher.store.db, run, selection, ids, more, counts, silent)
    {
      hide Row;
      var receipt;
      receipt, counts, silent :=
        ReadUnit(run, selection, ids, reading, ids[i], dispatcher, world(reading, ids[i]), counts, silent, before,
                 more);
      if receipt.None? {
        ok := false;
        return;
      }
      OneMoreLabel(more, receipt.value, Labels(receipts), ids, reading, i);
      more := more + [receipt.value];
    }
  }

  lemma OneMoreAdmitted(receipts: seq<Receipt>, r: Receipt, ids: seq<A.UnitId>)
    requires AllAdmitted(receipts, ids) && Admitted(r.proposals, ids)
    ensures AllAdmitted(receipts + [r], ids)
  {
  }

  lemma OneMoreLabel(receipts: seq<Receipt>, r: Receipt, start: seq<(nat, A.UnitId)>, ids: seq<A.UnitId>,
                     reading: nat, i: nat)
    requires i < |ids| && Labels(receipts) == start + Row(ids, reading, i) && (r.reading, r.unit) == (reading, ids[i])
    ensures Labels(receipts + [r]) == start + Row(ids, reading, i + 1)
  {
    assert Labels(receipts + [r]) == Labels(receipts) + [(reading, ids[i])];
  }

  lemma NothingRecorded(me: nat, db: A.Db, run: A.RunId, selection: Digest, ids: seq<A.UnitId>)
    ensures Recorded(me, db, db, run, selection, ids, [], map u | u in ids :: 0, 0)
  {
  }

  /** All three passes, starting from zero counts. */
  method ReadAll(run: A.RunId, selection: Digest, ids: seq<A.UnitId>, dispatcher: Dispatcher,
                 world: (nat, A.UnitId) -> Answer)
    returns (ok: bool, recurrence: map<A.UnitId, nat>, nonAnswers: nat, ghost receipts: seq<Receipt>)
    requires dispatcher.store.Valid()
    modifies dispatcher, dispatcher.store
    ensures dispatcher.store.Valid() && Grown(dispatcher.store.me, old(dispatcher.store.db), dispatcher.store.db)
    ensures dispatcher.calls <= old(dispatcher.calls) + 3 * |ids|
    ensures ok ==>
      && Labels(receipts) == Plan(ids, 3) && |receipts| == 3 * |ids| == dispatcher.calls - old(dispatcher.calls)
      && Recorded(dispatcher.store.me, old(dispatcher.store.db), dispatcher.store.db, run, selection, ids, receipts,
                  recurrence, nonAnswers)
  {
    ghost var before := dispatcher.store.db;
    ok, recurrence, nonAnswers, receipts := true, map u | u in ids :: 0, 0, [];
    PlanLengths(ids);
    NothingAdded(dispatcher.store.me, before);
    NothingRecorded(dispatcher.store.me, before, run, selection, ids);
    hide Row, Grown, Recorded;
    for reading := 1 to 4
      invariant dispatcher.store.Valid() && Grown(dispatcher.store.me, before, dispatcher.store.db)
      invariant Labels(receipts) == Plan(ids, reading - 1) && dispatcher.calls == old(dispatcher.calls) + |receipts|
      invariant Recorded(dispatcher.store.me, before, dispatcher.store.db, run, selection, ids, receipts, recurrence,
                         nonAnswers)
    {
      ok, recurrence, nonAnswers, receipts :=
        Read(run, selection, ids, reading, dispatcher, world, recurrence, nonAnswers, before, receipts);
      if !ok {
        return;
      }
    }
    ok := true;
  }

  /** `run_b3_consensus`.  A success stands for three readings of every unit, each the first and
      only request for its key, counted without loss, and the one worklist the counts determine. */
  method RunConsensus(run: A.RunId, selection: Digest, units: seq<A.UnitId>, dispatcher: Dispatcher,
                      world: (nat, A.UnitId) -> Answer)
    returns (result: Option<Consensus>, ids: seq<A.UnitId>, ghost receipts: seq<Receipt>)
    requires Distinct(units) && dispatcher.store.Valid()
    modifies dispatcher, dispatcher.store
    ensures dispatcher.store.Valid() && Grown(dispatcher.store.me, old(dispatcher.store.db), dispatcher.store.db)
    ensures |ids| == |units| && Distinct(ids) && forall u :: u in ids <==> u in units
    ensures dispatcher.calls <= old(dispatcher.calls) + 3 * |units|
    ensures result.Some? ==>
      && |units| >= 12 && dispatcher.calls == old(dispatcher.calls) + 3 * |units|
      && RunDone(dispatcher.store.me, old(dispatcher.store.db), dispatcher.store.db, run, selection, ids, receipts,
                 result.value)
  {
    hide Grown, Backed, AllAdmitted, Counts, NonAnswers, IsWorklist, Plan;
    result, receipts := None, [];
    ids := SortedIds(units);
    if |ids| < 12 {
      ghost var same := dispatcher.store.db;
      NothingAdded(dispatcher.store.me, same);
      return;
    }
    var ok, recurrence, nonAnswers;
    ok, recurrence, nonAnswers, receipts := ReadAll(run, selection, ids, dispatcher, world);
    if !ok {
      return;
    }
    var worklist := SelectWorklist(recurrence, ids, receipts);
    if worklist.Some? {
      result := Some(Consensus(|ids| * 3, worklist.value, recurrence, nonAnswers));
    }
  }

  lemma NothingAdded(me: nat, db: A.Db)
    requires A.KeysDistinct(db)
    ensures Grown(me, db, db)
  {
  }

  lemma PlanLengths(ids: seq<A.UnitId>)
    ensures |Plan(ids, 0)| == 0 && |Plan(ids, 1)| == |ids| && |Plan(ids, 2)| == 2 * |ids| && |Plan(ids, 3)| == 3 * |ids|
  {
    RowLength(ids, 1, |ids|);
    RowLength(ids, 2, |ids|);
    RowLength(ids, 3, |ids|);
  }

  method SortedIds(units: seq<A.UnitId>) returns (ids: seq<A.UnitId>)
    requires Distinct(units)
    ensures |ids| == |units| && Distinct(ids) && forall u :: u in ids <==> u in units
  {
    TextIsStrictTotal();
    ids := O.Sort(units, (a: A.UnitId, b: A.UnitId) => O.Less(a.text, b.text));
    AscendingIsDistinct(ids);
  }

  lemma AscendingIsDistinct(ids: seq<A.UnitId>)
    requires O.StrictTotal((a: A.UnitId, b: A.UnitId) => O.Less(a.text, b.text))
    requires O.Ascending(ids, (a: A.UnitId, b: A.UnitId) => O.Less(a.text, b.text))
    ensures Distinct(ids)
  {
    forall i, j | 0 <= i < j < |ids| ensures ids[i] != ids[j] {
      O.LessIrreflexive(ids[i].text);
    }
  }

  // ---------------------------------------------------------------- at most one success

  /** The stores of one lifetime, in order: each moment evolves into every later one. */
  ghost predicate Lifetime(history: seq<A.Db>) {
    forall i, j :: 0 <= i <= j < |history| ==> A.Evolves(history[i], history[j]) && A.KeysDistinct(history[j])
  }

  /** One success of the consensus: who ran it, and from which moment to which. */
  datatype Success = Success(me: nat, from: nat, to: nat, receipts: seq<Receipt>, consensus: Consensus)

  ghost predicate Happened(history: seq<A.Db>, run: A.RunId, selection: Digest, ids: seq<A.UnitId>, s: Success) {
    && s.from <= s.to < |history|
    && RunDone(s.me, history[s.from], history[s.to], run, selection, ids, s.receipts, s.consensus)
  }

  /** Over the store's lifetime a run and selection succeed at most once: two successes that overlap
      would be the same process's, and one process does not overlap with itself. */
  lemma SucceedsAtMostOnce(history: seq<A.Db>, run: A.RunId, selection: Digest, ids: seq<A.UnitId>, a: Success,
                           b: Success)
    requires Lifetime(history) && |ids| >= 12
    requires Happened(history, run, selection, ids, a) && Happened(history, run, selection, ids, b)
    ensures a.me == b.me && a.from < b.to && b.from < a.to
  {
    var key := A.Key(run, 1, selection, ids[0]);
    var x := FirstSuccess(history, run, selection, ids, a);
    var y := FirstSuccess(history, run, selection, ids, b);
    var end := |history| - 1;
    assert A.Successor(history[a.to].attempts[x], history[end].attempts[x]);
    assert A.Successor(history[b.to].attempts[y], history[end].attempts[y]);
    assert x == y;
    hide A.Evolves, RunDone, A.KeysDistinct;
    if b.to <= a.from {
      OnceIsForAll(history, b.to, a.from, x);
    }
    if a.to <= b.from {
      OnceIsForAll(history, a.to, b.from, x);
    }
  }

  lemma OnceIsForAll(history: seq<A.Db>, i: nat, j: nat, id: A.AttemptId)
    requires Lifetime(history) && i <= j < |history| && id in history[i].attempts
    ensures id in history[j].attempts
  {
    assert A.Evolves(history[i], history[j]);
  }

  lemma FirstSuccess(history: seq<A.Db>, run: A.RunId, selection: Digest, ids: seq<A.UnitId>, s: Success)
    returns (id: A.AttemptId)
    requires Happened(history, run, selection, ids, s) && |ids| >= 12
    ensures id.owner == s.me && id !in history[s.from].attempts && id in history[s.to].attempts
    ensures history[s.to].attempts[id].key == A.Key(run, 1, selection, ids[0])
  {
    FirstKey(run, selection, ids, s.receipts);
    assert SucceededFor(s.me, history[s.from], history[s.to], A.Key(run, 1, selection, ids[0]));
    id :| NewSuccess(s.me, history[s.from], history[s.to], id)
          && history[s.to].attempts[id].key == A.Key(run, 1, selection, ids[0]);
  }

  lemma FirstKey(run: A.RunId, selection: Digest, ids: seq<A.UnitId>, receipts: seq<Receipt>)
    requires |ids| >= 12 && Labels(receipts) == Plan(ids, 3)
    ensures |receipts| > 0 && KeyOf(run, selection, receipts[0]) == A.Key(run, 1, selection, ids[0])
  {
    PlanStarts(ids, 3);
    assert Labels(receipts)[0] == (1, ids[0]);
  }

  lemma {:induction false} RowStarts(ids: seq<A.UnitId>, reading: nat, m: nat)
    requires 0 < m <= |ids|
    ensures |Row(ids, reading, m)| > 0 && Row(ids, reading, m)[0] == (reading, ids[0])
  {
    if m > 1 {
      RowStarts(ids, reading, m - 1);
    }
  }

  lemma {:induction false} PlanStarts(ids: seq<A.UnitId>, readings: nat)
    requires 0 < |ids| && 0 < readings
    ensures |Plan(ids, readings)| > 0 && Plan(ids, readings)[0] == (1, ids[0])
  {
    if readings == 1 {
      RowStarts(ids, 1, |ids|);
      assert Plan(ids, 1) == Plan(ids, 0) + Row(ids, 1, |ids|) == Row(ids, 1, |ids|);
    } else {
      PlanStarts(ids, readings - 1);
    }
  }
}
