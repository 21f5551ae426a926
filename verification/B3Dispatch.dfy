/** One dispatch of `workbench/b3_dispatcher.py` over the attempt store, while other processes commit
    to the same store between any two of its statements. */
module B3Dispatch {
  import opened Basics
  import A = B3Attempts

  /** What one dispatch meets: route health, egress admission, and the provider's proposals, if an
      answer of the right shape arrived. */
  datatype Answer = Answer(healthy: bool, egressOk: bool, proposals: Option<seq<A.UnitId>>)

  datatype Receipt = Receipt(reading: nat, unit: A.UnitId, proposals: seq<A.UnitId>)

  /** `quarantine_response`: distinct proposals inside the admitted frame. */
  predicate Admitted(proposals: seq<A.UnitId>, units: seq<A.UnitId>) {
    Distinct(proposals) && forall i :: 0 <= i < |proposals| ==> proposals[i] in units
  }

  /** The answer is one the attempt succeeds with. */
  predicate Usable(answer: Answer, units: seq<A.UnitId>) {
    answer.proposals.Some? && Admitted(answer.proposals.value, units)
  }

  // ---------------------------------------------------------------- the other processes

  /** What another process may commit: a restart recovers, and everything else concerns attempts
      that process made. */
  datatype Txn =
    | Restart
    | Withdraw(profile: A.Profile)
    | Claim(key: A.Key, profile: A.Profile, id: A.AttemptId)
    | Send(id: A.AttemptId, profile: A.Profile)
    | Move(id: A.AttemptId, from: A.Status, to: A.Status)

  function Commit(me: nat, db: A.Db, txn: Txn): A.Db {
    match txn
    case Restart => A.Recovered(db)
    case Withdraw(profile) => db.(revoked := db.revoked + {profile})
    case Claim(key, profile, id) =>
      if id.owner == me || id in db.attempts then db else A.Orelse(A.Reserve(db, key, profile, id), db)
    case Send(id, profile) => if id.owner == me then db else A.Orelse(A.MarkDispatched(db, id, profile), db)
    case Move(id, from, to) =>
      if id.owner == me || A.Rank(to) != 2 || A.Rank(from) == 2 then db else A.Orelse(A.Moved(db, id, from, to), db)
  }

  /** What the store of one moment may be at a later one, as far as process `me` did nothing: its own
      attempts stay, except that a restart makes a dispatched one unknown. */
  ghost predicate Beside(me: nat, a: A.Db, b: A.Db) {
    && A.Evolves(a, b) && (A.KeysDistinct(a) ==> A.KeysDistinct(b))
    && forall id: A.AttemptId :: id.owner == me ==> OwnStays(a, b, id)
  }

  predicate OwnStays(a: A.Db, b: A.Db, id: A.AttemptId) {
    && (id in a.attempts <==> id in b.attempts)
    && (id in a.attempts ==>
          || b.attempts[id] == a.attempts[id]
          || (a.attempts[id].status == A.Dispatched && b.attempts[id] == a.attempts[id].(status := A.Unknown)))
  }

  lemma CommitBeside(me: nat, db: A.Db, txn: Txn)
    ensures Beside(me, db, Commit(me, db, txn))
  {
    CommitEvolves(me, db, txn);
    CommitKeepsKeys(me, db, txn);
    forall id: A.AttemptId | id.owner == me ensures OwnStays(db, Commit(me, db, txn), id) {
      CommitLeavesOwn(me, db, txn, id);
    }
    hide Commit, OwnStays, A.Evolves, A.KeysDistinct;
  }

  lemma CommitEvolves(me: nat, db: A.Db, txn: Txn)
    ensures A.Evolves(db, Commit(me, db, txn))
  {
  }

  lemma CommitKeepsKeys(me: nat, db: A.Db, txn: Txn)
    ensures A.KeysDistinct(db) ==> A.KeysDistinct(Commit(me, db, txn))
  {
  }

  lemma CommitLeavesOwn(me: nat, db: A.Db, txn: Txn, id: A.AttemptId)
    requires id.owner == me
    ensures OwnStays(db, Commit(me, db, txn), id)
  {
  }

  lemma BesideNothing(me: nat, db: A.Db)
    ensures Beside(me, db, db)
  {
  }

  lemma BesideTransitive(me: nat, a: A.Db, b: A.Db, c: A.Db)
    requires Beside(me, a, b) && Beside(me, b, c)
    ensures Beside(me, a, c)
  {
    forall id: A.AttemptId | id.owner == me ensures OwnStays(a, c, id) {
      assert OwnStays(a, b, id) && OwnStays(b, c, id);
    }
    EvolvesTransitive(a, b, c);
  }

  lemma EvolvesTransitive(a: A.Db, b: A.Db, c: A.Db)
    requires A.Evolves(a, b) && A.Evolves(b, c)
    ensures A.Evolves(a, c)
  {
    forall id | id in a.attempts ensures id in c.attempts && A.Successor(a.attempts[id], c.attempts[id]) {
      assert A.Successor(a.attempts[id], b.attempts[id]) && A.Successor(b.attempts[id], c.attempts[id]);
    }
  }

  // ---------------------------------------------------------------- what a dispatch may do

  datatype Effect = Effect(db: A.Db, calls: nat, proposals: Option<seq<A.UnitId>>)

  ghost predicate Ends(me: nat, db: A.Db, d: Effect, calls: nat, proposals: Option<seq<A.UnitId>>) {
    Beside(me, db, d.db) && d.calls == calls && d.proposals == proposals
  }

  function Reserved(db: A.Db, key: A.Key, profile: A.Profile, id: A.AttemptId): A.Db {
    db.(attempts := db.attempts[id := A.Attempt(key, profile, A.Reserved)])
  }

  /** `dispatch` by process `me`, from the store it starts with to the store it returns with. */
  ghost predicate Dispatches(me: nat, before: A.Db, key: A.Key, profile: A.Profile, answer: Answer,
                             units: seq<A.UnitId>, d: Effect)
  {
    exists seen :: Beside(me, before, seen) && FromReserve(me, seen, key, profile, answer, units, d)
  }

  ghost predicate FromReserve(me: nat, seen: A.Db, key: A.Key, profile: A.Profile, answer: Answer, units: seq<A.UnitId>,
                              d: Effect)
  {
    if !answer.healthy || A.Taken(seen, key) then Ends(me, seen, d, 0, None)
    else exists id: A.AttemptId :: id.owner == me && id !in seen.attempts
           && Held(me, Reserved(seen, key, profile, id), id, profile, answer, units, d)
  }

  /** With a reservation in hand: rejected without a call, or dispatched and called. */
  ghost predicate Held(me: nat, held: A.Db, id: A.AttemptId, profile: A.Profile, answer: Answer, units: seq<A.UnitId>,
                       d: Effect)
    requires id in held.attempts
  {
    exists seen :: Beside(me, held, seen) &&
      if answer.egressOk && profile !in seen.revoked then
        Called(me, A.WithStatus(seen, id, A.Dispatched), id, answer, units, d)
      else Rejected(me, seen, id, d)
  }

  ghost predicate Rejected(me: nat, held: A.Db, id: A.AttemptId, d: Effect)
    requires id in held.attempts
  {
    exists seen :: Beside(me, held, seen) && Ends(me, A.WithStatus(seen, id, A.Failed), d, 0, None)
  }

  /** After the provider was called once: succeeded, unknown, or already made unknown by a restart. */
  ghost predicate Called(me: nat, sent: A.Db, id: A.AttemptId, answer: Answer, units: seq<A.UnitId>, d: Effect)
    requires id in sent.attempts
  {
    exists seen :: Beside(me, sent, seen) &&
      if !A.In(seen, id, A.Dispatched) then Ends(me, seen, d, 1, None)
      else if Usable(answer, units) then Ends(me, A.WithStatus(seen, id, A.Succeeded), d, 1, answer.proposals)
      else Ends(me, A.WithStatus(seen, id, A.Unknown), d, 1, None)
  }

  // ---------------------------------------------------------------- what that promises

  /** How the attempt ends: failed without a call, succeeded with a receipt, unknown otherwise. */
  function Outcome(d: Effect): A.Status {
    if d.calls == 0 then A.Failed else if d.proposals.Some? then A.Succeeded else A.Unknown
  }

  /** An attempt of this process that was not there before. */
  predicate Made(me: nat, before: A.Db, db: A.Db, id: A.AttemptId) {
    id.owner == me && id !in before.attempts && id in db.attempts
  }

  /** A new attempt of this process that succeeded. */
  predicate NewSuccess(me: nat, before: A.Db, db: A.Db, id: A.AttemptId) {
    Made(me, before, db, id) && A.In(db, id, A.Succeeded)
  }

  /** The store only evolved, and whatever this process added is settled. */
  ghost predicate Grown(me: nat, before: A.Db, db: A.Db) {
    && A.Evolves(before, db) && A.KeysDistinct(db)
    && forall id :: id in db.attempts && id.owner == me && id !in before.attempts ==>
         A.Rank(db.attempts[id].status) == 2
  }

  ghost predicate OnlyAttempts(me: nat, before: A.Db, db: A.Db, key: A.Key) {
    forall id :: id in db.attempts && id.owner == me && id !in before.attempts ==> db.attempts[id].key == key
  }

  /** The one attempt this process has made since. */
  ghost predicate OneMade(me: nat, before: A.Db, db: A.Db, id: A.AttemptId, attempt: A.Attempt) {
    && A.Evolves(before, db) && A.KeysDistinct(db)
    && id.owner == me && id !in before.attempts && id in db.attempts && db.attempts[id] == attempt
    && forall other: A.AttemptId :: other.owner == me && other != id ==>
         (other in db.attempts <==> other in before.attempts)
  }

  lemma ReserveMakes(me: nat, before: A.Db, seen: A.Db, key: A.Key, profile: A.Profile, id: A.AttemptId)
    requires A.KeysDistinct(before) && Beside(me, before, seen) && !A.Taken(seen, key)
    requires id.owner == me && id !in seen.attempts
    ensures OneMade(me, before, Reserved(seen, key, profile, id), id, A.Attempt(key, profile, A.Reserved))
  {
    assert OwnStays(before, seen, id);
    forall other: A.AttemptId | other.owner == me ensures other in seen.attempts <==> other in before.attempts {
      assert OwnStays(before, seen, other);
    }
  }

  lemma BesideKeepsMade(me: nat, before: A.Db, a: A.Db, b: A.Db, id: A.AttemptId, attempt: A.Attempt)
    returns (kept: A.Attempt)
    requires OneMade(me, before, a, id, attempt) && Beside(me, a, b)
    ensures OneMade(me, before, b, id, kept)
    ensures kept == attempt || (attempt.status == A.Dispatched && kept == attempt.(status := A.Unknown))
    ensures a.revoked <= b.revoked
  {
    assert OwnStays(a, b, id);
    kept := b.attempts[id];
    EvolvesTransitive(before, a, b);
    forall other: A.AttemptId | other.owner == me && other != id
      ensures other in b.attempts <==> other in before.attempts
    {
      assert OwnStays(a, b, other);
    }
  }

  lemma MarkKeepsMade(me: nat, before: A.Db, db: A.Db, id: A.AttemptId, attempt: A.Attempt, to: A.Status)
    requires OneMade(me, before, db, id, attempt)
    ensures OneMade(me, before, A.WithStatus(db, id, to), id, attempt.(status := to))
  {
  }

  /** The attempt a reservation made ends settled, and succeeded exactly when there are proposals. */
  lemma HeldSettles(me: nat, before: A.Db, held: A.Db, id: A.AttemptId, attempt: A.Attempt, answer: Answer,
                    units: seq<A.UnitId>, d: Effect) returns (end: A.Attempt)
    requires OneMade(me, before, held, id, attempt) && attempt.status == A.Reserved
    requires Held(me, held, id, attempt.profile, answer, units, d)
    ensures OneMade(me, before, d.db, id, end) && end.key == attempt.key && end.status == Outcome(d)
    ensures d.proposals.Some? ==> d.calls == 1 && Admitted(d.proposals.value, units) && d.proposals == answer.proposals
    ensures d.calls <= 1 && (d.calls == 1 ==> attempt.profile !in before.revoked && answer.egressOk)
    ensures d.calls == 0 ==> !answer.egressOk || attempt.profile in d.db.revoked
  {
    hide OneMade, A.Evolves, A.KeysDistinct, Admitted;
    OlderRevocations(me, before, held, id, attempt);
    var seen :| Beside(me, held, seen) &&
      if answer.egressOk && attempt.profile !in seen.revoked
      then Called(me, A.WithStatus(seen, id, A.Dispatched), id, answer, units, d)
      else Rejected(me, seen, id, d);
    var kept := BesideKeepsMade(me, before, held, seen, id, attempt);
    if answer.egressOk && attempt.profile !in seen.revoked {
      MarkKeepsMade(me, before, seen, id, attempt, A.Dispatched);
      OlderRevocations(me, before, seen, id, attempt);
      end := CalledSettles(me, before, A.WithStatus(seen, id, A.Dispatched), id, attempt.(status := A.Dispatched),
                           answer, units, d);
    } else {
      end := RejectedSettles(me, before, seen, id, attempt, d);
    }
  }

  lemma OlderRevocations(me: nat, before: A.Db, db: A.Db, id: A.AttemptId, attempt: A.Attempt)
    requires OneMade(me, before, db, id, attempt)
    ensures before.revoked <= db.revoked && id.owner == me && id in db.attempts && db.attempts[id] == attempt
  {
  }

  lemma RejectedSettles(me: nat, before: A.Db, held: A.Db, id: A.AttemptId, attempt: A.Attempt, d: Effect)
    returns (end: A.Attempt)
    requires OneMade(me, before, held, id, attempt) && attempt.status == A.Reserved && Rejected(me, held, id, d)
    ensures OneMade(me, before, d.db, id, end) && end == attempt.(status := A.Failed) && d.calls == 0
            && d.proposals == None && held.revoked <= d.db.revoked
  {
    hide OneMade, A.Evolves, A.KeysDistinct;
    OlderRevocations(me, before, held, id, attempt);
    var seen :| Beside(me, held, seen) && Ends(me, A.WithStatus(seen, id, A.Failed), d, 0, None);
    var kept := BesideKeepsMade(me, before, held, seen, id, attempt);
    MarkKeepsMade(me, before, seen, id, attempt, A.Failed);
    end := BesideKeepsMade(me, before, A.WithStatus(seen, id, A.Failed), d.db, id, attempt.(status := A.Failed));
  }

  lemma CalledSettles(me: nat, before: A.Db, sent: A.Db, id: A.AttemptId, attempt: A.Attempt, answer: Answer,
                      units: seq<A.UnitId>, d: Effect) returns (end: A.Attempt)
    requires OneMade(me, before, sent, id, attempt) && attempt.status == A.Dispatched
    requires Called(me, sent, id, answer, units, d)
    ensures OneMade(me, before, d.db, id, end) && end.key == attempt.key && end.status == Outcome(d) && d.calls == 1
    ensures d.proposals.Some? ==> Admitted(d.proposals.value, units) && d.proposals == answer.proposals
  {
    hide OneMade, A.Evolves, A.KeysDistinct, Admitted;
    OlderRevocations(me, before, sent, id, attempt);
    var seen :| Beside(me, sent, seen) &&
      if !A.In(seen, id, A.Dispatched) then Ends(me, seen, d, 1, None)
      else if Usable(answer, units) then Ends(me, A.WithStatus(seen, id, A.Succeeded), d, 1, answer.proposals)
      else Ends(me, A.WithStatus(seen, id, A.Unknown), d, 1, None);
    var kept := BesideKeepsMade(me, before, sent, seen, id, attempt);
    OlderRevocations(me, before, seen, id, kept);
    if !A.In(seen, id, A.Dispatched) {
      end := BesideKeepsMade(me, before, seen, d.db, id, kept);
    } else {
      var to := if Usable(answer, units) then A.Succeeded else A.Unknown;
      MarkKeepsMade(me, before, seen, id, kept, to);
      end := BesideKeepsMade(me, before, A.WithStatus(seen, id, to), d.db, id, kept.(status := to));
    }
  }

  /** Whatever the others do: at most one provider call, only for a healthy route, an admitted egress,
      a key nobody had taken and a profile not yet revoked; every attempt made is settled, failed
      without a call, succeeded exactly when there is a receipt, and unknown otherwise.  Without a call
      there was a reason. */
  lemma DispatchSettles(me: nat, before: A.Db, key: A.Key, profile: A.Profile, answer: Answer, units: seq<A.UnitId>,
                        d: Effect)
    requires A.KeysDistinct(before) && Dispatches(me, before, key, profile, answer, units, d)
    ensures Grown(me, before, d.db) && OnlyAttempts(me, before, d.db, key)
    ensures d.calls <= 1 && (d.calls == 1 ==> answer.healthy && answer.egressOk)
    ensures d.calls == 1 ==> !A.Taken(before, key) && profile !in before.revoked
    ensures d.calls == 0 ==> !answer.healthy || !answer.egressOk || profile in d.db.revoked || A.Taken(d.db, key)
    ensures forall id :: Made(me, before, d.db, id) ==> answer.healthy && d.db.attempts[id].status == Outcome(d)
    ensures d.calls == 1 ==> exists id :: Made(me, before, d.db, id)
    ensures d.proposals.Some? <==> exists id :: NewSuccess(me, before, d.db, id)
    ensures d.proposals.Some? ==> d.calls == 1 && Admitted(d.proposals.value, units) && d.proposals == answer.proposals
  {
    hide Held, Admitted, Beside, OneMade, NewSuccess, Made, A.Taken;
    var seen :| Beside(me, before, seen) && FromReserve(me, seen, key, profile, answer, units, d);
    if !answer.healthy || A.Taken(seen, key) {
      BesideTransitive(me, before, seen, d.db);
      NothingMade(me, before, d.db, key);
      BesideEvolves(me, seen, d.db);
      if A.Taken(seen, key) {
        TakenStays(seen, d.db, key);
      }
    } else {
      var id: A.AttemptId :| id.owner == me && id !in seen.attempts
                             && Held(me, Reserved(seen, key, profile, id), id, profile, answer, units, d);
      if A.Taken(before, key) {
        assert A.Evolves(before, seen) by { BesideEvolves(me, before, seen); }
        TakenStays(before, seen, key);
        assert false;
      }
      ReserveMakes(me, before, seen, key, profile, id);
      var end := HeldSettles(me, before, Reserved(seen, key, profile, id), id, A.Attempt(key, profile, A.Reserved),
                             answer, units, d);
      OneMadeMeans(me, before, d.db, id, end);
      assert Made(me, before, d.db, id);
    }
  }

  lemma BesideEvolves(me: nat, a: A.Db, b: A.Db)
    requires Beside(me, a, b)
    ensures A.Evolves(a, b)
  {
  }

  lemma NothingMade(me: nat, before: A.Db, db: A.Db, key: A.Key)
    requires A.KeysDistinct(before) && Beside(me, before, db)
    ensures Grown(me, before, db) && OnlyAttempts(me, before, db, key) && A.Evolves(before, db)
    ensures forall id :: !Made(me, before, db, id) && !NewSuccess(me, before, db, id)
  {
    forall id: A.AttemptId | id.owner == me ensures id in db.attempts <==> id in before.attempts {
      assert OwnStays(before, db, id);
    }
  }

  lemma OneMadeMeans(me: nat, before: A.Db, db: A.Db, id: A.AttemptId, end: A.Attempt)
    requires OneMade(me, before, db, id, end) && A.Rank(end.status) == 2
    ensures Grown(me, before, db) && OnlyAttempts(me, before, db, end.key)
    ensures forall other :: Made(me, before, db, other) <==> other == id
    ensures db.attempts[id] == end
    ensures end.status == A.Succeeded <==> exists other :: NewSuccess(me, before, db, other)
  {
    if end.status == A.Succeeded {
      assert NewSuccess(me, before, db, id);
    }
  }

  lemma TakenStays(a: A.Db, b: A.Db, key: A.Key)
    requires A.Evolves(a, b) && A.Taken(a, key)
    ensures A.Taken(b, key)
  {
    var id :| id in a.attempts && a.attempts[id].key == key;
    assert A.Successor(a.attempts[id], b.attempts[id]);
  }

  // ---------------------------------------------------------------- the store and the dispatcher

  function ProposalsOf(receipt: Option<Receipt>): Option<seq<A.UnitId>> {
    if receipt.Some? then Some(receipt.value.proposals) else None
  }

  /** One process's connection.  `others` says what other processes commit before its next statement. */
  class AttemptStore {
    const me: nat
    const others: nat -> seq<Txn>
    var db: A.Db
    var minted: nat
    var tick: nat

    /** The table's UNIQUE constraint holds, and the process's names are fresh. */
    ghost predicate Valid()
      reads this
    {
      A.KeysDistinct(db) && forall id :: id in db.attempts && id.owner == me ==> id.token < minted
    }

    /** Opening recovers stranded dispatches. */
    constructor (file: A.Db, me: nat, minted: nat, others: nat -> seq<Txn>)
      requires A.KeysDistinct(file) && forall id :: id in file.attempts && id.owner == me ==> id.token < minted
      ensures Valid() && db == A.Recovered(file) && this.me == me
    {
      this.me, this.others, this.minted := me, others, minted;
      db, tick := A.Recovered(file), 0;
    }

    /** The other processes commit. */
    method LetOthers()
      requires Valid()
      modifies this
      ensures Valid() && minted == old(minted) && Beside(me, old(db), db)
    {
      var txns := others(tick);
      tick := tick + 1;
      BesideNothing(me, db);
      for i := 0 to |txns|
        invariant Valid() && minted == old(minted) && Beside(me, old(db), db)
      {
        hide A.Evolves, Commit;
        CommitBeside(me, db, txns[i]);
        BesideTransitive(me, old(db), db, Commit(me, db, txns[i]));
        OwnNamesStay(me, db, Commit(me, db, txns[i]));
        hide Beside;
        db := Commit(me, db, txns[i]);
      }
    }

    method Reserve(key: A.Key, profile: A.Profile) returns (id: Option<A.AttemptId>, ghost seen: A.Db)
      requires Valid()
      modifies this
      ensures Valid() && Beside(me, old(db), seen)
      ensures if A.Taken(seen, key) then id == None && db == seen
              else id.Some? && id.value.owner == me && id.value !in seen.attempts
                   && A.Reserve(seen, key, profile, id.value) == Some(db)
    {
      hide Beside;
      LetOthers();
      seen := db;
      if A.Taken(db, key) {
        return None, seen;
      }
      var token := A.AttemptId(me, minted);
      db := db.(attempts := db.attempts[token := A.Attempt(key, profile, A.Reserved)]);
      minted := minted + 1;
      id := Some(token);
    }

    method MarkDispatched(id: A.AttemptId, profile: A.Profile) returns (ok: bool, ghost seen: A.Db)
      requires Valid()
      modifies this
      ensures Valid() && Beside(me, old(db), seen) && ok == A.MarkDispatched(seen, id, profile).Some?
      ensures db == A.Orelse(A.MarkDispatched(seen, id, profile), seen)
    {
      hide Beside;
      LetOthers();
      seen := db;
      if profile in db.revoked {
        return false, seen;
      }
      ok := id in db.attempts && db.attempts[id].profile == profile && db.attempts[id].status == A.Reserved;
      if ok {
        db := db.(attempts := db.attempts[id := db.attempts[id].(status := A.Dispatched)]);
      }
    }

    /** The terminal, unknown and rejected marks are one guarded UPDATE each. */
    method Transition(id: A.AttemptId, from: A.Status, to: A.Status) returns (ok: bool, ghost seen: A.Db)
      requires Valid()
      modifies this
      ensures Valid() && Beside(me, old(db), seen) && ok == A.Moved(seen, id, from, to).Some?
      ensures db == A.Orelse(A.Moved(seen, id, from, to), seen)
    {
      hide Beside;
      LetOthers();
      seen := db;
      ok := id in db.attempts && db.attempts[id].status == from;
      if ok {
        db := db.(attempts := db.attempts[id := db.attempts[id].(status := to)]);
      }
    }
  }

  lemma OwnNamesStay(me: nat, a: A.Db, b: A.Db)
    requires Beside(me, a, b)
    ensures forall id: A.AttemptId :: id.owner == me ==> (id in a.attempts <==> id in b.attempts)
    ensures A.KeysDistinct(a) ==> A.KeysDistinct(b)
  {
    forall id: A.AttemptId | id.owner == me ensures id in a.attempts <==> id in b.attempts {
      assert OwnStays(a, b, id);
    }
  }

  class Dispatcher {
    const store: AttemptStore
    const profile: A.Profile
    var calls: nat

    constructor (store: AttemptStore, profile: A.Profile)
      ensures this.store == store && this.profile == profile && calls == 0
    {
      this.store, this.profile, calls := store, profile, 0;
    }

    /** `dispatch`: every branch after the reservation settles the attempt. */
    method Dispatch(key: A.Key, answer: Answer, units: seq<A.UnitId>) returns (receipt: Option<Receipt>)
      requires store.Valid()
      modifies this, store
      ensures store.Valid() && old(calls) <= calls <= old(calls) + 1
      ensures Dispatches(store.me, old(store.db), key, profile, answer, units,
                         Effect(store.db, calls - old(calls), ProposalsOf(receipt)))
      ensures receipt.Some? ==> (receipt.value.reading, receipt.value.unit) == (key.reading, key.unit)
    {
      hide Beside, A.Taken, A.KeysDistinct;
      receipt := None;
      ghost var before := store.db;
      BesideNothing(store.me, before);
      if !answer.healthy {
        assert FromReserve(store.me, before, key, profile, answer, units, Effect(before, 0, None));
        assert Dispatches(store.me, before, key, profile, answer, units, Effect(before, 0, None));
        return;
      }
      var reserved, seen := store.Reserve(key, profile);
      BesideNothing(store.me, store.db);
      if reserved.None? {
        assert FromReserve(store.me, seen, key, profile, answer, units, Effect(store.db, 0, None));
        assert Dispatches(store.me, before, key, profile, answer, units, Effect(store.db, 0, None));
        return;
      }
      receipt := CallHeld(key, reserved.value, answer, units);
    }

    /** With the reservation in hand. */
    method CallHeld(key: A.Key, id: A.AttemptId, answer: Answer, units: seq<A.UnitId>)
      returns (receipt: Option<Receipt>)
      requires store.Valid() && id in store.db.attempts && store.db.attempts[id] == A.Attempt(key, profile, A.Reserved)
      requires id.owner == store.me
      modifies this, store
      ensures store.Valid() && old(calls) <= calls <= old(calls) + 1
      ensures Held(store.me, old(store.db), id, profile, answer, units,
                   Effect(store.db, calls - old(calls), ProposalsOf(receipt)))
      ensures receipt.Some? ==> (receipt.value.reading, receipt.value.unit) == (key.reading, key.unit)
    {
      hide Beside, A.KeysDistinct, Admitted, Called, Rejected;
      receipt := None;
      ghost var held := store.db;
      if !answer.egressOk {
        BesideNothing(store.me, held);
        RejectHeld(id);
        assert Held(store.me, held, id, profile, answer, units, Effect(store.db, 0, None));
        return;
      }
      var ok, seen := store.MarkDispatched(id, profile);
      OwnKept(store.me, held, seen, id);
      if !ok {
        RejectHeld(id);
        assert Held(store.me, held, id, profile, answer, units, Effect(store.db, 0, None));
        return;
      }
      assert store.db == A.WithStatus(seen, id, A.Dispatched);
      calls := calls + 1;
      receipt := SettleCall(key, id, answer, units);
    }

    method RejectHeld(id: A.AttemptId)
      requires store.Valid() && id in store.db.attempts && store.db.attempts[id].status == A.Reserved
      requires id.owner == store.me
      modifies store
      ensures store.Valid() && Rejected(store.me, old(store.db), id, Effect(store.db, 0, None))
    {
      hide Beside, A.KeysDistinct;
      var moved, seen := store.Transition(id, A.Reserved, A.Failed);
      OwnKept(store.me, old(store.db), seen, id);
      BesideNothing(store.me, store.db);
    }

    /** After the call: succeeded if the answer is usable and no restart came between, else unknown. */
    method SettleCall(key: A.Key, id: A.AttemptId, answer: Answer, units: seq<A.UnitId>)
      returns (receipt: Option<Receipt>)
      requires store.Valid() && id in store.db.attempts && store.db.attempts[id].status == A.Dispatched
      requires id.owner == store.me
      modifies store
      ensures store.Valid()
      ensures Called(store.me, old(store.db), id, answer, units, Effect(store.db, 1, ProposalsOf(receipt)))
      ensures receipt.Some? ==> (receipt.value.reading, receipt.value.unit) == (key.reading, key.unit)
    {
      hide Beside, A.KeysDistinct, Admitted;
      ghost var sent := store.db;
      if Usable(answer, units) {
        var moved, seen := store.Transition(id, A.Dispatched, A.Succeeded);
        OwnKept(store.me, sent, seen, id);
        BesideNothing(store.me, store.db);
        if moved {
          assert Called(store.me, sent, id, answer, units, Effect(store.db, 1, answer.proposals));
          return Some(Receipt(key.reading, key.unit, answer.proposals.value));
        }
        var again, found := store.Transition(id, A.Dispatched, A.Unknown);
        OwnKept(store.me, seen, found, id);
        assert Called(store.me, sent, id, answer, units, Effect(store.db, 1, None));
        return None;
      }
      var moved, seen := store.Transition(id, A.Dispatched, A.Unknown);
      OwnKept(store.me, sent, seen, id);
      BesideNothing(store.me, store.db);
      assert Called(store.me, sent, id, answer, units, Effect(store.db, 1, None));
      receipt := None;
    }
  }

  lemma OwnKept(me: nat, a: A.Db, b: A.Db, id: A.AttemptId)
    requires Beside(me, a, b) && id.owner == me && id in a.attempts
    ensures id in b.attempts && b.attempts[id].profile == a.attempts[id].profile
    ensures b.attempts[id].status == a.attempts[id].status
         || (a.attempts[id].status == A.Dispatched && b.attempts[id].status == A.Unknown)
  {
    assert OwnStays(a, b, id);
  }
}
