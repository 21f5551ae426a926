/** The durable request ledger of `agent/charter_requests.py`.

    A `Db` value is one committed state of the SQLite file.  Each `BEGIN IMMEDIATE` block is a
    function from `Db` to `Db`; the class below performs the same work statement by statement,
    including the rollbacks, and is proved equal to those functions. */
module RequestStore {
  import opened Basics

  datatype RequestId = RequestId(text: string)
  datatype RunId = RunId(text: string)
  datatype Nonce = Nonce(text: string)

  datatype Verb = GET | POST

  datatype RequestSpec = RequestSpec(requestId: RequestId, runId: RunId, verb: Verb, expiresAt: real)

  datatype Decision = Approve | Reject | Revoke

  datatype Approval = Approval(nonce: Nonce, decision: Decision)

  /** `Observed` is the historical state that is only ever refused, never written. */
  datatype RequestState = Prepared | Dispatched | Unknown | Terminal | Observed

  /** The stored spec digest is modelled by the spec itself: digests are injective. */
  datatype Row = Row(run: RunId, verb: Verb, state: RequestState, ts: real,
                     spec: RequestSpec, receipt: Option<Digest>)

  /** One row of the append-only `events` table, of which only membership is ever read. */
  datatype Event = Event(id: RequestId, state: RequestState)

  datatype Db = Db(requests: map<RequestId, Row>, decisions: map<Nonce, (RequestId, Decision)>,
                   revocations: map<RequestId, Nonce>, events: set<Event>)

  const WINDOW_SECONDS: real := 60.0
  const WINDOW_QUOTA: nat := 5

  const EMPTY_DB: Db := Db(map[], map[], map[], {})

  // ---------------------------------------------------------------- transactions as functions

  predicate InState(db: Db, id: RequestId, state: RequestState) {
    id in db.requests && db.requests[id].state == state
  }

  /** What every opener commits: a reservation nobody dispatched is terminal, a dispatch whose
      outcome nobody recorded is unknown. */
  function Recovered(db: Db): Db {
    db.(requests := map id | id in db.requests :: RecoveredRow(db.requests[id]),
        events := db.events + Stranded(db, Prepared, Terminal) + Stranded(db, Dispatched, Unknown))
  }

  /** The log entries `to` for every row left in state `from`. */
  function Stranded(db: Db, from: RequestState, to: RequestState): set<Event> {
    set id | id in db.requests && db.requests[id].state == from :: Event(id, to)
  }

  function RecoveredRow(row: Row): Row {
    match row.state
    case Prepared => row.(state := Terminal)
    case Dispatched => row.(state := Unknown)
    case _ => row
  }

  predicate Allowed(from: RequestState, to: RequestState) {
    || (from == Prepared && (to == Dispatched || to == Terminal))
    || (from == Dispatched && (to == Unknown || to == Terminal))
  }

  predicate CanMove(db: Db, id: RequestId, to: RequestState) {
    id in db.requests && Allowed(db.requests[id].state, to)
  }

  /** `UPDATE requests SET state=? WHERE id=?`, which has no guard on the old state. */
  function Overwritten(db: Db, id: RequestId, to: RequestState): Db {
    if id in db.requests then db.(requests := db.requests[id := db.requests[id].(state := to)]) else db
  }

  function Logged(db: Db, id: RequestId, to: RequestState): Db {
    db.(events := db.events + {Event(id, to)})
  }

  function Moved(db: Db, id: RequestId, to: RequestState): Db {
    Logged(Overwritten(db, id, to), id, to)
  }

  datatype PrepareOutcome =
    | Reserved
    | RevocationRecorded
    | RejectionRecorded
    | InvalidEnvelope
    | ApprovalReplay
    | RefusedRevoked
    | RequestExpired
    | RequestReplay
    | WindowExhausted
    | PostExhausted

  /** The outcomes that commit the approval nonce. */
  predicate Durable(o: PrepareOutcome) {
    o.Reserved? || o.RevocationRecorded? || o.RejectionRecorded?
  }

  function Recent(db: Db, now: real): set<RequestId> {
    set id | id in db.requests && db.requests[id].ts > now - WINDOW_SECONDS
  }

  predicate PostTaken(db: Db, run: RunId) {
    exists id :: id in db.requests && db.requests[id].run == run && db.requests[id].verb == POST
  }

  function NewRow(spec: RequestSpec, now: real): Row {
    Row(spec.runId, spec.verb, Prepared, now, spec, None)
  }

  function Authorized(db: Db, spec: RequestSpec, approval: Approval, verified: bool, now: real): (Db, PrepareOutcome) {
    var id := spec.requestId;
    var consumed := db.(decisions := db.decisions[approval.nonce := (id, approval.decision)]);
    if !verified then (db, InvalidEnvelope)
    else if approval.nonce in db.decisions then (db, ApprovalReplay)
    else if approval.decision == Revoke then
      (if id in db.revocations then consumed
       else consumed.(revocations := db.revocations[id := approval.nonce]), RevocationRecorded)
    else if approval.decision == Reject then (consumed, RejectionRecorded)
    else if id in db.revocations then (db, RefusedRevoked)
    else if spec.expiresAt <= now then (db, RequestExpired)
    else if id in db.requests then (db, RequestReplay)
    else if |Recent(db, now)| >= WINDOW_QUOTA then (db, WindowExhausted)
    else if spec.verb == POST && PostTaken(db, spec.runId) then (db, PostExhausted)
    else (consumed.(requests := db.requests[id := NewRow(spec, now)],
                    events := db.events + {Event(id, Prepared)}), Reserved)
  }

  datatype DispatchOutcome = DispatchCommitted | DispatchRevoked | IllegalTransition

  function DispatchedUnlessRevoked(db: Db, id: RequestId): (Db, DispatchOutcome) {
    if id in db.revocations then
      if CanMove(db, id, Terminal) then (Moved(db, id, Terminal), DispatchRevoked) else (db, IllegalTransition)
    else
      if CanMove(db, id, Dispatched) then (Moved(db, id, Dispatched), DispatchCommitted) else (db, IllegalTransition)
  }

  /** `_terminalize_from`: one guarded transaction that stores the receipt digest. */
  function TerminalizedFrom(db: Db, id: RequestId, receipt: Digest, expected: RequestState): Option<Db> {
    if InState(db, id, expected) then
      Some(Logged(db.(requests := db.requests[id := db.requests[id].(state := Terminal, receipt := Some(receipt))]),
                  id, Terminal))
    else None
  }

  /** Everything an executor, an opener or an auditor ever commits.  `Overwrite` and `Log` are the
      two autocommit statements of an unprotected settlement; `Move` is the protected one. */
  datatype Txn =
    | NoTxn
    | Recover
    | Reserve(spec: RequestSpec, approval: Approval, verified: bool, now: real)
    | DispatchTxn(id: RequestId)
    | Terminalize(id: RequestId, receipt: Digest, expected: RequestState)
    | Overwrite(id: RequestId, to: RequestState)
    | Log(id: RequestId, to: RequestState)
    | Move(id: RequestId, to: RequestState)

  function Commit(db: Db, txn: Txn): Db {
    match txn
    case NoTxn => db
    case Recover => Recovered(db)
    case Reserve(spec, approval, verified, now) => Authorized(db, spec, approval, verified, now).0
    case DispatchTxn(id) => DispatchedUnlessRevoked(db, id).0
    case Terminalize(id, receipt, expected) =>
      if InState(db, id, expected) then TerminalizedFrom(db, id, receipt, expected).value else db
    case Overwrite(id, to) => Overwritten(db, id, to)
    case Log(id, to) => Logged(db, id, to)
    case Move(id, to) => if CanMove(db, id, to) then Moved(db, id, to) else db
  }

  // ---------------------------------------------------------------- what the transactions mean

  /** The approval nonce becomes durable exactly for the three committing outcomes; every other
      refusal leaves no trace in any table. */
  lemma NonceDurableExactly(db: Db, spec: RequestSpec, approval: Approval, verified: bool, now: real)
    ensures var (db', o) := Authorized(db, spec, approval, verified, now);
            && (approval.nonce !in db.decisions ==> (approval.nonce in db'.decisions <==> Durable(o)))
            && (!Durable(o) ==> db' == db)
            && (Durable(o) ==> approval.nonce !in db.decisions
                               && db'.decisions == db.decisions[approval.nonce := (spec.requestId, approval.decision)])
  {
  }

  /** A request becomes revoked by exactly one kind of authorization: a verified, new decision to
      revoke it; and no revocation is ever replaced. */
  lemma RevocationsExactly(db: Db, spec: RequestSpec, approval: Approval, verified: bool, now: real)
    ensures var (db', o) := Authorized(db, spec, approval, verified, now);
            && (o == RevocationRecorded <==> verified && approval.nonce !in db.decisions && approval.decision == Revoke)
            && (o == RejectionRecorded <==> verified && approval.nonce !in db.decisions && approval.decision == Reject)
            && (forall r :: r in db'.revocations <==>
                  r in db.revocations || (o == RevocationRecorded && r == spec.requestId))
            && (forall r :: r in db.revocations ==> db'.revocations[r] == db.revocations[r])
            && (o == RevocationRecorded && spec.requestId !in db.revocations ==>
                  db'.revocations[spec.requestId] == approval.nonce)
  {
  }

  /** Everything a reservation needs. */
  predicate Reservable(db: Db, spec: RequestSpec, approval: Approval, verified: bool, now: real) {
    && verified && approval.decision == Approve && approval.nonce !in db.decisions
    && spec.requestId !in db.revocations && spec.requestId !in db.requests && now < spec.expiresAt
    && |Recent(db, now)| < WINDOW_QUOTA
    && forall other :: other in db.requests && spec.verb == POST == db.requests[other].verb ==>
         db.requests[other].run != spec.runId
  }

  /** A request is reserved exactly when everything allows it, and its row records the request as it
      was approved and when; the refusals say truthfully what was missing. */
  lemma ReservedExactly(db: Db, spec: RequestSpec, approval: Approval, verified: bool, now: real)
    ensures var (db', o) := Authorized(db, spec, approval, verified, now);
            var id := spec.requestId;
            var asked := verified && approval.nonce !in db.decisions && approval.decision == Approve;
            var live := asked && id !in db.revocations && now < spec.expiresAt;
            && (o == Reserved <==> Reservable(db, spec, approval, verified, now))
            && (o == Reserved ==> id in db'.requests && Event(id, Prepared) in db'.events
                                  && db'.requests[id] == Row(spec.runId, spec.verb, Prepared, now, spec, None))
            && (o == InvalidEnvelope <==> !verified)
            && (o == ApprovalReplay <==> verified && approval.nonce in db.decisions)
            && (o == RefusedRevoked <==> asked && id in db.revocations)
            && (o == RequestExpired <==> asked && id !in db.revocations && spec.expiresAt <= now)
            && (o == RequestReplay <==> live && id in db.requests)
            && (o == WindowExhausted <==> live && id !in db.requests && |Recent(db, now)| >= WINDOW_QUOTA)
            && (o == PostExhausted <==>
                  && live && id !in db.requests && |Recent(db, now)| < WINDOW_QUOTA
                  && exists other :: other in db.requests && db.requests[other].run == spec.runId
                                     && spec.verb == POST == db.requests[other].verb)
  {
  }

  /** `dispatched` is reached only from `prepared`, and never for a revoked request; a revoked one in
      flight ends there and then. */
  lemma DispatchOnlyFromPrepared(db: Db, id: RequestId)
    ensures var (db', o) := DispatchedUnlessRevoked(db, id);
            && (o == DispatchCommitted <==> InState(db, id, Prepared) && id !in db.revocations)
            && (o == DispatchCommitted ==> InState(db', id, Dispatched) && Event(id, Dispatched) in db'.events)
            && (o == DispatchRevoked <==>
                  id in db.revocations && (InState(db, id, Prepared) || InState(db, id, Dispatched)))
            && (o == DispatchRevoked ==> InState(db', id, Terminal) && Event(id, Terminal) in db'.events)
            && (o == IllegalTransition ==> db' == db)
            && db'.revocations == db.revocations && db'.decisions == db.decisions
            && (forall other :: other in db.requests && other != id ==>
                  other in db'.requests && db'.requests[other] == db.requests[other])
  {
  }

  predicate SameRow(db: Db, db': Db, id: RequestId) {
    && (id in db.requests <==> id in db'.requests)
    && (id in db.requests ==> db.requests[id] == db'.requests[id])
    && (Event(id, Dispatched) in db.events <==> Event(id, Dispatched) in db'.events)
  }

  /** The transaction from `db` to `db'` concerns at most the request `id`. */
  ghost predicate OnlyRow(db: Db, db': Db, id: RequestId) {
    forall other :: other != id ==> SameRow(db, db', other)
  }

  lemma AuthorizedTouchesOwnRow(db: Db, spec: RequestSpec, approval: Approval, verified: bool, now: real)
    ensures var (db', o) := Authorized(db, spec, approval, verified, now);
            && OnlyRow(db, db', spec.requestId)
            && (if o == Reserved then
                  spec.requestId !in db.requests && InState(db', spec.requestId, Prepared)
                  && var e := Event(spec.requestId, Dispatched); (e in db'.events <==> e in db.events)
                else SameRow(db, db', spec.requestId))
  {
  }

  /** Recovery leaves no row in flight, changes nothing else, and logs each row it moves. */
  lemma RecoverySettles(db: Db, id: RequestId)
    requires id in db.requests
    ensures var r := Recovered(db);
            && r.requests.Keys == db.requests.Keys && r.revocations == db.revocations && r.decisions == db.decisions
            && (InState(r, id, Terminal) <==> InState(db, id, Terminal) || InState(db, id, Prepared))
            && (InState(r, id, Unknown) <==> InState(db, id, Unknown) || InState(db, id, Dispatched))
            && (InState(r, id, Observed) <==> InState(db, id, Observed))
            && r.requests[id].state != Prepared && r.requests[id].state != Dispatched
            && r.requests[id] == db.requests[id].(state := r.requests[id].state)
            && (r.requests[id] != db.requests[id] ==> Event(id, r.requests[id].state) in r.events)
  {
    var row := db.requests[id];
    if row.state == Prepared {
      assert Event(id, Terminal) in Stranded(db, Prepared, Terminal);
    } else if row.state == Dispatched {
      assert Event(id, Unknown) in Stranded(db, Dispatched, Unknown);
    }
  }

  lemma RecoveryKeepsDispatchLog(db: Db, id: RequestId)
    ensures Event(id, Dispatched) in Recovered(db).events <==> Event(id, Dispatched) in db.events
  {
  }

  /** Rows keep the request they were made for. */
  predicate SameRequest(a: Row, b: Row) {
    (a.spec, a.run, a.verb, a.ts) == (b.spec, b.run, b.verb, b.ts)
  }

  lemma CommitKeepsRequest(db: Db, txn: Txn, id: RequestId)
    requires !txn.Reserve? && id in Commit(db, txn).requests
    ensures id in db.requests && SameRequest(db.requests[id], Commit(db, txn).requests[id])
  {
  }

  /** Apart from the unguarded UPDATE, a transaction leaves a row in its state or moves it one step
      forward and logs that: a reservation is dispatched or ends, a dispatch becomes unknown or ends,
      and an unknown row ends only by a settlement that brings its receipt.  No log entry is lost. */
  lemma CommitMovesForward(db: Db, txn: Txn, id: RequestId)
    requires !txn.Overwrite? && id in db.requests && id in Commit(db, txn).requests
    ensures var (from, to) := (db.requests[id].state, Commit(db, txn).requests[id].state);
            || from == to
            || (from == Prepared && (to == Dispatched || to == Terminal))
            || (from == Dispatched && (to == Unknown || to == Terminal))
            || (to == Terminal && txn.Terminalize? && txn.id == id && txn.expected == from
                && Commit(db, txn).requests[id].receipt == Some(txn.receipt))
    ensures var after := Commit(db, txn);
            && db.events <= after.events
            && (after.requests[id].state != db.requests[id].state ==>
                  Event(id, after.requests[id].state) in after.events)
  {
  }

  /** Only the guarded settlement stores a receipt, and it stores its own. */
  lemma CommitKeepsReceipt(db: Db, txn: Txn, id: RequestId, receipt: Digest)
    requires id in Commit(db, txn).requests && Commit(db, txn).requests[id].receipt == Some(receipt)
    ensures (id in db.requests && db.requests[id].receipt == Some(receipt))
         || (txn.Terminalize? && txn.id == id && txn.receipt == receipt)
  {
  }

  predicate Concerns(txn: Txn, id: RequestId) {
    match txn
    case NoTxn => true
    case Recover => false
    case Reserve(spec, _, _, _) => spec.requestId == id
    case _ => txn.id == id
  }

  lemma CommitLeavesOthers(db: Db, txn: Txn, id: RequestId, other: RequestId)
    requires Concerns(txn, id) && other != id
    ensures SameRow(db, Commit(db, txn), other)
  {
  }

  lemma CommitKeepsDecisions(db: Db, txn: Txn)
    requires !txn.Reserve?
    ensures Commit(db, txn).decisions == db.decisions
  {
  }

  /** Recovery, then an audit settlement, then a late unguarded UPDATE: a settled row is lost. */
  lemma LateUpdateLosesSettlement(db: Db, id: RequestId, source: Digest)
    requires InState(db, id, Dispatched)
    ensures var settled := Commit(Commit(db, Recover), Terminalize(id, source, Unknown));
            && InState(settled, id, Terminal) && settled.requests[id].receipt == Some(source)
            && InState(Commit(settled, Overwrite(id, Unknown)), id, Unknown)
  {
  }

  /** Nothing ever un-revokes a request. */
  lemma CommitKeepsRevocations(db: Db, txn: Txn, id: RequestId)
    requires id in db.revocations
    ensures id in Commit(db, txn).revocations
  {
  }

  /** A settlement never writes or logs `dispatched`. */
  predicate SettlesOnly(txn: Txn) {
    txn.Overwrite? || txn.Log? || txn.Move? ==> txn.to == Unknown || txn.to == Terminal
  }

  lemma CommitRespectsRevocation(db: Db, txn: Txn, id: RequestId)
    requires SettlesOnly(txn) && id in db.revocations && Event(id, Dispatched) !in db.events
    ensures Event(id, Dispatched) !in Commit(db, txn).events
  {
    RecoveryKeepsDispatchLog(db, id);
  }

  /** A terminal row changes only through the unguarded UPDATE. */
  lemma CommitKeepsTerminal(db: Db, txn: Txn, id: RequestId)
    requires InState(db, id, Terminal) && SettlesOnly(txn)
    ensures txn == Overwrite(id, Unknown) <==> !InState(Commit(db, txn), id, Terminal)
    ensures !txn.Overwrite? && (txn.Terminalize? ==> txn.expected != Terminal)
            ==> Commit(db, txn).requests[id] == db.requests[id]
  {
  }

  // ---------------------------------------------------------------- quotas

  function InWindow(db: Db, start: real): set<RequestId> {
    set id | id in db.requests && start <= db.requests[id].ts < start + WINDOW_SECONDS
  }

  ghost predicate WindowQuota(db: Db) {
    forall start: real :: |InWindow(db, start)| <= WINDOW_QUOTA
  }

  ghost predicate PostQuota(db: Db) {
    forall a, b :: a in db.requests && b in db.requests && a != b
                   && db.requests[a].verb == POST && db.requests[b].verb == POST
                   ==> db.requests[a].run != db.requests[b].run
  }

  /** The count has no upper time bound, so it also covers rows whose clock ran ahead: a new row
      keeps every half-open window at five, in whatever order the timestamps arrive. */
  lemma AuthorizeKeepsQuotas(db: Db, spec: RequestSpec, approval: Approval, verified: bool, now: real)
    requires WindowQuota(db) && PostQuota(db)
    ensures var db' := Authorized(db, spec, approval, verified, now).0;
            WindowQuota(db') && PostQuota(db')
  {
    var (db', o) := Authorized(db, spec, approval, verified, now);
    if o == Reserved {
      forall start: real
        ensures |InWindow(db', start)| <= WINDOW_QUOTA
      {
        NewRowKeepsWindow(db, spec, db', now, start);
      }
      forall a, b | a in db'.requests && b in db'.requests && a != b
                    && db'.requests[a].verb == POST && db'.requests[b].verb == POST
        ensures db'.requests[a].run != db'.requests[b].run
      {
        assert a != spec.requestId ==> a in db.requests;
        assert b != spec.requestId ==> b in db.requests;
      }
    } else {
      assert db'.requests == db.requests;
      forall start: real
        ensures |InWindow(db', start)| <= WINDOW_QUOTA
      {
        assert InWindow(db', start) == InWindow(db, start);
      }
    }
  }

  predicate SameStamp(db: Db, db': Db, id: RequestId) {
    && (id in db.requests <==> id in db'.requests)
    && (id in db.requests ==>
          && db.requests[id].ts == db'.requests[id].ts
          && db.requests[id].run == db'.requests[id].run
          && db.requests[id].verb == db'.requests[id].verb)
  }

  ghost predicate SameStamps(db: Db, db': Db) {
    forall id :: SameStamp(db, db', id)
  }

  lemma CommitKeepsStamp(db: Db, txn: Txn, id: RequestId)
    requires !txn.Reserve?
    ensures SameStamp(db, Commit(db, txn), id)
  {
  }

  lemma SameStampsKeepQuotas(db: Db, db': Db)
    requires SameStamps(db, db') && WindowQuota(db) && PostQuota(db)
    ensures WindowQuota(db') && PostQuota(db')
  {
    forall start: real ensures |InWindow(db', start)| <= WINDOW_QUOTA {
      forall id ensures id in InWindow(db', start) <==> id in InWindow(db, start) {
        assert SameStamp(db, db', id);
      }
      assert InWindow(db', start) == InWindow(db, start);
    }
    forall a, b | a in db'.requests && b in db'.requests && a != b
                  && db'.requests[a].verb == POST && db'.requests[b].verb == POST
      ensures db'.requests[a].run != db'.requests[b].run
    {
      assert SameStamp(db, db', a) && SameStamp(db, db', b);
    }
  }

  lemma {:induction false} CommitKeepsQuotas(db: Db, txn: Txn)
    requires WindowQuota(db) && PostQuota(db)
    ensures WindowQuota(Commit(db, txn)) && PostQuota(Commit(db, txn))
  {
    if txn.Reserve? {
      AuthorizeKeepsQuotas(db, txn.spec, txn.approval, txn.verified, txn.now);
    } else {
      forall id ensures SameStamp(db, Commit(db, txn), id) { CommitKeepsStamp(db, txn, id); }
      SameStampsKeepQuotas(db, Commit(db, txn));
    }
  }

  lemma NewRowKeepsWindow(db: Db, spec: RequestSpec, db': Db, now: real, start: real)
    requires |InWindow(db, start)| <= WINDOW_QUOTA && |Recent(db, now)| < WINDOW_QUOTA
    requires spec.requestId !in db.requests
    requires db'.requests == db.requests[spec.requestId := NewRow(spec, now)]
    ensures |InWindow(db', start)| <= WINDOW_QUOTA
  {
    if start <= now < start + WINDOW_SECONDS {
      assert InWindow(db', start) == InWindow(db, start) + {spec.requestId};
      assert InWindow(db, start) <= Recent(db, now);
      SubsetSize(InWindow(db, start), Recent(db, now));
    } else {
      assert InWindow(db', start) == InWindow(db, start);
    }
  }

  // ---------------------------------------------------------------- the unlogged unknown

  /** A row set to unknown whose log entry was never written. */
  predicate Unlogged(db: Db, id: RequestId) {
    InState(db, id, Unknown) && Event(id, Unknown) !in db.events
  }

  /** A crash between the two autocommit statements of `unknown()` leaves one, and reopening the
      store does not repair it. */
  lemma CrashLeavesUnlogged(db: Db, id: RequestId)
    requires InState(db, id, Dispatched) && Event(id, Unknown) !in db.events
    ensures Unlogged(Recovered(Overwritten(db, id, Unknown)), id)
  {
  }

  // ---------------------------------------------------------------- closed windows

  /** The rows of a closed sixty-second window. */
  function InClosedWindow(db: Db, start: real): set<RequestId> {
    set id | id in db.requests && start <= db.requests[id].ts <= start + WINDOW_SECONDS
  }

  function StampedAt(db: Db, ts: real): set<RequestId> {
    set id | id in db.requests && db.requests[id].ts == ts
  }

  /** A closed window holds at most ten rows, and more than five only with rows at both ends. */
  lemma ClosedWindowBounded(db: Db, start: real)
    requires WindowQuota(db)
    ensures |InClosedWindow(db, start)| <= 2 * WINDOW_QUOTA
    ensures |InClosedWindow(db, start)| > WINDOW_QUOTA ==>
              StampedAt(db, start) != {} && StampedAt(db, start + WINDOW_SECONDS) != {}
  {
    var (closed, end) := (InClosedWindow(db, start), StampedAt(db, start + WINDOW_SECONDS));
    assert closed == InWindow(db, start) + end;
    assert end <= InWindow(db, start + WINDOW_SECONDS);
    SubsetSize(end, InWindow(db, start + WINDOW_SECONDS));
    if StampedAt(db, start) == {} && closed != {} {
      var first := Earliest(db, closed);
      var ts := db.requests[first].ts;
      assert first !in StampedAt(db, start) && ts > start;
      SubsetSize(closed, InWindow(db, ts));
    }
  }

  lemma {:induction false} Earliest(db: Db, ids: set<RequestId>) returns (first: RequestId)
    requires ids != {} && ids <= db.requests.Keys
    ensures first in ids && forall id :: id in ids ==> db.requests[first].ts <= db.requests[id].ts
  {
    var id :| id in ids;
    first := id;
    if ids != {id} {
      var other := Earliest(db, ids - {id});
      if db.requests[other].ts < db.requests[id].ts {
        first := other;
      }
    }
  }

  // ---------------------------------------------------------------- the store object

  /** One opened connection.  The fields are the four tables. */
  class Store {
    var requests: map<RequestId, Row>
    var decisions: map<Nonce, (RequestId, Decision)>
    var revocations: map<RequestId, Nonce>
    var events: set<Event>

    function Snapshot(): Db
      reads this
    {
      Db(requests, decisions, revocations, events)
    }

    /** Opening an existing file: schema inspection and recovery are one transaction. */
    constructor Open(file: Db)
      ensures Snapshot() == Recovered(file)
    {
      var stranded := Stranded(file, Prepared, Terminal);
      var inFlight := Stranded(file, Dispatched, Unknown);
      requests := map id | id in file.requests ::
        if file.requests[id].state == Prepared then file.requests[id].(state := Terminal)
        else if file.requests[id].state == Dispatched then file.requests[id].(state := Unknown)
        else file.requests[id];
      decisions, revocations := file.decisions, file.revocations;
      events := file.events + stranded + inFlight;
      new;
      assert requests == Recovered(file).requests;
    }

    method Rollback(saved: Db)
      modifies this
      ensures Snapshot() == saved
    {
      requests, decisions, revocations, events := saved.requests, saved.decisions, saved.revocations, saved.events;
    }

    /** `_transition`: SELECT, unguarded UPDATE, INSERT.  Atomic only inside a transaction. */
    method Transition(id: RequestId, to: RequestState) returns (ok: bool)
      modifies this
      ensures ok == CanMove(old(Snapshot()), id, to)
      ensures Snapshot() == if ok then Moved(old(Snapshot()), id, to) else old(Snapshot())
    {
      if id !in requests || !Allowed(requests[id].state, to) {
        return false;
      }
      requests := requests[id := requests[id].(state := to)];
      events := events + {Event(id, to)};
      return true;
    }

    method AuthorizePrepare(spec: RequestSpec, approval: Approval, verified: bool, now: real)
      returns (outcome: PrepareOutcome)
      modifies this
      ensures (Snapshot(), outcome) == Authorized(old(Snapshot()), spec, approval, verified, now)
    {
      if !verified {
        return InvalidEnvelope;
      }
      var saved := Snapshot();
      var id := spec.requestId;
      if approval.nonce in decisions {
        return ApprovalReplay;
      }
      decisions := decisions[approval.nonce := (id, approval.decision)];
      if approval.decision == Revoke {
        if id !in revocations {
          revocations := revocations[id := approval.nonce];
        }
        return RevocationRecorded;
      }
      if approval.decision != Approve {
        return RejectionRecorded;
      }
      outcome := Reserved;
      if id in revocations {
        outcome := RefusedRevoked;
      } else if spec.expiresAt <= now {
        outcome := RequestExpired;
      } else if id in requests {
        outcome := RequestReplay;
      } else if |set i | i in requests && requests[i].ts > now - WINDOW_SECONDS| >= WINDOW_QUOTA {
        outcome := WindowExhausted;
      } else if spec.verb == POST
                && exists i :: i in requests && requests[i].run == spec.runId && requests[i].verb == POST {
        outcome := PostExhausted;
      }
      if outcome != Reserved {
        Rollback(saved);
        return;
      }
      requests := requests[id := Row(spec.runId, spec.verb, Prepared, now, spec, None)];
      events := events + {Event(id, Prepared)};
    }

    method DispatchIfNotRevoked(id: RequestId) returns (outcome: DispatchOutcome)
      modifies this
      ensures (Snapshot(), outcome) == DispatchedUnlessRevoked(old(Snapshot()), id)
    {
      if id in revocations {
        var settled := Transition(id, Terminal);
        return if settled then DispatchRevoked else IllegalTransition;
      }
      var moved := Transition(id, Dispatched);
      return if moved then DispatchCommitted else IllegalTransition;
    }

    method TerminalizeFrom(id: RequestId, receipt: Digest, expected: RequestState) returns (ok: bool)
      modifies this
      ensures var after := TerminalizedFrom(old(Snapshot()), id, receipt, expected);
              ok == after.Some? && Snapshot() == (if ok then after.value else old(Snapshot()))
    {
      if id !in requests || requests[id].state != expected {
        return false;
      }
      requests := requests[id := requests[id].(state := Terminal, receipt := Some(receipt))];
      events := events + {Event(id, Terminal)};
      return true;
    }
  }
}
