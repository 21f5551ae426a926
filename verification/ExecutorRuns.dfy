/** Every interleaving of any number of executors, openers, crashes and audit settlements over
    one request store.  `BEGIN IMMEDIATE` blocks are single steps; the three autocommit statements
    behind `unknown()` and `terminalize_pre_target_failure()` are three separate steps, so other
    processes may run between them.  `SettleAtomic` is the same settlement as one transaction. */
module ExecutorRuns {
  import opened Basics
  import opened RequestStore

  /** Where a process stands inside `execute`. */
  datatype Pc =
    | Ready
    | Reserving
    | Dispatching
    | Minted
    | Answered(receipt: Digest)
    | Settling(to: RequestState)
    | SettleChecked(to: RequestState)
    | SettleWritten(to: RequestState)
    | Done

  datatype Proc = Proc(spec: RequestSpec, approval: Approval, pc: Pc)

  type Pid = nat

  datatype Outcome = Outcome(nonce: Nonce, outcome: PrepareOutcome)

  /** `mints` and `sends` count the calls of `transport.mint` and `transport.request`; `outcomes`
      records what each consumption of an approval reported. */
  datatype System = System(db: Db, procs: map<Pid, Proc>, mints: multiset<RequestId>,
                           sends: multiset<RequestId>, outcomes: multiset<Outcome>)

  /** The next thing one process may do.  An action that does not fit its place does nothing. */
  datatype Action =
    | Authorize(verified: bool, now: real)
    | Dispatch
    | Mint(minted: bool)
    | Request(reply: Option<Digest>)
    | RecordResponse
    | SettleSelect
    | SettleUpdate
    | SettleInsert
    | SettleAtomic
    | Crash

  datatype Step =
    | Open
    | AuditSettle(id: RequestId, source: Digest)
    | Spawn(pid: Pid, spec: RequestSpec, approval: Approval)
    | Act(pid: Pid, action: Action)

  /** The transaction or autocommit statement a process issues. */
  function TxnOf(p: Proc, action: Action): Txn {
    var id := p.spec.requestId;
    match (action, p.pc)
    case (Authorize(verified, now), Ready) => Reserve(p.spec, p.approval, verified, now)
    case (Dispatch, Reserving) => DispatchTxn(id)
    case (RecordResponse, Answered(receipt)) => Terminalize(id, receipt, Dispatched)
    case (SettleUpdate, SettleChecked(to)) => Overwrite(id, to)
    case (SettleInsert, SettleWritten(to)) => Log(id, to)
    case (SettleAtomic, Settling(to)) => Move(id, to)
    case _ => NoTxn
  }

  /** Where the process goes next, given the database it reads. */
  function NextPc(db: Db, p: Proc, action: Action): Pc {
    match (action, p.pc)
    case (Authorize(verified, now), Ready) =>
      if Authorized(db, p.spec, p.approval, verified, now).1 == Reserved then Reserving else Done
    case (Dispatch, Reserving) =>
      if DispatchedUnlessRevoked(db, p.spec.requestId).1 == DispatchCommitted then Dispatching else Done
    case (Mint(minted), Dispatching) => if minted then Minted else Settling(Terminal)
    case (Request(reply), Minted) => if reply.Some? then Answered(reply.value) else Settling(Unknown)
    case (RecordResponse, Answered(_)) => Done
    case (SettleSelect, Settling(to)) => if CanMove(db, p.spec.requestId, to) then SettleChecked(to) else Done
    case (SettleUpdate, SettleChecked(to)) => SettleWritten(to)
    case (SettleInsert, SettleWritten(_)) => Done
    case (SettleAtomic, Settling(_)) => Done
    case (Crash, _) => Done
    case _ => p.pc
  }

  function MintsBy(p: Proc, action: Action): nat {
    if action.Mint? && p.pc == Dispatching then 1 else 0
  }

  function SendsBy(p: Proc, action: Action): nat {
    if action.Request? && p.pc == Minted then 1 else 0
  }

  function Tally(counts: multiset<RequestId>, id: RequestId, n: nat): multiset<RequestId> {
    counts[id := counts[id] + n]
  }

  function Acted(s: System, pid: Pid, action: Action): System
    requires pid in s.procs
  {
    var p := s.procs[pid];
    var id := p.spec.requestId;
    System(Commit(s.db, TxnOf(p, action)),
           s.procs[pid := p.(pc := NextPc(s.db, p, action))],
           Tally(s.mints, id, MintsBy(p, action)),
           Tally(s.sends, id, SendsBy(p, action)),
           if action.Authorize? && p.pc.Ready? then
             s.outcomes + multiset{Outcome(p.approval.nonce,
                                           Authorized(s.db, p.spec, p.approval, action.verified, action.now).1)}
           else s.outcomes)
  }

  function Apply(s: System, step: Step): System {
    match step
    case Open => s.(db := Commit(s.db, Recover))
    case AuditSettle(id, source) => s.(db := Commit(s.db, Terminalize(id, source, Unknown)))
    case Spawn(pid, spec, approval) =>
      if pid in s.procs then s
      else s.(procs := s.procs[pid := Proc(spec, approval,
                                           if InState(s.db, spec.requestId, Observed) then Done else Ready)])
    case Act(pid, action) => if pid in s.procs then Acted(s, pid, action) else s
  }

  function Run(s: System, steps: seq<Step>): System
    decreases |steps|
  {
    if steps == [] then s else Run(Apply(s, steps[0]), steps[1..])
  }

  const START: System := System(EMPTY_DB, map[], multiset{}, multiset{}, multiset{})

  /** The state before step `n` of a run from the empty store. */
  function StateAt(steps: seq<Step>, n: nat): System
    requires n <= |steps|
  {
    Run(START, steps[..n])
  }

  lemma StateStep(steps: seq<Step>, n: nat)
    requires n < |steps|
    ensures StateAt(steps, n + 1) == Apply(StateAt(steps, n), steps[n])
  {
    assert steps[..n + 1] == steps[..n] + [steps[n]];
    RunSnoc(START, steps[..n], steps[n]);
  }

  // ---------------------------------------------------------------- the invariant

  /** A row whose request may have reached the target: in flight, unknown, or with evidence. */
  predicate Exposed(db: Db, id: RequestId) {
    id in db.requests &&
    var row := db.requests[id];
    row.state == Dispatched || row.state == Unknown || (row.state == Terminal && row.receipt.Some?)
  }

  predicate EverDispatched(db: Db, id: RequestId) {
    Event(id, Dispatched) in db.events
  }

  /** What holds of a request that was minted for `mints` times and sent `sends` times. */
  predicate IdOk(db: Db, id: RequestId, mints: nat, sends: nat) {
    && sends <= mints <= 1
    && (mints > 0 ==> EverDispatched(db, id))
    && (EverDispatched(db, id) ==> id in db.requests && db.requests[id].state != Prepared)
    && (InState(db, id, Dispatched) || InState(db, id, Unknown) ==> EverDispatched(db, id))
    && (sends > 0 ==> Exposed(db, id))
  }

  /** `unknown()` is called after the request was sent; the terminal settlement only before. */
  predicate SettleOk(db: Db, id: RequestId, to: RequestState, sends: nat) {
    && id in db.requests && db.requests[id].state != Prepared && EverDispatched(db, id)
    && (to == Unknown || (to == Terminal && sends == 0))
  }

  /** What holds of the process at `pc` that reserved request `id`. */
  predicate PcOk(db: Db, id: RequestId, pc: Pc, mints: nat, sends: nat) {
    match pc
    case Ready => true
    case Done => true
    case Reserving => id in db.requests && mints == 0 && sends == 0
    case Dispatching => Exposed(db, id) && EverDispatched(db, id) && mints == 0 && sends == 0
    case Minted => Exposed(db, id) && EverDispatched(db, id) && mints == 1 && sends == 0
    case Answered(_) => Exposed(db, id)
    case Settling(to) => SettleOk(db, id, to, sends)
    case SettleChecked(to) => SettleOk(db, id, to, sends)
    case SettleWritten(to) => SettleOk(db, id, to, sends)
  }

  predicate Unfinished(pc: Pc) {
    !pc.Ready? && !pc.Done?
  }

  /** A process that made the reservation of its request and has not finished. */
  predicate Owner(s: System, pid: Pid) {
    pid in s.procs && Unfinished(s.procs[pid].pc)
  }

  function IdOf(s: System, pid: Pid): RequestId
    requires pid in s.procs
  {
    s.procs[pid].spec.requestId
  }

  predicate ProcOk(s: System, pid: Pid) {
    pid in s.procs ==> PcOk(s.db, IdOf(s, pid), s.procs[pid].pc, s.mints[IdOf(s, pid)], s.sends[IdOf(s, pid)])
  }

  predicate RequestOk(s: System, id: RequestId) {
    IdOk(s.db, id, s.mints[id], s.sends[id])
  }

  ghost predicate Inv(s: System) {
    && (forall id :: RequestOk(s, id))
    && (forall pid :: ProcOk(s, pid))
    && (forall p, q :: Owner(s, p) && Owner(s, q) && IdOf(s, p) == IdOf(s, q) ==> p == q)
  }

  // ---------------------------------------------------------------- one step

  /** One action, seen from its own request alone: the counts stay bounded ... */
  lemma ActionKeepsOwnRequest(db: Db, p: Proc, action: Action, mints: nat, sends: nat)
    requires var id := p.spec.requestId; IdOk(db, id, mints, sends) && PcOk(db, id, p.pc, mints, sends)
    ensures IdOk(Commit(db, TxnOf(p, action)), p.spec.requestId,
                 mints + MintsBy(p, action), sends + SendsBy(p, action))
  {
    if action.Authorize? && p.pc.Ready? {
      AuthorizedTouchesOwnRow(db, p.spec, p.approval, action.verified, action.now);
    }
  }

  /** ... and the process knows where it stands. */
  lemma ActionKeepsOwnPc(db: Db, p: Proc, action: Action, mints: nat, sends: nat)
    requires var id := p.spec.requestId; IdOk(db, id, mints, sends) && PcOk(db, id, p.pc, mints, sends)
    ensures PcOk(Commit(db, TxnOf(p, action)), p.spec.requestId, NextPc(db, p, action),
                 mints + MintsBy(p, action), sends + SendsBy(p, action))
  {
    if action.Authorize? && p.pc.Ready? {
      AuthorizedTouchesOwnRow(db, p.spec, p.approval, action.verified, action.now);
    }
  }

  /** Only the owner of a row, or the process that creates it, acts on it. */
  lemma ActionBelongsToOwner(db: Db, p: Proc, action: Action)
    ensures var id := p.spec.requestId;
            || Unfinished(p.pc) || id !in db.requests
            || (SameRow(db, Commit(db, TxnOf(p, action)), id) && MintsBy(p, action) == 0
                && SendsBy(p, action) == 0 && !Unfinished(NextPc(db, p, action)))
  {
    if action.Authorize? && p.pc.Ready? {
      AuthorizedTouchesOwnRow(db, p.spec, p.approval, action.verified, action.now);
    }
  }

  lemma ActKeepsRequests(s: System, pid: Pid, action: Action, id: RequestId)
    requires Inv(s) && pid in s.procs
    ensures RequestOk(Acted(s, pid, action), id)
  {
    var p := s.procs[pid];
    assert RequestOk(s, id) && ProcOk(s, pid);
    if id == p.spec.requestId {
      ActionKeepsOwnRequest(s.db, p, action, s.mints[id], s.sends[id]);
    } else {
      CommitLeavesOthers(s.db, TxnOf(p, action), p.spec.requestId, id);
    }
  }

  lemma ActKeepsActor(s: System, pid: Pid, action: Action)
    requires Inv(s) && pid in s.procs
    ensures ProcOk(Acted(s, pid, action), pid)
  {
    var p := s.procs[pid];
    assert RequestOk(s, p.spec.requestId) && ProcOk(s, pid);
    ActionKeepsOwnPc(s.db, p, action, s.mints[p.spec.requestId], s.sends[p.spec.requestId]);
  }

  lemma ActKeepsOthers(s: System, pid: Pid, action: Action, q: Pid)
    requires Inv(s) && pid in s.procs && q != pid
    ensures ProcOk(Acted(s, pid, action), q)
  {
    assert ProcOk(s, q) && ProcOk(s, pid);
    var p := s.procs[pid];
    if q in s.procs && Owner(s, q) {
      ActionBelongsToOwner(s.db, p, action);
      if IdOf(s, q) != p.spec.requestId {
        CommitLeavesOthers(s.db, TxnOf(p, action), p.spec.requestId, IdOf(s, q));
      }
    }
  }

  lemma ActKeepsInv(s: System, pid: Pid, action: Action)
    requires Inv(s) && pid in s.procs
    ensures Inv(Acted(s, pid, action))
  {
    var s' := Acted(s, pid, action);
    forall id ensures RequestOk(s', id) { ActKeepsRequests(s, pid, action, id); }
    forall q ensures ProcOk(s', q) {
      if q == pid { ActKeepsActor(s, pid, action); } else { ActKeepsOthers(s, pid, action, q); }
    }
    ActionBelongsToOwner(s.db, s.procs[pid], action);
    forall p, q | Owner(s', p) && Owner(s', q) && IdOf(s', p) == IdOf(s', q) ensures p == q {
      assert ProcOk(s, p) && ProcOk(s, q);
    }
  }

  /** Recovery and audit settlement belong to no executor: they keep exposed what was exposed and
      never bring a row back to `prepared`. */
  predicate KeepsExposure(db: Db, db': Db, id: RequestId) {
    && (id in db.requests <==> id in db'.requests)
    && (Exposed(db, id) ==> Exposed(db', id))
    && (id in db.requests && db.requests[id].state != Prepared ==> db'.requests[id].state != Prepared)
    && (InState(db', id, Dispatched) ==> InState(db, id, Dispatched))
    && (InState(db', id, Unknown) ==> InState(db, id, Unknown) || InState(db, id, Dispatched))
    && (EverDispatched(db', id) <==> EverDispatched(db, id))
  }

  lemma OutsideTxnKeepsExposure(db: Db, txn: Txn, id: RequestId)
    requires txn == Recover || (txn.Terminalize? && txn.expected == Unknown)
    ensures KeepsExposure(db, Commit(db, txn), id)
  {
    RecoveryKeepsDispatchLog(db, id);
  }

  lemma OutsideKeepsInv(s: System, txn: Txn)
    requires Inv(s) && (txn == Recover || (txn.Terminalize? && txn.expected == Unknown))
    ensures Inv(s.(db := Commit(s.db, txn)))
  {
    var s' := s.(db := Commit(s.db, txn));
    forall id ensures RequestOk(s', id) {
      assert RequestOk(s, id);
      OutsideTxnKeepsExposure(s.db, txn, id);
    }
    forall pid ensures ProcOk(s', pid) {
      assert ProcOk(s, pid);
      if pid in s.procs { OutsideTxnKeepsExposure(s.db, txn, IdOf(s, pid)); }
    }
    assert forall p :: Owner(s', p) == Owner(s, p);
  }

  lemma StepKeepsInv(s: System, step: Step)
    requires Inv(s)
    ensures Inv(Apply(s, step))
  {
    match step
    case Open => OutsideKeepsInv(s, Recover);
    case AuditSettle(id, source) => OutsideKeepsInv(s, Terminalize(id, source, Unknown));
    case Act(pid, action) => if pid in s.procs { ActKeepsInv(s, pid, action); }
    case Spawn(pid, spec, approval) =>
      var s' := Apply(s, step);
      forall id ensures RequestOk(s', id) { assert RequestOk(s, id); }
      forall q ensures ProcOk(s', q) { assert ProcOk(s, q); }
      assert forall p :: Owner(s', p) ==> Owner(s, p) && IdOf(s', p) == IdOf(s, p);
  }

  // ---------------------------------------------------------------- at most once

  lemma {:induction false} RunKeepsInv(s: System, steps: seq<Step>)
    requires Inv(s)
    ensures Inv(Run(s, steps))
    decreases |steps|
  {
    if steps != [] {
      StepKeepsInv(s, steps[0]);
      RunKeepsInv(Apply(s, steps[0]), steps[1..]);
    }
  }

  lemma ReachableInv(steps: seq<Step>)
    ensures Inv(Run(START, steps))
  {
    assert forall id :: RequestOk(START, id);
    RunKeepsInv(START, steps);
  }

  /** At statement granularity, whatever crashes, reopens and settles in between: a request is
      sent at most once and only after its one mint, a prepared row was not even minted for, an
      unknown row was dispatched, and a row that is terminal without a receipt truthfully claims
      that nothing was sent. */
  lemma AtMostOnce(steps: seq<Step>, id: RequestId)
    ensures var s := Run(START, steps);
            && s.sends[id] <= s.mints[id] <= 1
            && (InState(s.db, id, Prepared) ==> s.mints[id] == 0)
            && (InState(s.db, id, Unknown) ==> EverDispatched(s.db, id))
            && (InState(s.db, id, Terminal) && s.db.requests[id].receipt == None ==> s.sends[id] == 0)
  {
    ReachableInv(steps);
    assert RequestOk(Run(START, steps), id);
  }

  // ---------------------------------------------------------------- revocation

  /** The settlements a process may issue never write `dispatched`. */
  lemma ProcSettlesOnly(s: System, pid: Pid, action: Action)
    requires Inv(s) && pid in s.procs
    ensures SettlesOnly(TxnOf(s.procs[pid], action))
  {
    assert ProcOk(s, pid);
  }

  lemma StepRespectsRevocation(s: System, step: Step, id: RequestId)
    requires Inv(s) && id in s.db.revocations && !EverDispatched(s.db, id)
    ensures id in Apply(s, step).db.revocations && !EverDispatched(Apply(s, step).db, id)
  {
    var txn := match step
      case Open => Recover
      case AuditSettle(i, source) => Terminalize(i, source, Unknown)
      case Spawn(_, _, _) => NoTxn
      case Act(pid, action) => if pid in s.procs then TxnOf(s.procs[pid], action) else NoTxn;
    if step.Act? && step.pid in s.procs {
      ProcSettlesOnly(s, step.pid, step.action);
    }
    CommitKeepsRevocations(s.db, txn, id);
    CommitRespectsRevocation(s.db, txn, id);
  }

  lemma {:induction false} RunRespectsRevocation(s: System, steps: seq<Step>, id: RequestId)
    requires Inv(s) && id in s.db.revocations && !EverDispatched(s.db, id)
    ensures !EverDispatched(Run(s, steps).db, id)
    decreases |steps|
  {
    if steps != [] {
      StepRespectsRevocation(s, steps[0], id);
      StepKeepsInv(s, steps[0]);
      RunRespectsRevocation(Apply(s, steps[0]), steps[1..], id);
    }
  }

  lemma StoredRevocationWins(before: seq<Step>, after: seq<Step>, id: RequestId)
    requires var db := Run(START, before).db; id in db.revocations && !EverDispatched(db, id)
    ensures var s' := Run(Run(START, before), after);
            !EverDispatched(s'.db, id) && !InState(s'.db, id, Dispatched) && s'.mints[id] == 0 && s'.sends[id] == 0
  {
    var s := Run(START, before);
    ReachableInv(before);
    RunKeepsInv(s, after);
    RunRespectsRevocation(s, after, id);
    assert RequestOk(Run(s, after), id);
  }

  /** The step consumes a verified approval nobody used before, with this decision on this request. */
  predicate Consumes(s: System, step: Step, decision: Decision, id: RequestId) {
    && step.Act? && step.pid in s.procs && step.action.Authorize? && s.procs[step.pid].pc.Ready?
    && IdOf(s, step.pid) == id && s.procs[step.pid].approval.decision == decision
    && step.action.verified && s.procs[step.pid].approval.nonce !in s.db.decisions
  }

  ghost predicate EverConsumed(steps: seq<Step>, n: nat, decision: Decision, id: RequestId)
    requires n <= |steps|
  {
    exists k :: 0 <= k < n && Consumes(StateAt(steps, k), steps[k], decision, id)
  }

  lemma StepRevokes(s: System, step: Step, id: RequestId)
    ensures id in Apply(s, step).db.revocations <==> id in s.db.revocations || Consumes(s, step, Revoke, id)
  {
    if step.Act? && step.pid in s.procs {
      var p := s.procs[step.pid];
      if step.action.Authorize? && p.pc.Ready? {
        RevocationsExactly(s.db, p.spec, p.approval, step.action.verified, step.action.now);
      } else {
        OnlyReservationsRevoke(s.db, TxnOf(p, step.action));
      }
    }
  }

  lemma OnlyReservationsRevoke(db: Db, txn: Txn)
    requires !txn.Reserve?
    ensures Commit(db, txn).revocations == db.revocations
  {
  }

  /** In every run a request is revoked exactly if some approval to revoke it was consumed. */
  lemma {:induction false} RevokedExactly(steps: seq<Step>, n: nat, id: RequestId)
    requires n <= |steps|
    ensures id in StateAt(steps, n).db.revocations <==> EverConsumed(steps, n, Revoke, id)
  {
    if n > 0 {
      hide StateAt, Consumes, Apply, EverConsumed;
      RevokedExactly(steps, n - 1, id);
      StateStep(steps, n - 1);
      StepRevokes(StateAt(steps, n - 1), steps[n - 1], id);
      OneMoreConsumed(steps, n, Revoke, id);
    } else {
      assert StateAt(steps, 0) == START;
    }
  }

  lemma OneMoreConsumed(steps: seq<Step>, n: nat, decision: Decision, id: RequestId)
    requires 0 < n <= |steps|
    ensures EverConsumed(steps, n, decision, id) <==>
              EverConsumed(steps, n - 1, decision, id)
              || Consumes(StateAt(steps, n - 1), steps[n - 1], decision, id)
  {
    hide StateAt, Consumes;
  }

  /** A revocation consumed before the dispatch transaction wins: at no later moment of the run is the
      request dispatched, and neither its OAuth mint nor its target call ever happens. */
  lemma RevocationWins(steps: seq<Step>, k: nat, n: nat, id: RequestId)
    requires k < n <= |steps| && Consumes(StateAt(steps, k), steps[k], Revoke, id)
    requires !EverDispatched(StateAt(steps, k).db, id)
    ensures var s := StateAt(steps, n);
            !EverDispatched(s.db, id) && !InState(s.db, id, Dispatched) && s.mints[id] == 0 && s.sends[id] == 0
  {
    var s := StateAt(steps, k);
    StateStep(steps, k);
    StepRevokes(s, steps[k], id);
    RevokingDispatchesNothing(s, steps[k], id);
    assert steps[..n] == steps[..k + 1] + steps[k + 1..n];
    RunConcat(START, steps[..k + 1], steps[k + 1..n]);
    StoredRevocationWins(steps[..k + 1], steps[k + 1..n], id);
    hide Run, Apply, Consumes, EverDispatched;
  }

  lemma RevokingDispatchesNothing(s: System, step: Step, id: RequestId)
    requires Consumes(s, step, Revoke, id) && !EverDispatched(s.db, id)
    ensures !EverDispatched(Apply(s, step).db, id)
  {
  }

  // ---------------------------------------------------------------- what was approved

  /** The step reserves this request by a consumed approval, before its expiry, and the row says so. */
  predicate ReservedBy(s: System, step: Step, id: RequestId, row: Row) {
    && Consumes(s, step, Approve, id)
    && var (spec, now) := (s.procs[step.pid].spec, step.action.now);
       && id !in s.db.revocations && id !in s.db.requests && now < spec.expiresAt
       && (row.spec, row.run, row.verb, row.ts) == (spec, spec.runId, spec.verb, now)
  }

  lemma StepReserves(s: System, step: Step, id: RequestId)
    requires id in Apply(s, step).db.requests
    ensures if id in s.db.requests then SameRequest(s.db.requests[id], Apply(s, step).db.requests[id])
            else ReservedBy(s, step, id, Apply(s, step).db.requests[id])
  {
    if step.Act? && step.pid in s.procs && step.action.Authorize? && s.procs[step.pid].pc.Ready? {
      var p := s.procs[step.pid];
      ReservedExactly(s.db, p.spec, p.approval, step.action.verified, step.action.now);
      AuthorizedTouchesOwnRow(s.db, p.spec, p.approval, step.action.verified, step.action.now);
      hide Authorized, Reservable;
    } else {
      var txn := TxnAt(s, step);
      OtherCommits(s, step);
      CommitKeepsRequest(s.db, txn, id);
      hide Commit, Apply;
    }
  }

  /** What the step commits. */
  function TxnAt(s: System, step: Step): Txn {
    match step
    case Open => Recover
    case AuditSettle(id, source) => Terminalize(id, source, Unknown)
    case Spawn(_, _, _) => NoTxn
    case Act(pid, action) => if pid in s.procs then TxnOf(s.procs[pid], action) else NoTxn
  }

  lemma OtherCommits(s: System, step: Step)
    ensures Apply(s, step).db == Commit(s.db, TxnAt(s, step))
    ensures TxnAt(s, step).Reserve? <==>
              step.Act? && step.pid in s.procs && step.action.Authorize? && s.procs[step.pid].pc.Ready?
  {
    CommitNothing(s.db);
    hide Commit, NextPc;
  }

  /** In every run each row was reserved by one consumed approval for exactly that request. */
  lemma {:induction false} RowWasReserved(steps: seq<Step>, n: nat, id: RequestId) returns (k: nat)
    requires n <= |steps| && id in StateAt(steps, n).db.requests
    ensures k < n && ReservedBy(StateAt(steps, k), steps[k], id, StateAt(steps, n).db.requests[id])
  {
    assert StateAt(steps, 0) == START;
    k := n - 1;
    StateStep(steps, k);
    StepReserves(StateAt(steps, k), steps[k], id);
    hide StateAt, Apply;
    if id in StateAt(steps, k).db.requests {
      k := RowWasReserved(steps, n - 1, id);
    }
  }

  /** Hence nothing leaves that was not approved: every request sent was reserved by a verified, new
      approval, unexpired and unrevoked at that moment. */
  lemma {:induction false} SentWasApproved(steps: seq<Step>, n: nat, id: RequestId) returns (k: nat)
    requires n <= |steps| && (StateAt(steps, n).sends[id] > 0 || StateAt(steps, n).mints[id] > 0)
    ensures id in StateAt(steps, n).db.requests
    ensures k < n && ReservedBy(StateAt(steps, k), steps[k], id, StateAt(steps, n).db.requests[id])
  {
    ReachableInv(steps[..n]);
    assert RequestOk(StateAt(steps, n), id);
    k := RowWasReserved(steps, n, id);
  }

  /** The step stores this evidence for the request: the answer its process got, or an audit. */
  predicate Records(s: System, step: Step, id: RequestId, receipt: Digest) {
    || step == AuditSettle(id, receipt)
    || (step.Act? && step.pid in s.procs && IdOf(s, step.pid) == id
        && step.action.RecordResponse? && s.procs[step.pid].pc == Answered(receipt))
  }

  predicate HasReceipt(db: Db, id: RequestId, receipt: Digest) {
    id in db.requests && db.requests[id].receipt == Some(receipt)
  }

  lemma StepRecords(s: System, step: Step, id: RequestId, receipt: Digest)
    requires HasReceipt(Apply(s, step).db, id, receipt)
    ensures HasReceipt(s.db, id, receipt) || Records(s, step, id, receipt)
  {
    var txn := TxnAt(s, step);
    OtherCommits(s, step);
    CommitKeepsReceipt(s.db, txn, id, receipt);
    hide Commit, Apply;
  }

  /** In every run a stored receipt is one that some answer or audit gave for that very request. */
  lemma {:induction false} ReceiptWasRecorded(steps: seq<Step>, n: nat, id: RequestId, receipt: Digest) returns (k: nat)
    requires n <= |steps| && HasReceipt(StateAt(steps, n).db, id, receipt)
    ensures k < n && Records(StateAt(steps, k), steps[k], id, receipt)
  {
    assert StateAt(steps, 0) == START;
    hide StateAt, Apply, Records;
    k := n - 1;
    StateStep(steps, k);
    StepRecords(StateAt(steps, k), steps[k], id, receipt);
    if HasReceipt(StateAt(steps, k).db, id, receipt) {
      k := ReceiptWasRecorded(steps, n - 1, id, receipt);
    }
  }

  // ---------------------------------------------------------------- nonces

  function DurableCount(s: System, nonce: Nonce): nat {
    s.outcomes[Outcome(nonce, Reserved)] + s.outcomes[Outcome(nonce, RevocationRecorded)]
    + s.outcomes[Outcome(nonce, RejectionRecorded)]
  }

  predicate NonceLedger(s: System, nonce: Nonce) {
    DurableCount(s, nonce) == if nonce in s.db.decisions then 1 else 0
  }

  lemma AuthorizeKeepsNonceLedger(s: System, pid: Pid, verified: bool, now: real, nonce: Nonce)
    requires NonceLedger(s, nonce) && pid in s.procs && s.procs[pid].pc.Ready?
    ensures NonceLedger(Acted(s, pid, Authorize(verified, now)), nonce)
  {
    var p := s.procs[pid];
    NonceDurableExactly(s.db, p.spec, p.approval, verified, now);
  }

  lemma StepKeepsNonceLedger(s: System, step: Step, nonce: Nonce)
    requires NonceLedger(s, nonce)
    ensures NonceLedger(Apply(s, step), nonce)
  {
    match step
    case Open => CommitKeepsDecisions(s.db, Recover);
    case AuditSettle(id, source) => CommitKeepsDecisions(s.db, Terminalize(id, source, Unknown));
    case Spawn(_, _, _) =>
    case Act(pid, action) =>
      if pid in s.procs && action.Authorize? && s.procs[pid].pc.Ready? {
        AuthorizeKeepsNonceLedger(s, pid, action.verified, action.now, nonce);
      } else if pid in s.procs {
        CommitKeepsDecisions(s.db, TxnOf(s.procs[pid], action));
      }
  }

  lemma {:induction false} RunKeepsNonceLedger(s: System, steps: seq<Step>, nonce: Nonce)
    requires NonceLedger(s, nonce)
    ensures NonceLedger(Run(s, steps), nonce)
    decreases |steps|
  {
    if steps != [] {
      StepKeepsNonceLedger(s, steps[0], nonce);
      RunKeepsNonceLedger(Apply(s, steps[0]), steps[1..], nonce);
    }
  }

  /** In every run a nonce is stored exactly when one consumption of it ended prepared, revoked or
      rejected, and there is never a second such consumption. */
  lemma NonceSpentOnce(steps: seq<Step>, nonce: Nonce)
    ensures var s := Run(START, steps); DurableCount(s, nonce) == if nonce in s.db.decisions then 1 else 0
  {
    RunKeepsNonceLedger(START, steps, nonce);
  }

  // ---------------------------------------------------------------- quotas

  lemma StepKeepsQuotas(s: System, step: Step)
    requires WindowQuota(s.db) && PostQuota(s.db)
    ensures WindowQuota(Apply(s, step).db) && PostQuota(Apply(s, step).db)
  {
    hide Commit, WindowQuota, PostQuota;
    var txn := match step
      case Open => Recover
      case AuditSettle(i, source) => Terminalize(i, source, Unknown)
      case Spawn(_, _, _) => NoTxn
      case Act(pid, action) => if pid in s.procs then TxnOf(s.procs[pid], action) else NoTxn;
    CommitKeepsQuotas(s.db, txn);
    assert Apply(s, step).db == Commit(s.db, txn) by {
      CommitNothing(s.db);
    }
  }

  lemma CommitNothing(db: Db)
    ensures Commit(db, NoTxn) == db
  {
  }

  /** At every moment of every run at most five reservations lie in any half-open sixty-second
      window, and a run holds at most one POST row. */
  lemma {:induction false} QuotasHold(steps: seq<Step>)
    ensures WindowQuota(Run(START, steps).db) && PostQuota(Run(START, steps).db)
    decreases |steps|
  {
    if steps == [] {
      forall start: real ensures |InWindow(EMPTY_DB, start)| <= WINDOW_QUOTA {
        assert InWindow(EMPTY_DB, start) == {};
      }
    } else {
      var (before, last) := (steps[..|steps| - 1], steps[|steps| - 1]);
      QuotasHold(before);
      StepKeepsQuotas(Run(START, before), last);
      RunSnoc(START, before, last);
      assert before + [last] == steps;
    }
  }

  // ---------------------------------------------------------------- finality of `terminal`

  predicate AboutToOverwrite(s: System, pid: Pid, id: RequestId) {
    pid in s.procs && IdOf(s, pid) == id && s.procs[pid].pc == SettleChecked(Unknown)
  }

  ghost predicate NobodyOverwrites(s: System, id: RequestId) {
    forall pid :: !AboutToOverwrite(s, pid, id)
  }

  predicate SettledAs(db: Db, id: RequestId, row: Row) {
    id in db.requests && db.requests[id] == row
  }

  predicate TerminalAfter(s: System, steps: seq<Step>, id: RequestId) {
    InState(Run(s, steps).db, id, Terminal)
  }

  /** After the steps the row, receipt included, is what it was. */
  predicate SameRowAfter(s: System, steps: seq<Step>, id: RequestId)
    requires id in s.db.requests
  {
    SettledAs(Run(s, steps).db, id, s.db.requests[id])
  }

  /** A terminal row of a reachable state survives every continuation exactly when no process stands
      between the SELECT and the UPDATE of `unknown()` for it; and so does its receipt. */
  lemma {:induction false} TerminalStableExactly(s: System, id: RequestId)
    requires Inv(s) && InState(s.db, id, Terminal)
    ensures (forall steps :: TerminalAfter(s, steps, id)) <==> NobodyOverwrites(s, id)
    ensures (forall steps :: SameRowAfter(s, steps, id)) <==> NobodyOverwrites(s, id)
  {
    if pid :| AboutToOverwrite(s, pid, id) {
      OverwritingLoses(s, pid, id);
    } else {
      forall steps ensures TerminalAfter(s, steps, id) && SameRowAfter(s, steps, id) {
        hide Inv, AboutToOverwrite;
        RunKeepsSettledRow(s, steps, id);
      }
    }
  }

  lemma OverwritingLoses(s: System, pid: Pid, id: RequestId)
    requires AboutToOverwrite(s, pid, id) && InState(s.db, id, Terminal)
    ensures !TerminalAfter(s, [Act(pid, SettleUpdate)], id) && !SameRowAfter(s, [Act(pid, SettleUpdate)], id)
  {
    ActMoves(s, pid, SettleUpdate, SettleChecked(Unknown), id, Terminal);
    RunSnoc(s, [], Act(pid, SettleUpdate));
    assert [] + [Act(pid, SettleUpdate)] == [Act(pid, SettleUpdate)];
    hide Apply;
  }

  /** The step is the unguarded UPDATE of `unknown()`. */
  predicate Overwrites(s: System, step: Step, id: RequestId) {
    step.Act? && step.action.SettleUpdate? && AboutToOverwrite(s, step.pid, id)
  }

  lemma StepKeepsSettledRow(s: System, step: Step, id: RequestId)
    requires Inv(s) && InState(s.db, id, Terminal) && !Overwrites(s, step, id)
    ensures InState(Apply(s, step).db, id, Terminal) && Apply(s, step).db.requests[id] == s.db.requests[id]
  {
    if step.Act? && step.pid in s.procs {
      ProcSettlesOnly(s, step.pid, step.action);
      CommitKeepsTerminal(s.db, TxnOf(s.procs[step.pid], step.action), id);
      TerminalOverwriteIsNothing(s.db, id);
      hide Commit;
    }
  }

  lemma TerminalOverwriteIsNothing(db: Db, id: RequestId)
    requires InState(db, id, Terminal)
    ensures Commit(db, Overwrite(id, Terminal)).requests[id] == db.requests[id]
  {
  }

  /** A terminal row gives nobody a reason to settle it again. */
  lemma NobodyStartsOverwriting(s: System, step: Step, id: RequestId)
    requires NobodyOverwrites(s, id) && InState(s.db, id, Terminal)
    ensures NobodyOverwrites(Apply(s, step), id)
  {
    hide Commit;
    forall pid ensures !AboutToOverwrite(Apply(s, step), pid, id) {
      assert !AboutToOverwrite(s, pid, id);
    }
  }

  lemma {:induction false} RunKeepsSettledRow(s: System, steps: seq<Step>, id: RequestId)
    requires Inv(s) && InState(s.db, id, Terminal) && NobodyOverwrites(s, id)
    ensures SettledAs(Run(s, steps).db, id, s.db.requests[id])
    decreases |steps|
  {
    if steps != [] {
      var step := steps[0];
      assert !Overwrites(s, step, id);
      StepKeepsSettledRow(s, step, id);
      NobodyStartsOverwriting(s, step, id);
      StepKeepsInv(s, step);
      hide Apply, Inv, NobodyOverwrites, Overwrites;
      RunKeepsSettledRow(Apply(s, step), steps[1..], id);
    }
  }

  /** Settlement as one transaction: no process ever pauses between SELECT and UPDATE. */
  predicate Transactional(step: Step) {
    step.Act? ==> !step.action.SettleSelect? && !step.action.SettleUpdate? && !step.action.SettleInsert?
  }

  /** At transaction granularity a terminal row is final, together with its receipt. */
  lemma {:induction false} TerminalIsFinal(s: System, steps: seq<Step>, id: RequestId)
    requires Inv(s) && InState(s.db, id, Terminal)
    requires forall i :: 0 <= i < |steps| ==> Transactional(steps[i])
    ensures id in Run(s, steps).db.requests && Run(s, steps).db.requests[id] == s.db.requests[id]
    decreases |steps|
  {
    hide Apply, Inv;
    if steps != [] {
      var step := steps[0];
      assert !Overwrites(s, step, id);
      hide Transactional, Overwrites;
      StepKeepsSettledRow(s, step, id);
      StepKeepsInv(s, step);
      TerminalIsFinal(Apply(s, step), steps[1..], id);
    }
  }

  predicate At(s: System, pid: Pid, pc: Pc, id: RequestId, state: RequestState) {
    pid in s.procs && s.procs[pid].pc == pc && IdOf(s, pid) == id && InState(s.db, id, state)
  }

  lemma ActMoves(s: System, pid: Pid, action: Action, pc: Pc, id: RequestId, state: RequestState)
    requires At(s, pid, pc, id, state)
    ensures At(Apply(s, Act(pid, action)), pid, NextPc(s.db, s.procs[pid], action), id,
               Commit(s.db, TxnOf(s.procs[pid], action)).requests[id].state)
    ensures Apply(s, Act(pid, action)).db == Commit(s.db, TxnOf(s.procs[pid], action))
  {
    assert id in Commit(s.db, TxnOf(s.procs[pid], action)).requests;
  }

  /** At statement granularity it is not: an executor that has read `dispatched` pauses before its
      UPDATE, an opener recovers the row to `unknown`, an audit settles it, and the unguarded
      UPDATE brings the settled row back to `unknown`. */
  lemma TerminalCanBeOverwritten(s: System, id: RequestId, source: Digest)
    requires At(s, 0, SettleChecked(Unknown), id, Dispatched)
    ensures var settled := Apply(Apply(s, Open), AuditSettle(id, source));
            && At(settled, 0, SettleChecked(Unknown), id, Terminal)
            && settled.db.requests[id].receipt == Some(source)
  {
    LateUpdateLosesSettlement(s.db, id, source);
  }

  lemma LateUpdate(s: System, id: RequestId)
    requires At(s, 0, SettleChecked(Unknown), id, Terminal)
    ensures InState(Apply(s, Act(0, SettleUpdate)).db, id, Unknown)
  {
    ActMoves(s, 0, SettleUpdate, SettleChecked(Unknown), id, Terminal);
  }

  lemma {:induction false} RunConcat(s: System, a: seq<Step>, b: seq<Step>)
    ensures Run(s, a + b) == Run(Run(s, a), b)
    decreases |a|
  {
    if a == [] {
      assert a + b == b;
    } else {
      assert (a + b)[1..] == a[1..] + b;
      RunConcat(Apply(s, a[0]), a[1..], b);
    }
  }

  lemma {:induction false} RunSnoc(s: System, steps: seq<Step>, step: Step)
    ensures Run(s, steps + [step]) == Apply(Run(s, steps), step)
    decreases |steps|
  {
    if steps == [] {
      assert [step][1..] == [];
    } else {
      assert (steps + [step])[1..] == steps[1..] + [step];
      RunSnoc(Apply(s, steps[0]), steps[1..], step);
    }
  }

  ghost predicate Reachable(s: System) {
    exists steps :: Run(START, steps) == s
  }

  lemma StartReachable()
    ensures Reachable(START)
  {
    assert Run(START, []) == START;
  }

  lemma ReachableStep(s: System, step: Step)
    requires Reachable(s)
    ensures Reachable(Apply(s, step))
  {
    var steps :| Run(START, steps) == s;
    RunSnoc(START, steps, step);
  }

  lemma FirstReservation(spec: RequestSpec, approval: Approval)
    requires approval.decision == Approve && spec.expiresAt > 1.0
    ensures var (db', o) := Authorized(EMPTY_DB, spec, approval, true, 1.0);
            o == Reserved && InState(db', spec.requestId, Prepared) && db'.revocations == map[]
            && Event(spec.requestId, Unknown) !in db'.events
  {
    assert Recent(EMPTY_DB, 1.0) == {};
  }

  lemma ReserveReachable(spec: RequestSpec, approval: Approval) returns (s: System)
    requires approval.decision == Approve && spec.expiresAt > 1.0
    ensures Reachable(s) && At(s, 0, Reserving, spec.requestId, Prepared) && s.db.revocations == map[]
    ensures Event(spec.requestId, Unknown) !in s.db.events
  {
    hide Run, Authorized, Reachable;
    assert Reachable(START) by { StartReachable(); }
    s := Apply(START, Spawn(0, spec, approval));
    ReachableStep(START, Spawn(0, spec, approval));
    assert s.db == EMPTY_DB && s.procs[0] == Proc(spec, approval, Ready);
    FirstReservation(spec, approval);
    ReachableStep(s, Act(0, Authorize(true, 1.0)));
    s := Apply(s, Act(0, Authorize(true, 1.0)));
  }

  lemma DispatchReachable(spec: RequestSpec, approval: Approval) returns (s: System)
    requires approval.decision == Approve && spec.expiresAt > 1.0
    ensures Reachable(s) && At(s, 0, Dispatching, spec.requestId, Dispatched)
    ensures Event(spec.requestId, Unknown) !in s.db.events
  {
    s := ReserveReachable(spec, approval);
    ReachableStep(s, Act(0, Dispatch));
    ActMoves(s, 0, Dispatch, Reserving, spec.requestId, Prepared);
    s := Apply(s, Act(0, Dispatch));
  }

  lemma FailedRequestReachable(spec: RequestSpec, approval: Approval) returns (s: System)
    requires approval.decision == Approve && spec.expiresAt > 1.0
    ensures Reachable(s) && At(s, 0, Settling(Unknown), spec.requestId, Dispatched)
    ensures Event(spec.requestId, Unknown) !in s.db.events
  {
    var id := spec.requestId;
    s := DispatchReachable(spec, approval);
    ReachableStep(s, Act(0, Mint(true)));
    ActMoves(s, 0, Mint(true), Dispatching, id, Dispatched);
    s := Apply(s, Act(0, Mint(true)));
    ReachableStep(s, Act(0, Request(None)));
    ActMoves(s, 0, Request(None), Minted, id, Dispatched);
    s := Apply(s, Act(0, Request(None)));
  }

  /** The state in which the overwrite starts is reachable: one executor whose request failed. */
  lemma OverwriteStateReachable(spec: RequestSpec, approval: Approval) returns (s: System)
    requires approval.decision == Approve && spec.expiresAt > 1.0
    ensures Reachable(s) && At(s, 0, SettleChecked(Unknown), spec.requestId, Dispatched)
    ensures Event(spec.requestId, Unknown) !in s.db.events
  {
    s := FailedRequestReachable(spec, approval);
    ReachableStep(s, Act(0, SettleSelect));
    ActMoves(s, 0, SettleSelect, Settling(Unknown), spec.requestId, Dispatched);
    s := Apply(s, Act(0, SettleSelect));
  }

  // ---------------------------------------------------------------- the unlogged unknown

  /** A process that dies right after its UPDATE leaves a row no reopening logs. */
  lemma UnloggedReachable(spec: RequestSpec, approval: Approval) returns (s: System)
    requires approval.decision == Approve && spec.expiresAt > 1.0
    ensures Reachable(s) && Unlogged(s.db, spec.requestId)
  {
    var id := spec.requestId;
    s := OverwriteStateReachable(spec, approval);
    CrashLeavesUnlogged(s.db, id);
    var (written, died) := (Apply(s, Act(0, SettleUpdate)), Apply(Apply(s, Act(0, SettleUpdate)), Act(0, Crash)));
    assert died.db == written.db == Overwritten(s.db, id, Unknown);
    hide Overwritten, Recovered, Unlogged, At, Reachable, Run;
    ReachableStep(s, Act(0, SettleUpdate));
    ReachableStep(written, Act(0, Crash));
    ReachableStep(died, Open);
    s := Apply(died, Open);
  }

  /** The step writes `unknown` for this request to the event log. */
  predicate LogsUnknown(s: System, step: Step, id: RequestId) {
    || (step.Open? && InState(s.db, id, Dispatched))
    || (step.Act? && step.pid in s.procs && IdOf(s, step.pid) == id
        && var pc := s.procs[step.pid].pc;
           || (step.action.SettleInsert? && pc == SettleWritten(Unknown))
           || (step.action.SettleAtomic? && pc == Settling(Unknown) && CanMove(s.db, id, Unknown)))
  }

  /** The process stands between the UPDATE and the INSERT of `unknown()` for this request. */
  predicate Between(s: System, pid: Pid, id: RequestId) {
    pid in s.procs && IdOf(s, pid) == id && s.procs[pid].pc == SettleWritten(Unknown)
  }

  ghost predicate EverLogged(steps: seq<Step>, n: nat, id: RequestId)
    requires n <= |steps|
  {
    exists k :: 0 <= k < n && LogsUnknown(StateAt(steps, k), steps[k], id)
  }

  /** Some process stands between the two statements, or died there. */
  ghost predicate StoppedBetween(steps: seq<Step>, n: nat, id: RequestId)
    requires n <= |steps|
  {
    || (exists pid :: Between(StateAt(steps, n), pid, id))
    || (exists k :: 0 <= k < n && DiesBetween(StateAt(steps, k), steps[k], id))
  }

  predicate DiesBetween(s: System, step: Step, id: RequestId) {
    step.Act? && step.action.Crash? && Between(s, step.pid, id)
  }

  lemma StepLogs(s: System, step: Step, id: RequestId)
    ensures Event(id, Unknown) in Apply(s, step).db.events
       <==> Event(id, Unknown) in s.db.events || LogsUnknown(s, step, id)
  {
    match step
    case Open => CommitLogs(s.db, Recover, id);
    case AuditSettle(other, source) => CommitLogs(s.db, Terminalize(other, source, Unknown), id);
    case Spawn(_, _, _) =>
    case Act(pid, action) =>
      if pid in s.procs {
        CommitLogs(s.db, TxnOf(s.procs[pid], action), id);
      }
      hide Commit;
  }

  predicate TxnLogs(db: Db, txn: Txn, id: RequestId) {
    || (txn.Recover? && InState(db, id, Dispatched))
    || txn == Log(id, Unknown)
    || (txn == Move(id, Unknown) && CanMove(db, id, Unknown))
  }

  lemma CommitLogs(db: Db, txn: Txn, id: RequestId)
    ensures Event(id, Unknown) in Commit(db, txn).events <==> Event(id, Unknown) in db.events || TxnLogs(db, txn, id)
  {
  }

  /** Without a log entry a row becomes unknown only by the UPDATE of a process that then stands
      between the statements, and that process leaves the place only by dying. */
  lemma StepLeavesUnlogged(s: System, step: Step, id: RequestId)
    requires Unlogged(Apply(s, step).db, id)
    ensures Unlogged(s.db, id) || (step.Act? && Between(Apply(s, step), step.pid, id))
  {
    match step
    case Open => CommitLeavesUnlogged(s.db, Recover, id);
    case AuditSettle(other, source) => CommitLeavesUnlogged(s.db, Terminalize(other, source, Unknown), id);
    case Spawn(_, _, _) =>
    case Act(pid, action) =>
      if pid in s.procs {
        CommitLeavesUnlogged(s.db, TxnOf(s.procs[pid], action), id);
      }
      hide Commit, Unlogged;
  }

  lemma CommitLeavesUnlogged(db: Db, txn: Txn, id: RequestId)
    requires Unlogged(Commit(db, txn), id)
    ensures Unlogged(db, id) || txn == Overwrite(id, Unknown)
  {
  }

  lemma StepKeepsBetween(s: System, step: Step, pid: Pid, id: RequestId)
    requires Between(s, pid, id) && !LogsUnknown(s, step, id)
    ensures Between(Apply(s, step), pid, id) || DiesBetween(s, step, id)
  {
    hide Commit;
  }

  lemma {:induction false} LoggedExactly(steps: seq<Step>, n: nat, id: RequestId)
    requires n <= |steps|
    ensures Event(id, Unknown) in StateAt(steps, n).db.events <==> EverLogged(steps, n, id)
  {
    if n > 0 {
      LoggedExactly(steps, n - 1, id);
      StateStep(steps, n - 1);
      StepLogs(StateAt(steps, n - 1), steps[n - 1], id);
    }
    hide Run, LogsUnknown;
  }

  lemma {:induction false} UnloggedHasCulprit(steps: seq<Step>, n: nat, id: RequestId)
    requires n <= |steps| && Unlogged(StateAt(steps, n).db, id)
    ensures StoppedBetween(steps, n, id)
  {
    hide Run, Apply, LogsUnknown, Between, Unlogged;
    if n == 0 {
      NothingAtStart(steps, id);
      assert false;
    } else {
      var (s, step) := (StateAt(steps, n - 1), steps[n - 1]);
      StateStep(steps, n - 1);
      StepLeavesUnlogged(s, step, id);
      NotLogging(s, step, id);
      if Unlogged(s.db, id) {
        UnloggedHasCulprit(steps, n - 1, id);
        if pid :| Between(s, pid, id) {
          StepKeepsBetween(s, step, pid, id);
        }
      }
    }
  }

  lemma NothingAtStart(steps: seq<Step>, id: RequestId)
    ensures !Unlogged(StateAt(steps, 0).db, id)
  {
  }

  lemma NotLogging(s: System, step: Step, id: RequestId)
    requires Unlogged(Apply(s, step).db, id)
    ensures !LogsUnknown(s, step, id)
  {
    StepLogs(s, step, id);
  }

  /** An unknown row is unlogged exactly when nothing ever logged it: no opener found it dispatched, no
      settlement finished, and the process that wrote it stopped between its two statements. */
  lemma UnloggedExactly(steps: seq<Step>, id: RequestId)
    requires InState(Run(START, steps).db, id, Unknown)
    ensures Unlogged(Run(START, steps).db, id)
       <==> !EverLogged(steps, |steps|, id) && StoppedBetween(steps, |steps|, id)
  {
    var n := |steps|;
    assert steps[..n] == steps;
    LoggedExactly(steps, n, id);
    hide Run, EverLogged;
    if Unlogged(StateAt(steps, n).db, id) {
      UnloggedHasCulprit(steps, n, id);
    }
  }

  // ---------------------------------------------------------------- a full closed window

  function Tag(i: nat): string {
    seq(i, _ => 'x')
  }

  function IdAt(i: nat): RequestId {
    RequestId(Tag(i))
  }

  function Ids(a: nat, b: nat): set<RequestId> {
    set i | a <= i < b :: IdAt(i)
  }

  lemma {:induction false} IdsSize(a: nat, b: nat)
    requires a <= b
    ensures |Ids(a, b)| == b - a
  {
    if a < b {
      IdsSize(a, b - 1);
      TagsDiffer();
      assert IdAt(b - 1) !in Ids(a, b - 1);
      assert Ids(a, b) == Ids(a, b - 1) + {IdAt(b - 1)};
    } else {
      assert Ids(a, b) == {};
    }
  }

  /** The first five requests are stamped 0, the next five 60. */
  function StampOf(i: nat): real {
    if i < WINDOW_QUOTA then 0.0 else WINDOW_SECONDS
  }

  ghost predicate Filled(db: Db, n: nat) {
    && db.requests.Keys == Ids(0, n) && db.revocations == map[]
    && (forall i :: 0 <= i < n ==> IdAt(i) in db.requests && db.requests[IdAt(i)].ts == StampOf(i))
    && (forall i :: i >= n ==> IdAt(i) !in db.requests && Nonce(Tag(i)) !in db.decisions)
  }

  function SpecAt(i: nat): RequestSpec {
    RequestSpec(IdAt(i), RunId(""), GET, 2.0 * WINDOW_SECONDS)
  }

  function ApprovalAt(i: nat): Approval {
    Approval(Nonce(Tag(i)), Approve)
  }

  lemma {:induction false} FillReachable(n: nat) returns (s: System)
    requires n <= 2 * WINDOW_QUOTA
    ensures Reachable(s) && Filled(s.db, n) && forall pid :: pid in s.procs ==> pid < n
  {
    if n == 0 {
      s := START;
      StartReachable();
      assert Ids(0, 0) == {};
    } else {
      var before := FillReachable(n - 1);
      OneMoreFilled(before.db, n - 1);
      s := ReservationReachable(before, n - 1, SpecAt(n - 1), ApprovalAt(n - 1), StampOf(n - 1));
    }
    hide Authorized, Filled, Reachable, Run;
  }

  /** A new process spends its approval. */
  lemma ReservationReachable(before: System, pid: Pid, spec: RequestSpec, approval: Approval, now: real)
    returns (s: System)
    requires Reachable(before) && pid !in before.procs && !InState(before.db, spec.requestId, Observed)
    ensures Reachable(s) && s.procs.Keys == before.procs.Keys + {pid}
    ensures s.db == Authorized(before.db, spec, approval, true, now).0
  {
    hide Authorized, Reachable, Run;
    var spawned := Apply(before, Spawn(pid, spec, approval));
    ReachableStep(before, Spawn(pid, spec, approval));
    assert spawned.db == before.db && spawned.procs[pid] == Proc(spec, approval, Ready);
    ReachableStep(spawned, Act(pid, Authorize(true, now)));
    s := Apply(spawned, Act(pid, Authorize(true, now)));
  }

  lemma FewRecent(db: Db, n: nat)
    requires Filled(db, n) && n < 2 * WINDOW_QUOTA
    ensures |Recent(db, StampOf(n))| < WINDOW_QUOTA
  {
    var from := if n < WINDOW_QUOTA then 0 else WINDOW_QUOTA;
    IdsSize(from, n);
    assert Recent(db, StampOf(n)) <= Ids(from, n);
    SubsetSize(Recent(db, StampOf(n)), Ids(from, n));
  }

  lemma TagsDiffer()
    ensures forall i, j :: 0 <= i < j ==> Tag(i) != Tag(j)
  {
    assert forall i, j :: 0 <= i < j ==> |Tag(i)| < |Tag(j)|;
  }

  lemma OneMoreFilled(db: Db, n: nat)
    requires Filled(db, n) && n < 2 * WINDOW_QUOTA
    ensures !InState(db, IdAt(n), Observed)
    ensures Filled(Authorized(db, SpecAt(n), ApprovalAt(n), true, StampOf(n)).0, n + 1)
  {
    FewRecent(db, n);
    var (db', o) := Authorized(db, SpecAt(n), ApprovalAt(n), true, StampOf(n));
    assert db'.requests == db.requests[IdAt(n) := NewRow(SpecAt(n), StampOf(n))];
    assert db'.decisions == db.decisions[Nonce(Tag(n)) := (IdAt(n), Approve)] && db'.revocations == map[];
    hide Authorized, Recent;
    TagsDiffer();
    assert Ids(0, n + 1) == Ids(0, n) + {IdAt(n)};
  }

  /** The bound of ten on a closed window is met: five reservations at 0 and five at 60. */
  lemma ClosedWindowReachesTen() returns (s: System)
    ensures Reachable(s) && |InClosedWindow(s.db, 0.0)| == 2 * WINDOW_QUOTA
  {
    s := FillReachable(2 * WINDOW_QUOTA);
    IdsSize(0, 2 * WINDOW_QUOTA);
    assert InClosedWindow(s.db, 0.0) == Ids(0, 2 * WINDOW_QUOTA);
  }

  /** In every run a closed window holds at most ten rows, and more than five only with rows at both
      of its ends. */
  lemma ClosedWindowHolds(steps: seq<Step>, start: real)
    ensures var db := Run(START, steps).db;
            && |InClosedWindow(db, start)| <= 2 * WINDOW_QUOTA
            && (|InClosedWindow(db, start)| > WINDOW_QUOTA ==>
                  StampedAt(db, start) != {} && StampedAt(db, start + WINDOW_SECONDS) != {})
  {
    QuotasHold(steps);
    ClosedWindowBounded(Run(START, steps).db, start);
  }
}
