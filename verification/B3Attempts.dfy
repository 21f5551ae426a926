/** Exactly-once dispatch of B3 readings: the reservation store of `workbench/b3_attempt_store.py`
    and `dispatch` of `workbench/b3_dispatcher.py`, alone and in every interleaving. */
module B3Attempts {
  import opened Basics

  datatype UnitId = UnitId(text: string)
  datatype RunId = RunId(text: string)
  datatype Profile = Profile(text: string)

  /** A `uuid4` name.  `owner` is the process that made it: names of different processes differ. */
  datatype AttemptId = AttemptId(owner: nat, token: nat)

  /** What may be asked of the provider once: the arm is always B3. */
  datatype Key = Key(run: RunId, reading: nat, selection: Digest, unit: UnitId)

  datatype Status = Reserved | Dispatched | Succeeded | Failed | Unknown

  datatype Attempt = Attempt(key: Key, profile: Profile, status: Status)

  datatype Db = Db(attempts: map<AttemptId, Attempt>, revoked: set<Profile>)

  // ---------------------------------------------------------------- the store as functions

  predicate Taken(db: Db, key: Key) {
    exists id :: id in db.attempts && db.attempts[id].key == key
  }

  predicate In(db: Db, id: AttemptId, status: Status) {
    id in db.attempts && db.attempts[id].status == status
  }

  function WithStatus(db: Db, id: AttemptId, status: Status): Db
    requires id in db.attempts
  {
    db.(attempts := db.attempts[id := db.attempts[id].(status := status)])
  }

  /** What opening the store commits: a dispatch nobody settled is unknown. */
  function Recovered(db: Db): Db {
    db.(attempts := map id | id in db.attempts ::
      if db.attempts[id].status == Dispatched then db.attempts[id].(status := Unknown) else db.attempts[id])
  }

  function Reserve(db: Db, key: Key, profile: Profile, id: AttemptId): Option<Db> {
    if Taken(db, key) then None else Some(db.(attempts := db.attempts[id := Attempt(key, profile, Reserved)]))
  }

  function MarkDispatched(db: Db, id: AttemptId, profile: Profile): Option<Db> {
    if profile in db.revoked || !In(db, id, Reserved) || db.attempts[id].profile != profile then None
    else Some(WithStatus(db, id, Dispatched))
  }

  /** The guarded UPDATE behind the terminal, unknown and rejected marks. */
  function Moved(db: Db, id: AttemptId, from: Status, to: Status): Option<Db> {
    if In(db, id, from) then Some(WithStatus(db, id, to)) else None
  }

  function Orelse(o: Option<Db>, db: Db): Db {
    if o.Some? then o.value else db
  }

  // ---------------------------------------------------------------- interleaved dispatchers

  /** Where a dispatcher process is inside `dispatch`. */
  datatype Pc =
    | Idle
    | Holding(id: AttemptId, profile: Profile)
    | Rejecting(id: AttemptId)
    | Calling(id: AttemptId)
    | Settling(id: AttemptId, ok: bool)
    | Uncertain(id: AttemptId)

  /** The shared store, the processes, and the provider calls made for each attempt. */
  datatype State = State(db: Db, pcs: map<nat, Pc>, calls: map<AttemptId, nat>)

  datatype Step =
    | Open
    | Revoke(profile: Profile)
    | Crash(pid: nat)
    | StartReserve(pid: nat, key: Key, profile: Profile, id: AttemptId)
    | Prepare(pid: nat, ok: bool)
    | Dispatch(pid: nat)
    | CallProvider(pid: nat, ok: bool)
    | Settle(pid: nat)

  function PcOf(s: State, pid: nat): Pc {
    if pid in s.pcs then s.pcs[pid] else Idle
  }

  function At(s: State, pid: nat, pc: Pc): State {
    s.(pcs := s.pcs[pid := pc])
  }

  function CallsOf(s: State, id: AttemptId): nat {
    if id in s.calls then s.calls[id] else 0
  }

  /** One atomic step of one process; steps that do not fit the program counter change nothing. */
  function After(s: State, step: Step): State {
    match step
    case Open => s.(db := Recovered(s.db))
    case Revoke(profile) => s.(db := s.db.(revoked := s.db.revoked + {profile}))
    case Crash(pid) => At(s, pid, Idle)
    case StartReserve(pid, key, profile, id) =>
      if !PcOf(s, pid).Idle? || Taken(s.db, key) then s
      else At(s.(db := s.db.(attempts := s.db.attempts[id := Attempt(key, profile, Reserved)])), pid,
              Holding(id, profile))
    case Prepare(pid, ok) =>
      if PcOf(s, pid).Holding? && !ok then At(s, pid, Rejecting(PcOf(s, pid).id)) else s
    case Dispatch(pid) =>
      if !PcOf(s, pid).Holding? then s else
      var pc := PcOf(s, pid);
      var d := MarkDispatched(s.db, pc.id, pc.profile);
      if d.Some? then At(s.(db := d.value), pid, Calling(pc.id)) else At(s, pid, Rejecting(pc.id))
    case CallProvider(pid, ok) =>
      if !PcOf(s, pid).Calling? then s else
      var id := PcOf(s, pid).id;
      At(s.(calls := s.calls[id := CallsOf(s, id) + 1]), pid, Settling(id, ok))
    case Settle(pid) =>
      match PcOf(s, pid)
      case Rejecting(id) => At(s.(db := Orelse(Moved(s.db, id, Reserved, Failed), s.db)), pid, Idle)
      case Settling(id, ok) =>
        var moved := if ok then Moved(s.db, id, Dispatched, Succeeded) else None;
        if moved.Some? then At(s.(db := moved.value), pid, Idle) else At(s, pid, Uncertain(id))
      case Uncertain(id) => At(s.(db := Orelse(Moved(s.db, id, Dispatched, Unknown), s.db)), pid, Idle)
      case _ => s
  }

  predicate Fresh(s: State, step: Step) {
    step.StartReserve? ==> step.id !in s.db.attempts && step.id.owner == step.pid
  }

  function Run(steps: seq<Step>, n: nat): State
    requires n <= |steps|
  {
    if n == 0 then State(Db(map[], {}), map[], map[]) else After(Run(steps, n - 1), steps[n - 1])
  }

  predicate Legal(steps: seq<Step>, n: nat)
    requires n <= |steps|
  {
    forall k :: 0 <= k < n ==> Fresh(Run(steps, k), steps[k])
  }

  function IdOf(pc: Pc): Option<AttemptId> {
    if pc.Idle? then None else Some(pc.id)
  }

  // ---------------------------------------------------------------- the invariant

  predicate KeysDistinct(db: Db) {
    forall a, b :: a in db.attempts && b in db.attempts && db.attempts[a].key == db.attempts[b].key ==> a == b
  }

  /** Processes work on different attempts. */
  predicate Exclusive(s: State) {
    forall p, q :: p in s.pcs && q in s.pcs && p != q && IdOf(s.pcs[p]).Some? ==> IdOf(s.pcs[p]) != IdOf(s.pcs[q])
  }

  /** A process that may still reject or dispatch holds a reserved attempt; one that may still call
      holds a dispatched one, unless an opener made it unknown. */
  predicate PcFits(db: Db, pc: Pc) {
    match pc
    case Idle => true
    case Holding(id, _) => In(db, id, Reserved)
    case Rejecting(id) => In(db, id, Reserved)
    case Calling(id) => In(db, id, Dispatched) || In(db, id, Unknown)
    case Settling(id, _) => In(db, id, Dispatched) || In(db, id, Unknown)
    case Uncertain(id) => In(db, id, Dispatched) || In(db, id, Unknown)
  }

  /** An attempt was called at most once, after it left `reserved`, and nobody is about to call again. */
  ghost predicate CallsFit(s: State, id: AttemptId) {
    && CallsOf(s, id) <= 1
    && (CallsOf(s, id) == 1 ==>
          && id in s.db.attempts && s.db.attempts[id].status != Reserved
          && forall p :: p in s.pcs ==> s.pcs[p] != Calling(id))
  }

  /** Processes work on attempts of their own. */
  predicate Owning(s: State) {
    forall p :: p in s.pcs && IdOf(s.pcs[p]).Some? ==> IdOf(s.pcs[p]).value.owner == p
  }

  ghost predicate Inv(s: State) {
    && KeysDistinct(s.db) && Exclusive(s) && Owning(s)
    && (forall p :: p in s.pcs ==> PcFits(s.db, s.pcs[p]))
    && (forall id :: CallsFit(s, id))
  }

  lemma StepKeepsKeys(s: State, step: Step)
    requires KeysDistinct(s.db) && Fresh(s, step)
    ensures KeysDistinct(After(s, step).db)
  {
  }

  /** The attempt a step works on is the one its process held, or a new one. */
  lemma StepKeepsExclusive(s: State, step: Step)
    requires Exclusive(s) && Fresh(s, step) && forall p :: p in s.pcs ==> PcFits(s.db, s.pcs[p])
    ensures Exclusive(After(s, step))
  {
  }

  lemma StepKeepsOwning(s: State, step: Step)
    requires Owning(s) && Fresh(s, step)
    ensures Owning(After(s, step))
  {
  }

  /** The process a step belongs to. */
  function Actor(step: Step): Option<nat> {
    if step.Open? || step.Revoke? then None else Some(step.pid)
  }

  lemma OpeningKeepsFit(db: Db, pc: Pc)
    requires PcFits(db, pc)
    ensures PcFits(Recovered(db), pc)
  {
  }

  /** A step changes, besides its own process, only the attempt that process works on. */
  lemma StepIsLocal(s: State, step: Step, p: nat)
    requires Fresh(s, step) && !step.Open? && Actor(step) != Some(p)
    ensures PcOf(After(s, step), p) == PcOf(s, p) && (p in After(s, step).pcs <==> p in s.pcs)
    ensures forall id ::
              id in s.db.attempts
              && (step.StartReserve? || Actor(step).None? || Some(id) != IdOf(PcOf(s, Actor(step).value))) ==>
              id in After(s, step).db.attempts && After(s, step).db.attempts[id] == s.db.attempts[id]
  {
  }

  lemma StepKeepsOwnPc(s: State, step: Step)
    requires Fresh(s, step) && Actor(step).Some? && PcFits(s.db, PcOf(s, Actor(step).value))
    ensures PcFits(After(s, step).db, PcOf(After(s, step), Actor(step).value))
  {
  }

  lemma StepKeepsPcs(s: State, step: Step, p: nat)
    requires Exclusive(s) && Fresh(s, step) && forall q :: q in s.pcs ==> PcFits(s.db, s.pcs[q])
    requires p in After(s, step).pcs
    ensures PcFits(After(s, step).db, After(s, step).pcs[p])
  {
    if step.Open? {
      OpeningKeepsFit(s.db, s.pcs[p]);
    } else if Actor(step) == Some(p) {
      StepKeepsOwnPc(s, step);
    } else {
      hide Fresh, After;
      StepIsLocal(s, step, p);
      assert PcFits(s.db, s.pcs[p]);
      assert Actor(step).Some? && Actor(step).value in s.pcs
             ==> s.pcs[Actor(step).value].Idle? || IdOf(s.pcs[Actor(step).value]) != IdOf(s.pcs[p]);
    }
  }

  lemma StepKeepsCalls(s: State, step: Step, id: AttemptId)
    requires Exclusive(s) && Fresh(s, step) && CallsFit(s, id) && forall q :: q in s.pcs ==> PcFits(s.db, s.pcs[q])
    ensures CallsFit(After(s, step), id)
  {
  }

  lemma StepKeepsInv(s: State, step: Step)
    requires Inv(s) && Fresh(s, step)
    ensures Inv(After(s, step))
  {
    hide After, KeysDistinct, Exclusive, Owning, PcFits, CallsFit, Fresh;
    StepKeepsKeys(s, step);
    StepKeepsOwning(s, step);
    StepKeepsExclusive(s, step);
    forall p | p in After(s, step).pcs ensures PcFits(After(s, step).db, After(s, step).pcs[p]) {
      StepKeepsPcs(s, step, p);
    }
    forall id ensures CallsFit(After(s, step), id) {
      StepKeepsCalls(s, step, id);
    }
  }

  lemma {:induction false} RunKeepsInv(steps: seq<Step>, n: nat)
    requires n <= |steps| && Legal(steps, n)
    ensures Inv(Run(steps, n))
  {
    hide After, Inv, Fresh;
    if n == 0 {
      InitialInv();
    } else {
      RunKeepsInv(steps, n - 1);
      assert Fresh(Run(steps, n - 1), steps[n - 1]);
      StepKeepsInv(Run(steps, n - 1), steps[n - 1]);
    }
  }

  lemma InitialInv()
    ensures Inv(Run([], 0)) && Run([], 0) == State(Db(map[], {}), map[], map[])
  {
  }

  // ---------------------------------------------------------------- the promises

  /** Over the lifetime of the store, restarts included, a key has at most one attempt and the
      provider is called at most once for it. */
  lemma {:induction false} AtMostOneCall(steps: seq<Step>, n: nat, a: AttemptId, b: AttemptId)
    requires n <= |steps| && Legal(steps, n)
    ensures CallsOf(Run(steps, n), a) <= 1
    ensures CallsOf(Run(steps, n), a) == 1 ==> a in Run(steps, n).db.attempts && !In(Run(steps, n).db, a, Reserved)
    ensures var attempts := Run(steps, n).db.attempts;
            a in attempts && b in attempts && attempts[a].key == attempts[b].key ==> a == b
  {
    RunKeepsInv(steps, n);
    assert CallsFit(Run(steps, n), a);
  }

  function Rank(s: Status): nat {
    match s
    case Reserved => 0
    case Dispatched => 1
    case _ => 2
  }

  /** Attempts are never lost, keep their key and profile, and only move forward; succeeded, failed
      and unknown are final, so an uncertain outcome is never retried. */
  predicate Evolves(a: Db, b: Db) {
    && a.revoked <= b.revoked
    && forall id :: id in a.attempts ==> id in b.attempts && Successor(a.attempts[id], b.attempts[id])
  }

  predicate Successor(a: Attempt, b: Attempt) {
    && b.key == a.key && b.profile == a.profile
    && Rank(a.status) <= Rank(b.status) && (Rank(a.status) == 2 ==> b == a)
  }

  lemma StepEvolves(s: State, step: Step)
    requires Fresh(s, step)
    ensures Evolves(s.db, After(s, step).db)
  {
    forall id | id in s.db.attempts
      ensures id in After(s, step).db.attempts && Successor(s.db.attempts[id], After(s, step).db.attempts[id])
    {
      StepSucceeds(s, step, id);
    }
  }

  lemma StepSucceeds(s: State, step: Step, id: AttemptId)
    requires Fresh(s, step) && id in s.db.attempts
    ensures id in After(s, step).db.attempts && Successor(s.db.attempts[id], After(s, step).db.attempts[id])
  {
  }

  lemma {:induction false} RunEvolves(steps: seq<Step>, m: nat, n: nat)
    requires m <= n <= |steps| && Legal(steps, n)
    ensures Evolves(Run(steps, m).db, Run(steps, n).db)
    decreases n
  {
    hide After, Fresh;
    if m < n {
      RunEvolves(steps, m, n - 1);
      assert Fresh(Run(steps, n - 1), steps[n - 1]);
      StepEvolves(Run(steps, n - 1), steps[n - 1]);
    }
  }

  /** A process that ends its dispatch by itself leaves its attempt succeeded, failed or unknown. */
  lemma {:induction false} EndsSettled(steps: seq<Step>, n: nat, pid: nat)
    requires n < |steps| && Legal(steps, n) && steps[n] == Settle(pid)
    requires !PcOf(Run(steps, n), pid).Idle? && PcOf(After(Run(steps, n), steps[n]), pid).Idle?
    ensures var id := PcOf(Run(steps, n), pid).id;
            var after := After(Run(steps, n), steps[n]).db;
            id in after.attempts && Rank(after.attempts[id].status) == 2
  {
    RunKeepsInv(steps, n);
    assert PcFits(Run(steps, n).db, PcOf(Run(steps, n), pid));
  }

  /** The step turns a dispatched attempt of this key into a succeeded one. */
  predicate Earns(s: State, step: Step, key: Key) {
    && step.Settle? && PcOf(s, step.pid).Settling? && PcOf(s, step.pid).ok
    && In(s.db, PcOf(s, step.pid).id, Dispatched) && s.db.attempts[PcOf(s, step.pid).id].key == key
  }

  /** Over the lifetime of the store, whatever interleaves, at most one settlement ever succeeds for a
      key ... */
  lemma {:induction false} EarnedOnce(steps: seq<Step>, j: nat, k: nat, key: Key)
    requires j <= k < |steps| && Legal(steps, k + 1)
    requires Earns(Run(steps, j), steps[j], key) && Earns(Run(steps, k), steps[k], key)
    ensures j == k
  {
    if j < k {
      var a := EarnedStays(steps, j, k, key);
      var b := PcOf(Run(steps, k), steps[k].pid).id;
      hide After, Run, Fresh;
      AtMostOneCall(steps, k, a, b);
    }
  }

  lemma {:induction false} EarnedStays(steps: seq<Step>, j: nat, k: nat, key: Key) returns (id: AttemptId)
    requires j < k <= |steps| && Legal(steps, k) && Earns(Run(steps, j), steps[j], key)
    ensures In(Run(steps, k).db, id, Succeeded) && Run(steps, k).db.attempts[id].key == key
  {
    hide Run, After, Fresh, Earns, Legal, Evolves;
    id := EarnedNext(steps, j, key);
    RunEvolves(steps, j + 1, k);
    FinalStays(Run(steps, j + 1).db, Run(steps, k).db, id);
  }

  lemma {:induction false} EarnedNext(steps: seq<Step>, j: nat, key: Key) returns (id: AttemptId)
    requires j < |steps| && Earns(Run(steps, j), steps[j], key)
    ensures In(Run(steps, j + 1).db, id, Succeeded) && Run(steps, j + 1).db.attempts[id].key == key
  {
    hide After;
    id := PcOf(Run(steps, j), steps[j].pid).id;
    EarningSucceeds(Run(steps, j), steps[j], key);
  }

  lemma FinalStays(a: Db, b: Db, id: AttemptId)
    requires Evolves(a, b) && In(a, id, Succeeded)
    ensures In(b, id, Succeeded) && b.attempts[id] == a.attempts[id]
  {
    assert Successor(a.attempts[id], b.attempts[id]);
  }

  lemma EarningSucceeds(s: State, step: Step, key: Key)
    requires Earns(s, step, key)
    ensures var id := PcOf(s, step.pid).id;
            In(After(s, step).db, id, Succeeded) && After(s, step).db.attempts[id].key == key
  {
  }

  /** ... and every success was earned by one. */
  lemma {:induction false} SucceededWasEarned(steps: seq<Step>, n: nat, id: AttemptId) returns (k: nat)
    requires n <= |steps| && Legal(steps, n) && In(Run(steps, n).db, id, Succeeded)
    ensures k < n && Earns(Run(steps, k), steps[k], Run(steps, n).db.attempts[id].key)
  {
    NothingSucceededAtStart(steps, id);
    k := n - 1;
    hide After, Earns, Fresh, In;
    assert Run(steps, n) == After(Run(steps, k), steps[k]);
    assert Fresh(Run(steps, k), steps[k]) && Legal(steps, k);
    hide Run, Legal;
    if In(Run(steps, k).db, id, Succeeded) {
      RunEvolves(steps, k, n);
      FinalStays(Run(steps, k).db, Run(steps, n).db, id);
      k := SucceededWasEarned(steps, n - 1, id);
    } else {
      SuccessIsEarned(Run(steps, k), steps[k], id);
    }
  }

  lemma NothingSucceededAtStart(steps: seq<Step>, id: AttemptId)
    ensures !In(Run(steps, 0).db, id, Succeeded)
  {
  }

  lemma SuccessIsEarned(s: State, step: Step, id: AttemptId)
    requires Fresh(s, step) && In(After(s, step).db, id, Succeeded) && !In(s.db, id, Succeeded)
    ensures Earns(s, step, After(s, step).db.attempts[id].key)
  {
  }

  /** A process that waits to settle its call has made it; a failed attempt was never called, and a
      succeeded one was. */
  ghost predicate Told(s: State) {
    (forall p :: p in s.pcs ==> PcTold(s, s.pcs[p])) && forall id :: StatusTold(s, id)
  }

  predicate PcTold(s: State, pc: Pc) {
    pc.Settling? || pc.Uncertain? ==> CallsOf(s, pc.id) == 1
  }

  predicate StatusTold(s: State, id: AttemptId) {
    (In(s.db, id, Failed) ==> CallsOf(s, id) == 0) && (In(s.db, id, Succeeded) ==> CallsOf(s, id) == 1)
  }

  lemma StepKeepsTold(s: State, step: Step)
    requires Inv(s) && Told(s) && Fresh(s, step)
    ensures Told(After(s, step))
  {
    forall p | p in After(s, step).pcs ensures PcTold(After(s, step), After(s, step).pcs[p]) {
      if p in s.pcs && !s.pcs[p].Idle? {
        assert PcTold(s, s.pcs[p]) && CallsFit(s, s.pcs[p].id) && PcFits(s.db, s.pcs[p]);
      }
      StepKeepsPcTold(s, step, p);
    }
    forall id ensures StatusTold(After(s, step), id) {
      assert StatusTold(s, id) && CallsFit(s, id);
      if Actor(step).Some? && Actor(step).value in s.pcs {
        assert PcTold(s, s.pcs[Actor(step).value]) && PcFits(s.db, s.pcs[Actor(step).value]);
      }
      StepKeepsStatusTold(s, step, id);
    }
    hide After, PcTold, StatusTold;
  }

  lemma StepKeepsPcTold(s: State, step: Step, p: nat)
    requires p in After(s, step).pcs && Fresh(s, step) && PcTold(s, PcOf(s, p))
    requires !PcOf(s, p).Idle? ==> CallsFit(s, PcOf(s, p).id)
    ensures PcTold(After(s, step), After(s, step).pcs[p])
  {
  }

  lemma StepKeepsStatusTold(s: State, step: Step, id: AttemptId)
    requires Fresh(s, step) && StatusTold(s, id) && CallsFit(s, id)
    requires Actor(step).Some? ==> var pc := PcOf(s, Actor(step).value); PcTold(s, pc) && PcFits(s.db, pc)
    ensures StatusTold(After(s, step), id)
  {
  }

  lemma {:induction false} RunKeepsTold(steps: seq<Step>, n: nat)
    requires n <= |steps| && Legal(steps, n)
    ensures Told(Run(steps, n))
  {
    hide After, Told, Inv, Fresh;
    if n == 0 {
      InitialTold();
    } else {
      RunKeepsTold(steps, n - 1);
      RunKeepsInv(steps, n - 1);
      assert Fresh(Run(steps, n - 1), steps[n - 1]);
      StepKeepsTold(Run(steps, n - 1), steps[n - 1]);
    }
  }

  lemma InitialTold()
    ensures Told(Run([], 0)) && Run([], 0) == State(Db(map[], {}), map[], map[])
  {
  }

  /** The attempt was dispatched at some moment. */
  ghost predicate EverSent(steps: seq<Step>, n: nat, id: AttemptId)
    requires n <= |steps|
  {
    exists k :: 0 <= k <= n && In(Run(steps, k).db, id, Dispatched)
  }

  lemma StepSends(s: State, step: Step, id: AttemptId)
    requires Fresh(s, step)
    ensures var db := After(s, step).db;
            In(db, id, Succeeded) || In(db, id, Unknown) ==>
              In(s.db, id, Dispatched) || In(s.db, id, Succeeded) || In(s.db, id, Unknown)
    ensures In(s.db, id, Dispatched) ==> !In(After(s, step).db, id, Reserved) && !In(After(s, step).db, id, Failed)
  {
  }

  lemma OnceMoreSent(steps: seq<Step>, m: nat, id: AttemptId)
    requires m < |steps|
    ensures EverSent(steps, m + 1, id) <==> EverSent(steps, m, id) || In(Run(steps, m + 1).db, id, Dispatched)
  {
    hide Run, In;
  }

  lemma {:induction false} SentExactly(steps: seq<Step>, n: nat, id: AttemptId)
    requires n <= |steps| && Legal(steps, n)
    ensures EverSent(steps, n, id) <==>
              In(Run(steps, n).db, id, Dispatched) || In(Run(steps, n).db, id, Succeeded)
              || In(Run(steps, n).db, id, Unknown)
  {
    hide After, Fresh;
    if n > 0 {
      var m := n - 1;
      SentExactly(steps, m, id);
      assert Fresh(Run(steps, m), steps[m]);
      StepSends(Run(steps, m), steps[m], id);
      StepEvolves(Run(steps, m), steps[m]);
      OnceMoreSent(steps, m, id);
      hide Run, Evolves;
      assert id in Run(steps, m).db.attempts ==> id in Run(steps, n).db.attempts;
    }
  }

  /** In every legal run the status tells what happened: succeeded and unknown attempts, and only
      those besides the dispatched ones, were once dispatched; a succeeded one was called exactly once;
      a reserved or failed one was never called. */
  lemma {:induction false} StatusTells(steps: seq<Step>, n: nat, id: AttemptId)
    requires n <= |steps| && Legal(steps, n) && id in Run(steps, n).db.attempts
    ensures var s := Run(steps, n);
            match s.db.attempts[id].status
            case Reserved => CallsOf(s, id) == 0 && !EverSent(steps, n, id)
            case Failed => CallsOf(s, id) == 0 && !EverSent(steps, n, id)
            case Dispatched => CallsOf(s, id) <= 1 && EverSent(steps, n, id)
            case Unknown => CallsOf(s, id) <= 1 && EverSent(steps, n, id)
            case Succeeded => CallsOf(s, id) == 1 && EverSent(steps, n, id)
  {
    hide After, Run, Fresh, Inv, EverSent;
    SentExactly(steps, n, id);
    RunKeepsTold(steps, n);
    assert StatusTold(Run(steps, n), id);
    AtMostOneCall(steps, n, id, id);
  }

  /** A revocation committed before the dispatch transaction wins: an attempt of that profile that
      is not dispatched by then never is, so the provider is never called for it. */
  lemma {:induction false} RevocationWins(steps: seq<Step>, m: nat, n: nat, id: AttemptId)
    requires m <= n <= |steps| && Legal(steps, n)
    requires In(Run(steps, m).db, id, Reserved) && Run(steps, m).db.attempts[id].profile in Run(steps, m).db.revoked
    ensures In(Run(steps, n).db, id, Reserved) || In(Run(steps, n).db, id, Failed)
    ensures CallsOf(Run(steps, n), id) == 0
  {
    RunKeepsInv(steps, m);
    assert CallsFit(Run(steps, m), id);
    RevokedStays(steps, m, n, id);
  }

  lemma {:induction false} RevokedStays(steps: seq<Step>, m: nat, n: nat, id: AttemptId)
    requires m <= n <= |steps| && Legal(steps, n)
    requires In(Run(steps, m).db, id, Reserved) && Run(steps, m).db.attempts[id].profile in Run(steps, m).db.revoked
    requires CallsOf(Run(steps, m), id) == 0
    ensures Withheld(Run(steps, n), id)
    decreases n
  {
    hide After, Fresh, Withheld, Inv;
    if m == n {
      RunKeepsInv(steps, m);
      WithheldAtFirst(Run(steps, m), id);
    } else {
      RevokedStays(steps, m, n - 1, id);
      assert Fresh(Run(steps, n - 1), steps[n - 1]);
      RunKeepsInv(steps, n - 1);
      StepWithholds(Run(steps, n - 1), steps[n - 1], id);
    }
  }

  lemma WithheldAtFirst(s: State, id: AttemptId)
    requires Inv(s) && In(s.db, id, Reserved) && s.db.attempts[id].profile in s.db.revoked && CallsOf(s, id) == 0
    ensures Withheld(s, id)
  {
    assert forall p :: p in s.pcs ==> PcFits(s.db, s.pcs[p]);
  }

  /** The attempt belongs to a revoked profile, was never called, and nobody is about to call it. */
  ghost predicate Withheld(s: State, id: AttemptId) {
    && (In(s.db, id, Reserved) || In(s.db, id, Failed)) && s.db.attempts[id].profile in s.db.revoked
    && CallsOf(s, id) == 0 && forall p :: p in s.pcs ==> s.pcs[p] != Calling(id)
  }

  lemma StepWithholds(s: State, step: Step, id: AttemptId)
    requires Inv(s) && Fresh(s, step) && Withheld(s, id)
    ensures Withheld(After(s, step), id)
  {
    hide KeysDistinct, CallsFit, Exclusive;
    assert forall p :: p in s.pcs ==> PcFits(s.db, s.pcs[p]);
    StepSucceeds(s, step, id);
    if Actor(step).Some? {
      ActorWithholds(s, step, id);
      forall p | p in After(s, step).pcs && p != Actor(step).value ensures After(s, step).pcs[p] != Calling(id) {
        StepIsLocal(s, step, p);
      }
      hide After, Fresh, PcFits;
    }
  }

  lemma ActorWithholds(s: State, step: Step, id: AttemptId)
    requires Actor(step).Some? && Fresh(s, step) && PcFits(s.db, PcOf(s, Actor(step).value))
    requires (In(s.db, id, Reserved) || In(s.db, id, Failed)) && s.db.attempts[id].profile in s.db.revoked
    requires CallsOf(s, id) == 0 && PcOf(s, Actor(step).value) != Calling(id)
    ensures In(After(s, step).db, id, Reserved) || In(After(s, step).db, id, Failed)
    ensures CallsOf(After(s, step), id) == 0 && PcOf(After(s, step), Actor(step).value) != Calling(id)
    ensures After(s, step).db.revoked == s.db.revoked
  {
  }

  // ---------------------------------------------------------------- migration of older stores

  /** Attempts of a store that reserved whole readings. */
  datatype Legacy = Legacy(run: RunId, reading: nat, selection: Digest, profile: Profile, status: Status)

  predicate SameReading(a: Legacy, b: Legacy) {
    a.run == b.run && a.reading == b.reading && a.selection == b.selection
  }

  const LEGACY_UNIT := UnitId("legacy-unspecified")

  function Migrated(legacy: map<AttemptId, Legacy>, revoked: set<Profile>): Db {
    Db(map id | id in legacy ::
         Attempt(Key(legacy[id].run, legacy[id].reading, legacy[id].selection, LEGACY_UNIT), legacy[id].profile,
                 legacy[id].status),
       revoked)
  }

  /** Migration followed by recovery keeps every settled outcome and the uniqueness of keys; what it
      keeps blocks no request for a real unit. */
  lemma MigrationKeepsOutcomes(legacy: map<AttemptId, Legacy>, revoked: set<Profile>, id: AttemptId, key: Key)
    requires id in legacy
    requires forall a, b :: a in legacy && b in legacy && SameReading(legacy[a], legacy[b]) ==> a == b
    ensures var db := Recovered(Migrated(legacy, revoked));
            && KeysDistinct(db) && id in db.attempts && db.attempts[id].profile == legacy[id].profile
            && db.attempts[id].status == (if legacy[id].status == Dispatched then Unknown else legacy[id].status)
            && (Taken(db, key) ==> key.unit == LEGACY_UNIT)
  {
  }
}
