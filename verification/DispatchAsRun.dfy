/** `dispatch` as a part of the runs in `B3Attempts`: the steps of one process, however others
    interleave, have exactly the effect `B3Dispatch` allows. */
module DispatchAsRun {
  import opened Basics
  import A = B3Attempts
  import opened B3Dispatch

  /** What lies between two moments in which process `pid` did nothing. */
  ghost predicate Idled(pid: nat, s: A.State, t: A.State) {
    && Beside(pid, s.db, t.db) && A.PcOf(t, pid) == A.PcOf(s, pid)
    && forall id: A.AttemptId :: id.owner == pid ==> A.CallsOf(t, id) == A.CallsOf(s, id)
  }

  lemma IdledTransitive(pid: nat, a: A.State, b: A.State, c: A.State)
    requires Idled(pid, a, b) && Idled(pid, b, c)
    ensures Idled(pid, a, c)
  {
    hide Beside;
    BesideTransitive(pid, a.db, b.db, c.db);
  }

  /** Whatever other processes do, this one's attempts and place stay, but for a restart. */
  lemma OthersIdle(s: A.State, step: A.Step, pid: nat)
    requires A.Inv(s) && A.Fresh(s, step) && A.Actor(step) != Some(pid)
    ensures Idled(pid, s, A.After(s, step))
  {
    A.StepEvolves(s, step);
    A.StepKeepsInv(s, step);
    forall id: A.AttemptId | id.owner == pid
      ensures OwnStays(s.db, A.After(s, step).db, id) && A.CallsOf(A.After(s, step), id) == A.CallsOf(s, id)
    {
      OthersLeaveOwn(s, step, pid, id);
    }
    OthersLeavePlace(s, step, pid);
    assert A.KeysDistinct(A.After(s, step).db);
    hide A.Inv, A.After, A.Evolves, A.KeysDistinct, OwnStays, A.PcOf, A.CallsOf;
  }

  lemma OthersLeavePlace(s: A.State, step: A.Step, pid: nat)
    requires A.Actor(step) != Some(pid)
    ensures A.PcOf(A.After(s, step), pid) == A.PcOf(s, pid)
  {
  }

  lemma OthersLeaveOwn(s: A.State, step: A.Step, pid: nat, id: A.AttemptId)
    requires A.Owning(s) && A.Fresh(s, step) && A.Actor(step) != Some(pid) && id.owner == pid
    ensures OwnStays(s.db, A.After(s, step).db, id) && A.CallsOf(A.After(s, step), id) == A.CallsOf(s, id)
  {
  }

  lemma {:induction false} SegmentIdles(steps: seq<A.Step>, m: nat, n: nat, pid: nat)
    requires m <= n <= |steps| && A.Legal(steps, n) && forall k :: m <= k < n ==> A.Actor(steps[k]) != Some(pid)
    ensures Idled(pid, A.Run(steps, m), A.Run(steps, n))
    decreases n
  {
    hide A.After, A.Fresh, A.Inv, Idled, A.Actor;
    if m == n {
      IdledNothing(pid, A.Run(steps, m));
    } else {
      var before := A.Run(steps, n - 1);
      assert A.Run(steps, n) == A.After(before, steps[n - 1]) && A.Fresh(before, steps[n - 1]);
      assert A.Legal(steps, n - 1);
      hide A.Run, A.Legal;
      SegmentIdles(steps, m, n - 1, pid);
      A.RunKeepsInv(steps, n - 1);
      OthersIdle(before, steps[n - 1], pid);
      IdledTransitive(pid, A.Run(steps, m), before, A.Run(steps, n));
    }
  }

  lemma IdledNothing(pid: nat, s: A.State)
    ensures Idled(pid, s, s)
  {
    BesideNothing(pid, s.db);
  }

  /** One dispatch by process `pid`: its six steps, at these places of the run. */
  ghost predicate Dispatching(steps: seq<A.Step>, at: seq<nat>, pid: nat, key: A.Key, profile: A.Profile,
                              id: A.AttemptId, answer: Answer, units: seq<A.UnitId>)
  {
    && |at| == 6 && (forall i, j :: 0 <= i < j < 6 ==> at[i] < at[j]) && at[5] < |steps| && A.Legal(steps, |steps|)
    && steps[at[0]] == A.StartReserve(pid, key, profile, id)
    && steps[at[1]] == A.Prepare(pid, answer.egressOk)
    && steps[at[2]] == A.Dispatch(pid)
    && steps[at[3]] == A.CallProvider(pid, Usable(answer, units))
    && steps[at[4]] == A.Settle(pid) && steps[at[5]] == A.Settle(pid)
    && (forall i, k :: 0 <= i < 5 && at[i] < k < at[i + 1] ==> A.Actor(steps[k]) != Some(pid))
    && A.PcOf(A.Run(steps, at[0]), pid) == A.Idle && answer.healthy
  }

  /** After one of its steps, and until the next, only others act. */
  lemma IdlesBetween(steps: seq<A.Step>, m: nat, n: nat, pid: nat)
    requires m < n < |steps| && A.Legal(steps, n) && forall k :: m < k < n ==> A.Actor(steps[k]) != Some(pid)
    ensures Idled(pid, A.After(A.Run(steps, m), steps[m]), A.Run(steps, n))
  {
    hide A.After, A.Fresh, Idled, A.Actor, A.Legal;
    assert A.Run(steps, m + 1) == A.After(A.Run(steps, m), steps[m]);
    hide A.Run;
    SegmentIdles(steps, m + 1, n, pid);
  }

  // ---------------------------------------------------------------- the stages

  /** With nothing reserved the later steps of the process do nothing. */
  lemma IdleDoesNothing(s: A.State, step: A.Step)
    requires A.Actor(step).Some? && !step.StartReserve? && !step.Crash? && A.PcOf(s, step.pid) == A.Idle
    ensures A.After(s, step) == s
  {
  }

  /** Six states, own step by own step, with others in between. */
  ghost predicate Chain(s: seq<A.State>, t: seq<A.State>, pid: nat, key: A.Key, profile: A.Profile, id: A.AttemptId,
                        answer: Answer, units: seq<A.UnitId>)
  {
    && |s| == |t| == 6 && (forall i :: 0 <= i < 5 ==> Idled(pid, t[i], s[i + 1]))
    && t[0] == A.After(s[0], A.StartReserve(pid, key, profile, id))
    && t[1] == A.After(s[1], A.Prepare(pid, answer.egressOk))
    && t[2] == A.After(s[2], A.Dispatch(pid))
    && t[3] == A.After(s[3], A.CallProvider(pid, Usable(answer, units)))
    && t[4] == A.After(s[4], A.Settle(pid)) && t[5] == A.After(s[5], A.Settle(pid))
    && A.PcOf(s[0], pid) == A.Idle && id.owner == pid && id !in s[0].db.attempts && A.CallsOf(s[0], id) == 0
  }

  /** What the first settlement of the attempt earns. */
  ghost function EarnedBy(s: seq<A.State>, pid: nat, id: A.AttemptId, answer: Answer): Option<seq<A.UnitId>>
    requires |s| == 6
  {
    if A.PcOf(s[4], pid) == A.Settling(id, true) && A.In(s[4].db, id, A.Dispatched) then answer.proposals else None
  }

  ghost predicate Refines(s: seq<A.State>, t: seq<A.State>, pid: nat, key: A.Key, profile: A.Profile, id: A.AttemptId,
                          answer: Answer, units: seq<A.UnitId>)
    requires |s| == |t| == 6
  {
    Dispatches(pid, s[0].db, key, profile, answer, units,
               Effect(t[5].db, A.CallsOf(t[5], id), EarnedBy(s, pid, id, answer)))
  }

  /** The key is taken: every step is idle. */
  lemma TakenChain(s: seq<A.State>, t: seq<A.State>, pid: nat, key: A.Key, profile: A.Profile, id: A.AttemptId,
                   answer: Answer, units: seq<A.UnitId>)
    requires Chain(s, t, pid, key, profile, id, answer, units) && A.Taken(s[0].db, key)
    ensures Refines(s, t, pid, key, profile, id, answer, units)
  {
    assert t[0] == s[0];
    hide A.After, A.Taken, Beside;
    IdleDoesNothing(s[1], A.Prepare(pid, answer.egressOk));
    IdledTransitive(pid, t[0], t[1], s[2]);
    IdleDoesNothing(s[2], A.Dispatch(pid));
    IdledTransitive(pid, t[0], t[2], s[3]);
    IdleDoesNothing(s[3], A.CallProvider(pid, Usable(answer, units)));
    IdledTransitive(pid, t[0], t[3], s[4]);
    IdleDoesNothing(s[4], A.Settle(pid));
    IdledTransitive(pid, t[0], t[4], s[5]);
    IdleDoesNothing(s[5], A.Settle(pid));
    BesideNothing(pid, s[0].db);
    assert FromReserve(pid, s[0].db, key, profile, answer, units,
                       Effect(t[5].db, A.CallsOf(t[5], id), EarnedBy(s, pid, id, answer)));
  }

  /** What a stage may rely on: the process's place, its attempt, and its calls. */
  predicate Place(s: A.State, pid: nat, id: A.AttemptId, pc: A.Pc, status: A.Status, profile: A.Profile, calls: nat) {
    && A.PcOf(s, pid) == pc && A.In(s.db, id, status) && s.db.attempts[id].profile == profile
    && A.CallsOf(s, id) == calls
  }

  lemma Later(pid: nat, a: A.State, b: A.State, id: A.AttemptId, pc: A.Pc, status: A.Status, profile: A.Profile,
              calls: nat)
    returns (now: A.Status)
    requires Idled(pid, a, b) && id.owner == pid && Place(a, pid, id, pc, status, profile, calls)
    ensures Place(b, pid, id, pc, now, profile, calls) && Beside(pid, a.db, b.db)
    ensures now == status || (status == A.Dispatched && now == A.Unknown)
  {
    OwnKept(pid, a.db, b.db, id);
    now := b.db.attempts[id].status;
    hide Beside;
  }

  lemma Reserving(s: A.State, pid: nat, key: A.Key, profile: A.Profile, id: A.AttemptId)
    requires A.PcOf(s, pid) == A.Idle && !A.Taken(s.db, key) && A.CallsOf(s, id) == 0
    ensures var t := A.After(s, A.StartReserve(pid, key, profile, id));
            && Place(t, pid, id, A.Holding(id, profile), A.Reserved, profile, 0)
            && t.db == Reserved(s.db, key, profile, id)
  {
  }

  lemma Preparing(s: A.State, pid: nat, id: A.AttemptId, profile: A.Profile, ok: bool)
    requires Place(s, pid, id, A.Holding(id, profile), A.Reserved, profile, 0)
    ensures var t := A.After(s, A.Prepare(pid, ok));
            && Place(t, pid, id, if ok then A.Holding(id, profile) else A.Rejecting(id), A.Reserved, profile, 0)
            && t.db == s.db
  {
  }

  lemma Dispatched(s: A.State, pid: nat, id: A.AttemptId, profile: A.Profile, pc: A.Pc)
    requires Place(s, pid, id, pc, A.Reserved, profile, 0) && (pc == A.Holding(id, profile) || pc == A.Rejecting(id))
    ensures var t := A.After(s, A.Dispatch(pid));
            if pc.Holding? && profile !in s.db.revoked then
              Place(t, pid, id, A.Calling(id), A.Dispatched, profile, 0) && t.db == A.WithStatus(s.db, id, A.Dispatched)
            else Place(t, pid, id, A.Rejecting(id), A.Reserved, profile, 0) && t.db == s.db
  {
  }

  lemma Calling(s: A.State, pid: nat, id: A.AttemptId, profile: A.Profile, pc: A.Pc, status: A.Status, ok: bool)
    requires Place(s, pid, id, pc, status, profile, 0) && (pc == A.Calling(id) || pc == A.Rejecting(id))
    ensures var t := A.After(s, A.CallProvider(pid, ok));
            t.db == s.db && if pc.Calling? then Place(t, pid, id, A.Settling(id, ok), status, profile, 1) else t == s
  {
  }

  lemma SettlingRejected(s: A.State, pid: nat, id: A.AttemptId, profile: A.Profile)
    requires Place(s, pid, id, A.Rejecting(id), A.Reserved, profile, 0)
    ensures var t := A.After(s, A.Settle(pid));
            && Place(t, pid, id, A.Idle, A.Failed, profile, 0) && t.db == A.WithStatus(s.db, id, A.Failed)
  {
  }

  lemma SettlingCalled(s: A.State, pid: nat, id: A.AttemptId, profile: A.Profile, status: A.Status, ok: bool)
    requires Place(s, pid, id, A.Settling(id, ok), status, profile, 1)
             && (status == A.Dispatched || status == A.Unknown)
    ensures var t := A.After(s, A.Settle(pid));
            if ok && status == A.Dispatched then
              Place(t, pid, id, A.Idle, A.Succeeded, profile, 1) && t.db == A.WithStatus(s.db, id, A.Succeeded)
            else Place(t, pid, id, A.Uncertain(id), status, profile, 1) && t.db == s.db
  {
  }

  lemma SettlingUncertain(s: A.State, pid: nat, id: A.AttemptId, profile: A.Profile, status: A.Status)
    requires Place(s, pid, id, A.Uncertain(id), status, profile, 1) && (status == A.Dispatched || status == A.Unknown)
    ensures var t := A.After(s, A.Settle(pid));
            && Place(t, pid, id, A.Idle, A.Unknown, profile, 1)
            && t.db == if status == A.Dispatched then A.WithStatus(s.db, id, A.Unknown) else s.db
  {
  }

  // ---------------------------------------------------------------- the stages together

  /** From the call on: what the two settlements leave. */
  lemma CalledChain(s3: A.State, s4: A.State, s5: A.State, pid: nat, id: A.AttemptId, profile: A.Profile,
                    answer: Answer, units: seq<A.UnitId>, sent: A.Db, status: A.Status)
    requires id.owner == pid && (status == A.Dispatched || status == A.Unknown)
    requires Place(s3, pid, id, A.Calling(id), status, profile, 0) && id in sent.attempts && Beside(pid, sent, s3.db)
    requires Idled(pid, A.After(s3, A.CallProvider(pid, Usable(answer, units))), s4)
    requires Idled(pid, A.After(s4, A.Settle(pid)), s5)
    ensures var end := A.After(s5, A.Settle(pid));
            var earned := A.PcOf(s4, pid) == A.Settling(id, true) && A.In(s4.db, id, A.Dispatched);
            && A.CallsOf(end, id) == 1
            && Called(pid, sent, id, answer, units, Effect(end.db, 1, if earned then answer.proposals else None))
  {
    var ok := Usable(answer, units);
    hide A.After, Beside, Idled, Usable, A.PcOf, A.CallsOf;
    Calling(s3, pid, id, profile, A.Calling(id), status, ok);
    var t3 := A.After(s3, A.CallProvider(pid, ok));
    var at4 := Later(pid, t3, s4, id, A.Settling(id, ok), status, profile, 1);
    BesideTransitive(pid, sent, s3.db, s4.db);
    SettlingCalled(s4, pid, id, profile, at4, ok);
    var t4 := A.After(s4, A.Settle(pid));
    if ok && at4 == A.Dispatched {
      var at5 := Later(pid, t4, s5, id, A.Idle, A.Succeeded, profile, 1);
      IdleDoesNothing(s5, A.Settle(pid));
    } else {
      var at5 := Later(pid, t4, s5, id, A.Uncertain(id), at4, profile, 1);
      BesideTransitive(pid, sent, s4.db, s5.db);
      SettlingUncertain(s5, pid, id, profile, at5);
      BesideNothing(pid, A.After(s5, A.Settle(pid)).db);
    }
  }

  /** With the reservation made: rejected, or called. */
  lemma HeldChain(s: seq<A.State>, t: seq<A.State>, pid: nat, key: A.Key, profile: A.Profile, id: A.AttemptId,
                  answer: Answer, units: seq<A.UnitId>)
    requires Chain(s, t, pid, key, profile, id, answer, units)
    requires Place(t[0], pid, id, A.Holding(id, profile), A.Reserved, profile, 0)
    ensures Held(pid, t[0].db, id, profile, answer, units,
                 Effect(t[5].db, A.CallsOf(t[5], id), EarnedBy(s, pid, id, answer)))
  {
    hide A.After, Beside, Idled, Usable, A.PcOf, A.CallsOf, A.In, Called, Rejected;
    var held := Later(pid, t[0], s[1], id, A.Holding(id, profile), A.Reserved, profile, 0);
    Preparing(s[1], pid, id, profile, answer.egressOk);
    var pc := if answer.egressOk then A.Holding(id, profile) else A.Rejecting(id);
    held := Later(pid, t[1], s[2], id, pc, A.Reserved, profile, 0);
    BesideTransitive(pid, t[0].db, t[1].db, s[2].db);
    Dispatched(s[2], pid, id, profile, pc);
    if answer.egressOk && profile !in s[2].db.revoked {
      var status := Later(pid, t[2], s[3], id, A.Calling(id), A.Dispatched, profile, 0);
      CalledChain(s[3], s[4], s[5], pid, id, profile, answer, units, t[2].db, status);
    } else {
      RejectedChain(s, t, pid, key, profile, id, answer, units);
    }
  }

  lemma RejectedChain(s: seq<A.State>, t: seq<A.State>, pid: nat, key: A.Key, profile: A.Profile, id: A.AttemptId,
                      answer: Answer, units: seq<A.UnitId>)
    requires Chain(s, t, pid, key, profile, id, answer, units)
    requires Place(t[2], pid, id, A.Rejecting(id), A.Reserved, profile, 0)
    ensures A.CallsOf(t[5], id) == 0 && EarnedBy(s, pid, id, answer) == None
    ensures Rejected(pid, t[2].db, id, Effect(t[5].db, 0, None))
  {
    hide A.After, Beside, Idled, Usable;
    var held := Later(pid, t[2], s[3], id, A.Rejecting(id), A.Reserved, profile, 0);
    Calling(s[3], pid, id, profile, A.Rejecting(id), A.Reserved, Usable(answer, units));
    held := Later(pid, t[3], s[4], id, A.Rejecting(id), A.Reserved, profile, 0);
    BesideTransitive(pid, t[2].db, t[3].db, s[4].db);
    SettlingRejected(s[4], pid, id, profile);
    held := Later(pid, t[4], s[5], id, A.Idle, A.Failed, profile, 0);
    IdleDoesNothing(s[5], A.Settle(pid));
  }

  lemma ChainRefines(s: seq<A.State>, t: seq<A.State>, pid: nat, key: A.Key, profile: A.Profile, id: A.AttemptId,
                     answer: Answer, units: seq<A.UnitId>)
    requires Chain(s, t, pid, key, profile, id, answer, units) && answer.healthy
    ensures Refines(s, t, pid, key, profile, id, answer, units)
  {
    if A.Taken(s[0].db, key) {
      TakenChain(s, t, pid, key, profile, id, answer, units);
    } else {
      Reserving(s[0], pid, key, profile, id);
      hide A.After, A.Taken, Held, Beside, Place, Idled;
      HeldChain(s, t, pid, key, profile, id, answer, units);
      BesideNothing(pid, s[0].db);
      assert FromReserve(pid, s[0].db, key, profile, answer, units,
                         Effect(t[5].db, A.CallsOf(t[5], id), EarnedBy(s, pid, id, answer)));
    }
  }

  /** The states before the six steps. */
  ghost function Before(steps: seq<A.Step>, at: seq<nat>): seq<A.State>
    requires |at| == 6 && forall i :: 0 <= i < 6 ==> at[i] < |steps|
  {
    seq(6, i requires 0 <= i < 6 => A.Run(steps, at[i]))
  }

  /** The states right after them. */
  ghost function Behind(steps: seq<A.Step>, at: seq<nat>): seq<A.State>
    requires |at| == 6 && forall i :: 0 <= i < 6 ==> at[i] < |steps|
  {
    seq(6, i requires 0 <= i < 6 => A.After(A.Run(steps, at[i]), steps[at[i]]))
  }

  /** In every legal run, whatever the others do between its steps, a dispatch has an effect that
      `Dispatches` allows: the same store, the same number of calls, and proposals exactly if its own
      settlement turned the attempt into a succeeded one. */
  lemma DispatchIsOneRun(steps: seq<A.Step>, at: seq<nat>, pid: nat, key: A.Key, profile: A.Profile, id: A.AttemptId,
                         answer: Answer, units: seq<A.UnitId>)
    requires Dispatching(steps, at, pid, key, profile, id, answer, units)
    ensures Refines(Before(steps, at), Behind(steps, at), pid, key, profile, id, answer, units)
  {
    DispatchIsChain(steps, at, pid, key, profile, id, answer, units);
    ChainRefines(Before(steps, at), Behind(steps, at), pid, key, profile, id, answer, units);
  }

  lemma DispatchIsChain(steps: seq<A.Step>, at: seq<nat>, pid: nat, key: A.Key, profile: A.Profile, id: A.AttemptId,
                        answer: Answer, units: seq<A.UnitId>)
    requires Dispatching(steps, at, pid, key, profile, id, answer, units)
    ensures Chain(Before(steps, at), Behind(steps, at), pid, key, profile, id, answer, units)
  {
    hide A.Legal, A.Run, A.After, Idled, A.CallsOf, A.Actor, A.PcOf;
    var (s, t) := (Before(steps, at), Behind(steps, at));
    FreshName(steps, at[0], pid, key, profile, id);
    forall i | 0 <= i < 5 ensures Idled(pid, t[i], s[i + 1]) {
      LegalPrefix(steps, at[i + 1]);
      IdlesBetween(steps, at[i], at[i + 1], pid);
    }
  }

  lemma LegalPrefix(steps: seq<A.Step>, n: nat)
    requires n <= |steps| && A.Legal(steps, |steps|)
    ensures A.Legal(steps, n)
  {
    hide A.Run, A.Fresh;
  }

  lemma FreshName(steps: seq<A.Step>, k: nat, pid: nat, key: A.Key, profile: A.Profile, id: A.AttemptId)
    requires k < |steps| && A.Legal(steps, |steps|) && steps[k] == A.StartReserve(pid, key, profile, id)
    ensures id.owner == pid && id !in A.Run(steps, k).db.attempts && A.CallsOf(A.Run(steps, k), id) == 0
  {
    assert A.Fresh(A.Run(steps, k), steps[k]);
    LegalPrefix(steps, k);
    hide A.Run, A.Legal;
    A.RunKeepsInv(steps, k);
    assert A.CallsFit(A.Run(steps, k), id);
  }

  // ---------------------------------------------------------------- what exactly a dispatch leaves

  /** Somebody opened the store, which turns a dispatched attempt into an unknown one. */
  predicate Restarted(steps: seq<A.Step>, m: nat, n: nat)
    requires n <= |steps|
  {
    exists k :: m <= k < n && steps[k].Open?
  }

  lemma StepLeavesSent(s: A.State, step: A.Step, pid: nat, id: A.AttemptId, was: A.Status)
    requires A.Owning(s) && A.Fresh(s, step) && A.Actor(step) != Some(pid) && id.owner == pid
    requires A.In(s.db, id, was) && (was == A.Dispatched || was == A.Unknown)
    ensures A.In(A.After(s, step).db, id, if step.Open? then A.Unknown else was)
  {
  }

  /** While only others act, a dispatched attempt of this process becomes unknown exactly by a restart. */
  lemma {:induction false} SentUntilRestart(steps: seq<A.Step>, m: nat, n: nat, pid: nat, id: A.AttemptId,
                                            was: A.Status)
    requires m <= n <= |steps| && A.Legal(steps, n) && forall k :: m <= k < n ==> A.Actor(steps[k]) != Some(pid)
    requires id.owner == pid && A.In(A.Run(steps, m).db, id, was) && (was == A.Dispatched || was == A.Unknown)
    ensures A.In(A.Run(steps, n).db, id, if Restarted(steps, m, n) then A.Unknown else was)
    decreases n
  {
    hide A.After, A.Fresh, A.Inv, A.Actor, A.In;
    if m < n {
      var before := A.Run(steps, n - 1);
      assert A.Run(steps, n) == A.After(before, steps[n - 1]) && A.Fresh(before, steps[n - 1]);
      assert A.Legal(steps, n - 1);
      hide A.Run, A.Legal;
      SentUntilRestart(steps, m, n - 1, pid, id, was);
      assert A.Owning(before) by {
        A.RunKeepsInv(steps, n - 1);
        InvOwns(before);
      }
      StepLeavesSent(before, steps[n - 1], pid, id, if Restarted(steps, m, n - 1) then A.Unknown else was);
    }
  }

  lemma InvOwns(s: A.State)
    requires A.Inv(s)
    ensures A.Owning(s)
  {
  }

  /** Up to the dispatch step: the attempt was sent exactly if egress was admitted and the profile not
      revoked by then. */
  lemma SentChain(s: seq<A.State>, t: seq<A.State>, pid: nat, key: A.Key, profile: A.Profile, id: A.AttemptId,
                  answer: Answer, units: seq<A.UnitId>)
    requires Chain(s, t, pid, key, profile, id, answer, units) && !A.Taken(s[0].db, key)
    ensures if answer.egressOk && profile !in s[2].db.revoked
            then Place(t[2], pid, id, A.Calling(id), A.Dispatched, profile, 0)
            else Place(t[2], pid, id, A.Rejecting(id), A.Reserved, profile, 0)
  {
    Reserving(s[0], pid, key, profile, id);
    hide A.After, Beside, Idled, Usable, A.PcOf, A.CallsOf, A.In, A.Taken;
    var held := Later(pid, t[0], s[1], id, A.Holding(id, profile), A.Reserved, profile, 0);
    Preparing(s[1], pid, id, profile, answer.egressOk);
    var pc := if answer.egressOk then A.Holding(id, profile) else A.Rejecting(id);
    held := Later(pid, t[1], s[2], id, pc, A.Reserved, profile, 0);
    Dispatched(s[2], pid, id, profile, pc);
  }

  /** From the dispatch step on, when the attempt was sent: `at4` is what its settlement finds. */
  lemma SentEnds(s: seq<A.State>, t: seq<A.State>, pid: nat, key: A.Key, profile: A.Profile, id: A.AttemptId,
                 answer: Answer, units: seq<A.UnitId>) returns (at4: A.Status)
    requires Chain(s, t, pid, key, profile, id, answer, units)
    requires Place(t[2], pid, id, A.Calling(id), A.Dispatched, profile, 0)
    ensures A.In(s[4].db, id, at4) && t[3].db == s[3].db
    ensures var earned := Usable(answer, units) && at4 == A.Dispatched;
            && EarnedBy(s, pid, id, answer) == (if earned then answer.proposals else None)
            && Place(t[5], pid, id, A.Idle, if earned then A.Succeeded else A.Unknown, profile, 1)
  {
    var ok := Usable(answer, units);
    hide A.After, Beside, Idled, Usable, A.CallsOf;
    var at3 := Later(pid, t[2], s[3], id, A.Calling(id), A.Dispatched, profile, 0);
    Calling(s[3], pid, id, profile, A.Calling(id), at3, ok);
    at4 := Later(pid, t[3], s[4], id, A.Settling(id, ok), at3, profile, 1);
    SettlingCalled(s[4], pid, id, profile, at4, ok);
    if ok && at4 == A.Dispatched {
      var at5 := Later(pid, t[4], s[5], id, A.Idle, A.Succeeded, profile, 1);
      IdleDoesNothing(s[5], A.Settle(pid));
    } else {
      var at5 := Later(pid, t[4], s[5], id, A.Uncertain(id), at4, profile, 1);
      SettlingUncertain(s[5], pid, id, profile, at5);
    }
  }

  lemma RejectedEnds(s: seq<A.State>, t: seq<A.State>, pid: nat, key: A.Key, profile: A.Profile, id: A.AttemptId,
                     answer: Answer, units: seq<A.UnitId>)
    requires Chain(s, t, pid, key, profile, id, answer, units)
    requires Place(t[2], pid, id, A.Rejecting(id), A.Reserved, profile, 0)
    ensures EarnedBy(s, pid, id, answer) == None && Place(t[5], pid, id, A.Idle, A.Failed, profile, 0)
  {
    hide A.After, Beside, Idled, Usable;
    var held := Later(pid, t[2], s[3], id, A.Rejecting(id), A.Reserved, profile, 0);
    Calling(s[3], pid, id, profile, A.Rejecting(id), A.Reserved, Usable(answer, units));
    held := Later(pid, t[3], s[4], id, A.Rejecting(id), A.Reserved, profile, 0);
    SettlingRejected(s[4], pid, id, profile);
    held := Later(pid, t[4], s[5], id, A.Idle, A.Failed, profile, 0);
    IdleDoesNothing(s[5], A.Settle(pid));
  }

  /** The provider is asked exactly if the key was free, egress admitted, and the profile not revoked
      before the dispatch step ... */
  predicate Sends(steps: seq<A.Step>, at: seq<nat>, key: A.Key, profile: A.Profile, answer: Answer)
    requires |at| == 6 && forall i :: 0 <= i < 6 ==> at[i] < |steps|
  {
    !A.Taken(A.Run(steps, at[0]).db, key) && answer.egressOk && profile !in A.Run(steps, at[2]).db.revoked
  }

  /** ... and in every legal run a dispatch returns a receipt exactly if it asked, the answer is usable,
      and nobody restarted the store before the settlement.  A free key leaves one attempt: failed if
      the provider was not asked, succeeded with a receipt, unknown otherwise. */
  lemma DispatchExactly(steps: seq<A.Step>, at: seq<nat>, pid: nat, key: A.Key, profile: A.Profile, id: A.AttemptId,
                        answer: Answer, units: seq<A.UnitId>)
    requires Dispatching(steps, at, pid, key, profile, id, answer, units) && !A.Taken(A.Run(steps, at[0]).db, key)
    ensures var (end, earned) := (A.After(A.Run(steps, at[5]), A.Settle(pid)),
                                  EarnedBy(Before(steps, at), pid, id, answer));
            && A.CallsOf(end, id) == (if Sends(steps, at, key, profile, answer) then 1 else 0)
            && (earned.Some? <==> Sends(steps, at, key, profile, answer) && Usable(answer, units)
                                  && !Restarted(steps, at[2], at[4]))
            && (earned.Some? ==> earned == answer.proposals)
            && A.In(end.db, id, if !Sends(steps, at, key, profile, answer) then A.Failed
                                else if earned.Some? then A.Succeeded else A.Unknown)
  {
    hide A.Legal, A.Run, A.After, Idled, A.CallsOf, A.Actor, A.PcOf, A.Taken, A.In, Restarted, Usable;
    var (s, t) := (Before(steps, at), Behind(steps, at));
    DispatchIsChain(steps, at, pid, key, profile, id, answer, units);
    SentChain(s, t, pid, key, profile, id, answer, units);
    if Sends(steps, at, key, profile, answer) {
      var at4 := SentEnds(s, t, pid, key, profile, id, answer, units);
      SettlementFinds(steps, at, pid, key, profile, id, answer, units);
      OneStatus(s[4].db, id, at4, if Restarted(steps, at[2], at[4]) then A.Unknown else A.Dispatched);
      if Usable(answer, units) {
        UsableHasProposals(answer, units);
      }
    } else {
      RejectedEnds(s, t, pid, key, profile, id, answer, units);
    }
  }

  lemma OneStatus(db: A.Db, id: A.AttemptId, a: A.Status, b: A.Status)
    requires A.In(db, id, a) && A.In(db, id, b)
    ensures a == b
  {
  }

  lemma UsableHasProposals(answer: Answer, units: seq<A.UnitId>)
    requires Usable(answer, units)
    ensures answer.proposals.Some?
  {
  }

  /** The sent attempt is still dispatched at its settlement unless somebody restarted the store. */
  lemma SettlementFinds(steps: seq<A.Step>, at: seq<nat>, pid: nat, key: A.Key, profile: A.Profile, id: A.AttemptId,
                        answer: Answer, units: seq<A.UnitId>)
    requires Dispatching(steps, at, pid, key, profile, id, answer, units) && id.owner == pid
    requires A.In(A.After(A.Run(steps, at[2]), steps[at[2]]).db, id, A.Dispatched)
    ensures A.In(A.Run(steps, at[4]).db, id, if Restarted(steps, at[2], at[4]) then A.Unknown else A.Dispatched)
  {
    hide A.Run, A.After, A.In, A.Actor;
    LegalPrefix(steps, at[3]);
    LegalPrefix(steps, at[4]);
    hide A.Legal;
    FindsAfterCall(steps, at[2], at[3], at[4], pid, id);
  }

  lemma FindsAfterCall(steps: seq<A.Step>, a: nat, b: nat, c: nat, pid: nat, id: A.AttemptId)
    requires a < b < c <= |steps| && A.Legal(steps, b) && A.Legal(steps, c) && id.owner == pid
    requires !steps[a].Open? && steps[b].CallProvider?
    requires forall k :: a < k < b || b < k < c ==> A.Actor(steps[k]) != Some(pid)
    requires A.In(A.After(A.Run(steps, a), steps[a]).db, id, A.Dispatched)
    ensures A.In(A.Run(steps, c).db, id, if Restarted(steps, a, c) then A.Unknown else A.Dispatched)
  {
    hide A.After, A.In, A.Actor, A.Legal, Restarted;
    assert A.Run(steps, a + 1) == A.After(A.Run(steps, a), steps[a]);
    assert A.Run(steps, b + 1) == A.After(A.Run(steps, b), steps[b]);
    hide A.Run;
    CallingKeepsDb(A.Run(steps, b), steps[b]);
    SentUntilRestart(steps, a + 1, b, pid, id, A.Dispatched);
    SentUntilRestart(steps, b + 1, c, pid, id, if Restarted(steps, a + 1, b) then A.Unknown else A.Dispatched);
    RestartedParts(steps, a, b, c);
  }

  lemma CallingKeepsDb(s: A.State, step: A.Step)
    requires step.CallProvider?
    ensures A.After(s, step).db == s.db
  {
  }

  lemma RestartedParts(steps: seq<A.Step>, a: nat, b: nat, c: nat)
    requires a < b < c <= |steps| && !steps[a].Open? && !steps[b].Open?
    ensures Restarted(steps, a, c) <==> Restarted(steps, a + 1, b) || Restarted(steps, b + 1, c)
  {
  }

  // ---------------------------------------------------------------- receipts and the steps that earn them

  /** The process makes a dispatch for this key that returns a receipt. */
  ghost predicate Reads(steps: seq<A.Step>, at: seq<nat>, pid: nat, key: A.Key, profile: A.Profile, id: A.AttemptId,
                        answer: Answer, units: seq<A.UnitId>)
  {
    && Dispatching(steps, at, pid, key, profile, id, answer, units)
    && EarnedBy(Before(steps, at), pid, id, answer).Some?
  }

  /** A receipt stands for the settlement step that turned an attempt of its key into a succeeded one. */
  lemma ReceiptIsEarned(steps: seq<A.Step>, at: seq<nat>, pid: nat, key: A.Key, profile: A.Profile, id: A.AttemptId,
                        answer: Answer, units: seq<A.UnitId>)
    requires Reads(steps, at, pid, key, profile, id, answer, units)
    ensures A.Earns(A.Run(steps, at[4]), steps[at[4]], key)
  {
    LegalPrefix(steps, at[4]);
    var s := A.Run(steps, at[4]);
    assert A.PcOf(s, pid) == A.Settling(id, true) && A.In(s.db, id, A.Dispatched);
    assert s.db.attempts[id].key == key by {
      AttemptKeepsKey(steps, at, pid, key, profile, id, answer, units);
    }
    hide A.Run, A.Legal;
  }

  lemma AttemptKeepsKey(steps: seq<A.Step>, at: seq<nat>, pid: nat, key: A.Key, profile: A.Profile, id: A.AttemptId,
                        answer: Answer, units: seq<A.UnitId>)
    requires Dispatching(steps, at, pid, key, profile, id, answer, units) && id in A.Run(steps, at[4]).db.attempts
    ensures A.Run(steps, at[4]).db.attempts[id].key == key
  {
    hide A.Legal, A.After, A.CallsOf, A.PcOf, A.Actor, EarnedBy, Dispatches, A.Fresh;
    var (s, t) := (Before(steps, at), Behind(steps, at));
    DispatchIsOneRun(steps, at, pid, key, profile, id, answer, units);
    FreshName(steps, at[0], pid, key, profile, id);
    assert t[5] == A.Run(steps, at[5] + 1);
    hide A.Run;
    LegalPrefix(steps, at[5] + 1);
    LegalPrefix(steps, at[0]);
    A.RunKeepsInv(steps, at[0]);
    A.RunEvolves(steps, at[4], at[5] + 1);
    var d := Effect(t[5].db, A.CallsOf(t[5], id), EarnedBy(s, pid, id, answer));
    NewKey(pid, s[0].db, s[4].db, key, profile, id, answer, units, d);
  }

  lemma NewKey(pid: nat, before: A.Db, db: A.Db, key: A.Key, profile: A.Profile, id: A.AttemptId, answer: Answer,
               units: seq<A.UnitId>, d: Effect)
    requires A.KeysDistinct(before) && Dispatches(pid, before, key, profile, answer, units, d)
    requires A.Evolves(db, d.db) && id.owner == pid && id !in before.attempts && id in db.attempts
    ensures db.attempts[id].key == key
  {
    DispatchSettles(pid, before, key, profile, answer, units, d);
    assert A.Successor(db.attempts[id], d.db.attempts[id]);
    hide Dispatches;
  }

  /** So of two dispatches for one key, however they interleave, at most one returns a receipt. */
  lemma OneReceiptPerKey(steps: seq<A.Step>, key: A.Key,
                         at: seq<nat>, p: nat, pf: A.Profile, x: A.AttemptId, answer: Answer, units: seq<A.UnitId>,
                         at': seq<nat>, q: nat, qf: A.Profile, y: A.AttemptId, answer': Answer, units': seq<A.UnitId>)
    requires Reads(steps, at, p, key, pf, x, answer, units) && Reads(steps, at', q, key, qf, y, answer', units')
    ensures p == q && at[4] == at'[4]
  {
    ReceiptIsEarned(steps, at, p, key, pf, x, answer, units);
    ReceiptIsEarned(steps, at', q, key, qf, y, answer', units');
    var (j, k) := (if at[4] <= at'[4] then at[4] else at'[4], if at[4] <= at'[4] then at'[4] else at[4]);
    LegalPrefix(steps, k + 1);
    hide A.Run, A.Legal, A.Earns, Before, EarnedBy, A.Actor;
    A.EarnedOnce(steps, j, k, key);
  }

  /** The process reads this key at some places of the run. */
  ghost predicate HasRead(steps: seq<A.Step>, pid: nat, key: A.Key) {
    exists at, profile, id, answer, units :: Reads(steps, at, pid, key, profile, id, answer, units)
  }

  lemma ReadOnce(steps: seq<A.Step>, p: nat, q: nat, key: A.Key)
    requires HasRead(steps, p, key) && HasRead(steps, q, key)
    ensures p == q
  {
    var at, pf, x, answer, units :| Reads(steps, at, p, key, pf, x, answer, units);
    var at', qf, y, answer', units' :| Reads(steps, at', q, key, qf, y, answer', units');
    hide Reads;
    OneReceiptPerKey(steps, key, at, p, pf, x, answer, units, at', q, qf, y, answer', units');
  }

  /** A consensus that succeeds has read every unit three times. */
  ghost predicate ReadsAll(steps: seq<A.Step>, pid: nat, run: A.RunId, selection: Digest, ids: seq<A.UnitId>) {
    forall reading, i :: 1 <= reading <= 3 && 0 <= i < |ids| ==>
      HasRead(steps, pid, A.Key(run, reading, selection, ids[i]))
  }

  /** Two consensus runs for one run and selection, interleaved step by step in any way, do not both
      get all their receipts. */
  lemma InterleavedConsensus(steps: seq<A.Step>, p: nat, q: nat, run: A.RunId, selection: Digest, ids: seq<A.UnitId>)
    requires ids != [] && ReadsAll(steps, p, run, selection, ids) && ReadsAll(steps, q, run, selection, ids)
    ensures p == q
  {
    hide HasRead;
    ReadOnce(steps, p, q, A.Key(run, 1, selection, ids[0]));
  }
}
