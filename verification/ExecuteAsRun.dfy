/** `execute` as one of the runs in `ExecutorRuns`: left alone, a process takes the same transactions
    and makes the same calls, so what holds of every interleaving holds of it. */
module ExecuteAsRun {
  import opened Basics
  import CE = CharterExecutor
  import ER = ExecutorRuns
  import G = ResponseGuard
  import RS = RequestStore

  /** What one process sees of the system and of itself. */
  datatype View = View(db: RS.Db, pc: ER.Pc, mints: nat, sends: nat)

  function ViewOf(s: ER.System, pid: ER.Pid): View
    requires pid in s.procs
  {
    var id := s.procs[pid].spec.requestId;
    View(s.db, s.procs[pid].pc, s.mints[id], s.sends[id])
  }

  function Local(spec: RS.RequestSpec, approval: RS.Approval, v: View, action: ER.Action): View {
    var p := ER.Proc(spec, approval, v.pc);
    View(RS.Commit(v.db, ER.TxnOf(p, action)), ER.NextPc(v.db, p, action),
         v.mints + ER.MintsBy(p, action), v.sends + ER.SendsBy(p, action))
  }

  predicate Runs(s: ER.System, pid: ER.Pid, spec: RS.RequestSpec, approval: RS.Approval) {
    pid in s.procs && s.procs[pid].spec == spec && s.procs[pid].approval == approval
  }

  lemma ActIsLocal(s: ER.System, pid: ER.Pid, spec: RS.RequestSpec, approval: RS.Approval, action: ER.Action)
    requires Runs(s, pid, spec, approval)
    ensures Runs(ER.Apply(s, ER.Act(pid, action)), pid, spec, approval)
    ensures ViewOf(ER.Apply(s, ER.Act(pid, action)), pid) == Local(spec, approval, ViewOf(s, pid), action)
  {
    hide RS.Commit, ER.TxnOf, ER.NextPc, ER.MintsBy, ER.SendsBy;
  }

  function LocalRun(spec: RS.RequestSpec, approval: RS.Approval, v: View, actions: seq<ER.Action>): View
    decreases |actions|
  {
    if actions == [] then v else LocalRun(spec, approval, Local(spec, approval, v, actions[0]), actions[1..])
  }

  function Acts(pid: ER.Pid, actions: seq<ER.Action>): (r: seq<ER.Step>)
    ensures |r| == |actions|
  {
    if actions == [] then [] else [ER.Act(pid, actions[0])] + Acts(pid, actions[1..])
  }

  lemma {:induction false} RunIsLocal(s: ER.System, pid: ER.Pid, spec: RS.RequestSpec, approval: RS.Approval,
                                      actions: seq<ER.Action>)
    requires Runs(s, pid, spec, approval)
    ensures Runs(ER.Run(s, Acts(pid, actions)), pid, spec, approval)
    ensures ViewOf(ER.Run(s, Acts(pid, actions)), pid) == LocalRun(spec, approval, ViewOf(s, pid), actions)
    decreases |actions|
  {
    if actions != [] {
      hide ER.Apply, Local;
      ActIsLocal(s, pid, spec, approval, actions[0]);
      RunIsLocal(ER.Apply(s, ER.Act(pid, actions[0])), pid, spec, approval, actions[1..]);
      assert Acts(pid, actions)[1..] == Acts(pid, actions[1..]);
    }
  }

  // ---------------------------------------------------------------- the actions of one execution

  /** The reply the target gives within the cap, as its receipt digest. */
  function Reply(w: CE.World): Option<Digest> {
    if w.response.Observation? && G.SizeOf(w.response.body) <= G.RESPONSE_CAP then Some(w.receipt) else None
  }

  /** Every action in order; those that do not fit where the process stands do nothing. */
  function Front(w: CE.World): seq<ER.Action> {
    [ER.Authorize(w.verified, w.now), ER.Dispatch]
  }

  function Back(w: CE.World): seq<ER.Action> {
    [ER.Mint(w.mintOk), ER.Request(Reply(w)), ER.RecordResponse, ER.SettleSelect, ER.SettleUpdate, ER.SettleInsert]
  }

  lemma {:induction false} LocalConcat(spec: RS.RequestSpec, approval: RS.Approval, v: View, a: seq<ER.Action>,
                                       b: seq<ER.Action>)
    ensures LocalRun(spec, approval, v, a + b) == LocalRun(spec, approval, LocalRun(spec, approval, v, a), b)
    decreases |a|
  {
    if a == [] {
      assert a + b == b;
    } else {
      assert (a + b)[1..] == a[1..] + b;
      LocalConcat(spec, approval, Local(spec, approval, v, a[0]), a[1..], b);
    }
  }

  lemma LocalStep(spec: RS.RequestSpec, approval: RS.Approval, v: View, a: ER.Action, rest: seq<ER.Action>)
    ensures LocalRun(spec, approval, v, [a] + rest) == LocalRun(spec, approval, Local(spec, approval, v, a), rest)
  {
    assert ([a] + rest)[1..] == rest;
  }

  /** Once the process is done, nothing it does matters. */
  lemma {:induction false} DoneStays(spec: RS.RequestSpec, approval: RS.Approval, v: View, actions: seq<ER.Action>)
    requires v.pc == ER.Done
    ensures LocalRun(spec, approval, v, actions) == v
    decreases |actions|
  {
    if actions != [] {
      assert Local(spec, approval, v, actions[0]) == v;
      DoneStays(spec, approval, v, actions[1..]);
    }
  }

  /** The unguarded three-statement settlement, undisturbed, is the move of one transaction. */
  lemma SettlesUndisturbed(spec: RS.RequestSpec, approval: RS.Approval, v: View, to: RS.RequestState)
    requires v.pc == ER.Settling(to) && RS.CanMove(v.db, spec.requestId, to)
    ensures LocalRun(spec, approval, v, [ER.SettleSelect, ER.SettleUpdate, ER.SettleInsert])
         == v.(db := RS.Moved(v.db, spec.requestId, to), pc := ER.Done)
  {
    var (a, b, c) := (ER.SettleSelect, ER.SettleUpdate, ER.SettleInsert);
    var v1 := Local(spec, approval, v, a);
    var v2 := Local(spec, approval, v1, b);
    assert [a, b, c] == [a] + ([b] + ([c] + []));
    LocalStep(spec, approval, v, a, [b] + ([c] + []));
    LocalStep(spec, approval, v1, b, [c] + []);
    LocalStep(spec, approval, v2, c, []);
  }

  /** From a committed dispatch on, the actions do what `Called` says. */
  lemma BackIsCalled(spec: RS.RequestSpec, approval: RS.Approval, v: View, w: CE.World)
    requires v.pc == ER.Dispatching && RS.InState(v.db, spec.requestId, RS.Dispatched)
    ensures var e := CE.Called(v.db, spec, w);
            LocalRun(spec, approval, v, Back(w)) == View(e.db, ER.Done, v.mints + e.mints, v.sends + e.requests)
  {
    BackSplits(spec, approval, v, w);
    hide LocalRun, Back, RS.Moved, CE.Called, AfterReply, RS.CanMove;
    var v3 := AfterReply(spec, approval, v, w);
    if !w.mintOk {
      NoToken(spec, approval, v, w);
      SettlesUndisturbed(spec, approval, v3, RS.Terminal);
    } else if Reply(w).None? {
      NoReply(spec, approval, v, w);
      SettlesUndisturbed(spec, approval, v3, RS.Unknown);
    } else {
      Replied(spec, approval, v, w);
      DoneStays(spec, approval, v3, [ER.SettleSelect, ER.SettleUpdate, ER.SettleInsert]);
    }
  }

  lemma BackSplits(spec: RS.RequestSpec, approval: RS.Approval, v: View, w: CE.World)
    ensures LocalRun(spec, approval, v, Back(w))
         == LocalRun(spec, approval, AfterReply(spec, approval, v, w),
                     [ER.SettleSelect, ER.SettleUpdate, ER.SettleInsert])
  {
    var settle := [ER.SettleSelect, ER.SettleUpdate, ER.SettleInsert];
    var (m, q, r) := (ER.Mint(w.mintOk), ER.Request(Reply(w)), ER.RecordResponse);
    assert Back(w) == [m] + ([q] + ([r] + settle));
    hide LocalRun, Back, Local, Reply;
    var v1 := Local(spec, approval, v, m);
    LocalStep(spec, approval, v, m, [q] + ([r] + settle));
    LocalStep(spec, approval, v1, q, [r] + settle);
    LocalStep(spec, approval, Local(spec, approval, v1, q), r, settle);
  }

  /** Where the process stands after the token, the target call and the recording of the response. */
  function AfterReply(spec: RS.RequestSpec, approval: RS.Approval, v: View, w: CE.World): View {
    Local(spec, approval, Local(spec, approval, Local(spec, approval, v, ER.Mint(w.mintOk)), ER.Request(Reply(w))),
          ER.RecordResponse)
  }

  lemma NoToken(spec: RS.RequestSpec, approval: RS.Approval, v: View, w: CE.World)
    requires v.pc == ER.Dispatching && RS.InState(v.db, spec.requestId, RS.Dispatched) && !w.mintOk
    ensures AfterReply(spec, approval, v, w) == v.(pc := ER.Settling(RS.Terminal), mints := v.mints + 1)
    ensures RS.CanMove(v.db, spec.requestId, RS.Terminal)
    ensures CE.Called(v.db, spec, w)
         == CE.Ending(RS.Moved(v.db, spec.requestId, RS.Terminal), 1, 0, Some(CE.MintFailed))
  {
    hide RS.Moved;
  }

  lemma NoReply(spec: RS.RequestSpec, approval: RS.Approval, v: View, w: CE.World)
    requires v.pc == ER.Dispatching && RS.InState(v.db, spec.requestId, RS.Dispatched) && w.mintOk && Reply(w).None?
    ensures AfterReply(spec, approval, v, w)
         == v.(pc := ER.Settling(RS.Unknown), mints := v.mints + 1, sends := v.sends + 1)
    ensures RS.CanMove(v.db, spec.requestId, RS.Unknown)
    ensures var e := CE.Called(v.db, spec, w);
            (e.db, e.mints, e.requests) == (RS.Moved(v.db, spec.requestId, RS.Unknown), 1, 1)
  {
    hide RS.Moved;
  }

  lemma Replied(spec: RS.RequestSpec, approval: RS.Approval, v: View, w: CE.World)
    requires v.pc == ER.Dispatching && RS.InState(v.db, spec.requestId, RS.Dispatched) && w.mintOk && Reply(w).Some?
    ensures var e := CE.Called(v.db, spec, w);
            && AfterReply(spec, approval, v, w) == View(e.db, ER.Done, v.mints + 1, v.sends + 1)
            && e.mints == 1 && e.requests == 1
  {
    hide RS.Moved;
  }

  /** The database, the mints and the target calls of `execute` are those of the run in which this
      process acts alone. */
  lemma ExecuteIsOneRun(s: ER.System, pid: ER.Pid, spec: RS.RequestSpec, approval: RS.Approval, w: CE.World)
    requires pid !in s.procs && w.specValid && w.apiKey
    ensures var steps := [ER.Spawn(pid, spec, approval)] + Acts(pid, Front(w) + Back(w));
            var (t, e) := (ER.Run(s, steps), CE.Executed(s.db, spec, approval, w));
            && t.db == e.db
            && t.mints[spec.requestId] == s.mints[spec.requestId] + e.mints
            && t.sends[spec.requestId] == s.sends[spec.requestId] + e.requests
  {
    var first := ER.Apply(s, ER.Spawn(pid, spec, approval));
    var steps := [ER.Spawn(pid, spec, approval)] + Acts(pid, Front(w) + Back(w));
    assert steps[1..] == Acts(pid, Front(w) + Back(w));
    assert ER.Run(s, steps) == ER.Run(first, steps[1..]);
    RunIsLocal(first, pid, spec, approval, Front(w) + Back(w));
    LocalConcat(spec, approval, ViewOf(first, pid), Front(w), Back(w));
    LocalExecute(spec, approval, ViewOf(first, pid), w);
  }

  lemma LocalExecute(spec: RS.RequestSpec, approval: RS.Approval, v: View, w: CE.World)
    requires w.specValid && w.apiKey
    requires v.pc == if RS.InState(v.db, spec.requestId, RS.Observed) then ER.Done else ER.Ready
    ensures var e := CE.Executed(v.db, spec, approval, w);
            var end := LocalRun(spec, approval, LocalRun(spec, approval, v, Front(w)), Back(w));
            end.db == e.db && end.mints == v.mints + e.mints && end.sends == v.sends + e.requests
  {
    hide RS.Authorized, RS.DispatchedUnlessRevoked, CE.Called, Back, RS.Recovered;
    var (a, d) := (ER.Authorize(w.verified, w.now), ER.Dispatch);
    assert Front(w) == [a] + ([d] + []);
    var v1 := Local(spec, approval, v, a);
    var v2 := Local(spec, approval, v1, d);
    LocalStep(spec, approval, v, a, [d] + []);
    LocalStep(spec, approval, v1, d, []);
    assert LocalRun(spec, approval, v, Front(w)) == v2;
    if v2.pc == ER.Done {
      DoneStays(spec, approval, v2, Back(w));
    } else {
      CE.DispatchedRow(v.db, spec, approval, w);
      BackIsCalled(spec, approval, v2, w);
    }
  }
}
