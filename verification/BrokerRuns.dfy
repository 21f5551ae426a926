/** What whole runs of the command queue of `workbench/host_broker.py` promise: which commands are
    queued, who may work on them, and which results they record. */
module BrokerRuns {
  import opened Basics
  import opened HostBroker

  predicate HasStatus(q: Queue, id: CommandId, status: Status) {
    var i := WithId(q, id); i < |q| && q[i].status == status
  }

  /** Only a submission adds a job, at the end; every other step leaves the ids in their places. */
  lemma StepKeepsPlaces(q: Queue, step: Step, id: CommandId)
    requires FreshFor(q, step)
    ensures var (i, after) := (WithId(q, id), After(q, step));
            && |q| <= |after| && (i < |q| ==> WithId(after, id) == i)
            && (i == |q| && WithId(after, id) < |after| ==>
                  WithId(after, id) == |q| && step.Submit? && step.id == id && after[|q|].status == Queued
                  && after[|q|].capability == None)
  {
    var after := After(q, step);
    hide WithId, WithEnvelope, NextQueued;
    if |after| == |q| {
      assert forall k :: 0 <= k < |q| ==> after[k].id == q[k].id;
      SamePlace(q, after, id);
    } else {
      AppendedPlace(q, after[|q|], id);
    }
  }

  // ---------------------------------------------------------------- results

  /** What one step makes of a command. */
  lemma StepRecords(q: Queue, step: Step, id: CommandId)
    requires QueueInv(q) && FreshFor(q, step)
    ensures HasStatus(After(q, step), id, Succeeded) <==>
              HasStatus(q, id, Succeeded) || (HasStatus(q, id, Running) && step == Finish(id, true))
    ensures HasStatus(After(q, step), id, Failed) <==>
              HasStatus(q, id, Failed) || (HasStatus(q, id, Running) && (step == Finish(id, false) || step == Restart))
  {
    StepKeepsPlaces(q, step, id);
    hide WithId, WithEnvelope, NextQueued;
  }

  /** Some step of these finished the running command that way. */
  ghost predicate Met(steps: seq<Step>, n: nat, id: CommandId, step: Step)
    requires n <= |steps|
  {
    exists k :: 0 <= k < n && steps[k] == step && HasStatus(Run(steps, k), id, Running)
  }

  lemma MetStep(steps: seq<Step>, n: nat, id: CommandId, step: Step)
    requires 0 < n <= |steps|
    ensures Met(steps, n, id, step) <==>
              Met(steps, n - 1, id, step) || (steps[n - 1] == step && HasStatus(Run(steps, n - 1), id, Running))
  {
    hide Run, HasStatus;
  }

  lemma LegalStep(steps: seq<Step>, n: nat)
    requires 0 < n <= |steps| && Legal(steps, n)
    ensures Legal(steps, n - 1) && FreshFor(Run(steps, n - 1), steps[n - 1])
    ensures Run(steps, n) == After(Run(steps, n - 1), steps[n - 1])
  {
    hide FreshFor, After;
  }

  lemma NothingMet(steps: seq<Step>, id: CommandId)
    ensures forall status :: !HasStatus(Run(steps, 0), id, status)
    ensures forall step :: !Met(steps, 0, id, step)
  {
  }

  /** In every run a command is succeeded exactly if a success was reported for it while it ran, and
      failed exactly if a failure was, or a restart found it running. */
  lemma {:induction false} ResultsExactly(steps: seq<Step>, n: nat, id: CommandId)
    requires n <= |steps| && Legal(steps, n)
    ensures HasStatus(Run(steps, n), id, Succeeded) <==> Met(steps, n, id, Finish(id, true))
    ensures HasStatus(Run(steps, n), id, Failed) <==>
              Met(steps, n, id, Finish(id, false)) || Met(steps, n, id, Restart)
  {
    if n == 0 {
      NothingMet(steps, id);
    } else {
      LegalStep(steps, n);
      hide *;
      ResultsExactly(steps, n - 1, id);
      RunKeepsInv(steps, n - 1);
      StepRecords(Run(steps, n - 1), steps[n - 1], id);
      MetStep(steps, n, id, Finish(id, true));
      MetStep(steps, n, id, Finish(id, false));
      MetStep(steps, n, id, Restart);
    }
  }

  /** The answer to a report: accepted exactly for a running command, with the status that is then on
      record; an unknown command and one that is not running are told apart. */
  lemma FinishAnswers(q: Queue, id: CommandId, succeeded: bool)
    requires QueueInv(q)
    ensures var (after, answer) := Finished(q, id, succeeded);
            && (answer.Ok? <==> HasStatus(q, id, Running))
            && (answer.Ok? ==> HasStatus(after, id, answer.value) && (answer.value == Succeeded <==> succeeded))
            && (answer == Err(UnknownCommand) <==> WithId(q, id) == |q|)
            && (answer.Err? ==> after == q && (answer.error == NotRunning || answer.error == UnknownCommand))
  {
    assert FreshFor(q, Finish(id, succeeded));
    StepKeepsPlaces(q, Finish(id, succeeded), id);
    hide WithId;
  }

  // ---------------------------------------------------------------- submissions

  /** The answer to a submission: a new envelope is queued under the new id; a known one is answered
      with its command and status to the session that owns it, and refused to every other and to
      everybody if it has no owner; what is not admitted is refused. */
  lemma SubmitAnswers(q: Queue, admitted: bool, e: Envelope, session: Session, id: CommandId)
    requires QueueInv(q) && FreshFor(q, Submit(admitted, e, session, id))
    ensures var (after, answer) := Submitted(q, admitted, e, session, id);
            && (answer == Err(NotAdmitted) <==> !admitted)
            && (answer.Err? ==> after == q && (answer.error == NotAdmitted || answer.error == NotOwner))
            && (admitted && (forall k :: 0 <= k < |q| ==> q[k].envelope != e) ==>
                  answer == Ok((id, Queued)) && after == q + [Job(id, e, session, Queued, None, false)])
            && (forall i :: admitted && 0 <= i < |q| && q[i].envelope == e ==>
                  after == q && answer == if q[i].owner != NoSession && q[i].owner == session
                                          then Ok((q[i].id, q[i].status)) else Err(NotOwner))
  {
    hide WithEnvelope, WithId;
  }

  /** Every job of a run came from an admitted submission of its own envelope, session and id. */
  lemma {:induction false} JobWasSubmitted(steps: seq<Step>, n: nat, i: nat) returns (k: nat)
    requires n <= |steps| && i < |Run(steps, n)|
    ensures var job := Run(steps, n)[i];
            k < n && steps[k] == Submit(true, job.envelope, job.owner, job.id)
  {
    k := n - 1;
    StepEvolves(Run(steps, k), steps[k]);
    if i < |Run(steps, k)| {
      k := JobWasSubmitted(steps, n - 1, i);
    } else {
      hide WithEnvelope, WithId, NextQueued;
    }
  }

  /** And every admitted submission has a job for its envelope from then on. */
  lemma {:induction false} SubmittedHasJob(steps: seq<Step>, k: nat, n: nat)
    requires k < n <= |steps| && steps[k].Submit? && steps[k].admitted
    ensures exists i :: 0 <= i < |Run(steps, n)| && Run(steps, n)[i].envelope == steps[k].envelope
  {
    var e := steps[k].envelope;
    var i := WithEnvelope(Run(steps, k), e);
    hide WithEnvelope;
    assert i < |Run(steps, k + 1)| && Run(steps, k + 1)[i].envelope == e;
    RunEvolves(steps, k + 1, n);
  }

  // ---------------------------------------------------------------- claims and authorizations

  predicate HoldsCapability(q: Queue, id: CommandId, c: Capability) {
    var i := WithId(q, id); i < |q| && q[i].capability == Some(c)
  }

  /** The claim hands out this command with this capability. */
  predicate HandsOut(q: Queue, step: Step, id: CommandId, c: Capability) {
    step == Claim(c) && Claimed(q, c).1 == Some(id)
  }

  /** A queued job has no capability. */
  predicate Uncapable(q: Queue) {
    forall i :: 0 <= i < |q| && q[i].status == Queued ==> q[i].capability == None
  }

  lemma StepKeepsUncapable(q: Queue, step: Step)
    requires Uncapable(q)
    ensures Uncapable(After(q, step))
  {
    hide WithId, WithEnvelope, NextQueued;
  }

  lemma {:induction false} RunKeepsUncapable(steps: seq<Step>, n: nat)
    requires n <= |steps|
    ensures Uncapable(Run(steps, n))
  {
    if n > 0 {
      RunKeepsUncapable(steps, n - 1);
      StepKeepsUncapable(Run(steps, n - 1), steps[n - 1]);
    }
  }

  lemma StepHandsOut(q: Queue, step: Step, id: CommandId, c: Capability)
    requires QueueInv(q) && FreshFor(q, step) && Uncapable(q)
    ensures HoldsCapability(After(q, step), id, c) <==> HoldsCapability(q, id, c) || HandsOut(q, step, id, c)
  {
    StepKeepsPlaces(q, step, id);
    hide WithId, WithEnvelope, NextQueued;
  }

  ghost predicate WasHandedOut(steps: seq<Step>, n: nat, id: CommandId, c: Capability)
    requires n <= |steps|
  {
    exists k :: 0 <= k < n && HandsOut(Run(steps, k), steps[k], id, c)
  }

  lemma HandedOutStep(steps: seq<Step>, n: nat, id: CommandId, c: Capability)
    requires 0 < n <= |steps|
    ensures WasHandedOut(steps, n, id, c) <==>
              WasHandedOut(steps, n - 1, id, c) || HandsOut(Run(steps, n - 1), steps[n - 1], id, c)
  {
    hide Run, HandsOut;
  }

  lemma {:induction false} CapabilityIsHandedOut(steps: seq<Step>, n: nat, id: CommandId, c: Capability)
    requires n <= |steps| && Legal(steps, n)
    ensures HoldsCapability(Run(steps, n), id, c) <==> WasHandedOut(steps, n, id, c)
  {
    if n == 0 {
      NothingHandedOut(steps, id, c);
    } else {
      LegalStep(steps, n);
      hide *;
      CapabilityIsHandedOut(steps, n - 1, id, c);
      RunKeepsInv(steps, n - 1);
      RunKeepsUncapable(steps, n - 1);
      StepHandsOut(Run(steps, n - 1), steps[n - 1], id, c);
      HandedOutStep(steps, n, id, c);
    }
  }

  lemma NothingHandedOut(steps: seq<Step>, id: CommandId, c: Capability)
    ensures !HoldsCapability(Run(steps, 0), id, c) && !WasHandedOut(steps, 0, id, c)
  {
  }

  /** In every run a worker is authorized exactly for a command that still runs, with the capability
      some claim handed out for it, and once. */
  lemma {:induction false} AuthorizesExactly(steps: seq<Step>, n: nat, id: CommandId, c: Capability)
    requires n <= |steps| && Legal(steps, n)
    ensures Authorized(Run(steps, n), id, c).1 <==>
              && HasStatus(Run(steps, n), id, Running) && WasHandedOut(steps, n, id, c)
              && TallyOf(steps, n, id).authorizations == 0
  {
    CapabilityIsHandedOut(steps, n, id, c);
    RunKeepsTally(steps, n, id);
    hide Run, WasHandedOut, TallyOf, WithId;
  }

  /** A claim comes back empty exactly when nothing is queued. */
  lemma ClaimsIfAny(q: Queue, c: Capability)
    ensures Claimed(q, c).1.None? <==> forall i :: 0 <= i < |q| ==> q[i].status != Queued
    ensures Claimed(q, c).1.None? ==> Claimed(q, c).0 == q
  {
    hide NextQueued;
  }
}
