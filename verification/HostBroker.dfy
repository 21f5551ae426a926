/** The command queue of `workbench/host_broker.py`: one abstract first-in first-out machine, and the
    two implementations that must refine it, dictionaries in memory and a SQLite table with caches. */
module HostBroker {
  import opened Basics

  datatype CommandId = CommandId(token: nat)

  /** The envelope fields the idempotency key digests; digests are injective. */
  datatype Envelope = Envelope(command: string, profile: string, pair: Digest, config: Digest,
                      selection: Option<Digest>)

  /** The owner of a command; rows of an older schema have none. */
  datatype Session = NoSession | Session(token: nat)

  datatype Capability = Capability(token: nat)

  datatype Status = Queued | Running | Succeeded | Failed

  datatype Job = Job(id: CommandId, envelope: Envelope, owner: Session, status: Status,
                     capability: Option<Capability>, consumed: bool)

  datatype Result<T> = Ok(value: T) | Err(error: Error)

  datatype Error = NotAdmitted | NotOwner | UnknownCommand | NotRunning | StorageFailed

  type Queue = seq<Job>

  // ---------------------------------------------------------------- the abstract machine

  /** The place of the first job with this envelope, or the length; and so on. */
  function WithEnvelope(q: Queue, envelope: Envelope): (r: nat)
    ensures r <= |q| && (r < |q| ==> q[r].envelope == envelope) && forall k :: 0 <= k < r ==> q[k].envelope != envelope
  {
    if q == [] then 0 else
    var r := WithEnvelope(q[..|q| - 1], envelope);
    if r < |q| - 1 || q[|q| - 1].envelope == envelope then r else |q|
  }

  function WithId(q: Queue, id: CommandId): (r: nat)
    ensures r <= |q| && (r < |q| ==> q[r].id == id) && forall k :: 0 <= k < r ==> q[k].id != id
  {
    if q == [] then 0 else
    var r := WithId(q[..|q| - 1], id);
    if r < |q| - 1 || q[|q| - 1].id == id then r else |q|
  }

  function NextQueued(q: Queue): (r: nat)
    ensures r <= |q| && (r < |q| ==> q[r].status == Queued) && forall k :: 0 <= k < r ==> q[k].status != Queued
  {
    if q == [] then 0 else
    var r := NextQueued(q[..|q| - 1]);
    if r < |q| - 1 || q[|q| - 1].status == Queued then r else |q|
  }

  function NewJob(id: CommandId, envelope: Envelope, session: Session): Job {
    Job(id, envelope, session, Queued, None, false)
  }

  function StatusOf(q: Queue, id: CommandId): Result<Status> {
    var i := WithId(q, id);
    if i < |q| then Ok(q[i].status) else Err(UnknownCommand)
  }

  predicate Owns(session: Session, owner: Session) {
    owner != NoSession && owner == session
  }

  function Submitted(q: Queue, admitted: bool, envelope: Envelope, session: Session, id: CommandId)
    : (Queue, Result<(CommandId, Status)>)
  {
    var i := WithEnvelope(q, envelope);
    if !admitted then (q, Err(NotAdmitted))
    else if i == |q| then (q + [NewJob(id, envelope, session)], Ok((id, Queued)))
    else if !Owns(session, q[i].owner) then (q, Err(NotOwner))
    else (q, Ok((q[i].id, q[i].status)))
  }

  function Claimed(q: Queue, capability: Capability): (Queue, Option<CommandId>) {
    var i := NextQueued(q);
    if i == |q| then (q, None)
    else (q[i := q[i].(status := Running, capability := Some(capability), consumed := false)], Some(q[i].id))
  }

  function Authorized(q: Queue, id: CommandId, capability: Capability): (Queue, bool) {
    var i := WithId(q, id);
    if i < |q| && q[i].status == Running && !q[i].consumed && q[i].capability == Some(capability)
    then (q[i := q[i].(consumed := true)], true) else (q, false)
  }

  function Finished(q: Queue, id: CommandId, succeeded: bool): (Queue, Result<Status>) {
    var i := WithId(q, id);
    if i == |q| then (q, Err(UnknownCommand))
    else if q[i].status != Running then (q, Err(NotRunning))
    else var terminal := if succeeded then Succeeded else Failed; (q[i := q[i].(status := terminal)], Ok(terminal))
  }

  /** A restart that recovers: an uncertain worker outcome is failed, never retried. */
  function Recovered(q: Queue): Queue {
    seq(|q|, i requires 0 <= i < |q| => if q[i].status == Running then q[i].(status := Failed) else q[i])
  }

  // ---------------------------------------------------------------- runs of the abstract machine

  datatype Step =
    | Submit(admitted: bool, envelope: Envelope, session: Session, id: CommandId)
    | Claim(capability: Capability)
    | Authorize(id: CommandId, capability: Capability)
    | Finish(id: CommandId, succeeded: bool)
    | Restart

  function After(q: Queue, step: Step): Queue {
    match step
    case Submit(admitted, envelope, session, id) => Submitted(q, admitted, envelope, session, id).0
    case Claim(capability) => Claimed(q, capability).0
    case Authorize(id, capability) => Authorized(q, id, capability).0
    case Finish(id, succeeded) => Finished(q, id, succeeded).0
    case Restart => Recovered(q)
  }

  /** Command ids are unguessable tokens: a submission brings one no job has. */
  predicate FreshFor(q: Queue, step: Step) {
    step.Submit? ==> WithId(q, step.id) == |q|
  }

  function Run(steps: seq<Step>, n: nat): Queue
    requires n <= |steps|
  {
    if n == 0 then [] else After(Run(steps, n - 1), steps[n - 1])
  }

  predicate Legal(steps: seq<Step>, n: nat)
    requires n <= |steps|
  {
    forall k :: 0 <= k < n ==> FreshFor(Run(steps, k), steps[k])
  }

  /** What happened to one command in the first `n` steps: claims handed out, capabilities accepted,
      terminal results recorded. */
  datatype Tally = Tally(claims: nat, authorizations: nat, results: nat)

  function Gained(q: Queue, step: Step, id: CommandId): Tally {
    match step
    case Claim(capability) => Tally(if Claimed(q, capability).1 == Some(id) then 1 else 0, 0, 0)
    case Authorize(other, capability) => Tally(0, if other == id && Authorized(q, id, capability).1 then 1 else 0, 0)
    case Finish(other, succeeded) => Tally(0, 0, if other == id && Finished(q, id, succeeded).1.Ok? then 1 else 0)
    case _ => Tally(0, 0, 0)
  }

  function TallyOf(steps: seq<Step>, n: nat, id: CommandId): Tally
    requires n <= |steps|
  {
    if n == 0 then Tally(0, 0, 0) else
    var (t, g) := (TallyOf(steps, n - 1, id), Gained(Run(steps, n - 1), steps[n - 1], id));
    Tally(t.claims + g.claims, t.authorizations + g.authorizations, t.results + g.results)
  }

  predicate DistinctIds(q: Queue) {
    forall i, j :: 0 <= i < j < |q| ==> q[i].id != q[j].id
  }

  predicate DistinctEnvelopes(q: Queue) {
    forall i, j :: 0 <= i < j < |q| ==> q[i].envelope != q[j].envelope
  }

  /** Every job that has left the queue was submitted before every job still in it. */
  predicate InOrder(q: Queue) {
    forall i, j :: 0 <= i < j < |q| && q[i].status == Queued ==> q[j].status == Queued
  }

  predicate QueueInv(q: Queue) {
    DistinctIds(q) && DistinctEnvelopes(q) && InOrder(q)
  }

  /** How the tally of a command shows in its job. */
  predicate Explains(q: Queue, id: CommandId, t: Tally) {
    var i := WithId(q, id);
    if i == |q| then t == Tally(0, 0, 0) else
    match q[i].status
    case Queued => t == Tally(0, 0, 0)
    case Running => t == Tally(1, if q[i].consumed then 1 else 0, 0)
    case Succeeded => t.claims == 1 && t.authorizations <= 1 && t.results == 1
    case Failed => t.claims == 1 && t.authorizations <= 1 && t.results <= 1
  }

  lemma StepKeepsInv(q: Queue, step: Step)
    requires QueueInv(q) && FreshFor(q, step)
    ensures QueueInv(After(q, step))
  {
    hide WithId, WithEnvelope, NextQueued;
  }

  /** Where the commands are after one more, and after a job is replaced by its successor. */
  lemma AppendedPlace(q: Queue, job: Job, id: CommandId)
    ensures WithId(q + [job], id) == if WithId(q, id) < |q| || job.id == id then WithId(q, id) else |q| + 1
  {
    assert (q + [job])[..|q|] == q;
  }

  lemma SamePlace(q: Queue, r: Queue, id: CommandId)
    requires |q| == |r| && forall k :: 0 <= k < |q| ==> r[k].id == q[k].id
    ensures WithId(r, id) == WithId(q, id)
  {
    hide WithId;
    var (i, j) := (WithId(q, id), WithId(r, id));
    assert i < |q| ==> r[i].id == id;
    assert j < |q| ==> q[j].id == id;
  }

  lemma StepKeepsTally(q: Queue, step: Step, id: CommandId, t: Tally)
    requires QueueInv(q) && FreshFor(q, step) && Explains(q, id, t)
    ensures var g := Gained(q, step, id);
            Explains(After(q, step), id,
                     Tally(t.claims + g.claims, t.authorizations + g.authorizations, t.results + g.results))
  {
    hide WithId, WithEnvelope, NextQueued, InOrder, DistinctEnvelopes;
    if step.Submit? {
      AppendedPlace(q, NewJob(step.id, step.envelope, step.session), id);
    } else {
      hide DistinctIds;
      SamePlace(q, After(q, step), id);
    }
  }

  lemma {:induction false} RunKeepsInv(steps: seq<Step>, n: nat)
    requires n <= |steps| && Legal(steps, n)
    ensures QueueInv(Run(steps, n))
  {
    assert n == 0 ==> QueueInv([]);
    hide QueueInv, After, FreshFor;
    if n > 0 {
      RunKeepsInv(steps, n - 1);
      assert FreshFor(Run(steps, n - 1), steps[n - 1]);
      StepKeepsInv(Run(steps, n - 1), steps[n - 1]);
    }
  }

  lemma {:induction false} RunKeepsTally(steps: seq<Step>, n: nat, id: CommandId)
    requires n <= |steps| && Legal(steps, n)
    ensures Explains(Run(steps, n), id, TallyOf(steps, n, id))
  {
    hide QueueInv, After, FreshFor, Gained, WithId;
    if n > 0 {
      assert FreshFor(Run(steps, n - 1), steps[n - 1]);
      RunKeepsInv(steps, n - 1);
      RunKeepsTally(steps, n - 1, id);
      StepKeepsTally(Run(steps, n - 1), steps[n - 1], id, TallyOf(steps, n - 1, id));
    }
  }

  /** On every run, restarts included, a command is claimed at most once, its worker capability
      authorizes at most once, and it gets at most one terminal result. */
  lemma {:induction false} AtMostOnce(steps: seq<Step>, n: nat, id: CommandId)
    requires n <= |steps| && Legal(steps, n)
    ensures var t := TallyOf(steps, n, id);
            t.claims <= 1 && t.authorizations <= t.claims && t.results <= t.claims
  {
    RunKeepsTally(steps, n, id);
  }

  // ---------------------------------------------------------------- order and identity

  /** A claim takes the earliest submitted command that is still queued: all before it were claimed
      before, all after it wait. */
  lemma ClaimIsFirstIn(q: Queue, capability: Capability)
    requires QueueInv(q) && Claimed(q, capability).1.Some?
    ensures var i := NextQueued(q);
            && i < |q| && Claimed(q, capability).1 == Some(q[i].id) && q[i].status == Queued
            && forall j :: 0 <= j < |q| ==> (q[j].status == Queued <==> i <= j)
  {
    hide WithId, WithEnvelope, NextQueued;
  }

  function Rank(s: Status): nat {
    match s
    case Queued => 0
    case Running => 1
    case _ => 2
  }

  /** Commands keep their place, id, envelope and owner; their status only moves forward, and a
      terminal status never changes. */
  predicate Evolves(q: Queue, r: Queue) {
    && |q| <= |r|
    && forall i :: 0 <= i < |q| ==>
         && r[i].id == q[i].id && r[i].envelope == q[i].envelope && r[i].owner == q[i].owner
         && Rank(q[i].status) <= Rank(r[i].status) && (Rank(q[i].status) == 2 ==> r[i].status == q[i].status)
  }

  lemma StepEvolves(q: Queue, step: Step)
    ensures Evolves(q, After(q, step))
  {
    hide WithId, WithEnvelope, NextQueued;
  }

  lemma {:induction false} RunEvolves(steps: seq<Step>, m: nat, n: nat)
    requires m <= n <= |steps|
    ensures Evolves(Run(steps, m), Run(steps, n))
    decreases n
  {
    hide After;
    if m < n {
      RunEvolves(steps, m, n - 1);
      StepEvolves(Run(steps, n - 1), steps[n - 1]);
    }
  }

  /** Equal envelopes share one command for ever: a later submission is answered with the id of the
      first, and only to the session that owns it. */
  lemma EqualEnvelopesShare(steps: seq<Step>, m: nat, n: nat)
    requires m < n < |steps| && steps[m].Submit? && steps[n].Submit? && steps[n].admitted
    requires steps[m].envelope == steps[n].envelope
    requires Submitted(Run(steps, m), steps[m].admitted, steps[m].envelope, steps[m].session, steps[m].id).1.Ok?
    ensures var first := Submitted(Run(steps, m), steps[m].admitted, steps[m].envelope, steps[m].session,
                                   steps[m].id).1.value.0;
            var again := Submitted(Run(steps, n), true, steps[n].envelope, steps[n].session, steps[n].id);
            && again.0 == Run(steps, n)
            && (again.1.Ok? <==> Owns(steps[n].session, steps[m].session))
            && (again.1.Ok? ==> again.1.value.0 == first) && (again.1.Err? ==> again.1 == Err(NotOwner))
  {
    hide WithId, WithEnvelope, NextQueued;
    var (before, after, now) := (Run(steps, m), Run(steps, m + 1), Run(steps, n));
    var e := steps[m].envelope;
    var i := WithEnvelope(before, e);
    assert after == After(before, steps[m]);
    assert i < |after| && after[i].envelope == e && forall k :: 0 <= k < i ==> after[k].envelope != e;
    RunEvolves(steps, m + 1, n);
    assert WithEnvelope(now, e) == i;
  }

  // ---------------------------------------------------------------- the in-memory broker

  /** The dictionaries of a broker without a database; `order` is the insertion order of `statuses`. */
  datatype Dicts = Dicts(order: seq<CommandId>, statuses: map<CommandId, Status>, idempotency: map<Envelope, CommandId>,
                         commands: map<CommandId, Envelope>, owners: map<CommandId, Session>,
                         capabilities: map<CommandId, Capability>, consumed: set<CommandId>)

  /** The dictionaries say of one command what its job says. */
  predicate Matches(d: Dicts, job: Job) {
    && job.id in d.statuses && d.statuses[job.id] == job.status
    && job.id in d.owners && d.owners[job.id] == job.owner
    && job.id in d.commands && d.commands[job.id] == job.envelope
    && (if job.id in d.capabilities then job.capability == Some(d.capabilities[job.id]) else job.capability == None)
    && (job.id in d.consumed <==> job.consumed)
  }

  ghost predicate DescribesJobs(d: Dicts, q: Queue) {
    |q| == |d.order| && DistinctIds(q) && forall i :: 0 <= i < |q| ==> q[i].id == d.order[i] && Matches(d, q[i])
  }

  ghost predicate DescribesNothingElse(d: Dicts, q: Queue) {
    forall id :: id in d.statuses || id in d.capabilities || id in d.consumed ==> WithId(q, id) < |q|
  }

  ghost predicate DescribesIndex(idempotency: map<Envelope, CommandId>, q: Queue) {
    && (forall e :: e in idempotency <==> WithEnvelope(q, e) < |q|)
    && (forall e :: e in idempotency ==> idempotency[e] == q[WithEnvelope(q, e)].id)
  }

  /** The dictionaries describe this queue and nothing else. */
  ghost predicate Describes(d: Dicts, q: Queue) {
    DescribesJobs(d, q) && DescribesNothingElse(d, q) && DescribesIndex(d.idempotency, q)
  }

  /** Nothing but the entries of command `id` changes. */
  ghost predicate SameElsewhere(d: Dicts, after: Dicts, id: CommandId) {
    && after.order == d.order && after.idempotency == d.idempotency && after.commands == d.commands
    && after.owners == d.owners
    && (forall j :: j != id ==>
          && (j in after.statuses <==> j in d.statuses)
               && (j in d.statuses && j in after.statuses ==> after.statuses[j] == d.statuses[j])
          && (j in after.capabilities <==> j in d.capabilities)
          && (j in d.capabilities && j in after.capabilities ==> after.capabilities[j] == d.capabilities[j])
          && (j in after.consumed <==> j in d.consumed))
  }

  lemma StillMatches(d: Dicts, after: Dicts, id: CommandId, job: Job)
    requires SameElsewhere(d, after, id) && job.id != id && Matches(d, job)
    ensures Matches(after, job)
  {
  }

  lemma At(d: Dicts, q: Queue, i: nat)
    requires Describes(d, q)
    ensures |q| == |d.order|
    ensures i < |q| ==> Matches(d, q[i]) && q[i].id == d.order[i]
  {
  }

  lemma AppendedEnvelopePlace(q: Queue, job: Job, e: Envelope)
    ensures WithEnvelope(q + [job], e)
         == if WithEnvelope(q, e) < |q| || job.envelope == e then WithEnvelope(q, e) else |q| + 1
  {
    assert (q + [job])[..|q|] == q;
  }

  lemma SameEnvelopePlace(q: Queue, r: Queue, e: Envelope)
    requires |q| == |r| && forall k :: 0 <= k < |q| ==> r[k].envelope == q[k].envelope
    ensures WithEnvelope(r, e) == WithEnvelope(q, e)
  {
    hide WithEnvelope;
    var (i, j) := (WithEnvelope(q, e), WithEnvelope(r, e));
    assert i < |q| ==> r[i].envelope == e;
    assert j < |q| ==> q[j].envelope == e;
  }

  lemma Listed(d: Dicts, q: Queue, id: CommandId)
    requires Describes(d, q)
    ensures id in d.statuses || id in d.capabilities ==> WithId(q, id) < |q|
  {
  }

  lemma Updated(d: Dicts, q: Queue, i: nat, after: Dicts, job: Job)
    requires Describes(d, q) && i < |q| && job.id == q[i].id && job.envelope == q[i].envelope
    requires Matches(after, job) && SameElsewhere(d, after, job.id)
    ensures Describes(after, q[i := job])
  {
    UpdatedJobs(d, q, i, after, job);
    hide WithId, WithEnvelope, Matches, DistinctIds;
    var r := q[i := job];
    assert DescribesIndex(after.idempotency, r) by {
      forall e ensures WithEnvelope(r, e) == WithEnvelope(q, e) {
        SameEnvelopePlace(q, r, e);
      }
    }
    forall id | id in after.statuses || id in after.capabilities || id in after.consumed ensures WithId(r, id) < |r| {
      SamePlace(q, r, id);
    }
  }

  lemma UpdatedJobs(d: Dicts, q: Queue, i: nat, after: Dicts, job: Job)
    requires DescribesJobs(d, q) && i < |q| && job.id == q[i].id
    requires Matches(after, job) && SameElsewhere(d, after, job.id)
    ensures DescribesJobs(after, q[i := job])
  {
    hide Matches;
    forall k | 0 <= k < |q| && k != i ensures Matches(after, q[k]) {
      assert q[k].id != q[i].id;
      StillMatches(d, after, job.id, q[k]);
    }
  }

  class MemoryBroker {
    var order: seq<CommandId>
    var statuses: map<CommandId, Status>
    var idempotency: map<Envelope, CommandId>
    var commands: map<CommandId, Envelope>
    var owners: map<CommandId, Session>
    var capabilities: map<CommandId, Capability>
    var consumed: set<CommandId>
    ghost var queue: Queue

    ghost function State(): Dicts
      reads this
    {
      Dicts(order, statuses, idempotency, commands, owners, capabilities, consumed)
    }

    ghost predicate Valid()
      reads this
    {
      Describes(State(), queue)
    }

    constructor ()
      ensures Valid() && queue == []
    {
      order, statuses, idempotency, commands, owners, capabilities, consumed :=
        [], map[], map[], map[], map[], map[], {};
      queue := [];
    }

    method SubmitCommand(admitted: bool, envelope: Envelope, session: Session, minted: CommandId)
      returns (result: Result<(CommandId, Status)>)
      requires Valid() && minted !in statuses
      modifies this
      ensures Valid() && (queue, result) == Submitted(old(queue), admitted, envelope, session, minted)
    {
      hide WithId, WithEnvelope, NextQueued;
      if !admitted {
        return Err(NotAdmitted);
      }
      if envelope in idempotency {
        ghost var i := WithEnvelope(queue, envelope);
        assert Matches(State(), queue[i]);
        var id := idempotency[envelope];
        if !Owns(session, owners[id]) {
          return Err(NotOwner);
        }
        return Ok((id, statuses[id]));
      }
      Appended(State(), queue, envelope, session, minted);
      order := order + [minted];
      statuses := statuses[minted := Queued];
      idempotency := idempotency[envelope := minted];
      commands := commands[minted := envelope];
      owners := owners[minted := session];
      queue := queue + [NewJob(minted, envelope, session)];
      result := Ok((minted, Queued));
    }

    method ClaimNextForWorker(capability: Capability) returns (claimed: Option<CommandId>)
      requires Valid()
      modifies this
      ensures Valid() && (queue, claimed) == Claimed(old(queue), capability)
    {
      hide WithId, WithEnvelope, NextQueued, Describes;
      ghost var before := State();
      At(before, queue, 0);
      for i := 0 to |order|
        invariant State() == before && queue == old(queue)
        invariant forall k :: 0 <= k < i ==> queue[k].status != Queued
      {
        At(before, queue, i);
        var id := order[i];
        if statuses[id] == Queued {
          assert NextQueued(queue) == i;
          ghost var job := queue[i].(status := Running, capability := Some(capability), consumed := false);
          statuses := statuses[id := Running];
          capabilities := capabilities[id := capability];
          consumed := consumed - {id};
          Updated(before, queue, i, State(), job);
          queue := queue[i := job];
          return Some(id);
        }
      }
      return None;
    }

    method AuthorizeWorkerClaim(id: CommandId, capability: Capability) returns (ok: bool)
      requires Valid()
      modifies this
      ensures Valid() && (queue, ok) == Authorized(old(queue), id, capability)
    {
      hide WithId, WithEnvelope, NextQueued, Describes;
      ghost var before := State();
      ghost var i := WithId(queue, id);
      At(before, queue, i);
      Listed(before, queue, id);
      if id !in capabilities || id in consumed || capabilities[id] != capability || statuses[id] != Running {
        return false;
      }
      consumed := consumed + {id};
      Updated(before, queue, i, State(), queue[i].(consumed := true));
      queue := queue[i := queue[i].(consumed := true)];
      ok := true;
    }

    method FinishWorkerCommand(id: CommandId, succeeded: bool) returns (result: Result<Status>)
      requires Valid()
      modifies this
      ensures Valid() && (queue, result) == Finished(old(queue), id, succeeded)
    {
      hide WithId, WithEnvelope, NextQueued, Describes;
      ghost var before := State();
      ghost var i := WithId(queue, id);
      At(before, queue, i);
      Listed(before, queue, id);
      if id !in statuses {
        return Err(UnknownCommand);
      }
      if statuses[id] != Running {
        return Err(NotRunning);
      }
      var terminal := if succeeded then Succeeded else Failed;
      statuses := statuses[id := terminal];
      Updated(before, queue, i, State(), queue[i].(status := terminal));
      queue := queue[i := queue[i].(status := terminal)];
      result := Ok(terminal);
    }
  }

  lemma Appended(d: Dicts, q: Queue, envelope: Envelope, session: Session, id: CommandId)
    requires Describes(d, q) && id !in d.statuses && envelope !in d.idempotency
    ensures Describes(WithCommand(d, envelope, session, id), q + [NewJob(id, envelope, session)])
  {
    hide WithId, WithEnvelope, DescribesJobs, DescribesIndex;
    var (job, after) := (NewJob(id, envelope, session), WithCommand(d, envelope, session, id));
    AppendedJobs(d, q, envelope, session, id);
    AppendedIndex(d.idempotency, q, job);
    forall other | other in after.statuses || other in after.capabilities || other in after.consumed
      ensures WithId(q + [job], other) < |q| + 1
    {
      AppendedPlace(q, job, other);
    }
  }

  lemma AppendedIndex(idempotency: map<Envelope, CommandId>, q: Queue, job: Job)
    requires DescribesIndex(idempotency, q) && job.envelope !in idempotency
    ensures DescribesIndex(idempotency[job.envelope := job.id], q + [job])
  {
    hide WithEnvelope;
    forall e
      ensures WithEnvelope(q + [job], e)
           == if WithEnvelope(q, e) < |q| || job.envelope == e then WithEnvelope(q, e) else |q| + 1
    {
      AppendedEnvelopePlace(q, job, e);
    }
  }

  function WithCommand(d: Dicts, envelope: Envelope, session: Session, id: CommandId): Dicts {
    Dicts(d.order + [id], d.statuses[id := Queued], d.idempotency[envelope := id], d.commands[id := envelope],
          d.owners[id := session], d.capabilities, d.consumed)
  }

  lemma AppendedJobs(d: Dicts, q: Queue, envelope: Envelope, session: Session, id: CommandId)
    requires DescribesJobs(d, q) && DescribesNothingElse(d, q) && id !in d.statuses
    ensures DescribesJobs(WithCommand(d, envelope, session, id), q + [NewJob(id, envelope, session)])
  {
    assert WithId(q, id) == |q| by {
      assert forall k :: 0 <= k < |q| ==> Matches(d, q[k]);
    }
    hide WithId, Matches;
    var (job, after) := (NewJob(id, envelope, session), WithCommand(d, envelope, session, id));
    forall k | 0 <= k < |q| ensures q[k].id != id && Matches(after, q[k]) {
      assert Matches(d, q[k]);
      NewLeavesOthers(d, envelope, session, id, q[k]);
    }
    assert id !in d.capabilities && id !in d.consumed;
    NewMatches(d, envelope, session, id);
  }

  lemma NewLeavesOthers(d: Dicts, envelope: Envelope, session: Session, id: CommandId, job: Job)
    requires Matches(d, job) && job.id != id
    ensures Matches(WithCommand(d, envelope, session, id), job)
  {
  }

  lemma NewMatches(d: Dicts, envelope: Envelope, session: Session, id: CommandId)
    requires id !in d.capabilities && id !in d.consumed
    ensures Matches(WithCommand(d, envelope, session, id), NewJob(id, envelope, session))
  {
  }
}
