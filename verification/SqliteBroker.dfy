/** The SQLite form of `workbench/host_broker.py`: any number of broker processes over one command
    table, each with its own caches.  The caches are filled before the row is inserted. */
module SqliteBroker {
  import opened Basics
  import HB = HostBroker

  /** What one process remembers of the table. */
  datatype Caches = Caches(idempotency: map<HB.Envelope, HB.CommandId>, owners: map<HB.CommandId, HB.Session>)

  const NO_CACHES := Caches(map[], map[])

  function OwnerOf(rows: HB.Queue, c: Caches, id: HB.CommandId): Option<HB.Session> {
    var i := HB.WithId(rows, id);
    if id in c.owners then Some(c.owners[id])
    else if i < |rows| && rows[i].owner != HB.NoSession then Some(rows[i].owner) else None
  }

  /** `_require_command_owner` remembers an owner it had to look up. */
  function WithOwner(rows: HB.Queue, c: Caches, id: HB.CommandId): Caches {
    var owner := OwnerOf(rows, c, id);
    if owner.Some? then c.(owners := c.owners[id := owner.value]) else c
  }

  datatype Submission = Submission(rows: HB.Queue, caches: Caches, result: HB.Result<(HB.CommandId, HB.Status)>)

  /** The answer for a command that is already known to this process. */
  function Answered(rows: HB.Queue, c: Caches, id: HB.CommandId, session: HB.Session): Submission {
    var (owner, seen) := (OwnerOf(rows, c, id), WithOwner(rows, c, id));
    if owner.None? || !HB.Owns(session, owner.value) then Submission(rows, seen, HB.Err(HB.NotOwner)) else
    match HB.StatusOf(rows, id)
    case Ok(status) => Submission(rows, seen, HB.Ok((id, status)))
    case Err(error) => Submission(rows, seen, HB.Err(error))
  }

  /** `submit_command` over a table. */
  function Submitted(rows: HB.Queue, c: Caches, admitted: bool, e: HB.Envelope, session: HB.Session,
                     id: HB.CommandId, insertFails: bool): Submission {
    var i := HB.WithEnvelope(rows, e);
    if !admitted then Submission(rows, c, HB.Err(HB.NotAdmitted))
    else if e in c.idempotency then Answered(rows, c, c.idempotency[e], session)
    else if i < |rows| then
      Answered(rows, Caches(c.idempotency[e := rows[i].id], c.owners[rows[i].id := rows[i].owner]), rows[i].id, session)
    else
      var filled := Caches(c.idempotency[e := id], c.owners[id := session]);
      if insertFails then Submission(rows, filled, HB.Err(HB.StorageFailed))
      else Submission(rows + [HB.NewJob(id, e, session)], filled, HB.Ok((id, HB.Queued)))
  }

  /** Every cached fact is a fact of the table. */
  ghost predicate Agrees(rows: HB.Queue, c: Caches) {
    && (forall e :: e in c.idempotency ==>
          HB.WithEnvelope(rows, e) < |rows| && c.idempotency[e] == rows[HB.WithEnvelope(rows, e)].id)
    && (forall id :: id in c.owners ==>
          HB.WithId(rows, id) < |rows| && c.owners[id] == rows[HB.WithId(rows, id)].owner)
  }

  /** This submission would insert a row. */
  predicate Inserts(rows: HB.Queue, c: Caches, admitted: bool, e: HB.Envelope) {
    admitted && e !in c.idempotency && HB.WithEnvelope(rows, e) == |rows|
  }

  // ---------------------------------------------------------------- refinement of the abstract queue

  lemma OwnPlace(rows: HB.Queue, i: nat)
    requires HB.DistinctIds(rows) && i < |rows|
    ensures HB.WithId(rows, rows[i].id) == i
  {
    hide HB.WithId;
  }

  /** With agreeing caches a submission is the abstract one, unless its INSERT fails. */
  lemma SubmitRefines(rows: HB.Queue, c: Caches, admitted: bool, e: HB.Envelope, session: HB.Session,
                      id: HB.CommandId, insertFails: bool)
    requires Agrees(rows, c) && HB.DistinctIds(rows) && !(insertFails && Inserts(rows, c, admitted, e))
    ensures var s := Submitted(rows, c, admitted, e, session, id, insertFails);
            (s.rows, s.result) == HB.Submitted(rows, admitted, e, session, id)
  {
    hide HB.WithId, HB.WithEnvelope, HB.DistinctIds;
    var i := HB.WithEnvelope(rows, e);
    if i < |rows| {
      OwnPlace(rows, i);
    }
  }

  lemma AnsweringAgrees(rows: HB.Queue, c: Caches, id: HB.CommandId, session: HB.Session)
    requires Agrees(rows, c)
    ensures Agrees(rows, Answered(rows, c, id, session).caches) && Answered(rows, c, id, session).rows == rows
  {
    hide HB.WithId, HB.WithEnvelope;
  }

  lemma NewRowAgrees(rows: HB.Queue, c: Caches, e: HB.Envelope, session: HB.Session, id: HB.CommandId)
    requires Agrees(rows, c) && HB.WithId(rows, id) == |rows| && HB.WithEnvelope(rows, e) == |rows|
    ensures Agrees(rows + [HB.NewJob(id, e, session)], Caches(c.idempotency[e := id], c.owners[id := session]))
  {
    var job := HB.NewJob(id, e, session);
    hide HB.WithId, HB.WithEnvelope;
    forall f | f in c.idempotency || f == e
      ensures HB.WithEnvelope(rows + [job], f) == HB.WithEnvelope(rows, f)
    {
      HB.AppendedEnvelopePlace(rows, job, f);
    }
    forall j | j in c.owners || j == id ensures HB.WithId(rows + [job], j) == HB.WithId(rows, j) {
      HB.AppendedPlace(rows, job, j);
    }
  }

  /** The caches go on agreeing exactly if this submission is not a failed INSERT. */
  lemma {:induction false} AgreementExactly(rows: HB.Queue, c: Caches, admitted: bool, e: HB.Envelope,
                                            session: HB.Session, id: HB.CommandId, insertFails: bool)
    requires Agrees(rows, c) && HB.DistinctIds(rows) && HB.WithId(rows, id) == |rows|
    ensures var s := Submitted(rows, c, admitted, e, session, id, insertFails);
            Agrees(s.rows, s.caches) <==> !(insertFails && Inserts(rows, c, admitted, e))
  {
    hide HB.WithId, HB.WithEnvelope, Answered, HB.DistinctIds;
    var i := HB.WithEnvelope(rows, e);
    if Inserts(rows, c, admitted, e) {
      NewRowAgrees(rows, c, e, session, id);
      assert e in c.idempotency[e := id];
    } else if e in c.idempotency {
      AnsweringAgrees(rows, c, c.idempotency[e], session);
    } else if i < |rows| {
      OwnPlace(rows, i);
      AnsweringAgrees(rows, Caches(c.idempotency[e := rows[i].id], c.owners[rows[i].id := rows[i].owner]), rows[i].id,
                      session);
    }
  }

  /** What other processes do to the table leaves agreement intact. */
  lemma AgreementStable(rows: HB.Queue, later: HB.Queue, c: Caches)
    requires Agrees(rows, c) && HB.Evolves(rows, later)
    ensures Agrees(later, c)
  {
    hide HB.WithId, HB.WithEnvelope;
    forall e | e in c.idempotency ensures HB.WithEnvelope(later, e) == HB.WithEnvelope(rows, e) {
      var i := HB.WithEnvelope(rows, e);
      assert later[i].envelope == e && forall k :: 0 <= k < i ==> later[k].envelope == rows[k].envelope;
    }
    forall id | id in c.owners ensures HB.WithId(later, id) == HB.WithId(rows, id) {
      var i := HB.WithId(rows, id);
      assert later[i].id == id && forall k :: 0 <= k < i ==> later[k].id == rows[k].id;
    }
  }

  // ---------------------------------------------------------------- the failed INSERT

  /** The cache answers for the envelope with a command the table does not have. */
  predicate Poisoned(rows: HB.Queue, c: Caches, e: HB.Envelope) {
    e in c.idempotency && HB.WithId(rows, c.idempotency[e]) == |rows|
  }

  lemma FailedInsertPoisons(rows: HB.Queue, c: Caches, e: HB.Envelope, session: HB.Session, id: HB.CommandId)
    requires Inserts(rows, c, true, e) && HB.WithId(rows, id) == |rows|
    ensures var s := Submitted(rows, c, true, e, session, id, true);
            && s.rows == rows && s.result == HB.Err(HB.StorageFailed) && Poisoned(rows, s.caches, e)
            && s.caches.idempotency[e] == id && id in s.caches.owners && s.caches.owners[id] == session
  {
  }

  /** What is answered or queued is remembered: the envelope with its command, the command with its
      owner. */
  lemma AnswersAreRemembered(rows: HB.Queue, c: Caches, admitted: bool, e: HB.Envelope, session: HB.Session,
                             id: HB.CommandId, insertFails: bool)
    ensures var s := Submitted(rows, c, admitted, e, session, id, insertFails);
            s.result.Ok? ==>
              && e in s.caches.idempotency && s.caches.idempotency[e] == s.result.value.0
              && s.result.value.0 in s.caches.owners && s.caches.owners[s.result.value.0] == session
  {
    hide HB.WithId, HB.WithEnvelope;
  }

  /** A poisoned envelope is refused to everybody who asks this process, and queued for nobody: its own
      session is told that the command is unknown, all others that they do not own it. */
  lemma PoisonRefuses(rows: HB.Queue, c: Caches, e: HB.Envelope, admitted: bool, session: HB.Session,
                      id: HB.CommandId, insertFails: bool)
    requires Poisoned(rows, c, e)
    ensures var s := Submitted(rows, c, admitted, e, session, id, insertFails);
            var owner := if c.idempotency[e] in c.owners then c.owners[c.idempotency[e]] else HB.NoSession;
            && s.rows == rows
            && s.result == HB.Err(if !admitted then HB.NotAdmitted
                                  else if owner != HB.NoSession && owner == session then HB.UnknownCommand
                                  else HB.NotOwner)
  {
    hide HB.WithEnvelope, HB.WithId;
  }

  // ---------------------------------------------------------------- many processes, one table

  /** One step of some process; a restart may or may not recover abandoned claims. */
  datatype Event = Event(broker: nat, step: HB.Step, insertFails: bool) | Reopen(broker: nat)

  datatype Cluster = Cluster(rows: HB.Queue, caches: map<nat, Caches>)

  function CachesOf(s: Cluster, broker: nat): Caches {
    if broker in s.caches then s.caches[broker] else NO_CACHES
  }

  function After(s: Cluster, event: Event): Cluster {
    match event
    case Reopen(b) => s.(caches := s.caches[b := NO_CACHES])
    case Event(b, step, insertFails) =>
      match step
      case Submit(admitted, e, session, id) =>
        var r := Submitted(s.rows, CachesOf(s, b), admitted, e, session, id, insertFails);
        Cluster(r.rows, s.caches[b := r.caches])
      case Restart => Cluster(HB.Recovered(s.rows), s.caches[b := NO_CACHES])
      case _ => s.(rows := HB.After(s.rows, step))
  }

  function Run(events: seq<Event>, n: nat): Cluster
    requires n <= |events|
  {
    if n == 0 then Cluster([], map[]) else After(Run(events, n - 1), events[n - 1])
  }

  /** The abstract steps of the first `n` events; reopening without recovery is none. */
  function StepsOf(events: seq<Event>, n: nat): seq<HB.Step>
    requires n <= |events|
  {
    if n == 0 then [] else
    StepsOf(events, n - 1) + if events[n - 1].Event? then [events[n - 1].step] else []
  }

  /** Tokens are new, and no INSERT fails. */
  predicate Sound(s: Cluster, event: Event) {
    event.Event? && event.step.Submit? ==>
      && HB.WithId(s.rows, event.step.id) == |s.rows|
      && !(event.insertFails && Inserts(s.rows, CachesOf(s, event.broker), event.step.admitted, event.step.envelope))
  }

  ghost predicate AllAgree(s: Cluster) {
    HB.QueueInv(s.rows) && forall b :: b in s.caches ==> Agrees(s.rows, s.caches[b])
  }

  lemma EventRefines(s: Cluster, event: Event)
    requires AllAgree(s) && Sound(s, event)
    ensures AllAgree(After(s, event))
    ensures After(s, event).rows == if event.Event? then HB.After(s.rows, event.step) else s.rows
  {
    hide HB.WithId, HB.WithEnvelope, HB.NextQueued, Submitted, Inserts, HB.Submitted, HB.Claimed, HB.Authorized,
        HB.Finished, HB.Recovered;
    assert Agrees([], NO_CACHES) && Agrees(s.rows, NO_CACHES);
    if event.Event? {
      var step := event.step;
      assert HB.FreshFor(s.rows, step);
      HB.StepKeepsInv(s.rows, step);
      HB.StepEvolves(s.rows, step);
      if step.Submit? {
        SubmitRefines(s.rows, CachesOf(s, event.broker), step.admitted, step.envelope, step.session, step.id,
                      event.insertFails);
        AgreementExactly(s.rows, CachesOf(s, event.broker), step.admitted, step.envelope, step.session, step.id,
                         event.insertFails);
      }
      var later := HB.After(s.rows, step);
      forall b | b in s.caches ensures Agrees(later, s.caches[b]) {
        AgreementStable(s.rows, later, s.caches[b]);
      }
    }
  }

  /** Any number of broker processes over one table, restarts included, refine one abstract queue as
      long as no INSERT fails; all their caches agree with the table. */
  lemma {:induction false} ClusterRefines(events: seq<Event>, n: nat)
    requires n <= |events| && forall k :: 0 <= k < n ==> Sound(Run(events, k), events[k])
    ensures AllAgree(Run(events, n))
    ensures Run(events, n).rows == HB.Run(StepsOf(events, n), |StepsOf(events, n)|)
    ensures HB.Legal(StepsOf(events, n), |StepsOf(events, n)|)
  {
    hide HB.After, After, Sound, AllAgree, HB.Legal, HB.FreshFor;
    if n == 0 {
      EmptyClusterAgrees();
    } else {
      ClusterRefines(events, n - 1);
      assert Sound(Run(events, n - 1), events[n - 1]);
      EventRefines(Run(events, n - 1), events[n - 1]);
      if events[n - 1].Event? {
        SoundIsFresh(Run(events, n - 1), events[n - 1]);
        OneMoreStep(StepsOf(events, n - 1), events[n - 1].step);
      } else {
        assert StepsOf(events, n) == StepsOf(events, n - 1);
      }
    }
  }

  lemma EmptyClusterAgrees()
    ensures AllAgree(Cluster([], map[])) && HB.Legal([], 0) && HB.Run([], 0) == []
  {
  }

  lemma OneMoreStep(steps: seq<HB.Step>, step: HB.Step)
    requires HB.Legal(steps, |steps|) && HB.FreshFor(HB.Run(steps, |steps|), step)
    ensures HB.Run(steps + [step], |steps| + 1) == HB.After(HB.Run(steps, |steps|), step)
    ensures HB.Legal(steps + [step], |steps| + 1)
  {
    hide HB.After, HB.FreshFor;
    RunOfPrefix(steps, steps + [step], |steps|);
    forall k | 0 <= k <= |steps| ensures HB.FreshFor(HB.Run(steps + [step], k), (steps + [step])[k]) {
      RunOfPrefix(steps, steps + [step], k);
      assert k < |steps| ==> HB.FreshFor(HB.Run(steps, k), steps[k]);
    }
  }

  lemma SoundIsFresh(s: Cluster, event: Event)
    requires Sound(s, event) && event.Event?
    ensures HB.FreshFor(s.rows, event.step)
  {
  }

  lemma {:induction false} RunOfPrefix(a: seq<HB.Step>, b: seq<HB.Step>, n: nat)
    requires n <= |a| <= |b| && a == b[..|a|]
    ensures HB.Run(a, n) == HB.Run(b, n)
  {
    hide HB.After;
    if n > 0 {
      RunOfPrefix(a, b, n - 1);
      assert a[n - 1] == b[..|a|][n - 1];
    }
  }

  // ---------------------------------------------------------------- how long a poisoned cache lasts

  predicate Absent(s: Cluster, id: HB.CommandId) {
    HB.WithId(s.rows, id) == |s.rows|
  }

  /** The process answers for the envelope with this command. */
  predicate Cached(s: Cluster, broker: nat, e: HB.Envelope, id: HB.CommandId) {
    e in CachesOf(s, broker).idempotency && CachesOf(s, broker).idempotency[e] == id
  }

  predicate Reopens(event: Event, broker: nat) {
    event.broker == broker && (event.Reopen? || event.step.Restart?)
  }

  predicate Draws(event: Event, id: HB.CommandId) {
    event.Event? && event.step.Submit? && event.step.id == id
  }

  lemma EventKeepsAbsent(s: Cluster, event: Event, id: HB.CommandId)
    requires Absent(s, id) && !Draws(event, id)
    ensures Absent(After(s, event), id)
  {
    hide HB.WithId, HB.WithEnvelope, HB.NextQueued;
    var rows := After(s, event).rows;
    if |rows| == |s.rows| {
      assert forall k :: 0 <= k < |rows| ==> rows[k].id == s.rows[k].id;
      HB.SamePlace(s.rows, rows, id);
    } else {
      HB.AppendedPlace(s.rows, rows[|s.rows|], id);
    }
  }

  lemma EventKeepsCached(s: Cluster, event: Event, broker: nat, e: HB.Envelope, id: HB.CommandId)
    requires Absent(s, id) && !Draws(event, id)
    ensures Cached(After(s, event), broker, e, id) <==> Cached(s, broker, e, id) && !Reopens(event, broker)
  {
    hide HB.WithId, HB.WithEnvelope, HB.NextQueued;
  }

  /** Whatever this and all other processes submit, claim or finish, the envelope of a failed INSERT
      stays poisoned in the process exactly until that process reopens the file. */
  lemma {:induction false} PoisonLastsExactly(events: seq<Event>, m: nat, n: nat, broker: nat, e: HB.Envelope,
                                              id: HB.CommandId)
    requires m <= n <= |events| && Absent(Run(events, m), id) && Cached(Run(events, m), broker, e, id)
    requires forall k :: m <= k < n ==> !Draws(events[k], id)
    ensures Absent(Run(events, n), id)
    ensures Cached(Run(events, n), broker, e, id) <==> forall k :: m <= k < n ==> !Reopens(events[k], broker)
    ensures (forall k :: m <= k < n ==> !Reopens(events[k], broker)) ==>
              Poisoned(Run(events, n).rows, CachesOf(Run(events, n), broker), e)
  {
    hide After, Reopens, Draws;
    if n > m {
      PoisonLastsExactly(events, m, n - 1, broker, e, id);
      EventKeepsAbsent(Run(events, n - 1), events[n - 1], id);
      EventKeepsCached(Run(events, n - 1), events[n - 1], broker, e, id);
    }
  }

  // ---------------------------------------------------------------- one process

  /** The `broker_command` table, shared by every process that opens the file. */
  class Table {
    var rows: HB.Queue

    constructor ()
      ensures rows == []
    {
      rows := [];
    }
  }

  class Broker {
    const table: Table
    var idempotency: map<HB.Envelope, HB.CommandId>
    var owners: map<HB.CommandId, HB.Session>

    ghost function Memory(): Caches
      reads this
    {
      Caches(idempotency, owners)
    }

    /** Opening recovers abandoned claims when asked to; the caches start empty. */
    constructor (table: Table, recover: bool)
      modifies table
      ensures this.table == table && Memory() == NO_CACHES
      ensures table.rows == if recover then HB.Recovered(old(table.rows)) else old(table.rows)
    {
      this.table := table;
      idempotency, owners := map[], map[];
      new;
      if recover {
        table.rows := seq(|table.rows|, i requires 0 <= i < |table.rows| reads table =>
          if table.rows[i].status == HB.Running then table.rows[i].(status := HB.Failed) else table.rows[i]);
      }
    }

    method RequireOwner(id: HB.CommandId, session: HB.Session) returns (ok: bool)
      modifies this
      ensures Memory() == WithOwner(table.rows, old(Memory()), id)
      ensures var owner := OwnerOf(table.rows, old(Memory()), id); ok == (owner.Some? && HB.Owns(session, owner.value))
    {
      var owner: Option<HB.Session> := None;
      if id in owners {
        owner := Some(owners[id]);
      } else {
        var i := HB.WithId(table.rows, id);
        if i < |table.rows| && table.rows[i].owner != HB.NoSession {
          owner := Some(table.rows[i].owner);
          owners := owners[id := table.rows[i].owner];
        }
      }
      ok := owner.Some? && HB.Owns(session, owner.value);
    }

    method Answer(id: HB.CommandId, session: HB.Session) returns (result: HB.Result<(HB.CommandId, HB.Status)>)
      modifies this
      ensures Submission(table.rows, Memory(), result) == Answered(table.rows, old(Memory()), id, session)
    {
      var owned := RequireOwner(id, session);
      if !owned {
        return HB.Err(HB.NotOwner);
      }
      match HB.StatusOf(table.rows, id)
      case Ok(status) => result := HB.Ok((id, status));
      case Err(error) => result := HB.Err(error);
    }

    method SubmitCommand(admitted: bool, e: HB.Envelope, session: HB.Session, id: HB.CommandId, insertFails: bool)
      returns (result: HB.Result<(HB.CommandId, HB.Status)>)
      modifies this, table
      ensures Submission(table.rows, Memory(), result)
           == Submitted(old(table.rows), old(Memory()), admitted, e, session, id, insertFails)
    {
      hide Answered;
      if !admitted {
        return HB.Err(HB.NotAdmitted);
      }
      if e in idempotency {
        result := Answer(idempotency[e], session);
        return;
      }
      var i := HB.WithEnvelope(table.rows, e);
      if i < |table.rows| {
        var row := table.rows[i];
        idempotency := idempotency[e := row.id];
        owners := owners[row.id := row.owner];
        result := Answer(row.id, session);
        return;
      }
      idempotency := idempotency[e := id];
      owners := owners[id := session];
      if insertFails {
        return HB.Err(HB.StorageFailed);
      }
      table.rows := table.rows + [HB.NewJob(id, e, session)];
      result := HB.Ok((id, HB.Queued));
    }

    /** One transaction: the oldest queued row becomes running. */
    method ClaimNextForWorker(capability: HB.Capability) returns (claimed: Option<HB.CommandId>)
      modifies table
      ensures (table.rows, claimed) == HB.Claimed(old(table.rows), capability)
    {
      var i := HB.NextQueued(table.rows);
      if i == |table.rows| {
        return None;
      }
      var id := table.rows[i].id;
      table.rows := table.rows[i := table.rows[i].(status := HB.Running, capability := Some(capability),
                                                   consumed := false)];
      claimed := Some(id);
    }

    /** A guarded UPDATE decides: the token is consumed exactly when one row changes. */
    method AuthorizeWorkerClaim(id: HB.CommandId, capability: HB.Capability) returns (ok: bool)
      modifies table
      ensures (table.rows, ok) == HB.Authorized(old(table.rows), id, capability)
    {
      var i := HB.WithId(table.rows, id);
      ok := i < |table.rows| && table.rows[i].status == HB.Running && !table.rows[i].consumed
            && table.rows[i].capability == Some(capability);
      if ok {
        table.rows := table.rows[i := table.rows[i].(consumed := true)];
      }
    }

    method FinishWorkerCommand(id: HB.CommandId, succeeded: bool) returns (result: HB.Result<HB.Status>)
      modifies table
      ensures (table.rows, result) == HB.Finished(old(table.rows), id, succeeded)
    {
      match HB.StatusOf(table.rows, id)
      case Err(error) => result := HB.Err(error);
      case Ok(status) =>
        if status != HB.Running {
          return HB.Err(HB.NotRunning);
        }
        var terminal := if succeeded then HB.Succeeded else HB.Failed;
        var i := HB.WithId(table.rows, id);
        table.rows := table.rows[i := table.rows[i].(status := terminal)];
        result := HB.Ok(terminal);
    }
  }
}
