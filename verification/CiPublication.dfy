/** The crash-recoverable publication of a CI run, `ci_publish` of `scripts/sentinel-manifest.py`:
    one pending manifest, one candidate file and one binding file, written in checkpointed steps.
    A call may lose its process before any durable write and be invoked again. */
module CiPublication {
  import opened Basics
  import EL = EffectLedger
  import RM = RunManifest

  // ---------------------------------------------------------------- bytes and digests

  /** File contents.  Canonical JSON is modelled by the value it encodes. */
  datatype Content =
    | Bytes(text: string)
    | ManifestJson(manifest: Manifest)
    | BindingJson(binding: Binding)
    | CoreJson(core: Core)
    | OutputJson(output: Output)

  /** A digest field: empty, the digest of known contents, or some other text. */
  datatype Sha = Blank | ShaOf(content: Content) | OtherSha(text: string)

  datatype Core = Core(runId: string, input: Sha, metadata: Sha, normalized: Sha)

  datatype Binding = Binding(core: Core, output: Sha, manifest: Sha)

  datatype Handoff = Handoff(metadata: Sha, normalized: Sha, core: Sha)

  datatype Stage = Planned | CandidateCreated | BindingCreated

  datatype Publication = Publication(stage: Stage, candidate: Sha, binding: Sha)

  datatype Manifest = Manifest(runId: string, input: Sha, body: RM.Doc, requestCount: nat, actionSent: bool,
                               handoff: Option<Handoff>, publication: Option<Publication>, outputSha: Sha)

  datatype Output = Output(input: Sha, body: RM.Doc, requestCount: nat, actionSent: bool, handoff: Option<Handoff>)

  /** What the output digest covers: neither itself nor the publication checkpoint. */
  function OutputDigest(m: Manifest): Sha {
    ShaOf(OutputJson(Output(m.input, m.body, m.requestCount, m.actionSent, m.handoff)))
  }

  // ---------------------------------------------------------------- validation of CI manifests

  const CI_ORDER := [RM.OutputFree(0), RM.OutputFree(1), RM.VerifyCiArtifact, RM.CiNormalizeImport]

  predicate HandoffShaped(m: Manifest) {
    && (m.handoff.Some? ==>
          var h := m.handoff.value; !h.metadata.Blank? && !h.normalized.Blank? && !h.core.Blank?)
    && (m.publication.Some? ==>
          && !m.publication.value.candidate.Blank? && !m.publication.value.binding.Blank?
          && m.handoff.Some? && m.body.result == RM.Pending)
    && (!m.body.ci ==> m.handoff.None? && m.publication.None?)
  }

  predicate OutputHashed(m: Manifest) {
    if m.body.result == RM.Pending || m.body.result == RM.FailedResult then m.outputSha == Blank
    else m.outputSha == OutputDigest(m)
  }

  predicate CiTerminal(m: Manifest) {
    && m.handoff.Some? && m.publication.None? && m.requestCount == 0 && !m.actionSent
    && m.body.skips == [] && m.body.order == CI_ORDER && RM.AllPassed(m.body)
  }

  ghost predicate Valid(m: Manifest) {
    && RM.Valid(m.body) && HandoffShaped(m) && OutputHashed(m)
    && (m.body.ci && m.body.result == RM.PassedResult ==> CiTerminal(m))
  }

  // ---------------------------------------------------------------- what a call derives

  /** The three admitted inputs; an absent or empty file is `None`. */
  datatype Inputs = Inputs(artifact: Option<Content>, metadata: Option<Content>, normalized: Option<Content>,
                           normalizedParses: bool)

  datatype Dir = Dir(manifest: Content, candidate: Option<Content>, binding: Option<Content>)

  predicate Complete(i: Inputs) {
    i.artifact.Some? && i.metadata.Some? && i.normalized.Some?
  }

  function CoreOf(m: Manifest, metadata: Sha, normalized: Sha): Core {
    Core(m.runId, m.input, metadata, normalized)
  }

  function HandoffOf(m: Manifest, i: Inputs): Handoff
    requires Complete(i)
  {
    var (metadata, normalized) := (ShaOf(i.metadata.value), ShaOf(i.normalized.value));
    Handoff(metadata, normalized, ShaOf(CoreJson(CoreOf(m, metadata, normalized))))
  }

  function Anchored(m: Manifest, i: Inputs): Manifest
    requires Complete(i)
  {
    if m.handoff.None? then m.(handoff := Some(HandoffOf(m, i))) else m
  }

  function CandidateOf(m: Manifest): Manifest {
    var c := m.(publication := None, body := m.body.(result := RM.PassedResult), actionSent := false);
    c.(outputSha := OutputDigest(c))
  }

  function BindingOf(c: Manifest): Binding
    requires c.handoff.Some?
  {
    Binding(CoreOf(c, c.handoff.value.metadata, c.handoff.value.normalized), c.outputSha, ShaOf(ManifestJson(c)))
  }

  /** The bytes a call wants in the candidate and in the binding file. */
  function CandidateBytes(m: Manifest, i: Inputs): Content
    requires Complete(i)
  {
    ManifestJson(CandidateOf(Anchored(m, i)))
  }

  function BindingBytes(m: Manifest, i: Inputs): Content
    requires Complete(i)
  {
    BindingJson(BindingOf(CandidateOf(Anchored(m, i))))
  }

  /** Everything `ci_publish` demands before it looks at the publication checkpoint. */
  ghost predicate Publishable(m: Manifest, i: Inputs) {
    && Valid(m) && m.body.ci && m.body.result == RM.Pending && Complete(i)
    && ShaOf(i.artifact.value) == m.input
    && Anchored(m, i).handoff == Some(HandoffOf(m, i))
    && Valid(CandidateOf(Anchored(m, i)))
  }

  function AtStage(m: Manifest, i: Inputs, stage: Stage): Manifest
    requires Complete(i)
  {
    Anchored(m, i).(publication := Some(Publication(stage, ShaOf(CandidateBytes(m, i)), ShaOf(BindingBytes(m, i)))))
  }

  // ---------------------------------------------------------------- one durable write at a time

  datatype Move = Refuse | Write(dir: Dir) | Install(dir: Dir)

  /** What a call does next in this directory. */
  ghost function Next(dir: Dir, i: Inputs): Move {
    if !dir.manifest.ManifestJson? || !Publishable(dir.manifest.manifest, i) then Refuse else
    var m := dir.manifest.manifest;
    if m.publication.None? then Write(dir.(manifest := ManifestJson(AtStage(m, i, Planned)))) else
    if m != AtStage(m, i, m.publication.value.stage) then Refuse else
    NextWrite(dir, m.publication.value.stage, AtStage(m, i, CandidateCreated), AtStage(m, i, BindingCreated),
              CandidateBytes(m, i), BindingBytes(m, i))
  }

  function NextWrite(dir: Dir, stage: Stage, created: Manifest, bound: Manifest, candidate: Content,
                     binding: Content): Move {
    match stage
    case Planned =>
      if dir.binding.Some? || (dir.candidate.Some? && dir.candidate.value != candidate) then Refuse
      else if dir.candidate.None? then Write(dir.(candidate := Some(candidate)))
      else Write(dir.(manifest := ManifestJson(created)))
    case CandidateCreated =>
      if dir.candidate != Some(candidate) || (dir.binding.Some? && dir.binding.value != binding) then Refuse
      else if dir.binding.None? then Write(dir.(binding := Some(binding)))
      else Write(dir.(manifest := ManifestJson(bound)))
    case BindingCreated =>
      if dir.candidate != Some(candidate) || dir.binding != Some(binding) then Refuse
      else Install(Dir(candidate, None, dir.binding))
  }

  datatype Outcome = Published | Refused | Crashed

  /** A call that survives at most `writes` durable writes, each found by `next`. */
  ghost function Survive(next: Dir -> Move, dir: Dir, writes: nat): (Dir, Outcome)
    decreases writes
  {
    match next(dir)
    case Refuse => (dir, Refused)
    case Install(after) => if writes == 0 then (dir, Crashed) else (after, Published)
    case Write(after) => if writes == 0 then (dir, Crashed) else Survive(next, after, writes - 1)
  }

  ghost function Call(dir: Dir, i: Inputs, writes: nat): (Dir, Outcome) {
    Survive(d => Next(d, i), dir, writes)
  }

  /** Calls interrupted after the given numbers of writes, one after the other. */
  ghost function Calls(dir: Dir, i: Inputs, budgets: seq<nat>, n: nat): Dir
    requires n <= |budgets|
  {
    if n == 0 then dir else Call(Calls(dir, i, budgets, n - 1), i, budgets[n - 1]).0
  }

  /** More writes than any one call makes. */
  const ALL_WRITES := 6

  // ---------------------------------------------------------------- the recovery table

  /** The states a call can finish from, exactly. */
  ghost predicate Allowed(dir: Dir, i: Inputs) {
    && dir.manifest.ManifestJson? && Publishable(dir.manifest.manifest, i)
    && var m := dir.manifest.manifest;
       var (candidate, binding) := (CandidateBytes(m, i), BindingBytes(m, i));
       if m.publication.None? then dir.binding.None? && (dir.candidate.None? || dir.candidate == Some(candidate)) else
       && m == AtStage(m, i, m.publication.value.stage)
       && match m.publication.value.stage
          case Planned => dir.binding.None? && (dir.candidate.None? || dir.candidate == Some(candidate))
          case CandidateCreated => dir.candidate == Some(candidate)
              && (dir.binding.None? || dir.binding == Some(binding))
          case BindingCreated => dir.candidate == Some(candidate) && dir.binding == Some(binding)
  }

  /** The one state a publication ends in. */
  function Final(dir: Dir, i: Inputs): Dir
    requires dir.manifest.ManifestJson? && Complete(i)
  {
    Dir(CandidateBytes(dir.manifest.manifest, i), None, Some(BindingBytes(dir.manifest.manifest, i)))
  }

  /** Writing the checkpoint changes nothing a later call derives. */
  lemma CheckpointStable(m: Manifest, i: Inputs, stage: Stage)
    requires Publishable(m, i)
    ensures var d := AtStage(m, i, stage);
            && Publishable(d, i) && CandidateBytes(d, i) == CandidateBytes(m, i)
            && BindingBytes(d, i) == BindingBytes(m, i)
            && (forall s :: AtStage(d, i, s) == AtStage(m, i, s))
  {
    var d := AtStage(m, i, stage);
    assert d.body == m.body;
    assert CandidateOf(Anchored(d, i)) == CandidateOf(Anchored(m, i));
  }

  /** Writes left to the installation. */
  ghost function Left(dir: Dir): nat {
    if !dir.manifest.ManifestJson? then 0 else
    var p := dir.manifest.manifest.publication;
    if p.None? then (if dir.candidate.None? then 6 else 5) else
    match p.value.stage
    case Planned => if dir.candidate.None? then 5 else 4
    case CandidateCreated => if dir.binding.None? then 3 else 2
    case BindingCreated => 1
  }

  /** A write from an allowed state leads to an allowed state with the same end, one write closer. */
  lemma AllowedAdvances(dir: Dir, i: Inputs)
    requires Allowed(dir, i)
    ensures match Next(dir, i)
            case Refuse => false
            case Install(after) => after == Final(dir, i) && Left(dir) == 1
            case Write(after) => SameEnd(after, i, Final(dir, i)) && Left(after) == Left(dir) - 1
  {
    var m := dir.manifest.manifest;
    CheckpointStable(m, i, Planned);
    CheckpointStable(m, i, CandidateCreated);
    CheckpointStable(m, i, BindingCreated);
  }

  /** If every good state is one write closer to `end`, a call ends there or crashes into a good state. */
  lemma {:induction false} SurviveFrom(next: Dir -> Move, good: Dir -> bool, left: Dir -> nat, end: Dir, dir: Dir,
                                       writes: nat)
    requires forall d :: good(d) ==>
               match next(d)
               case Refuse => false
               case Install(after) => after == end && left(d) == 1
               case Write(after) => good(after) && left(after) == left(d) - 1
    requires good(dir)
    ensures var (after, outcome) := Survive(next, dir, writes);
            if left(dir) <= writes then outcome == Published && after == end else outcome == Crashed && good(after)
    decreases writes
  {
    if next(dir).Write? && writes > 0 {
      SurviveFrom(next, good, left, end, next(dir).dir, writes - 1);
    }
  }

  ghost predicate SameEnd(dir: Dir, i: Inputs, end: Dir) {
    Allowed(dir, i) && Final(dir, i) == end
  }

  lemma AllowedCall(dir: Dir, i: Inputs, end: Dir, writes: nat)
    requires SameEnd(dir, i, end)
    ensures var (after, outcome) := Call(dir, i, writes);
            if Left(dir) <= writes then outcome == Published && after == end
            else outcome == Crashed && SameEnd(after, i, end)
  {
    forall d | SameEnd(d, i, end) {
      AllowedAdvances(d, i);
    }
    SurviveFrom(d => Next(d, i), d => SameEnd(d, i, end), d => Left(d), end, dir, writes);
  }

  /** A refusal keeps everything; at most the plan is recorded before it. */
  ghost predicate Stuck(dir: Dir, i: Inputs, start: Dir) {
    && !Allowed(dir, i) && dir.candidate == start.candidate && dir.binding == start.binding
    && (dir.manifest == start.manifest
        || (Complete(i) && start.manifest.ManifestJson? && start.manifest.manifest.publication.None?
            && dir.manifest == ManifestJson(AtStage(start.manifest.manifest, i, Planned))))
  }

  lemma StuckStays(dir: Dir, i: Inputs, start: Dir)
    requires Stuck(dir, i, start)
    ensures match Next(dir, i)
            case Refuse => true
            case Install(_) => false
            case Write(after) => Stuck(after, i, start) && Next(after, i).Refuse?
  {
    hide Valid;
    if Next(dir, i).Write? {
      CheckpointStable(dir.manifest.manifest, i, Planned);
    }
  }

  lemma {:induction false} SurviveStuck(next: Dir -> Move, bad: Dir -> bool, dir: Dir, writes: nat)
    requires forall d :: bad(d) ==>
               match next(d)
               case Refuse => true
               case Install(_) => false
               case Write(after) => bad(after) && next(after).Refuse?
    requires bad(dir)
    ensures var (after, outcome) := Survive(next, dir, writes);
            bad(after) && outcome != Published && (writes > 0 ==> outcome == Refused)
    decreases writes
  {
    if next(dir).Write? && writes > 0 {
      SurviveStuck(next, bad, next(dir).dir, writes - 1);
    }
  }

  lemma StuckCall(dir: Dir, i: Inputs, start: Dir, writes: nat)
    requires Stuck(dir, i, start)
    ensures var (after, outcome) := Call(dir, i, writes);
            Stuck(after, i, start) && outcome != Published && (writes > 0 ==> outcome == Refused)
  {
    forall d | Stuck(d, i, start) {
      StuckStays(d, i, start);
    }
    SurviveStuck(d => Next(d, i), d => Stuck(d, i, start), dir, writes);
  }

  // ---------------------------------------------------------------- the promises

  /** An uninterrupted call publishes from the allowed states and from no others. */
  lemma {:induction false} PublishesExactly(dir: Dir, i: Inputs, writes: nat)
    requires ALL_WRITES <= writes
    ensures Call(dir, i, writes).1 == if Allowed(dir, i) then Published else Refused
    ensures Allowed(dir, i) ==> Call(dir, i, writes).0 == Final(dir, i)
  {
    if Allowed(dir, i) {
      AllowedCall(dir, i, Final(dir, i), writes);
    } else {
      StuckCall(dir, i, dir, writes);
    }
  }

  /** What is published of a pending manifest: the same run, now passed, whole, and without requests;
      its handoff and its binding hold the digests of the input files. */
  ghost predicate IsPublished(m: Manifest, i: Inputs, after: Dir) {
    && after.manifest.ManifestJson? && Complete(i) && after.candidate.None?
    && var c := after.manifest.manifest;
       var (artifact, metadata, normalized) :=
         (ShaOf(i.artifact.value), ShaOf(i.metadata.value), ShaOf(i.normalized.value));
       var core := Core(m.runId, artifact, metadata, normalized);
       && c.body == m.body.(result := RM.PassedResult) && m.body.ci && m.body.result == RM.Pending
       && |c.body.stages| == 4 && c.body.order == CI_ORDER && c.body.skips == []
       && (forall name :: name in CI_ORDER ==> name in c.body.stages && c.body.stages[name].status == RM.Passed)
       && c.runId == m.runId && c.input == m.input == artifact
       && c.requestCount == m.requestCount == 0 && !c.actionSent && c.publication.None?
       && c.handoff == Some(Handoff(metadata, normalized, ShaOf(CoreJson(core))))
       && c.outputSha == ShaOf(OutputJson(Output(c.input, c.body, 0, false, c.handoff)))
       && after.binding == Some(BindingJson(Binding(core, c.outputSha, ShaOf(after.manifest))))
  }

  lemma FinalIsPublished(dir: Dir, i: Inputs)
    requires Allowed(dir, i)
    ensures IsPublished(dir.manifest.manifest, i, Final(dir, i))
  {
    var m := dir.manifest.manifest;
    var c := CandidateOf(Anchored(m, i));
    assert c.body == m.body.(result := RM.PassedResult);
    AllFourPassed(c.body);
    hide RM.Valid, RM.AllPassed;
  }

  lemma AllFourPassed(body: RM.Doc)
    ensures RM.AllPassed(body) && body.order == CI_ORDER ==>
              && |body.stages| == 4
              && forall name :: name in CI_ORDER ==> name in body.stages && body.stages[name].status == RM.Passed
  {
    if RM.AllPassed(body) && body.order == CI_ORDER {
      forall name | name in CI_ORDER ensures name in body.stages && body.stages[name].status == RM.Passed {
        var k :| 0 <= k < 4 && CI_ORDER[k] == name;
        assert body.order[k] == name;
      }
    }
  }

  /** Whatever the directory held and however many writes the call survived: a call that says
      published leaves exactly that. */
  lemma {:induction false} PublishedMeans(dir: Dir, i: Inputs, writes: nat)
    requires Call(dir, i, writes).1 == Published
    ensures dir.manifest.ManifestJson? && IsPublished(dir.manifest.manifest, i, Call(dir, i, writes).0)
  {
    hide Call, IsPublished;
    if Allowed(dir, i) {
      AllowedCall(dir, i, Final(dir, i), writes);
      FinalIsPublished(dir, i);
    } else {
      StuckCall(dir, i, dir, writes);
    }
  }

  /** A valid pending manifest that was never published may be, exactly if it is a CI run of the four
      stages, all passed, without skips or requests, and the three inputs are there, the artifact the
      admitted one. */
  lemma PublishableExactly(m: Manifest, i: Inputs)
    requires Valid(m) && m.handoff.None? && m.publication.None?
    ensures Allowed(Dir(ManifestJson(m), None, None), i) <==>
              && m.body.ci && m.body.result == RM.Pending && Complete(i) && m.input == ShaOf(i.artifact.value)
              && m.body.order == CI_ORDER && RM.AllPassed(m.body) && m.body.skips == [] && m.requestCount == 0
  {
    if m.body.ci && m.body.result == RM.Pending && Complete(i) {
      PassingIsValid(m.body);
      var c := CandidateOf(Anchored(m, i));
      assert c.body == m.body.(result := RM.PassedResult) && c.handoff == Some(HandoffOf(m, i));
    }
    hide RM.Valid, RM.AllPassed;
  }

  lemma PassingIsValid(body: RM.Doc)
    requires RM.Valid(body)
    ensures RM.Valid(body.(result := RM.PassedResult))
    ensures RM.AllPassed(body.(result := RM.PassedResult)) <==> RM.AllPassed(body)
  {
    RM.ResultIsNotChecked(body, None);
    hide RM.LedgerGood, EL.Admissible, RM.SettledPairs;
  }

  /** However often a publication is interrupted and invoked again, it has either ended, or an
      uninterrupted call still takes it to the same single end. */
  lemma {:induction false} RecoveryCompletes(dir: Dir, i: Inputs, budgets: seq<nat>, n: nat, writes: nat)
    requires Allowed(dir, i) && n <= |budgets| && ALL_WRITES <= writes
    ensures var d := Calls(dir, i, budgets, n);
            d == Final(dir, i) || (SameEnd(d, i, Final(dir, i)) && Call(d, i, writes) == (Final(dir, i), Published))
  {
    InterruptedStaysAllowed(dir, i, budgets, n);
    var d := Calls(dir, i, budgets, n);
    if SameEnd(d, i, Final(dir, i)) {
      AllowedCall(d, i, Final(dir, i), writes);
    }
  }

  lemma {:induction false} InterruptedStaysAllowed(dir: Dir, i: Inputs, budgets: seq<nat>, n: nat)
    requires Allowed(dir, i) && n <= |budgets|
    ensures var d := Calls(dir, i, budgets, n); d == Final(dir, i) || SameEnd(d, i, Final(dir, i))
  {
    assert Complete(i);
    hide Call, Publishable, SameEnd, Final;
    if n == 0 {
      AllowedKeepsEnd(dir, i);
    } else {
      InterruptedStaysAllowed(dir, i, budgets, n - 1);
      var d := Calls(dir, i, budgets, n - 1);
      if d == Final(dir, i) {
        FinalIsTerminal(dir, i, budgets[n - 1]);
      } else {
        AllowedCall(d, i, Final(dir, i), budgets[n - 1]);
      }
    }
  }

  lemma AllowedKeepsEnd(dir: Dir, i: Inputs)
    requires Allowed(dir, i)
    ensures SameEnd(dir, i, Final(dir, i))
  {
  }

  lemma FinalIsTerminal(dir: Dir, i: Inputs, writes: nat)
    requires Allowed(dir, i)
    ensures Call(Final(dir, i), i, writes) == (Final(dir, i), Refused)
  {
  }

  /** Outside the table, such as beside foreign candidate or binding bytes, no number of calls
      writes either file, advances the checkpoint past the plan, or publishes. */
  lemma {:induction false} ForeignUntouched(dir: Dir, i: Inputs, budgets: seq<nat>, n: nat)
    requires !Allowed(dir, i) && n <= |budgets|
    ensures Stuck(Calls(dir, i, budgets, n), i, dir)
  {
    hide Valid, Next;
    if n > 0 {
      ForeignUntouched(dir, i, budgets, n - 1);
      StuckCall(Calls(dir, i, budgets, n - 1), i, dir, budgets[n - 1]);
    }
  }

  lemma ForeignIsStuck(dir: Dir, i: Inputs)
    requires dir.manifest.ManifestJson? && Complete(i)
    requires || (dir.candidate.Some? && dir.candidate.value != CandidateBytes(dir.manifest.manifest, i))
             || (dir.binding.Some? && dir.binding.value != BindingBytes(dir.manifest.manifest, i))
    ensures !Allowed(dir, i)
  {
  }

  // ---------------------------------------------------------------- verification of a published run

  /** `ci_verify`. */
  ghost predicate Verifies(dir: Dir, i: Inputs) {
    && dir.manifest.ManifestJson? && Complete(i) && i.normalizedParses
    && var m := dir.manifest.manifest;
       && Valid(m) && m.body.ci && ShaOf(i.artifact.value) == m.input
       && m.handoff == Some(HandoffOf(m, i))
       && dir.binding == Some(BindingJson(Binding(CoreOf(m, m.handoff.value.metadata, m.handoff.value.normalized),
                                                  m.outputSha, ShaOf(dir.manifest))))
  }

  /** What a publication leaves is accepted, provided the normalized lines parse. */
  lemma PublishedVerifies(dir: Dir, i: Inputs)
    requires Allowed(dir, i)
    ensures Verifies(Final(dir, i), i) <==> i.normalizedParses
  {
    var m := dir.manifest.manifest;
    var c := CandidateOf(Anchored(m, i));
    assert HandoffOf(c, i) == HandoffOf(m, i);
  }

  /** A verified directory holds a valid CI manifest over exactly these inputs; one that says passed has
      all four stages passed, no skips and no requests. */
  lemma VerifiedMeans(dir: Dir, i: Inputs)
    requires Verifies(dir, i)
    ensures dir.manifest.ManifestJson? && Complete(i) && i.normalizedParses
    ensures var m := dir.manifest.manifest;
            && RM.Valid(m.body) && m.body.ci && m.input == ShaOf(i.artifact.value) && m.handoff.Some?
            && m.handoff.value.metadata == ShaOf(i.metadata.value)
            && m.handoff.value.normalized == ShaOf(i.normalized.value)
            && dir.binding.Some?
            && (m.body.result == RM.PassedResult ==>
                  && m.requestCount == 0 && !m.actionSent && m.publication.None? && m.body.skips == []
                  && forall name :: name in CI_ORDER ==>
                       name in m.body.stages && m.body.stages[name].status == RM.Passed)
  {
    AllFourPassed(dir.manifest.manifest.body);
    hide RM.Valid, RM.AllPassed;
  }

  /** What makes a manifest malformed: an invalid body, a handoff or a checkpoint where none may be, a
      blank digest in them, or an output digest that is not the manifest's. */
  predicate Malformed(m: Manifest) {
    || (!m.body.ci && (m.handoff.Some? || m.publication.Some?))
    || (m.handoff.Some? && Blank in {m.handoff.value.metadata, m.handoff.value.normalized, m.handoff.value.core})
    || (m.publication.Some? && (m.handoff.None? || m.body.result != RM.Pending))
    || (m.publication.Some? && (m.publication.value.candidate == Blank || m.publication.value.binding == Blank))
    || (m.body.result == RM.Pending && m.outputSha != Blank)
    || (m.body.result == RM.PassedResult && m.outputSha != OutputDigest(m))
    || (m.body.ci && m.body.result == RM.PassedResult && m.handoff.None?)
  }

  /** A malformed manifest is neither published, whatever else the directory holds, nor verified. */
  lemma MalformedIsRefused(dir: Dir, i: Inputs, writes: nat)
    requires dir.manifest.ManifestJson?
    requires Malformed(dir.manifest.manifest) || !RM.Valid(dir.manifest.manifest.body)
    ensures Call(dir, i, writes) == (dir, Refused) && !Verifies(dir, i)
  {
    assert !Valid(dir.manifest.manifest);
    hide Malformed, RM.Valid, Valid;
  }

  /** The binding file pins the manifest and all three inputs. */
  lemma BindingPinsRun(a: Dir, i: Inputs, b: Dir, j: Inputs)
    requires Verifies(a, i) && Verifies(b, j) && a.binding == b.binding
    ensures a.manifest == b.manifest && i == j
  {
  }

  // ---------------------------------------------------------------- the run directory

  method Check(m: Manifest) returns (ok: bool)
    ensures ok <==> Valid(m)
  {
    ok := RM.Validate(m.body);
    ok := ok && HandoffShaped(m) && OutputHashed(m)
        && (m.body.ci && m.body.result == RM.PassedResult ==> CiTerminal(m));
  }

  method CheckPublishable(m: Manifest, i: Inputs) returns (ok: bool)
    ensures ok <==> Publishable(m, i)
  {
    ok := Check(m);
    if !ok || !m.body.ci || m.body.result != RM.Pending || !Complete(i) || ShaOf(i.artifact.value) != m.input
       || Anchored(m, i).handoff != Some(HandoffOf(m, i)) {
      return false;
    }
    ok := Check(CandidateOf(Anchored(m, i)));
  }

  /** A publication under way: the checkpoint is recorded and its digests are this call's. */
  ghost predicate UnderWay(dir: Dir, i: Inputs, m: Manifest, stage: Stage) {
    Publishable(m, i) && dir.manifest == ManifestJson(AtStage(m, i, stage))
  }

  lemma NextUnderWay(dir: Dir, i: Inputs, m: Manifest, stage: Stage)
    requires UnderWay(dir, i, m, stage)
    ensures Next(dir, i) == NextWrite(dir, stage, AtStage(m, i, CandidateCreated), AtStage(m, i, BindingCreated),
                                      CandidateBytes(m, i), BindingBytes(m, i))
  {
    CheckpointStable(m, i, stage);
  }

  /** A call that survives a write goes on as a fresh call would. */
  lemma CallGoesOn(dir: Dir, i: Inputs, writes: nat)
    ensures Call(dir, i, writes) ==
      match Next(dir, i)
      case Refuse => (dir, Refused)
      case Install(after) => if writes == 0 then (dir, Crashed) else (after, Published)
      case Write(after) => if writes == 0 then (dir, Crashed) else Call(after, i, writes - 1)
  {
    hide Next;
  }

  class RunDir {
    var manifest: Content
    var candidate: Option<Content>
    var binding: Option<Content>

    ghost function Current(): Dir
      reads this
    {
      Dir(manifest, candidate, binding)
    }

    constructor (dir: Dir)
      ensures Current() == dir
    {
      manifest, candidate, binding := dir.manifest, dir.candidate, dir.binding;
    }

    /** `ci_publish` in a process that survives `writes` durable writes. */
    method CiPublish(i: Inputs, writes: nat) returns (outcome: Outcome)
      modifies this
      ensures (Current(), outcome) == Call(old(Current()), i, writes)
      ensures outcome == Published ==>
                old(manifest).ManifestJson? && IsPublished(old(manifest).manifest, i, Current())
    {
      ghost var start := Current();
      outcome := Publish(i, writes);
      if outcome == Published {
        hide IsPublished, Call;
        PublishedMeans(start, i, writes);
      }
    }

    method Publish(i: Inputs, writes: nat) returns (outcome: Outcome)
      modifies this
      ensures (Current(), outcome) == Call(old(Current()), i, writes)
    {
      hide Valid, NextWrite;
      CallGoesOn(Current(), i, writes);
      if !manifest.ManifestJson? {
        return Refused;
      }
      var m := manifest.manifest;
      var ok := CheckPublishable(m, i);
      if !ok {
        return Refused;
      }
      if m.publication.None? {
        if writes == 0 {
          return Crashed;
        }
        manifest := ManifestJson(AtStage(m, i, Planned));
        assert UnderWay(Current(), i, m, Planned);
        outcome := Advance(i, m, Planned, writes - 1);
      } else if m != AtStage(m, i, m.publication.value.stage) {
        return Refused;
      } else {
        outcome := Advance(i, m, m.publication.value.stage, writes);
      }
    }

    /** The rest of the call, by the stage the reloaded checkpoint names. */
    method Advance(i: Inputs, m: Manifest, stage: Stage, writes: nat) returns (outcome: Outcome)
      requires UnderWay(Current(), i, m, stage)
      modifies this
      ensures (Current(), outcome) == Call(old(Current()), i, writes)
    {
      match stage
      case Planned => outcome := FromPlanned(i, m, writes);
      case CandidateCreated => outcome := FromCandidate(i, m, writes);
      case BindingCreated => outcome := FromBinding(i, m, writes);
    }

    method FromPlanned(i: Inputs, m: Manifest, writes: nat) returns (outcome: Outcome)
      requires UnderWay(Current(), i, m, Planned)
      modifies this
      ensures (Current(), outcome) == Call(old(Current()), i, writes)
    {
      hide Valid, Next;
      var left := writes;
      Foresee(Current(), i, m, Planned, left);
      if binding.Some? || (candidate.Some? && candidate.value != CandidateBytes(m, i)) {
        return Refused;
      }
      if candidate.None? {
        if left == 0 {
          return Crashed;
        }
        candidate, left := Some(CandidateBytes(m, i)), left - 1;
        Foresee(Current(), i, m, Planned, left);
      }
      if left == 0 {
        return Crashed;
      }
      manifest := ManifestJson(AtStage(m, i, CandidateCreated));
      outcome := FromCandidate(i, m, left - 1);
    }

    method FromCandidate(i: Inputs, m: Manifest, writes: nat) returns (outcome: Outcome)
      requires UnderWay(Current(), i, m, CandidateCreated)
      modifies this
      ensures (Current(), outcome) == Call(old(Current()), i, writes)
    {
      hide Valid, Next;
      var left := writes;
      Foresee(Current(), i, m, CandidateCreated, left);
      if candidate != Some(CandidateBytes(m, i)) || (binding.Some? && binding.value != BindingBytes(m, i)) {
        return Refused;
      }
      if binding.None? {
        if left == 0 {
          return Crashed;
        }
        binding, left := Some(BindingBytes(m, i)), left - 1;
        Foresee(Current(), i, m, CandidateCreated, left);
      }
      if left == 0 {
        return Crashed;
      }
      manifest := ManifestJson(AtStage(m, i, BindingCreated));
      outcome := FromBinding(i, m, left - 1);
    }

    method FromBinding(i: Inputs, m: Manifest, writes: nat) returns (outcome: Outcome)
      requires UnderWay(Current(), i, m, BindingCreated)
      modifies this
      ensures (Current(), outcome) == Call(old(Current()), i, writes)
    {
      hide Valid, Next;
      Foresee(Current(), i, m, BindingCreated, writes);
      if candidate != Some(CandidateBytes(m, i)) || binding != Some(BindingBytes(m, i)) {
        return Refused;
      }
      if writes == 0 {
        return Crashed;
      }
      manifest, candidate := candidate.value, None;
      outcome := Published;
    }
  }

  /** What the call will do from here, one write at a time. */
  lemma Foresee(dir: Dir, i: Inputs, m: Manifest, stage: Stage, writes: nat)
    requires UnderWay(dir, i, m, stage)
    ensures Call(dir, i, writes) ==
      match NextWrite(dir, stage, AtStage(m, i, CandidateCreated), AtStage(m, i, BindingCreated),
                      CandidateBytes(m, i), BindingBytes(m, i))
      case Refuse => (dir, Refused)
      case Install(after) => if writes == 0 then (dir, Crashed) else (after, Published)
      case Write(after) => if writes == 0 then (dir, Crashed) else Call(after, i, writes - 1)
  {
    NextUnderWay(dir, i, m, stage);
    CallGoesOn(dir, i, writes);
  }
}
