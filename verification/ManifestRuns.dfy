/** What whole runs of the manifest commands of `scripts/sentinel-manifest.py` promise: which runs are
    passed, resumed and finished, and that the commands a run needs are never refused. */
module ManifestRuns {
  import opened Basics
  import opened RunManifest
  import EL = EffectLedger

  /** The manifest after these commands, from an empty one. */
  ghost function Reached(ci: bool, identity: Identity, order: seq<Stage>, commands: seq<Command>): Doc {
    Run(Initial(ci, identity, order), commands)
  }

  lemma {:induction false} ReachedIsBound(ci: bool, identity: Identity, order: seq<Stage>, commands: seq<Command>,
                                          files: Files)
    requires FilesKept(commands, files)
    ensures var doc := Reached(ci, identity, order, commands);
            && BoundTo(doc, files) && FailsLast(doc) && PendingMeansClean(doc)
            && (doc.ci, doc.order, doc.identity) == (ci, order, identity)
  {
    var start := Initial(ci, identity, order);
    SettledUpTo(start, 0, |order|);
    RunKeepsBound(start, commands, files);
    RunKeepsClean(start, commands);
    RunKeepsIdentity(start, commands);
    hide Run, LedgerGood;
  }

  // ---------------------------------------------------------------- an ended run stays as it is

  /** Once its result is no longer pending, no command changes a manifest. */
  lemma {:induction false} EndedIsFinal(doc: Doc, commands: seq<Command>)
    requires doc.result != Pending
    ensures Run(doc, commands) == doc
    decreases |commands|
  {
    if commands != [] {
      assert Apply(doc, commands[0]) == doc by {
        hide Valid, LedgerGood, EffectFilesBound, NothingHangs;
      }
      EndedIsFinal(doc, commands[1..]);
    }
  }

  // ---------------------------------------------------------------- what a passed run stands for

  /** Every stage of the order passed with its checkpoint in place, none was skipped, and no effect is
      left open. */
  ghost predicate Complete(doc: Doc, files: Files) {
    && !doc.ci && |doc.stages| == |doc.order| && doc.skips == []
    && PassedPrefix(doc, files) && forall pair :: Closed(EL.HistoryOf(doc.effects, pair))
  }

  ghost predicate PassedIsComplete(doc: Doc, files: Files) {
    doc.result == PassedResult ==> Complete(doc, files)
  }

  lemma StepKeepsComplete(doc: Doc, c: Command, files: Files)
    requires PendingMeansClean(doc) && PassedIsComplete(doc, files) && Grows(c.files, files)
    ensures PassedIsComplete(Apply(doc, c), files)
  {
    hide Complete, Grows, PendingMeansClean, Valid, LedgerGood, EffectFilesBound, NothingHangs;
    if doc.result != Pending {
      EndedIsFinal(doc, [c]);
      assert Run(Apply(doc, c), []) == Apply(doc, c);
      assert [c][1..] == [];
    } else if c.Finalize? && MayFinalize(doc, c.files) {
      FinalizedIsComplete(doc, c.files);
      CompleteGrows(doc.(result := PassedResult), c.files, files);
    } else {
      assert Apply(doc, c).result != PassedResult by {
        hide MayStage, MayAddEffect, MayFinalize;
      }
    }
  }

  lemma FinalizedIsComplete(doc: Doc, files: Files)
    requires PendingMeansClean(doc) && MayFinalize(doc, files)
    ensures Complete(doc.(result := PassedResult), files)
  {
    FinalizeChecks(doc, files);
    CleanIsPassedPrefix(doc, files);
    ClosedExactly(doc);
    SamePrefix(doc, doc.(result := PassedResult), files);
    hide *;
    CompleteFrom(doc, files);
  }

  lemma FinalizeChecks(doc: Doc, files: Files)
    requires MayFinalize(doc, files)
    ensures StagesShaped(doc) && LedgerGood(doc, Some(files)) && NothingHangs(doc) && !doc.ci
    ensures doc.result == Pending && doc.skips == [] && |doc.stages| == |doc.order|
  {
    hide LedgerGood, StagesShaped, NothingHangs, SkipsShaped, EL.Admissible, EffectFilesBound;
  }

  lemma SamePrefix(doc: Doc, after: Doc, files: Files)
    requires PassedPrefix(doc, files) && after == doc.(result := after.result)
    ensures PassedPrefix(after, files)
  {
    forall i | 0 <= i < |doc.stages| ensures CheckpointInPlace(after, files, i) {
      assert CheckpointInPlace(doc, files, i);
    }
    hide CheckpointInPlace;
  }

  lemma CompleteFrom(doc: Doc, files: Files)
    requires !doc.ci && |doc.stages| == |doc.order| && doc.skips == []
    requires PassedPrefix(doc.(result := PassedResult), files) && forall pair :: Closed(EL.HistoryOf(doc.effects, pair))
    ensures Complete(doc.(result := PassedResult), files)
  {
    hide PassedPrefix, Closed;
  }

  lemma CompleteGrows(doc: Doc, a: Files, b: Files)
    requires Complete(doc, a) && Grows(a, b)
    ensures Complete(doc, b)
  {
    forall i | 0 <= i < |doc.stages| ensures CheckpointInPlace(doc, b, i) {
      assert CheckpointInPlace(doc, a, i);
    }
    hide CheckpointInPlace, Closed;
  }

  lemma {:induction false} RunKeepsComplete(doc: Doc, commands: seq<Command>, files: Files)
    requires BoundTo(doc, files) && PendingMeansClean(doc) && FailsLast(doc) && PassedIsComplete(doc, files)
    requires FilesKept(commands, files)
    ensures PassedIsComplete(Run(doc, commands), files)
    decreases |commands|
  {
    hide BoundTo, PendingMeansClean, PassedIsComplete, FailsLast;
    if commands != [] {
      StepKeepsComplete(doc, commands[0], files);
      StepKeepsBound(doc, commands[0], files);
      StepKeepsClean(doc, commands[0]);
      StepKeepsFailsLast(doc, commands[0]);
      RunKeepsComplete(Apply(doc, commands[0]), commands[1..], files);
    }
  }

  /** On every run from `init_v2`, a manifest that says passed is complete. */
  lemma {:induction false} PassedRunIsComplete(ci: bool, identity: Identity, order: seq<Stage>, commands: seq<Command>,
                                               files: Files)
    requires FilesKept(commands, files) && Reached(ci, identity, order, commands).result == PassedResult
    ensures Complete(Reached(ci, identity, order, commands), files)
  {
    ReachedIsBound(ci, identity, order, [], files);
    RunKeepsComplete(Initial(ci, identity, order), commands, files);
  }

  /** And a pending run is finalized exactly if it is a local one, every stage of its order passed,
      none was skipped, and no effect is left open. */
  lemma {:induction false} FinalizesExactly(ci: bool, identity: Identity, order: seq<Stage>, commands: seq<Command>,
                                            files: Files)
    requires FilesKept(commands, files)
    ensures var doc := Reached(ci, identity, order, commands);
            MayFinalize(doc, files) <==>
              && order != [] && doc.result == Pending && !ci && doc.skips == []
              && (forall name :: name in order ==> name in doc.stages && doc.stages[name].status == Passed)
              && (forall pair :: Closed(EL.HistoryOf(doc.effects, pair)))
  {
    ReachedIsBound(ci, identity, order, commands, files);
    var doc := Reached(ci, identity, order, commands);
    AllPassedExactly(doc);
    ClosedExactly(doc);
    assert StagesShaped(doc) ==> order != [];
    hide Reached, LedgerGood, EffectFilesBound, EL.Admissible, SkipsShaped, StagesShaped, AllPassed, NothingHangs;
    assert order != [] ==> order[0] in order;
  }

  lemma AllPassedExactly(doc: Doc)
    requires doc.stages == map[] || StagesShaped(doc)
    ensures doc.order != [] ==>
              (AllPassed(doc) <==>
                 forall name :: name in doc.order ==> name in doc.stages && doc.stages[name].status == Passed)
  {
    if forall name :: name in doc.order ==> name in doc.stages && doc.stages[name].status == Passed {
      forall i | 0 <= i < |doc.order| ensures doc.order[i] in doc.stages && doc.stages[doc.order[i]].status == Passed {
        assert doc.order[i] in doc.order;
      }
      assert doc.order != [] ==> doc.order[|doc.order| - 1] in doc.stages;
    }
  }

  /** Nothing hangs exactly if every history says nothing or ends with an outcome. */
  lemma ClosedExactly(doc: Doc)
    ensures NothingHangs(doc) <==> forall pair :: Closed(EL.HistoryOf(doc.effects, pair))
  {
    hide EL.HistoryOf;
    forall pair ensures !EL.Hanging(EL.HistoryOf(doc.effects, pair)) <==> Closed(EL.HistoryOf(doc.effects, pair)) {
    }
  }

  /** Finalizing looks at the files itself: on every run, whatever became of the files meanwhile, what
      it passes is complete with the files it saw. */
  lemma {:induction false} FinalizeIsSound(ci: bool, identity: Identity, order: seq<Stage>, commands: seq<Command>,
                                           files: Files)
    requires MayFinalize(Reached(ci, identity, order, commands), files)
    ensures var doc := Reached(ci, identity, order, commands);
            Complete(doc.(result := PassedResult), files) && EffectFilesBound(doc, files)
  {
    RunKeepsClean(Initial(ci, identity, order), commands);
    FinalizedIsComplete(Reached(ci, identity, order, commands), files);
  }

  /** The manifest names this file: in a checkpoint, as an intent or as an observation. */
  predicate Named(doc: Doc, p: Path) {
    || (exists i, k :: 0 <= i < |doc.ledger| && 0 <= k < |doc.ledger[i].entries| && doc.ledger[i].entries[k].path == p)
    || (exists i :: 0 <= i < |doc.effects| && InEvent(doc.effects[i], p))
  }

  predicate InEvent(e: EL.Event, p: Path) {
    e.intent.path == p || (e.observation.Some? && e.observation.value.path == p)
  }

  predicate Tampered(files: Files, altered: Files, p: Path) {
    p in files && (p !in altered || altered[p].sha256 != files[p].sha256)
  }

  /** A file that is missing or has other bytes is noticed: what could be resumed or finalized no
      longer can, by whatever identity. */
  lemma TamperedIsRefused(doc: Doc, files: Files, altered: Files, identity: Identity, claimed: Identity, p: Path)
    requires MayResume(doc, files, identity) || MayFinalize(doc, files)
    requires Named(doc, p) && Tampered(files, altered, p)
    ensures !MayResume(doc, altered, claimed) && !MayFinalize(doc, altered)
  {
    hide Valid, NothingHangs, AllPassed, EffectWithoutStage;
    if exists i, k :: 0 <= i < |doc.ledger| && 0 <= k < |doc.ledger[i].entries| && doc.ledger[i].entries[k].path == p {
      var i, k :| 0 <= i < |doc.ledger| && 0 <= k < |doc.ledger[i].entries| && doc.ledger[i].entries[k].path == p;
      if LedgerGood(doc, Some(altered)) {
        EntryVouched(doc, files, i, k);
        EntryVouched(doc, altered, i, k);
        assert false;
      }
    } else {
      var i :| 0 <= i < |doc.effects| && InEvent(doc.effects[i], p);
      if EffectFilesBound(doc, altered) {
        EventVouched(doc, files, i, p);
        EventVouched(doc, altered, i, p);
        assert false;
      }
    }
    hide LedgerGood, EffectFilesBound;
  }

  lemma EventVouched(doc: Doc, files: Files, i: nat, p: Path)
    requires EffectFilesBound(doc, files) && i < |doc.effects| && InEvent(doc.effects[i], p)
    ensures var e := doc.effects[i];
            p in files
            && files[p].sha256 == if e.intent.path == p then e.intent.sha256 else e.observation.value.sha256
  {
    assert EventBound(doc.effects[i], files);
  }

  lemma EntryVouched(doc: Doc, files: Files, i: nat, k: nat)
    requires LedgerGood(doc, Some(files)) && i < |doc.ledger| && k < |doc.ledger[i].entries|
    ensures var e := doc.ledger[i].entries[k]; e.path in files && files[e.path].sha256 == e.sha256
  {
    assert GoodAt(doc, SettledInOrder(doc, |doc.order|), i, Some(files));
    assert FileMatches(Some(files), doc.ledger[i].entries[k]);
  }

  // ---------------------------------------------------------------- when a run may be resumed

  /** A run whose files are all still there is resumed exactly if it is pending without skips, the
      claimed identity is its own, no effect is left open, and each effect's stage passed. */
  lemma {:induction false} ResumesExactly(ci: bool, identity: Identity, order: seq<Stage>, commands: seq<Command>,
                                          files: Files, claimed: Identity)
    requires FilesKept(commands, files) && Valid(Reached(ci, identity, order, commands))
    ensures var doc := Reached(ci, identity, order, commands);
            MayResume(doc, files, claimed) <==>
              && doc.result == Pending && doc.skips == [] && claimed == identity
              && (forall pair :: Closed(EL.HistoryOf(doc.effects, pair)))
              && (forall i :: 0 <= i < |doc.effects| ==> StagePassed(doc, doc.effects[i].pair))
  {
    ReachedIsBound(ci, identity, order, commands, files);
    var doc := Reached(ci, identity, order, commands);
    ClosedExactly(doc);
    hide Reached, LedgerGood, EffectFilesBound, Valid, NothingHangs;
  }

  predicate StagePassed(doc: Doc, pair: EL.Pair) {
    match pair
    case Import => ScanRedactImport in doc.stages && doc.stages[ScanRedactImport].status == Passed
    case Executor => RunManifest.Executor in doc.stages && doc.stages[RunManifest.Executor].status == Passed
    case Foreign(_, _) => false
  }

  // ---------------------------------------------------------------- what every run's records say

  predicate HasOutcome(events: seq<EL.Event>, pair: EL.Pair) {
    exists i :: 0 <= i < |events| && events[i].pair == pair
                && (events[i].state == EL.Observed || events[i].state == EL.Recovered)
  }

  lemma OutcomeIsOnRecord(events: seq<EL.Event>, pair: EL.Pair)
    requires EL.HasOutcome(EL.HistoryOf(events, pair))
    ensures HasOutcome(events, pair)
  {
    var h := EL.HistoryOf(events, pair);
    var k :| 0 <= k < |h| && (h[k] == EL.Observed || h[k] == EL.Recovered);
    var i := EL.Projected(events, |events|, pair, k);
  }

  predicate Has(files: Files, path: string, kind: string) {
    Path(path) in files && Kind(kind) in files[Path(path)].kinds
  }

  /** The artifacts a stage owns, as they stand among the files. */
  predicate HasArtifacts(files: Files, name: Stage) {
    match name
    case ScanRedactImport =>
      && Has(files, "phase1/scan-admission.json", "scan-admission/v1")
      && Has(files, "phase1/nuclei.sanitized.jsonl", "nuclei-sanitized-jsonl/v1")
      && Has(files, "phase1/import-intent.json", "import-intent/v1")
      && Has(files, "phase1/import-observation.json", "import-observation/v1")
    case AnalysisReport =>
      Has(files, "normalized.jsonl", "normalized-jsonl/v1") && Has(files, "report.jsonl", "report-jsonl/v1")
    case Proposal => Has(files, "request-spec.json", "request-spec/v1")
    case Approval => Has(files, "approval.json", "approval/v1")
    case Executor =>
      || ((Has(files, "receipt.json", "receipt/v1") || Has(files, "receipt.json", "receipt/v2"))
          && Has(files, "request-descriptor.json", "request-descriptor/v1"))
      || (Has(files, "audit-recovery.json", "audit-recovery/v1")
          && Has(files, "audit-recovery-report.json", "audit-recovery-report/v1")
          && Has(files, "audit-evaluation.json", "audit-evaluation/v1"))
    case VerifyCiArtifact => Has(files, "trivy.admitted.json", "trivy-sanitized-json/v1")
                             && Has(files, "trivy.admitted.metadata.json", "trivy-metadata/v1")
    case CiNormalizeImport => Has(files, "trivy.normalized.jsonl", "normalized-jsonl/v1")
    case OutputFree(_) => true
  }

  lemma {:induction false} KindsAreFileKinds(entries: seq<Entry>, n: nat, seen: set<Path>, files: Files, p: Path)
    requires n <= |entries| && EntriesGood(entries, n, seen, Some(files)) && p in KindsOf(entries, n)
    ensures p in files && KindsOf(entries, n)[p] in files[p].kinds
  {
    var last := entries[n - 1];
    if p != last.path {
      KindsAreFileKinds(entries, n - 1, seen, files, p);
    } else {
      assert FileMatches(Some(files), last);
    }
  }

  predicate Covers(files: Files, got: map<Path, Kind>) {
    forall p :: p in got ==> p in files && got[p] in files[p].kinds
  }

  /** A path of the contract with its one kind. */
  lemma Owned(files: Files, name: Stage, got: map<Path, Kind>, path: string, kind: string)
    requires Covers(files, got) && MeetsContract(name, got)
    requires Path(path) in Contract(name) && Contract(name)[Path(path)] == {Kind(kind)}
    ensures Has(files, path, kind)
  {
    assert Path(path) in got;
  }

  lemma ContractHasArtifacts(files: Files, name: Stage, got: map<Path, Kind>)
    requires Covers(files, got) && MeetsContract(name, got)
    ensures HasArtifacts(files, name)
  {
    hide MeetsContract, Covers, Has;
    match name
    case ScanRedactImport =>
      Owned(files, name, got, "phase1/scan-admission.json", "scan-admission/v1");
      Owned(files, name, got, "phase1/nuclei.sanitized.jsonl", "nuclei-sanitized-jsonl/v1");
      Owned(files, name, got, "phase1/import-intent.json", "import-intent/v1");
      Owned(files, name, got, "phase1/import-observation.json", "import-observation/v1");
    case AnalysisReport =>
      Owned(files, name, got, "normalized.jsonl", "normalized-jsonl/v1");
      Owned(files, name, got, "report.jsonl", "report-jsonl/v1");
    case Proposal => Owned(files, name, got, "request-spec.json", "request-spec/v1");
    case Approval => Owned(files, name, got, "approval.json", "approval/v1");
    case Executor =>
      Owned(files, name, got, "request-descriptor.json", "request-descriptor/v1");
      OwnedReceipt(files, got);
    case VerifyCiArtifact =>
      Owned(files, name, got, "trivy.admitted.json", "trivy-sanitized-json/v1");
      Owned(files, name, got, "trivy.admitted.metadata.json", "trivy-metadata/v1");
    case CiNormalizeImport => Owned(files, name, got, "trivy.normalized.jsonl", "normalized-jsonl/v1");
    case OutputFree(_) =>
  }

  lemma OwnedReceipt(files: Files, got: map<Path, Kind>)
    requires Covers(files, got) && MeetsContract(RunManifest.Executor, got)
    ensures Has(files, "receipt.json", "receipt/v1") || Has(files, "receipt.json", "receipt/v2")
  {
    assert Path("receipt.json") in Contract(RunManifest.Executor);
  }

  lemma AuditHasArtifacts(files: Files, got: map<Path, Kind>)
    requires Covers(files, got) && got == AUDIT_CONTRACT
    ensures HasArtifacts(files, RunManifest.Executor)
  {
    assert AUDIT in got && AUDIT_REPORT in got && AUDIT_EVALUATION in got;
  }

  /** On every run, a stage that passed has its artifacts, each of the kind its contract names. */
  lemma {:induction false} PassedStageHasArtifacts(ci: bool, identity: Identity, order: seq<Stage>,
                                                   commands: seq<Command>, files: Files, name: Stage)
    requires FilesKept(commands, files)
    requires var doc := Reached(ci, identity, order, commands); name in doc.stages && doc.stages[name].status == Passed
    ensures HasArtifacts(files, name)
  {
    ReachedIsBound(ci, identity, order, commands, files);
    var doc := Reached(ci, identity, order, commands);
    hide Reached;
    SettledHasArtifacts(doc, files, name);
  }

  lemma SettledHasArtifacts(doc: Doc, files: Files, name: Stage)
    requires StagesShaped(doc) && LedgerGood(doc, Some(files)) && Settled(doc, name)
    ensures HasArtifacts(files, name)
  {
    var settled := SettledInOrder(doc, |doc.order|);
    SettledAreRecorded(doc, |doc.order|);
    assert doc.order[doc.stages[name].index] == name && doc.order[..|doc.order|] == doc.order;
    var i :| 0 <= i < |settled| && settled[i] == name;
    assert GoodAt(doc, settled, i, Some(files));
    var entries := doc.ledger[i].entries;
    var got := KindsOf(entries, |entries|);
    hide StagesShaped, MeetsContract, HasArtifacts;
    forall p | p in got ensures p in files && got[p] in files[p].kinds {
      KindsAreFileKinds(entries, |entries|, LedgerPaths(doc.ledger, i), files, p);
    }
    if IsAuditCheckpoint(name, got) {
      AuditHasArtifacts(files, got);
    } else {
      ContractHasArtifacts(files, name, got);
    }
  }

  /** On every run the recorded stages are a prefix of the order, the skips are exactly the stages
      recorded as skipped, and a remote stage passed only with an outcome of its effect on record. */
  lemma {:induction false} RecordsAreTrue(ci: bool, identity: Identity, order: seq<Stage>, commands: seq<Command>,
                                          files: Files)
    requires FilesKept(commands, files)
    ensures var doc := Reached(ci, identity, order, commands);
            && |doc.stages| <= |order|
            && (forall i :: 0 <= i < |order| ==> (order[i] in doc.stages <==> i < |doc.stages|))
            && (forall name :: name in doc.skips <==> name in doc.stages && doc.stages[name].status == Skipped)
            && (forall i, j :: 0 <= i < j < |doc.skips| ==> doc.skips[i] != doc.skips[j])
            && (StagePassed(doc, EL.Import) ==> HasOutcome(doc.effects, EL.Import))
            && (StagePassed(doc, EL.Executor) ==> HasOutcome(doc.effects, EL.Executor))
  {
    ReachedIsBound(ci, identity, order, commands, files);
    var doc := Reached(ci, identity, order, commands);
    RunKeepsNoSkips(Initial(ci, identity, order), commands);
    hide Reached, Run, LedgerGood, EffectFilesBound, RecoveredShape, HasOutcome, EL.HasOutcome;
    if StagePassed(doc, EL.Import) {
      assert EL.Import in SettledPairs(doc);
      OutcomeIsOnRecord(doc.effects, EL.Import);
    }
    if StagePassed(doc, EL.Executor) {
      assert EL.Executor in SettledPairs(doc);
      OutcomeIsOnRecord(doc.effects, EL.Executor);
    }
  }

  /** The result tells how the run ended. */
  ghost predicate ResultTold(doc: Doc) {
    && (doc.result == FailedResult <==> exists name :: name in doc.stages && doc.stages[name].status == Failed)
    && (doc.result == RejectedResult <==> exists name :: name in doc.stages && doc.stages[name].status == Rejected)
    && (doc.result == PassedResult ==> forall name :: name in doc.order ==> Settled(doc, name))
    && doc.result != RecoveredResult
  }

  lemma StagingTells(doc: Doc, name: Stage, status: Status, entries: Option<seq<Entry>>)
    requires ResultTold(doc) && StageInTurn(doc, name, status, entries) && name !in doc.stages
    ensures ResultTold(Staged(doc, name, status, entries))
  {
    var after := Staged(doc, name, status, entries);
    assert after.stages[name].status == status;
    forall other | other in doc.stages ensures other in after.stages && after.stages[other] == doc.stages[other] {
    }
  }

  lemma StepTells(doc: Doc, c: Command)
    requires ResultTold(doc)
    ensures ResultTold(Apply(doc, c))
  {
    hide LedgerGood, EffectFilesBound, NothingHangs, EL.Admissible, SkipsShaped;
    match c
    case StageV2(_, name, status, entries) =>
      if MayStage(doc, c.files, name, status, entries) {
        InTurnIsNew(doc, name);
        StagingTells(doc, name, status, entries);
      }
    case Effect(_, _) =>
    case Finalize(_) =>
  }

  /** On every run the result is failed exactly if a stage failed and rejected exactly if one was
      rejected, passed only with every stage of the order settled, and otherwise still pending. */
  lemma {:induction false} ResultIsTrue(ci: bool, identity: Identity, order: seq<Stage>, commands: seq<Command>)
    ensures ResultTold(Reached(ci, identity, order, commands))
  {
    RunTells(Initial(ci, identity, order), commands);
  }

  lemma {:induction false} RunTells(doc: Doc, commands: seq<Command>)
    requires ResultTold(doc)
    ensures ResultTold(Run(doc, commands))
    decreases |commands|
  {
    hide ResultTold, Apply;
    if commands != [] {
      StepTells(doc, commands[0]);
      RunTells(Apply(doc, commands[0]), commands[1..]);
    }
  }

  /** Nothing is skipped before anything is recorded. */
  lemma {:induction false} RunKeepsNoSkips(doc: Doc, commands: seq<Command>)
    requires doc.stages == map[] ==> doc.skips == []
    ensures Run(doc, commands).stages == map[] ==> Run(doc, commands).skips == []
    decreases |commands|
  {
    hide MayStage, MayAddEffect, MayFinalize;
    if commands != [] {
      var after := Apply(doc, commands[0]);
      assert after.stages == map[] ==> doc.stages == map[] && after.skips == doc.skips;
      RunKeepsNoSkips(after, commands[1..]);
    }
  }

  // ---------------------------------------------------------------- nothing a run needs is refused

  /** A stage in turn may always be recorded as failed, rejected or skipped. */
  lemma StageInTurnEnds(doc: Doc, files: Files, name: Stage, status: Status)
    requires Valid(doc) && StageInTurn(doc, name, status, None)
    ensures MayStage(doc, files, name, status, None)
  {
    hide LedgerGood, EL.Admissible;
    InTurnIsNew(doc, name);
    NewStageKeepsStages(doc, name, status, None);
    EndedKeepsLedger(doc, name, status);
    EndedKeepsSkips(doc, name, status);
    hide StagesShaped, SkipsShaped, SettledPairs;
  }

  lemma EndedKeepsSkips(doc: Doc, name: Stage, status: Status)
    requires SkipsShaped(doc) && name !in doc.stages
    ensures SkipsShaped(Staged(doc, name, status, None))
  {
  }

  lemma EndedKeepsLedger(doc: Doc, name: Stage, status: Status)
    requires LedgerGood(doc, None) && name !in doc.stages && status != Passed && status != Recovered
    ensures LedgerGood(Staged(doc, name, status, None), None)
    ensures SettledPairs(Staged(doc, name, status, None)) == SettledPairs(doc)
  {
    hide LedgerGood;
    var trial := Staged(doc, name, status, None);
    forall i | 0 <= i < |doc.order| ensures Settled(trial, doc.order[i]) <==> Settled(doc, doc.order[i]) {
    }
    SettledBefore(doc, trial, |doc.order|);
    SettledAreRecorded(doc, |doc.order|);
    OtherRecordsKeepLedger(doc, trial, None);
  }

  lemma OtherRecordsKeepLedger(doc: Doc, trial: Doc, files: Option<Files>)
    requires LedgerGood(doc, files) && trial.ledger == doc.ledger
    requires SettledInOrder(trial, |trial.order|) == SettledInOrder(doc, |doc.order|)
    requires forall name :: name in SettledInOrder(doc, |doc.order|) && name in doc.stages ==>
               name in trial.stages && trial.stages[name] == doc.stages[name]
    ensures LedgerGood(trial, files)
  {
    var settled := SettledInOrder(doc, |doc.order|);
    forall i | 0 <= i < |settled| ensures GoodAt(trial, settled, i, files) {
      assert GoodAt(doc, settled, i, files) && settled[i] in settled;
      hide KindsOf, LedgerPaths, MeetsContract, EntriesGood, SettledInOrder;
    }
    hide GoodAt;
  }

  /** The event names an intent that was prepared, if it is an outcome. */
  predicate AnswersIntent(events: seq<EL.Event>, e: EL.Event) {
    e.state == EL.Observed || e.state == EL.Unknown ==>
      forall i :: 0 <= i < |events| && events[i].pair == e.pair && events[i].state == EL.Prepared ==>
        events[i].intent == e.intent
  }

  /** The file is there with these bytes and reads as this kind. */
  predicate IsThere(files: Files, f: FileRef, kind: string) {
    f.path in files && files[f.path].sha256 == f.sha256 && Kind(kind) in files[f.path].kinds
  }

  predicate NamesItsFiles(e: EL.Event, files: Files) {
    match e.pair
    case Import =>
      && IsThere(files, e.intent, "import-intent/v1")
      && (e.observation.Some? ==> IsThere(files, e.observation.value, "import-observation/v1"))
    case Executor =>
      && IsThere(files, e.intent, "request-spec/v1")
      && (e.observation.Some? && e.state != EL.Recovered ==>
            IsThere(files, e.observation.value, "receipt/v1") || IsThere(files, e.observation.value, "receipt/v2"))
      && (e.observation.Some? && e.state == EL.Recovered ==>
            && IsThere(files, e.observation.value, "audit-recovery/v1")
            && files[e.observation.value.path].requestId == files[e.intent.path].requestId)
    case Foreign(_, _) => false
  }

  lemma NamesItsFilesExactly(e: EL.Event, files: Files, h: seq<EL.EffectState>)
    requires EL.History(e.pair, h + [e.state])
    ensures NamesItsFiles(e, files) <==> EventBound(e, files) && !e.pair.Foreign?
  {
    var more := h + [e.state];
    assert more[|h|] == e.state;
    hide EL.History;
    if e.observation.Some? && e.observation.value.path in files {
      KindsMeet(ObservationKinds(e), files[e.observation.value.path].kinds);
    }
  }

  lemma KindsMeet(a: set<Kind>, b: set<Kind>)
    ensures a * b != {} <==> exists k :: k in a && k in b
  {
    if k :| k in a && k in b {
      assert k in a * b;
    }
    if a * b != {} {
      var k :| k in a * b;
    }
  }

  lemma EffectAdds(doc: Doc, files: Files, event: EL.Event)
    requires Valid(doc) && !doc.ci && EffectFilesBound(doc, files)
    ensures MayAddEffect(doc, files, event) <==>
              && doc.result == Pending && EL.WellFormed(event) && AnswersIntent(doc.effects, event)
              && EL.History(event.pair, EL.HistoryOf(doc.effects, event.pair) + [event.state])
              && EventBound(event, files)
  {
    hide LedgerGood, EventBound, EL.Admissible, EL.History, AnswersIntent;
    EffectsAreNotChecked(doc, event);
    EventFits(doc.effects, event, SettledPairs(doc));
    EffectsBoundSnoc(doc, files, event);
    assert SettledPairs(WithEffect(doc, event)) == SettledPairs(doc);
    hide EffectFilesBound;
  }

  /** An effect event is recorded exactly if it is well formed, continues its history by the design,
      answers the intent that was prepared, and names files of the right kinds that are there; a
      recovery moreover speaks of the request of its intent. */
  lemma EffectAddsExactly(doc: Doc, files: Files, event: EL.Event)
    requires Valid(doc) && !doc.ci && EffectFilesBound(doc, files)
    ensures MayAddEffect(doc, files, event) <==>
              && doc.result == Pending && event.shape && AnswersIntent(doc.effects, event)
              && (event.observation.Some? <==> event.state == EL.Observed || event.state == EL.Recovered)
              && EL.History(event.pair, EL.HistoryOf(doc.effects, event.pair) + [event.state])
              && NamesItsFiles(event, files)
  {
    EffectAdds(doc, files, event);
    var h := EL.HistoryOf(doc.effects, event.pair);
    hide MayAddEffect, Valid, AnswersIntent, EL.HistoryOf, EffectFilesBound;
    if EL.History(event.pair, h + [event.state]) {
      NamesItsFilesExactly(event, files, h);
    }
    hide EL.History, EventBound, NamesItsFiles;
  }

  lemma EffectsBoundSnoc(doc: Doc, files: Files, event: EL.Event)
    ensures EffectFilesBound(WithEffect(doc, event), files)
       <==> EffectFilesBound(doc, files) && EventBound(event, files)
  {
    hide EventBound;
    var (trial, n) := (WithEffect(doc, event), |doc.effects|);
    assert trial.effects[n] == event && forall i :: 0 <= i < n ==> trial.effects[i] == doc.effects[i];
  }

  lemma EffectsAreNotChecked(doc: Doc, event: EL.Event)
    ensures LedgerGood(WithEffect(doc, event), None) <==> LedgerGood(doc, None)
  {
    var trial := WithEffect(doc, event);
    SettledBefore(doc, trial, |doc.order|);
    if LedgerGood(doc, None) {
      OtherRecordsKeepLedger(doc, trial, None);
    }
    if LedgerGood(trial, None) {
      OtherRecordsKeepLedger(trial, doc, None);
    }
  }

  lemma EventFits(events: seq<EL.Event>, event: EL.Event, passed: set<EL.Pair>)
    requires EL.Admissible(events, false, passed)
    ensures EL.Admissible(events + [event], false, passed) <==>
              && EL.WellFormed(event) && AnswersIntent(events, event)
              && EL.History(event.pair, EL.HistoryOf(events, event.pair) + [event.state])
  {
    var more := events + [event];
    forall pair
      ensures EL.HistoryOf(more, pair) == EL.HistoryOf(events, pair) + if event.pair == pair then [event.state] else []
    {
      EL.HistorySnoc(events, event, pair);
    }
    assert forall e :: e in more <==> e in events || e == event;
    assert EL.HistoryOf(events, event.pair) + [] == EL.HistoryOf(events, event.pair);
    IntentsFit(events, event);
    hide EL.IntentsMatch, AnswersIntent, EL.HistoryOf;
  }

  lemma IntentsFit(events: seq<EL.Event>, event: EL.Event)
    requires EL.IntentsMatch(events, |events|)
    requires forall pair :: EL.History(pair, EL.HistoryOf(events, pair))
    ensures EL.History(event.pair, EL.HistoryOf(events, event.pair) + [event.state]) ==>
              (EL.IntentsMatch(events + [event], |events| + 1) <==> AnswersIntent(events, event))
  {
    var (h, more, n) := (EL.HistoryOf(events, event.pair), events + [event], |events|);
    assert more[n] == event && forall k :: 0 <= k < n ==> more[k] == events[k];
    if EL.IntentsMatch(more, n + 1) {
      forall i | 0 <= i < n ensures more[i] == events[i] && more[n] == event {
      }
    }
    if EL.History(event.pair, h + [event.state]) {
      EL.OutcomeFollows(event.pair, h, event.state);
      if event.state == EL.Prepared {
        EL.NothingOfPair(events, |events|, event.pair);
      }
    }
  }
}
