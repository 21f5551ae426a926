/** Audit recovery, `agent/charter_audit_recovery.py` with the driver of `scripts/sentinel-demo.sh`
    and `recover_audit` of `scripts/sentinel-manifest.py`: one protocol over private files, the
    request store and the run manifest, any step of which may be the last before a crash. */
module AuditRecovery {
  import opened Basics
  import EL = EffectLedger
  import RM = RunManifest
  import RS = RequestStore

  /** Everything the protocol reads: the manifest, the other files, the request the spec file
      names, and the store. */
  datatype Dir = Dir(doc: RM.Doc, files: RM.Files, spec: RS.RequestSpec, db: RS.Db)

  const SPEC := Path("request-spec.json")
  const NORMAL_ARTIFACTS := {Path("receipt.json"), Path("request-descriptor.json"), Path("request.json"),
                             Path("artifact-bindings.json"), Path("charter-evaluation.json")}
  const AUDIT_KIND := RM.Kind("audit-recovery/v1")
  const REPORT_KIND := RM.Kind("audit-recovery-report/v1")
  const EVALUATION_KIND := RM.Kind("audit-evaluation/v1")

  // ---------------------------------------------------------------- the durable states

  /** The executor is the first incomplete boundary of a local run. */
  predicate ExecutorFailed(doc: RM.Doc) {
    && !doc.ci && doc.result == RM.FailedResult
    && |doc.order| >= 8 && doc.order[7] == RM.Executor && |doc.stages| == 8
    && (forall i :: 0 <= i < 7 ==> doc.order[i] in doc.stages && doc.stages[doc.order[i]].status == RM.Passed)
    && RM.Executor in doc.stages && doc.stages[RM.Executor].status == RM.Failed
  }

  /** `_stranded_effect`: the last word is a prepared executor effect, or an unknown one right after
      it, for the bytes of this request spec. */
  predicate StrandedEffect(events: seq<EL.Event>, intent: FileRef) {
    && events != []
    && var last := events[|events| - 1];
       if last.state == EL.Unknown then
         && |events| >= 2 && IsPrepared(events[|events| - 2], intent)
         && last.pair == EL.Executor && last.intent == intent
       else IsPrepared(last, intent)
  }

  predicate IsPrepared(e: EL.Event, intent: FileRef) {
    e.pair == EL.Executor && e.state == EL.Prepared && e.intent == intent
  }

  /** `_request_row`: an unknown or terminal row whose state is also in the event log. */
  predicate RowDurable(db: RS.Db, id: RS.RequestId) {
    && id in db.requests
    && (db.requests[id].state == RS.Unknown || db.requests[id].state == RS.Terminal)
    && RS.Event(id, db.requests[id].state) in db.events
  }

  predicate ValidAudit(f: RM.File, spec: RS.RequestSpec) {
    AUDIT_KIND in f.kinds && f.requestId == spec.requestId.text
  }

  predicate SettledBy(db: RS.Db, id: RS.RequestId, source: Digest) {
    id in db.requests && db.requests[id].state == RS.Terminal && db.requests[id].receipt == Some(source)
  }

  /** `_limited_artifacts`: both reports are exactly the ones derived from the audit file. */
  predicate LimitedBound(files: RM.Files)
    requires RM.AUDIT in files && RM.AUDIT_REPORT in files && RM.AUDIT_EVALUATION in files
  {
    && REPORT_KIND in files[RM.AUDIT_REPORT].kinds && EVALUATION_KIND in files[RM.AUDIT_EVALUATION].kinds
    && RM.AuditFilesBound(files)
  }

  predicate NormalPresent(files: RM.Files) {
    exists p :: p in NORMAL_ARTIFACTS && p in files
  }

  datatype Phase = NoAudit | AuditDurable | SqliteTerminal | LimitedComplete

  /** The spec file names the request of this directory. */
  predicate SpecNamed(dir: Dir) {
    SPEC in dir.files && dir.files[SPEC].requestId == dir.spec.requestId.text
  }

  /** `state`: the phase of a recoverable directory, or nothing. */
  function PhaseOf(dir: Dir): Option<Phase> {
    var (files, db, id) := (dir.files, dir.db, dir.spec.requestId);
    if !ExecutorFailed(dir.doc) || !SpecNamed(dir)
       || !StrandedEffect(dir.doc.effects, FileRef(SPEC, files[SPEC].sha256))
       || NormalPresent(files) || !RowDurable(db, id) then None else
    var (audit, report, evaluation) := (RM.AUDIT in files, RM.AUDIT_REPORT in files, RM.AUDIT_EVALUATION in files);
    if !audit then
      (if report || evaluation || db.requests[id].state != RS.Unknown then None else Some(NoAudit))
    else if !ValidAudit(files[RM.AUDIT], dir.spec) then None
    else if !report && !evaluation then
      (if db.requests[id].state == RS.Unknown then Some(AuditDurable)
       else if SettledBy(db, id, files[RM.AUDIT].source) then Some(SqliteTerminal) else None)
    else if report && evaluation && SettledBy(db, id, files[RM.AUDIT].source) && LimitedBound(files)
      then Some(LimitedComplete)
    else None
  }

  // ---------------------------------------------------------------- binding the manifest

  function RecoveredDoc(doc: RM.Doc, event: EL.Event, entries: seq<RM.Entry>): RM.Doc
    requires RM.Executor in doc.stages
  {
    var index := doc.stages[RM.Executor].index;
    var c := RM.Checkpoint(RM.Executor, index, entries);
    doc.(stages := doc.stages[RM.Executor := RM.Record(RM.Recovered, index, Some(c))],
         ledger := doc.ledger + [c], effects := doc.effects + [event], result := RM.RecoveredResult)
  }

  /** The effect the recovery event must answer: the last one, or the one before an unknown. */
  predicate Answers(events: seq<EL.Event>, event: EL.Event) {
    && events != [] && (events[|events| - 1].state == EL.Unknown ==> |events| >= 2)
    && var last := events[|events| - 1];
       var prepared := if last.state == EL.Unknown then events[|events| - 2] else last;
       && (last.state == EL.Unknown ==> last.intent == prepared.intent)
       && prepared.pair == EL.Executor
       && event.pair == EL.Executor && event.state == EL.Recovered && event.intent == prepared.intent
       && event.observation.Some?
  }

  /** `recover_audit`. */
  ghost predicate MayBind(dir: Dir, event: EL.Event, entries: seq<RM.Entry>) {
    && RM.Valid(dir.doc) && ExecutorFailed(dir.doc) && Answers(dir.doc.effects, event)
    && SpecNamed(dir) && RM.AUDIT in dir.files && ValidAudit(dir.files[RM.AUDIT], dir.spec)
    && SettledBy(dir.db, dir.spec.requestId, dir.files[RM.AUDIT].source)
    && var trial := RecoveredDoc(dir.doc, event, entries);
       && RM.LedgerGood(trial, Some(dir.files)) && RM.EffectFilesBound(trial, dir.files)
       && !NormalPresent(dir.files) && RM.Valid(trial)
  }

  /** The event and the checkpoint the driver derives from the files. */
  function RecoveryEvent(files: RM.Files): EL.Event
    requires SPEC in files && RM.AUDIT in files
  {
    EL.Event(EL.Executor, EL.Recovered, FileRef(SPEC, files[SPEC].sha256),
             Some(FileRef(RM.AUDIT, files[RM.AUDIT].sha256)), true)
  }

  function RecoveryEntries(files: RM.Files): seq<RM.Entry>
    requires RM.AUDIT in files && RM.AUDIT_REPORT in files && RM.AUDIT_EVALUATION in files
  {
    [RM.Entry(RM.AUDIT, AUDIT_KIND, files[RM.AUDIT].sha256),
     RM.Entry(RM.AUDIT_REPORT, REPORT_KIND, files[RM.AUDIT_REPORT].sha256),
     RM.Entry(RM.AUDIT_EVALUATION, EVALUATION_KIND, files[RM.AUDIT_EVALUATION].sha256)]
  }

  // ---------------------------------------------------------------- one call of the driver

  /** What the outside gives a call: the audit file the gateway log proves, if it proves one, and
      the digests of the two reports. */
  datatype Source = Source(audit: Option<RM.File>, reportSha: Digest, evaluationSha: Digest)

  datatype Outcome = Finished | Refused | Crashed

  function Opened(dir: Dir): Dir {
    dir.(db := RS.Recovered(dir.db))
  }

  function WithAudit(dir: Dir, audit: RM.File): Dir {
    dir.(files := dir.files[RM.AUDIT := audit])
  }

  function ReportFile(kind: RM.Kind, audit: RM.File, sha: Digest): RM.File {
    RM.File(sha, {kind}, audit.requestId, Digest(""), audit.sha256)
  }

  function WithReport(dir: Dir, from: Source): (r: Dir)
    requires RM.AUDIT in dir.files
    ensures RM.AUDIT in r.files && (r.doc, r.spec, r.db) == (dir.doc, dir.spec, dir.db)
  {
    dir.(files := dir.files[RM.AUDIT_REPORT := ReportFile(REPORT_KIND, dir.files[RM.AUDIT], from.reportSha)])
  }

  function WithEvaluation(dir: Dir, from: Source): (r: Dir)
    requires RM.AUDIT in dir.files
    ensures RM.AUDIT in r.files && (r.doc, r.spec, r.db) == (dir.doc, dir.spec, dir.db)
  {
    var report := ReportFile(EVALUATION_KIND, dir.files[RM.AUDIT], from.evaluationSha);
    dir.(files := dir.files[RM.AUDIT_EVALUATION := report])
  }

  /** Binding: the last durable write. */
  ghost function Bind(dir: Dir, writes: nat): (Dir, Outcome) {
    if PhaseOf(dir) != Some(LimitedComplete) || !MayBind(dir, RecoveryEvent(dir.files), RecoveryEntries(dir.files)) then
        (dir, Refused)
    else if writes == 0 then (dir, Crashed)
    else (dir.(doc := RecoveredDoc(dir.doc, RecoveryEvent(dir.files), RecoveryEntries(dir.files))), Finished)
  }

  /** Two reports, one file after the other, then the binding. */
  ghost function Report(dir: Dir, from: Source, writes: nat): (Dir, Outcome) {
    if PhaseOf(dir) != Some(SqliteTerminal) then (dir, Refused)
    else if writes == 0 then (dir, Crashed)
    else if writes == 1 then (WithReport(dir, from), Crashed)
    else Bind(WithEvaluation(WithReport(dir, from), from), writes - 2)
  }

  /** `terminalize`: opening the store commits its recovery, then one guarded transaction. */
  ghost function Settle(dir: Dir, from: Source, writes: nat): (Dir, Outcome) {
    if PhaseOf(dir) != Some(AuditDurable) then (dir, Refused)
    else if writes == 0 then (dir, Crashed)
    else if writes == 1 then (Opened(dir), Crashed)
    else
      var settled := RS.TerminalizedFrom(Opened(dir).db, dir.spec.requestId, dir.files[RM.AUDIT].source, RS.Unknown);
      if settled.None? then (Opened(dir), Refused) else Report(dir.(db := settled.value), from, writes - 2)
  }

  /** `acquire` and the publication of its result. */
  ghost function Acquire(dir: Dir, from: Source, writes: nat): (Dir, Outcome) {
    if writes == 0 then (dir, Crashed)
    else if from.audit.None? || !ValidAudit(from.audit.value, dir.spec) then (Opened(dir), Refused)
    else if writes == 1 then (Opened(dir), Crashed)
    else Settle(WithAudit(Opened(dir), from.audit.value), from, writes - 2)
  }

  /** A call in a process that survives `writes` durable writes. */
  ghost function Call(dir: Dir, from: Source, writes: nat): (Dir, Outcome) {
    match PhaseOf(dir)
    case None => (dir, if Recovered(dir) then Finished else Refused)
    case Some(NoAudit) => Acquire(dir, from, writes)
    case Some(AuditDurable) => Settle(dir, from, writes)
    case Some(SqliteTerminal) => Report(dir, from, writes)
    case Some(LimitedComplete) => Bind(dir, writes)
  }

  /** `verify_audit_recovery`: manifest, files and store agree on the recovered request. */
  ghost predicate Recovered(dir: Dir) {
    && RM.Valid(dir.doc) && dir.doc.result == RM.RecoveredResult
    && RM.LedgerGood(dir.doc, Some(dir.files)) && RM.EffectFilesBound(dir.doc, dir.files) && !NormalPresent(dir.files)
    && SpecNamed(dir) && RM.AUDIT in dir.files && ValidAudit(dir.files[RM.AUDIT], dir.spec)
    && SettledBy(dir.db, dir.spec.requestId, dir.files[RM.AUDIT].source)
  }

  const ALL_WRITES := 7

  // ---------------------------------------------------------------- the phases advance

  lemma PathsDiffer()
    ensures RM.AUDIT != RM.AUDIT_REPORT && RM.AUDIT != RM.AUDIT_EVALUATION && RM.AUDIT_REPORT != RM.AUDIT_EVALUATION
    ensures SPEC != RM.AUDIT && SPEC != RM.AUDIT_REPORT && SPEC != RM.AUDIT_EVALUATION
    ensures RM.AUDIT !in NORMAL_ARTIFACTS && RM.AUDIT_REPORT !in NORMAL_ARTIFACTS
            && RM.AUDIT_EVALUATION !in NORMAL_ARTIFACTS
  {
    assert |RM.AUDIT.text| == 19 && |RM.AUDIT_REPORT.text| == 26 && |RM.AUDIT_EVALUATION.text| == 21
           && |SPEC.text| == 17;
    assert forall p :: p in NORMAL_ARTIFACTS ==> |p.text| == 12 || |p.text| == 22 || |p.text| == 23;
  }

  lemma OpeningKeepsPhase(dir: Dir)
    requires PhaseOf(dir).Some?
    ensures PhaseOf(Opened(dir)) == PhaseOf(dir)
  {
  }

  lemma AuditMakesDurable(dir: Dir, audit: RM.File)
    requires PhaseOf(dir) == Some(NoAudit) && ValidAudit(audit, dir.spec)
    ensures PhaseOf(WithAudit(dir, audit)) == Some(AuditDurable)
  {
    PathsDiffer();
  }

  lemma SettlingMakesTerminal(dir: Dir)
    requires PhaseOf(dir) == Some(AuditDurable)
    ensures var settled := RS.TerminalizedFrom(dir.db, dir.spec.requestId, dir.files[RM.AUDIT].source, RS.Unknown);
            settled.Some? && PhaseOf(dir.(db := settled.value)) == Some(SqliteTerminal)
  {
  }

  lemma ReportsMakeLimited(dir: Dir, from: Source)
    requires PhaseOf(dir) == Some(SqliteTerminal)
    ensures Torn(WithReport(dir, from)) && PhaseOf(WithReport(dir, from)).None?
    ensures PhaseOf(WithEvaluation(WithReport(dir, from), from)) == Some(LimitedComplete)
  {
    PathsDiffer();
  }

  /** One limited report without the other. */
  predicate Torn(dir: Dir) {
    (RM.AUDIT_REPORT in dir.files) != (RM.AUDIT_EVALUATION in dir.files)
  }

  // ---------------------------------------------------------------- nothing but the phases can block the binding

  const AUDIT_PATHS := {RM.AUDIT, RM.AUDIT_REPORT, RM.AUDIT_EVALUATION}

  predicate AuditPathsFresh(ledger: seq<RM.Checkpoint>) {
    RM.LedgerPaths(ledger, |ledger|) !! AUDIT_PATHS
  }

  lemma NotAudit(p: Path)
    requires |p.text| > 1 && p.text[1] != 'u'
    ensures p !in AUDIT_PATHS
  {
    assert RM.AUDIT.text[1] == RM.AUDIT_REPORT.text[1] == RM.AUDIT_EVALUATION.text[1] == 'u';
  }

  lemma ContractNamesNoAudit(stage: RM.Stage)
    ensures RM.Contract(stage).Keys !! AUDIT_PATHS
  {
    match stage
    case ScanRedactImport =>
      NotAudit(Path("phase1/scan-admission.json"));
      NotAudit(Path("phase1/nuclei.sanitized.jsonl"));
      NotAudit(Path("phase1/import-intent.json"));
      NotAudit(Path("phase1/import-observation.json"));
    case AnalysisReport =>
      NotAudit(Path("normalized.jsonl"));
      NotAudit(Path("report.jsonl"));
    case Proposal => NotAudit(Path("request-spec.json"));
    case Approval => NotAudit(Path("approval.json"));
    case Executor =>
      NotAudit(Path("receipt.json"));
      NotAudit(Path("request-descriptor.json"));
    case VerifyCiArtifact =>
      NotAudit(Path("trivy.admitted.json"));
      NotAudit(Path("trivy.admitted.metadata.json"));
    case CiNormalizeImport => NotAudit(Path("trivy.normalized.jsonl"));
    case OutputFree(_) =>
  }

  /** Only the executor's audit contract names the audit paths, and a failed executor has no
      checkpoint. */
  lemma AuditPathsAreFresh(doc: RM.Doc, checked: Option<RM.Files>)
    requires ExecutorFailed(doc) && RM.LedgerGood(doc, checked)
    ensures AuditPathsFresh(doc.ledger)
  {
    var settled := RM.SettledInOrder(doc, |doc.order|);
    RM.SettledAreRecorded(doc, |doc.order|);
    forall p | p in RM.LedgerPaths(doc.ledger, |doc.ledger|) ensures p !in AUDIT_PATHS {
      var i := RM.PathInCheckpoint(doc.ledger, |doc.ledger|, p);
      assert RM.GoodAt(doc, settled, i, checked) && settled[i] in settled;
      RM.PathHasKind(doc.ledger[i].entries, |doc.ledger[i].entries|, p);
      ContractNamesNoAudit(settled[i]);
    }
  }

  /** The manifest is valid, and its ledgers are bound to the files. */
  ghost predicate Sound(doc: RM.Doc, files: RM.Files) {
    RM.Valid(doc) && RM.LedgerGood(doc, Some(files)) && RM.EffectFilesBound(doc, files)
  }

  lemma RecoveredExtendsLedger(doc: RM.Doc, files: RM.Files, checked: Option<RM.Files>, event: EL.Event)
    requires RM.StagesShaped(doc) && ExecutorFailed(doc) && RM.LedgerGood(doc, checked)
    requires RM.AUDIT in files && RM.AUDIT_REPORT in files && RM.AUDIT_EVALUATION in files
    requires AUDIT_KIND in files[RM.AUDIT].kinds && LimitedBound(files)
    requires checked.Some? ==> checked.value == files
    ensures RM.LedgerGood(RecoveredDoc(doc, event, RecoveryEntries(files)), checked)
  {
    var trial := RecoveredDoc(doc, event, RecoveryEntries(files));
    var settled := RM.SettledInOrder(doc, |doc.order|);
    RecoveredSettledLast(doc, trial);
    RM.SettledAreRecorded(doc, |doc.order|);
    AuditPathsAreFresh(doc, checked);
    RecoveryCheckpointGood(trial, files, checked, RM.LedgerPaths(doc.ledger, |doc.ledger|));
    RM.AllGoodExtends(doc, trial, settled, checked, RM.Executor);
  }

  lemma RecoveredSettledLast(doc: RM.Doc, trial: RM.Doc)
    requires RM.StagesShaped(doc) && ExecutorFailed(doc) && trial.order == doc.order
    requires trial.stages.Keys == doc.stages.Keys
    requires forall s :: s in doc.stages && s != RM.Executor ==> trial.stages[s] == doc.stages[s]
    requires trial.stages[RM.Executor].status == RM.Recovered
    ensures RM.SettledInOrder(trial, |doc.order|) == RM.SettledInOrder(doc, |doc.order|) + [RM.Executor]
  {
    forall i | 0 <= i < |doc.order|
      ensures i < 7 ==> (RM.Settled(doc, doc.order[i]) <==> RM.Settled(trial, doc.order[i]))
      ensures 7 < i ==> !RM.Settled(trial, doc.order[i])
      ensures 7 <= i ==> !RM.Settled(doc, doc.order[i])
    {
      assert doc.order[i] in doc.stages <==> i < 8;
    }
    RM.SettledSplit(doc, trial, 7);
  }

  lemma RecoveryCheckpointGood(trial: RM.Doc, files: RM.Files, checked: Option<RM.Files>, seen: set<Path>)
    requires RM.AUDIT in files && RM.AUDIT_REPORT in files && RM.AUDIT_EVALUATION in files
    requires AUDIT_KIND in files[RM.AUDIT].kinds && LimitedBound(files)
    requires checked.Some? ==> checked.value == files
    requires seen !! {RM.AUDIT, RM.AUDIT_REPORT, RM.AUDIT_EVALUATION}
    requires RM.Executor in trial.stages
    requires var c := RM.Checkpoint(RM.Executor, trial.stages[RM.Executor].index, RecoveryEntries(files));
             trial.stages[RM.Executor].checkpoint == Some(c)
    ensures RM.CheckpointGood(trial, trial.stages[RM.Executor].checkpoint.value, RM.Executor, seen, checked)
  {
    PathsDiffer();
    var entries := RecoveryEntries(files);
    assert RM.EntriesGood(entries, 3, seen, checked);
    calc {
      RM.KindsOf(entries, 3);
      RM.KindsOf(entries, 2)[RM.AUDIT_EVALUATION := EVALUATION_KIND];
      RM.KindsOf(entries, 1)[RM.AUDIT_REPORT := REPORT_KIND][RM.AUDIT_EVALUATION := EVALUATION_KIND];
      { assert RM.KindsOf(entries, 0) == map[]; }
      RM.AUDIT_CONTRACT;
    }
  }

  /** The stranded effect vouches for the spec file, the phase for the audit file. */
  lemma RecoveryEventBound(dir: Dir)
    requires PhaseOf(dir) == Some(LimitedComplete) && RM.EffectFilesBound(dir.doc, dir.files)
    ensures RM.EventBound(RecoveryEvent(dir.files), dir.files)
  {
    var events := dir.doc.effects;
    var prepared := if events[|events| - 1].state == EL.Unknown then events[|events| - 2] else events[|events| - 1];
    assert RM.EventBound(prepared, dir.files);
    assert AUDIT_KIND in RM.ObservationKinds(RecoveryEvent(dir.files)) * dir.files[RM.AUDIT].kinds;
  }

  /** In the last phase `recover_audit` accepts what the driver derives: nothing else can block it. */
  lemma BindAccepted(dir: Dir)
    requires PhaseOf(dir) == Some(LimitedComplete) && Sound(dir.doc, dir.files)
    ensures MayBind(dir, RecoveryEvent(dir.files), RecoveryEntries(dir.files))
  {
    hide RM.StagesShaped, RM.SkipsShaped, RM.RecoveredShape, RM.LedgerGood, EL.Admissible;
    var (doc, files) := (dir.doc, dir.files);
    var (event, entries) := (RecoveryEvent(files), RecoveryEntries(files));
    var trial := RecoveredDoc(doc, event, entries);
    assert RM.EffectFilesBound(trial, files) by {
      RecoveryEventBound(dir);
      assert forall i :: 0 <= i < |doc.effects| ==> trial.effects[i] == doc.effects[i];
    }
    assert RM.LedgerGood(trial, Some(files)) by {
      RecoveredExtendsLedger(doc, files, Some(files), event);
    }
    assert RM.Valid(trial) by {
      RecoveredDocValid(doc, files, event);
    }
    assert Answers(doc.effects, event);
  }

  lemma RecoveredDocValid(doc: RM.Doc, files: RM.Files, event: EL.Event)
    requires RM.Valid(doc) && ExecutorFailed(doc)
    requires RM.AUDIT in files && RM.AUDIT_REPORT in files && RM.AUDIT_EVALUATION in files
    requires AUDIT_KIND in files[RM.AUDIT].kinds && LimitedBound(files)
    requires doc.effects != [] && doc.effects[|doc.effects| - 1].pair == EL.Executor
    requires doc.effects[|doc.effects| - 1].state == EL.Prepared || doc.effects[|doc.effects| - 1].state == EL.Unknown
    requires EL.WellFormed(event) && event.pair == EL.Executor && event.state == EL.Recovered
    ensures RM.Valid(RecoveredDoc(doc, event, RecoveryEntries(files)))
  {
    var trial := RecoveredDoc(doc, event, RecoveryEntries(files));
    hide RM.StagesShaped, RM.SkipsShaped, RM.RecoveredShape, RM.LedgerGood, EL.Admissible;
    RecoveredExtendsLedger(doc, files, None, event);
    RecoveredStagesShaped(doc, trial);
    RecoveredShaped(doc, trial);
    RecoveredEffects(doc, trial, event);
  }

  lemma RecoveredEffects(doc: RM.Doc, trial: RM.Doc, event: EL.Event)
    requires EL.Admissible(doc.effects, false, RM.SettledPairs(doc))
    requires RM.Executor in doc.stages && OnlyRecovers(doc, trial) && trial.effects == doc.effects + [event]
    requires doc.effects != [] && doc.effects[|doc.effects| - 1].pair == EL.Executor
    requires doc.effects[|doc.effects| - 1].state == EL.Prepared || doc.effects[|doc.effects| - 1].state == EL.Unknown
    requires EL.WellFormed(event) && event.pair == EL.Executor && event.state == EL.Recovered
    ensures EL.Admissible(trial.effects, false, RM.SettledPairs(trial))
  {
    EL.LastEventHangs(doc.effects, EL.Executor);
    EL.RecoveryAdmissible(doc.effects, RM.SettledPairs(doc), event);
    assert RM.SettledPairs(trial) == RM.SettledPairs(doc) + {EL.Executor};
  }

  predicate OnlyRecovers(doc: RM.Doc, trial: RM.Doc)
    requires RM.Executor in doc.stages
  {
    && trial.order == doc.order && trial.skips == doc.skips && trial.ci == doc.ci && RM.Executor in trial.stages
    && var r := trial.stages[RM.Executor];
       && r.status == RM.Recovered && r.index == doc.stages[RM.Executor].index && r.checkpoint.Some?
       && trial.stages == doc.stages[RM.Executor := r]
  }

  lemma RecoveredStagesShaped(doc: RM.Doc, trial: RM.Doc)
    requires RM.StagesShaped(doc) && RM.Executor in doc.stages && OnlyRecovers(doc, trial)
    ensures RM.StagesShaped(trial)
  {
    assert trial.stages.Keys == doc.stages.Keys;
    assert |trial.stages.Keys| == |doc.stages.Keys|;
  }

  lemma RecoveredShaped(doc: RM.Doc, trial: RM.Doc)
    requires RM.StagesShaped(doc) && RM.SkipsShaped(doc) && ExecutorFailed(doc) && OnlyRecovers(doc, trial)
    ensures RM.SkipsShaped(trial) && RM.RecoveredShape(trial)
  {
    assert trial.stages.Keys == doc.stages.Keys;
    assert |trial.stages.Keys| == |doc.stages.Keys|;
    forall i | 0 <= i < 7 ensures doc.order[i] in trial.stages && trial.stages[doc.order[i]].status == RM.Passed {
      assert doc.order[i] != doc.order[7];
    }
  }

  // ---------------------------------------------------------------- files only ever appear

  lemma SoundGrows(doc: RM.Doc, a: RM.Files, b: RM.Files)
    requires Sound(doc, a) && RM.Grows(a, b)
    ensures Sound(doc, b)
  {
    RM.LedgerGoodGrows(doc, a, b);
    RM.EffectsBoundGrow(doc, a, b);
    hide RM.Valid, RM.LedgerGood, RM.EffectFilesBound;
  }

  // ---------------------------------------------------------------- one call

  /** A directory an uninterrupted call can finish. */
  ghost predicate Healthy(dir: Dir) {
    PhaseOf(dir).Some? && Sound(dir.doc, dir.files)
  }

  /** A local run whose executor failed is the first incomplete boundary of its manifest. */
  lemma {:induction false} FailedRunIsBoundary(identity: RM.Identity, order: seq<RM.Stage>, commands: seq<RM.Command>,
                                               files: RM.Files)
    requires RM.FilesKept(commands, files) && |order| >= 8 && order[7] == RM.Executor
    requires var doc := RM.Run(RM.Initial(false, identity, order), commands);
             doc.skips == [] && RM.Executor in doc.stages && doc.stages[RM.Executor].status == RM.Failed
    ensures var doc := RM.Run(RM.Initial(false, identity, order), commands); ExecutorFailed(doc) && Sound(doc, files)
  {
    var start := RM.Initial(false, identity, order);
    StartIsBound(start, files);
    RM.RunKeepsBound(start, commands, files);
    hide RM.LedgerGood, RM.EffectFilesBound, RM.RecoveredShape, EL.Admissible, RM.Run;
    var doc := RM.Run(start, commands);
    assert doc.order[doc.stages[RM.Executor].index] == RM.Executor && doc.stages[RM.Executor].index == 7;
    forall i | 0 <= i < 7 ensures doc.order[i] in doc.stages && doc.stages[doc.order[i]].status == RM.Passed {
      assert doc.order[doc.stages[doc.order[i]].index] == doc.order[i];
    }
  }

  lemma StartIsBound(start: RM.Doc, files: RM.Files)
    requires start.stages == map[] && start.ledger == [] && start.effects == []
    ensures RM.BoundTo(start, files) && RM.FailsLast(start)
  {
    RM.SettledUpTo(start, 0, |start.order|);
  }

  /** What a crash between the dispatch and the audit leaves of a run. */
  predicate Stranded(dir: Dir) {
    && SpecNamed(dir) && StrandedEffect(dir.doc.effects, FileRef(SPEC, dir.files[SPEC].sha256))
    && !NormalPresent(dir.files) && AUDIT_PATHS !! dir.files.Keys
    && RowDurable(dir.db, dir.spec.requestId) && dir.db.requests[dir.spec.requestId].state == RS.Unknown
  }

  /** So recovery can begin after every such run, and at any later point its phase alone decides. */
  lemma {:induction false} FailedRunIsHealthy(dir: Dir, identity: RM.Identity, commands: seq<RM.Command>)
    requires RM.FilesKept(commands, dir.files)
    requires dir.doc == RM.Run(RM.Initial(false, identity, dir.doc.order), commands)
    requires |dir.doc.order| >= 8 && dir.doc.order[7] == RM.Executor
    requires dir.doc.skips == [] && RM.Executor in dir.doc.stages && dir.doc.stages[RM.Executor].status == RM.Failed
    ensures Healthy(dir) <==> PhaseOf(dir).Some?
    ensures Stranded(dir) ==> Healthy(dir) && PhaseOf(dir) == Some(NoAudit)
  {
    FailedRunIsBoundary(identity, dir.doc.order, commands, dir.files);
    hide Sound, RM.Run;
  }

  predicate Supplied(dir: Dir, from: Source) {
    PhaseOf(dir) == Some(NoAudit) ==> from.audit.Some? && ValidAudit(from.audit.value, dir.spec)
  }

  /** The durable writes between a phase and the torn pair of reports. */
  function TornAfter(phase: Phase): nat {
    match phase
    case NoAudit => 5
    case AuditDurable => 3
    case SqliteTerminal => 1
    case LimitedComplete => 0
  }

  ghost predicate CallEnds(dir: Dir, phase: Phase, writes: nat, end: (Dir, Outcome)) {
    if TornAfter(phase) + 1 < writes then end.1 == Finished && Recovered(end.0)
    else if TornAfter(phase) == writes && writes != 0 then end.1 == Crashed && Torn(end.0) && end.0.doc == dir.doc
    else end.1 == Crashed && Healthy(end.0)
  }

  lemma BindEnds(dir: Dir, writes: nat)
    requires Healthy(dir) && PhaseOf(dir) == Some(LimitedComplete)
    ensures if writes == 0 then Bind(dir, writes) == (dir, Crashed)
            else Bind(dir, writes).1 == Finished && Recovered(Bind(dir, writes).0)
  {
    BindAccepted(dir);
  }

  lemma ReportStops(dir: Dir, from: Source, writes: nat)
    requires PhaseOf(dir) == Some(SqliteTerminal) && writes < 2
    ensures var end := Report(dir, from, writes);
            if writes == 0 then end == (dir, Crashed) else end.1 == Crashed && Torn(end.0) && end.0.doc == dir.doc
  {
    assert RM.AUDIT in dir.files;
    ReportsMakeLimited(dir, from);
    hide PhaseOf, Torn, WithReport;
  }

  lemma ReportGoesOn(dir: Dir, from: Source, writes: nat) returns (limited: Dir)
    requires Healthy(dir) && PhaseOf(dir) == Some(SqliteTerminal) && 2 <= writes
    ensures Report(dir, from, writes) == Bind(limited, writes - 2)
    ensures Healthy(limited) && PhaseOf(limited) == Some(LimitedComplete)
  {
    assert RM.AUDIT in dir.files;
    ReportsMakeLimited(dir, from);
    ReportsGrow(dir, from);
    hide PhaseOf, Sound, Bind, RM.Grows, WithReport, WithEvaluation;
    limited := WithEvaluation(WithReport(dir, from), from);
    SoundGrows(dir.doc, dir.files, limited.files);
  }

  lemma ReportEnds(dir: Dir, from: Source, writes: nat)
    requires Healthy(dir) && PhaseOf(dir) == Some(SqliteTerminal)
    ensures CallEnds(dir, SqliteTerminal, writes, Report(dir, from, writes))
  {
    hide PhaseOf, Sound, Recovered, Report, Bind, Torn;
    if writes < 2 {
      ReportStops(dir, from, writes);
    } else {
      var limited := ReportGoesOn(dir, from, writes);
      BindEnds(limited, writes - 2);
    }
  }

  lemma ReportsGrow(dir: Dir, from: Source)
    requires PhaseOf(dir) == Some(SqliteTerminal)
    ensures RM.Grows(dir.files, WithReport(dir, from).files)
    ensures RM.Grows(dir.files, WithEvaluation(WithReport(dir, from), from).files)
  {
  }

  lemma SettleGoesOn(dir: Dir, from: Source, writes: nat) returns (settled: Dir)
    requires PhaseOf(dir) == Some(AuditDurable) && 2 <= writes
    ensures Settle(dir, from, writes) == Report(settled, from, writes - 2)
    ensures PhaseOf(settled) == Some(SqliteTerminal) && settled.doc == dir.doc && settled.files == dir.files
            && settled.spec == dir.spec
  {
    assert RM.AUDIT in dir.files;
    hide PhaseOf, Report, RS.Recovered, RS.TerminalizedFrom;
    OpeningKeepsPhase(dir);
    SettlingMakesTerminal(Opened(dir));
    var after := RS.TerminalizedFrom(Opened(dir).db, dir.spec.requestId, dir.files[RM.AUDIT].source, RS.Unknown);
    settled := Opened(dir).(db := after.value);
  }

  lemma SettleEnds(dir: Dir, from: Source, writes: nat)
    requires Healthy(dir) && PhaseOf(dir) == Some(AuditDurable)
    ensures CallEnds(dir, AuditDurable, writes, Settle(dir, from, writes))
  {
    hide PhaseOf, Sound, Recovered, Report, Torn;
    OpeningKeepsPhase(dir);
    if writes >= 2 {
      var settled := SettleGoesOn(dir, from, writes);
      ReportEnds(settled, from, writes - 2);
    }
  }

  lemma AcquireEnds(dir: Dir, from: Source, writes: nat)
    requires Healthy(dir) && PhaseOf(dir) == Some(NoAudit) && Supplied(dir, from)
    ensures CallEnds(dir, NoAudit, writes, Acquire(dir, from, writes))
  {
    hide Sound, Recovered, Settle, RM.Valid;
    OpeningKeepsPhase(dir);
    if writes >= 2 {
      var durable := WithAudit(Opened(dir), from.audit.value);
      AuditMakesDurable(Opened(dir), from.audit.value);
      SoundGrows(dir.doc, dir.files, durable.files);
      SettleEnds(durable, from, writes - 2);
    }
  }

  /** From every phase of a healthy directory: enough writes finish the recovery, and a crash
      leaves a healthy directory unless it falls exactly between the two limited reports. */
  lemma {:induction false} CallEndsExactly(dir: Dir, from: Source, writes: nat)
    requires Healthy(dir) && Supplied(dir, from)
    ensures if PhaseOf(dir) == Some(LimitedComplete) then
              (if writes == 0 then Call(dir, from, writes) == (dir, Crashed)
               else Call(dir, from, writes).1 == Finished && Recovered(Call(dir, from, writes).0))
            else CallEnds(dir, PhaseOf(dir).value, writes, Call(dir, from, writes))
  {
    hide Sound, Recovered, Acquire, Settle, Report, Bind, CallEnds;
    match PhaseOf(dir).value
    case NoAudit => AcquireEnds(dir, from, writes);
    case AuditDurable => SettleEnds(dir, from, writes);
    case SqliteTerminal => ReportEnds(dir, from, writes);
    case LimitedComplete => BindEnds(dir, writes);
  }

  /** An uninterrupted call always finishes a healthy directory ... */
  lemma {:induction false} HealthyFinishes(dir: Dir, from: Source, writes: nat)
    requires Healthy(dir) && Supplied(dir, from) && ALL_WRITES <= writes
    ensures Call(dir, from, writes).1 == Finished && Recovered(Call(dir, from, writes).0)
  {
    hide Sound, Recovered, Call, PhaseOf;
    CallEndsExactly(dir, from, writes);
  }

  /** ... and never a torn one: a crash between the two reports is permanent. */
  lemma TornIsPermanent(dir: Dir, from: Source, writes: nat)
    requires Torn(dir) && dir.doc.result == RM.FailedResult
    ensures Call(dir, from, writes) == (dir, Refused)
  {
  }

  // ---------------------------------------------------------------- any call, in any directory

  /** The row of the request is settled by the audit file the directory holds. */
  predicate SettledByAudit(dir: Dir) {
    var (db, id) := (dir.db, dir.spec.requestId);
    && RM.AUDIT in dir.files && ValidAudit(dir.files[RM.AUDIT], dir.spec)
    && id in db.requests && db.requests[id].state == RS.Terminal
    && db.requests[id].receipt == Some(dir.files[RM.AUDIT].source)
  }

  /** The failed run with its executor recovered and nothing else touched: one checkpoint over the
      three audit files, one event that answers the stranded effect with the audit file. */
  predicate Binds(was: RM.Doc, dir: Dir) {
    var (doc, files, l, e) := (dir.doc, dir.files, |was.ledger|, |was.effects|);
    && was.result == RM.FailedResult && doc.result == RM.RecoveredResult
    && |was.order| >= 8 && was.order[7] == RM.Executor && |was.stages| == 8 && !was.ci
    && (forall i :: 0 <= i < 7 ==> was.order[i] in was.stages && was.stages[was.order[i]].status == RM.Passed)
    && (doc.ci, doc.identity, doc.order, doc.skips) == (was.ci, was.identity, was.order, was.skips)
    && doc.stages.Keys == was.stages.Keys && RM.Executor in was.stages
    && was.stages[RM.Executor].status == RM.Failed
    && (forall s :: s in was.stages && s != RM.Executor ==> doc.stages[s] == was.stages[s])
    && |doc.ledger| == l + 1 && doc.ledger[..l] == was.ledger
    && RM.PathsOf(doc.ledger[l].entries, |doc.ledger[l].entries|) == AUDIT_PATHS
    && doc.stages[RM.Executor] == RM.Record(RM.Recovered, was.stages[RM.Executor].index, Some(doc.ledger[l]))
    && SPEC in files && RM.AUDIT in files
    && |doc.effects| == e + 1 && doc.effects[..e] == was.effects
    && var (intent, audit) := (FileRef(SPEC, files[SPEC].sha256), FileRef(RM.AUDIT, files[RM.AUDIT].sha256));
       && StrandedEffect(was.effects, intent)
       && (doc.effects[e].pair, doc.effects[e].state) == (EL.Executor, EL.Recovered)
       && (doc.effects[e].intent, doc.effects[e].observation) == (intent, Some(audit))
  }

  /** Files only appear, a terminal row stays as it is, a row becomes terminal only by the audit
      file already there, and the manifest changes only to a recovered one. */
  ghost predicate Forward(a: Dir, b: Dir) {
    var id := a.spec.requestId;
    && b.spec == a.spec && RM.Grows(a.files, b.files)
    && (b.doc == a.doc || (Recovered(b) && Binds(a.doc, b)))
    && (RS.InState(a.db, id, RS.Terminal) ==> id in b.db.requests && b.db.requests[id] == a.db.requests[id])
    && (RS.InState(b.db, id, RS.Terminal) && !RS.InState(a.db, id, RS.Terminal) ==> SettledByAudit(b))
  }

  lemma ForwardChains(a: Dir, b: Dir, c: Dir)
    requires Forward(a, b) && Forward(b, c) && b.doc == a.doc
    ensures Forward(a, c)
  {
    hide Recovered, ValidAudit, Binds;
  }

  lemma BindForward(dir: Dir, writes: nat)
    ensures Forward(dir, Bind(dir, writes).0) && (Bind(dir, writes).1 == Finished ==> Recovered(Bind(dir, writes).0))
  {
    hide MayBind, Forward, Binds, Recovered, RecoveredDoc;
    DocForward(dir, dir);
    if PhaseOf(dir) == Some(LimitedComplete) {
      RecoveredDocBinds(dir);
      assert RM.AUDIT in dir.files && SPEC in dir.files;
      hide PhaseOf;
      if MayBind(dir, RecoveryEvent(dir.files), RecoveryEntries(dir.files)) {
        BoundIsRecovered(dir, RecoveryEvent(dir.files), RecoveryEntries(dir.files));
        DocForward(dir, dir.(doc := RecoveredDoc(dir.doc, RecoveryEvent(dir.files), RecoveryEntries(dir.files))));
      }
    }
  }

  lemma DocForward(a: Dir, b: Dir)
    requires b == a.(doc := b.doc) && (b.doc == a.doc || (Recovered(b) && Binds(a.doc, b)))
    ensures Forward(a, b)
  {
    hide Binds, Recovered;
  }

  lemma BoundIsRecovered(dir: Dir, event: EL.Event, entries: seq<RM.Entry>)
    requires MayBind(dir, event, entries)
    ensures Recovered(dir.(doc := RecoveredDoc(dir.doc, event, entries)))
  {
    hide RM.Valid, RM.LedgerGood, RM.EffectFilesBound, NormalPresent, Answers;
  }

  lemma RecoveredDocBinds(dir: Dir)
    requires PhaseOf(dir) == Some(LimitedComplete)
    ensures Binds(dir.doc, dir.(doc := RecoveredDoc(dir.doc, RecoveryEvent(dir.files), RecoveryEntries(dir.files))))
  {
    hide LimitedBound, StrandedEffect, RowDurable, NormalPresent, ValidAudit, SettledBy;
    var entries := RecoveryEntries(dir.files);
    assert entries[0].path == RM.AUDIT && entries[1].path == RM.AUDIT_REPORT && entries[2].path == RM.AUDIT_EVALUATION;
    assert RM.PathsOf(entries, |entries|) == AUDIT_PATHS;
  }

  lemma ReportsForward(dir: Dir, from: Source)
    requires PhaseOf(dir) == Some(SqliteTerminal)
    ensures Forward(dir, WithReport(dir, from)) && Forward(dir, WithEvaluation(WithReport(dir, from), from))
  {
    ReportsGrow(dir, from);
    assert RM.AUDIT in dir.files;
    hide PhaseOf, Recovered, Binds, RM.Grows;
  }

  lemma ReportForward(dir: Dir, from: Source, writes: nat)
    ensures Forward(dir, Report(dir, from, writes).0)
    ensures Report(dir, from, writes).1 == Finished ==> Recovered(Report(dir, from, writes).0)
  {
    if PhaseOf(dir) == Some(SqliteTerminal) && writes > 0 {
      assert RM.AUDIT in dir.files;
      hide PhaseOf, Bind, Recovered, Forward, WithReport, WithEvaluation;
      ReportsForward(dir, from);
      if writes > 1 {
        var limited := WithEvaluation(WithReport(dir, from), from);
        BindForward(limited, writes - 2);
        ForwardChains(dir, limited, Bind(limited, writes - 2).0);
      }
    } else {
      hide PhaseOf, Recovered, Binds;
    }
  }

  lemma SettleForward(dir: Dir, from: Source, writes: nat)
    ensures Forward(dir, Settle(dir, from, writes).0)
    ensures Settle(dir, from, writes).1 == Finished ==> Recovered(Settle(dir, from, writes).0)
  {
    hide Report, Recovered, Binds;
    if PhaseOf(dir) == Some(AuditDurable) && writes > 1 {
      var settled := SettleGoesOn(dir, from, writes);
      assert Forward(dir, settled) by {
        SettledIsForward(dir, settled);
      }
      ReportForward(settled, from, writes - 2);
      ForwardChains(dir, settled, Report(settled, from, writes - 2).0);
    }
  }

  lemma SettledIsForward(dir: Dir, settled: Dir)
    requires PhaseOf(dir) == Some(AuditDurable) && PhaseOf(settled) == Some(SqliteTerminal)
    requires settled.doc == dir.doc && settled.files == dir.files && settled.spec == dir.spec
    ensures Forward(dir, settled)
  {
    hide Recovered, Binds;
  }

  lemma AcquireForward(dir: Dir, from: Source, writes: nat)
    requires PhaseOf(dir) == Some(NoAudit)
    ensures Forward(dir, Acquire(dir, from, writes).0)
    ensures Acquire(dir, from, writes).1 == Finished ==> Recovered(Acquire(dir, from, writes).0)
  {
    hide Settle, Recovered, Binds;
    if writes > 1 && from.audit.Some? && ValidAudit(from.audit.value, dir.spec) {
      var durable := WithAudit(Opened(dir), from.audit.value);
      SettleForward(durable, from, writes - 2);
      ForwardChains(dir, durable, Settle(durable, from, writes - 2).0);
    }
  }

  /** Whatever the directory holds, a call only moves it forward, and one that finishes leaves it
      recovered. */
  lemma {:induction false} CallIsForward(dir: Dir, from: Source, writes: nat)
    ensures Forward(dir, Call(dir, from, writes).0)
    ensures Call(dir, from, writes).1 == Finished ==> Recovered(Call(dir, from, writes).0)
  {
    hide Recovered, Binds, Acquire, Settle, Report, Bind;
    match PhaseOf(dir)
    case None =>
    case Some(NoAudit) => AcquireForward(dir, from, writes);
    case Some(AuditDurable) => SettleForward(dir, from, writes);
    case Some(SqliteTerminal) => ReportForward(dir, from, writes);
    case Some(LimitedComplete) => BindForward(dir, writes);
  }

  /** The prepared effect a recovery answers: the last one, or the one before an unknown for the same
      intent. */
  predicate AnswersAt(events: seq<EL.Event>, event: EL.Event, i: nat) {
    && i < |events| && events[i].pair == EL.Executor && events[i].intent == event.intent
    && (if i + 1 < |events| then i + 2 == |events| && events[i + 1].state == EL.Unknown
                                 && events[i + 1].intent == event.intent
        else events[i].state != EL.Unknown)
  }

  /** Whatever event and checkpoint are offered: what is bound answers an open executor effect of a
      failed local run, with the audit file and the settled row of the request the spec names. */
  lemma BindingMeans(dir: Dir, event: EL.Event, entries: seq<RM.Entry>)
    requires MayBind(dir, event, entries)
    ensures dir.doc.result == RM.FailedResult && !dir.doc.ci && SettledByAudit(dir)
    ensures SPEC in dir.files && dir.files[SPEC].requestId == dir.files[RM.AUDIT].requestId
    ensures dir.files.Keys !! NORMAL_ARTIFACTS
    ensures event.pair == EL.Executor && event.state == EL.Recovered && event.observation.Some?
    ensures exists i :: AnswersAt(dir.doc.effects, event, i)
    ensures RM.EffectFilesBound(dir.doc, dir.files)
    ensures RM.LedgerGood(RecoveredDoc(dir.doc, event, entries), Some(dir.files))
  {
    hide RM.Valid, RM.LedgerGood, RM.EventBound;
    var (doc, n) := (dir.doc, |dir.doc.effects|);
    var trial := RecoveredDoc(doc, event, entries);
    assert AnswersAt(doc.effects, event, if doc.effects[n - 1].state == EL.Unknown then n - 2 else n - 1);
    forall i | 0 <= i < n ensures RM.EventBound(doc.effects[i], dir.files) {
      assert trial.effects[i] == doc.effects[i];
    }
    forall p | p in NORMAL_ARTIFACTS ensures p !in dir.files {
    }
  }

  // ---------------------------------------------------------------- what a recovered run proves

  /** The files an event names are there with the bytes it names. */
  predicate FilesThere(e: EL.Event, files: RM.Files) {
    && e.intent.path in files && files[e.intent.path].sha256 == e.intent.sha256
    && (e.observation.Some? ==>
          && e.observation.value.path in files
          && files[e.observation.value.path].sha256 == e.observation.value.sha256)
  }

  /** A recovered run rests on the audit contract and nothing else: it is a local run whose stages
      before the executor passed, whose files and store row speak of one request, and which holds
      none of the executor's normal artifacts. */
  lemma RecoveredIsAuditOnly(dir: Dir)
    requires Recovered(dir)
    ensures !dir.doc.ci && dir.doc.stages.Keys == (set i | 0 <= i < 7 :: dir.doc.order[i]) + {RM.Executor}
    ensures forall i :: 0 <= i < 7 ==> RM.Passed == dir.doc.stages[dir.doc.order[i]].status
    ensures SPEC in dir.files && dir.files[SPEC].requestId == dir.files[RM.AUDIT].requestId == dir.spec.requestId.text
    ensures dir.files.Keys !! NORMAL_ARTIFACTS
    ensures forall i :: 0 <= i < |dir.doc.effects| ==> FilesThere(dir.doc.effects[i], dir.files)
    ensures RM.Settled(dir.doc, RM.Executor) && SettledByAudit(dir)
    ensures EL.HasOutcome(EL.HistoryOf(dir.doc.effects, EL.Executor))
    ensures dir.doc.stages[RM.Executor].checkpoint.Some?
    ensures var entries := dir.doc.stages[RM.Executor].checkpoint.value.entries;
            RM.KindsOf(entries, |entries|) == RM.AUDIT_CONTRACT
    ensures RM.AUDIT_REPORT in dir.files && RM.AUDIT_EVALUATION in dir.files
    ensures var (audit, report, evaluation) :=
              (dir.files[RM.AUDIT], dir.files[RM.AUDIT_REPORT], dir.files[RM.AUDIT_EVALUATION]);
            audit.sha256 == report.auditSha256 == evaluation.auditSha256
            && audit.requestId == report.requestId == evaluation.requestId
  {
    RecoveredStages(dir.doc);
    RecoveredOutcome(dir.doc);
    RecoveredByAudit(dir.doc, dir.files);
    forall i | 0 <= i < |dir.doc.effects| ensures FilesThere(dir.doc.effects[i], dir.files) {
      assert RM.EventBound(dir.doc.effects[i], dir.files);
    }
    hide RM.StagesShaped, RM.SkipsShaped, RM.LedgerGood, EL.Admissible, EL.HasOutcome, RM.EffectFilesBound, FilesThere;
    assert dir.files.Keys !! NORMAL_ARTIFACTS by {
      forall p | p in NORMAL_ARTIFACTS ensures p !in dir.files {
      }
    }
  }

  lemma RecoveredStages(doc: RM.Doc)
    requires RM.StagesShaped(doc) && RM.RecoveredShape(doc)
    ensures !doc.ci && doc.stages.Keys == (set i | 0 <= i < 7 :: doc.order[i]) + {RM.Executor}
    ensures forall i :: 0 <= i < 7 ==> RM.Passed == doc.stages[doc.order[i]].status
  {
    assert doc.order[doc.stages[RM.Executor].index] == RM.Executor;
    forall name | name in doc.stages ensures name == RM.Executor || exists i :: 0 <= i < 7 && doc.order[i] == name {
      var i := doc.stages[name].index;
      assert doc.order[i] == name && i < 8;
    }
  }

  lemma RecoveredOutcome(doc: RM.Doc)
    requires EL.Admissible(doc.effects, doc.ci, RM.SettledPairs(doc)) && RM.Settled(doc, RM.Executor)
    ensures EL.HasOutcome(EL.HistoryOf(doc.effects, EL.Executor))
  {
    assert EL.Executor in RM.SettledPairs(doc);
  }

  lemma RecoveredByAudit(doc: RM.Doc, files: RM.Files)
    requires RM.StagesShaped(doc) && RM.LedgerGood(doc, Some(files)) && !NormalPresent(files)
    requires RM.Executor in doc.stages && doc.stages[RM.Executor].status == RM.Recovered
    ensures doc.stages[RM.Executor].checkpoint.Some?
    ensures var entries := doc.stages[RM.Executor].checkpoint.value.entries;
            RM.KindsOf(entries, |entries|) == RM.AUDIT_CONTRACT && RM.AuditFilesBound(files)
  {
    var settled := RM.SettledInOrder(doc, |doc.order|);
    RM.SettledAreRecorded(doc, |doc.order|);
    assert doc.order[doc.stages[RM.Executor].index] == RM.Executor;
    assert RM.Executor in settled;
    var i :| 0 <= i < |settled| && settled[i] == RM.Executor;
    assert RM.GoodAt(doc, settled, i, Some(files));
    NormalContractNeedsFiles(doc.ledger[i].entries, RM.LedgerPaths(doc.ledger, i), files);
  }

  lemma NormalContractNeedsFiles(entries: seq<RM.Entry>, seen: set<Path>, files: RM.Files)
    requires RM.EntriesGood(entries, |entries|, seen, Some(files)) && !NormalPresent(files)
    ensures !RM.MeetsContract(RM.Executor, RM.KindsOf(entries, |entries|))
  {
    hide RM.MeetsContract, NormalPresent;
    if RM.MeetsContract(RM.Executor, RM.KindsOf(entries, |entries|)) {
      var p := NormalContractPath(RM.KindsOf(entries, |entries|));
      KindsHavePaths(entries, |entries|, p);
      var k :| 0 <= k < |entries| && entries[k].path == p;
      assert RM.FileMatches(Some(files), entries[k]);
      NormalPathPresent(p, files);
    }
  }

  lemma NormalContractPath(got: map<Path, RM.Kind>) returns (p: Path)
    requires RM.MeetsContract(RM.Executor, got)
    ensures p in got && p in NORMAL_ARTIFACTS
  {
    p := Path("receipt.json");
    assert p in RM.Contract(RM.Executor);
  }

  lemma NormalPathPresent(p: Path, files: RM.Files)
    requires p in NORMAL_ARTIFACTS && p in files
    ensures NormalPresent(files)
  {
  }

  lemma {:induction false} KindsHavePaths(entries: seq<RM.Entry>, n: nat, p: Path)
    requires n <= |entries| && p in RM.KindsOf(entries, n)
    ensures exists k :: 0 <= k < n && entries[k].path == p
  {
    if p != entries[n - 1].path {
      KindsHavePaths(entries, n - 1, p);
    }
  }

  // ---------------------------------------------------------------- whole histories

  /** Interrupted calls of the driver, mixed with other commits to the same store. */
  datatype Step = Invoke(from: Source, writes: nat) | Traffic(txn: RS.Txn)

  /** A commit that is not a settlement of this very request. */
  predicate Bystander(txn: RS.Txn, id: RS.RequestId) {
    match txn
    case Terminalize(other, _, _) => other != id
    case Overwrite(other, _) => other != id
    case _ => true
  }

  ghost function After(dir: Dir, step: Step): Dir {
    match step
    case Invoke(from, writes) => Call(dir, from, writes).0
    case Traffic(txn) => dir.(db := RS.Commit(dir.db, txn))
  }

  ghost function Run(dir: Dir, steps: seq<Step>, n: nat): Dir
    requires n <= |steps|
  {
    if n == 0 then dir else After(Run(dir, steps, n - 1), steps[n - 1])
  }

  lemma TrafficKeepsRow(db: RS.Db, txn: RS.Txn, id: RS.RequestId)
    requires id in db.requests && Bystander(txn, id)
    requires db.requests[id].state == RS.Unknown || db.requests[id].state == RS.Terminal
    ensures var after := RS.Commit(db, txn);
            id in after.requests && after.requests[id] == db.requests[id] && db.events <= after.events
  {
  }

  lemma TrafficKeepsPhase(dir: Dir, txn: RS.Txn)
    requires PhaseOf(dir).Some? && Bystander(txn, dir.spec.requestId)
    ensures PhaseOf(After(dir, Traffic(txn))) == PhaseOf(dir)
  {
    TrafficKeepsRow(dir.db, txn, dir.spec.requestId);
    hide RS.Commit;
  }

  ghost predicate Whole(dir: Dir) {
    Healthy(dir) || Recovered(dir)
  }

  /** The step dies exactly between the two limited reports. */
  predicate TearsReports(dir: Dir, step: Step) {
    && step.Invoke? && PhaseOf(dir).Some? && PhaseOf(dir) != Some(LimitedComplete)
    && step.writes == TornAfter(PhaseOf(dir).value) && Supplied(dir, step.from)
  }

  lemma InvokeKeepsWhole(dir: Dir, from: Source, writes: nat)
    requires Whole(dir)
    ensures var after := Call(dir, from, writes).0;
            if Healthy(dir) && TearsReports(dir, Invoke(from, writes)) then Torn(after) && after.doc == dir.doc
            else Whole(after)
  {
    hide Sound, Recovered, Acquire, Settle, Report, Bind;
    if Healthy(dir) {
      if Supplied(dir, from) {
        CallEndsExactly(dir, from, writes);
      } else {
        UnsuppliedOnlyOpens(dir, from, writes);
      }
    } else {
      RecoveredHasNoPhase(dir);
    }
  }

  lemma UnsuppliedOnlyOpens(dir: Dir, from: Source, writes: nat)
    requires Healthy(dir) && !Supplied(dir, from)
    ensures Healthy(Call(dir, from, writes).0)
  {
    OpeningKeepsPhase(dir);
    hide Sound;
  }

  lemma RecoveredHasNoPhase(dir: Dir)
    requires Recovered(dir)
    ensures PhaseOf(dir).None?
  {
  }

  lemma TrafficKeepsWhole(dir: Dir, txn: RS.Txn)
    requires Whole(dir) && Bystander(txn, dir.spec.requestId)
    ensures Whole(After(dir, Traffic(txn)))
  {
    hide RS.Commit, RM.Valid, RM.LedgerGood, RM.EffectFilesBound;
    if Healthy(dir) {
      TrafficKeepsPhase(dir, txn);
    } else {
      TrafficKeepsRow(dir.db, txn, dir.spec.requestId);
    }
  }

  lemma StepKeepsSpec(dir: Dir, step: Step)
    ensures After(dir, step).spec == dir.spec
  {
    if step.Invoke? {
      CallIsForward(dir, step.from, step.writes);
    }
  }

  /** Through any number of crashes and any store traffic of other requests, a healthy directory
      stays one that an uninterrupted call can finish, or is finished, unless some call died
      exactly between its two limited reports. */
  lemma {:induction false} RunStaysWhole(dir: Dir, steps: seq<Step>, n: nat)
    requires Healthy(dir) && n <= |steps|
    requires forall k :: 0 <= k < n && steps[k].Traffic? ==> Bystander(steps[k].txn, dir.spec.requestId)
    requires forall k :: 0 <= k < n ==> !TearsReports(Run(dir, steps, k), steps[k])
    ensures Whole(Run(dir, steps, n)) && Run(dir, steps, n).spec == dir.spec
  {
    hide Healthy, Recovered, Call, TearsReports;
    if n > 0 {
      RunStaysWhole(dir, steps, n - 1);
      var before := Run(dir, steps, n - 1);
      StepKeepsSpec(before, steps[n - 1]);
      match steps[n - 1]
      case Invoke(from, writes) => InvokeKeepsWhole(before, from, writes);
      case Traffic(txn) => TrafficKeepsWhole(before, txn);
    } else {
      assert Whole(dir);
    }
  }

  /** A torn pair of reports is never repaired. */
  lemma {:induction false} TornForever(dir: Dir, steps: seq<Step>, n: nat)
    requires Torn(dir) && dir.doc.result == RM.FailedResult && n <= |steps|
    ensures var after := Run(dir, steps, n); after.doc == dir.doc && after.files == dir.files
  {
    hide Call;
    if n > 0 {
      TornForever(dir, steps, n - 1);
      if steps[n - 1].Invoke? {
        TornIsPermanent(Run(dir, steps, n - 1), steps[n - 1].from, steps[n - 1].writes);
      }
    }
  }

  // ---------------------------------------------------------------- the unlogged unknown

  /** It blocks audit recovery at once ... */
  lemma UnloggedBlocks(dir: Dir)
    requires RS.Unlogged(dir.db, dir.spec.requestId)
    ensures PhaseOf(dir).None? && !Recovered(dir)
  {
  }

  lemma StepKeepsUnlogged(dir: Dir, step: Step)
    requires RS.Unlogged(dir.db, dir.spec.requestId)
    requires step.Traffic? ==> Silent(step.txn, dir.spec.requestId)
    ensures RS.Unlogged(After(dir, step).db, dir.spec.requestId)
    ensures step.Invoke? ==> After(dir, step) == dir
  {
    UnloggedBlocks(dir);
    if step.Traffic? {
      TrafficKeepsRow(dir.db, step.txn, dir.spec.requestId);
    }
    hide PhaseOf, Recovered;
  }

  /** The commit neither settles this request nor writes its missing log entry. */
  predicate Silent(txn: RS.Txn, id: RS.RequestId) {
    Bystander(txn, id) && txn != RS.Log(id, RS.Unknown)
  }

  /** ... and for ever: through any calls and any commits but the missing log entry itself and
      settlements of this very request, manifest and files stay as they are, and every further call
      is refused. */
  lemma {:induction false} UnloggedIsPermanent(dir: Dir, steps: seq<Step>, n: nat, from: Source, writes: nat)
    requires RS.Unlogged(dir.db, dir.spec.requestId) && n <= |steps|
    requires forall k :: 0 <= k < n && steps[k].Traffic? ==> Silent(steps[k].txn, dir.spec.requestId)
    ensures var after := Run(dir, steps, n);
            && RS.Unlogged(after.db, dir.spec.requestId)
            && (after.doc, after.files, after.spec) == (dir.doc, dir.files, dir.spec)
            && Call(after, from, writes) == (after, Refused)
  {
    if n > 0 {
      UnloggedIsPermanent(dir, steps, n - 1, from, writes);
      StepKeepsUnlogged(Run(dir, steps, n - 1), steps[n - 1]);
    }
    hide Silent, RS.Unlogged;
    UnloggedBlocks(Run(dir, steps, n));
    hide PhaseOf, Recovered;
  }

  // ---------------------------------------------------------------- the driver

  method CheckBinding(dir: Dir, event: EL.Event, entries: seq<RM.Entry>) returns (ok: bool)
    ensures ok <==> MayBind(dir, event, entries)
  {
    ok := RM.Validate(dir.doc);
    if !ok || !ExecutorFailed(dir.doc) || !Answers(dir.doc.effects, event) || !SpecNamed(dir) || RM.AUDIT !in dir.files
       || !ValidAudit(dir.files[RM.AUDIT], dir.spec)
       || !SettledBy(dir.db, dir.spec.requestId, dir.files[RM.AUDIT].source) {
      return false;
    }
    var trial := RecoveredDoc(dir.doc, event, entries);
    ok := RM.ValidArtifactLedger(trial, Some(dir.files));
    if !ok || !RM.EffectFilesBound(trial, dir.files) || NormalPresent(dir.files) {
      return false;
    }
    ok := RM.Validate(trial);
  }

  method VerifyRecovered(dir: Dir) returns (ok: bool)
    ensures ok <==> Recovered(dir)
  {
    ok := RM.Validate(dir.doc);
    if !ok || dir.doc.result != RM.RecoveredResult {
      return false;
    }
    ok := RM.ValidArtifactLedger(dir.doc, Some(dir.files));
    ok := ok && RM.EffectFilesBound(dir.doc, dir.files) && !NormalPresent(dir.files)
          && SpecNamed(dir) && RM.AUDIT in dir.files && ValidAudit(dir.files[RM.AUDIT], dir.spec)
          && SettledBy(dir.db, dir.spec.requestId, dir.files[RM.AUDIT].source);
  }

  class RecoveryRun {
    const spec: RS.RequestSpec
    var doc: RM.Doc
    var files: RM.Files
    var db: RS.Db

    ghost function Current(): Dir
      reads this
    {
      Dir(doc, files, spec, db)
    }

    constructor (dir: Dir)
      ensures Current() == dir
    {
      doc, files, spec, db := dir.doc, dir.files, dir.spec, dir.db;
    }

    /** `recover_audit` of the driver script, in a process that survives `writes` durable writes. */
    method Drive(from: Source, writes: nat) returns (outcome: Outcome)
      modifies this
      ensures (Current(), outcome) == Call(old(Current()), from, writes)
    {
      hide MayBind, Recovered, Acquire, Settle, Report, Bind;
      match PhaseOf(Dir(doc, files, spec, db))
      case None =>
        var ok := VerifyRecovered(Dir(doc, files, spec, db));
        outcome := if ok then Finished else Refused;
      case Some(NoAudit) => outcome := AcquireAudit(from, writes);
      case Some(AuditDurable) => outcome := Terminalize(from, writes);
      case Some(SqliteTerminal) => outcome := PublishReports(from, writes);
      case Some(LimitedComplete) => outcome := BindManifest(writes);
    }

    /** `acquire`, which opens the store, and the exclusive publication of its result. */
    method AcquireAudit(from: Source, writes: nat) returns (outcome: Outcome)
      modifies this
      ensures (Current(), outcome) == Acquire(old(Current()), from, writes)
    {
      hide PhaseOf, Settle, RS.Recovered;
      if writes == 0 {
        return Crashed;
      }
      var store := new RS.Store.Open(db);
      db := store.Snapshot();
      if from.audit.None? || !ValidAudit(from.audit.value, spec) {
        return Refused;
      }
      if writes == 1 {
        return Crashed;
      }
      files := files[RM.AUDIT := from.audit.value];
      outcome := Terminalize(from, writes - 2);
    }

    /** `terminalize`: settles the store from the durable audit file only. */
    method Terminalize(from: Source, writes: nat) returns (outcome: Outcome)
      modifies this
      ensures (Current(), outcome) == Settle(old(Current()), from, writes)
    {
      if PhaseOf(Dir(doc, files, spec, db)) != Some(AuditDurable) {
        return Refused;
      }
      assert RM.AUDIT in files;
      hide PhaseOf, Report, RS.Recovered;
      if writes == 0 {
        return Crashed;
      }
      var store := new RS.Store.Open(db);
      db := store.Snapshot();
      if writes == 1 {
        return Crashed;
      }
      var settled := store.TerminalizeFrom(spec.requestId, files[RM.AUDIT].source, RS.Unknown);
      if !settled {
        return Refused;
      }
      db := store.Snapshot();
      outcome := PublishReports(from, writes - 2);
    }

    method PublishReports(from: Source, writes: nat) returns (outcome: Outcome)
      modifies this
      ensures (Current(), outcome) == Report(old(Current()), from, writes)
    {
      if PhaseOf(Dir(doc, files, spec, db)) != Some(SqliteTerminal) {
        return Refused;
      }
      PathsDiffer();
      assert RM.AUDIT in files;
      hide PhaseOf, Bind;
      if writes == 0 {
        return Crashed;
      }
      files := files[RM.AUDIT_REPORT := ReportFile(REPORT_KIND, files[RM.AUDIT], from.reportSha)];
      if writes == 1 {
        return Crashed;
      }
      files := files[RM.AUDIT_EVALUATION := ReportFile(EVALUATION_KIND, files[RM.AUDIT], from.evaluationSha)];
      outcome := BindManifest(writes - 2);
    }

    method BindManifest(writes: nat) returns (outcome: Outcome)
      modifies this
      ensures (Current(), outcome) == Bind(old(Current()), writes)
    {
      if PhaseOf(Dir(doc, files, spec, db)) != Some(LimitedComplete) {
        return Refused;
      }
      var (event, entries) := (RecoveryEvent(files), RecoveryEntries(files));
      hide MayBind;
      var ok := CheckBinding(Dir(doc, files, spec, db), event, entries);
      if !ok {
        return Refused;
      }
      if writes == 0 {
        return Crashed;
      }
      doc := RecoveredDoc(doc, event, entries);
      outcome := Finished;
    }
  }
}
