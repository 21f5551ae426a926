/** The v2 run manifest of `scripts/sentinel-manifest.py`: an ordered stage machine, a checkpoint
    ledger bound to the artifact files, the effect ledger, and resume authorization. */
module RunManifest {
  import opened Basics
  import EL = EffectLedger

  /** The stages that own artifacts, and all the others. */
  datatype Stage =
    | ScanRedactImport | AnalysisReport | Proposal | Approval | Executor
    | VerifyCiArtifact | CiNormalizeImport
    | OutputFree(name: nat)

  datatype Status = Passed | Failed | Skipped | Rejected | Recovered

  datatype Kind = Kind(name: string)

  datatype Entry = Entry(path: Path, kind: Kind, sha256: Digest)

  /** The checkpoint digest is modelled by the checkpoint itself. */
  datatype Checkpoint = Checkpoint(stage: Stage, index: nat, entries: seq<Entry>)

  datatype Record = Record(status: Status, index: nat, checkpoint: Option<Checkpoint>)

  datatype Result = Pending | PassedResult | FailedResult | RejectedResult | RecoveredResult

  datatype Identity = Identity(sha256: Digest)

  datatype Doc = Doc(ci: bool, identity: Identity, order: seq<Stage>, stages: map<Stage, Record>,
                     ledger: seq<Checkpoint>, effects: seq<EL.Event>, skips: seq<Stage>, result: Result)

  /** What validation reads of one artifact file: its digest, the kinds it parses as, the request it
      names, and the fields that bind an audit artifact to its source and its reports to the audit. */
  datatype File = File(sha256: Digest, kinds: set<Kind>, requestId: string, source: Digest, auditSha256: Digest)

  type Files = map<Path, File>

  // ---------------------------------------------------------------- stage contracts

  const AUDIT := Path("audit-recovery.json")
  const AUDIT_REPORT := Path("audit-recovery-report.json")
  const AUDIT_EVALUATION := Path("audit-evaluation.json")

  function Contract(stage: Stage): map<Path, set<Kind>> {
    match stage
    case ScanRedactImport => map[
      Path("phase1/scan-admission.json") := {Kind("scan-admission/v1")},
      Path("phase1/nuclei.sanitized.jsonl") := {Kind("nuclei-sanitized-jsonl/v1")},
      Path("phase1/import-intent.json") := {Kind("import-intent/v1")},
      Path("phase1/import-observation.json") := {Kind("import-observation/v1")}]
    case AnalysisReport => map[Path("normalized.jsonl") := {Kind("normalized-jsonl/v1")},
                               Path("report.jsonl") := {Kind("report-jsonl/v1")}]
    case Proposal => map[Path("request-spec.json") := {Kind("request-spec/v1")}]
    case Approval => map[Path("approval.json") := {Kind("approval/v1")}]
    case Executor => map[Path("receipt.json") := {Kind("receipt/v1"), Kind("receipt/v2")},
                         Path("request-descriptor.json") := {Kind("request-descriptor/v1")}]
    case VerifyCiArtifact => map[Path("trivy.admitted.json") := {Kind("trivy-sanitized-json/v1")},
                                 Path("trivy.admitted.metadata.json") := {Kind("trivy-metadata/v1")}]
    case CiNormalizeImport => map[Path("trivy.normalized.jsonl") := {Kind("normalized-jsonl/v1")}]
    case OutputFree(_) => map[]
  }

  const AUDIT_CONTRACT: map<Path, Kind> :=
    map[AUDIT := Kind("audit-recovery/v1"), AUDIT_REPORT := Kind("audit-recovery-report/v1"),
        AUDIT_EVALUATION := Kind("audit-evaluation/v1")]

  predicate IsAuditCheckpoint(stage: Stage, got: map<Path, Kind>) {
    stage == Executor && got == AUDIT_CONTRACT
  }

  predicate MeetsContract(stage: Stage, got: map<Path, Kind>) {
    got.Keys == Contract(stage).Keys && forall p :: p in got ==> got[p] in Contract(stage)[p]
  }

  /** The two limited reports carry the request and the digest of the audit artifact. */
  predicate AuditFilesBound(files: Files) {
    && AUDIT in files && AUDIT_REPORT in files && AUDIT_EVALUATION in files
    && files[AUDIT_REPORT].requestId == files[AUDIT].requestId
    && files[AUDIT_EVALUATION].requestId == files[AUDIT].requestId
    && files[AUDIT_REPORT].auditSha256 == files[AUDIT].sha256
    && files[AUDIT_EVALUATION].auditSha256 == files[AUDIT].sha256
  }

  // ---------------------------------------------------------------- the checkpoint ledger

  predicate Settled(doc: Doc, name: Stage) {
    name in doc.stages && (doc.stages[name].status == Passed || doc.stages[name].status == Recovered)
  }

  /** The settled stages among the first `n` of the order. */
  function SettledInOrder(doc: Doc, n: nat): seq<Stage>
    requires n <= |doc.order|
  {
    if n == 0 then [] else
    SettledInOrder(doc, n - 1) + if Settled(doc, doc.order[n - 1]) then [doc.order[n - 1]] else []
  }

  function PathsOf(entries: seq<Entry>, n: nat): set<Path>
    requires n <= |entries|
  {
    set k | 0 <= k < n :: entries[k].path
  }

  function LedgerPaths(ledger: seq<Checkpoint>, n: nat): set<Path>
    requires n <= |ledger|
  {
    if n == 0 then {} else LedgerPaths(ledger, n - 1) + PathsOf(ledger[n - 1].entries, |ledger[n - 1].entries|)
  }

  function KindsOf(entries: seq<Entry>, n: nat): map<Path, Kind>
    requires n <= |entries|
  {
    if n == 0 then map[] else KindsOf(entries, n - 1)[entries[n - 1].path := entries[n - 1].kind]
  }

  predicate FileMatches(files: Option<Files>, e: Entry) {
    files.Some? ==>
      e.path in files.value && files.value[e.path].sha256 == e.sha256 && e.kind in files.value[e.path].kinds
  }

  /** The first `n` entries are new, pairwise different, and agree with the files. */
  predicate EntriesGood(entries: seq<Entry>, n: nat, seen: set<Path>, files: Option<Files>)
    requires n <= |entries|
  {
    && (forall k :: 0 <= k < n ==> entries[k].path !in seen && FileMatches(files, entries[k]))
    && (forall j, k :: 0 <= j < k < n ==> entries[j].path != entries[k].path)
  }

  predicate CheckpointGood(doc: Doc, c: Checkpoint, name: Stage, seen: set<Path>, files: Option<Files>)
    requires name in doc.stages
  {
    var got := KindsOf(c.entries, |c.entries|);
    && c.stage == name && c.index == doc.stages[name].index && doc.stages[name].checkpoint == Some(c)
    && EntriesGood(c.entries, |c.entries|, seen, files)
    && (if IsAuditCheckpoint(name, got) then files.Some? ==> AuditFilesBound(files.value) else MeetsContract(name, got))
  }

  /** The `i`-th checkpoint answers for the `i`-th settled stage. */
  predicate GoodAt(doc: Doc, settled: seq<Stage>, i: nat, files: Option<Files>)
    requires i < |settled| && i < |doc.ledger|
  {
    settled[i] in doc.stages && CheckpointGood(doc, doc.ledger[i], settled[i], LedgerPaths(doc.ledger, i), files)
  }

  predicate AllGood(doc: Doc, settled: seq<Stage>, files: Option<Files>) {
    |doc.ledger| == |settled| && forall i :: 0 <= i < |settled| ==> GoodAt(doc, settled, i, files)
  }

  predicate LedgerGood(doc: Doc, files: Option<Files>) {
    AllGood(doc, SettledInOrder(doc, |doc.order|), files)
  }

  lemma {:induction false} SettledAreRecorded(doc: Doc, n: nat)
    requires n <= |doc.order|
    ensures forall name :: name in SettledInOrder(doc, n) <==> name in doc.order[..n] && Settled(doc, name)
  {
    if n > 0 {
      SettledAreRecorded(doc, n - 1);
      assert doc.order[..n] == doc.order[..n - 1] + [doc.order[n - 1]];
    }
  }

  /** The entry loop of one checkpoint, collecting the paths seen and the kinds by path. */
  method ReadEntries(entries: seq<Entry>, seen: set<Path>, files: Option<Files>)
    returns (ok: bool, got: map<Path, Kind>, paths: set<Path>)
    ensures ok <==> EntriesGood(entries, |entries|, seen, files)
    ensures ok ==> got == KindsOf(entries, |entries|) && paths == seen + PathsOf(entries, |entries|)
  {
    got, paths := map[], seen;
    for k := 0 to |entries|
      invariant got == KindsOf(entries, k)
      invariant paths == seen + PathsOf(entries, k)
      invariant EntriesGood(entries, k, seen, files)
    {
      var e := entries[k];
      if e.path in paths || !FileMatches(files, e) {
        return false, got, paths;
      }
      paths, got := paths + {e.path}, got[e.path := e.kind];
    }
    return true, got, paths;
  }

  method ReadCheckpoint(doc: Doc, c: Checkpoint, name: Stage, seen: set<Path>, files: Option<Files>)
    returns (ok: bool, paths: set<Path>)
    requires name in doc.stages
    ensures ok <==> CheckpointGood(doc, c, name, seen, files)
    ensures ok ==> paths == seen + PathsOf(c.entries, |c.entries|)
  {
    paths := seen;
    if c.stage != name || c.index != doc.stages[name].index || doc.stages[name].checkpoint != Some(c) {
      return false, paths;
    }
    var good, got, more := ReadEntries(c.entries, seen, files);
    if !good {
      return false, paths;
    }
    if IsAuditCheckpoint(name, got) {
      return files.None? || AuditFilesBound(files.value), more;
    }
    return MeetsContract(name, got), more;
  }

  method SettledStages(doc: Doc) returns (settled: seq<Stage>)
    ensures settled == SettledInOrder(doc, |doc.order|)
    ensures forall i :: 0 <= i < |settled| ==> settled[i] in doc.stages
  {
    settled := [];
    for n := 0 to |doc.order|
      invariant settled == SettledInOrder(doc, n)
      invariant forall i :: 0 <= i < |settled| ==> settled[i] in doc.stages
    {
      if Settled(doc, doc.order[n]) {
        settled := settled + [doc.order[n]];
      }
    }
  }

  /** `valid_artifact_ledger`.  Validation has already established that indices follow the stage
      order, so sorting by index is walking the order. */
  method ValidArtifactLedger(doc: Doc, files: Option<Files>) returns (ok: bool)
    ensures ok <==> LedgerGood(doc, files)
  {
    var settled := SettledStages(doc);
    ok := ReadLedger(doc, settled, files);
  }

  method ReadLedger(doc: Doc, settled: seq<Stage>, files: Option<Files>) returns (ok: bool)
    requires forall i :: 0 <= i < |settled| ==> settled[i] in doc.stages
    ensures ok <==> AllGood(doc, settled, files)
  {
    if |doc.ledger| != |settled| {
      return false;
    }
    var paths: set<Path> := {};
    for i := 0 to |settled|
      invariant paths == LedgerPaths(doc.ledger, i)
      invariant forall k :: 0 <= k < i ==> GoodAt(doc, settled, k, files)
    {
      ok, paths := ReadCheckpoint(doc, doc.ledger[i], settled[i], paths, files);
      if !ok {
        assert !GoodAt(doc, settled, i, files);
        return;
      }
    }
    return true;
  }

  /** In a good ledger no artifact path is checkpointed twice, by whichever stages. */
  lemma LedgerPathsDistinct(doc: Doc, files: Option<Files>, i: nat, a: nat, j: nat, b: nat)
    requires LedgerGood(doc, files) && i <= j < |doc.ledger| && (i < j || a < b)
    requires a < |doc.ledger[i].entries| && b < |doc.ledger[j].entries|
    ensures doc.ledger[i].entries[a].path != doc.ledger[j].entries[b].path
  {
    assert GoodAt(doc, SettledInOrder(doc, |doc.order|), j, files);
    if i < j {
      LedgerPathsContain(doc.ledger, j, i, a);
    }
  }

  lemma {:induction false} LedgerPathsContain(ledger: seq<Checkpoint>, n: nat, i: nat, a: nat)
    requires i < n <= |ledger| && a < |ledger[i].entries|
    ensures ledger[i].entries[a].path in LedgerPaths(ledger, n)
  {
    if i < n - 1 {
      LedgerPathsContain(ledger, n - 1, i, a);
    }
  }

  /** The checkpoint a path of the ledger comes from. */
  lemma {:induction false} PathInCheckpoint(ledger: seq<Checkpoint>, n: nat, p: Path) returns (i: nat)
    requires n <= |ledger| && p in LedgerPaths(ledger, n)
    ensures i < n && p in PathsOf(ledger[i].entries, |ledger[i].entries|)
  {
    i := n - 1;
    if p !in PathsOf(ledger[i].entries, |ledger[i].entries|) {
      i := PathInCheckpoint(ledger, n - 1, p);
    }
  }

  lemma {:induction false} PathHasKind(entries: seq<Entry>, n: nat, p: Path)
    requires n <= |entries| && p in PathsOf(entries, n)
    ensures p in KindsOf(entries, n)
  {
    if entries[n - 1].path != p {
      PathHasKind(entries, n - 1, p);
    }
  }

  // ---------------------------------------------------------------- files only ever appear

  predicate Grows(a: Files, b: Files) {
    forall p :: p in a ==> p in b && b[p] == a[p]
  }

  lemma GoodAtGrows(doc: Doc, settled: seq<Stage>, i: nat, a: Files, b: Files)
    requires i < |settled| && i < |doc.ledger| && GoodAt(doc, settled, i, Some(a)) && Grows(a, b)
    ensures GoodAt(doc, settled, i, Some(b))
  {
    hide KindsOf, LedgerPaths, MeetsContract;
  }

  lemma LedgerGoodGrows(doc: Doc, a: Files, b: Files)
    requires LedgerGood(doc, Some(a)) && Grows(a, b)
    ensures LedgerGood(doc, Some(b))
  {
    var settled := SettledInOrder(doc, |doc.order|);
    forall i | 0 <= i < |settled| ensures GoodAt(doc, settled, i, Some(b)) {
      assert GoodAt(doc, settled, i, Some(a));
      GoodAtGrows(doc, settled, i, a, b);
    }
    hide GoodAt;
  }

  /** The files a ledger was checked against still vouch for it after other fields changed. */
  lemma SameLedgerStaysGood(doc: Doc, trial: Doc, files: Files)
    requires LedgerGood(doc, Some(files)) && LedgerGood(trial, None) && trial.ledger == doc.ledger
    ensures LedgerGood(trial, Some(files))
  {
    var was, settled := SettledInOrder(doc, |doc.order|), SettledInOrder(trial, |trial.order|);
    forall i | 0 <= i < |settled| ensures GoodAt(trial, settled, i, Some(files)) {
      assert GoodAt(doc, was, i, Some(files)) && GoodAt(trial, settled, i, None);
      hide KindsOf, LedgerPaths, MeetsContract;
    }
    hide GoodAt;
  }

  // ---------------------------------------------------------------- validation

  function StageOf(pair: EL.Pair): Option<Stage> {
    match pair
    case Import => Some(ScanRedactImport)
    case Executor => Some(Executor)
    case Foreign(_, _) => None
  }

  /** The remote effects whose producing stage is settled. */
  function SettledPairs(doc: Doc): set<EL.Pair> {
    set pair | pair in {EL.Import, EL.Executor} && Settled(doc, StageOf(pair).value)
  }

  predicate StagesShaped(doc: Doc) {
    && doc.order != []
    && (forall i, j :: 0 <= i < j < |doc.order| ==> doc.order[i] != doc.order[j])
    && |doc.stages| <= |doc.order|
    && (forall i :: 0 <= i < |doc.order| ==> (doc.order[i] in doc.stages <==> i < |doc.stages|))
    && (forall name :: name in doc.stages ==>
          var r := doc.stages[name];
          && r.index < |doc.order| && doc.order[r.index] == name
          && (r.checkpoint.Some? <==> r.status == Passed || r.status == Recovered))
  }

  predicate SkipsShaped(doc: Doc) {
    && (forall i, j :: 0 <= i < j < |doc.skips| ==> doc.skips[i] != doc.skips[j])
    && (forall name :: name in doc.skips ==> name in doc.stages && doc.stages[name].status == Skipped)
  }

  predicate RecoveredShape(doc: Doc) {
    && !doc.ci && |doc.stages| == 8 && |doc.order| >= 8
    && (forall i :: 0 <= i < 7 ==> doc.order[i] in doc.stages && doc.stages[doc.order[i]].status == Passed)
    && Executor in doc.stages && doc.stages[Executor].status == Recovered
  }

  /** The parts of `valid` that concern the stage machine and the two ledgers. */
  ghost predicate Valid(doc: Doc) {
    && StagesShaped(doc) && SkipsShaped(doc)
    && LedgerGood(doc, None)
    && EL.Admissible(doc.effects, doc.ci, SettledPairs(doc))
    && (doc.result == RecoveredResult ==> RecoveredShape(doc))
  }

  function IntentKind(pair: EL.Pair): Kind {
    if pair == EL.Import then Kind("import-intent/v1") else Kind("request-spec/v1")
  }

  function ObservationKinds(e: EL.Event): set<Kind> {
    if e.pair == EL.Import then {Kind("import-observation/v1")}
    else if e.state == EL.Recovered then {Kind("audit-recovery/v1")}
    else {Kind("receipt/v1"), Kind("receipt/v2")}
  }

  /** The event still names bytes of the right kinds; a recovery answers the request of its intent. */
  predicate EventBound(e: EL.Event, files: Files) {
    && e.intent.path in files
    && var intent := files[e.intent.path];
       && intent.sha256 == e.intent.sha256 && IntentKind(e.pair) in intent.kinds
       && (e.observation.Some? ==>
             && e.observation.value.path in files
             && var o := files[e.observation.value.path];
                && o.sha256 == e.observation.value.sha256 && ObservationKinds(e) * o.kinds != {}
                && (e.state == EL.Recovered ==> o.requestId == intent.requestId))
  }

  predicate EffectFilesBound(doc: Doc, files: Files) {
    forall i :: 0 <= i < |doc.effects| ==> EventBound(doc.effects[i], files)
  }

  lemma EffectsBoundGrow(doc: Doc, a: Files, b: Files)
    requires EffectFilesBound(doc, a) && Grows(a, b)
    ensures EffectFilesBound(doc, b)
  {
    forall i | 0 <= i < |doc.effects| ensures EventBound(doc.effects[i], b) {
      assert EventBound(doc.effects[i], a);
    }
  }

  // ---------------------------------------------------------------- the commands

  function Initial(ci: bool, identity: Identity, order: seq<Stage>): Doc {
    Doc(ci, identity, order, map[], [], [], [], Pending)
  }

  function ResultAfter(status: Status): Result {
    match status
    case Failed => FailedResult
    case Rejected => RejectedResult
    case _ => Pending
  }

  function Staged(doc: Doc, name: Stage, status: Status, entries: Option<seq<Entry>>): Doc {
    var c := if status == Passed && entries.Some? then Some(Checkpoint(name, |doc.stages|, entries.value)) else None;
    doc.(stages := doc.stages[name := Record(status, |doc.stages|, c)],
         ledger := if c.Some? then doc.ledger + [c.value] else doc.ledger,
         skips := if status == Skipped then doc.skips + [name] else doc.skips,
         result := ResultAfter(status))
  }

  predicate StageInTurn(doc: Doc, name: Stage, status: Status, entries: Option<seq<Entry>>) {
    && doc.result == Pending && |doc.stages| < |doc.order| && name == doc.order[|doc.stages|]
    && status != Recovered && (status == Passed <==> entries.Some?)
  }

  ghost predicate MayStage(doc: Doc, files: Files, name: Stage, status: Status, entries: Option<seq<Entry>>) {
    && Valid(doc) && StageInTurn(doc, name, status, entries)
    && (status == Passed ==> LedgerGood(Staged(doc, name, status, entries), Some(files)))
    && Valid(Staged(doc, name, status, entries))
  }

  function WithEffect(doc: Doc, event: EL.Event): Doc {
    doc.(effects := doc.effects + [event])
  }

  ghost predicate MayAddEffect(doc: Doc, files: Files, event: EL.Event) {
    Valid(doc) && doc.result == Pending && Valid(WithEffect(doc, event))
        && EffectFilesBound(WithEffect(doc, event), files)
  }

  predicate AllPassed(doc: Doc) {
    |doc.stages| == |doc.order|
    && forall i :: 0 <= i < |doc.order| ==> doc.order[i] in doc.stages && doc.stages[doc.order[i]].status == Passed
  }

  ghost predicate NothingHangs(doc: Doc) {
    forall pair :: !EL.Hanging(EL.HistoryOf(doc.effects, pair))
  }

  /** A CI run never has the handoff this would need: it ends by publication. */
  ghost predicate MayFinalize(doc: Doc, files: Files) {
    && Valid(doc) && !doc.ci && LedgerGood(doc, Some(files)) && EffectFilesBound(doc, files) && NothingHangs(doc)
    && doc.result == Pending && doc.skips == [] && AllPassed(doc)
  }

  /** `incomplete_stage_effect`: some effect's stage has not passed. */
  predicate EffectWithoutStage(doc: Doc) {
    exists i :: 0 <= i < |doc.effects| &&
      var stage := StageOf(doc.effects[i].pair);
      stage.None? || stage.value !in doc.stages || doc.stages[stage.value].status != Passed
  }

  ghost predicate MayResume(doc: Doc, files: Files, identity: Identity) {
    && Valid(doc) && doc.result == Pending && doc.skips == [] && identity == doc.identity
    && LedgerGood(doc, Some(files)) && EffectFilesBound(doc, files)
    && NothingHangs(doc) && !EffectWithoutStage(doc)
  }

  /** The stage a successful `authorize_resume` names; none when every stage is recorded. */
  function NextStage(doc: Doc): Option<Stage>
    requires |doc.stages| <= |doc.order|
  {
    if |doc.stages| < |doc.order| then Some(doc.order[|doc.stages|]) else None
  }

  // ---------------------------------------------------------------- runs

  datatype Command =
    | StageV2(files: Files, name: Stage, status: Status, entries: Option<seq<Entry>>)
    | Effect(files: Files, event: EL.Event)
    | Finalize(files: Files)

  /** A refused command leaves the manifest as it was. */
  ghost function Apply(doc: Doc, c: Command): Doc {
    match c
    case StageV2(files, name, status, entries) =>
      if MayStage(doc, files, name, status, entries) then Staged(doc, name, status, entries) else doc
    case Effect(files, event) => if MayAddEffect(doc, files, event) then WithEffect(doc, event) else doc
    case Finalize(files) => if MayFinalize(doc, files) then doc.(result := PassedResult) else doc
  }

  ghost function Run(doc: Doc, commands: seq<Command>): Doc
    decreases |commands|
  {
    if commands == [] then doc else Run(Apply(doc, commands[0]), commands[1..])
  }

  /** While the result is pending, no recorded stage failed or was rejected, and every skipped
      stage is listed. */
  predicate PendingMeansClean(doc: Doc) {
    doc.result == Pending ==>
      forall name :: name in doc.stages ==>
        doc.stages[name].status == Passed || (doc.stages[name].status == Skipped && name in doc.skips)
  }

  lemma StepKeepsClean(doc: Doc, c: Command)
    requires PendingMeansClean(doc)
    ensures PendingMeansClean(Apply(doc, c))
  {
    if c.StageV2? && MayStage(doc, c.files, c.name, c.status, c.entries) {
      hide Valid, LedgerGood;
      StagingKeepsClean(doc, c);
    }
    hide MayStage, MayAddEffect, MayFinalize, Staged;
  }

  lemma StagingKeepsClean(doc: Doc, c: Command)
    requires PendingMeansClean(doc) && c.StageV2? && StageInTurn(doc, c.name, c.status, c.entries)
    ensures PendingMeansClean(Staged(doc, c.name, c.status, c.entries))
  {
  }

  lemma {:induction false} RunKeepsClean(doc: Doc, commands: seq<Command>)
    requires PendingMeansClean(doc)
    ensures PendingMeansClean(Run(doc, commands))
    decreases |commands|
  {
    if commands != [] {
      StepKeepsClean(doc, commands[0]);
      RunKeepsClean(Apply(doc, commands[0]), commands[1..]);
    }
  }

  /** Only the last recorded stage can have failed or been rejected, and the result says so. */
  predicate FailsLast(doc: Doc) {
    forall name :: name in doc.stages ==>
      var r := doc.stages[name];
      || r.status == Passed || (r.status == Skipped && name in doc.skips)
      || ((r.status == Failed || r.status == Rejected) && r.index == |doc.stages| - 1
         && doc.result == ResultAfter(r.status))
  }

  lemma StepKeepsFailsLast(doc: Doc, c: Command)
    requires FailsLast(doc)
    ensures FailsLast(Apply(doc, c))
  {
    if c.StageV2? && MayStage(doc, c.files, c.name, c.status, c.entries) {
      hide LedgerGood, SkipsShaped, RecoveredShape, EL.Admissible;
      InTurnIsNew(doc, c.name);
      StagingKeepsFailsLast(doc, c);
    }
    hide MayStage, MayAddEffect, MayFinalize, Staged;
    assert forall files :: MayFinalize(doc, files) ==> doc.result == Pending by { FinalizesPending(doc); }
  }

  lemma FinalizesPending(doc: Doc)
    ensures forall files :: MayFinalize(doc, files) ==> doc.result == Pending
  {
    hide Valid, LedgerGood, EffectFilesBound, NothingHangs, AllPassed;
  }

  lemma StagingKeepsFailsLast(doc: Doc, c: Command)
    requires FailsLast(doc) && c.StageV2? && StageInTurn(doc, c.name, c.status, c.entries) && c.name !in doc.stages
    ensures FailsLast(Staged(doc, c.name, c.status, c.entries))
  {
    assert |doc.stages[c.name := Record(c.status, |doc.stages|, None)]| == |doc.stages| + 1;
    forall name | name in doc.stages ensures doc.stages[name].status != Failed && doc.stages[name].status != Rejected {
    }
  }

  /** The manifest is as it began or valid, and bound to the files that exist by now. */
  ghost predicate BoundTo(doc: Doc, files: Files) {
    && (doc.stages == map[] || Valid(doc))
    && LedgerGood(doc, Some(files)) && EffectFilesBound(doc, files)
  }

  lemma StepKeepsBound(doc: Doc, c: Command, files: Files)
    requires BoundTo(doc, files) && Grows(c.files, files)
    ensures BoundTo(Apply(doc, c), files)
  {
    match c
    case StageV2(_, name, status, entries) =>
      if MayStage(doc, c.files, name, status, entries) {
        StagingKeepsBound(doc, c, files);
      }
    case Effect(_, event) =>
      if MayAddEffect(doc, c.files, event) {
        hide LedgerGood, EffectFilesBound, EL.Admissible, SkipsShaped, RecoveredShape;
        assert LedgerGood(WithEffect(doc, event), None);
        SameLedgerStaysGood(doc, WithEffect(doc, event), files);
        EffectsBoundGrow(WithEffect(doc, event), c.files, files);
      }
    case Finalize(_) =>
      if MayFinalize(doc, c.files) {
        FinalizingKeepsBound(doc, files);
      }
  }

  lemma StagingKeepsBound(doc: Doc, c: Command, files: Files)
    requires BoundTo(doc, files) && Grows(c.files, files)
    requires c.StageV2? && MayStage(doc, c.files, c.name, c.status, c.entries)
    ensures BoundTo(Staged(doc, c.name, c.status, c.entries), files)
  {
    hide LedgerGood, EL.Admissible, SkipsShaped, RecoveredShape, StagesShaped;
    var trial := Staged(doc, c.name, c.status, c.entries);
    assert EffectFilesBound(trial, files);
    if c.status == Passed {
      LedgerGoodGrows(trial, c.files, files);
    } else {
      SameLedgerStaysGood(doc, trial, files);
    }
  }

  lemma FinalizingKeepsBound(doc: Doc, files: Files)
    requires BoundTo(doc, files) && Valid(doc)
    ensures BoundTo(doc.(result := PassedResult), files)
  {
    ResultIsNotChecked(doc, Some(files));
    ResultIsNotChecked(doc, None);
    hide LedgerGood, EL.Admissible;
  }

  lemma ResultIsNotChecked(doc: Doc, files: Option<Files>)
    requires LedgerGood(doc, files)
    ensures LedgerGood(doc.(result := PassedResult), files)
    ensures SettledPairs(doc.(result := PassedResult)) == SettledPairs(doc)
  {
    var after, settled := doc.(result := PassedResult), SettledInOrder(doc, |doc.order|);
    SettledBefore(doc, after, |doc.order|);
    forall i | 0 <= i < |settled| ensures GoodAt(after, settled, i, files) {
      assert GoodAt(doc, settled, i, files);
      hide KindsOf, LedgerPaths, MeetsContract, EntriesGood;
    }
    hide GoodAt;
  }

  /** Every command saw files that are still there. */
  predicate FilesKept(commands: seq<Command>, files: Files) {
    forall k :: 0 <= k < |commands| ==> Grows(commands[k].files, files)
  }

  /** On every run whose files never change once written, the manifest stays bound to them. */
  lemma {:induction false} RunKeepsBound(doc: Doc, commands: seq<Command>, files: Files)
    requires BoundTo(doc, files) && FailsLast(doc) && FilesKept(commands, files)
    ensures BoundTo(Run(doc, commands), files) && FailsLast(Run(doc, commands))
    ensures Run(doc, commands).ci == doc.ci && Run(doc, commands).order == doc.order
    decreases |commands|
  {
    hide BoundTo, FailsLast;
    if commands != [] {
      StepKeepsBound(doc, commands[0], files);
      StepKeepsFailsLast(doc, commands[0]);
      RunKeepsBound(Apply(doc, commands[0]), commands[1..], files);
    }
  }

  /** The stage at this place passed, its checkpoint is in ledger order and meets its contract, and its
      files are unchanged. */
  predicate CheckpointInPlace(doc: Doc, files: Files, i: nat) {
    && i < |doc.order| && i < |doc.ledger| && doc.order[i] in doc.stages
    && doc.stages[doc.order[i]] == Record(Passed, i, Some(doc.ledger[i]))
    && doc.ledger[i].stage == doc.order[i] && doc.ledger[i].index == i
    && (forall k :: 0 <= k < |doc.ledger[i].entries| ==>
          var e := doc.ledger[i].entries[k];
          e.path in files && files[e.path].sha256 == e.sha256 && e.kind in files[e.path].kinds)
    && var got := KindsOf(doc.ledger[i].entries, |doc.ledger[i].entries|);
       IsAuditCheckpoint(doc.order[i], got) || MeetsContract(doc.order[i], got)
  }

  /** What a resume may rely on: the recorded stages are exactly a prefix of the order, all passed,
      each with its checkpoint in ledger order and every checkpointed file unchanged. */
  ghost predicate PassedPrefix(doc: Doc, files: Files) {
    var n := |doc.stages|;
    && n <= |doc.order| && |doc.ledger| == n
    && (forall name :: name in doc.stages <==> name in doc.order[..n])
    && (forall i :: 0 <= i < n ==> CheckpointInPlace(doc, files, i))
  }

  /** The first stage of the order that is not recorded, or none. */
  ghost predicate FirstOpen(doc: Doc, next: Option<Stage>) {
    && (next.None? <==> forall i :: 0 <= i < |doc.order| ==> doc.order[i] in doc.stages)
    && (next.Some? ==>
          exists i :: 0 <= i < |doc.order| && doc.order[i] == next.value && next.value !in doc.stages
                      && forall j :: 0 <= j < i ==> doc.order[j] in doc.stages)
  }

  /** The point a run may be resumed from, and the stage to run next. */
  ghost predicate ResumePoint(doc: Doc, files: Files, next: Option<Stage>) {
    && doc.result == Pending && PassedPrefix(doc, files) && EffectFilesBound(doc, files) && FirstOpen(doc, next)
    && (forall pair :: Closed(EL.HistoryOf(doc.effects, pair)))
    && (forall i :: 0 <= i < |doc.effects| ==>
          var stage := StageOf(doc.effects[i].pair);
          stage.Some? && stage.value in doc.order[..|doc.stages|] && next != stage)
  }

  /** On every run, a successful resume is by the run's own identity and speaks about an all-passed,
      checkpointed prefix; every effect history is closed under a passed stage, so the stage to run
      next, the first one not recorded, has no effect of its own on record. */
  lemma {:induction false} ResumeIsSound(ci: bool, identity: Identity, order: seq<Stage>, commands: seq<Command>,
                                         files: Files, claimed: Identity)
    requires MayResume(Run(Initial(ci, identity, order), commands), files, claimed)
    ensures var doc := Run(Initial(ci, identity, order), commands);
            claimed == identity && ResumePoint(doc, files, NextStage(doc))
  {
    RunKeepsClean(Initial(ci, identity, order), commands);
    RunKeepsIdentity(Initial(ci, identity, order), commands);
    CleanResume(Run(Initial(ci, identity, order), commands), files, claimed);
  }

  lemma {:induction false} RunKeepsIdentity(doc: Doc, commands: seq<Command>)
    ensures var after := Run(doc, commands);
            (after.identity, after.ci, after.order) == (doc.identity, doc.ci, doc.order)
    decreases |commands|
  {
    hide MayStage, MayAddEffect, MayFinalize;
    if commands != [] {
      RunKeepsIdentity(Apply(doc, commands[0]), commands[1..]);
    }
  }

  lemma CleanResume(doc: Doc, files: Files, identity: Identity)
    requires PendingMeansClean(doc) && MayResume(doc, files, identity)
    ensures identity == doc.identity && ResumePoint(doc, files, NextStage(doc))
  {
    CleanIsPassedPrefix(doc, files);
    CleanEffects(doc);
    NextIsFirstOpen(doc);
    hide PassedPrefix, Valid, LedgerGood, FirstOpen;
  }

  lemma NextIsFirstOpen(doc: Doc)
    requires StagesShaped(doc)
    ensures FirstOpen(doc, NextStage(doc))
  {
    var n := |doc.stages|;
    if n < |doc.order| {
      assert doc.order[n] !in doc.stages;
      assert forall j :: 0 <= j < n ==> doc.order[j] in doc.stages;
    }
  }

  lemma CleanEffects(doc: Doc)
    requires StagesShaped(doc) && NothingHangs(doc) && !EffectWithoutStage(doc)
    ensures forall pair :: Closed(EL.HistoryOf(doc.effects, pair))
    ensures forall i :: 0 <= i < |doc.effects| ==>
              var stage := StageOf(doc.effects[i].pair);
              stage.Some? && stage.value in doc.order[..|doc.stages|] && NextStage(doc) != stage
  {
    forall pair ensures Closed(EL.HistoryOf(doc.effects, pair)) {
      assert !EL.Hanging(EL.HistoryOf(doc.effects, pair));
    }
    forall i | 0 <= i < |doc.effects|
      ensures var stage := StageOf(doc.effects[i].pair);
              stage.Some? && stage.value in doc.order[..|doc.stages|] && NextStage(doc) != stage
    {
      EffectStagePassed(doc, i);
    }
  }

  lemma EffectStagePassed(doc: Doc, i: nat)
    requires StagesShaped(doc) && !EffectWithoutStage(doc) && i < |doc.effects|
    ensures var stage := StageOf(doc.effects[i].pair);
            stage.Some? && stage.value in doc.order[..|doc.stages|] && NextStage(doc) != stage
  {
    var stage := StageOf(doc.effects[i].pair).value;
    assert doc.order[doc.stages[stage].index] == stage;
  }

  /** The history says nothing, or its last word is an outcome. */
  predicate Closed(h: seq<EL.EffectState>) {
    h == [] || h[|h| - 1] == EL.Observed || h[|h| - 1] == EL.Recovered
  }

  lemma CleanIsPassedPrefix(doc: Doc, files: Files)
    requires StagesShaped(doc) && LedgerGood(doc, Some(files))
    requires doc.result == Pending && doc.skips == [] && PendingMeansClean(doc)
    ensures PassedPrefix(doc, files)
  {
    SettledIsPrefix(doc);
    RecordedArePrefix(doc);
    forall i | 0 <= i < |doc.stages| ensures CheckpointInPlace(doc, files, i) {
      CheckpointStands(doc, files, i);
    }
    hide FileMatches, SettledInOrder, StagesShaped, PendingMeansClean, GoodAt;
  }

  lemma SettledIsPrefix(doc: Doc)
    requires StagesShaped(doc) && doc.result == Pending && doc.skips == [] && PendingMeansClean(doc)
    ensures |doc.stages| <= |doc.order| && SettledInOrder(doc, |doc.order|) == doc.order[..|doc.stages|]
  {
    forall i | 0 <= i < |doc.order| ensures Settled(doc, doc.order[i]) <==> i < |doc.stages| {
    }
    SettledPrefix(doc, |doc.stages|, |doc.order|);
  }

  lemma CheckpointStands(doc: Doc, files: Files, i: nat)
    requires StagesShaped(doc) && LedgerGood(doc, Some(files)) && i < |doc.stages| <= |doc.order|
    requires doc.result == Pending && doc.skips == [] && PendingMeansClean(doc)
    requires SettledInOrder(doc, |doc.order|) == doc.order[..|doc.stages|]
    ensures CheckpointInPlace(doc, files, i)
  {
    assert GoodAt(doc, SettledInOrder(doc, |doc.order|), i, Some(files));
    hide FileMatches, MeetsContract, IsAuditCheckpoint, KindsOf, LedgerPaths, SettledInOrder;
  }

  lemma RecordedArePrefix(doc: Doc)
    requires StagesShaped(doc)
    ensures forall name :: name in doc.stages <==> name in doc.order[..|doc.stages|]
  {
    forall name ensures name in doc.stages <==> name in doc.order[..|doc.stages|] {
      if name in doc.stages { assert doc.order[doc.stages[name].index] == name; }
    }
  }

  lemma {:induction false} SettledPrefix(doc: Doc, n: nat, m: nat)
    requires n <= m <= |doc.order|
    requires forall i :: 0 <= i < |doc.order| ==> (Settled(doc, doc.order[i]) <==> i < n)
    ensures SettledInOrder(doc, m) == doc.order[..n]
    decreases m
  {
    if m > n {
      SettledPrefix(doc, n, m - 1);
    } else {
      SettledAll(doc, n);
    }
  }

  lemma {:induction false} SettledAll(doc: Doc, n: nat)
    requires n <= |doc.order| && forall i :: 0 <= i < n ==> Settled(doc, doc.order[i])
    ensures SettledInOrder(doc, n) == doc.order[..n]
  {
    if n > 0 {
      SettledAll(doc, n - 1);
    }
  }

  // ---------------------------------------------------------------- progress

  /** What a new checkpoint must bring for the stage in turn. */
  predicate NewCheckpoint(doc: Doc, files: Files, name: Stage, entries: seq<Entry>) {
    && EntriesGood(entries, |entries|, LedgerPaths(doc.ledger, |doc.ledger|), Some(files))
    && MeetsContract(name, KindsOf(entries, |entries|))
  }

  predicate OutcomeIfRemote(doc: Doc, name: Stage) {
    && (name == ScanRedactImport ==> EL.HasOutcome(EL.HistoryOf(doc.effects, EL.Import)))
    && (name == Executor ==> EL.HasOutcome(EL.HistoryOf(doc.effects, EL.Executor)))
  }

  /** The machine is not stuck: the stage in turn passes whenever its artifacts meet the contract,
      are new and match their files, and a remote stage has its outcome on record. */
  lemma StageInTurnPasses(doc: Doc, files: Files, name: Stage, entries: seq<Entry>)
    requires Valid(doc) && LedgerGood(doc, Some(files)) && StageInTurn(doc, name, Passed, Some(entries))
    requires NewCheckpoint(doc, files, name, entries) && OutcomeIfRemote(doc, name)
    ensures MayStage(doc, files, name, Passed, Some(entries))
  {
    NewStageExtendsLedger(doc, Some(files), name, entries);
    NewStageExtendsLedger(doc, None, name, entries);
    NewStageKeepsStages(doc, name, Passed, Some(entries));
    NewStageKeepsSkips(doc, name, entries);
    NewStageKeepsEffects(doc, name, entries);
  }

  lemma InTurnIsNew(doc: Doc, name: Stage)
    requires StagesShaped(doc) && |doc.stages| < |doc.order| && name == doc.order[|doc.stages|]
    ensures name !in doc.stages
  {
  }

  lemma NewStageKeepsEffects(doc: Doc, name: Stage, entries: seq<Entry>)
    requires EL.Admissible(doc.effects, doc.ci, SettledPairs(doc)) && OutcomeIfRemote(doc, name)
    ensures EL.Admissible(doc.effects, doc.ci, SettledPairs(Staged(doc, name, Passed, Some(entries))))
  {
    var trial := Staged(doc, name, Passed, Some(entries));
    assert forall pair :: pair in SettledPairs(trial) ==> pair in SettledPairs(doc) || StageOf(pair) == Some(name);
  }

  lemma NewStageKeepsSkips(doc: Doc, name: Stage, entries: seq<Entry>)
    requires StagesShaped(doc) && SkipsShaped(doc) && StageInTurn(doc, name, Passed, Some(entries))
    ensures SkipsShaped(Staged(doc, name, Passed, Some(entries)))
  {
    InTurnIsNew(doc, name);
  }

  lemma NewStageKeepsStages(doc: Doc, name: Stage, status: Status, entries: Option<seq<Entry>>)
    requires StagesShaped(doc) && StageInTurn(doc, name, status, entries)
    ensures StagesShaped(Staged(doc, name, status, entries))
  {
    InTurnIsNew(doc, name);
    var trial := Staged(doc, name, status, entries);
    assert |trial.stages| == |doc.stages| + 1;
    forall i | 0 <= i < |doc.order| ensures doc.order[i] in trial.stages <==> i < |trial.stages| {
      assert doc.order[i] == name <==> i == |doc.stages|;
    }
  }

  lemma {:induction false} NewStageExtendsLedger(doc: Doc, files: Option<Files>, name: Stage, entries: seq<Entry>)
    requires StagesShaped(doc) && LedgerGood(doc, files) && StageInTurn(doc, name, Passed, Some(entries))
    requires EntriesGood(entries, |entries|, LedgerPaths(doc.ledger, |doc.ledger|), files)
    requires MeetsContract(name, KindsOf(entries, |entries|))
    ensures LedgerGood(Staged(doc, name, Passed, Some(entries)), files)
  {
    InTurnIsNew(doc, name);
    NewStageSettledLast(doc, name, entries);
    SettledAreRecorded(doc, |doc.order|);
    NewCheckpointIsGood(doc, files, name, entries);
    var trial := Staged(doc, name, Passed, Some(entries));
    AllGoodExtends(doc, trial, SettledInOrder(doc, |doc.order|), files, name);
  }

  /** A good checkpoint for one more settled stage keeps the whole ledger good. */
  lemma {:induction false} AllGoodExtends(doc: Doc, trial: Doc, settled: seq<Stage>, files: Option<Files>, name: Stage)
    requires AllGood(doc, settled, files) && |trial.ledger| == |doc.ledger| + 1
             && trial.ledger[..|doc.ledger|] == doc.ledger
    requires forall s :: s in settled ==> s in doc.stages && s in trial.stages && trial.stages[s] == doc.stages[s]
    requires name in trial.stages
    requires CheckpointGood(trial, trial.ledger[|doc.ledger|], name, LedgerPaths(doc.ledger, |doc.ledger|), files)
    ensures AllGood(trial, settled + [name], files)
  {
    forall i | 0 <= i < |settled| + 1 ensures GoodAt(trial, settled + [name], i, files) {
      LedgerPathsOfPrefix(doc.ledger, trial.ledger, i);
      if i < |settled| {
        assert GoodAt(doc, settled, i, files);
        assert settled[i] in settled && trial.ledger[i] == trial.ledger[..|doc.ledger|][i];
        OldCheckpointStaysGood(doc, trial, settled, name, i, files);
      }
    }
  }

  lemma NewStageSettledLast(doc: Doc, name: Stage, entries: seq<Entry>)
    requires StagesShaped(doc) && StageInTurn(doc, name, Passed, Some(entries))
    ensures SettledInOrder(Staged(doc, name, Passed, Some(entries)), |doc.order|)
         == SettledInOrder(doc, |doc.order|) + [name]
  {
    var trial := Staged(doc, name, Passed, Some(entries));
    var n := |doc.stages|;
    forall i | 0 <= i < |doc.order|
      ensures i < n ==> (Settled(doc, doc.order[i]) <==> Settled(trial, doc.order[i]))
      ensures n < i ==> !Settled(trial, doc.order[i])
      ensures n <= i ==> !Settled(doc, doc.order[i])
    {
      assert doc.order[i] in doc.stages <==> i < n;
    }
    SettledSplit(doc, trial, n);
  }

  lemma SettledSplit(doc: Doc, trial: Doc, n: nat)
    requires n < |doc.order| && doc.order == trial.order && Settled(trial, doc.order[n])
    requires forall i :: 0 <= i < n ==> (Settled(doc, doc.order[i]) <==> Settled(trial, doc.order[i]))
    requires forall i :: n < i < |doc.order| ==> !Settled(trial, doc.order[i])
    requires forall i :: n <= i < |doc.order| ==> !Settled(doc, doc.order[i])
    ensures SettledInOrder(trial, |doc.order|) == SettledInOrder(doc, |doc.order|) + [doc.order[n]]
  {
    SettledBefore(doc, trial, n);
    SettledUpTo(doc, n, |doc.order|);
    SettledUpTo(trial, n + 1, |doc.order|);
  }

  lemma OldCheckpointStaysGood(doc: Doc, trial: Doc, settled: seq<Stage>, name: Stage, i: nat, files: Option<Files>)
    requires i < |settled| && |settled| == |doc.ledger| < |trial.ledger| && GoodAt(doc, settled, i, files)
    requires trial.ledger[i] == doc.ledger[i] && LedgerPaths(trial.ledger, i) == LedgerPaths(doc.ledger, i)
    requires settled[i] in trial.stages && trial.stages[settled[i]] == doc.stages[settled[i]]
    ensures GoodAt(trial, settled + [name], i, files)
  {
  }

  lemma NewCheckpointIsGood(doc: Doc, files: Option<Files>, name: Stage, entries: seq<Entry>)
    requires EntriesGood(entries, |entries|, LedgerPaths(doc.ledger, |doc.ledger|), files)
    requires MeetsContract(name, KindsOf(entries, |entries|))
    ensures var trial := Staged(doc, name, Passed, Some(entries));
            CheckpointGood(trial, Checkpoint(name, |doc.stages|, entries), name,
                           LedgerPaths(doc.ledger, |doc.ledger|), files)
  {
    NotAuditCheckpoint(name, KindsOf(entries, |entries|));
    hide IsAuditCheckpoint, MeetsContract;
  }

  lemma NotAuditCheckpoint(name: Stage, got: map<Path, Kind>)
    requires MeetsContract(name, got)
    ensures !IsAuditCheckpoint(name, got)
  {
    if name == Executor {
      NotAuditContract(got);
    }
  }

  lemma NotAuditContract(got: map<Path, Kind>)
    requires MeetsContract(Executor, got)
    ensures got != AUDIT_CONTRACT
  {
    assert Path("receipt.json") in got;
    assert Path("receipt.json").text[0] == 'r';
    assert AUDIT.text[0] == 'a' && AUDIT_REPORT.text[0] == 'a' && AUDIT_EVALUATION.text[0] == 'a';
  }

  lemma {:induction false} SettledBefore(doc: Doc, trial: Doc, n: nat)
    requires doc.order == trial.order && n <= |doc.order|
    requires forall i :: 0 <= i < n ==> (Settled(doc, doc.order[i]) <==> Settled(trial, doc.order[i]))
    ensures SettledInOrder(doc, n) == SettledInOrder(trial, n)
  {
    if n > 0 {
      SettledBefore(doc, trial, n - 1);
    }
  }

  lemma {:induction false} SettledUpTo(doc: Doc, n: nat, m: nat)
    requires n <= m <= |doc.order| && forall i :: n <= i < m ==> !Settled(doc, doc.order[i])
    ensures SettledInOrder(doc, m) == SettledInOrder(doc, n)
  {
    if n < m {
      SettledUpTo(doc, n, m - 1);
    }
  }

  lemma {:induction false} LedgerPathsOfPrefix(a: seq<Checkpoint>, b: seq<Checkpoint>, n: nat)
    requires n <= |a| <= |b| && b[..|a|] == a
    ensures LedgerPaths(a, n) == LedgerPaths(b, n)
  {
    if n > 0 {
      LedgerPathsOfPrefix(a, b, n - 1);
      assert b[n - 1] == b[..|a|][n - 1];
    }
  }

  // ---------------------------------------------------------------- the manifest file

  method Validate(doc: Doc) returns (ok: bool)
    ensures ok <==> Valid(doc)
  {
    if !StagesShaped(doc) || !SkipsShaped(doc) {
      return false;
    }
    ok := ValidArtifactLedger(doc, None);
    if ok {
      ok := EL.ValidEffectLedger(doc.effects, doc.ci, SettledPairs(doc));
    }
    ok := ok && (doc.result == RecoveredResult ==> RecoveredShape(doc));
  }

  /** The checks of `stage_v2`.  The passed branch validates a trial copy against the files before
      either half of the stage-and-checkpoint pair is written. */
  method CheckStage(doc: Doc, files: Files, name: Stage, status: Status, entries: Option<seq<Entry>>) returns (ok: bool)
    ensures ok <==> MayStage(doc, files, name, status, entries)
  {
    ok := Validate(doc);
    if !ok || !StageInTurn(doc, name, status, entries) {
      return false;
    }
    var trial := Staged(doc, name, status, entries);
    if status == Passed {
      ok := ValidArtifactLedger(trial, Some(files));
    }
    if ok {
      ok := Validate(trial);
    }
  }

  class ManifestFile {
    var doc: Doc

    constructor (initial: Doc)
      ensures doc == initial
    {
      doc := initial;
    }

    method StageV2(files: Files, name: Stage, status: Status, entries: Option<seq<Entry>>) returns (ok: bool)
      modifies this
      ensures ok <==> MayStage(old(doc), files, name, status, entries)
      ensures doc == Apply(old(doc), Command.StageV2(files, name, status, entries))
    {
      ok := CheckStage(doc, files, name, status, entries);
      if ok {
        doc := Staged(doc, name, status, entries);
      }
    }

    method Effect(files: Files, event: EL.Event) returns (ok: bool)
      modifies this
      ensures ok <==> MayAddEffect(old(doc), files, event)
      ensures doc == Apply(old(doc), Command.Effect(files, event))
    {
      ok := Validate(doc);
      if ok && doc.result == Pending {
        var trial := WithEffect(doc, event);
        ok := Validate(trial);
        ok := ok && EffectFilesBound(trial, files);
        if ok {
          doc := trial;
        }
      } else {
        ok := false;
      }
    }

    method AuthorizeResume(files: Files, identity: Identity) returns (ok: bool, next: Option<Stage>)
      ensures ok <==> MayResume(doc, files, identity)
      ensures ok ==> next == NextStage(doc)
    {
      next := None;
      ok := Validate(doc);
      if !ok || doc.result != Pending || doc.skips != [] || identity != doc.identity {
        return false, None;
      }
      ok := ValidArtifactLedger(doc, Some(files));
      var hanging := EL.UnresolvedEffect(doc.effects);
      ok := ok && EffectFilesBound(doc, files) && !hanging && !EffectWithoutStage(doc);
      if ok {
        next := NextStage(doc);
      }
    }

    method Finalize(files: Files) returns (ok: bool)
      modifies this
      ensures ok <==> MayFinalize(old(doc), files)
      ensures doc == Apply(old(doc), Command.Finalize(files))
    {
      ok := Validate(doc);
      if ok {
        ok := ValidArtifactLedger(doc, Some(files));
      }
      var hanging := EL.UnresolvedEffect(doc.effects);
      ok := ok && EffectFilesBound(doc, files) && !hanging && !doc.ci
            && doc.result == Pending && doc.skips == [] && AllPassed(doc);
      if ok {
        doc := doc.(result := PassedResult);
      }
    }
  }
}
