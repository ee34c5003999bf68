/**
  Backup and restore orchestration (agent/internal/application/service.go) as a transition
  system: the durable journal, the one operation the in-process lock admits, restore callers
  waiting before that lock, a reconciliation in progress, and crashes between any two steps.

  Engine results, journal failures and cancellation are free choices of each step.
*/
module Orchestration {
  import opened Options
  import opened LocalJournal

  type CallerId = string

  // ---- verdicts ----

  /** `evaluateBackup`: only a fully evidenced success stays one. */
  function EvaluateBackup(vssRequired: bool, res: BackupResult): BackupResult {
    if res.outcome == Cancelled then res
    else if !res.exitKnown then
      res.(outcome := Failed, errorClass := ErrorInternal, publishedNotGreen := res.snapshot != "")
    else if res.outcome == Succeeded then
      if res.snapshot == "" || !res.readbackOk then res.(outcome := Failed, errorClass := ErrorIntegrity, publishedNotGreen := true)
      else if vssRequired && !res.consistencyVerified then res.(outcome := Partial, errorClass := ErrorConsistencyNotMet, publishedNotGreen := true)
      else if !res.summarySeen then res.(outcome := Failed, errorClass := ErrorIntegrity)
      else res
    else res
  }

  /** Cancellation wins over whatever the engine reported. */
  function FinalBackup(vssRequired: bool, engine: BackupResult, cancelled: bool): BackupResult {
    var res := EvaluateBackup(vssRequired, engine);
    if !cancelled then res
    else if res.snapshot != "" then res.(outcome := Partial, errorClass := ErrorCancelled, publishedNotGreen := true)
    else res.(outcome := Cancelled, errorClass := ErrorCancelled)
  }

  function JobStateOf(outcome: Outcome): JobState {
    match outcome
    case Succeeded => JobSucceeded
    case Partial => JobPartial
    case Cancelled => JobCancelled
    case Failed => JobFailed
  }

  /** A success whose terminal commit failed is committed again as partial, if that works. */
  function Demoted(res: BackupResult): BackupResult {
    res.(outcome := Partial, publishedNotGreen := true, cleanupOk := false, errorClass := ErrorInternal)
  }

  /** `state` is None for an engine that returned an empty state. */
  datatype EngineRestore = EngineRestore(state: Option<RestoreState>, verified: bool, failed: bool)

  function FinalRestore(engine: EngineRestore, cancelled: bool, stageIntact: bool,
      manifestWritten: bool): RestoreResult {
    var reported := if engine.state.Some? then engine.state.value else RestoreFailed;
    if cancelled then RestoreResult(RestoreCancelled, engine.verified, "", ErrorCancelled)
    else if engine.failed || !engine.verified || engine.state != Some(Verifying) then
      if reported == RestoreCancelled then RestoreResult(RestoreCancelled, engine.verified, "", NoError)
      else RestoreResult(RestoreFailed, engine.verified, "", ErrorIntegrity)
    else if !stageIntact then RestoreResult(RestoreFailed, true, "", ErrorPathSafety)
    else if !manifestWritten then RestoreResult(RestoreFailed, true, "", ErrorIntegrity)
    else RestoreResult(Ready, true, "manifest.json", NoError)
  }

  function RestoreOutcome(state: RestoreState): Outcome {
    if state == Ready then Succeeded else if state == RestoreCancelled then Cancelled else Failed
  }

  /** A backup counts as succeeded exactly when every piece of evidence is there and nobody cancelled it. */
  lemma GreenNeedsAllEvidence(vssRequired: bool, engine: BackupResult, cancelled: bool)
    ensures FinalBackup(vssRequired, engine, cancelled).outcome == Succeeded <==>
      && !cancelled && engine.outcome == Succeeded && engine.exitKnown && engine.snapshot != "" && engine.readbackOk
      && engine.summarySeen && (vssRequired ==> engine.consistencyVerified)
  {
  }

  /** What a backup is called otherwise: cancelled only with nothing published, and partial with a snapshot that is not green. */
  lemma BackupOutcomes(vssRequired: bool, engine: BackupResult, cancelled: bool)
    ensures
      var res := FinalBackup(vssRequired, engine, cancelled);
      var shadowless := engine.outcome == Succeeded && engine.snapshot != "" && engine.readbackOk
        && vssRequired && !engine.consistencyVerified;
      && res.snapshot == engine.snapshot && res.summarySeen == engine.summarySeen && res.cleanupOk == engine.cleanupOk
      && (res.outcome == Cancelled <==> if cancelled then engine.snapshot == "" else engine.outcome == Cancelled)
      && (res.outcome == Partial <==>
            if cancelled then engine.snapshot != "" else engine.exitKnown && (engine.outcome == Partial || shadowless))
      && (cancelled ==> res.errorClass == ErrorCancelled)
      && (res.outcome == Partial && (cancelled || engine.outcome == Succeeded) ==> res.publishedNotGreen)
  {
  }

  /** The error class and the mark of a published snapshot, where nobody cancelled. */
  lemma BackupErrors(vssRequired: bool, engine: BackupResult)
    requires engine.outcome != Cancelled
    ensures
      var res := FinalBackup(vssRequired, engine, false);
      && (!engine.exitKnown ==>
            res.outcome == Failed && res.errorClass == ErrorInternal && (res.publishedNotGreen <==> engine.snapshot != ""))
      && (engine.exitKnown && engine.outcome == Succeeded && (engine.snapshot == "" || !engine.readbackOk) ==>
            res.outcome == Failed && res.errorClass == ErrorIntegrity && res.publishedNotGreen)
      && (res.outcome == Partial && engine.outcome == Succeeded ==> res.errorClass == ErrorConsistencyNotMet)
      && (res.outcome == Failed && engine.exitKnown && engine.outcome == Succeeded ==> res.errorClass == ErrorIntegrity)
      && (engine.exitKnown && (engine.outcome != Succeeded || res.outcome == Succeeded) ==> res == engine)
  {
  }

  /** The job's state says the attempt's outcome, for backups and for restores. */
  lemma JobSaysOutcome(outcome: Outcome, state: RestoreState)
    ensures JobStateOf(outcome) == JobSucceeded <==> outcome == Succeeded
    ensures JobStateOf(outcome) == JobPartial <==> outcome == Partial
    ensures JobStateOf(outcome) == JobCancelled <==> outcome == Cancelled
    ensures JobStateOf(outcome) == JobFailed <==> outcome == Failed
    ensures RestoreOutcome(state) == Succeeded <==> state == Ready
    ensures RestoreOutcome(state) == Cancelled <==> state == RestoreCancelled
    ensures RestoreOutcome(state) != Partial
  {
  }

  /** A finished restore is ready, failed or cancelled; ready exactly when verified, intact and recorded. */
  lemma RestoreEndsDecided(engine: EngineRestore, cancelled: bool, stageIntact: bool, manifestWritten: bool)
    ensures
      var state := FinalRestore(engine, cancelled, stageIntact, manifestWritten).state;
      && (state == Ready || state == RestoreFailed || state == RestoreCancelled)
      && (state == Ready <==> !cancelled && !engine.failed && engine.verified && engine.state == Some(Verifying) && stageIntact && manifestWritten)
      && (state == RestoreCancelled <==> cancelled || engine.state == Some(RestoreCancelled))
  {
  }

  /** Only a ready restore has a manifest and no error; what the engine verified is passed on. */
  lemma RestoreErrors(engine: EngineRestore, cancelled: bool, stageIntact: bool, manifestWritten: bool)
    ensures
      var res := FinalRestore(engine, cancelled, stageIntact, manifestWritten);
      var misplaced := engine.state == Some(Verifying) && engine.verified && !engine.failed && !stageIntact;
      && res.verifiedByEngine == engine.verified && (res.manifest != "" <==> res.state == Ready)
      && (res.errorClass == ErrorCancelled <==> cancelled)
      && (res.state == RestoreFailed ==> res.errorClass == if misplaced then ErrorPathSafety else ErrorIntegrity)
      && (res.state == Ready ==> res.errorClass == NoError)
  {
  }

  // ---- what a caller is told about a restore id that already exists ----

  datatype RestoreReply = NoSuchJob | Conflict | StillRunning | Replayed(result: RestoreResult)

  ghost function LatestSummary(j: Journal, job: JobId): Summary {
    if exists id :: IsLatest(j, job, id) then
      var id :| IsLatest(j, job, id);
      j.attempts[id].summary
    else NoSummary
  }

  /** What the job state alone says, when no result was recorded. */
  function BareResult(state: JobState): RestoreResult {
    if state == JobSucceeded then RestoreResult(Ready, false, "", NoError)
    else if state == JobCancelled then RestoreResult(RestoreCancelled, false, "", ErrorCancelled)
    else RestoreResult(RestoreFailed, false, "", ErrorIntegrity)
  }

  ghost function ReplyTo(j: Journal, req: RestoreRequest): RestoreReply {
    if req.job !in j.jobs then NoSuchJob
    else
      var job := j.jobs[req.job];
      if job.requestHash.Some? && job.requestHash.value != IdentityHash(req) then Conflict
      else if InProgress(job.state) then StillRunning
      else
        var summary := LatestSummary(j, req.job);
        if summary.RestoreSummary? then Replayed(summary.restore) else Replayed(BareResult(job.state))
  }

  /** What a caller is told, case by case: first the id, then the request, then whether it still runs, then its result. */
  lemma RepliesExactly(j: Journal, req: RestoreRequest, id: AttemptId)
    requires forall a, b :: IsLatest(j, req.job, a) && IsLatest(j, req.job, b) ==> a == b
    ensures ReplyTo(j, req) == NoSuchJob <==> req.job !in j.jobs
    ensures req.job in j.jobs ==>
      var job := j.jobs[req.job];
      && (ReplyTo(j, req) == Conflict <==> job.requestHash.Some? && job.requestHash.value != IdentityHash(req))
      && (ReplyTo(j, req) == StillRunning <==> ReplyTo(j, req) != Conflict && (job.state == JobActive || job.state == JobReconciling))
    ensures ReplyTo(j, req).Replayed? && IsLatest(j, req.job, id) && j.attempts[id].summary.RestoreSummary? ==>
      ReplyTo(j, req).result == j.attempts[id].summary.restore
    ensures ReplyTo(j, req).Replayed? && (forall a :: IsLatest(j, req.job, a) ==> !j.attempts[a].summary.RestoreSummary?) ==>
      var state, res := j.jobs[req.job].state, ReplyTo(j, req).result;
      && (res.state == Ready <==> state == JobSucceeded) && (res.state == RestoreCancelled <==> state == JobCancelled)
      && (res.state == RestoreFailed <==> state != JobSucceeded && state != JobCancelled)
      && !res.verifiedByEngine && res.manifest == ""
      && res.errorClass == if state == JobSucceeded then NoError else if state == JobCancelled then ErrorCancelled else ErrorIntegrity
  {
  }

  // ---- the system ----

  datatype Operation =
    | NoOperation
    | BackupLocked(slot: string, kind: JobKind, job: Option<JobId>)
    | BackupBegun(id: AttemptId)
    | BackupRunning(id: AttemptId)
    | BackupCommitting(id: AttemptId, result: BackupResult, summary: Summary, retried: bool)
    | RestoreLocked(req: RestoreRequest)
    | RestorePrepared(req: RestoreRequest)
    | RestoreBegun(req: RestoreRequest, id: AttemptId)
    | RestoreRunning(req: RestoreRequest, id: AttemptId)
    | RestoreCommitting(req: RestoreRequest, id: AttemptId, restored: RestoreResult)

  datatype Listed = Listed(id: AttemptId, attempt: Attempt)

  /** `engineRuns` counts the calls of the engine's Restore per job; nothing in the code keeps it. */
  datatype System = System(
    journal: Journal,
    op: Operation,
    waiting: map<CallerId, RestoreRequest>,
    reconciling: seq<Listed>,
    engineRuns: map<JobId, nat>)

  datatype Event =
    | BackupLock(slot: string, kind: JobKind, job: Option<JobId>)
    | BackupBegin(newJob: JobId, id: AttemptId, number: int)
    | BackupStop(errorClass: ErrorClass)
    | BackupLaunch
    | BackupReturn(vssRequired: bool, engine: BackupResult, cancelled: bool)
    | BackupCommit
    | BackupCommitError
    | RestoreCall(caller: CallerId, req: RestoreRequest)
    | RestoreLock(caller: CallerId)
    | RestoreTurnedAway(caller: CallerId)
    | RestoreRecheck
    | RestoreBegin(id: AttemptId)
    | RestoreStop
    | RestoreLaunch
    | RestoreReturn(answer: EngineRestore, cancelled: bool, stageIntact: bool, manifestWritten: bool)
    | RestoreCommit
    | RestoreCommitError
    | GiveUp
    | ReconcileList(list: seq<Listed>)
    | ReconcileMark
    | ReconcileResolve(evidence: Evidence)
    | ReconcileAbandon
    | Crash

  function Runs(s: System, job: JobId): nat {
    if job in s.engineRuns then s.engineRuns[job] else 0
  }

  /** The slot's job allows another attempt: it exists, has not succeeded and is not in progress. */
  predicate Reopens(j: Journal, slot: string, kind: JobKind, job: JobId) {
    && job in j.jobs && j.jobs[job].slot == slot
    && kind != QualificationBackup && j.jobs[job].state != JobSucceeded && !InProgress(j.jobs[job].state)
  }

  /** `JobBySlot` found `job`, or found nothing; every other answer of it ends the backup there. */
  predicate SlotAllows(j: Journal, slot: string, kind: JobKind, job: Option<JobId>) {
    && IsBackupWork(kind) && SlotFits(kind, slot)
    && match job
       case Some(id) => slot != "" && Reopens(j, slot, kind, id)
       case None => slot == "" || forall id :: id in j.jobs ==> j.jobs[id].slot != slot
  }

  function NewAttempt(job: JobId, number: int, kind: JobKind, slot: string): Attempt {
    Attempt(job, number, kind, slot, Preparing, "", NoError, NoSummary)
  }

  /** What a reconciliation can still find of an interrupted backup in the repository. */
  datatype Evidence = NoSnapshot | RecordedSnapshot | TaggedSnapshot(snapshot: string)

  /** A listed attempt as the loop of `Reconcile` resolves it: work other than a backup always fails. */
  function ResolvedOutcome(a: Attempt, ev: Evidence): Outcome {
    if IsBackupWork(a.kind) && !ev.NoSnapshot? then Partial else Failed
  }

  function ResolvedSnapshot(a: Attempt, ev: Evidence): string {
    if IsBackupWork(a.kind) && ev.TaggedSnapshot? then ev.snapshot else a.snapshot
  }

  function ResolvedErrorClass(a: Attempt, ev: Evidence): ErrorClass {
    if !IsBackupWork(a.kind) || ev.RecordedSnapshot? then ErrorInternal
    else if ev.TaggedSnapshot? then a.errorClass
    else ErrorEngineCrash
  }

  function Resolve(j: Journal, l: Listed, ev: Evidence): Journal
    requires Committable(j, l.id)
  {
    var outcome := ResolvedOutcome(l.attempt, ev);
    CompleteAttempt(j, l.id, outcome, ResolvedSnapshot(l.attempt, ev), ResolvedErrorClass(l.attempt, ev), l.attempt.summary, JobStateOf(outcome))
  }

  predicate Enabled(s: System, e: Event) {
    match e
    case BackupLock(slot, kind, job) => s.op.NoOperation? && SlotAllows(s.journal, slot, kind, job)
    case BackupBegin(newJob, id, number) =>
      s.op.BackupLocked? &&
      (match s.op.job
       case Some(job) => CanBeginAttempt(s.journal, id, NewAttempt(job, number, s.op.kind, s.op.slot))
       case None => CanBeginJob(s.journal, newJob, Job(s.op.kind, s.op.slot, JobActive, None), id))
    case BackupStop(_) => s.op.BackupBegun?
    case BackupLaunch => s.op.BackupBegun? && s.op.id in s.journal.attempts
    case BackupReturn(_, _, _) => s.op.BackupRunning?
    case BackupCommit => s.op.BackupCommitting? && Committable(s.journal, s.op.id)
    case BackupCommitError => s.op.BackupCommitting?
    case RestoreCall(caller, req) => caller !in s.waiting && req.job !in s.journal.jobs
    case RestoreLock(caller) => caller in s.waiting && s.op.NoOperation?
    case RestoreTurnedAway(caller) => caller in s.waiting && !s.op.NoOperation?
    case RestoreRecheck => s.op.RestoreLocked? && s.op.req.job !in s.journal.jobs
    case RestoreBegin(id) => s.op.RestorePrepared? && CanBeginJob(s.journal, s.op.req.job, RestoreJob(s.op.req), id)
    case RestoreStop => s.op.RestoreBegun?
    case RestoreLaunch => s.op.RestoreBegun?
    case RestoreReturn(_, _, _, _) => s.op.RestoreRunning?
    case RestoreCommit => s.op.RestoreCommitting? && Committable(s.journal, s.op.id)
    case RestoreCommitError => s.op.RestoreCommitting?
    case GiveUp => s.op.BackupLocked? || s.op.BackupBegun? || s.op.RestoreLocked? || s.op.RestorePrepared?
    case ReconcileList(list) => s.reconciling == [] && IsListing(s.journal, list)
    case ReconcileMark =>
      s.reconciling != [] && IsBackupWork(s.reconciling[0].attempt.kind) && s.reconciling[0].id in s.journal.attempts
    case ReconcileResolve(_) => s.reconciling != [] && Committable(s.journal, s.reconciling[0].id)
    case ReconcileAbandon => s.reconciling != []
    case Crash => true
  }

  predicate Committable(j: Journal, id: AttemptId) {
    id in j.attempts && j.attempts[id].job in j.jobs
  }

  function IdsOf(list: seq<Listed>): set<AttemptId> {
    set l | l in list :: l.id
  }

  predicate DistinctIds(list: seq<Listed>) {
    forall i, k :: 0 <= i < k < |list| ==> list[i].id != list[k].id
  }

  /** The rows `IncompleteAttempts` returns, in some order, each once. */
  predicate IsListing(j: Journal, list: seq<Listed>) {
    && IdsOf(list) == IncompleteAttempts(j) && DistinctIds(list)
    && (forall l :: l in list ==> l.id in j.attempts && l.attempt == j.attempts[l.id])
  }

  lemma TailIds(list: seq<Listed>)
    requires list != [] && DistinctIds(list)
    ensures DistinctIds(list[1..]) && IdsOf(list[1..]) == IdsOf(list) - {list[0].id}
  {
    assert list == [list[0]] + list[1..];
    assert forall l :: l in list <==> l == list[0] || l in list[1..];
    forall l | l in list[1..] ensures l.id != list[0].id {
      var i :| 0 <= i < |list[1..]| && list[1..][i] == l;
      assert list[i + 1] == l;
    }
  }

  function RestoreJob(req: RestoreRequest): Job {
    Job(Restore, "", JobActive, Some(IdentityHash(req)))
  }

  function CommitBackup(j: Journal, id: AttemptId, res: BackupResult, summary: Summary): Journal
    requires Committable(j, id)
  {
    CompleteAttempt(j, id, res.outcome, res.snapshot, res.errorClass, summary, JobStateOf(res.outcome))
  }

  function CommitRestore(j: Journal, id: AttemptId, res: RestoreResult): Journal
    requires Committable(j, id)
  {
    CompleteAttempt(j, id, RestoreOutcome(res.state), "", res.errorClass, RestoreSummary(res), JobStateOf(RestoreOutcome(res.state)))
  }

  function FailedBackup(errorClass: ErrorClass): BackupResult {
    BackupResult(Failed, false, "", false, false, false, false, false, errorClass)
  }

  function Apply(s: System, e: Event): System
    requires Enabled(s, e)
  {
    match e
    case BackupLock(slot, kind, job) => s.(op := BackupLocked(slot, kind, job))
    case BackupBegin(newJob, id, number) =>
      var jobId := if s.op.job.Some? then s.op.job.value else newJob;
      var attempt := NewAttempt(jobId, number, s.op.kind, s.op.slot);
      s.(journal :=
           if s.op.job.Some? then BeginAttempt(s.journal, id, attempt)
           else BeginJob(s.journal, newJob, Job(s.op.kind, s.op.slot, JobActive, None), id, attempt),
         op := BackupBegun(id))
    case BackupStop(errorClass) =>
      var res := FailedBackup(errorClass);
      s.(op := BackupCommitting(s.op.id, res, BackupSummary(res), false))
    case BackupLaunch =>
      s.(journal := UpdateAttempt(s.journal, s.op.id, BackingUp, "", NoError, NoSummary), op := BackupRunning(s.op.id))
    case BackupReturn(vssRequired, engine, cancelled) =>
      var res := FinalBackup(vssRequired, engine, cancelled);
      s.(op := BackupCommitting(s.op.id, res, BackupSummary(res), false))
    case BackupCommit => s.(journal := CommitBackup(s.journal, s.op.id, s.op.result, s.op.summary), op := NoOperation)
    case BackupCommitError =>
      // the recorded summary stays the one that was written before the demotion
      if s.op.result.outcome == Succeeded && !s.op.retried
      then s.(op := BackupCommitting(s.op.id, Demoted(s.op.result), s.op.summary, true))
      else s.(op := NoOperation)
    case RestoreCall(caller, req) => s.(waiting := s.waiting[caller := req])
    case RestoreLock(caller) => s.(op := RestoreLocked(s.waiting[caller]), waiting := s.waiting - {caller})
    case RestoreTurnedAway(caller) => s.(waiting := s.waiting - {caller})
    case RestoreRecheck => s.(op := RestorePrepared(s.op.req))
    case RestoreBegin(id) =>
      s.(journal := BeginJob(s.journal, s.op.req.job, RestoreJob(s.op.req), id, NewAttempt(s.op.req.job, 1, Restore, "")),
         op := RestoreBegun(s.op.req, id))
    case RestoreStop => s.(op := RestoreCommitting(s.op.req, s.op.id, RestoreResult(RestoreFailed, false, "", ErrorPathSafety)))
    case RestoreLaunch =>
      s.(op := RestoreRunning(s.op.req, s.op.id), engineRuns := s.engineRuns[s.op.req.job := Runs(s, s.op.req.job) + 1])
    case RestoreReturn(answer, cancelled, stageIntact, manifestWritten) =>
      s.(op := RestoreCommitting(s.op.req, s.op.id, FinalRestore(answer, cancelled, stageIntact, manifestWritten)))
    case RestoreCommit => s.(journal := CommitRestore(s.journal, s.op.id, s.op.restored), op := NoOperation)
    case RestoreCommitError => s.(op := NoOperation)
    case GiveUp => s.(op := NoOperation)
    case ReconcileList(list) => s.(reconciling := list)
    case ReconcileMark =>
      var l := s.reconciling[0];
      s.(journal := UpdateAttempt(s.journal, l.id, Reconciling, l.attempt.snapshot, l.attempt.errorClass, l.attempt.summary))
    case ReconcileResolve(evidence) =>
      s.(journal := Resolve(s.journal, s.reconciling[0], evidence), reconciling := s.reconciling[1..])
    case ReconcileAbandon => s.(reconciling := [])
    case Crash => s.(op := NoOperation, waiting := map[], reconciling := [])
  }

  /** A ledger left by earlier runs; nothing in flight, no engine call counted yet. */
  ghost predicate Init(s: System) {
    JournalOk(s.journal) && s.op.NoOperation? && s.waiting == map[] && s.reconciling == [] && s.engineRuns == map[]
  }

  ghost predicate ValidRun(s: System, run: seq<Event>)
    decreases |run|
  {
    run == [] || (Enabled(s, run[0]) && ValidRun(Apply(s, run[0]), run[1..]))
  }

  ghost function Run(s: System, run: seq<Event>): System
    requires ValidRun(s, run)
    decreases |run|
  {
    if run == [] then s else Run(Apply(s, run[0]), run[1..])
  }

  // ---- what holds whatever overlaps ----

  /** The attempt an operation works on, once it has one. */
  function InFlight(op: Operation): Option<AttemptId> {
    match op
    case BackupBegun(id) => Some(id)
    case BackupRunning(id) => Some(id)
    case BackupCommitting(id, _, _, _) => Some(id)
    case RestoreBegun(_, id) => Some(id)
    case RestoreRunning(_, id) => Some(id)
    case RestoreCommitting(_, id, _) => Some(id)
    case _ => None
  }

  predicate RestoreInFlight(op: Operation) {
    op.RestoreBegun? || op.RestoreRunning? || op.RestoreCommitting?
  }

  predicate OpenAttempt(j: Journal, id: AttemptId) {
    Committable(j, id) && Incomplete(j.attempts[id])
  }

  /** A restore in flight works on its own row, recorded with its request. */
  predicate RestoreRow(j: Journal, req: RestoreRequest, id: AttemptId) {
    && Committable(j, id) && j.attempts[id].job == req.job && j.attempts[id].kind == Restore
    && j.jobs[req.job].requestHash == Some(IdentityHash(req))
  }

  predicate BackupRow(j: Journal, id: AttemptId) {
    Committable(j, id) && j.attempts[id].kind != Restore
  }

  predicate OpLinked(s: System) {
    match s.op
    case BackupLocked(slot, kind, job) =>
      && IsBackupWork(kind) && SlotFits(kind, slot)
      && (match job
          case Some(id) => slot != "" && kind == Backup && id in s.journal.jobs && s.journal.jobs[id].slot == slot
          case None => slot == "" || forall id :: id in s.journal.jobs ==> s.journal.jobs[id].slot != slot)
    case BackupBegun(id) => BackupRow(s.journal, id)
    case BackupRunning(id) => BackupRow(s.journal, id)
    case BackupCommitting(id, result, summary, retried) => BackupRow(s.journal, id) && SummaryTracks(result, summary, retried)
    case RestoreBegun(req, id) => RestoreRow(s.journal, req, id) && Runs(s, req.job) == 0
    case RestoreRunning(req, id) => RestoreRow(s.journal, req, id)
    case RestoreCommitting(req, id, result) =>
      RestoreRow(s.journal, req, id) && (result.state == Ready || result.state == RestoreFailed || result.state == RestoreCancelled)
    case _ => true
  }

  /** The recorded summary is the result, or the success it was before a failed commit demoted it. */
  predicate SummaryTracks(result: BackupResult, summary: Summary, retried: bool) {
    && summary.BackupSummary?
    && (if retried then summary.backup.outcome == Succeeded && result == Demoted(summary.backup) else summary.backup == result)
  }

  predicate ListedRow(j: Journal, l: Listed) {
    Committable(j, l.id) && j.attempts[l.id].job == l.attempt.job && j.attempts[l.id].kind == l.attempt.kind
  }

  predicate ListLinked(s: System) {
    DistinctIds(s.reconciling) && forall l :: l in s.reconciling ==> ListedRow(s.journal, l)
  }

  ghost predicate RunsOk(s: System) {
    forall job :: Runs(s, job) <= 1 && (job !in s.journal.jobs ==> Runs(s, job) == 0)
  }

  ghost predicate Base(s: System) {
    LedgerOk(s.journal) && OpLinked(s) && ListLinked(s) && RunsOk(s)
  }

  lemma StepKeepsLedger(s: System, e: Event)
    requires Base(s) && Enabled(s, e)
    ensures LedgerOk(Apply(s, e).journal)
  {
    match e
    case BackupBegin(newJob, id, number) =>
      if s.op.job.Some? {
        assert SlotFits(s.journal.jobs[s.op.job.value].kind, s.op.slot);
        BeginAttemptKeepsLedger(s.journal, id, NewAttempt(s.op.job.value, number, s.op.kind, s.op.slot));
      } else {
        var job := Job(s.op.kind, s.op.slot, JobActive, None);
        BeginJobKeepsLedger(s.journal, newJob, job, id, NewAttempt(newJob, number, s.op.kind, s.op.slot));
      }
    case BackupLaunch => UpdateKeepsLedger(s.journal, s.op.id, BackingUp, "", NoError, NoSummary);
    case BackupCommit =>
      var res := s.op.result;
      CompleteKeepsLedger(s.journal, s.op.id, res.outcome, res.snapshot, res.errorClass, s.op.summary, JobStateOf(res.outcome));
    case RestoreBegin(id) =>
      BeginJobKeepsLedger(s.journal, s.op.req.job, RestoreJob(s.op.req), id, NewAttempt(s.op.req.job, 1, Restore, ""));
    case RestoreCommit =>
      var res := s.op.restored;
      CompleteKeepsLedger(s.journal, s.op.id, RestoreOutcome(res.state), "", res.errorClass, RestoreSummary(res),
        JobStateOf(RestoreOutcome(res.state)));
    case ReconcileMark =>
      var l := s.reconciling[0];
      UpdateKeepsLedger(s.journal, l.id, Reconciling, l.attempt.snapshot, l.attempt.errorClass, l.attempt.summary);
    case ReconcileResolve(ev) =>
      var l := s.reconciling[0];
      var outcome := ResolvedOutcome(l.attempt, ev);
      CompleteKeepsLedger(s.journal, l.id, outcome, ResolvedSnapshot(l.attempt, ev), ResolvedErrorClass(l.attempt, ev),
        l.attempt.summary, JobStateOf(outcome));
    case _ =>
  }

  predicate BackupEvent(e: Event) {
    e.BackupLock? || e.BackupBegin? || e.BackupStop? || e.BackupLaunch? || e.BackupReturn? || e.BackupCommit? || e.BackupCommitError?
  }

  predicate ReconcileEvent(e: Event) {
    e.ReconcileList? || e.ReconcileMark? || e.ReconcileResolve? || e.ReconcileAbandon?
  }

  lemma BackupKeepsOp(s: System, e: Event)
    requires OpLinked(s) && Enabled(s, e) && BackupEvent(e)
    ensures OpLinked(Apply(s, e))
  {
  }

  lemma RestoreKeepsOp(s: System, e: Event)
    requires OpLinked(s) && RunsOk(s) && Enabled(s, e) && !BackupEvent(e) && !ReconcileEvent(e)
    ensures OpLinked(Apply(s, e))
  {
    if e.RestoreReturn? {
      RestoreEndsDecided(e.answer, e.cancelled, e.stageIntact, e.manifestWritten);
    }
  }

  lemma ReconcileKeepsOp(s: System, e: Event)
    requires OpLinked(s) && Enabled(s, e) && ReconcileEvent(e)
    ensures OpLinked(Apply(s, e))
  {
  }

  lemma StepKeepsOp(s: System, e: Event)
    requires Base(s) && Enabled(s, e)
    ensures OpLinked(Apply(s, e))
  {
    if BackupEvent(e) { BackupKeepsOp(s, e); } else if ReconcileEvent(e) { ReconcileKeepsOp(s, e); } else { RestoreKeepsOp(s, e); }
  }

  /** Rows are added, and rewritten but for what identifies them. */
  predicate RowsRemain(j: Journal, j': Journal) {
    && j.jobs.Keys <= j'.jobs.Keys
    && (forall id :: id in j.attempts ==>
          id in j'.attempts && j'.attempts[id].job == j.attempts[id].job && j'.attempts[id].kind == j.attempts[id].kind)
  }

  /** The steps that write to the ledger. */
  predicate Writes(e: Event) {
    || e.BackupBegin? || e.BackupLaunch? || e.BackupCommit? || e.RestoreBegin? || e.RestoreCommit?
    || e.ReconcileMark? || e.ReconcileResolve?
  }

  lemma OthersWriteNothing(s: System, e: Event)
    requires Enabled(s, e) && !Writes(e)
    ensures Apply(s, e).journal == s.journal
  {
  }

  lemma WriteKeepsRows(s: System, e: Event)
    requires Enabled(s, e) && Writes(e)
    ensures RowsRemain(s.journal, Apply(s, e).journal)
  {
  }

  lemma StepKeepsRows(s: System, e: Event)
    requires Enabled(s, e)
    ensures RowsRemain(s.journal, Apply(s, e).journal)
  {
    if Writes(e) { WriteKeepsRows(s, e); } else { OthersWriteNothing(s, e); }
  }

  lemma StepKeepsList(s: System, e: Event)
    requires Base(s) && Enabled(s, e)
    ensures ListLinked(Apply(s, e))
  {
    if e.ReconcileList? {
      forall l | l in e.list ensures ListedRow(s.journal, l) {
        assert Linked(s.journal, s.journal.attempts[l.id]);
      }
    } else {
      StepKeepsRows(s, e);
      ListOnlyShrinks(s, e);
      if s.reconciling != [] { TailIds(s.reconciling); }
      forall l | l in Apply(s, e).reconciling ensures ListedRow(Apply(s, e).journal, l) {
        assert ListedRow(s.journal, l);
      }
    }
  }

  lemma ListOnlyShrinks(s: System, e: Event)
    requires Enabled(s, e) && !e.ReconcileList?
    ensures
      var list := Apply(s, e).reconciling;
      list == s.reconciling || list == [] || (s.reconciling != [] && list == s.reconciling[1..])
  {
  }

  lemma StepKeepsRuns(s: System, e: Event)
    requires Base(s) && Enabled(s, e)
    ensures RunsOk(Apply(s, e))
  {
    var s' := Apply(s, e);
    forall job ensures Runs(s', job) <= 1 && (job !in s'.journal.jobs ==> Runs(s', job) == 0) {
      assert Runs(s, job) <= 1 && (job !in s.journal.jobs ==> Runs(s, job) == 0);
    }
  }

  lemma StepKeepsBase(s: System, e: Event)
    requires Base(s) && Enabled(s, e)
    ensures Base(Apply(s, e))
  {
    StepKeepsLedger(s, e);
    StepKeepsOp(s, e);
    StepKeepsList(s, e);
    StepKeepsRuns(s, e);
  }

  // ---- what holds of one kind of work while its operations are left alone ----

  /** The operation in flight is of this kind. */
  predicate WorksOn(s: System, kind: JobKind) {
    InFlight(s.op).Some? && InFlight(s.op).value in s.journal.attempts && s.journal.attempts[InFlight(s.op).value].kind == kind
  }

  /** The operation in flight, if it is of this kind, works on an open attempt, or may still open one. */
  predicate OpOpen(s: System, kind: JobKind) {
    && (WorksOn(s, kind) ==> OpenAttempt(s.journal, InFlight(s.op).value))
    && (s.op.BackupLocked? && s.op.job.Some? && s.op.kind == kind ==> Reopens(s.journal, s.op.slot, s.op.kind, s.op.job.value))
  }

  /** What is listed of this kind is open, and nobody's work. */
  predicate ListOpen(s: System, kind: JobKind) {
    forall l :: l in s.reconciling && l.attempt.kind == kind ==> OpenAttempt(s.journal, l.id) && InFlight(s.op) != Some(l.id)
  }

  ghost predicate KindOk(s: System, kind: JobKind) {
    StatesOk(s.journal, kind) && OpOpen(s, kind) && ListOpen(s, kind)
  }

  /** A reconciliation does not list the attempt an operation of this kind is working on. */
  predicate NamesOther(s: System, e: Event, kind: JobKind) {
    e.ReconcileList? && WorksOn(s, kind) ==> InFlight(s.op).value !in IdsOf(e.list)
  }

  /** `Reconcile` takes no lock, so that it can list an attempt some operation is working on; here it does not. */
  predicate Spares(s: System, e: Event) {
    e.ReconcileList? && InFlight(s.op).Some? ==> InFlight(s.op).value !in IdsOf(e.list)
  }

  ghost predicate SparingRun(s: System, run: seq<Event>)
    requires ValidRun(s, run)
    decreases |run|
  {
    run == [] || (Spares(s, run[0]) && SparingRun(Apply(s, run[0]), run[1..]))
  }

  lemma FirstListed(s: System, kind: JobKind)
    requires Base(s) && KindOk(s, kind) && s.reconciling != []
    ensures
      var l := s.reconciling[0];
      ListedRow(s.journal, l) && (l.attempt.kind == kind ==> OpenAttempt(s.journal, l.id) && InFlight(s.op) != Some(l.id))
  {
    assert s.reconciling[0] in s.reconciling;
  }

  lemma BackupKeepsStates(s: System, e: Event, kind: JobKind)
    requires Base(s) && KindOk(s, kind) && Enabled(s, e) && BackupEvent(e)
    ensures StatesOk(Apply(s, e).journal, kind)
  {
    match e
    case BackupBegin(newJob, id, number) =>
      if s.op.job.Some? {
        assert SlotFits(s.journal.jobs[s.op.job.value].kind, s.op.slot);
        BeginAttemptKeepsStates(s.journal, id, NewAttempt(s.op.job.value, number, s.op.kind, s.op.slot), kind);
      } else {
        var job := Job(s.op.kind, s.op.slot, JobActive, None);
        BeginJobKeepsStates(s.journal, newJob, job, id, NewAttempt(newJob, number, s.op.kind, s.op.slot), kind);
      }
    case BackupLaunch => UpdateKeepsStates(s.journal, s.op.id, BackingUp, "", NoError, NoSummary, kind);
    case BackupCommit =>
      var res := s.op.result;
      CompleteKeepsStates(s.journal, s.op.id, res.outcome, res.snapshot, res.errorClass, s.op.summary, JobStateOf(res.outcome), kind);
    case _ =>
  }

  lemma OthersKeepStates(s: System, e: Event, kind: JobKind)
    requires Base(s) && KindOk(s, kind) && Enabled(s, e) && !BackupEvent(e)
    ensures StatesOk(Apply(s, e).journal, kind)
  {
    match e
    case RestoreBegin(id) =>
      BeginJobKeepsStates(s.journal, s.op.req.job, RestoreJob(s.op.req), id, NewAttempt(s.op.req.job, 1, Restore, ""), kind);
    case RestoreCommit =>
      var res := s.op.restored;
      CompleteKeepsStates(s.journal, s.op.id, RestoreOutcome(res.state), "", res.errorClass, RestoreSummary(res),
        JobStateOf(RestoreOutcome(res.state)), kind);
    case ReconcileMark =>
      FirstListed(s, kind);
      var l := s.reconciling[0];
      UpdateKeepsStates(s.journal, l.id, Reconciling, l.attempt.snapshot, l.attempt.errorClass, l.attempt.summary, kind);
    case ReconcileResolve(ev) =>
      FirstListed(s, kind);
      var l := s.reconciling[0];
      var outcome := ResolvedOutcome(l.attempt, ev);
      CompleteKeepsStates(s.journal, l.id, outcome, ResolvedSnapshot(l.attempt, ev), ResolvedErrorClass(l.attempt, ev),
        l.attempt.summary, JobStateOf(outcome), kind);
    case _ =>
  }

  /** An open attempt and a job that may be reopened are not of one job, and two open attempts neither. */
  lemma OpenOfOtherJob(j: Journal, id: AttemptId, kind: JobKind)
    requires StatesOk(j, kind) && id in j.attempts && j.attempts[id].kind == kind && Incomplete(j.attempts[id])
    ensures j.attempts[id].job in j.jobs && j.jobs[j.attempts[id].job].state == JobActive
    ensures forall other :: other in j.attempts && other != id && j.attempts[other].job == j.attempts[id].job ==>
              !Incomplete(j.attempts[other])
  {
    assert StateOk(j, j.attempts[id]);
    forall other | other in j.attempts && other != id && j.attempts[other].job == j.attempts[id].job
      ensures !Incomplete(j.attempts[other])
    {
      assert PairStates(j.attempts[id], j.attempts[other]);
    }
  }

  lemma ResolveSparesWork(s: System, e: Event, kind: JobKind)
    requires Base(s) && KindOk(s, kind) && Enabled(s, e) && e.ReconcileResolve? && WorksOn(s, kind)
    ensures OpenAttempt(Apply(s, e).journal, InFlight(s.op).value)
  {
    FirstListed(s, kind);
  }

  lemma ResolveSparesSlot(s: System, e: Event, kind: JobKind)
    requires Base(s) && KindOk(s, kind) && Enabled(s, e) && e.ReconcileResolve?
    requires s.op.BackupLocked? && s.op.job.Some? && s.op.kind == kind
    ensures Reopens(Apply(s, e).journal, s.op.slot, s.op.kind, s.op.job.value)
  {
  }

  lemma ResolveKeepsOpOpen(s: System, e: Event, kind: JobKind)
    requires Base(s) && KindOk(s, kind) && Enabled(s, e) && e.ReconcileResolve?
    ensures OpOpen(Apply(s, e), kind)
  {
    StepKeepsRows(s, e);
    if InFlight(s.op).Some? {
      if WorksOn(s, kind) { ResolveSparesWork(s, e, kind); }
    } else if s.op.BackupLocked? && s.op.job.Some? && s.op.kind == kind {
      ResolveSparesSlot(s, e, kind);
    }
  }

  lemma StepKeepsOpOpen(s: System, e: Event, kind: JobKind)
    requires Base(s) && KindOk(s, kind) && Enabled(s, e)
    ensures OpOpen(Apply(s, e), kind)
  {
    if e.ReconcileResolve? {
      ResolveKeepsOpOpen(s, e, kind);
    } else if e.ReconcileMark? {
      MarkKeepsOpOpen(s, kind);
    } else if BackupEvent(e) {
      BackupKeepsOpOpen(s, e, kind);
    } else {
      RestoreKeepsOpOpen(s, e, kind);
    }
  }

  lemma MarkKeepsOpOpen(s: System, kind: JobKind)
    requires Base(s) && KindOk(s, kind) && Enabled(s, ReconcileMark)
    ensures OpOpen(Apply(s, ReconcileMark), kind)
  {
    FirstListed(s, kind);
  }

  lemma RestoreKeepsOpOpen(s: System, e: Event, kind: JobKind)
    requires OpOpen(s, kind) && Enabled(s, e) && !BackupEvent(e) && !e.ReconcileMark? && !e.ReconcileResolve?
    ensures OpOpen(Apply(s, e), kind)
  {
  }

  lemma BackupKeepsOpOpen(s: System, e: Event, kind: JobKind)
    requires Base(s) && KindOk(s, kind) && Enabled(s, e) && BackupEvent(e)
    ensures OpOpen(Apply(s, e), kind)
  {
    if e.BackupBegin? {
      BackupBeginsOpen(s, e, kind);
    } else if e.BackupLaunch? || e.BackupCommit? {
      BackupWritesOpen(s, e, kind);
    } else {
      BackupStaysOpen(s, e, kind);
    }
  }

  lemma BackupStaysOpen(s: System, e: Event, kind: JobKind)
    requires OpOpen(s, kind) && Enabled(s, e) && BackupEvent(e) && !Writes(e)
    ensures OpOpen(Apply(s, e), kind)
  {
  }

  lemma BackupWritesOpen(s: System, e: Event, kind: JobKind)
    requires Base(s) && KindOk(s, kind) && Enabled(s, e) && (e.BackupLaunch? || e.BackupCommit?)
    ensures OpOpen(Apply(s, e), kind)
  {
  }

  lemma BackupBeginsOpen(s: System, e: Event, kind: JobKind)
    requires Enabled(s, e) && e.BackupBegin?
    ensures OpOpen(Apply(s, e), kind)
  {
  }

  lemma ListedStaysBesideQuiet(s: System, e: Event, l: Listed)
    requires OpenAttempt(s.journal, l.id) && InFlight(s.op) != Some(l.id) && Enabled(s, e) && BackupEvent(e) && !Writes(e)
    ensures OpenAttempt(Apply(s, e).journal, l.id) && InFlight(Apply(s, e).op) != Some(l.id)
  {
  }

  lemma ListedStaysBesideBackup(s: System, e: Event, l: Listed, kind: JobKind)
    requires Base(s) && KindOk(s, kind) && Enabled(s, e) && BackupEvent(e) && l in s.reconciling && l.attempt.kind == kind
    ensures OpenAttempt(Apply(s, e).journal, l.id) && InFlight(Apply(s, e).op) != Some(l.id)
  {
    if !Writes(e) { ListedStaysBesideQuiet(s, e, l); }
  }

  lemma ListedStaysBesideRestore(s: System, e: Event, l: Listed, kind: JobKind)
    requires Base(s) && KindOk(s, kind) && Enabled(s, e) && !BackupEvent(e) && !ReconcileEvent(e)
    requires l in s.reconciling && l.attempt.kind == kind
    ensures OpenAttempt(Apply(s, e).journal, l.id) && InFlight(Apply(s, e).op) != Some(l.id)
  {
    if !Writes(e) { ListedStaysBesideIdle(s, e, l); }
  }

  lemma ListedStaysBesideIdle(s: System, e: Event, l: Listed)
    requires OpenAttempt(s.journal, l.id) && InFlight(s.op) != Some(l.id) && Enabled(s, e)
    requires !BackupEvent(e) && !ReconcileEvent(e) && !Writes(e)
    ensures OpenAttempt(Apply(s, e).journal, l.id) && InFlight(Apply(s, e).op) != Some(l.id)
  {
  }

  /** A listed attempt stays open and nobody's work through every step but its own resolution. */
  lemma ListedStaysOpen(s: System, e: Event, l: Listed, kind: JobKind)
    requires Base(s) && KindOk(s, kind) && Enabled(s, e) && l in s.reconciling && l.attempt.kind == kind
    requires !e.ReconcileList? && !(e.ReconcileResolve? && l.id == s.reconciling[0].id)
    ensures OpenAttempt(Apply(s, e).journal, l.id) && InFlight(Apply(s, e).op) != Some(l.id)
  {
    if BackupEvent(e) {
      ListedStaysBesideBackup(s, e, l, kind);
    } else if !ReconcileEvent(e) {
      ListedStaysBesideRestore(s, e, l, kind);
    }
  }

  lemma StepKeepsListOpen(s: System, e: Event, kind: JobKind)
    requires Base(s) && KindOk(s, kind) && Enabled(s, e) && NamesOther(s, e, kind)
    ensures ListOpen(Apply(s, e), kind)
  {
    var s' := Apply(s, e);
    if e.ReconcileList? {
      forall l | l in e.list && l.attempt.kind == kind ensures OpenAttempt(s.journal, l.id) && InFlight(s.op) != Some(l.id) {
        assert l.id in IdsOf(e.list);
        assert Linked(s.journal, s.journal.attempts[l.id]);
        assert InFlight(s.op) == Some(l.id) ==> WorksOn(s, kind);
      }
    } else {
      forall l | l in s'.reconciling && l.attempt.kind == kind
        ensures OpenAttempt(s'.journal, l.id) && InFlight(s'.op) != Some(l.id)
      {
        if e.ReconcileResolve? { TailIds(s.reconciling); assert l.id in IdsOf(s.reconciling[1..]); }
        ListedStaysOpen(s, e, l, kind);
      }
    }
  }

  lemma StepKeepsKind(s: System, e: Event, kind: JobKind)
    requires Base(s) && KindOk(s, kind) && Enabled(s, e) && NamesOther(s, e, kind)
    ensures KindOk(Apply(s, e), kind)
  {
    if BackupEvent(e) { BackupKeepsStates(s, e, kind); } else { OthersKeepStates(s, e, kind); }
    StepKeepsOpOpen(s, e, kind);
    StepKeepsListOpen(s, e, kind);
  }

  /** No reconciliation of the run lists the attempt an operation of this kind is working on. */
  ghost predicate OtherRun(s: System, run: seq<Event>, kind: JobKind)
    requires ValidRun(s, run)
    decreases |run|
  {
    run == [] || (NamesOther(s, run[0], kind) && OtherRun(Apply(s, run[0]), run[1..], kind))
  }

  lemma {:induction false} RunKeepsKind(s: System, run: seq<Event>, kind: JobKind)
    requires Base(s) && KindOk(s, kind) && ValidRun(s, run) && OtherRun(s, run, kind)
    ensures Base(Run(s, run)) && KindOk(Run(s, run), kind)
    decreases |run|
  {
    if run != [] {
      StepKeepsBase(s, run[0]);
      StepKeepsKind(s, run[0], kind);
      RunKeepsKind(Apply(s, run[0]), run[1..], kind);
    }
  }

  lemma {:induction false} RunKeepsBase(s: System, run: seq<Event>)
    requires Base(s) && ValidRun(s, run)
    ensures Base(Run(s, run))
    decreases |run|
  {
    if run != [] {
      StepKeepsBase(s, run[0]);
      RunKeepsBase(Apply(s, run[0]), run[1..]);
    }
  }

  // ---- runs in which no reconciliation lists an attempt in flight ----

  ghost predicate Inv(s: System) {
    Base(s) && forall kind: JobKind :: KindOk(s, kind)
  }

  lemma InitHolds(s: System)
    requires Init(s)
    ensures Inv(s)
  {
    forall kind: JobKind ensures KindOk(s, kind) {
      assert StatesOk(s.journal, kind);
    }
  }

  lemma StepKeepsInv(s: System, e: Event)
    requires Inv(s) && Enabled(s, e) && Spares(s, e)
    ensures Inv(Apply(s, e))
  {
    StepKeepsBase(s, e);
    forall kind: JobKind ensures KindOk(Apply(s, e), kind) {
      StepKeepsKind(s, e, kind);
    }
  }

  lemma {:induction false} RunKeepsInv(s: System, run: seq<Event>)
    requires Inv(s) && ValidRun(s, run) && SparingRun(s, run)
    ensures Inv(Run(s, run))
    decreases |run|
  {
    if run != [] {
      StepKeepsInv(s, run[0]);
      RunKeepsInv(Apply(s, run[0]), run[1..]);
    }
  }

  // ---- what a reconciliation closes ----

  /** No step of a reconciliation, and no crash, turns an attempt into a success. */
  lemma ReconcileNeverSucceeds(s: System, e: Event, id: AttemptId)
    requires Enabled(s, e) && !e.BackupCommit? && !e.RestoreCommit?
    requires id in Apply(s, e).journal.attempts && Apply(s, e).journal.attempts[id].phase == Ended(Succeeded)
    ensures id in s.journal.attempts && s.journal.attempts[id].phase == Ended(Succeeded)
  {
  }

  /** The reconciliation in progress is neither broken off nor followed by another; anything else may happen beside it. */
  predicate Unbroken(run: seq<Event>) {
    forall e :: e in run ==> !e.ReconcileList? && !e.ReconcileAbandon? && !e.Crash?
  }

  /** The attempt was begun after this moment, or an operation was working on it then. */
  predicate BegunAfterOrInFlight(s: System, id: AttemptId) {
    id !in s.journal.attempts || InFlight(s.op) == Some(id)
  }

  /** Since `s`, when the reconciliation made its list: what is open is still listed, or was none of its business. */
  ghost predicate Closing(s: System, now: System) {
    && s.journal.attempts.Keys <= now.journal.attempts.Keys
    && (InFlight(now.op).Some? ==> BegunAfterOrInFlight(s, InFlight(now.op).value))
    && (forall id :: id in now.journal.attempts && Incomplete(now.journal.attempts[id]) ==>
          BegunAfterOrInFlight(s, id) || id in IdsOf(now.reconciling))
  }

  lemma ReconcileStepKeepsClosing(s: System, now: System, e: Event)
    requires Closing(s, now) && Enabled(now, e) && (e.ReconcileMark? || e.ReconcileResolve?)
    ensures Closing(s, Apply(now, e))
  {
    assert now.reconciling[0] in now.reconciling;
    if e.ReconcileResolve? {
      assert forall l :: l in now.reconciling ==> l == now.reconciling[0] || l in now.reconciling[1..];
    }
  }

  lemma WriteKeepsClosing(s: System, now: System, e: Event)
    requires Closing(s, now) && Enabled(now, e) && Writes(e) && !ReconcileEvent(e)
    ensures Closing(s, Apply(now, e))
  {
  }

  lemma QuietKeepsClosing(s: System, now: System, e: Event)
    requires Closing(s, now) && Enabled(now, e) && !Writes(e) && !ReconcileEvent(e) && !e.Crash?
    ensures Closing(s, Apply(now, e))
  {
  }

  lemma {:induction false} RunKeepsClosing(s: System, now: System, run: seq<Event>)
    requires Closing(s, now) && ValidRun(now, run) && Unbroken(run)
    ensures Closing(s, Run(now, run))
    decreases |run|
  {
    if run != [] {
      var e := run[0];
      assert e in run && forall later :: later in run[1..] ==> later in run;
      if ReconcileEvent(e) {
        ReconcileStepKeepsClosing(s, now, e);
      } else if Writes(e) {
        WriteKeepsClosing(s, now, e);
      } else {
        QuietKeepsClosing(s, now, e);
      }
      RunKeepsClosing(s, Apply(now, e), run[1..]);
    }
  }

  /**
    Whatever runs beside it, a reconciliation that has worked off its list leaves no attempt open but those
    begun after it made the list and the one an operation was then working on.
  */
  lemma ReconcileClosesEverything(s: System, list: seq<Listed>, run: seq<Event>)
    requires Enabled(s, ReconcileList(list)) && ValidRun(Apply(s, ReconcileList(list)), run) && Unbroken(run)
    requires Run(Apply(s, ReconcileList(list)), run).reconciling == []
    ensures
      var j := Run(Apply(s, ReconcileList(list)), run).journal;
      forall id :: id in IncompleteAttempts(j) ==> BegunAfterOrInFlight(s, id)
  {
    var listed := Apply(s, ReconcileList(list));
    forall id | id in s.journal.attempts && Incomplete(s.journal.attempts[id]) ensures id in IdsOf(list) {
      assert id in IncompleteAttempts(s.journal);
    }
    RunKeepsClosing(s, listed, run);
  }

  // ---- restores: the engine runs at most once per job id ----

  /** Whatever callers, crashes and reconciliations interleave, no job id is restored twice. */
  lemma EngineRestoresOnce(s: System, run: seq<Event>, job: JobId)
    requires Init(s) && ValidRun(s, run)
    ensures Runs(Run(s, run), job) <= 1
  {
    InitHolds(s);
    RunKeepsBase(s, run);
  }

  // ---- restores: which steps write to a settled one ----

  predicate SettledRestore(j: Journal, job: JobId) {
    job in j.jobs && j.jobs[job].kind == Restore && Terminal(j.jobs[job].state)
  }

  /** The job's row and its attempts are the same in both ledgers. */
  ghost predicate SameRecord(j: Journal, j': Journal, job: JobId) {
    && job in j.jobs && job in j'.jobs && j'.jobs[job] == j.jobs[job]
    && (forall id :: id in j.attempts && j.attempts[id].job == job ==> id in j'.attempts && j'.attempts[id] == j.attempts[id])
    && (forall id :: id in j'.attempts && j'.attempts[id].job == job ==> id in j.attempts && j.attempts[id] == j'.attempts[id])
  }

  /** The steps that write to this restore job: its own commit, and the resolution of its listed attempt. */
  predicate Touches(s: System, e: Event, job: JobId) {
    || (e.RestoreCommit? && s.op.RestoreCommitting? && s.op.req.job == job)
    || (e.ReconcileResolve? && s.reconciling != [] && s.reconciling[0].attempt.job == job)
  }

  lemma UpdateElsewhere(j: Journal, id: AttemptId, phase: Phase, snapshot: string, errorClass: ErrorClass, summary: Summary, job: JobId)
    requires job in j.jobs && id in j.attempts && j.attempts[id].job != job
    ensures SameRecord(j, UpdateAttempt(j, id, phase, snapshot, errorClass, summary), job)
  {
  }

  lemma CompleteElsewhere(j: Journal, id: AttemptId, outcome: Outcome, snapshot: string, errorClass: ErrorClass, summary: Summary,
      state: JobState, job: JobId)
    requires job in j.jobs && Committable(j, id) && j.attempts[id].job != job
    ensures SameRecord(j, CompleteAttempt(j, id, outcome, snapshot, errorClass, summary, state), job)
  {
  }

  lemma BeginElsewhere(s: System, newJob: JobId, id: AttemptId, number: int, job: JobId)
    requires Base(s) && job in s.journal.jobs && s.journal.jobs[job].kind == Restore
    requires Enabled(s, BackupBegin(newJob, id, number))
    ensures SameRecord(s.journal, Apply(s, BackupBegin(newJob, id, number)).journal, job)
  {
    assert s.op.job.Some? ==> s.journal.jobs[s.op.job.value].slot != "";
  }

  lemma RestoreBeginElsewhere(s: System, id: AttemptId, job: JobId)
    requires Enabled(s, RestoreBegin(id)) && job in s.journal.jobs
    ensures SameRecord(s.journal, Apply(s, RestoreBegin(id)).journal, job)
  {
  }

  lemma ReconcileElsewhere(s: System, e: Event, job: JobId)
    requires ListLinked(s) && (e.ReconcileMark? || e.ReconcileResolve?) && Enabled(s, e) && job in s.journal.jobs
    requires s.reconciling[0].attempt.job != job
    ensures SameRecord(s.journal, Apply(s, e).journal, job)
  {
    var l := s.reconciling[0];
    assert ListedRow(s.journal, l);
    if e.ReconcileMark? {
      UpdateElsewhere(s.journal, l.id, Reconciling, l.attempt.snapshot, l.attempt.errorClass, l.attempt.summary, job);
    } else {
      var outcome := ResolvedOutcome(l.attempt, e.evidence);
      CompleteElsewhere(s.journal, l.id, outcome, ResolvedSnapshot(l.attempt, e.evidence), ResolvedErrorClass(l.attempt, e.evidence),
        l.attempt.summary, JobStateOf(outcome), job);
    }
  }

  lemma OperationElsewhere(s: System, e: Event, job: JobId)
    requires (e.BackupLaunch? || e.BackupCommit? || e.RestoreCommit?) && Enabled(s, e) && job in s.journal.jobs
    requires Committable(s.journal, s.op.id) && s.journal.attempts[s.op.id].job != job
    ensures SameRecord(s.journal, Apply(s, e).journal, job)
  {
    match e
    case BackupLaunch => UpdateElsewhere(s.journal, s.op.id, BackingUp, "", NoError, NoSummary, job);
    case BackupCommit =>
      var res := s.op.result;
      CompleteElsewhere(s.journal, s.op.id, res.outcome, res.snapshot, res.errorClass, s.op.summary, JobStateOf(res.outcome), job);
    case RestoreCommit =>
      var res := s.op.restored;
      CompleteElsewhere(s.journal, s.op.id, RestoreOutcome(res.state), "", res.errorClass, RestoreSummary(res),
        JobStateOf(RestoreOutcome(res.state)), job);
  }

  /** Whatever overlaps, no other step writes to a restore job that is there. */
  lemma UntouchedRecord(s: System, e: Event, job: JobId)
    requires Base(s) && Enabled(s, e) && job in s.journal.jobs && s.journal.jobs[job].kind == Restore && !Touches(s, e, job)
    ensures SameRecord(s.journal, Apply(s, e).journal, job)
  {
    if e.BackupLaunch? || e.BackupCommit? || e.RestoreCommit? {
      assert Linked(s.journal, s.journal.attempts[s.op.id]);
      OperationElsewhere(s, e, job);
    } else if e.ReconcileMark? || e.ReconcileResolve? {
      var l := s.reconciling[0];
      assert ListedRow(s.journal, l) && Linked(s.journal, s.journal.attempts[l.id]);
      ReconcileElsewhere(s, e, job);
    } else if e.BackupBegin? {
      BeginElsewhere(s, e.newJob, e.id, e.number, job);
    } else if e.RestoreBegin? {
      RestoreBeginElsewhere(s, e.id, job);
    } else {
      OthersWriteNothing(s, e);
    }
  }

  /** A listed restore is as it was listed, or was committed since it was listed open. */
  predicate ListedFresh(j: Journal, l: Listed) {
    l.id in j.attempts &&
    if Incomplete(j.attempts[l.id]) then j.attempts[l.id] == l.attempt
    else j.attempts[l.id].summary.RestoreSummary? && l.attempt.summary == NoSummary
  }

  /** A restore in flight has recorded no result; an open restore's job is active. */
  ghost predicate RestoresFresh(s: System) {
    && (RestoreInFlight(s.op) ==>
          InFlight(s.op).value in s.journal.attempts && s.journal.attempts[InFlight(s.op).value].summary == NoSummary)
    && (forall l :: l in s.reconciling && l.attempt.kind == Restore ==> ListedFresh(s.journal, l))
    && (forall id :: id in s.journal.attempts && s.journal.attempts[id].kind == Restore && Incomplete(s.journal.attempts[id]) ==>
          s.journal.attempts[id].job in s.journal.jobs && s.journal.jobs[s.journal.attempts[id].job].state == JobActive)
  }

  lemma ResolveKeepsActive(s: System, e: Event, id: AttemptId)
    requires LedgerOk(s.journal) && RestoresFresh(s) && Enabled(s, e) && e.ReconcileResolve? && id in s.journal.attempts
    requires s.journal.attempts[id].kind == Restore && Incomplete(Apply(s, e).journal.attempts[id])
    ensures
      var j, job := Apply(s, e).journal, s.journal.attempts[id].job;
      job in j.jobs && j.jobs[job].state == JobActive
  {
    assert PairApart(s.journal.attempts[id], s.journal.attempts[s.reconciling[0].id]);
  }

  lemma ResolveKeepsListed(s: System, e: Event, other: Listed)
    requires ListLinked(s) && RestoresFresh(s) && Enabled(s, e) && e.ReconcileResolve?
    requires other in Apply(s, e).reconciling && other.attempt.kind == Restore
    ensures ListedFresh(Apply(s, e).journal, other)
  {
    TailIds(s.reconciling);
    assert other.id in IdsOf(s.reconciling[1..]);
    assert other in s.reconciling && ListedFresh(s.journal, other);
  }

  lemma ResolveKeepsInFlight(s: System, e: Event)
    requires OpLinked(s) && ListLinked(s) && RestoresFresh(s) && Enabled(s, e) && e.ReconcileResolve? && RestoreInFlight(s.op)
    ensures
      var j, id := Apply(s, e).journal, InFlight(s.op).value;
      id in j.attempts && j.attempts[id].summary == NoSummary
  {
    var l := s.reconciling[0];
    assert l in s.reconciling && ListedRow(s.journal, l);
    assert l.attempt.kind == Restore ==> ListedFresh(s.journal, l);
  }

  lemma ResolveKeepsFresh(s: System, e: Event)
    requires Base(s) && RestoresFresh(s) && Enabled(s, e) && e.ReconcileResolve?
    ensures RestoresFresh(Apply(s, e))
  {
    var s' := Apply(s, e);
    if RestoreInFlight(s.op) { ResolveKeepsInFlight(s, e); }
    forall other | other in s'.reconciling && other.attempt.kind == Restore ensures ListedFresh(s'.journal, other) {
      ResolveKeepsListed(s, e, other);
    }
    forall id | id in s'.journal.attempts && s'.journal.attempts[id].kind == Restore && Incomplete(s'.journal.attempts[id])
      ensures s'.journal.attempts[id].job in s'.journal.jobs && s'.journal.jobs[s'.journal.attempts[id].job].state == JobActive
    {
      ResolveKeepsActive(s, e, id);
    }
  }

  lemma CommitKeepsActive(s: System, id: AttemptId)
    requires LedgerOk(s.journal) && RestoresFresh(s) && Enabled(s, RestoreCommit) && id in s.journal.attempts
    requires s.journal.attempts[id].kind == Restore && Incomplete(Apply(s, RestoreCommit).journal.attempts[id])
    ensures
      var j, job := Apply(s, RestoreCommit).journal, s.journal.attempts[id].job;
      job in j.jobs && j.jobs[job].state == JobActive
  {
    assert PairApart(s.journal.attempts[id], s.journal.attempts[s.op.id]);
  }

  lemma CommitKeepsFresh(s: System)
    requires Base(s) && RestoresFresh(s) && Enabled(s, RestoreCommit)
    ensures RestoresFresh(Apply(s, RestoreCommit))
  {
    var s' := Apply(s, RestoreCommit);
    forall l | l in s'.reconciling && l.attempt.kind == Restore ensures ListedFresh(s'.journal, l) {
      assert ListedFresh(s.journal, l);
    }
    forall id | id in s'.journal.attempts && s'.journal.attempts[id].kind == Restore && Incomplete(s'.journal.attempts[id])
      ensures s'.journal.attempts[id].job in s'.journal.jobs && s'.journal.jobs[s'.journal.attempts[id].job].state == JobActive
    {
      CommitKeepsActive(s, id);
    }
  }

  /** The rows of restores, and of their jobs, are as they were. */
  ghost predicate RestoreRowsStay(j: Journal, j': Journal) {
    && (forall id :: id in j.attempts && j.attempts[id].kind == Restore ==>
          && id in j'.attempts && j'.attempts[id] == j.attempts[id]
          && (j.attempts[id].job in j.jobs ==> j.attempts[id].job in j'.jobs && j'.jobs[j.attempts[id].job] == j.jobs[j.attempts[id].job]))
    && (forall id :: id in j'.attempts && j'.attempts[id].kind == Restore ==> id in j.attempts && j.attempts[id].kind == Restore)
  }

  lemma OtherWorkKeepsFresh(s: System, s': System)
    requires OpLinked(s) && ListLinked(s) && RestoresFresh(s) && RestoreRowsStay(s.journal, s'.journal)
    requires s'.reconciling == s.reconciling && (RestoreInFlight(s'.op) ==> s'.op == s.op)
    ensures RestoresFresh(s')
  {
    forall l | l in s'.reconciling && l.attempt.kind == Restore ensures ListedFresh(s'.journal, l) {
      assert ListedFresh(s.journal, l) && ListedRow(s.journal, l);
    }
  }

  lemma LaunchOrCommitSparesRestores(s: System, e: Event)
    requires LedgerOk(s.journal) && OpLinked(s) && Enabled(s, e) && (e.BackupLaunch? || e.BackupCommit?)
    ensures RestoreRowsStay(s.journal, Apply(s, e).journal)
  {
    var j, j' := s.journal, Apply(s, e).journal;
    assert Linked(j, j.attempts[s.op.id]);
    forall id | id in j.attempts && j.attempts[id].kind == Restore
      ensures j'.attempts[id] == j.attempts[id] && (j.attempts[id].job in j.jobs ==> j'.jobs[j.attempts[id].job] == j.jobs[j.attempts[id].job])
    {
      assert Linked(j, j.attempts[id]);
    }
  }

  lemma BeginSparesRestores(s: System, e: Event)
    requires LedgerOk(s.journal) && OpLinked(s) && Enabled(s, e) && e.BackupBegin?
    ensures RestoreRowsStay(s.journal, Apply(s, e).journal)
  {
    var j, j' := s.journal, Apply(s, e).journal;
    assert s.op.job.Some? ==> SlotFits(j.jobs[s.op.job.value].kind, s.op.slot);
    forall id | id in j.attempts && j.attempts[id].kind == Restore
      ensures j'.attempts[id] == j.attempts[id] && (j.attempts[id].job in j.jobs ==> j'.jobs[j.attempts[id].job] == j.jobs[j.attempts[id].job])
    {
      assert Linked(j, j.attempts[id]);
    }
  }

  lemma RestoreBeginKeepsFresh(s: System, e: Event)
    requires Base(s) && RestoresFresh(s) && Enabled(s, e) && e.RestoreBegin?
    ensures RestoresFresh(Apply(s, e))
  {
    var s' := Apply(s, e);
    forall l | l in s'.reconciling && l.attempt.kind == Restore ensures ListedFresh(s'.journal, l) {
      assert ListedFresh(s.journal, l) && ListedRow(s.journal, l);
    }
  }

  lemma MarkSparesRestores(s: System, e: Event)
    requires ListLinked(s) && Enabled(s, e) && e.ReconcileMark?
    ensures RestoreRowsStay(s.journal, Apply(s, e).journal)
  {
    assert ListedRow(s.journal, s.reconciling[0]);
  }

  lemma ListKeepsFresh(s: System, e: Event)
    requires RestoresFresh(s) && Enabled(s, e) && (e.ReconcileList? || e.ReconcileAbandon?)
    ensures RestoresFresh(Apply(s, e))
  {
    forall l | e.ReconcileList? && l in e.list && l.attempt.kind == Restore ensures ListedFresh(s.journal, l) {
      assert l.id in IdsOf(e.list);
    }
  }

  lemma QuietBackupKeepsFresh(s: System, e: Event)
    requires RestoresFresh(s) && Enabled(s, e) && BackupEvent(e) && !e.BackupBegin? && !e.BackupLaunch? && !e.BackupCommit?
    ensures RestoresFresh(Apply(s, e))
  {
  }

  lemma OthersKeepFresh(s: System, e: Event)
    requires RestoresFresh(s) && Enabled(s, e) && !BackupEvent(e)
    requires !ReconcileEvent(e) && !e.RestoreBegin? && !e.RestoreCommit?
    ensures RestoresFresh(Apply(s, e))
  {
  }

  lemma BackupKeepsFresh(s: System, e: Event)
    requires Base(s) && RestoresFresh(s) && Enabled(s, e) && BackupEvent(e)
    ensures RestoresFresh(Apply(s, e))
  {
    if e.BackupBegin? {
      BeginSparesRestores(s, e);
      OtherWorkKeepsFresh(s, Apply(s, e));
    } else if e.BackupLaunch? || e.BackupCommit? {
      LaunchOrCommitSparesRestores(s, e);
      OtherWorkKeepsFresh(s, Apply(s, e));
    } else {
      QuietBackupKeepsFresh(s, e);
    }
  }

  lemma ReconcileKeepsFresh(s: System, e: Event)
    requires Base(s) && RestoresFresh(s) && Enabled(s, e) && ReconcileEvent(e)
    ensures RestoresFresh(Apply(s, e))
  {
    if e.ReconcileResolve? {
      ResolveKeepsFresh(s, e);
    } else if e.ReconcileMark? {
      MarkSparesRestores(s, e);
      OtherWorkKeepsFresh(s, Apply(s, e));
    } else {
      ListKeepsFresh(s, e);
    }
  }

  lemma StepKeepsFresh(s: System, e: Event)
    requires Base(s) && RestoresFresh(s) && Enabled(s, e)
    ensures RestoresFresh(Apply(s, e))
  {
    if BackupEvent(e) {
      BackupKeepsFresh(s, e);
    } else if ReconcileEvent(e) {
      ReconcileKeepsFresh(s, e);
    } else if e.RestoreBegin? {
      RestoreBeginKeepsFresh(s, e);
    } else if e.RestoreCommit? {
      CommitKeepsFresh(s);
    } else {
      OthersKeepFresh(s, e);
    }
  }

  lemma {:induction false} RunKeepsFresh(s: System, run: seq<Event>)
    requires Base(s) && RestoresFresh(s) && ValidRun(s, run)
    ensures Base(Run(s, run)) && RestoresFresh(Run(s, run))
    decreases |run|
  {
    if run != [] {
      StepKeepsBase(s, run[0]);
      StepKeepsFresh(s, run[0]);
      RunKeepsFresh(Apply(s, run[0]), run[1..]);
    }
  }

  lemma InitIsFresh(s: System)
    requires Init(s)
    ensures Base(s) && RestoresFresh(s)
  {
    InitHolds(s);
    forall id | id in s.journal.attempts && s.journal.attempts[id].kind == Restore && Incomplete(s.journal.attempts[id])
      ensures s.journal.attempts[id].job in s.journal.jobs && s.journal.jobs[s.journal.attempts[id].job].state == JobActive
    {
      assert StatesOk(s.journal, Restore) && StateOk(s.journal, s.journal.attempts[id]);
    }
  }

  lemma TouchRewrites(s: System, e: Event, job: JobId)
    requires Base(s) && RestoresFresh(s) && Enabled(s, e) && SettledRestore(s.journal, job) && Touches(s, e, job)
    ensures !SameRecord(s.journal, Apply(s, e).journal, job)
  {
    if e.RestoreCommit? {
      assert s.op.id in s.journal.attempts && s.journal.attempts[s.op.id].job == job;
    } else {
      var l := s.reconciling[0];
      assert l in s.reconciling && ListedRow(s.journal, l) && Linked(s.journal, s.journal.attempts[l.id]);
      assert ListedFresh(s.journal, l);
      assert s.journal.attempts[l.id].job == job;
    }
  }

  /**
    In every run, overlapping or not, the record of a settled restore changes in exactly two steps: the
    commit of the restore itself, settled by a reconciliation meanwhile, and the resolution of its attempt
    by a reconciliation that had listed it before it was committed.
  */
  lemma SettledChangesExactly(s: System, run: seq<Event>, e: Event, job: JobId)
    requires Init(s) && ValidRun(s, run) && Enabled(Run(s, run), e) && SettledRestore(Run(s, run).journal, job)
    ensures SameRecord(Run(s, run).journal, Apply(Run(s, run), e).journal, job) <==> !Touches(Run(s, run), e, job)
  {
    InitIsFresh(s);
    RunKeepsFresh(s, run);
    if Touches(Run(s, run), e, job) {
      TouchRewrites(Run(s, run), e, job);
    } else {
      UntouchedRecord(Run(s, run), e, job);
    }
  }

  // ---- restores: when a settled result is final ----

  /** The restore is not in flight any more, and not on the list of a reconciliation. */
  predicate Quiet(s: System, job: JobId) {
    && !(RestoreInFlight(s.op) && s.op.req.job == job)
    && forall l :: l in s.reconciling ==> l.attempt.job != job
  }

  lemma OpStaysQuiet(s: System, e: Event, job: JobId)
    requires Enabled(s, e) && job in s.journal.jobs && Quiet(s, job)
    ensures var op := Apply(s, e).op; !(RestoreInFlight(op) && op.req.job == job)
  {
  }

  lemma ListStaysQuiet(s: System, e: Event, job: JobId)
    requires LedgerOk(s.journal) && RestoresFresh(s) && Enabled(s, e) && SettledRestore(s.journal, job) && Quiet(s, job)
    ensures forall l :: l in Apply(s, e).reconciling ==> l.attempt.job != job
  {
    if e.ReconcileList? {
      forall l | l in e.list ensures l.attempt.job != job {
        assert l.id in IdsOf(e.list);
        assert Linked(s.journal, s.journal.attempts[l.id]);
      }
    }
  }

  lemma StepKeepsQuiet(s: System, e: Event, job: JobId)
    requires Base(s) && RestoresFresh(s) && Enabled(s, e) && SettledRestore(s.journal, job) && Quiet(s, job)
    ensures !Touches(s, e, job) && Quiet(Apply(s, e), job)
  {
    OpStaysQuiet(s, e, job);
    ListStaysQuiet(s, e, job);
  }

  lemma {:induction false} QuietIsFinal(s: System, later: seq<Event>, job: JobId)
    requires Base(s) && RestoresFresh(s) && ValidRun(s, later) && SettledRestore(s.journal, job) && Quiet(s, job)
    ensures SameRecord(s.journal, Run(s, later).journal, job)
    decreases |later|
  {
    if later != [] {
      StepKeepsQuiet(s, later[0], job);
      UntouchedRecord(s, later[0], job);
      StepKeepsBase(s, later[0]);
      StepKeepsFresh(s, later[0]);
      QuietIsFinal(Apply(s, later[0]), later[1..], job);
    }
  }

  lemma OneStepRun(s: System, e: Event)
    requires Enabled(s, e)
    ensures ValidRun(s, [e]) && Run(s, [e]) == Apply(s, e)
  {
    assert [e][1..] == [];
    assert ValidRun(Apply(s, e), []) && Run(Apply(s, e), []) == Apply(s, e);
  }

  lemma LongerRun(s: System, e: Event, later: seq<Event>)
    requires Enabled(s, e) && ValidRun(Apply(s, e), later)
    ensures ValidRun(s, [e] + later) && Run(s, [e] + later) == Run(Apply(s, e), later)
  {
    assert ([e] + later)[0] == e && ([e] + later)[1..] == later;
  }

  lemma CommitRewrites(s: System, job: JobId)
    requires Base(s) && RestoresFresh(s) && SettledRestore(s.journal, job) && s.op.RestoreCommitting? && s.op.req.job == job
    ensures ValidRun(s, [RestoreCommit]) && !SameRecord(s.journal, Run(s, [RestoreCommit]).journal, job)
  {
    OneStepRun(s, RestoreCommit);
    TouchRewrites(s, RestoreCommit, job);
  }

  /** A settled restore that is in flight goes on to commit. */
  lemma InFlightRewrites(s: System, job: JobId) returns (later: seq<Event>)
    requires Base(s) && RestoresFresh(s) && SettledRestore(s.journal, job) && RestoreInFlight(s.op) && s.op.req.job == job
    ensures ValidRun(s, later) && !SameRecord(s.journal, Run(s, later).journal, job)
  {
    if s.op.RestoreCommitting? {
      CommitRewrites(s, job);
      return [RestoreCommit];
    }
    var ends := if s.op.RestoreBegun? then RestoreStop else RestoreReturn(EngineRestore(None, false, true), false, true, true);
    var ended := Apply(s, ends);
    StepKeepsBase(s, ends);
    StepKeepsFresh(s, ends);
    CommitRewrites(ended, job);
    LongerRun(s, ends, [RestoreCommit]);
    return [ends] + [RestoreCommit];
  }

  lemma ResolveElsewhere(s: System, job: JobId, l: Listed)
    requires Base(s) && RestoresFresh(s) && SettledRestore(s.journal, job) && l in s.reconciling && l.attempt.job == job
    requires s.reconciling[0].attempt.job != job
    ensures Enabled(s, ReconcileResolve(NoSnapshot))
    ensures
      var s' := Apply(s, ReconcileResolve(NoSnapshot));
      && Base(s') && RestoresFresh(s') && SameRecord(s.journal, s'.journal, job)
      && l in s'.reconciling && |s'.reconciling| < |s.reconciling|
  {
    var first, e := s.reconciling[0], ReconcileResolve(NoSnapshot);
    assert first in s.reconciling && ListedRow(s.journal, first);
    UntouchedRecord(s, e, job);
    StepKeepsBase(s, e);
    StepKeepsFresh(s, e);
  }

  lemma FirstRewrites(s: System, job: JobId)
    requires Base(s) && RestoresFresh(s) && SettledRestore(s.journal, job) && s.reconciling != [] && s.reconciling[0].attempt.job == job
    ensures
      var run := [ReconcileResolve(NoSnapshot)];
      ValidRun(s, run) && !SameRecord(s.journal, Run(s, run).journal, job)
  {
    assert s.reconciling[0] in s.reconciling && ListedRow(s.journal, s.reconciling[0]);
    TouchRewrites(s, ReconcileResolve(NoSnapshot), job);
    OneStepRun(s, ReconcileResolve(NoSnapshot));
  }

  lemma LaterRewrites(s: System, e: Event, rest: seq<Event>, job: JobId)
    requires Enabled(s, e) && SameRecord(s.journal, Apply(s, e).journal, job) && ValidRun(Apply(s, e), rest)
    requires !SameRecord(Apply(s, e).journal, Run(Apply(s, e), rest).journal, job)
    ensures ValidRun(s, [e] + rest) && !SameRecord(s.journal, Run(s, [e] + rest).journal, job)
  {
    LongerRun(s, e, rest);
  }

  /** A settled restore that is listed gets resolved when the list is worked off. */
  lemma {:induction false} ListedRewrites(s: System, job: JobId, l: Listed) returns (later: seq<Event>)
    requires Base(s) && RestoresFresh(s) && SettledRestore(s.journal, job) && l in s.reconciling && l.attempt.job == job
    ensures ValidRun(s, later) && !SameRecord(s.journal, Run(s, later).journal, job)
    decreases |s.reconciling|
  {
    if s.reconciling[0].attempt.job == job {
      FirstRewrites(s, job);
      return [ReconcileResolve(NoSnapshot)];
    }
    ResolveElsewhere(s, job, l);
    var rest := ListedRewrites(Apply(s, ReconcileResolve(NoSnapshot)), job, l);
    LaterRewrites(s, ReconcileResolve(NoSnapshot), rest, job);
    return [ReconcileResolve(NoSnapshot)] + rest;
  }

  /**
    In every run, overlapping or not: the record of a settled restore is final, whatever happens later,
    exactly if the restore is neither in flight nor on the list of a reconciliation in progress.
  */
  lemma SettledIsFinalExactly(s: System, run: seq<Event>, job: JobId)
    requires Init(s) && ValidRun(s, run) && SettledRestore(Run(s, run).journal, job)
    ensures
      var now := Run(s, run);
      (forall later :: ValidRun(now, later) ==> SameRecord(now.journal, Run(now, later).journal, job)) <==> Quiet(now, job)
  {
    var now := Run(s, run);
    InitIsFresh(s);
    RunKeepsFresh(s, run);
    if Quiet(now, job) {
      forall later | ValidRun(now, later) ensures SameRecord(now.journal, Run(now, later).journal, job) {
        QuietIsFinal(now, later, job);
      }
    } else if RestoreInFlight(now.op) && now.op.req.job == job {
      var later := InFlightRewrites(now, job);
    } else {
      var l :| l in now.reconciling && l.attempt.job == job;
      var later := ListedRewrites(now, job, l);
    }
  }

  /** Where no reconciliation lists a restore in flight, every settled restore is neither in flight nor listed. */
  lemma SettledIsQuiet(s: System, run: seq<Event>, job: JobId)
    requires Init(s) && ValidRun(s, run) && OtherRun(s, run, Restore) && SettledRestore(Run(s, run).journal, job)
    ensures Quiet(Run(s, run), job)
  {
    InitHolds(s);
    RunKeepsKind(s, run, Restore);
    var now := Run(s, run);
    if RestoreInFlight(now.op) { OpenOfOtherJob(now.journal, now.op.id, Restore); }
    forall l | l in now.reconciling ensures l.attempt.job != job {
      assert ListedRow(now.journal, l) && Linked(now.journal, now.journal.attempts[l.id]);
      if l.attempt.kind == Restore { OpenOfOtherJob(now.journal, l.id, Restore); }
    }
  }

  // ---- restores: what callers are told ----

  lemma OnlyAttempt(j: Journal, a: AttemptId, b: AttemptId)
    requires LedgerOk(j) && a in j.attempts && b in j.attempts
    requires j.attempts[a].job == j.attempts[b].job && j.attempts[a].kind == Restore
    ensures a == b
  {
  }

  /** A restore has one attempt, so its latest one is that one. */
  lemma LatestIsOnly(j: Journal, job: JobId, id: AttemptId)
    requires LedgerOk(j) && id in j.attempts && j.attempts[id].job == job && j.attempts[id].kind == Restore
    ensures LatestSummary(j, job) == j.attempts[id].summary
  {
    assert IsLatest(j, job, id);
    forall other | other in j.attempts && j.attempts[other].job == job ensures other == id {
      OnlyAttempt(j, id, other);
    }
  }

  lemma SameRecordSameReply(j: Journal, j': Journal, req: RestoreRequest)
    requires LedgerOk(j) && LedgerOk(j') && SettledRestore(j, req.job) && SameRecord(j, j', req.job)
    ensures ReplyTo(j', req) == ReplyTo(j, req)
  {
    if id :| id in j.attempts && j.attempts[id].job == req.job {
      assert Linked(j, j.attempts[id]);
      LatestIsOnly(j, req.job, id);
      LatestIsOnly(j', req.job, id);
    } else {
      assert !exists id :: IsLatest(j, req.job, id);
      assert !exists id :: IsLatest(j', req.job, id);
    }
  }

  lemma QuietAnswersAlike(s: System, later: seq<Event>, req: RestoreRequest)
    requires Base(s) && RestoresFresh(s) && ValidRun(s, later) && SettledRestore(s.journal, req.job) && Quiet(s, req.job)
    ensures ReplyTo(Run(s, later).journal, req) == ReplyTo(s.journal, req)
  {
    QuietIsFinal(s, later, req.job);
    RunKeepsBase(s, later);
    SameRecordSameReply(s.journal, Run(s, later).journal, req);
  }

  /**
    Once a restore job is settled, and neither in flight nor listed, every later call under its id gets
    the same answer.
  */
  lemma SettledRestoreAnswersAlike(s: System, run: seq<Event>, later: seq<Event>, req: RestoreRequest)
    requires Init(s) && ValidRun(s, run) && ValidRun(Run(s, run), later)
    requires SettledRestore(Run(s, run).journal, req.job) && Quiet(Run(s, run), req.job)
    ensures ReplyTo(Run(Run(s, run), later).journal, req) == ReplyTo(Run(s, run).journal, req)
  {
    InitIsFresh(s);
    RunKeepsFresh(s, run);
    QuietAnswersAlike(Run(s, run), later, req);
  }

  /** What the commit leaves, whatever happened to the row before. */
  lemma CommitSettles(s: System)
    requires Base(s) && Enabled(s, RestoreCommit)
    ensures
      var j := Apply(s, RestoreCommit).journal;
      var job := s.op.req.job;
      && SettledRestore(j, job) && j.jobs[job].requestHash == Some(IdentityHash(s.op.req)) && !InProgress(j.jobs[job].state)
      && s.op.id in j.attempts && j.attempts[s.op.id].job == job && j.attempts[s.op.id].kind == Restore
      && j.attempts[s.op.id].summary == RestoreSummary(s.op.restored)
  {
    assert Linked(s.journal, s.journal.attempts[s.op.id]);
  }

  lemma CommitDecidesReplies(s: System, req: RestoreRequest)
    requires Base(s) && Enabled(s, RestoreCommit) && req.job == s.op.req.job
    ensures ReplyTo(Apply(s, RestoreCommit).journal, req) ==
      if SameRestore(req, s.op.req) then Replayed(s.op.restored) else Conflict
  {
    CommitSettles(s);
    StepKeepsLedger(s, RestoreCommit);
    LatestIsOnly(Apply(s, RestoreCommit).journal, req.job, s.op.id);
    SameRestoreSameHash(req, s.op.req);
  }

  lemma CommitIsFinal(s: System, later: seq<Event>, req: RestoreRequest)
    requires Base(s) && RestoresFresh(s) && Enabled(s, RestoreCommit) && ValidRun(Apply(s, RestoreCommit), later)
    requires req.job == s.op.req.job && forall l :: l in s.reconciling ==> l.attempt.job != req.job
    ensures ReplyTo(Run(Apply(s, RestoreCommit), later).journal, req) == ReplyTo(Apply(s, RestoreCommit).journal, req)
  {
    var committed := Apply(s, RestoreCommit);
    StepKeepsBase(s, RestoreCommit);
    StepKeepsFresh(s, RestoreCommit);
    CommitSettles(s);
    QuietAnswersAlike(committed, later, req);
  }

  /**
    After a restore's result is committed, every later call with the same request, its selections in
    any order, is answered with that result, and any other request under the id is refused; unless a
    reconciliation in progress had listed its attempt.
  */
  lemma CommittedRestoreIsReplayed(s: System, run: seq<Event>, later: seq<Event>, req: RestoreRequest)
    requires Init(s) && ValidRun(s, run) && Enabled(Run(s, run), RestoreCommit) && ValidRun(Apply(Run(s, run), RestoreCommit), later)
    requires req.job == Run(s, run).op.req.job && forall l :: l in Run(s, run).reconciling ==> l.attempt.job != req.job
    ensures
      var op := Run(s, run).op;
      ReplyTo(Run(Apply(Run(s, run), RestoreCommit), later).journal, req) ==
        if SameRestore(req, op.req) then Replayed(op.restored) else Conflict
  {
    InitIsFresh(s);
    RunKeepsFresh(s, run);
    CommitDecidesReplies(Run(s, run), req);
    CommitIsFinal(Run(s, run), later, req);
  }

  // ---- replaying a qualification run ----

  /** The outcome `qualificationReplay` reports for a job that is already terminal. */
  function QualificationReplay(latest: Option<Attempt>, state: JobState): Outcome {
    if latest.Some? && latest.value.summary.BackupSummary? then latest.value.summary.backup.outcome
    else if latest.Some? && latest.value.phase.Ended? then latest.value.phase.outcome
    else
      match state
      case JobSucceeded => Succeeded
      case JobCancelled => Cancelled
      case JobPartial => Partial
      case _ => Failed
  }

  /** The stored summary, else the attempt's outcome, else what the job's state says; the last is a failure where in doubt. */
  lemma ReplayExactly(latest: Option<Attempt>, state: JobState)
    ensures
      var replayed := QualificationReplay(latest, state);
      && (latest.Some? && latest.value.summary.BackupSummary? ==> replayed == latest.value.summary.backup.outcome)
      && (latest.Some? && !latest.value.summary.BackupSummary? && latest.value.phase.Ended? ==> latest.value.phase == Ended(replayed))
      && (latest.None? || (!latest.value.summary.BackupSummary? && !latest.value.phase.Ended?) ==>
            && (replayed == Succeeded <==> state == JobSucceeded) && (replayed == Cancelled <==> state == JobCancelled)
            && (replayed == Partial <==> state == JobPartial))
  {
  }

  /**
    The replay prefers the stored summary to the outcome column. The two agree exactly when the
    first terminal commit went through: after a demotion the ledger says partial and the replay
    still claims success.
  */
  lemma ReplayIsDurableUnlessDemoted(s: System)
    requires Base(s) && Enabled(s, BackupCommit)
    ensures
      var j := Apply(s, BackupCommit).journal;
      var attempt := j.attempts[s.op.id];
      && attempt.phase == Ended(s.op.result.outcome)
      && (QualificationReplay(Some(attempt), j.jobs[attempt.job].state) == attempt.phase.outcome <==> !s.op.retried)
      && (s.op.retried ==> attempt.phase == Ended(Partial) && QualificationReplay(Some(attempt), j.jobs[attempt.job].state) == Succeeded)
  {
  }

  /**
    A reconciliation that had listed the attempt before it was committed rewrites the replay: it puts the
    listed summary back, and where there was none the replay is the outcome of the resolution, never a success.
  */
  lemma ResolveRewritesReplay(s: System, evidence: Evidence)
    requires Base(s) && Enabled(s, ReconcileResolve(evidence)) && IsBackupWork(s.reconciling[0].attempt.kind)
    ensures
      var l, j := s.reconciling[0], Apply(s, ReconcileResolve(evidence)).journal;
      var attempt := j.attempts[l.id];
      var replayed := QualificationReplay(Some(attempt), j.jobs[attempt.job].state);
      && attempt.phase == Ended(if evidence.NoSnapshot? then Failed else Partial)
      && j.jobs[attempt.job].state == (if evidence.NoSnapshot? then JobFailed else JobPartial)
      && replayed == (if l.attempt.summary.BackupSummary? then l.attempt.summary.backup.outcome else attempt.phase.outcome)
      && (l.attempt.summary == NoSummary ==> replayed != Succeeded)
  {
  }
}
