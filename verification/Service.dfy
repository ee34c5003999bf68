/**
  `Service` (agent/internal/application/service.go): one backup, restore or reconciliation
  from entry to return, changing the journal, the outbox and the in-process lock in place.

  Each method is shown to perform a run of the transition system of `Orchestration`, so
  everything proved there about runs holds of it. What the journal, the engine, the disk and
  the operator do in the meantime are its parameters; `false` in a `fails` field means the
  call went through, unless the ledger's own keys refuse it.
*/
module Service {
  import opened Options
  import opened LocalJournal
  import opened Orchestration

  /** `wellFormed` stands for the checks on repository, roots, excludes, VSS mode and run id. */
  datatype BackupRequest = BackupRequest(
    qualification: bool, runId: string, slot: string, job: JobId, attempt: AttemptId, vssRequired: bool, wellFormed: bool)

  predicate ValidBackup(req: BackupRequest) {
    && req.wellFormed
    && if req.qualification then req.slot == QUALIFICATION_PREFIX + req.runId else !(QUALIFICATION_PREFIX <= req.slot)
  }

  function KindOf(req: BackupRequest): JobKind {
    if req.qualification then JobKind.QualificationBackup else JobKind.Backup
  }

  datatype CommitWeather = CommitWeather(commitFails: bool, retryFails: bool, reportFails: bool, catalogFails: bool)

  /** `engine` is None when the engine returned an error and no outcome. */
  datatype BackupWeather = BackupWeather(
    lookupFails: bool, historyFails: bool, newJob: JobId, newAttempt: AttemptId, beginFails: bool, diskFull: bool, rootsMissing: bool,
    launchFails: bool, engine: Option<BackupResult>, cancelled: bool, commit: CommitWeather)

  datatype BackupReply =
    | Rejected
    | Busy
    | LookupFailed
    | SlotDone(snapshot: string)
    | QualificationDone(outcome: Outcome)
    | NotPersisted
    | NotLaunched
    | Finished(id: AttemptId, result: BackupResult, committed: bool, reported: bool)

  /** Ids the request leaves open: derived from the run id for a qualification, fresh otherwise. */
  function JobFor(req: BackupRequest, weather: BackupWeather): JobId {
    if req.job != "" then req.job else if req.qualification then "qual-job-" + req.runId else weather.newJob
  }

  function AttemptFor(req: BackupRequest, weather: BackupWeather): AttemptId {
    if req.attempt != "" then req.attempt else if req.qualification then "qual-att-" + req.runId else weather.newAttempt
  }

  datatype OutboxEvent = BackupTerminal(attempt: AttemptId,
      result: BackupResult) | CatalogBuild(attempt: AttemptId, snapshot: string)

  datatype RestoreWeather = RestoreWeather(
    lookupFails: bool, historyFails: bool, newJob: JobId, recheckFails: bool, newAttempt: AttemptId, stageRefused: bool, invalid: bool, beginFails: bool,
    stageBroken: bool, engine: EngineRestore, cancelled: bool, stageIntact: bool, manifestWritten: bool, commitFails: bool)

  datatype RestoreAnswer =
    | RestoreRejected
    | RestoreLookupFailed
    | Answered(reply: RestoreReply)
    | RestoreBusy
    | RestoreNotPersisted
    | RestoreFinished(result: RestoreResult, committed: bool)

  /** What the repository answers about one interrupted attempt, and which journal calls fail meanwhile. */
  datatype ReconcileWeather = ReconcileWeather(markFails: bool, recordedReadable: bool, snapshotsFail: bool,
      tagged: Option<string>, commitFails: bool)

  function EvidenceFor(a: Attempt, weather: ReconcileWeather): Evidence {
    if !IsBackupWork(a.kind) then NoSnapshot
    else if a.snapshot != "" && weather.recordedReadable then RecordedSnapshot
    else if weather.tagged.Some? then TaggedSnapshot(weather.tagged.value)
    else NoSnapshot
  }

  /** The verdict a backup comes to once its intent is accepted, by what the disk and the engine showed. */
  function Verdict(vssRequired: bool, weather: BackupWeather): BackupResult {
    if weather.diskFull then FailedBackup(ErrorResourceExhausted)
    else if weather.rootsMissing then FailedBackup(ErrorSourceMissing)
    else FinalBackup(vssRequired, if weather.engine.Some? then weather.engine.value else FailedBackup(ErrorInternal), weather.cancelled)
  }

  function RestoreVerdict(weather: RestoreWeather): RestoreResult {
    if weather.stageBroken then RestoreResult(RestoreFailed, false, "", ErrorPathSafety)
    else FinalRestore(weather.engine, weather.cancelled, weather.stageIntact, weather.manifestWritten)
  }

  /** A full disk is noticed before a missing root, and both before the engine is asked; an engine without an answer failed. */
  lemma VerdictsExactly(vssRequired: bool, weather: BackupWeather)
    ensures
      var res := Verdict(vssRequired, weather);
      && (weather.diskFull || weather.rootsMissing ==> res.outcome == Failed && res.snapshot == "" && !res.publishedNotGreen)
      && (weather.diskFull ==> res.errorClass == ErrorResourceExhausted)
      && (!weather.diskFull && weather.rootsMissing ==> res.errorClass == ErrorSourceMissing)
      && (!weather.diskFull && !weather.rootsMissing && weather.engine.Some? ==>
            res == FinalBackup(vssRequired, weather.engine.value, weather.cancelled))
      && (!weather.diskFull && !weather.rootsMissing && weather.engine.None? ==>
            && res.outcome == (if weather.cancelled then Cancelled else Failed) && res.snapshot == ""
            && res.errorClass == if weather.cancelled then ErrorCancelled else ErrorInternal)
  {
  }

  /** A stage that broke before the engine was called fails the restore without it. */
  lemma RestoreVerdictsExactly(weather: RestoreWeather)
    ensures
      var res := RestoreVerdict(weather);
      && (weather.stageBroken ==>
            res.state == RestoreFailed && res.errorClass == ErrorPathSafety && !res.verifiedByEngine && res.manifest == "")
      && (!weather.stageBroken ==> res == FinalRestore(weather.engine, weather.cancelled, weather.stageIntact, weather.manifestWritten))
  {
  }

  // ---- runs of the transition system ----

  ghost predicate Reached(s0: System, s: System) {
    exists run :: IsPath(s0, run, s)
  }

  ghost predicate IsPath(s0: System, run: seq<Event>, s: System) {
    ValidRun(s0, run) && SparingRun(s0, run) && Run(s0, run) == s
  }

  lemma Stay(s: System)
    ensures Reached(s, s)
  {
    assert IsPath(s, [], s);
  }

  lemma {:induction false} RunAppend(s: System, run: seq<Event>, e: Event)
    requires ValidRun(s, run) && SparingRun(s, run) && Enabled(Run(s, run), e) && Spares(Run(s, run), e)
    ensures IsPath(s, run + [e], Apply(Run(s, run), e))
    decreases |run|
  {
    if run == [] {
      assert run + [e] == [e] && [e][1..] == [];
    } else {
      RunAppend(Apply(s, run[0]), run[1..], e);
      assert (run + [e])[0] == run[0] && (run + [e])[1..] == run[1..] + [e];
    }
  }

  lemma Step(s0: System, s: System, e: Event)
    requires Reached(s0, s) && Enabled(s, e) && Spares(s, e)
    ensures Reached(s0, Apply(s, e))
  {
    var run :| IsPath(s0, run, s);
    RunAppend(s0, run, e);
  }

  lemma ReachedKeepsInv(s0: System, s: System)
    requires Inv(s0) && Reached(s0, s)
    ensures Inv(s)
  {
    var run :| IsPath(s0, run, s);
    RunKeepsInv(s0, run);
  }

  /** A reconciliation on its way, with whatever other threads do beside it. */
  ghost predicate Beside(s0: System, list: seq<Listed>, s: System) {
    exists run :: IsBeside(s0, list, run, s)
  }

  ghost predicate IsBeside(s0: System, list: seq<Listed>, run: seq<Event>, s: System) {
    && Enabled(s0, ReconcileList(list)) && ValidRun(Apply(s0, ReconcileList(list)), run) && Unbroken(run)
    && Run(Apply(s0, ReconcileList(list)), run) == s
  }

  lemma {:induction false} BesideAppend(s: System, run: seq<Event>, e: Event)
    requires ValidRun(s, run) && Enabled(Run(s, run), e)
    ensures ValidRun(s, run + [e]) && Run(s, run + [e]) == Apply(Run(s, run), e)
    decreases |run|
  {
    if run == [] {
      assert run + [e] == [e] && [e][1..] == [];
    } else {
      BesideAppend(Apply(s, run[0]), run[1..], e);
      assert (run + [e])[0] == run[0] && (run + [e])[1..] == run[1..] + [e];
    }
  }

  lemma BesideStarts(s0: System, list: seq<Listed>)
    requires Enabled(s0, ReconcileList(list))
    ensures Beside(s0, list, Apply(s0, ReconcileList(list)))
  {
    assert IsBeside(s0, list, [], Apply(s0, ReconcileList(list)));
  }

  lemma BesideStep(s0: System, list: seq<Listed>, s: System, e: Event)
    requires Beside(s0, list, s) && Enabled(s, e) && !e.ReconcileList? && !e.ReconcileAbandon? && !e.Crash?
    ensures Beside(s0, list, Apply(s, e))
  {
    var run :| IsBeside(s0, list, run, s);
    BesideAppend(Apply(s0, ReconcileList(list)), run, e);
    assert IsBeside(s0, list, run + [e], Apply(s, e));
  }

  lemma BesideKeepsBase(s0: System, list: seq<Listed>, s: System)
    requires Base(s0) && Beside(s0, list, s)
    ensures Base(s)
  {
    var run :| IsBeside(s0, list, run, s);
    StepKeepsBase(s0, ReconcileList(list));
    RunKeepsBase(Apply(s0, ReconcileList(list)), run);
  }

  lemma BesideCloses(s0: System, list: seq<Listed>, s: System)
    requires Beside(s0, list, s) && s.reconciling == []
    ensures forall id :: id in IncompleteAttempts(s.journal) ==> BegunAfterOrInFlight(s0, id)
  {
    var run :| IsBeside(s0, list, run, s);
    ReconcileClosesEverything(s0, list, run);
  }

  lemma {:induction false} UnbrokenSpares(s: System, run: seq<Event>)
    requires ValidRun(s, run) && Unbroken(run)
    ensures SparingRun(s, run)
    decreases |run|
  {
    if run != [] {
      assert run[0] in run && forall e :: e in run[1..] ==> e in run;
      UnbrokenSpares(Apply(s, run[0]), run[1..]);
    }
  }

  /** If the attempt in flight is not listed, this is a run of the system as the other operations know it. */
  lemma BesideIsReached(s0: System, list: seq<Listed>, s: System)
    requires Beside(s0, list, s) && Spares(s0, ReconcileList(list))
    ensures Reached(s0, s)
  {
    var run :| IsBeside(s0, list, run, s);
    UnbrokenSpares(Apply(s0, ReconcileList(list)), run);
    var whole := [ReconcileList(list)] + run;
    assert whole[0] == ReconcileList(list) && whole[1..] == run;
    assert IsPath(s0, whole, s);
  }

  lemma FinishedReconciliation(s0: System, list: seq<Listed>, s: System)
    requires Base(s0) && Beside(s0, list, s) && s.reconciling == []
    ensures Base(s) && forall id :: id in IncompleteAttempts(s.journal) ==> BegunAfterOrInFlight(s0, id)
    ensures Spares(s0, ReconcileList(list)) ==> Reached(s0, s) && (Inv(s0) ==> Inv(s))
  {
    BesideKeepsBase(s0, list, s);
    BesideCloses(s0, list, s);
    if Spares(s0, ReconcileList(list)) {
      BesideIsReached(s0, list, s);
      if Inv(s0) { ReachedKeepsInv(s0, s); }
    }
  }

  lemma AbandonedReconciliation(s0: System, list: seq<Listed>, s: System)
    requires Base(s0) && Beside(s0, list, s) && s.reconciling != []
    ensures Base(s.(reconciling := []))
    ensures Spares(s0, ReconcileList(list)) ==> Reached(s0, s.(reconciling := [])) && (Inv(s0) ==> Inv(s.(reconciling := [])))
  {
    BesideKeepsBase(s0, list, s);
    StepKeepsBase(s, ReconcileAbandon);
    if Spares(s0, ReconcileList(list)) {
      BesideIsReached(s0, list, s);
      Step(s0, s, ReconcileAbandon);
      if Inv(s0) { ReachedKeepsInv(s0, s.(reconciling := [])); }
    }
  }

  /** A step of another thread. */
  predicate ByOthers(e: Event) {
    !ReconcileEvent(e) && !e.Crash?
  }

  lemma OthersKeepList(s: System, e: Event)
    requires ByOthers(e) && Enabled(s, e)
    ensures Apply(s, e).reconciling == s.reconciling
  {
  }

  /** What other threads do before a listed attempt is marked, and before it is resolved. */
  datatype Meanwhile = Meanwhile(beforeMark: seq<Event>, beforeResolve: seq<Event>)

  const NOTHING := Meanwhile([], [])

  lemma FirstIsThere(s: System)
    requires Base(s) && s.reconciling != []
    ensures Committable(s.journal, s.reconciling[0].id) && s.journal.attempts[s.reconciling[0].id].job == s.reconciling[0].attempt.job
  {
    assert ListedRow(s.journal, s.reconciling[0]);
  }

  lemma LatestIsUnique(j: Journal, job: JobId, a: AttemptId, b: AttemptId)
    requires LedgerOk(j) && IsLatest(j, job, a) && IsLatest(j, job, b)
    ensures a == b
  {
    assert a != b ==> PairApart(j.attempts[a], j.attempts[b]);
  }

  /** A nonempty history has a latest attempt: the query that orders by number finds one. */
  lemma {:induction false} LatestAmong(j: Journal, job: JobId, ids: set<AttemptId>)
    requires ids <= j.attempts.Keys && ids != {} && forall id :: id in ids ==> j.attempts[id].job == job
    ensures exists id :: id in ids && forall other :: other in ids ==> j.attempts[other].number <= j.attempts[id].number
    decreases |ids|
  {
    var one :| one in ids;
    var rest := ids - {one};
    if rest == {} {
      assert ids == {one};
    } else {
      LatestAmong(j, job, rest);
      var top :| top in rest && forall other :: other in rest ==> j.attempts[other].number <= j.attempts[top].number;
      var winner := if j.attempts[one].number <= j.attempts[top].number then top else one;
      assert winner in ids && forall other :: other in ids ==> other == one || other in rest;
    }
  }

  lemma LatestExists(j: Journal, job: JobId, some: AttemptId)
    requires some in j.attempts && j.attempts[some].job == job
    ensures exists id :: id in j.attempts && IsLatest(j, job, id)
  {
    var ids := set id | id in j.attempts && j.attempts[id].job == job;
    assert some in ids;
    LatestAmong(j, job, ids);
    var id :| id in ids && forall other :: other in ids ==> j.attempts[other].number <= j.attempts[id].number;
    assert IsLatest(j, job, id);
  }

  /** Only this attempt's row changed, in what a result writes, and only its job's. */
  ghost predicate OnlyOwn(j: Journal, j': Journal, id: AttemptId)
    requires id in j.attempts
  {
    && j'.attempts.Keys == j.attempts.Keys && j'.jobs.Keys == j.jobs.Keys && SameIdentity(j'.attempts[id], j.attempts[id])
    && (forall other :: other in j.attempts && other != id ==> j'.attempts[other] == j.attempts[other])
    && (forall job :: job in j.jobs && job != j.attempts[id].job ==> j'.jobs[job] == j.jobs[job])
  }

  /** A new attempt for this request, under its slot's job if there was one, and nothing else changed. */
  ghost predicate Begun(req: BackupRequest, id: AttemptId, j: Journal, j': Journal) {
    && id !in j.attempts && j'.attempts.Keys == j.attempts.Keys + {id}
    && (req.attempt != "" ==> id == req.attempt)
    && (req.attempt == "" && req.qualification ==> id == "qual-att-" + req.runId)
    && (j'.attempts[id].job !in j.jobs && req.job != "" ==> j'.attempts[id].job == req.job)
    && (j'.attempts[id].job !in j.jobs && req.job == "" && req.qualification ==> j'.attempts[id].job == "qual-job-" + req.runId)
    && (j'.attempts[id].job !in j.jobs ==> j'.attempts[id].number == 1)
    && j'.attempts[id].slot == req.slot
    && j'.attempts[id].kind == (if req.qualification then JobKind.QualificationBackup else JobKind.Backup)
    && (forall other :: other in j.attempts ==> j'.attempts[other] == j.attempts[other])
    && (forall job :: job in j.jobs && job != j'.attempts[id].job ==> job in j'.jobs && j'.jobs[job] == j.jobs[job])
    && (forall job :: job in j.jobs && req.slot != "" && j.jobs[job].slot == req.slot ==> j'.attempts[id].job == job)
  }

  /** A new restore job with one attempt, and nothing else changed. */
  ghost predicate RestoreBegunFor(req: RestoreRequest, id: AttemptId, j: Journal, j': Journal) {
    && id !in j.attempts && req.job !in j.jobs && j'.attempts.Keys == j.attempts.Keys + {id} && j'.jobs.Keys == j.jobs.Keys + {req.job}
    && j'.attempts[id].job == req.job && j'.attempts[id].kind == JobKind.Restore && j'.jobs[req.job].kind == JobKind.Restore
    && (forall other :: other in j.attempts ==> j'.attempts[other] == j.attempts[other])
    && (forall job :: job in j.jobs ==> j'.jobs[job] == j.jobs[job])
  }

  lemma RestoreCommitSays(j: Journal, id: AttemptId, res: RestoreResult)
    requires Committable(j, id)
    ensures
      var j', job := CommitRestore(j, id, res), j.attempts[id].job;
      && OnlyOwn(j, j', id) && j'.jobs[job].kind == j.jobs[job].kind && j'.jobs[job].requestHash == j.jobs[job].requestHash
      && (j'.jobs[job].state == JobSucceeded <==> res.state == Ready)
      && (j'.jobs[job].state == JobCancelled <==> res.state == RestoreCancelled)
      && (j'.jobs[job].state == JobFailed <==> res.state != Ready && res.state != RestoreCancelled)
  {
  }

  /** One more attempt of the slot's job is filed. */
  lemma AgainSays(req: BackupRequest, j: Journal, job: JobId, number: int, weather: BackupWeather)
    requires LedgerOk(j) && job in j.jobs && req.slot != "" && j.jobs[job].slot == req.slot
    requires CanBeginAttempt(j, AttemptFor(req, weather), NewAttempt(job, number, KindOf(req), req.slot))
    ensures
      var id := AttemptFor(req, weather);
      Begun(req, id, j, BeginAttempt(j, id, NewAttempt(job, number, KindOf(req), req.slot)))
  {
    OneJobPerSlot(j, job);
  }

  /** A new job with its first attempt is filed. */
  lemma AnewSays(req: BackupRequest, j: Journal, weather: BackupWeather)
    requires CanBeginJob(j, JobFor(req, weather), Job(KindOf(req), req.slot, JobActive, None), AttemptFor(req, weather))
    ensures
      var id, job := AttemptFor(req, weather), JobFor(req, weather);
      Begun(req, id, j, BeginJob(j, job, Job(KindOf(req), req.slot, JobActive, None), id, NewAttempt(job, 1, KindOf(req), req.slot)))
  {
  }

  lemma RestoreIntentSays(j: Journal, req: RestoreRequest, id: AttemptId)
    requires CanBeginJob(j, req.job, RestoreJob(req), id)
    ensures RestoreBegunFor(req, id, j, BeginJob(j, req.job, RestoreJob(req), id, NewAttempt(req.job, 1, JobKind.Restore, "")))
  {
  }

  lemma CommitReplies(s: System, req: RestoreRequest, id: AttemptId, res: RestoreResult)
    requires Inv(s) && s.op == RestoreCommitting(req, id, res) && Committable(s.journal, id)
    ensures ReplyTo(CommitRestore(s.journal, id, res), req) == Replayed(res)
  {
    CommitDecidesReplies(s, req);
  }

  /** All a committed restore leaves behind. */
  lemma RestoreCommitted(s: System, req: RestoreRequest, id: AttemptId, res: RestoreResult)
    requires Inv(s) && s.op == RestoreCommitting(req, id, res) && Committable(s.journal, id) && s.journal.attempts[id].job == req.job
    ensures
      var j, j' := s.journal, CommitRestore(s.journal, id, res);
      && OnlyOwn(j, j', id) && j'.jobs[req.job].kind == j.jobs[req.job].kind
      && j'.jobs[req.job].requestHash == Some(IdentityHash(req)) && ReplyTo(j', req) == Replayed(res)
      && (j'.jobs[req.job].state == JobSucceeded <==> res.state == Ready)
      && (j'.jobs[req.job].state == JobCancelled <==> res.state == RestoreCancelled)
      && (j'.jobs[req.job].state == JobFailed <==> res.state != Ready && res.state != RestoreCancelled)
  {
    OpenRestoreIsActive(s, req, id, res);
    RestoreCommitSays(s.journal, id, res);
    CommitReplies(s, req, id, res);
  }

  lemma RestoreStays(req: RestoreRequest, id: AttemptId, j: Journal, j': Journal, after: Journal)
    requires RestoreBegunFor(req, id, j, j') && OnlyOwn(j', after, id) && after.jobs[req.job].kind == JobKind.Restore
    ensures RestoreBegunFor(req, id, j, after)
  {
  }

  lemma BegunStays(req: BackupRequest, id: AttemptId, j: Journal, j': Journal, after: Journal)
    requires Begun(req, id, j, j') && OnlyOwn(j', after, id)
    ensures Begun(req, id, j, after)
  {
  }

  predicate NumberIsNew(j: Journal, job: JobId, number: int) {
    forall id :: id in j.attempts && j.attempts[id].job == job ==> j.attempts[id].number < number
  }

  /** Without the history a further attempt is numbered 1 again, which the ledger refuses where that number is taken. */
  predicate FirstNumberTaken(j: Journal, slot: string) {
    slot != "" && exists id :: id in j.attempts && j.attempts[id].slot == slot && j.attempts[id].number == 1
  }

  /** One more than the latest attempt of the slot's job, where its history could be read. */
  ghost predicate NumberedOn(j: Journal, slot: string, historyFails: bool, number: int) {
    forall job, id :: slot != "" && !historyFails && job in j.jobs && j.jobs[job].slot == slot && IsLatest(j, job, id) ==>
      number == j.attempts[id].number + 1
  }

  predicate SlotTaken(j: Journal, slot: string) {
    slot != "" && exists job :: job in j.jobs && j.jobs[job].slot == slot
  }

  /** The caller may leave the job id to the service. */
  function Named(req: RestoreRequest, weather: RestoreWeather): RestoreRequest {
    if req.job == "" then req.(job := weather.newJob) else req
  }

  lemma LatestSummaryOf(j: Journal, job: JobId, id: AttemptId)
    requires LedgerOk(j) && IsLatest(j, job, id)
    ensures LatestSummary(j, job) == j.attempts[id].summary
  {
    forall other | IsLatest(j, job, other) ensures other == id {
      LatestIsUnique(j, job, other, id);
    }
  }

  lemma OneJobPerSlot(j: Journal, job: JobId)
    requires LedgerOk(j) && job in j.jobs && j.jobs[job].slot != ""
    ensures forall other :: other in j.jobs && j.jobs[other].slot == j.jobs[job].slot ==> other == job
  {
    assert JobsOk(j);
  }

  lemma RestoreLocks(s: System, req: RestoreRequest)
    requires s.op.NoOperation? && s.waiting == map[] && s.reconciling == [] && req.job !in s.journal.jobs
    ensures Reached(s, s.(op := RestoreLocked(req)))
  {
    var called := Apply(s, RestoreCall("caller", req));
    Stay(s);
    Step(s, s, RestoreCall("caller", req));
    Step(s, called, RestoreLock("caller"));
    assert called.waiting - {"caller"} == map[];
  }

  lemma OpenRestoreIsActive(s: System, req: RestoreRequest, id: AttemptId, res: RestoreResult)
    requires Inv(s) && s.op == RestoreCommitting(req, id, res)
    ensures Committable(s.journal, id) && s.journal.attempts[id].job == req.job && s.journal.jobs[req.job].state == JobActive
    ensures s.journal.jobs[req.job].requestHash == Some(IdentityHash(req))
  {
    assert KindOk(s, JobKind.Restore) && StateOk(s.journal, s.journal.attempts[id]);
  }

  lemma NotRunYet(s0: System, s: System, req: RestoreRequest, id: AttemptId)
    requires Inv(s0) && Reached(s0, s) && s.op == RestoreBegun(req, id)
    ensures Runs(s, req.job) == 0
  {
    ReachedKeepsInv(s0, s);
  }

  /** Attempts whose work is a backup, ordinary or for qualification. */
  predicate BacksUp(a: Attempt) {
    a.kind == JobKind.Backup || a.kind == JobKind.QualificationBackup
  }

  /**
    How an interrupted attempt is closed: a backup as partial exactly if its recorded snapshot can be read, or
    one with its tag is found, and then with that snapshot; anything else as failed, with what was recorded.
  */
  predicate Resolved(j: Journal, l: Listed, weather: ReconcileWeather) {
    && l.id in j.attempts
    && var a, recorded := j.attempts[l.id], l.attempt.snapshot != "" && weather.recordedReadable;
    && (a.phase == Ended(Partial) || a.phase == Ended(Failed))
    && (a.phase == Ended(Partial) <==> BacksUp(l.attempt) && (recorded || weather.tagged.Some?))
    && a.snapshot == (if BacksUp(l.attempt) && !recorded && weather.tagged.Some? then weather.tagged.value else l.attempt.snapshot)
    && (!BacksUp(l.attempt) || recorded ==> a.errorClass == ErrorInternal)
    && (BacksUp(l.attempt) && !recorded && weather.tagged.None? ==> a.errorClass == ErrorEngineCrash)
    && (BacksUp(l.attempt) && !recorded && weather.tagged.Some? ==> a.errorClass == l.attempt.errorClass)
    && a.summary == l.attempt.summary
  }

  /** The job of a resolved attempt is closed alike. */
  predicate JobFollows(j: Journal, l: Listed) {
    && l.id in j.attempts && l.attempt.job in j.jobs
    && j.jobs[l.attempt.job].state == if j.attempts[l.id].phase == Ended(Partial) then JobPartial else JobFailed
  }

  /** No other listed attempt is of this one's job. */
  predicate OnlyOfJob(list: seq<Listed>, i: nat)
    requires i < |list|
  {
    forall k :: 0 <= k < |list| && k != i ==> list[k].attempt.job != list[i].attempt.job
  }

  /** The columns no update ever writes. */
  predicate SameIdentity(a: Attempt, b: Attempt) {
    a.job == b.job && a.number == b.number && a.kind == b.kind && a.slot == b.slot
  }

  predicate JobsListed(j: Journal, list: seq<Listed>) {
    forall l :: l in list ==> l.id in j.attempts && j.attempts[l.id].job == l.attempt.job
  }

  /** How far a reconciliation came: the first `done` listed attempts are resolved, rows not listed are as they were. */
  ghost predicate Worked(before: Journal, j: Journal, list: seq<Listed>, weather: seq<ReconcileWeather>, done: nat)
    requires done <= |list| == |weather|
  {
    && RowsKept(before, j, list)
    && (forall i :: 0 <= i < done ==> Resolved(j, list[i], weather[i]))
    && (forall i :: 0 <= i < done && OnlyOfJob(list, i) ==> JobFollows(j, list[i]))
  }

  /** Rows that are not listed, and jobs without a listed attempt, are as they were; no attempt became a success. */
  ghost predicate RowsKept(before: Journal, j: Journal, list: seq<Listed>) {
    && j.attempts.Keys == before.attempts.Keys && j.jobs.Keys == before.jobs.Keys && JobsListed(j, list)
    && (forall id :: id in j.attempts && id !in IdsOf(list) ==> j.attempts[id] == before.attempts[id])
    && (forall job :: job in j.jobs && (forall l :: l in list ==> l.attempt.job != job) ==> j.jobs[job] == before.jobs[job])
    && (forall id :: id in j.attempts ==> SameIdentity(j.attempts[id], before.attempts[id]))
    && (forall id :: id in j.attempts && j.attempts[id].phase == Ended(Succeeded) ==> before.attempts[id].phase == Ended(Succeeded))
  }

  /** One row was worked on, with its job, and not made a success. */
  ghost predicate OnlyRow(j: Journal, j': Journal, id: AttemptId) {
    && j'.attempts.Keys == j.attempts.Keys && j'.jobs.Keys == j.jobs.Keys && id in j'.attempts
    && j'.attempts[id].phase != Ended(Succeeded) && SameIdentity(j'.attempts[id], j.attempts[id])
    && (forall other :: other in j.attempts && other != id ==> j'.attempts[other] == j.attempts[other])
    && (forall job :: job in j.jobs && job != j.attempts[id].job ==> j'.jobs[job] == j.jobs[job])
  }

  lemma ResolveClosesRow(j: Journal, rec: Listed, weather: ReconcileWeather)
    requires Committable(j, rec.id) && j.attempts[rec.id].job == rec.attempt.job
    ensures
      var after := Resolve(j, rec, EvidenceFor(rec.attempt, weather));
      OnlyRow(j, after, rec.id) && Resolved(after, rec, weather) && JobFollows(after, rec)
  {
  }

  lemma KeepsRows(before: Journal, j: Journal, j': Journal, list: seq<Listed>, l: Listed)
    requires l in list && RowsKept(before, j, list) && OnlyRow(j, j', l.id)
    ensures RowsKept(before, j', list)
  {
    assert l.id in IdsOf(list);
  }

  lemma StillWorked(before: Journal, j: Journal, j': Journal, list: seq<Listed>, weather: seq<ReconcileWeather>, done: nat)
    requires done < |list| == |weather| && DistinctIds(list) && Worked(before, j, list, weather, done) && OnlyRow(j, j', list[done].id)
    ensures Worked(before, j', list, weather, done)
  {
    KeepsRows(before, j, j', list, list[done]);
    forall i | 0 <= i < done ensures Resolved(j', list[i], weather[i]) && (OnlyOfJob(list, i) ==> JobFollows(j', list[i])) {
      StaysResolved(before, j, j', list, weather, done, i);
    }
  }

  lemma WorkedNext(before: Journal, j: Journal, list: seq<Listed>, weather: seq<ReconcileWeather>, done: nat)
    requires done < |list| == |weather| && Worked(before, j, list, weather, done)
    requires Resolved(j, list[done], weather[done]) && JobFollows(j, list[done])
    ensures Worked(before, j, list, weather, done + 1)
  {
  }

  lemma StaysResolved(before: Journal, j: Journal, j': Journal, list: seq<Listed>, weather: seq<ReconcileWeather>, done: nat, i: nat)
    requires i < done < |list| == |weather| && DistinctIds(list) && Worked(before, j, list, weather, done) && OnlyRow(j, j', list[done].id)
    ensures Resolved(j', list[i], weather[i]) && (OnlyOfJob(list, i) ==> JobFollows(j', list[i]))
  {
    assert list[done] in list && list[i].id != list[done].id && Resolved(j, list[i], weather[i]);
    if OnlyOfJob(list, i) { assert JobFollows(j, list[i]) && list[i].attempt.job != list[done].attempt.job; }
  }

  /** In a sound ledger a job has at most one open attempt, so each is listed alone. */
  lemma ListedAlone(j: Journal, list: seq<Listed>, i: nat)
    requires JournalOk(j) && IsListing(j, list) && i < |list|
    ensures OnlyOfJob(list, i)
  {
    ListedAreOpen(j, list);
    forall k | 0 <= k < |list| && k != i ensures list[k].attempt.job != list[i].attempt.job {
      assert list[i] in list && list[k] in list;
      assert list[i].id != list[k].id;
      assert StatesOk(j, list[i].attempt.kind) && PairStates(j.attempts[list[i].id], j.attempts[list[k].id]);
    }
  }

  lemma JobsFollow(before: Journal, j: Journal, list: seq<Listed>, weather: seq<ReconcileWeather>, done: nat)
    requires IsListing(before, list) && done <= |list| == |weather| && Worked(before, j, list, weather, done)
    ensures JournalOk(before) ==> forall i :: 0 <= i < done ==> JobFollows(j, list[i])
    ensures done == |list| ==> IncompleteAttempts(j) == {}
  {
    forall i | JournalOk(before) && 0 <= i < done ensures JobFollows(j, list[i]) {
      ListedAlone(before, list, i);
    }
    if done == |list| { NoneOpen(before, j, list, weather); }
  }

  predicate StillOpen(j: Journal, list: seq<Listed>) {
    forall l :: l in list ==> l.id in j.attempts && Incomplete(j.attempts[l.id])
  }

  lemma ListedAreOpen(j: Journal, list: seq<Listed>)
    requires IsListing(j, list)
    ensures StillOpen(j, list)
  {
    forall l | l in list ensures Incomplete(j.attempts[l.id]) {
      assert l.id in IdsOf(list);
    }
  }

  lemma OthersStayOpen(j: Journal, j': Journal, list: seq<Listed>)
    requires list != [] && DistinctIds(list) && StillOpen(j, list) && OnlyRow(j, j', list[0].id)
    ensures StillOpen(j', list[1..])
  {
    TailIds(list);
    forall l | l in list[1..] ensures l.id in j'.attempts && Incomplete(j'.attempts[l.id]) {
      assert l in list && l.id in IdsOf(list[1..]);
    }
  }

  /** With nothing beside it: the loop of a reconciliation after `done` of the listed attempts. */
  ghost predicate Progress(s0: System, s: System, list: seq<Listed>, weather: seq<ReconcileWeather>, done: nat)
    requires done <= |list| == |weather|
  {
    && s == s0.(journal := s.journal, reconciling := list[done..])
    && Worked(s0.journal, s.journal, list, weather, done) && StillOpen(s.journal, list[done..])
  }

  lemma ProgressStarts(s0: System, list: seq<Listed>, weather: seq<ReconcileWeather>)
    requires IsListing(s0.journal, list) && |weather| == |list|
    ensures Progress(s0, s0.(reconciling := list), list, weather, 0)
  {
    ListedAreOpen(s0.journal, list);
    assert list[0..] == list;
  }

  lemma ProgressStep(s0: System, s: System, s': System, list: seq<Listed>, weather: seq<ReconcileWeather>, done: nat, resolved: bool)
    requires done < |list| == |weather| && DistinctIds(list)
    requires Progress(s0, s, list, weather, done) && OnlyRow(s.journal, s'.journal, list[done].id)
    requires s' == s.(journal := s'.journal, reconciling := if resolved then s.reconciling[1..] else s.reconciling)
    requires resolved ==> Resolved(s'.journal, list[done], weather[done]) && JobFollows(s'.journal, list[done])
    ensures resolved ==> Progress(s0, s', list, weather, done + 1)
    ensures !resolved ==> Worked(s0.journal, s'.journal, list, weather, done)
  {
    StillWorked(s0.journal, s.journal, s'.journal, list, weather, done);
    if resolved { WorkedNext(s0.journal, s'.journal, list, weather, done); }
    OthersStayOpen(s.journal, s'.journal, list[done..]);
    assert list[done..][1..] == list[done + 1..];
  }

  /** The loop of a reconciliation, with or without others beside it. */
  ghost predicate Looping(s0: System, s: System, list: seq<Listed>, weather: seq<ReconcileWeather>, done: nat, alone: bool)
    requires done <= |list| == |weather|
  {
    s.reconciling == list[done..] && Beside(s0, list, s) && (alone ==> Progress(s0, s, list, weather, done))
  }

  lemma LoopStep(s0: System, s: System, s': System, list: seq<Listed>, weather: seq<ReconcileWeather>, done: nat, alone: bool,
      resolved: bool)
    requires done < |list| == |weather| && DistinctIds(list) && Looping(s0, s, list, weather, done, alone) && Beside(s0, list, s')
    requires s'.reconciling == if resolved then s.reconciling[1..] else s.reconciling
    requires resolved ==> Resolved(s'.journal, list[done], weather[done]) && JobFollows(s'.journal, list[done])
    requires alone ==> OnlyRow(s.journal, s'.journal, list[done].id) && s' == s.(journal := s'.journal, reconciling := s'.reconciling)
    ensures resolved ==> Looping(s0, s', list, weather, done + 1, alone)
    ensures !resolved ==> s'.reconciling == list[done..] && (alone ==> Worked(s0.journal, s'.journal, list, weather, done))
    ensures !resolved && alone && s0.reconciling == [] ==> s'.(reconciling := []) == s0.(journal := s'.journal)
  {
    assert list[done..][1..] == list[done + 1..];
    if alone { ProgressStep(s0, s, s', list, weather, done, resolved); }
  }

  lemma LoopStarts(s0: System, list: seq<Listed>, weather: seq<ReconcileWeather>, alone: bool)
    requires IsListing(s0.journal, list) && |weather| == |list| && Beside(s0, list, s0.(reconciling := list))
    ensures Looping(s0, s0.(reconciling := list), list, weather, 0, alone)
  {
    ProgressStarts(s0, list, weather);
    assert list[0..] == list;
  }

  lemma LoopGoesOn(s0: System, s: System, list: seq<Listed>, weather: seq<ReconcileWeather>, done: nat, alone: bool)
    requires done < |list| == |weather| && Looping(s0, s, list, weather, done, alone)
    ensures Beside(s0, list, s) && s.reconciling != [] && s.reconciling[0] == list[done]
    ensures alone ==> list[done].id in s.journal.attempts && Incomplete(s.journal.attempts[list[done].id])
  {
    assert list[done] in list[done..];
  }

  lemma LoopEnds(s0: System, s: System, list: seq<Listed>, weather: seq<ReconcileWeather>, alone: bool)
    requires |weather| == |list| && s0.reconciling == [] && Looping(s0, s, list, weather, |list|, alone)
    ensures Beside(s0, list, s) && s.reconciling == list[|list|..]
    ensures alone ==> s.(reconciling := []) == s0.(journal := s.journal) && Worked(s0.journal, s.journal, list, weather, |list|)
  {
  }

  lemma NoneOpen(before: Journal, j: Journal, list: seq<Listed>, weather: seq<ReconcileWeather>)
    requires |weather| == |list| && IsListing(before, list) && Worked(before, j, list, weather, |list|)
    ensures IncompleteAttempts(j) == {}
  {
    forall id | id in j.attempts ensures !Incomplete(j.attempts[id]) {
      if id in IdsOf(list) {
        var i :| 0 <= i < |list| && list[i].id == id;
        assert Resolved(j, list[i], weather[i]);
      } else {
        assert id !in IncompleteAttempts(before);
      }
    }
  }

  // ---- the service ----

  class Service {
    var journal: Journal
    var outbox: seq<OutboxEvent>
    var active: bool
    ghost var engineRuns: map<JobId, nat>

    /** The system as it stands between operations. */
    ghost function Sys(): System
      reads this
    {
      System(journal, NoOperation, map[], [], engineRuns)
    }

    ghost predicate Valid()
      reads this
    {
      Inv(Sys())
    }

    constructor (stored: Journal)
      requires JournalOk(stored)
      ensures Valid() && Init(Sys()) && journal == stored && outbox == [] && !active
    {
      journal, outbox, active, engineRuns := stored, [], false, map[];
    }

    method LockOp() returns (ok: bool)
      modifies `active
      ensures ok == !old(active) && active
    {
      if active { return false; }
      active := true;
      return true;
    }

    method UnlockOp()
      modifies `active
      ensures !active
    {
      active := false;
    }

    method JobBySlot(slot: string) returns (found: Option<JobId>)
      ensures found.Some? ==> found.value in journal.jobs && journal.jobs[found.value].slot == slot
      ensures found.None? ==> forall id :: id in journal.jobs ==> journal.jobs[id].slot != slot
    {
      if id :| id in journal.jobs && journal.jobs[id].slot == slot {
        return Some(id);
      }
      return None;
    }

    /** A backup ignores an error of this query and goes on as if there were no attempt. */
    method LatestAttempt(job: JobId, fails: bool) returns (found: Option<Attempt>)
      ensures found.Some? ==> !fails && exists id :: IsLatest(journal, job, id) && journal.attempts[id] == found.value
      ensures found.None? ==> fails || forall id :: id in journal.attempts ==> journal.attempts[id].job != job
    {
      if fails { return None; }
      if id :| id in journal.attempts && IsLatest(journal, job, id) {
        return Some(journal.attempts[id]);
      }
      forall id | id in journal.attempts ensures journal.attempts[id].job != job {
        if journal.attempts[id].job == job { LatestExists(journal, job, id); }
      }
      return None;
    }

    /** `finish`: the durable verdict first, then the reports about it. */
    method Finish(id: AttemptId, res: BackupResult, weather: CommitWeather, ghost s0: System, ghost s: System)
      returns (reply: BackupReply)
      requires Committable(journal, id) && Reached(s0, s) && s == Sys().(op := BackupCommitting(id, res, BackupSummary(res), false))
      requires Incomplete(journal.attempts[id])
      modifies `journal, `outbox
      ensures Reached(s0, Sys())
      ensures reply.Finished? && reply.id == id && reply.committed == !weather.commitFails
      ensures reply.committed ==> reply.result == res && reply.reported == !weather.reportFails
      ensures reply.committed ==> journal == CommitBackup(old(journal), id, res, BackupSummary(res))
      ensures Recorded(reply, old(outbox), weather) && Reported(reply.result, res, reply.committed) && OnlyOwn(old(journal), journal, id)
      ensures !reply.committed && journal != old(journal) ==>
        res.outcome == Succeeded && journal == CommitBackup(old(journal), id, Demoted(res), BackupSummary(res))
      ensures !reply.committed ==> Unrecorded(id, res, weather)
    {
      var summary := BackupSummary(res);
      if !weather.commitFails {
        Step(s0, s, BackupCommit);
        journal := CommitBackup(journal, id, res, summary);
        if weather.reportFails { return Finished(id, res, true, false); }
        outbox := outbox + [BackupTerminal(id, res)];
        if res.outcome == Succeeded && res.snapshot != "" && !weather.catalogFails {
          outbox := outbox + [CatalogBuild(id, res.snapshot)];
        }
        return Finished(id, res, true, true);
      }
      reply := FinishUncommitted(id, res, weather, s0, s);
    }

    /** The commit failed: a success is demoted and committed again as partial, if that works. */
    method FinishUncommitted(id: AttemptId, res: BackupResult, weather: CommitWeather, ghost s0: System,
        ghost s: System)
      returns (reply: BackupReply)
      requires Committable(journal, id) && Reached(s0, s) && s == Sys().(op := BackupCommitting(id, res, BackupSummary(res), false))
      requires Incomplete(journal.attempts[id])
      modifies `journal
      ensures Reached(s0, Sys())
      ensures reply.Finished? && reply.id == id && !reply.committed && !reply.reported && Reported(reply.result, res, false)
      ensures OnlyOwn(old(journal), journal, id)
      ensures journal != old(journal) ==>
        res.outcome == Succeeded && journal == CommitBackup(old(journal), id, Demoted(res), BackupSummary(res))
      ensures Unrecorded(id, res, weather)
    {
      Step(s0, s, BackupCommitError);
      if res.outcome != Succeeded {
        return Finished(id, res.(cleanupOk := false), false, false);
      }
      ghost var retrying := Apply(s, BackupCommitError);
      if weather.retryFails {
        Step(s0, retrying, BackupCommitError);
      } else {
        Step(s0, retrying, BackupCommit);
        journal := CommitBackup(journal, id, Demoted(res), BackupSummary(res));
      }
      return Finished(id, Demoted(res), false, false);
    }

    /** From an accepted intent to the commit. */
    method Execute(id: AttemptId, vssRequired: bool, weather: BackupWeather, ghost s0: System)
      returns (reply: BackupReply)
      requires Committable(journal, id) && Reached(s0, Sys().(op := BackupBegun(id)))
      requires Incomplete(journal.attempts[id])
      modifies `journal, `outbox
      ensures Reached(s0, Sys())
      ensures reply.NotLaunched? || (reply.Finished? && reply.id == id)
      ensures reply.NotLaunched? ==> journal == old(journal) && outbox == old(outbox)
      ensures reply.Finished? ==> Recorded(reply, old(outbox), weather.commit)
      ensures reply.Finished? ==> Reported(reply.result, Verdict(vssRequired, weather), reply.committed)
      ensures reply.Finished? ==> OnlyOwn(old(journal), journal, id)
      ensures reply.Finished? && !reply.committed ==> Unrecorded(id, Verdict(vssRequired, weather), weather.commit)
      ensures reply.NotLaunched? <==> weather.launchFails && !weather.diskFull && !weather.rootsMissing
    {
      ghost var s := Sys().(op := BackupBegun(id));
      if weather.diskFull || weather.rootsMissing {
        var errorClass := if weather.diskFull then ErrorResourceExhausted else ErrorSourceMissing;
        Step(s0, s, BackupStop(errorClass));
        reply := Finish(id, FailedBackup(errorClass), weather.commit, s0, Apply(s, BackupStop(errorClass)));
        return;
      }
      reply := Launch(id, vssRequired, weather, s0);
    }

    /** The phase is recorded, the engine runs, and its answer is judged and committed. */
    method Launch(id: AttemptId, vssRequired: bool, weather: BackupWeather, ghost s0: System)
      returns (reply: BackupReply)
      requires !weather.diskFull && !weather.rootsMissing
      requires Committable(journal, id) && Reached(s0, Sys().(op := BackupBegun(id)))
      requires Incomplete(journal.attempts[id])
      modifies `journal, `outbox
      ensures Reached(s0, Sys())
      ensures reply.NotLaunched? || (reply.Finished? && reply.id == id)
      ensures reply.NotLaunched? ==> journal == old(journal) && outbox == old(outbox)
      ensures reply.Finished? ==> Recorded(reply, old(outbox), weather.commit)
      ensures reply.Finished? ==> Reported(reply.result, Verdict(vssRequired, weather), reply.committed)
      ensures reply.Finished? ==> OnlyOwn(old(journal), journal, id)
      ensures reply.Finished? && !reply.committed ==> Unrecorded(id, Verdict(vssRequired, weather), weather.commit)
      ensures reply.NotLaunched? <==> weather.launchFails
    {
      ghost var s := Sys().(op := BackupBegun(id));
      if weather.launchFails {
        Step(s0, s, GiveUp);
        return NotLaunched;
      }
      Step(s0, s, BackupLaunch);
      journal := UpdateAttempt(journal, id, BackingUp, "", NoError, NoSummary);
      reply := Judge(id, vssRequired, weather, s0);
    }

    /** What the engine answered is judged and committed. */
    method Judge(id: AttemptId, vssRequired: bool, weather: BackupWeather, ghost s0: System)
      returns (reply: BackupReply)
      requires !weather.diskFull && !weather.rootsMissing
      requires Committable(journal, id) && Reached(s0, Sys().(op := BackupRunning(id)))
      requires Incomplete(journal.attempts[id])
      modifies `journal, `outbox
      ensures Reached(s0, Sys())
      ensures reply.Finished? && reply.id == id && Recorded(reply, old(outbox), weather.commit)
      ensures Reported(reply.result, Verdict(vssRequired, weather), reply.committed)
      ensures OnlyOwn(old(journal), journal, id)
      ensures !reply.committed ==> Unrecorded(id, Verdict(vssRequired, weather), weather.commit)
    {
      var engine := if weather.engine.Some? then weather.engine.value else FailedBackup(ErrorInternal);
      ghost var s := Sys().(op := BackupRunning(id));
      ghost var returned := BackupReturn(vssRequired, engine, weather.cancelled);
      Step(s0, s, returned);
      reply := Finish(id, Verdict(vssRequired, weather), weather.commit, s0, Apply(s, returned));
    }

    /**
      What a finished backup leaves behind. A result reported as committed is in the ledger, with its job; a
      success is never reported otherwise; the server is told afterwards, and of the snapshot of a success too.
    */
    ghost predicate Recorded(reply: BackupReply, queued: seq<OutboxEvent>, weather: CommitWeather)
      requires reply.Finished?
      reads this
    {
      var res := reply.result;
      && reply.id in journal.attempts && journal.attempts[reply.id].job in journal.jobs
      && reply.committed == !weather.commitFails && reply.reported == (!weather.commitFails && !weather.reportFails)
      && (res.outcome == Succeeded ==> reply.committed)
      && (reply.committed ==>
            var a, state := journal.attempts[reply.id], journal.jobs[journal.attempts[reply.id].job].state;
            && a.phase == Ended(res.outcome) && a.snapshot == res.snapshot && a.errorClass == res.errorClass
            && a.summary == BackupSummary(res)
            && (res.outcome == Succeeded <==> state == JobSucceeded) && (res.outcome == Partial <==> state == JobPartial)
            && (res.outcome == Cancelled <==> state == JobCancelled) && (res.outcome == Failed <==> state == JobFailed))
      && outbox == queued
           + (if reply.reported then [BackupTerminal(reply.id, res)] else [])
           + (if reply.reported && res.outcome == Succeeded && res.snapshot != "" && !weather.catalogFails
              then [CatalogBuild(reply.id, res.snapshot)] else [])
    }

    /** A verdict whose commit failed: a success is in the ledger as partial if that could be written, any other attempt stays open. */
    predicate Unrecorded(id: AttemptId, verdict: BackupResult, weather: CommitWeather)
      reads this
    {
      && id in journal.attempts && journal.attempts[id].job in journal.jobs
      && if verdict.outcome == Succeeded && !weather.retryFails then
           && journal.attempts[id].phase == Ended(Partial) && journal.attempts[id].errorClass == ErrorInternal
           && journal.attempts[id].snapshot == verdict.snapshot && journal.attempts[id].summary == BackupSummary(verdict)
           && journal.jobs[journal.attempts[id].job].state == JobPartial
         else !journal.attempts[id].phase.Ended?
    }

    /** The result as it is reported: the verdict, and without a commit no success and no clean ending. */
    predicate Reported(res: BackupResult, verdict: BackupResult, committed: bool) {
      res == if committed then verdict
             else if verdict.outcome == Succeeded
             then verdict.(outcome := Partial, publishedNotGreen := true, cleanupOk := false, errorClass := ErrorInternal)
             else verdict.(cleanupOk := false)
    }

    /** The slot already belongs to a job, and its state alone settles the call; its history says the details, if it can be read. */
    ghost predicate SlotSettles(j: Journal, req: BackupRequest, job: JobId, historyFails: bool, reply: BackupReply) {
      job in j.jobs && j.jobs[job].slot == req.slot ==>
        var state := j.jobs[job].state;
        && (reply.QualificationDone? <==> req.qualification && Terminal(state))
        && (reply.SlotDone? <==> !req.qualification && state == JobSucceeded)
        && (reply.Busy? <==> if req.qualification then !Terminal(state) else InProgress(state))
        && (historyFails ==>
              && (reply.QualificationDone? ==> reply.outcome == QualificationReplay(None, state))
              && (reply.SlotDone? ==> reply.snapshot == ""))
        && (forall id :: !historyFails && IsLatest(j, job, id) ==>
              && (reply.QualificationDone? ==> reply.outcome == QualificationReplay(Some(j.attempts[id]), state))
              && (reply.SlotDone? ==> reply.snapshot == j.attempts[id].snapshot))
    }

    method Settled(req: BackupRequest, job: JobId, historyFails: bool) returns (reply: Option<BackupReply>)
      requires LedgerOk(journal) && job in journal.jobs && journal.jobs[job].slot == req.slot != ""
      ensures reply.Some? ==> reply.value.QualificationDone? || reply.value.SlotDone? || reply.value.Busy?
      ensures reply.Some? ==> SlotSettles(journal, req, job, historyFails, reply.value)
      ensures reply.None? <==> Reopens(journal, req.slot, KindOf(req), job)
    {
      var state := journal.jobs[job].state;
      var prev := LatestAttempt(job, historyFails);
      forall a, b | IsLatest(journal, job, a) && IsLatest(journal, job, b) ensures a == b {
        LatestIsUnique(journal, job, a, b);
      }
      if req.qualification {
        return Some(if Terminal(state) then QualificationDone(QualificationReplay(prev, state)) else Busy);
      }
      if state == JobSucceeded { return Some(SlotDone(if prev.Some? then prev.value.snapshot else "")); }
      if InProgress(state) { return Some(Busy); }
      return None;
    }

    method Backup(req: BackupRequest, weather: BackupWeather) returns (reply: BackupReply)
      requires Valid()
      modifies `journal, `outbox, `active
      ensures Valid() && Reached(old(Sys()), Sys()) && active == old(active)
      ensures !reply.Finished? && !reply.NotLaunched? ==> journal == old(journal)
      ensures !reply.Finished? ==> outbox == old(outbox)
      ensures reply.Rejected? <==> !ValidBackup(req)
      ensures ValidBackup(req) && old(active) ==> reply == Busy
      ensures reply.LookupFailed? ==> weather.lookupFails
      ensures reply.SlotDone? || reply.QualificationDone? || (reply.Busy? && !old(active)) ==> SlotTaken(old(journal), req.slot)
      ensures ValidBackup(req) && !old(active) && req.slot != "" ==>
        if weather.lookupFails then reply == LookupFailed
        else forall job :: SlotSettles(old(journal), req, job, weather.historyFails, reply)
      ensures reply.NotPersisted? ==>
        || weather.beginFails || AttemptFor(req, weather) in old(journal).attempts || JobFor(req, weather) in old(journal).jobs
        || (weather.historyFails && FirstNumberTaken(old(journal), req.slot))
      ensures reply.Finished? ==>
        Recorded(reply, old(outbox), weather.commit) && reply.id == AttemptFor(req, weather) && reply.id !in old(journal).attempts
      ensures reply.Finished? ==> Reported(reply.result, Verdict(req.vssRequired, weather), reply.committed)
      ensures reply.Finished? ==> Begun(req, reply.id, old(journal), journal)
      ensures reply.NotLaunched? ==> Begun(req, AttemptFor(req, weather), old(journal), journal)
      ensures reply.Finished? && !reply.committed ==> Unrecorded(reply.id, Verdict(req.vssRequired, weather), weather.commit)
      ensures reply.Finished? || reply.NotLaunched? ==>
        !weather.beginFails && (reply.NotLaunched? <==> weather.launchFails && !weather.diskFull && !weather.rootsMissing)
      ensures reply.Finished? || reply.NotLaunched? ==>
        NumberedOn(old(journal), req.slot, weather.historyFails, journal.attempts[AttemptFor(req, weather)].number)
    {
      Stay(Sys());
      if !ValidBackup(req) { return Rejected; }
      var ok := LockOp();
      if !ok { return Busy; }
      reply := BackupHolding(req, weather);
      UnlockOp();
      ReachedKeepsInv(old(Sys()), Sys());
    }

    method BackupHolding(req: BackupRequest, weather: BackupWeather) returns (reply: BackupReply)
      requires Valid() && ValidBackup(req)
      modifies `journal, `outbox
      ensures Reached(old(Sys()), Sys())
      ensures !reply.Rejected? && (reply.LookupFailed? ==> weather.lookupFails)
      ensures reply.SlotDone? || reply.QualificationDone? || reply.Busy? ==> SlotTaken(journal, req.slot)
      ensures !reply.Finished? && !reply.NotLaunched? ==> journal == old(journal)
      ensures !reply.Finished? ==> outbox == old(outbox)
      ensures req.slot != "" ==>
        if weather.lookupFails then reply == LookupFailed
        else forall job :: SlotSettles(old(journal), req, job, weather.historyFails, reply)
      ensures reply.NotPersisted? ==>
        || weather.beginFails || AttemptFor(req, weather) in old(journal).attempts || JobFor(req, weather) in old(journal).jobs
        || (weather.historyFails && FirstNumberTaken(old(journal), req.slot))
      ensures reply.Finished? ==>
        Recorded(reply, old(outbox), weather.commit) && reply.id == AttemptFor(req, weather) && reply.id !in old(journal).attempts
      ensures reply.Finished? ==> Reported(reply.result, Verdict(req.vssRequired, weather), reply.committed)
      ensures reply.Finished? ==> Begun(req, reply.id, old(journal), journal)
      ensures reply.NotLaunched? ==> Begun(req, AttemptFor(req, weather), old(journal), journal)
      ensures reply.Finished? && !reply.committed ==> Unrecorded(reply.id, Verdict(req.vssRequired, weather), weather.commit)
      ensures reply.Finished? || reply.NotLaunched? ==>
        !weather.beginFails && (reply.NotLaunched? <==> weather.launchFails && !weather.diskFull && !weather.rootsMissing)
      ensures reply.Finished? || reply.NotLaunched? ==>
        NumberedOn(old(journal), req.slot, weather.historyFails, journal.attempts[AttemptFor(req, weather)].number)
    {
      Stay(Sys());
      var existing: Option<JobId> := None;
      var number := 1;
      if req.slot != "" {
        if weather.lookupFails { return LookupFailed; }
        existing := JobBySlot(req.slot);
        if existing.Some? {
          var settled := Settled(req, existing.value, weather.historyFails);
          OneJobPerSlot(journal, existing.value);
          if settled.Some? { return settled.value; }
          var prev := LatestAttempt(existing.value, weather.historyFails);
          if prev.Some? { number := prev.value.number + 1; }
        }
      }
      reply := BackupBegins(req, existing, number, weather);
    }

    method BackupBegins(req: BackupRequest, existing: Option<JobId>, number: int,
        weather: BackupWeather) returns (reply: BackupReply)
      requires Valid() && SlotAllows(journal, req.slot, KindOf(req), existing)
      requires existing.Some? ==> if weather.historyFails then number == 1 else NumberIsNew(journal, existing.value, number)
      requires existing.None? ==> number == 1
      modifies `journal, `outbox
      ensures Reached(old(Sys()), Sys())
      ensures reply.NotPersisted? || reply.NotLaunched? || reply.Finished?
      ensures reply.NotPersisted? ==> journal == old(journal)
      ensures !reply.Finished? ==> outbox == old(outbox)
      ensures reply.NotPersisted? ==>
        || weather.beginFails || AttemptFor(req, weather) in old(journal).attempts || JobFor(req, weather) in old(journal).jobs
        || (weather.historyFails && FirstNumberTaken(old(journal), req.slot))
      ensures reply.Finished? ==>
        Recorded(reply, old(outbox), weather.commit) && reply.id == AttemptFor(req, weather) && reply.id !in old(journal).attempts
      ensures reply.Finished? ==> Reported(reply.result, Verdict(req.vssRequired, weather), reply.committed)
      ensures reply.Finished? ==> Begun(req, reply.id, old(journal), journal)
      ensures reply.NotLaunched? ==> Begun(req, AttemptFor(req, weather), old(journal), journal)
      ensures reply.Finished? && !reply.committed ==> Unrecorded(reply.id, Verdict(req.vssRequired, weather), weather.commit)
      ensures reply.Finished? || reply.NotLaunched? ==>
        !weather.beginFails && (reply.NotLaunched? <==> weather.launchFails && !weather.diskFull && !weather.rootsMissing)
      ensures reply.Finished? || reply.NotLaunched? ==> journal.attempts[AttemptFor(req, weather)].number == number
    {
      ghost var s0 := Sys();
      var filed := FileIntent(req, existing, number, weather);
      if !filed { return NotPersisted; }
      ghost var begun := journal;
      reply := Execute(AttemptFor(req, weather), req.vssRequired, weather, s0);
      if reply.Finished? { BegunStays(req, AttemptFor(req, weather), s0.journal, begun, journal); }
    }

    /** The durable intent: a new job with its first attempt, or one more attempt of the slot's job. */
    method FileIntent(req: BackupRequest, existing: Option<JobId>, number: int, weather: BackupWeather) returns (filed: bool)
      requires Valid() && SlotAllows(journal, req.slot, KindOf(req), existing)
      requires existing.Some? ==> if weather.historyFails then number == 1 else NumberIsNew(journal, existing.value, number)
      requires existing.None? ==> number == 1
      modifies `journal
      ensures
        var id := AttemptFor(req, weather);
        if filed then
          Committable(journal, id) && Reached(old(Sys()), Sys().(op := BackupBegun(id))) && Begun(req, id, old(journal), journal)
        else journal == old(journal) && Reached(old(Sys()), Sys())
      ensures filed ==> journal.attempts[AttemptFor(req, weather)].job == if existing.Some? then existing.value else JobFor(req, weather)
      ensures !filed ==>
        || weather.beginFails || AttemptFor(req, weather) in old(journal).attempts || JobFor(req, weather) in old(journal).jobs
        || (weather.historyFails && FirstNumberTaken(old(journal), req.slot))
      ensures filed ==>
        Incomplete(journal.attempts[AttemptFor(req, weather)]) && journal.attempts[AttemptFor(req, weather)].number == number
      ensures filed ==> !weather.beginFails
    {
      ghost var s0 := Sys();
      var kind, newJob, id := KindOf(req), JobFor(req, weather), AttemptFor(req, weather);
      Stay(s0);
      Step(s0, s0, BackupLock(req.slot, kind, existing));
      ghost var s := Apply(s0, BackupLock(req.slot, kind, existing));
      if existing.Some? {
        var attempt := NewAttempt(existing.value, number, kind, req.slot);
        if weather.beginFails || !CanBeginAttempt(journal, id, attempt) {
          Step(s0, s, GiveUp);
          return false;
        }
        Step(s0, s, BackupBegin(newJob, id, number));
        AgainSays(req, journal, existing.value, number, weather);
        journal := BeginAttempt(journal, id, attempt);
      } else {
        var job := Job(kind, req.slot, JobActive, None);
        if weather.beginFails || !CanBeginJob(journal, newJob, job, id) {
          Step(s0, s, GiveUp);
          return false;
        }
        Step(s0, s, BackupBegin(newJob, id, number));
        AnewSays(req, journal, weather);
        journal := BeginJob(journal, newJob, job, id, NewAttempt(newJob, number, kind, req.slot));
      }
      filed := true;
    }

    /** `restoreIdempotent`: answers from the ledger, nothing else. */
    method RestoreIdempotent(req: RestoreRequest, historyFails: bool) returns (answer: RestoreAnswer)
      requires LedgerOk(journal) && req.job in journal.jobs
      ensures answer == Answered(ReplyTo(journal, req)) || (historyFails && answer == RestoreLookupFailed)
      ensures ReplyTo(journal, req) == Conflict ==> answer == Answered(Conflict)
    {
      var job := journal.jobs[req.job];
      if job.requestHash.Some? && job.requestHash.value != IdentityHash(req) { return Answered(Conflict); }
      if historyFails { return RestoreLookupFailed; }
      var latest := LatestAttempt(req.job, false);
      if latest.Some? {
        ghost var id :| IsLatest(journal, req.job, id) && journal.attempts[id] == latest.value;
        LatestSummaryOf(journal, req.job, id);
      } else {
        assert !exists id :: IsLatest(journal, req.job, id);
      }
      if InProgress(job.state) { return Answered(StillRunning); }
      if latest.Some? && latest.value.summary.RestoreSummary? { return Answered(Replayed(latest.value.summary.restore)); }
      return Answered(Replayed(BareResult(job.state)));
    }

    method Restore(request: RestoreRequest, weather: RestoreWeather) returns (answer: RestoreAnswer)
      requires Valid()
      modifies `journal, `active, `engineRuns
      ensures Valid() && Reached(old(Sys()), Sys()) && active == old(active)
      ensures !answer.RestoreFinished? ==> journal == old(journal) && engineRuns == old(engineRuns)
      ensures
        var req := Named(request, weather);
        if request.stagingRoot == "" || request.snapshot == "" then answer == RestoreRejected
        else if weather.lookupFails then answer == RestoreLookupFailed
        else if req.job in old(journal).jobs then
          answer == Answered(ReplyTo(old(journal), req)) || (weather.historyFails && answer == RestoreLookupFailed)
        else if old(active) then answer == RestoreBusy
        else if weather.recheckFails then answer == RestoreLookupFailed
        else if weather.stageRefused || weather.invalid then answer == RestoreRejected
        else if weather.beginFails || weather.newAttempt in old(journal).attempts then answer == RestoreNotPersisted
        else answer.RestoreFinished? && answer.committed == !weather.commitFails
      ensures answer.RestoreFinished? ==> RestoreBegunFor(Named(request, weather), weather.newAttempt, old(journal), journal)
      ensures answer.RestoreFinished? ==> RestoreRecorded(Named(request, weather), answer)
      ensures answer.RestoreFinished? && answer.committed ==>
        ReplyTo(journal, Named(request, weather)) == Replayed(answer.result) && answer.result == RestoreVerdict(weather)
      ensures answer.RestoreFinished? ==> engineRuns == if weather.stageBroken then old(engineRuns) else old(engineRuns)[Named(request, weather).job := 1]
    {
      Stay(Sys());
      if request.stagingRoot == "" || request.snapshot == "" { return RestoreRejected; }
      var req := Named(request, weather);
      if weather.lookupFails { return RestoreLookupFailed; }
      if req.job in journal.jobs {
        answer := RestoreIdempotent(req, weather.historyFails);
        return;
      }
      var ok := LockOp();
      if !ok { return RestoreBusy; }
      answer := RestoreHolding(req, weather);
      UnlockOp();
      ReachedKeepsInv(old(Sys()), Sys());
    }

    /** What a finished restore leaves behind; only a committed one can be ready. */
    predicate RestoreRecorded(req: RestoreRequest, answer: RestoreAnswer)
      requires answer.RestoreFinished?
      reads this
    {
      && req.job in journal.jobs && journal.jobs[req.job].requestHash == Some(IdentityHash(req))
      && (answer.committed ==>
            var state := journal.jobs[req.job].state;
            && (state == JobSucceeded <==> answer.result.state == Ready)
            && (state == JobCancelled <==> answer.result.state == RestoreCancelled)
            && (state == JobFailed <==> answer.result.state != Ready && answer.result.state != RestoreCancelled))
      && (!answer.committed ==>
            answer.result.state == RestoreFailed && answer.result.errorClass == ErrorInternal && journal.jobs[req.job].state == JobActive)
    }

    /** Under the lock, before anything is durable. */
    method RestoreHolding(req: RestoreRequest, weather: RestoreWeather) returns (answer: RestoreAnswer)
      requires Valid() && req.job !in journal.jobs
      modifies `journal, `engineRuns
      ensures Reached(old(Sys()), Sys())
      ensures
        if weather.recheckFails then answer == RestoreLookupFailed
        else if weather.stageRefused || weather.invalid then answer == RestoreRejected
        else if weather.beginFails || weather.newAttempt in old(journal).attempts then answer == RestoreNotPersisted
        else answer.RestoreFinished? && answer.committed == !weather.commitFails
      ensures !answer.RestoreFinished? ==> journal == old(journal) && engineRuns == old(engineRuns)
      ensures answer.RestoreFinished? ==> RestoreBegunFor(req, weather.newAttempt, old(journal), journal)
      ensures answer.RestoreFinished? ==> RestoreRecorded(req, answer)
      ensures answer.RestoreFinished? && answer.committed ==>
        ReplyTo(journal, req) == Replayed(answer.result) && answer.result == RestoreVerdict(weather)
      ensures answer.RestoreFinished? ==> engineRuns == if weather.stageBroken then old(engineRuns) else old(engineRuns)[req.job := 1]
    {
      ghost var s0 := Sys();
      RestoreLocks(s0, req);
      ghost var s := s0.(op := RestoreLocked(req));
      if weather.recheckFails {
        Step(s0, s, GiveUp);
        return RestoreLookupFailed;
      }
      Step(s0, s, RestoreRecheck);
      s := Apply(s, RestoreRecheck);
      if weather.stageRefused || weather.invalid {
        Step(s0, s, GiveUp);
        return RestoreRejected;
      }
      answer := RestoreFiles(req, weather, s0);
    }

    /** The durable intent, and what follows it. */
    method RestoreFiles(req: RestoreRequest, weather: RestoreWeather, ghost s0: System) returns (answer: RestoreAnswer)
      requires Inv(s0) && s0.journal == journal && s0.engineRuns == engineRuns
      requires req.job !in journal.jobs && Reached(s0, Sys().(op := RestorePrepared(req)))
      modifies `journal, `engineRuns
      ensures Reached(s0, Sys())
      ensures
        if weather.beginFails || weather.newAttempt in old(journal).attempts then answer == RestoreNotPersisted
        else answer.RestoreFinished? && answer.committed == !weather.commitFails
      ensures !answer.RestoreFinished? ==> journal == old(journal) && engineRuns == old(engineRuns)
      ensures answer.RestoreFinished? ==> RestoreBegunFor(req, weather.newAttempt, old(journal), journal)
      ensures answer.RestoreFinished? ==> RestoreRecorded(req, answer)
      ensures answer.RestoreFinished? && answer.committed ==>
        ReplyTo(journal, req) == Replayed(answer.result) && answer.result == RestoreVerdict(weather)
      ensures answer.RestoreFinished? ==> engineRuns == if weather.stageBroken then old(engineRuns) else old(engineRuns)[req.job := 1]
    {
      ghost var s := Sys().(op := RestorePrepared(req));
      var id := weather.newAttempt;
      if weather.beginFails || !CanBeginJob(journal, req.job, RestoreJob(req), id) {
        Step(s0, s, GiveUp);
        return RestoreNotPersisted;
      }
      Step(s0, s, RestoreBegin(id));
      RestoreIntentSays(journal, req, id);
      journal := BeginJob(journal, req.job, RestoreJob(req), id, NewAttempt(req.job, 1, JobKind.Restore, ""));
      ghost var begun := journal;
      answer := RestoreExecute(req, id, weather, s0);
      RestoreStays(req, id, s0.journal, begun, journal);
    }

    /** From an accepted intent to the commit: the one place the engine's Restore is called. */
    method RestoreExecute(req: RestoreRequest, id: AttemptId, weather: RestoreWeather,
        ghost s0: System) returns (answer: RestoreAnswer)
      requires Inv(s0) && Reached(s0, Sys().(op := RestoreBegun(req, id)))
      requires id in journal.attempts && journal.attempts[id].job == req.job && req.job in journal.jobs
      modifies `journal, `engineRuns
      ensures Reached(s0, Sys())
      ensures answer.RestoreFinished? && answer.committed == !weather.commitFails
      ensures id in old(journal).attempts && OnlyOwn(old(journal), journal, id)
      ensures journal.jobs[req.job].kind == old(journal).jobs[req.job].kind
      ensures RestoreRecorded(req, answer)
      ensures answer.committed ==> ReplyTo(journal, req) == Replayed(answer.result) && answer.result == RestoreVerdict(weather)
      ensures engineRuns == if weather.stageBroken then old(engineRuns) else old(engineRuns)[req.job := 1]
    {
      ghost var s := Sys().(op := RestoreBegun(req, id));
      if weather.stageBroken {
        Step(s0, s, RestoreStop);
        answer := FinishRestore(req, id, RestoreResult(RestoreFailed, false, "", ErrorPathSafety), weather.commitFails, s0, Apply(s, RestoreStop));
        return;
      }
      answer := RestoreLaunches(req, id, weather, s0);
    }

    /** The engine is called. */
    method RestoreLaunches(req: RestoreRequest, id: AttemptId, weather: RestoreWeather,
        ghost s0: System) returns (answer: RestoreAnswer)
      requires !weather.stageBroken && Inv(s0) && Reached(s0, Sys().(op := RestoreBegun(req, id)))
      requires id in journal.attempts && journal.attempts[id].job == req.job && req.job in journal.jobs
      modifies `journal, `engineRuns
      ensures Reached(s0, Sys())
      ensures answer.RestoreFinished? && answer.committed == !weather.commitFails
      ensures id in old(journal).attempts && OnlyOwn(old(journal), journal, id)
      ensures journal.jobs[req.job].kind == old(journal).jobs[req.job].kind
      ensures RestoreRecorded(req, answer)
      ensures answer.committed ==> ReplyTo(journal, req) == Replayed(answer.result) && answer.result == RestoreVerdict(weather)
      ensures engineRuns == old(engineRuns)[req.job := 1]
    {
      ghost var s := Sys().(op := RestoreBegun(req, id));
      NotRunYet(s0, s, req, id);
      Step(s0, s, RestoreLaunch);
      engineRuns := Apply(s, RestoreLaunch).engineRuns;
      answer := RestoreReturns(req, id, weather, s0);
    }

    /** What the engine answered is judged and committed. */
    method RestoreReturns(req: RestoreRequest, id: AttemptId, weather: RestoreWeather,
        ghost s0: System) returns (answer: RestoreAnswer)
      requires !weather.stageBroken && Inv(s0) && Reached(s0, Sys().(op := RestoreRunning(req, id)))
      requires id in journal.attempts && journal.attempts[id].job == req.job && req.job in journal.jobs
      modifies `journal
      ensures Reached(s0, Sys())
      ensures answer.RestoreFinished? && answer.committed == !weather.commitFails
      ensures id in old(journal).attempts && OnlyOwn(old(journal), journal, id)
      ensures journal.jobs[req.job].kind == old(journal).jobs[req.job].kind
      ensures RestoreRecorded(req, answer)
      ensures answer.committed ==> ReplyTo(journal, req) == Replayed(answer.result) && answer.result == RestoreVerdict(weather)
    {
      ghost var s := Sys().(op := RestoreRunning(req, id));
      ghost var returned := RestoreReturn(weather.engine, weather.cancelled, weather.stageIntact, weather.manifestWritten);
      Step(s0, s, returned);
      answer := FinishRestore(req, id, RestoreVerdict(weather), weather.commitFails, s0, Apply(s, returned));
    }

    method FinishRestore(req: RestoreRequest, id: AttemptId, res: RestoreResult, commitFails: bool,
        ghost s0: System, ghost s: System)
      returns (answer: RestoreAnswer)
      requires Inv(s0) && Reached(s0, s) && s == Sys().(op := RestoreCommitting(req, id, res))
      requires id in journal.attempts && journal.attempts[id].job == req.job && req.job in journal.jobs
      modifies `journal
      ensures Reached(s0, Sys())
      ensures answer.RestoreFinished? && answer.committed == !commitFails && (answer.committed ==> answer.result == res)
      ensures id in old(journal).attempts && OnlyOwn(old(journal), journal, id)
      ensures journal.jobs[req.job].kind == old(journal).jobs[req.job].kind
      ensures RestoreRecorded(req, answer)
      ensures answer.committed ==> ReplyTo(journal, req) == Replayed(answer.result)
    {
      ReachedKeepsInv(s0, s);
      if commitFails {
        OpenRestoreIsActive(s, req, id, res);
        Step(s0, s, RestoreCommitError);
        return RestoreFinished(res.(state := RestoreFailed, errorClass := ErrorInternal), false);
      }
      Step(s0, s, RestoreCommit);
      RestoreCommitted(s, req, id, res);
      journal := CommitRestore(journal, id, res);
      return RestoreFinished(res, true);
    }

    /**
      `list` is what the journal answered to `IncompleteAttempts`, `s0` the system at that moment, with
      whatever operation another thread had in flight, and `beside` what other threads do between the steps
      of the loop. Without an error no attempt is open any more but those begun meanwhile and the one in
      flight at the start; with nothing beside it, every listed attempt is closed, none as a success, and
      nothing else in the ledger is touched.
    */
    method Reconcile(list: seq<Listed>, weather: seq<ReconcileWeather>, beside: seq<Meanwhile>,
        s0: System) returns (ok: bool, done: nat, s: System)
      requires Base(s0) && s0.journal == journal && s0.reconciling == [] && IsListing(journal, list)
      requires |weather| == |list| == |beside|
      modifies `journal
      ensures s.journal == journal && s.reconciling == [] && Base(s) && done <= |list| && (ok <==> done == |list|)
      ensures ok ==> Beside(s0, list, s)
      ensures !ok ==> exists last :: Beside(s0, list, last) && last.reconciling == list[done..] && s == last.(reconciling := [])
      ensures ok ==> forall id :: id in IncompleteAttempts(journal) ==> BegunAfterOrInFlight(s0, id)
      ensures Spares(s0, ReconcileList(list)) ==> Reached(s0, s) && (Inv(s0) ==> Inv(s))
      ensures (forall m :: m in beside ==> m == NOTHING) ==>
        && s == s0.(journal := journal) && Worked(old(journal), journal, list, weather, done)
        && (ok ==> IncompleteAttempts(journal) == {})
        && (JournalOk(old(journal)) ==> forall i :: 0 <= i < done ==> JobFollows(journal, list[i]))
    {
      BesideStarts(s0, list);
      ghost var alone := forall m :: m in beside ==> m == NOTHING;
      LoopStarts(s0, list, weather, alone);
      ok, done, s := ResolveListed(list, weather, beside, s0, alone);
      if ok {
        FinishedReconciliation(s0, list, s);
      } else {
        AbandonedReconciliation(s0, list, s);
        s := Apply(s, ReconcileAbandon);
      }
      if alone { JobsFollow(s0.journal, journal, list, weather, done); }
    }

    /** The loop over what was listed. */
    method ResolveListed(list: seq<Listed>, weather: seq<ReconcileWeather>, beside: seq<Meanwhile>, s0: System,
        ghost alone: bool) returns (ok: bool, done: nat, s: System)
      requires Base(s0) && s0.journal == journal && s0.reconciling == [] && DistinctIds(list) && |weather| == |list| == |beside|
      requires Looping(s0, s0.(reconciling := list), list, weather, 0, alone) && (alone ==> forall m :: m in beside ==> m == NOTHING)
      modifies `journal
      ensures Beside(s0, list, s) && s.journal == journal
      ensures done <= |list| && s.reconciling == list[done..] && (ok <==> done == |list|)
      ensures alone ==> s.(reconciling := []) == s0.(journal := journal) && Worked(s0.journal, journal, list, weather, done)
    {
      done, s := 0, s0.(reconciling := list);
      while done < |list|
        invariant done <= |list| && s.journal == journal && Looping(s0, s, list, weather, done, alone)
      {
        ghost var before := s;
        LoopGoesOn(s0, s, list, weather, done, alone);
        assert beside[done] in beside;
        var resolved;
        resolved, s := ReconcileOne(list[done], weather[done], beside[done], s, s0, list);
        LoopStep(s0, before, s, list, weather, done, alone, resolved);
        if !resolved { return false, done, s; }
        done := done + 1;
      }
      LoopEnds(s0, s, list, weather, alone);
      ok := true;
    }

    method ReconcileOne(rec: Listed, weather: ReconcileWeather, beside: Meanwhile, s: System, ghost s0: System,
        ghost list: seq<Listed>) returns (resolved: bool, s': System)
      requires Base(s0) && Beside(s0, list, s) && s.journal == journal && s.reconciling != [] && s.reconciling[0] == rec
      modifies `journal
      ensures Beside(s0, list, s') && s'.journal == journal
      ensures s'.reconciling == if resolved then s.reconciling[1..] else s.reconciling
      ensures resolved ==> Resolved(journal, rec, weather) && JobFollows(journal, rec)
      ensures beside == NOTHING && rec.id in old(journal).attempts && Incomplete(old(journal).attempts[rec.id]) ==>
        OnlyRow(old(journal), journal, rec.id) && s' == s.(journal := journal, reconciling := s'.reconciling)
    {
      s' := OtherThreads(s, beside.beforeMark, s0, list);
      var goOn := true;
      if IsBackupWork(rec.attempt.kind) {
        goOn, s' := MarkReconciling(rec, weather, s', s0, list);
      }
      s' := OtherThreads(s', beside.beforeResolve, s0, list);
      if !goOn || weather.commitFails { return false, s'; }
      BesideKeepsBase(s0, list, s');
      FirstIsThere(s');
      var evidence := EvidenceFor(rec.attempt, weather);
      BesideStep(s0, list, s', ReconcileResolve(evidence));
      ResolveClosesRow(journal, rec, weather);
      journal := Resolve(journal, rec, evidence);
      return true, Apply(s', ReconcileResolve(evidence));
    }

    /** The attempt is marked, and the repository asked about it. */
    method MarkReconciling(rec: Listed, weather: ReconcileWeather, s: System, ghost s0: System,
        ghost list: seq<Listed>) returns (goOn: bool, s': System)
      requires Base(s0) && Beside(s0, list, s) && s.journal == journal && s.reconciling != [] && s.reconciling[0] == rec
      requires IsBackupWork(rec.attempt.kind)
      modifies `journal
      ensures Beside(s0, list, s') && s' == s.(journal := journal) && rec.id in old(journal).attempts
      ensures Incomplete(old(journal).attempts[rec.id]) ==> OnlyRow(old(journal), journal, rec.id) && Incomplete(journal.attempts[rec.id])
    {
      BesideKeepsBase(s0, list, s);
      FirstIsThere(s);
      if weather.markFails { return false, s; }
      BesideStep(s0, list, s, ReconcileMark);
      journal := UpdateAttempt(journal, rec.id, Reconciling, rec.attempt.snapshot, rec.attempt.errorClass, rec.attempt.summary);
      s' := s.(journal := journal);
      goOn := (rec.attempt.snapshot != "" && weather.recordedReadable) || !weather.snapshotsFail;
    }

    /** Other threads take these steps, as far as they can. */
    method OtherThreads(s: System, steps: seq<Event>, ghost s0: System, ghost list: seq<Listed>) returns (s': System)
      requires Beside(s0, list, s) && s.journal == journal
      modifies `journal
      ensures Beside(s0, list, s') && s'.journal == journal && s'.reconciling == s.reconciling
      ensures steps == [] ==> s' == s
    {
      s' := s;
      for i := 0 to |steps|
        invariant Beside(s0, list, s') && s'.journal == journal && s'.reconciling == s.reconciling
        invariant i == 0 ==> s' == s
      {
        if ByOthers(steps[i]) && Enabled(s', steps[i]) {
          BesideStep(s0, list, s', steps[i]);
          OthersKeepList(s', steps[i]);
          s' := Apply(s', steps[i]);
          journal := s'.journal;
        }
      }
    }
  }
}
