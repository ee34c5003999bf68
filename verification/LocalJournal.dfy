/**
  The agent's durable ledger of jobs and attempts (agent/internal/adapters/journal/sqlite.go)
  and the values kept in it. Each call is one SQL transaction: it happens whole or not at all.
*/
module LocalJournal {
  import opened Options
  import Ordering

  type JobId = string
  type AttemptId = string

  datatype JobKind = Backup | QualificationBackup | Restore | OtherWork

  datatype JobState =
    | JobQueued | JobActive | JobBackoff | JobReconciling
    | JobSucceeded | JobPartial | JobFailed | JobCancelled | JobExpired

  datatype Outcome = Succeeded | Partial | Failed | Cancelled

  /** An attempt's phase; the terminal phases are its outcome. */
  datatype Phase = Preparing | BackingUp | Reconciling | Ended(outcome: Outcome)

  datatype ErrorClass = NoError | ErrorInternal | ErrorIntegrity | ErrorConfig | ErrorPathSafety | ErrorCancelled
    | ErrorConsistencyNotMet | ErrorEngineCrash | ErrorSourceMissing | ErrorResourceExhausted

  datatype BackupResult = BackupResult(
    outcome: Outcome,
    exitKnown: bool,
    snapshot: string,
    readbackOk: bool,
    consistencyVerified: bool,
    summarySeen: bool,
    publishedNotGreen: bool,
    cleanupOk: bool,
    errorClass: ErrorClass)

  datatype RestoreState = Restoring | Verifying | Ready | RestoreFailed | RestoreCancelled

  datatype RestoreResult = RestoreResult(state: RestoreState, verifiedByEngine: bool, manifest: string,
      errorClass: ErrorClass)

  datatype Summary = NoSummary | BackupSummary(backup: BackupResult) | RestoreSummary(restore: RestoreResult)

  datatype RestoreRequest = RestoreRequest(
    job: JobId,
    repository: string,
    snapshot: string,
    selections: seq<string>,
    stagingRoot: string,
    conflictMode: string)

  /** What the request hash is taken over: everything that says what is restored, the selections sorted. */
  datatype Identity = Identity(repository: string, snapshot: string, selections: seq<string>,
      stagingRoot: string, conflictMode: string)

  /** SHA-256 over the JSON of the identity, taken as injective. */
  function IdentityHash(r: RestoreRequest): Identity {
    Identity(r.repository, r.snapshot, Ordering.Sort(r.selections), r.stagingRoot, r.conflictMode)
  }

  /** The same restore: equal in everything, the selections in any order. */
  ghost predicate SameRestore(a: RestoreRequest, b: RestoreRequest) {
    && a.repository == b.repository && a.snapshot == b.snapshot && a.stagingRoot == b.stagingRoot && a.conflictMode == b.conflictMode
    && multiset(a.selections) == multiset(b.selections)
  }

  lemma SameRestoreSameHash(a: RestoreRequest, b: RestoreRequest)
    ensures IdentityHash(a) == IdentityHash(b) <==> SameRestore(a, b)
  {
    Ordering.SortIsCanonical(a.selections, b.selections);
  }

  /** `requestHash` is None for jobs that are not restores, and for restores of a build that kept none. */
  datatype Job = Job(kind: JobKind, slot: string, state: JobState, requestHash: Option<Identity>)

  datatype Attempt = Attempt(
    job: JobId,
    number: int,
    kind: JobKind,
    slot: string,
    phase: Phase,
    snapshot: string,
    errorClass: ErrorClass,
    summary: Summary)

  datatype Journal = Journal(jobs: map<JobId, Job>, attempts: map<AttemptId, Attempt>)

  predicate Terminal(state: JobState) {
    state == JobSucceeded || state == JobPartial || state == JobFailed || state == JobCancelled || state == JobExpired
  }

  predicate InProgress(state: JobState) {
    state == JobActive || state == JobReconciling
  }

  predicate IsBackupWork(kind: JobKind) {
    kind == Backup || kind == QualificationBackup
  }

  predicate Incomplete(a: Attempt) {
    !a.phase.Ended?
  }

  function IncompleteAttempts(j: Journal): set<AttemptId> {
    set id | id in j.attempts && Incomplete(j.attempts[id])
  }

  predicate IsLatest(j: Journal, job: JobId, id: AttemptId) {
    && id in j.attempts && j.attempts[id].job == job
    && forall other :: other in j.attempts && j.attempts[other].job == job ==> j.attempts[other].number <= j.attempts[id].number
  }

  // ---- the journal's transactions, guarded by its keys ----

  /** Primary keys, and the unique slot column (an empty slot is stored as NULL). */
  predicate CanBeginJob(j: Journal, jobId: JobId, job: Job, id: AttemptId) {
    && jobId !in j.jobs && id !in j.attempts
    && (job.slot == "" || forall other :: other in j.jobs ==> j.jobs[other].slot != job.slot)
  }

  function BeginJob(j: Journal, jobId: JobId, job: Job, id: AttemptId, attempt: Attempt): Journal {
    Journal(j.jobs[jobId := job], j.attempts[id := attempt])
  }

  /** The primary key, the foreign key, and UNIQUE(job_id, attempt_no). */
  predicate CanBeginAttempt(j: Journal, id: AttemptId, attempt: Attempt) {
    && id !in j.attempts && attempt.job in j.jobs
    && forall other :: other in j.attempts && j.attempts[other].job == attempt.job ==> j.attempts[other].number != attempt.number
  }

  function BeginAttempt(j: Journal, id: AttemptId, attempt: Attempt): Journal
    requires attempt.job in j.jobs
  {
    Journal(j.jobs[attempt.job := j.jobs[attempt.job].(state := JobActive)], j.attempts[id := attempt])
  }

  /** Rewrites the result columns of a row; its identity columns stay. */
  function UpdateAttempt(j: Journal, id: AttemptId, phase: Phase, snapshot: string, errorClass: ErrorClass,
      summary: Summary): Journal
    requires id in j.attempts
  {
    j.(attempts := j.attempts[id := j.attempts[id].(phase := phase, snapshot := snapshot, errorClass := errorClass, summary := summary)])
  }

  function CompleteAttempt(j: Journal, id: AttemptId, outcome: Outcome, snapshot: string,
      errorClass: ErrorClass, summary: Summary, state: JobState): Journal
    requires id in j.attempts && j.attempts[id].job in j.jobs
  {
    var job := j.attempts[id].job;
    UpdateAttempt(j, id, Ended(outcome), snapshot, errorClass, summary).(jobs := j.jobs[job := j.jobs[job].(state := state)])
  }

  // ---- what the ledger keeps ----

  const QUALIFICATION_PREFIX := "qualification|"

  /** Only backups have slots, and qualification backups have the ones with their prefix. */
  predicate SlotFits(kind: JobKind, slot: string) {
    (slot != "" ==> IsBackupWork(kind)) && (kind == QualificationBackup <==> QUALIFICATION_PREFIX <= slot)
  }

  /** An attempt fits its job. */
  predicate Linked(j: Journal, a: Attempt) {
    a.job in j.jobs && a.kind == j.jobs[a.job].kind && a.slot == j.jobs[a.job].slot
  }

  predicate StateOk(j: Journal, a: Attempt) {
    && a.job in j.jobs
    && (Incomplete(a) ==> j.jobs[a.job].state == JobActive)
    && (a.phase == Ended(Succeeded) ==> j.jobs[a.job].state == JobSucceeded)
  }

  /** Attempts of one job are numbered apart; a restore, and a qualification, has only one. */
  predicate PairApart(a: Attempt, b: Attempt) {
    a.job == b.job ==> a.number != b.number && a.kind != Restore && a.kind != QualificationBackup
  }

  /** Of the attempts of one job at most one is incomplete, and at most one succeeded. */
  predicate PairStates(a: Attempt, b: Attempt) {
    a.job == b.job ==> !(Incomplete(a) && Incomplete(b)) && !(a.phase == Ended(Succeeded) && b.phase == Ended(Succeeded))
  }

  ghost predicate JobsOk(j: Journal) {
    && (forall a, b :: a in j.jobs && b in j.jobs && a != b && j.jobs[a].slot != "" ==> j.jobs[a].slot != j.jobs[b].slot)
    && (forall id :: id in j.jobs ==> SlotFits(j.jobs[id].kind, j.jobs[id].slot))
  }

  /** What holds of the ledger whatever overlaps. */
  ghost predicate LedgerOk(j: Journal) {
    && JobsOk(j)
    && (forall id :: id in j.attempts ==> Linked(j, j.attempts[id]))
    && (forall a, b :: a in j.attempts && b in j.attempts && a != b ==> PairApart(j.attempts[a], j.attempts[b]))
  }

  /** Jobs and attempts of one kind are in step. */
  ghost predicate StatesOk(j: Journal, kind: JobKind) {
    && (forall id :: id in j.attempts && j.attempts[id].kind == kind ==> StateOk(j, j.attempts[id]))
    && (forall a, b :: a in j.attempts && b in j.attempts && a != b && j.attempts[a].kind == kind ==>
          PairStates(j.attempts[a], j.attempts[b]))
  }

  ghost predicate JournalOk(j: Journal) {
    LedgerOk(j) && forall kind: JobKind :: StatesOk(j, kind)
  }

  lemma BeginJobKeepsLedger(j: Journal, jobId: JobId, job: Job, id: AttemptId, attempt: Attempt)
    requires LedgerOk(j) && CanBeginJob(j, jobId, job, id) && SlotFits(job.kind, job.slot)
    requires attempt.job == jobId && attempt.kind == job.kind && attempt.slot == job.slot
    ensures LedgerOk(BeginJob(j, jobId, job, id, attempt))
  {
    var after := BeginJob(j, jobId, job, id, attempt);
    forall a | a in after.attempts ensures Linked(after, after.attempts[a]) {
      assert a != id ==> Linked(j, j.attempts[a]);
    }
    forall a, b | a in after.attempts && b in after.attempts && a != b ensures PairApart(after.attempts[a], after.attempts[b]) {
      assert a != id ==> Linked(j, j.attempts[a]);
      assert b != id ==> Linked(j, j.attempts[b]);
      assert a != id && b != id ==> PairApart(j.attempts[a], j.attempts[b]);
    }
  }

  lemma BeginJobKeepsStates(j: Journal, jobId: JobId, job: Job, id: AttemptId, attempt: Attempt, kind: JobKind)
    requires LedgerOk(j) && StatesOk(j, kind) && CanBeginJob(j, jobId, job, id)
    requires job.state == JobActive && attempt.job == jobId && Incomplete(attempt)
    ensures StatesOk(BeginJob(j, jobId, job, id, attempt), kind)
  {
    var after := BeginJob(j, jobId, job, id, attempt);
    forall a | a in after.attempts && after.attempts[a].kind == kind ensures StateOk(after, after.attempts[a]) {
      assert a != id ==> StateOk(j, j.attempts[a]);
    }
    forall a, b | a in after.attempts && b in after.attempts && a != b && after.attempts[a].kind == kind
      ensures PairStates(after.attempts[a], after.attempts[b])
    {
      assert a != id ==> Linked(j, j.attempts[a]);
      assert b != id ==> Linked(j, j.attempts[b]);
      assert a != id && b != id ==> PairStates(j.attempts[a], j.attempts[b]);
    }
  }

  lemma BeginAttemptKeepsLedger(j: Journal, id: AttemptId, attempt: Attempt)
    requires LedgerOk(j) && CanBeginAttempt(j, id, attempt)
    requires attempt.kind == j.jobs[attempt.job].kind == Backup && attempt.slot == j.jobs[attempt.job].slot
    ensures LedgerOk(BeginAttempt(j, id, attempt))
  {
    var after := BeginAttempt(j, id, attempt);
    forall a | a in after.attempts ensures Linked(after, after.attempts[a]) {
      assert a != id ==> Linked(j, j.attempts[a]);
    }
    forall a, b | a in after.attempts && b in after.attempts && a != b ensures PairApart(after.attempts[a], after.attempts[b]) {
      assert a != id ==> Linked(j, j.attempts[a]);
      assert a != id && b != id ==> PairApart(j.attempts[a], j.attempts[b]);
    }
  }

  lemma BeginAttemptKeepsStates(j: Journal, id: AttemptId, attempt: Attempt, kind: JobKind)
    requires LedgerOk(j) && StatesOk(j, kind) && CanBeginAttempt(j, id, attempt)
    requires attempt.kind == j.jobs[attempt.job].kind && Incomplete(attempt)
    requires attempt.kind == kind ==> j.jobs[attempt.job].state != JobActive && j.jobs[attempt.job].state != JobSucceeded
    ensures StatesOk(BeginAttempt(j, id, attempt), kind)
  {
    var after := BeginAttempt(j, id, attempt);
    forall a | a in after.attempts && after.attempts[a].kind == kind ensures StateOk(after, after.attempts[a]) {
      assert a != id ==> Linked(j, j.attempts[a]) && StateOk(j, j.attempts[a]);
    }
    forall a, b | a in after.attempts && b in after.attempts && a != b && after.attempts[a].kind == kind
      ensures PairStates(after.attempts[a], after.attempts[b])
    {
      assert a != id ==> Linked(j, j.attempts[a]) && StateOk(j, j.attempts[a]);
      assert b != id ==> Linked(j, j.attempts[b]) && (j.attempts[b].kind == kind ==> StateOk(j, j.attempts[b]));
      assert a != id && b != id ==> PairStates(j.attempts[a], j.attempts[b]);
    }
  }

  lemma UpdateKeepsLedger(j: Journal, id: AttemptId, phase: Phase, snapshot: string, errorClass: ErrorClass, summary: Summary)
    requires LedgerOk(j) && id in j.attempts
    ensures LedgerOk(UpdateAttempt(j, id, phase, snapshot, errorClass, summary))
  {
    var after := UpdateAttempt(j, id, phase, snapshot, errorClass, summary);
    forall a | a in after.attempts ensures Linked(after, after.attempts[a]) { assert Linked(j, j.attempts[a]); }
    forall a, b | a in after.attempts && b in after.attempts && a != b ensures PairApart(after.attempts[a], after.attempts[b]) {
      assert PairApart(j.attempts[a], j.attempts[b]);
    }
  }

  lemma UpdateKeepsStates(j: Journal, id: AttemptId, phase: Phase, snapshot: string, errorClass: ErrorClass, summary: Summary,
      kind: JobKind)
    requires LedgerOk(j) && StatesOk(j, kind) && id in j.attempts
    requires j.attempts[id].kind == kind ==> Incomplete(j.attempts[id]) && !phase.Ended?
    ensures StatesOk(UpdateAttempt(j, id, phase, snapshot, errorClass, summary), kind)
  {
    var after := UpdateAttempt(j, id, phase, snapshot, errorClass, summary);
    forall a | a in after.attempts && after.attempts[a].kind == kind ensures StateOk(after, after.attempts[a]) {
      assert StateOk(j, j.attempts[a]);
    }
    forall a, b | a in after.attempts && b in after.attempts && a != b && after.attempts[a].kind == kind
      ensures PairStates(after.attempts[a], after.attempts[b])
    {
      assert PairStates(j.attempts[a], j.attempts[b]);
      assert Linked(j, j.attempts[a]) && Linked(j, j.attempts[b]);
    }
  }

  lemma CompleteKeepsLedger(j: Journal, id: AttemptId, outcome: Outcome, snapshot: string, errorClass: ErrorClass, summary: Summary,
      state: JobState)
    requires LedgerOk(j) && id in j.attempts && j.attempts[id].job in j.jobs
    ensures LedgerOk(CompleteAttempt(j, id, outcome, snapshot, errorClass, summary, state))
  {
    var after := CompleteAttempt(j, id, outcome, snapshot, errorClass, summary, state);
    forall a | a in after.attempts ensures Linked(after, after.attempts[a]) { assert Linked(j, j.attempts[a]); }
    forall a, b | a in after.attempts && b in after.attempts && a != b ensures PairApart(after.attempts[a], after.attempts[b]) {
      assert PairApart(j.attempts[a], j.attempts[b]);
    }
  }

  /** Closing an open attempt with its job keeps its kind in step, and never touches another kind. */
  lemma CompleteKeepsStates(j: Journal, id: AttemptId, outcome: Outcome, snapshot: string, errorClass: ErrorClass, summary: Summary,
      state: JobState, kind: JobKind)
    requires LedgerOk(j) && StatesOk(j, kind) && id in j.attempts && j.attempts[id].job in j.jobs
    requires j.attempts[id].kind == kind ==> Incomplete(j.attempts[id]) && (outcome == Succeeded ==> state == JobSucceeded)
    ensures StatesOk(CompleteAttempt(j, id, outcome, snapshot, errorClass, summary, state), kind)
  {
    var after := CompleteAttempt(j, id, outcome, snapshot, errorClass, summary, state);
    assert Linked(j, j.attempts[id]) && (j.attempts[id].kind == kind ==> StateOk(j, j.attempts[id]));
    forall a | a in after.attempts && after.attempts[a].kind == kind ensures StateOk(after, after.attempts[a]) {
      assert Linked(j, j.attempts[a]) && StateOk(j, j.attempts[a]);
      assert a != id ==> PairStates(j.attempts[a], j.attempts[id]);
    }
    forall a, b | a in after.attempts && b in after.attempts && a != b && after.attempts[a].kind == kind
      ensures PairStates(after.attempts[a], after.attempts[b])
    {
      assert Linked(j, j.attempts[a]) && Linked(j, j.attempts[b]) && StateOk(j, j.attempts[a]);
      assert j.attempts[b].kind == kind ==> StateOk(j, j.attempts[b]);
      assert PairStates(j.attempts[a], j.attempts[b]);
    }
  }
}
