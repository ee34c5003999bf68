/**
  A slot's one success: the slot key exists so that a backup that succeeded is not made again. It is made
  again exactly if a reconciliation resolves an attempt it listed after another attempt of the job succeeded.
*/
module OrchestrationSlots {
  import opened Options
  import opened LocalJournal
  import opened Orchestration
  import opened OrchestrationLimits

  /** A succeeded attempt of a slot. */
  predicate Green(a: Attempt) {
    a.slot != "" && a.phase == Ended(Succeeded)
  }

  predicate SameSlotGreen(a: Attempt, b: Attempt) {
    Green(a) && Green(b) && a.slot == b.slot
  }

  ghost predicate OnePerSlot(j: Journal) {
    forall a, b :: a in j.attempts && b in j.attempts && SameSlotGreen(j.attempts[a], j.attempts[b]) ==> a == b
  }

  /** The reconciliation resolves an attempt whose job another attempt has meanwhile brought to success. */
  predicate Displaces(s: System, e: Event) {
    e.ReconcileResolve? && s.reconciling != [] &&
    var l := s.reconciling[0];
    exists a :: a in s.journal.attempts && a != l.id && s.journal.attempts[a].job == l.attempt.job && Green(s.journal.attempts[a])
  }

  ghost predicate NeverDisplaces(s: System, run: seq<Event>)
    requires ValidRun(s, run)
    decreases |run|
  {
    run == [] || (!Displaces(s, run[0]) && NeverDisplaces(Apply(s, run[0]), run[1..]))
  }

  // ---- without such a step, one success a slot ----

  predicate NoneGreen(j: Journal, job: JobId) {
    forall a :: a in j.attempts && j.attempts[a].job == job ==> !Green(j.attempts[a])
  }

  predicate NoOtherGreen(j: Journal, id: AttemptId)
    requires id in j.attempts
  {
    forall a :: a in j.attempts && a != id && j.attempts[a].job == j.attempts[id].job ==> !Green(j.attempts[a])
  }

  /** A success is its job's only one, and its job counts as succeeded. */
  ghost predicate GreensOk(j: Journal) {
    && (forall a :: a in j.attempts && Green(j.attempts[a]) ==>
          j.attempts[a].job in j.jobs && j.jobs[j.attempts[a].job].state == JobSucceeded)
    && (forall a :: a in j.attempts && Green(j.attempts[a]) ==> NoOtherGreen(j, a))
  }

  /** The backup that is about to begin, or at work, belongs to a job without a success. */
  predicate WorkIsNeeded(s: System) {
    && (s.op.BackupLocked? && s.op.job.Some? ==>
          s.op.job.value in s.journal.jobs && s.journal.jobs[s.op.job.value].state != JobSucceeded)
    && (InFlight(s.op).Some? && InFlight(s.op).value in s.journal.attempts ==>
          NoneGreen(s.journal, s.journal.attempts[InFlight(s.op).value].job))
  }

  ghost predicate SlotsOk(s: System) {
    GreensOk(s.journal) && WorkIsNeeded(s)
  }

  lemma UpdateKeepsGreens(j: Journal, id: AttemptId, phase: Phase, snapshot: string, errorClass: ErrorClass, summary: Summary)
    requires GreensOk(j) && id in j.attempts && !phase.Ended?
    ensures GreensOk(UpdateAttempt(j, id, phase, snapshot, errorClass, summary))
  {
    var after := UpdateAttempt(j, id, phase, snapshot, errorClass, summary);
    forall a | a in after.attempts && Green(after.attempts[a]) ensures NoOtherGreen(after, a) {
      assert NoOtherGreen(j, a);
    }
  }

  lemma CompleteKeepsGreens(j: Journal, id: AttemptId, outcome: Outcome, snapshot: string, errorClass: ErrorClass, summary: Summary,
      state: JobState)
    requires GreensOk(j) && Committable(j, id) && NoOtherGreen(j, id) && (outcome == Succeeded ==> state == JobSucceeded)
    ensures GreensOk(CompleteAttempt(j, id, outcome, snapshot, errorClass, summary, state))
  {
    var after := CompleteAttempt(j, id, outcome, snapshot, errorClass, summary, state);
    forall a | a in after.attempts && Green(after.attempts[a]) ensures NoOtherGreen(after, a) {
      if a != id { assert NoOtherGreen(j, a); }
    }
  }

  /** A restore has no slot, so its job has no success of a slot. */
  lemma RestoreIsNotGreen(s: System, id: AttemptId)
    requires Base(s) && id in s.journal.attempts && s.journal.attempts[id].kind == Restore
    ensures NoneGreen(s.journal, s.journal.attempts[id].job)
  {
    var job := s.journal.attempts[id].job;
    forall a | a in s.journal.attempts && s.journal.attempts[a].job == job ensures !Green(s.journal.attempts[a]) {
      assert Linked(s.journal, s.journal.attempts[a]) && Linked(s.journal, s.journal.attempts[id]);
    }
  }

  lemma BeginKeepsSlots(s: System, e: Event)
    requires Base(s) && SlotsOk(s) && Enabled(s, e) && e.BackupBegin?
    ensures SlotsOk(Apply(s, e))
  {
    var j, j' := s.journal, Apply(s, e).journal;
    var job := j'.attempts[e.id].job;
    forall a | a in j.attempts && Green(j.attempts[a]) ensures j.attempts[a].job != job && NoOtherGreen(j', a) {
      assert Linked(j, j.attempts[a]) && NoOtherGreen(j, a);
    }
  }

  lemma CommitKeepsSlots(s: System, e: Event)
    requires Base(s) && SlotsOk(s) && Enabled(s, e) && (e.BackupCommit? || e.RestoreCommit?)
    ensures SlotsOk(Apply(s, e))
  {
    if e.BackupCommit? {
      var res := s.op.result;
      CompleteKeepsGreens(s.journal, s.op.id, res.outcome, res.snapshot, res.errorClass, s.op.summary, JobStateOf(res.outcome));
    } else {
      var res := s.op.restored;
      CompleteKeepsGreens(s.journal, s.op.id, RestoreOutcome(res.state), "", res.errorClass, RestoreSummary(res),
        JobStateOf(RestoreOutcome(res.state)));
    }
  }

  lemma RestoreBeginKeepsSlots(s: System, e: Event)
    requires Base(s) && SlotsOk(s) && Enabled(s, e) && e.RestoreBegin?
    ensures SlotsOk(Apply(s, e))
  {
    var j, j' := s.journal, Apply(s, e).journal;
    forall a | a in j.attempts && Green(j.attempts[a]) ensures j.attempts[a].job != s.op.req.job && NoOtherGreen(j', a) {
      assert Linked(j, j.attempts[a]) && NoOtherGreen(j, a);
    }
    forall a | a in j.attempts ensures j.attempts[a].job != s.op.req.job {
      assert Linked(j, j.attempts[a]);
    }
  }

  lemma UpdateKeepsSlots(s: System, e: Event)
    requires Base(s) && SlotsOk(s) && Enabled(s, e) && (e.BackupLaunch? || e.ReconcileMark?)
    ensures SlotsOk(Apply(s, e))
  {
    if e.BackupLaunch? {
      UpdateKeepsGreens(s.journal, s.op.id, BackingUp, "", NoError, NoSummary);
    } else {
      var l := s.reconciling[0];
      UpdateKeepsGreens(s.journal, l.id, Reconciling, l.attempt.snapshot, l.attempt.errorClass, l.attempt.summary);
    }
  }

  lemma ResolveKeepsSlots(s: System, e: Event)
    requires Base(s) && SlotsOk(s) && Enabled(s, e) && e.ReconcileResolve? && !Displaces(s, e)
    ensures SlotsOk(Apply(s, e))
  {
    var l := s.reconciling[0];
    assert l in s.reconciling && ListedRow(s.journal, l);
    var outcome := ResolvedOutcome(l.attempt, e.evidence);
    CompleteKeepsGreens(s.journal, l.id, outcome, ResolvedSnapshot(l.attempt, e.evidence), ResolvedErrorClass(l.attempt, e.evidence),
      l.attempt.summary, JobStateOf(outcome));
  }

  lemma QuietKeepsSlots(s: System, e: Event)
    requires SlotsOk(s) && Enabled(s, e) && !Writes(e)
    ensures SlotsOk(Apply(s, e))
  {
  }

  lemma StepKeepsSlots(s: System, e: Event)
    requires Base(s) && SlotsOk(s) && Enabled(s, e) && !Displaces(s, e)
    ensures SlotsOk(Apply(s, e))
  {
    if !Writes(e) {
      QuietKeepsSlots(s, e);
    } else if e.BackupBegin? {
      BeginKeepsSlots(s, e);
    } else if e.BackupCommit? || e.RestoreCommit? {
      CommitKeepsSlots(s, e);
    } else if e.RestoreBegin? {
      RestoreBeginKeepsSlots(s, e);
    } else if e.ReconcileResolve? {
      ResolveKeepsSlots(s, e);
    } else {
      UpdateKeepsSlots(s, e);
    }
  }

  lemma {:induction false} RunKeepsSlots(s: System, run: seq<Event>)
    requires Base(s) && SlotsOk(s) && ValidRun(s, run) && NeverDisplaces(s, run)
    ensures Base(Run(s, run)) && SlotsOk(Run(s, run))
    decreases |run|
  {
    if run != [] {
      StepKeepsBase(s, run[0]);
      StepKeepsSlots(s, run[0]);
      RunKeepsSlots(Apply(s, run[0]), run[1..]);
    }
  }

  lemma InitSlots(s: System)
    requires Init(s)
    ensures Base(s) && SlotsOk(s)
  {
    InitHolds(s);
    var j := s.journal;
    forall a | a in j.attempts && Green(j.attempts[a])
      ensures j.attempts[a].job in j.jobs && j.jobs[j.attempts[a].job].state == JobSucceeded && NoOtherGreen(j, a)
    {
      assert StatesOk(j, j.attempts[a].kind) && StateOk(j, j.attempts[a]);
      forall b | b in j.attempts && b != a && j.attempts[b].job == j.attempts[a].job ensures !Green(j.attempts[b]) {
        assert PairStates(j.attempts[a], j.attempts[b]);
      }
    }
  }

  /** Attempts of one slot belong to one job. */
  lemma OkIsOnePerSlot(s: System)
    requires Base(s) && SlotsOk(s)
    ensures OnePerSlot(s.journal)
  {
    var j := s.journal;
    forall a, b | a in j.attempts && b in j.attempts && SameSlotGreen(j.attempts[a], j.attempts[b]) ensures a == b
    {
      assert Linked(j, j.attempts[a]) && Linked(j, j.attempts[b]);
      assert NoOtherGreen(j, a);
    }
  }

  // ---- after such a step, the slot can succeed twice ----

  const GOOD := BackupResult(Succeeded, true, "snap", true, true, true, false, true, NoError)

  /** The ledger after one more attempt of this job, which succeeds. */
  function Succeeding(j: Journal, slot: string, job: JobId, id: AttemptId, number: int): Journal
    requires job in j.jobs
  {
    Journal(j.jobs[job := j.jobs[job].(state := JobSucceeded)],
            j.attempts[id := Attempt(job, number, Backup, slot, Ended(Succeeded), "snap", NoError, BackupSummary(GOOD))])
  }

  lemma RunningSucceeds(s: System, slot: string, job: JobId, id: AttemptId, number: int, rest: seq<Event>, s': System)
    requires job in s.journal.jobs && id !in s.journal.attempts
    requires Leads(s.(journal := Succeeding(s.journal, slot, job, id, number), op := NoOperation), rest, s')
    ensures
      var begun := s.(journal := BeginAttempt(s.journal, id, NewAttempt(job, number, Backup, slot)), op := BackupBegun(id));
      Leads(begun, [BackupLaunch] + ([BackupReturn(false, GOOD, false)] + ([BackupCommit] + rest)), s')
  {
    var begun := s.(journal := BeginAttempt(s.journal, id, NewAttempt(job, number, Backup, slot)), op := BackupBegun(id));
    var running := Apply(begun, BackupLaunch);
    var committing := Apply(running, BackupReturn(false, GOOD, false));
    assert Apply(committing, BackupCommit) == s.(journal := Succeeding(s.journal, slot, job, id, number), op := NoOperation);
    LeadsFirst(committing, BackupCommit, rest, s');
    LeadsFirst(running, BackupReturn(false, GOOD, false), [BackupCommit] + rest, s');
    LeadsFirst(begun, BackupLaunch, [BackupReturn(false, GOOD, false)] + ([BackupCommit] + rest), s');
  }

  function Reopening(slot: string, job: JobId, id: AttemptId, number: int, rest: seq<Event>): seq<Event> {
    [BackupLock(slot, Backup, Some(job))]
    + ([BackupBegin("", id, number)] + ([BackupLaunch] + ([BackupReturn(false, GOOD, false)] + ([BackupCommit] + rest))))
  }

  /** A job that may be reopened gets another attempt, and that one succeeds. */
  lemma ReopenedSucceeds(s: System, slot: string, job: JobId, id: AttemptId, number: int, rest: seq<Event>, s': System)
    requires s.op.NoOperation? && slot != "" && SlotFits(Backup, slot) && Reopens(s.journal, slot, Backup, job)
    requires CanBeginAttempt(s.journal, id, NewAttempt(job, number, Backup, slot))
    requires Leads(s.(journal := Succeeding(s.journal, slot, job, id, number)), rest, s')
    ensures Leads(s, Reopening(slot, job, id, number, rest), s')
  {
    var after := Succeeding(s.journal, slot, job, id, number);
    assert s.(journal := after, op := NoOperation) == s.(journal := after);
    RunningSucceeds(s, slot, job, id, number, rest, s');
    var ran := [BackupLaunch] + ([BackupReturn(false, GOOD, false)] + ([BackupCommit] + rest));
    LeadsFirst(s.(op := BackupLocked(slot, Backup, Some(job))), BackupBegin("", id, number), ran, s');
    LeadsFirst(s, BackupLock(slot, Backup, Some(job)), [BackupBegin("", id, number)] + ran, s');
  }

  lemma {:induction false} Bound(j: Journal, ids: set<AttemptId>) returns (n: nat)
    requires ids <= j.attempts.Keys
    ensures forall id :: id in ids ==> |id| < n && j.attempts[id].number < n
    decreases |ids|
  {
    if ids == {} { return 0; }
    var one :| one in ids;
    var rest := Bound(j, ids - {one});
    n := if rest > |one| then rest else |one| + 1;
    if j.attempts[one].number >= n { n := j.attempts[one].number + 1; }
    assert forall id :: id in ids ==> id == one || id in ids - {one};
  }

  lemma FreshAttempt(j: Journal, job: JobId, slot: string) returns (id: AttemptId, number: int)
    requires job in j.jobs
    ensures CanBeginAttempt(j, id, NewAttempt(job, number, Backup, slot))
  {
    var n := Bound(j, j.attempts.Keys);
    id, number := seq(n, _ => 'x'), n;
    assert id in j.attempts ==> |id| < n;
  }

  lemma {:induction false} NoResolveNeverDisplaces(s: System, run: seq<Event>)
    requires ValidRun(s, run) && forall e :: e in run ==> !e.ReconcileResolve?
    ensures NeverDisplaces(s, run)
    decreases |run|
  {
    if run != [] {
      assert run[0] in run && forall e :: e in run[1..] ==> e in run;
      NoResolveNeverDisplaces(Apply(s, run[0]), run[1..]);
    }
  }

  /** What a displacing step leaves: a success, and its job open to another attempt. */
  lemma DisplacedReopens(s: System, e: Event) returns (a: AttemptId)
    requires Base(s) && Enabled(s, e) && Displaces(s, e)
    ensures
      var j := Apply(s, e).journal;
      && a in j.attempts && Green(j.attempts[a]) && SlotFits(Backup, j.attempts[a].slot)
      && Reopens(j, j.attempts[a].slot, Backup, j.attempts[a].job)
  {
    var l, j := s.reconciling[0], s.journal;
    assert l in s.reconciling && ListedRow(j, l);
    a :| a in j.attempts && a != l.id && j.attempts[a].job == l.attempt.job && Green(j.attempts[a]);
    assert Linked(j, j.attempts[a]) && PairApart(j.attempts[a], j.attempts[l.id]);
  }

  lemma ReopenedMakesTwo(j: Journal, a: AttemptId, id: AttemptId, number: int)
    requires a in j.attempts && Green(j.attempts[a]) && j.attempts[a].job in j.jobs && id !in j.attempts
    ensures !OnePerSlot(Succeeding(j, j.attempts[a].slot, j.attempts[a].job, id, number))
  {
    var after := Succeeding(j, j.attempts[a].slot, j.attempts[a].job, id, number);
    assert SameSlotGreen(after.attempts[a], after.attempts[id]);
  }

  ghost predicate SucceedsTwiceLater(s: System, later: seq<Event>) {
    ValidRun(s, later) && NeverDisplaces(s, later) && !OnePerSlot(Run(s, later).journal)
  }

  /** The job of a success that may be reopened: after a crash it gets another attempt, which succeeds too. */
  lemma GreenReopened(now: System, a: AttemptId) returns (later: seq<Event>)
    requires a in now.journal.attempts && Green(now.journal.attempts[a]) && SlotFits(Backup, now.journal.attempts[a].slot)
    requires Reopens(now.journal, now.journal.attempts[a].slot, Backup, now.journal.attempts[a].job)
    ensures SucceedsTwiceLater(now, later)
  {
    var slot, job := now.journal.attempts[a].slot, now.journal.attempts[a].job;
    var id, number := FreshAttempt(now.journal, job, slot);
    var down := Apply(now, Crash);
    var end := down.(journal := Succeeding(now.journal, slot, job, id, number));
    assert Leads(end, [], end);
    ReopenedSucceeds(down, slot, job, id, number, [], end);
    LeadsFirst(now, Crash, Reopening(slot, job, id, number, []), end);
    later := [Crash] + Reopening(slot, job, id, number, []);
    NoResolveNeverDisplaces(now, later);
    ReopenedMakesTwo(now.journal, a, id, number);
  }

  lemma DisplacedSucceedsTwice(s: System, e: Event) returns (later: seq<Event>)
    requires Base(s) && Enabled(s, e) && Displaces(s, e)
    ensures SucceedsTwiceLater(Apply(s, e), later)
  {
    var a := DisplacedReopens(s, e);
    later := GreenReopened(Apply(s, e), a);
  }

  // ---- exactly ----

  /**
    In every run, overlapping or not, up to which no step displaced a success: the next step opens the way
    to a second success of a slot exactly if it displaces one.
  */
  lemma SecondSuccessExactly(s: System, run: seq<Event>, e: Event)
    requires Init(s) && ValidRun(s, run) && NeverDisplaces(s, run) && Enabled(Run(s, run), e)
    ensures Displaces(Run(s, run), e) <==> exists later :: SucceedsTwiceLater(Apply(Run(s, run), e), later)
  {
    InitSlots(s);
    RunKeepsSlots(s, run);
    StepExactly(Run(s, run), e);
  }

  lemma StepExactly(s: System, e: Event)
    requires Base(s) && SlotsOk(s) && Enabled(s, e)
    ensures Displaces(s, e) <==> exists later :: SucceedsTwiceLater(Apply(s, e), later)
  {
    if Displaces(s, e) {
      var later := DisplacedSucceedsTwice(s, e);
    } else {
      StepKeepsBase(s, e);
      StepKeepsSlots(s, e);
      NeverTwiceLater(Apply(s, e));
    }
  }

  lemma NeverTwiceLater(s: System)
    requires Base(s) && SlotsOk(s)
    ensures forall later :: !SucceedsTwiceLater(s, later)
  {
    forall later ensures !SucceedsTwiceLater(s, later) {
      if ValidRun(s, later) && NeverDisplaces(s, later) {
        RunKeepsSlots(s, later);
        OkIsOnePerSlot(Run(s, later));
      }
    }
  }

  /** At no point of the run can a slot come to a second success without a success being displaced after that point. */
  ghost predicate StaysOnePerSlot(s: System, run: seq<Event>)
    requires ValidRun(s, run)
    decreases |run|
  {
    (forall later :: !SucceedsTwiceLater(s, later)) && (run != [] ==> StaysOnePerSlot(Apply(s, run[0]), run[1..]))
  }

  /** Over all runs: a slot stays at one success, whatever may still come, exactly if no step displaces one. */
  lemma OneSuccessExactly(s: System, run: seq<Event>)
    requires Init(s) && ValidRun(s, run)
    ensures NeverDisplaces(s, run) <==> StaysOnePerSlot(s, run)
  {
    InitSlots(s);
    StaysExactly(s, run);
  }

  lemma {:induction false} StaysExactly(s: System, run: seq<Event>)
    requires Base(s) && SlotsOk(s) && ValidRun(s, run)
    ensures NeverDisplaces(s, run) <==> StaysOnePerSlot(s, run)
    decreases |run|
  {
    NeverTwiceLater(s);
    if run != [] {
      StepExactly(s, run[0]);
      if !Displaces(s, run[0]) {
        StepKeepsBase(s, run[0]);
        StepKeepsSlots(s, run[0]);
        StaysExactly(Apply(s, run[0]), run[1..]);
      }
    }
  }

  /** In every run without such a step a non-empty slot has at most one succeeded attempt. */
  lemma OneSuccessPerSlot(s: System, run: seq<Event>, a: AttemptId, b: AttemptId)
    requires Init(s) && ValidRun(s, run) && NeverDisplaces(s, run)
    requires a in Run(s, run).journal.attempts && b in Run(s, run).journal.attempts
    requires Run(s, run).journal.attempts[a].slot == Run(s, run).journal.attempts[b].slot != ""
    requires Run(s, run).journal.attempts[a].phase == Run(s, run).journal.attempts[b].phase == Ended(Succeeded)
    ensures a == b
  {
    InitSlots(s);
    RunKeepsSlots(s, run);
    OkIsOnePerSlot(Run(s, run));
  }

  // ---- how the agent calls them ----

  /** A listed attempt of an ordinary backup is open, so its job has no success; any other listed attempt is its job's only one. */
  lemma KindNeverDisplaces(s: System, e: Event)
    requires Base(s) && KindOk(s, Backup) && Enabled(s, e)
    ensures !Displaces(s, e)
  {
    if e.ReconcileResolve? {
      var l, j := s.reconciling[0], s.journal;
      FirstListed(s, Backup);
      forall a | a in j.attempts && a != l.id && j.attempts[a].job == l.attempt.job ensures !Green(j.attempts[a]) {
        assert Linked(j, j.attempts[a]) && Linked(j, j.attempts[l.id]) && PairApart(j.attempts[a], j.attempts[l.id]);
        assert j.attempts[a].kind == Backup ==> StateOk(j, j.attempts[a]) && StateOk(j, j.attempts[l.id]);
      }
    }
  }

  /**
    No reconciliation lists an ordinary backup in flight: the agent runs these and its reconciliations in
    turn. Qualification backups and restores may be listed while they run.
  */
  lemma {:induction false} TurnsNeverDisplace(s: System, run: seq<Event>)
    requires Base(s) && KindOk(s, Backup) && ValidRun(s, run) && OtherRun(s, run, Backup)
    ensures NeverDisplaces(s, run)
    decreases |run|
  {
    if run != [] {
      KindNeverDisplaces(s, run[0]);
      StepKeepsBase(s, run[0]);
      StepKeepsKind(s, run[0], Backup);
      TurnsNeverDisplace(Apply(s, run[0]), run[1..]);
    }
  }

  lemma BackupsInTurnSucceedOnce(s: System, run: seq<Event>)
    requires Init(s) && ValidRun(s, run) && OtherRun(s, run, Backup)
    ensures NeverDisplaces(s, run) && OnePerSlot(Run(s, run).journal)
  {
    InitHolds(s);
    TurnsNeverDisplace(s, run);
    InitSlots(s);
    RunKeepsSlots(s, run);
    OkIsOnePerSlot(Run(s, run));
  }

  // ---- a run that displaces ----

  function FirstBackup(slot: string): Attempt {
    NewAttempt("job", 1, Backup, slot)
  }

  /** The slot's only job with its first attempt. */
  function Opened(slot: string): Journal {
    Journal(map["job" := Job(Backup, slot, JobActive, None)], map["a" := FirstBackup(slot)])
  }

  const OUT_OF_DISK := FailedBackup(ErrorResourceExhausted)

  function FirstFailed(slot: string): Journal {
    CommitBackup(Opened(slot), "a", OUT_OF_DISK, BackupSummary(OUT_OF_DISK))
  }

  function SecondSucceeded(slot: string): Journal {
    Succeeding(FirstFailed(slot), slot, "job", "b", 2)
  }

  /** The first attempt is resolved although it has ended, and its job with it. */
  function StaleResolved(slot: string): Journal {
    Resolve(SecondSucceeded(slot), Listed("a", FirstBackup(slot)), NoSnapshot)
  }

  function ThirdSucceeded(slot: string): Journal {
    Succeeding(StaleResolved(slot), slot, "job", "c", 3)
  }

  lemma FirstIsFiled(slot: string, rest: seq<Event>, s': System)
    requires slot != "" && SlotFits(Backup, slot) && Leads(EMPTY.(journal := Opened(slot), op := BackupBegun("a")), rest, s')
    ensures exists run :: Leads(EMPTY, run, s')
  {
    var locked := EMPTY.(op := BackupLocked(slot, Backup, None));
    assert Apply(locked, BackupBegin("job", "a", 1)).journal == Opened(slot);
    LeadsFirst(locked, BackupBegin("job", "a", 1), rest, s');
    LeadsFirst(EMPTY, BackupLock(slot, Backup, None), [BackupBegin("job", "a", 1)] + rest, s');
  }

  lemma FirstBackupListed(slot: string)
    ensures IsListing(Opened(slot), [Listed("a", FirstBackup(slot))])
  {
    var list := [Listed("a", FirstBackup(slot))];
    assert IncompleteAttempts(Opened(slot)) == {"a"} == IdsOf(list) by { assert list[0] in list; }
  }

  /** The first backup of the slot fails while a reconciliation has it on its list. */
  lemma FirstFails(slot: string, rest: seq<Event>, s': System)
    requires slot != "" && SlotFits(Backup, slot)
    requires Leads(EMPTY.(journal := FirstFailed(slot), reconciling := [Listed("a", FirstBackup(slot))]), rest, s')
    ensures exists run :: Leads(EMPTY, run, s')
  {
    var list := [Listed("a", FirstBackup(slot))];
    var begun := EMPTY.(journal := Opened(slot), op := BackupBegun("a"));
    var listed := begun.(reconciling := list);
    var committing := listed.(op := BackupCommitting("a", OUT_OF_DISK, BackupSummary(OUT_OF_DISK), false));
    LeadsFirst(committing, BackupCommit, rest, s');
    LeadsFirst(listed, BackupStop(ErrorResourceExhausted), [BackupCommit] + rest, s');
    FirstBackupListed(slot);
    var stopped := [BackupStop(ErrorResourceExhausted)] + ([BackupCommit] + rest);
    LeadsFirst(begun, ReconcileList(list), stopped, s');
    FirstIsFiled(slot, [ReconcileList(list)] + stopped, s');
  }

  ghost predicate SucceededTwice(j: Journal, slot: string) {
    exists a, b :: a in j.attempts && b in j.attempts && a != b && j.attempts[a].slot == j.attempts[b].slot == slot
      && Green(j.attempts[a]) && Green(j.attempts[b])
  }

  lemma LedgersFollow(slot: string)
    ensures Reopens(FirstFailed(slot), slot, Backup, "job")
    ensures CanBeginAttempt(FirstFailed(slot), "b", NewAttempt("job", 2, Backup, slot))
    ensures Reopens(StaleResolved(slot), slot, Backup, "job")
    ensures CanBeginAttempt(StaleResolved(slot), "c", NewAttempt("job", 3, Backup, slot))
  {
  }

  lemma ThirdMakesTwo(slot: string)
    requires slot != ""
    ensures SucceededTwice(ThirdSucceeded(slot), slot)
  {
    var j := ThirdSucceeded(slot);
    assert "b" in j.attempts && "c" in j.attempts;
  }

  lemma ThirdSucceeds(slot: string) returns (run: seq<Event>)
    requires slot != "" && SlotFits(Backup, slot)
    ensures Leads(EMPTY.(journal := StaleResolved(slot)), run, EMPTY.(journal := ThirdSucceeded(slot)))
  {
    var third := EMPTY.(journal := ThirdSucceeded(slot));
    assert Leads(third, [], third);
    LedgersFollow(slot);
    ReopenedSucceeds(EMPTY.(journal := StaleResolved(slot)), slot, "job", "c", 3, [], third);
    return Reopening(slot, "job", "c", 3, []);
  }

  lemma StaleResolveReopens(slot: string, rest: seq<Event>, s': System)
    requires Leads(EMPTY.(journal := StaleResolved(slot)), rest, s')
    ensures Leads(EMPTY.(journal := SecondSucceeded(slot), reconciling := [Listed("a", FirstBackup(slot))]),
      [ReconcileResolve(NoSnapshot)] + rest, s')
  {
    var second := EMPTY.(journal := SecondSucceeded(slot), reconciling := [Listed("a", FirstBackup(slot))]);
    LeadsFirst(second, ReconcileResolve(NoSnapshot), rest, s');
  }

  /**
    From an empty ledger, for any non-empty slot: a reconciliation lists the first backup while it is
    running; that backup fails and the next succeeds; then the reconciliation resolves what it listed, the
    succeeded job counts as failed, and a third backup succeeds in the same slot.
  */
  lemma OverlapSucceedsTwice(slot: string)
    requires slot != "" && SlotFits(Backup, slot)
    ensures exists run: seq<Event>, s :: Init(EMPTY) && Leads(EMPTY, run, s) && SucceededTwice(s.journal, slot)
  {
    var third := EMPTY.(journal := ThirdSucceeded(slot));
    LedgersFollow(slot);
    ThirdMakesTwo(slot);
    var last := ThirdSucceeds(slot);
    StaleResolveReopens(slot, last, third);
    var failed := EMPTY.(journal := FirstFailed(slot), reconciling := [Listed("a", FirstBackup(slot))]);
    ReopenedSucceeds(failed, slot, "job", "b", 2, [ReconcileResolve(NoSnapshot)] + last, third);
    FirstFails(slot, Reopening(slot, "job", "b", 2, [ReconcileResolve(NoSnapshot)] + last), third);
  }
}
