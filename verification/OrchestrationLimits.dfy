/**
  What the conditions of `Orchestration` are there for: a run from an empty ledger in which a
  reconciliation lists a restore that is running, and settles what its operation then commits.
*/
module OrchestrationLimits {
  import opened Options
  import opened LocalJournal
  import opened Orchestration

  ghost predicate Leads(s: System, run: seq<Event>, s': System) {
    ValidRun(s, run) && Run(s, run) == s'
  }

  lemma LeadsFirst(s: System, e: Event, rest: seq<Event>, s': System)
    requires Enabled(s, e) && Leads(Apply(s, e), rest, s')
    ensures Leads(s, [e] + rest, s')
  {
    var run := [e] + rest;
    assert run[0] == e && run[1..] == rest;
  }

  const EMPTY := System(Journal(map[], map[]), NoOperation, map[], [], map[])

  // ---- an overlap that rewrites an answer ----

  /** A restore's own row: the job, with this request, and its only attempt. */
  ghost predicate OwnRow(j: Journal, req: RestoreRequest, id: AttemptId) {
    && Committable(j, id) && j.attempts[id].job == req.job && j.attempts[id].kind == Restore
    && j.jobs[req.job].kind == Restore && j.jobs[req.job].requestHash == Some(IdentityHash(req))
    && forall other :: other in j.attempts && j.attempts[other].job == req.job ==> other == id
  }

  lemma ReplyOfOwnRow(j: Journal, req: RestoreRequest, id: AttemptId)
    requires OwnRow(j, req, id) && !InProgress(j.jobs[req.job].state)
    ensures
      var summary := j.attempts[id].summary;
      ReplyTo(j, req) == Replayed(if summary.RestoreSummary? then summary.restore else BareResult(j.jobs[req.job].state))
  {
    assert IsLatest(j, req.job, id);
  }

  lemma ResolveSettlesRunning(s: System, req: RestoreRequest, id: AttemptId)
    requires OwnRow(s.journal, req, id) && s.reconciling != [] && s.reconciling[0] == Listed(id, s.journal.attempts[id])
    requires s.journal.attempts[id].summary == NoSummary
    ensures Enabled(s, ReconcileResolve(NoSnapshot))
    ensures
      var s' := Apply(s, ReconcileResolve(NoSnapshot));
      && s'.op == s.op && OwnRow(s'.journal, req, id) && SettledRestore(s'.journal, req.job)
      && ReplyTo(s'.journal, req) == Replayed(BareResult(JobFailed))
  {
    ReplyOfOwnRow(Apply(s, ReconcileResolve(NoSnapshot)).journal, req, id);
  }

  lemma CommitAnswers(s: System, req: RestoreRequest, id: AttemptId, result: RestoreResult)
    requires OwnRow(s.journal, req, id) && s.op == RestoreCommitting(req, id, result)
    ensures Enabled(s, RestoreCommit) && ReplyTo(Apply(s, RestoreCommit).journal, req) == Replayed(result)
  {
    ReplyOfOwnRow(Apply(s, RestoreCommit).journal, req, id);
  }

  const READY := RestoreResult(Ready, true, "manifest.json", NoError)

  const ENGINE_SUCCEEDS := RestoreReturn(EngineRestore(Some(Verifying), true, false), false, true, true)

  /** The answer for this restore is settled as failed, and yet its operation goes on to commit it as ready. */
  ghost predicate RewritesAnswer(s: System, req: RestoreRequest) {
    && SettledRestore(s.journal, req.job) && ReplyTo(s.journal, req) == Replayed(BareResult(JobFailed))
    && Enabled(s, ENGINE_SUCCEEDS) && Enabled(Apply(s, ENGINE_SUCCEEDS), RestoreCommit)
    && ReplyTo(Apply(Apply(s, ENGINE_SUCCEEDS), RestoreCommit).journal, req) == Replayed(READY)
  }

  lemma SettledRunningRewrites(s: System, req: RestoreRequest, id: AttemptId)
    requires OwnRow(s.journal, req, id) && s.op == RestoreRunning(req, id) && SettledRestore(s.journal, req.job)
    requires ReplyTo(s.journal, req) == Replayed(BareResult(JobFailed))
    ensures RewritesAnswer(s, req)
  {
    CommitAnswers(Apply(s, ENGINE_SUCCEEDS), req, id, READY);
  }

  lemma ListedRunningRewrites(s: System, req: RestoreRequest, id: AttemptId)
    requires OwnRow(s.journal, req, id) && s.op == RestoreRunning(req, id) && s.journal.attempts[id].summary == NoSummary
    requires s.reconciling != [] && s.reconciling[0] == Listed(id, s.journal.attempts[id])
    ensures Enabled(s, ReconcileResolve(NoSnapshot)) && RewritesAnswer(Apply(s, ReconcileResolve(NoSnapshot)), req)
  {
    ResolveSettlesRunning(s, req, id);
    SettledRunningRewrites(Apply(s, ReconcileResolve(NoSnapshot)), req, id);
  }

  lemma OverlapRewrites(s: System, req: RestoreRequest, id: AttemptId, list: seq<Listed>)
    requires OwnRow(s.journal, req, id) && s.op == RestoreRunning(req, id) && s.reconciling == []
    requires s.journal.attempts[id].summary == NoSummary
    requires IsListing(s.journal, list) && list != [] && list[0].id == id
    ensures Enabled(s, ReconcileList(list)) && !NamesOther(s, ReconcileList(list), Restore)
    ensures
      var listed := Apply(s, ReconcileList(list));
      Enabled(listed, ReconcileResolve(NoSnapshot)) && RewritesAnswer(Apply(listed, ReconcileResolve(NoSnapshot)), req)
  {
    assert list[0] in list && id in IdsOf(list);
    ListedRunningRewrites(s.(reconciling := list), req, id);
  }

  /** The first restore ever, with the engine at work. */
  function FirstRunning(req: RestoreRequest, id: AttemptId): System {
    System(BeginJob(Journal(map[], map[]), req.job, RestoreJob(req), id, NewAttempt(req.job, 1, Restore, "")),
           RestoreRunning(req, id), map[], [], map[req.job := 1])
  }

  lemma PreparedRestoreRuns(req: RestoreRequest, id: AttemptId, rest: seq<Event>, s': System)
    requires Leads(FirstRunning(req, id), rest, s')
    ensures Leads(EMPTY.(op := RestorePrepared(req)), [RestoreBegin(id)] + ([RestoreLaunch] + rest), s')
  {
    var begun := FirstRunning(req, id).(op := RestoreBegun(req, id), engineRuns := map[]);
    LeadsFirst(begun, RestoreLaunch, rest, s');
    LeadsFirst(EMPTY.(op := RestorePrepared(req)), RestoreBegin(id), [RestoreLaunch] + rest, s');
  }

  lemma FirstRestoreRuns(req: RestoreRequest, id: AttemptId, rest: seq<Event>, s': System)
    requires Leads(FirstRunning(req, id), rest, s')
    ensures exists run :: Leads(EMPTY, run, s')
  {
    var called := EMPTY.(waiting := map["c" := req]);
    assert called.waiting - {"c"} == map[];
    PreparedRestoreRuns(req, id, rest, s');
    var prepared := [RestoreBegin(id)] + ([RestoreLaunch] + rest);
    LeadsFirst(EMPTY.(op := RestoreLocked(req)), RestoreRecheck, prepared, s');
    LeadsFirst(called, RestoreLock("c"), [RestoreRecheck] + prepared, s');
    LeadsFirst(EMPTY, RestoreCall("c", req), [RestoreLock("c")] + ([RestoreRecheck] + prepared), s');
  }

  lemma FirstIsListed(req: RestoreRequest, id: AttemptId)
    ensures
      var running := FirstRunning(req, id);
      OwnRow(running.journal, req, id) && IsListing(running.journal, [Listed(id, running.journal.attempts[id])])
  {
    var running := FirstRunning(req, id);
    var list := [Listed(id, running.journal.attempts[id])];
    assert IncompleteAttempts(running.journal) == {id} == IdsOf(list) by { assert list[0] in list; }
  }

  lemma RunningRewrites(req: RestoreRequest, id: AttemptId) returns (run: seq<Event>, s: System)
    ensures Leads(FirstRunning(req, id), run, s) && RewritesAnswer(s, req)
  {
    var running := FirstRunning(req, id);
    var list := [Listed(id, running.journal.attempts[id])];
    FirstIsListed(req, id);
    OverlapRewrites(running, req, id, list);
    var listed := Apply(running, ReconcileList(list));
    s := Apply(listed, ReconcileResolve(NoSnapshot));
    assert Leads(s, [], s);
    LeadsFirst(listed, ReconcileResolve(NoSnapshot), [], s);
    LeadsFirst(running, ReconcileList(list), [ReconcileResolve(NoSnapshot)] + [], s);
    run := [ReconcileList(list)] + ([ReconcileResolve(NoSnapshot)] + []);
  }

  /**
    From an empty ledger, for any request: a reconciliation that lists the restore while it is running
    settles it as failed, and the restore's own commit then rewrites that settled answer to ready.
  */
  lemma OverlapRewritesAResult(req: RestoreRequest, id: AttemptId)
    ensures exists run: seq<Event>, s :: Init(EMPTY) && Leads(EMPTY, run, s) && RewritesAnswer(s, req)
  {
    var run, s := RunningRewrites(req, id);
    FirstRestoreRuns(req, id, run, s);
  }
}
