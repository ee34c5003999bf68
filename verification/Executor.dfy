/**
  The agent's poll loop (agent/internal/control/execute.go): flush the outbox, heartbeat,
  claim, consume, dispatch, record, acknowledge.

  One `Poll` is proved to take only steps of the agent in `Delivery`, in an order that
  machine allows, so everything proved there about runs holds of the code. Answers of the
  network, the journal and the handlers are inputs.
*/
module Executor {
  import opened Options
  import opened Commands
  import opened Delivery

  datatype Heartbeat = Heartbeat(
    pollSeconds: int,
    pauseWan: bool,
    providerDown: bool,
    siteId: string,
    policy: PolicyOffer)

  /** NoPolicy: no revision or no configuration was sent. */
  datatype PolicyOffer = NoPolicy | Malformed | Policy(revision: string, saved: bool)

  /** A reply that is no error need not carry anything. */
  datatype HeartbeatReply = HeartbeatFailed | NoContent | Reply(heartbeat: Heartbeat)

  datatype ClaimAnswer = ClaimFailed | NothingToDo | Command(id: CommandId)

  datatype Answers = Answers(
    rowsOk: bool,
    flushed: seq<FlushAnswer>,
    reply: HeartbeatReply,
    claim: ClaimAnswer,
    consumeOk: bool,
    resultOk: bool,
    handlerOk: bool,
    handlerExtra: string,
    finishOk: bool,
    ackOk: bool)

  datatype OutboxEvent = AttemptReport(payload: string) | CatalogBuild(snapshot: string)
  datatype BuildOutcome = Built | EnumerationFailed | BuildFailed
  datatype FlushAnswer = FlushAnswer(reportOk: bool, build: BuildOutcome, ackOk: bool)

  datatype Stage = StageHeartbeat | StageClaim | StageConsume | StageDispatch | StageFinish | StageAck

  const OUTBOX_LIMIT: nat := 32

  // ---- runs of one agent ----

  ghost predicate ValidAgentRun(a: Agent, run: seq<AgentEvent>)
    decreases |run|
  {
    run == [] || (AgentEnabled(a, run[0]) && ValidAgentRun(AgentApply(a, run[0]), run[1..]))
  }

  ghost function AgentRun(a: Agent, run: seq<AgentEvent>): Agent
    requires ValidAgentRun(a, run)
    decreases |run|
  {
    if run == [] then a else AgentRun(AgentApply(a, run[0]), run[1..])
  }

  lemma AgentRunCons(a: Agent, e: AgentEvent, rest: seq<AgentEvent>)
    requires AgentEnabled(a, e) && ValidAgentRun(AgentApply(a, e), rest)
    ensures ValidAgentRun(a, [e] + rest)
    ensures AgentRun(a, [e] + rest) == AgentRun(AgentApply(a, e), rest)
  {
    assert ([e] + rest)[1..] == rest;
  }

  /** The agent's steps are steps of the whole system once its claim reply is on the network. */
  lemma {:induction false} AgentRunIsSystemRun(s: System, owner: Owner, run: seq<AgentEvent>)
    requires owner in s.agents && ValidAgentRun(s.agents[owner], run)
    requires forall e :: e in run && e.Receive? ==> Offer(owner, e.id) in s.offers
    ensures
      var lifted := seq(|run|, i requires 0 <= i < |run| => AgentStep(owner, run[i]));
      && ValidRun(s, lifted)
      && owner in Run(s, lifted).agents
      && Run(s, lifted).agents[owner] == AgentRun(s.agents[owner], run)
    decreases |run|
  {
    var lifted := seq(|run|, i requires 0 <= i < |run| => AgentStep(owner, run[i]));
    if run != [] {
      var s' := Apply(s, lifted[0]);
      AgentRunIsSystemRun(s', owner, run[1..]);
      assert lifted[1..] == seq(|run[1..]|, i requires 0 <= i < |run[1..]| => AgentStep(owner, run[1..][i]));
    }
  }

  // ---- what one poll does to the agent ----

  /** The journal calls a poll makes before it may act on the command fail. */
  predicate ConsumeFails(a: Agent, id: CommandId, env: Answers) {
    !env.consumeOk || (id in a.journal && !env.resultOk)
  }

  /** The steps of a poll from the moment its journal lookup is done. */
  ghost function AfterConsumeTrace(a: Agent, id: CommandId, env: Answers): seq<AgentEvent> {
    if id in a.journal && a.journal[id].Finished? then
      if a.journal[id].verdict.Some? then [SendAck]
      else if env.finishOk then [Finish] + [SendAck]
      else [GiveUp]
    else
      [Dispatch] + ([Return(env.handlerOk, env.handlerExtra)] + (if env.finishOk then [Finish] + [SendAck] else [FinishError]))
  }

  ghost function CommandTrace(a: Agent, id: CommandId, env: Answers): seq<AgentEvent> {
    [Receive(id)] + (if ConsumeFails(a, id, env) then [GiveUp] else [Consume] + AfterConsumeTrace(a, id, env))
  }

  /** The agent after one poll that received command `id`. */
  function AfterCommand(a: Agent, id: CommandId, env: Answers): Agent {
    if ConsumeFails(a, id, env) then a
    else if id in a.journal && a.journal[id].Finished? then
      if a.journal[id].verdict.None? && env.finishOk
      then a.(journal := a.journal[id := Finished(Some(Failed), a.journal[id].extra)])
      else a
    else
      var counted := a.(dispatches := Bump(a.dispatches, id));
      if env.finishOk
      then counted.(journal := a.journal[id := Finished(Some(if env.handlerOk then Succeeded else Failed), env.handlerExtra)])
      else counted.(journal := a.journal[id := Consumed], interruptions := Bump(a.interruptions, id))
  }

  lemma AckRun(a: Agent)
    requires a.phase.Acking?
    ensures ValidAgentRun(a, [SendAck]) && AgentRun(a, [SendAck]) == a.(phase := Idle)
  {
    AgentRunCons(a, SendAck, []);
  }

  lemma FinishRun(a: Agent)
    requires a.phase.Ran? || a.phase.Replaying?
    ensures ValidAgentRun(a, [Finish] + [SendAck])
    ensures AgentRun(a, [Finish] + [SendAck]) == AgentApply(a, Finish).(phase := Idle)
  {
    AckRun(AgentApply(a, Finish));
    AgentRunCons(a, Finish, [SendAck]);
  }

  lemma HandlerRun(a: Agent, env: Answers)
    requires a.phase.Ready? && a.phase.id in a.journal && a.journal[a.phase.id] == Consumed
    ensures
      var tail := if env.finishOk then [Finish] + [SendAck] else [FinishError];
      var trace := [Dispatch] + ([Return(env.handlerOk, env.handlerExtra)] + tail);
      && ValidAgentRun(a, trace)
      && AgentRun(a, trace) == AfterCommand(a.(phase := Idle), a.phase.id, env.(consumeOk := true, resultOk := true))
  {
    var running := AgentApply(a, Dispatch);
    var returned := Return(env.handlerOk, env.handlerExtra);
    var ran := AgentApply(running, returned);
    var tail := if env.finishOk then [Finish] + [SendAck] else [FinishError];
    if env.finishOk {
      FinishRun(ran);
    } else {
      AgentRunCons(ran, FinishError, []);
      assert a.journal[a.phase.id := Consumed] == a.journal;
    }
    AgentRunCons(running, returned, tail);
    AgentRunCons(a, Dispatch, [returned] + tail);
  }

  lemma AfterConsumeRun(consumed: Agent, a: Agent, id: CommandId, env: Answers)
    requires a.phase.Idle? && !ConsumeFails(a, id, env) && consumed == AfterConsume(a, id)
    ensures ValidAgentRun(consumed, AfterConsumeTrace(a, id, env))
    ensures AgentRun(consumed, AfterConsumeTrace(a, id, env)) == AfterCommand(a, id, env)
  {
    match consumed.phase {
      case Ready(_) => HandlerRun(consumed, env);
      case Acking(_, _, _) => AckRun(consumed);
      case Replaying(_, _) =>
        if env.finishOk { FinishRun(consumed); } else { AgentRunCons(consumed, GiveUp, []); }
    }
  }

  /** A poll is a run of the agent, from idle to idle. */
  lemma CommandIsARun(a: Agent, id: CommandId, env: Answers)
    requires a.phase.Idle?
    ensures ValidAgentRun(a, CommandTrace(a, id, env))
    ensures AgentRun(a, CommandTrace(a, id, env)) == AfterCommand(a, id, env)
  {
    var received := a.(phase := Received(id));
    if ConsumeFails(a, id, env) {
      AgentRunCons(received, GiveUp, []);
      AgentRunCons(a, Receive(id), [GiveUp]);
    } else {
      var consumed := AfterConsume(a, id);
      AfterConsumeRun(consumed, a, id, env);
      assert AgentApply(received, Consume) == consumed;
      AgentRunCons(received, Consume, AfterConsumeTrace(a, id, env));
      AgentRunCons(a, Receive(id), [Consume] + AfterConsumeTrace(a, id, env));
    }
  }

  /** The only command a poll receives is the one it claimed. */
  lemma TraceReceivesOnly(a: Agent, id: CommandId, env: Answers)
    ensures forall e :: e in CommandTrace(a, id, env) && e.Receive? ==> e.id == id
  {
    assert forall e :: e in AfterConsumeTrace(a, id, env) ==> !e.Receive?;
  }

  /** Whatever one poll does to an agent is a run of the whole system, so every result about runs covers it. */
  lemma PollIsASystemRun(s: System, owner: Owner, id: CommandId, env: Answers)
    requires owner in s.agents && s.agents[owner].phase.Idle? && Offer(owner, id) in s.offers
    ensures
      var trace := CommandTrace(s.agents[owner], id, env);
      var run := seq(|trace|, i requires 0 <= i < |trace| => AgentStep(owner, trace[i]));
      && ValidRun(s, run)
      && owner in Run(s, run).agents
      && Run(s, run).agents[owner] == AfterCommand(s.agents[owner], id, env)
  {
    CommandIsARun(s.agents[owner], id, env);
    TraceReceivesOnly(s.agents[owner], id, env);
    AgentRunIsSystemRun(s, owner, CommandTrace(s.agents[owner], id, env));
  }

  /** Reported, built, or impossible to ever build: the row may leave the outbox. */
  predicate Handled(ev: OutboxEvent, answer: FlushAnswer) {
    match ev
    case AttemptReport(_) => answer.reportOk
    case CatalogBuild(snapshot) => snapshot == "" || answer.build != BuildFailed
  }

  /** What a heartbeat reply may change. */
  datatype Settings = Settings(pollSeconds: int, pauseWan: bool, providerDown: bool, siteId: string, policyInvalid: bool, policyRev: string)

  predicate PolicyTaken(offer: PolicyOffer) {
    offer.NoPolicy? || (offer.Policy? && offer.saved)
  }

  predicate HeartbeatTaken(reply: HeartbeatReply) {
    reply.NoContent? || (reply.Reply? && PolicyTaken(reply.heartbeat.policy))
  }

  /** A policy that is malformed or could not be saved leaves the revision alone and marks the policy invalid. */
  function AfterHeartbeat(before: Settings, hb: Heartbeat): Settings {
    Settings(
      if hb.pollSeconds > 0 then hb.pollSeconds else before.pollSeconds, hb.pauseWan, hb.providerDown, hb.siteId,
      !PolicyTaken(hb.policy),
      if hb.policy.Policy? && hb.policy.saved then hb.policy.revision else before.policyRev)
  }

  class Executor {
    var sequence: nat
    var pollSeconds: int
    var pauseWan: bool
    var providerDown: bool
    var siteId: string
    var policyInvalid: bool
    var policyRev: string
    var journal: Journal
    var outbox: seq<OutboxEvent>
    ghost var dispatches: map<CommandId, nat>
    ghost var interruptions: map<CommandId, nat>

    ghost function State(phase: Phase): Agent
      reads this
    {
      Agent(journal, phase, dispatches, interruptions)
    }

    function CurrentSettings(): Settings
      reads this
    {
      Settings(pollSeconds, pauseWan, providerDown, siteId, policyInvalid, policyRev)
    }

    /** Rows leave the outbox from the front, one by one, each only after it was handled; none if they cannot be read. */
    method FlushOutbox(rowsOk: bool, answers: seq<FlushAnswer>) returns (ok: bool, flushed: nat)
      requires |answers| >= OUTBOX_LIMIT
      modifies this`outbox
      ensures flushed <= |old(outbox)| && flushed <= OUTBOX_LIMIT && outbox == old(outbox)[flushed..]
      ensures forall i :: 0 <= i < flushed ==> Handled(old(outbox)[i], answers[i]) && answers[i].ackOk
      ensures forall i :: 0 <= i < flushed ==>
        && (old(outbox)[i].AttemptReport? ==> answers[i].reportOk)
        && (old(outbox)[i].CatalogBuild? ==> old(outbox)[i].snapshot == "" || answers[i].build != BuildFailed)
      ensures ok <==> rowsOk && (flushed == OUTBOX_LIMIT || outbox == [])
      ensures !rowsOk ==> flushed == 0
      ensures rowsOk && !ok ==>
        || !answers[flushed].ackOk || (old(outbox)[flushed].AttemptReport? && !answers[flushed].reportOk)
        || (old(outbox)[flushed].CatalogBuild? && old(outbox)[flushed].snapshot != "" && answers[flushed].build == BuildFailed)
    {
      if !rowsOk { return false, 0; }
      var rows := if |outbox| <= OUTBOX_LIMIT then outbox else outbox[..OUTBOX_LIMIT];
      flushed := 0;
      while flushed < |rows|
        invariant flushed <= |rows|
        invariant outbox == old(outbox)[flushed..]
        invariant forall i :: 0 <= i < flushed ==> Handled(old(outbox)[i], answers[i]) && answers[i].ackOk
      {
        var ev := rows[flushed];
        var answer := answers[flushed];
        match ev {
          case CatalogBuild(snapshot) =>
            // an enumeration that can never succeed must not block the rows behind it
            if snapshot != "" && answer.build == BuildFailed {
              return false, flushed;
            }
          case AttemptReport(_) =>
            if !answer.reportOk {
              return false, flushed;
            }
        }
        if !answer.ackOk {
          return false, flushed;
        }
        outbox := outbox[1..];
        flushed := flushed + 1;
      }
      ok := true;
    }

    method AcceptPolicy(offer: PolicyOffer) returns (ok: bool)
      modifies this`policyRev
      ensures ok <==> !(offer.Malformed? || (offer.Policy? && !offer.saved))
      ensures policyRev == if ok && offer.Policy? then offer.revision else old(policyRev)
    {
      match offer
      case NoPolicy => return true;
      case Malformed => return false;
      case Policy(revision, saved) =>
        if !saved {
          return false;
        }
        policyRev := revision;
        return true;
    }

    /** What a heartbeat reply changes; false when its policy was not accepted. */
    method AcceptHeartbeat(hb: Heartbeat) returns (ok: bool)
      modifies this`pollSeconds, this`pauseWan, this`providerDown, this`siteId, this`policyInvalid, this`policyRev
      ensures CurrentSettings() == AfterHeartbeat(old(CurrentSettings()), hb)
      ensures ok == PolicyTaken(hb.policy)
      ensures pauseWan == hb.pauseWan && providerDown == hb.providerDown && siteId == hb.siteId
      ensures pollSeconds == if hb.pollSeconds > 0 then hb.pollSeconds else old(pollSeconds)
      ensures policyInvalid <==> hb.policy.Malformed? || (hb.policy.Policy? && !hb.policy.saved)
      ensures policyRev == if hb.policy.Policy? && hb.policy.saved then hb.policy.revision else old(policyRev)
      ensures ok <==> !policyInvalid
    {
      if hb.pollSeconds > 0 {
        pollSeconds := hb.pollSeconds;
      }
      pauseWan, providerDown, siteId := hb.pauseWan, hb.providerDown, hb.siteId;
      ok := AcceptPolicy(hb.policy);
      policyInvalid := !ok;
    }

    /** One poll. `sent` is the ack that left the agent, `ran` whether a handler was called. */
    method Poll(env: Answers) returns (failed: Option<Stage>, sent: Option<(CommandId, Verdict, string)>, ran: bool)
      requires |env.flushed| >= OUTBOX_LIMIT
      modifies this
      // the outbox only loses rows from its front, and nothing else happens unless it was flushed
      ensures |outbox| <= |old(outbox)| && outbox == old(outbox)[|old(outbox)| - |outbox|..]
      ensures sequence == old(sequence) || (sequence == old(sequence) + 1 && env.rowsOk)
      ensures sequence == old(sequence) || env.reply.HeartbeatFailed? ==> failed == Some(StageHeartbeat)
      ensures sequence == old(sequence) || !env.reply.Reply? ==> CurrentSettings() == old(CurrentSettings())
      ensures sequence != old(sequence) && env.reply.Reply? ==>
        && CurrentSettings() == AfterHeartbeat(old(CurrentSettings()), env.reply.heartbeat)
        && (policyInvalid ==> failed == Some(StageHeartbeat))
      // journal and counters are what the claimed command makes of them, once the heartbeat and its policy were accepted
      ensures State(Idle) ==
        if sequence != old(sequence) && HeartbeatTaken(env.reply) && env.claim.Command?
        then AfterCommand(old(State(Idle)), env.claim.id, env) else old(State(Idle))
      ensures sequence != old(sequence) && HeartbeatTaken(env.reply) ==>
        (env.claim.ClaimFailed? ==> failed == Some(StageClaim)) && (env.claim.NothingToDo? ==> failed.None?)
      // the command is reached exactly if the outbox was flushed, and no refused policy came with the reply
      ensures ran <==>
        && env.claim.Command? && sequence != old(sequence) && !env.reply.HeartbeatFailed?
        && (env.reply.Reply? ==> !env.reply.heartbeat.policy.Malformed?)
        && (env.reply.Reply? && env.reply.heartbeat.policy.Policy? ==> env.reply.heartbeat.policy.saved)
        && env.consumeOk && (env.claim.id in old(journal) ==> env.resultOk && old(journal)[env.claim.id] == Consumed)
      // what its handler answers is what is recorded and sent
      ensures ran ==> env.claim.id in journal
      ensures ran && !env.finishOk ==> journal[env.claim.id] == Consumed
      ensures ran && env.finishOk ==>
        journal[env.claim.id] == Finished(Some(if env.handlerOk then Succeeded else Failed), env.handlerExtra)
      ensures ran && sent.Some? ==>
        && (sent.value.1 == Succeeded <==> env.handlerOk) && (sent.value.1 == Failed <==> !env.handlerOk)
        && sent.value.2 == env.handlerExtra
      ensures !ran && sent.Some? ==>
        && sent.value.0 in old(journal) && old(journal)[sent.value.0].Finished? && sent.value.2 == old(journal)[sent.value.0].extra
        && sent.value.1 == (if old(journal)[sent.value.0].verdict.Some? then old(journal)[sent.value.0].verdict.value else Failed)
      ensures ran ==> env.claim.Command? && dispatches == Bump(old(dispatches), env.claim.id)
      ensures ran ==> !(env.claim.id in old(journal) && old(journal)[env.claim.id].Finished?)
      ensures !ran ==> dispatches == old(dispatches)
      // an ack leaves only after the journal holds exactly what it says
      ensures sent.Some? ==>
        env.claim == Command(sent.value.0) && Recorded(State(Idle), sent.value.0, sent.value.1, sent.value.2)
      // a clean poll of a claimed command ends with its result acknowledged
      ensures failed.None? && env.claim.Command? ==> sent.Some? && env.ackOk
    {
      sent, ran := None, false;
      var ok, _ := FlushOutbox(env.rowsOk, env.flushed);
      if !ok {
        failed := Some(StageHeartbeat);
        return;
      }
      sequence := sequence + 1;
      if env.reply.HeartbeatFailed? {
        failed := Some(StageHeartbeat);
        return;
      }
      if env.reply.Reply? {
        ok := AcceptHeartbeat(env.reply.heartbeat);
        if !ok {
          failed := Some(StageHeartbeat);
          return;
        }
      }
      match env.claim
      case ClaimFailed => failed := Some(StageClaim);
      case NothingToDo => failed := None;
      case Command(id) => failed, sent, ran := RunCommand(id, env);
    }

    /** The part of `Poll` after a command was received. */
    method RunCommand(id: CommandId, env: Answers) returns (failed: Option<Stage>,
        sent: Option<(CommandId, Verdict, string)>, ran: bool)
      modifies this`journal, this`dispatches, this`interruptions
      ensures State(Idle) == AfterCommand(old(State(Idle)), id, env)
      ensures dispatches == if ran then Bump(old(dispatches), id) else old(dispatches)
      ensures ran ==> !(id in old(journal) && old(journal)[id].Finished?)
      ensures sent.Some? ==> sent.value.0 == id && Recorded(State(Idle), id, sent.value.1, sent.value.2)
      // the handler runs exactly for a command consumed now, or consumed before and never finished
      ensures ran <==> env.consumeOk && (id in old(journal) ==> env.resultOk && old(journal)[id] == Consumed)
      // its answer is what is recorded, and what is sent
      ensures ran ==> id in journal
      ensures ran && !env.finishOk ==> journal[id] == Consumed
      ensures ran && env.finishOk ==> journal[id] == Finished(Some(if env.handlerOk then Succeeded else Failed), env.handlerExtra)
      ensures ran && sent.Some? ==>
        && (sent.value.1 == Succeeded <==> env.handlerOk) && (sent.value.1 == Failed <==> !env.handlerOk)
        && sent.value.2 == env.handlerExtra
      // without it, what was recorded before is sent again, and a result without a state as a failure
      ensures !ran && sent.Some? ==>
        && id in old(journal) && old(journal)[id].Finished? && sent.value.2 == old(journal)[id].extra
        && sent.value.1 == (if old(journal)[id].verdict.Some? then old(journal)[id].verdict.value else Failed)
      ensures !ran && journal != old(journal) ==>
        && id in old(journal) && old(journal)[id].Finished? && old(journal)[id].verdict.None?
        && journal == old(journal)[id := Finished(Some(Failed), old(journal)[id].extra)]
      ensures forall other :: other != id ==>
        (other in journal <==> other in old(journal)) && (other in journal ==> journal[other] == old(journal)[other])
      // where it stops
      ensures failed == Some(StageConsume) <==> !env.consumeOk || (id in old(journal) && !env.resultOk)
      ensures failed == Some(StageFinish) <==>
        && failed != Some(StageConsume) && !env.finishOk
        && !(id in old(journal) && old(journal)[id].Finished? && old(journal)[id].verdict.Some?)
      ensures sent.Some? <==> failed != Some(StageConsume) && failed != Some(StageFinish)
      ensures failed == Some(StageAck) <==> sent.Some? && !env.ackOk
      ensures failed == Some(StageDispatch) <==> sent.Some? && env.ackOk && ran && !env.handlerOk
      ensures failed.None? ==> sent.Some? && env.ackOk
    {
      sent, ran := None, false;
      var already := id in journal;
      if !env.consumeOk {
        return Some(StageConsume), None, false;
      }
      if !already {
        journal := journal[id := Consumed];
      } else if !env.resultOk {
        return Some(StageConsume), None, false;
      }
      var verdict, extra;
      if journal[id].Finished? {
        // replay the recorded result; a result without a state becomes a failure first
        extra := journal[id].extra;
        if journal[id].verdict.None? {
          if !env.finishOk {
            return Some(StageFinish), None, false;
          }
          verdict := Failed;
          journal := journal[id := Finished(Some(verdict), extra)];
        } else {
          verdict := journal[id].verdict.value;
        }
      } else {
        ran := true;
        dispatches := Bump(dispatches, id);
        verdict, extra := if env.handlerOk then Succeeded else Failed, env.handlerExtra;
        if !env.finishOk {
          interruptions := Bump(interruptions, id);
          assert already ==> old(journal) == old(journal)[id := Consumed];
          return Some(StageFinish), None, true;
        }
        journal := journal[id := Finished(Some(verdict), extra)];
        assert journal == old(journal)[id := Finished(Some(verdict), extra)];
      }
      sent := Some((id, verdict, extra));
      if !env.ackOk {
        return Some(StageAck), sent, ran;
      }
      failed := if ran && !env.handlerOk then Some(StageDispatch) else None;
    }
  }
}
