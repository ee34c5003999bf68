/**
  Delivery of commands from the server to its agents, as one transition system: the command
  table, every agent's durable journal and the point its single poll loop has reached, a
  network that may lose, delay, duplicate and reorder, and a clock that never goes back.

  A claim is two steps (the SELECT, then the guarded UPDATE) and an ack is two steps (the
  checks on the row that was read, then the unconditional write), so concurrent requests
  interleave between them. An agent may crash between any two of its steps.
*/
module Delivery {
  import opened Options
  import opened Commands

  /** A row of `consumed_commands`. A row of an older build can be finished without a recorded state. */
  datatype JournalEntry = Consumed | Finished(verdict: Option<Verdict>, extra: string)

  type Journal = map<CommandId, JournalEntry>

  /** Where `Executor.Poll` stands between two journal or network calls. */
  datatype Phase =
    | Idle
    | Received(id: CommandId)
    | Ready(id: CommandId)
    | Running(id: CommandId)
    | Ran(id: CommandId, verdict: Verdict, extra: string)
    | Replaying(id: CommandId, extra: string)
    | Acking(id: CommandId, verdict: Verdict, extra: string)

  /** `dispatches` and `interruptions` only count; the code keeps neither. */
  datatype Agent = Agent(
    journal: Journal,
    phase: Phase,
    dispatches: map<CommandId, nat>,
    interruptions: map<CommandId, nat>)

  /** What a claim remembers between its SELECT and its UPDATE. */
  datatype Selection = Selection(owner: Owner, id: CommandId, at: int)
  datatype Offer = Offer(owner: Owner, id: CommandId)
  /** A delivery: `at` is the clock its claim had read, stored as `delivered_at`; `given` is the time of the UPDATE that made it. */
  datatype Handout = Handout(id: CommandId, at: int, given: int)

  /** `offers` and `acks` hold every message ever sent: any of them may arrive, any number of times. */
  datatype System = System(
    now: int,
    rows: Table,
    selected: set<Selection>,
    reading: set<Ack>,
    offers: set<Offer>,
    acks: set<Ack>,
    agents: map<Owner, Agent>,
    handouts: seq<Handout>)

  datatype AgentEvent =
    | Receive(id: CommandId)
    | Consume
    | Dispatch
    | Return(ok: bool, extra: string)
    | Finish
    | FinishError
    | SendAck
    | GiveUp
    | Crash

  datatype Event =
    | Tick(to: int)
    | Enqueue(id: CommandId, owner: Owner, kind: string, payloadHash: string, minutes: nat)
    | ClaimSelect(owner: Owner, id: CommandId)
    | ClaimUpdate(selection: Selection)
    | AckRead(ack: Ack)
    | AckWrite(ack: Ack)
    | ExpireDue
    | AgentStep(owner: Owner, event: AgentEvent)

  function Count(counts: map<CommandId, nat>, id: CommandId): nat {
    if id in counts then counts[id] else 0
  }

  function Bump(counts: map<CommandId, nat>, id: CommandId): map<CommandId, nat> {
    counts[id := Count(counts, id) + 1]
  }

  // ---- the agent ----

  predicate AgentEnabled(a: Agent, e: AgentEvent) {
    match e
    case Receive(_) => a.phase.Idle?
    case Consume => a.phase.Received?
    case Dispatch => a.phase.Ready?
    case Return(_, _) => a.phase.Running?
    case Finish => a.phase.Ran? || a.phase.Replaying?
    case FinishError => a.phase.Ran?
    case SendAck => a.phase.Acking?
    case GiveUp => a.phase.Received? || a.phase.Replaying? || a.phase.Acking?
    case Crash => true
  }

  /** ConsumeCommand and, for a command already consumed, the lookup of its recorded result. */
  function AfterConsume(a: Agent, id: CommandId): Agent {
    if id !in a.journal then a.(journal := a.journal[id := Consumed], phase := Ready(id))
    else match a.journal[id]
      case Consumed => a.(phase := Ready(id))
      case Finished(None, extra) => a.(phase := Replaying(id, extra))
      case Finished(Some(verdict), extra) => a.(phase := Acking(id, verdict, extra))
  }

  function AgentApply(a: Agent, e: AgentEvent): Agent
    requires AgentEnabled(a, e)
  {
    match e
    case Receive(id) => a.(phase := Received(id))
    case Consume => AfterConsume(a, a.phase.id)
    case Dispatch => a.(phase := Running(a.phase.id), dispatches := Bump(a.dispatches, a.phase.id))
    case Return(ok, extra) => a.(phase := Ran(a.phase.id, if ok then Succeeded else Failed, extra))
    case Finish =>
      // a result without a recorded state is replayed as a failure, never as a success
      var verdict := if a.phase.Ran? then a.phase.verdict else Failed;
      a.(journal := a.journal[a.phase.id := Finished(Some(verdict), a.phase.extra)],
         phase := Acking(a.phase.id, verdict, a.phase.extra))
    case FinishError => a.(phase := Idle, interruptions := Bump(a.interruptions, a.phase.id))
    case SendAck => a.(phase := Idle)
    case GiveUp => a.(phase := Idle)
    case Crash =>
      if a.phase.Ready? || a.phase.Running? || a.phase.Ran?
      then a.(phase := Idle, interruptions := Bump(a.interruptions, a.phase.id))
      else a.(phase := Idle)
  }

  // ---- the whole system ----

  predicate Enabled(s: System, e: Event) {
    match e
    case Tick(to) => s.now <= to
    case Enqueue(id, owner, kind, payloadHash, minutes) =>
      && id !in s.rows
      && kind in ALLOWED_COMMANDS
      && (Deduplicated(kind) ==> forall other :: other in s.rows ==> !Reusable(s.rows[other], owner, kind, payloadHash, s.now))
    case ClaimSelect(owner, id) => OldestClaimable(s.rows, id, owner, s.now)
    case ClaimUpdate(sel) => sel in s.selected
    case AckRead(ack) =>
      ack in s.acks && ack.id in s.rows && s.rows[ack.id].owner == ack.owner && Acceptable(s.rows[ack.id])
    case AckWrite(ack) => ack in s.reading && ack.id in s.rows
    case ExpireDue => true
    case AgentStep(owner, event) =>
      && owner in s.agents
      && AgentEnabled(s.agents[owner], event)
      && (event.Receive? ==> Offer(owner, event.id) in s.offers)
  }

  function Apply(s: System, e: Event): System
    requires Enabled(s, e)
  {
    match e
    case Tick(to) => s.(now := to)
    case Enqueue(id, owner, kind, payloadHash, minutes) =>
      s.(rows := s.rows[id := NewRow(owner, kind, payloadHash, s.now, minutes)])
    case ClaimSelect(owner, id) => s.(selected := s.selected + {Selection(owner, id, s.now)})
    case ClaimUpdate(sel) =>
      if sel.id in s.rows && Takeable(s.rows[sel.id], sel.owner, sel.at) then
        s.(rows := s.rows[sel.id := HandOut(s.rows[sel.id], sel.at)],
           selected := s.selected - {sel},
           offers := s.offers + {Offer(sel.owner, sel.id)},
           handouts := s.handouts + [Handout(sel.id, sel.at, s.now)])
      else s.(selected := s.selected - {sel})
    case AckRead(ack) => s.(reading := s.reading + {ack})
    case AckWrite(ack) => s.(rows := Settle(s.rows, ack, s.now))
    case ExpireDue => s.(rows := Expire(s.rows, s.now))
    case AgentStep(owner, event) =>
      var before := s.agents[owner];
      var after := s.(agents := s.agents[owner := AgentApply(before, event)]);
      if event.SendAck?
      then after.(acks := s.acks + {Ack(owner, before.phase.id, before.phase.verdict, before.phase.extra)})
      else after
  }

  /** Nothing has happened yet, but agents may carry journals from before. */
  ghost predicate Init(s: System) {
    && s.rows == map[] && s.selected == {} && s.reading == {} && s.offers == {} && s.acks == {} && s.handouts == []
    && forall o :: o in s.agents ==>
      s.agents[o].phase.Idle? && s.agents[o].dispatches == map[] && s.agents[o].interruptions == map[]
  }

  ghost predicate ValidRun(s: System, run: seq<Event>)
    decreases |run|
  {
    run == [] || (Enabled(s, run[0]) && ValidRun(Apply(s, run[0]), run[1..]))
  }

  ghost function Run(s: System, run: seq<Event>): System
    requires ValidRun(s, run)
    decreases |run|
  {
    if run == [] then s else Run(Apply(s, run[0]), run[1..])
  }

  // ---- what every agent step keeps ----

  ghost predicate PhaseMatchesJournal(a: Agent) {
    match a.phase
    case Idle => true
    case Received(_) => true
    case Ready(id) => id in a.journal && a.journal[id] == Consumed
    case Running(id) => id in a.journal && a.journal[id] == Consumed
    case Ran(id, _, _) => id in a.journal && a.journal[id] == Consumed
    case Replaying(id, extra) => id in a.journal && a.journal[id] == Finished(None, extra)
    case Acking(id, verdict, extra) => id in a.journal && a.journal[id] == Finished(Some(verdict), extra)
  }

  predicate InHandler(a: Agent, id: CommandId) {
    (a.phase.Running? || a.phase.Ran?) && a.phase.id == id
  }

  predicate IsFinished(a: Agent, id: CommandId) {
    id in a.journal && a.journal[id].Finished?
  }

  ghost predicate DispatchBound(a: Agent, id: CommandId) {
    Count(a.dispatches, id) <= Count(a.interruptions, id) + (if InHandler(a, id) || IsFinished(a, id) then 1 else 0)
  }

  ghost predicate AgentOk(a: Agent) {
    PhaseMatchesJournal(a) && forall id :: DispatchBound(a, id)
  }

  predicate Recorded(a: Agent, id: CommandId, verdict: Verdict, extra: string) {
    id in a.journal && a.journal[id] == Finished(Some(verdict), extra)
  }

  lemma AgentStepKeepsOk(a: Agent, e: AgentEvent)
    requires AgentOk(a) && AgentEnabled(a, e)
    ensures AgentOk(AgentApply(a, e))
  {
    var b := AgentApply(a, e);
    forall id ensures DispatchBound(b, id) {
      assert DispatchBound(a, id);
    }
  }

  /** A finished entry with a recorded state is never rewritten, and is never dispatched again. */
  lemma AgentStepKeepsRecord(a: Agent, e: AgentEvent, id: CommandId)
    requires PhaseMatchesJournal(a) && AgentEnabled(a, e) && IsFinished(a, id)
    ensures IsFinished(AgentApply(a, e), id)
    ensures a.journal[id].verdict.Some? ==> AgentApply(a, e).journal[id] == a.journal[id]
    ensures Count(AgentApply(a, e).dispatches, id) == Count(a.dispatches, id)
  {
  }

  // ---- the system invariant ----

  ghost predicate AckOk(s: System, ack: Ack) {
    ack.owner in s.agents && Recorded(s.agents[ack.owner], ack.id, ack.verdict, ack.extra)
  }

  ghost predicate ReadingOk(s: System, ack: Ack) {
    && AckOk(s, ack)
    && ack.id in s.rows && s.rows[ack.id].owner == ack.owner
    && s.rows[ack.id].state != Queued && s.rows[ack.id].deliveredAt.Some?
  }

  ghost predicate SelectionOk(s: System, sel: Selection) {
    && sel.id in s.rows && s.rows[sel.id].owner == sel.owner
    && s.rows[sel.id].createdAt <= sel.at <= s.now
    && sel.at < s.rows[sel.id].expiresAt
  }

  /** A delivered command that shows a verdict shows the one its agent recorded, with the same result. */
  ghost predicate VerdictOk(s: System, row: Row, id: CommandId) {
    row.state.Settled? && (row.state.verdict != Cancelled || row.deliveredAt.Some?) ==>
      row.owner in s.agents && Recorded(s.agents[row.owner], id, row.state.verdict, row.result)
  }

  /** Each delivery but the first needs a lease of more than 20 s to have run out before it. */
  ghost predicate TimesOk(row: Row) {
    && (row.state == Queued ==> row.deliveredAt.None?)
    && (row.state == Delivered ==> row.deliveredAt.Some?)
    && (row.deliveredAt.None? <==> row.attempts == 0)
    && (row.deliveredAt.Some? ==>
          row.createdAt + (row.attempts - 1) * (REDELIVERY_LEASE + 1) <= row.deliveredAt.value < row.expiresAt)
  }

  function HandoutsOf(handouts: seq<Handout>, id: CommandId): nat {
    if handouts == [] then 0
    else HandoutsOf(handouts[..|handouts| - 1], id) + (if handouts[|handouts| - 1].id == id then 1 else 0)
  }

  ghost predicate GapsOk(handouts: seq<Handout>) {
    forall i, j :: 0 <= i < j < |handouts| && handouts[i].id == handouts[j].id ==>
      handouts[j].at - handouts[i].at > REDELIVERY_LEASE
  }

  ghost predicate LatestOk(handouts: seq<Handout>, rows: Table) {
    forall h :: h in handouts ==>
      h.id in rows && rows[h.id].deliveredAt.Some? && h.at <= rows[h.id].deliveredAt.value
  }

  ghost predicate CountsOk(handouts: seq<Handout>, rows: Table) {
    && (forall id :: id in rows ==> HandoutsOf(handouts, id) == rows[id].attempts)
    && (forall id :: id !in rows ==> HandoutsOf(handouts, id) == 0)
  }

  ghost predicate HandoutsOk(s: System) {
    GapsOk(s.handouts) && LatestOk(s.handouts, s.rows) && CountsOk(s.handouts, s.rows)
  }

  /** Two commands that `enqueue_command` would have merged. */
  predicate Twins(a: Row, b: Row, now: int) {
    Deduplicated(a.kind) && Reusable(a, b.owner, b.kind, b.payloadHash, now) && Pending(b, now)
  }

  ghost predicate NoTwins(s: System) {
    forall a, b :: a in s.rows && b in s.rows && a != b ==> !Twins(s.rows[a], s.rows[b], s.now)
  }

  ghost predicate MessagesOk(s: System) {
    && (forall ack :: ack in s.acks ==> AckOk(s, ack))
    && (forall ack :: ack in s.reading ==> ReadingOk(s, ack))
    && (forall sel :: sel in s.selected ==> SelectionOk(s, sel))
  }

  ghost predicate RowsOk(s: System) {
    forall id :: id in s.rows ==> VerdictOk(s, s.rows[id], id) && TimesOk(s.rows[id]) && s.rows[id].createdAt <= s.now
  }

  ghost predicate AgentsOk(s: System) {
    forall o :: o in s.agents ==> AgentOk(s.agents[o])
  }

  ghost predicate Inv(s: System) {
    AgentsOk(s) && MessagesOk(s) && RowsOk(s) && HandoutsOk(s) && NoTwins(s)
  }

  lemma InitHolds(s: System)
    requires Init(s)
    ensures Inv(s)
  {
  }

  // ---- how rows may change ----

  /** Identity and window stay; a delivered row is never queued again; nothing becomes pending again. */
  predicate RowEvolves(before: Row, after: Row) {
    && after.owner == before.owner && after.kind == before.kind && after.payloadHash == before.payloadHash
    && after.createdAt == before.createdAt && after.expiresAt == before.expiresAt
    && (before.deliveredAt.Some? ==> after.deliveredAt.Some? && after.deliveredAt.value >= before.deliveredAt.value)
    && (before.state != Queued ==> after.state != Queued)
    && (after.state == Queued || after.state == Delivered ==> before.state == Queued || before.state == Delivered)
  }

  /** Nothing but rows and the clock changed, and every row evolved. */
  ghost predicate RowsEvolve(s: System, s': System) {
    && s'.agents == s.agents && s'.acks == s.acks && s'.reading == s.reading && s'.selected <= s.selected
    && s.now <= s'.now && s'.rows.Keys == s.rows.Keys
    && forall id :: id in s.rows ==> RowEvolves(s.rows[id], s'.rows[id])
  }

  lemma EvolutionKeepsMessages(s: System, s': System)
    requires MessagesOk(s) && RowsEvolve(s, s')
    ensures MessagesOk(s')
  {
    forall ack | ack in s'.acks ensures AckOk(s', ack) { assert AckOk(s, ack); }
    forall ack | ack in s'.reading ensures ReadingOk(s', ack) {
      assert ReadingOk(s, ack) && RowEvolves(s.rows[ack.id], s'.rows[ack.id]);
    }
    forall sel | sel in s'.selected ensures SelectionOk(s', sel) {
      assert SelectionOk(s, sel) && RowEvolves(s.rows[sel.id], s'.rows[sel.id]);
    }
  }

  lemma EvolutionKeepsNoTwins(s: System, s': System)
    requires NoTwins(s) && RowsEvolve(s, s')
    ensures NoTwins(s')
  {
    forall a, b | a in s'.rows && b in s'.rows && a != b ensures !Twins(s'.rows[a], s'.rows[b], s'.now) {
      assert RowEvolves(s.rows[a], s'.rows[a]) && RowEvolves(s.rows[b], s'.rows[b]);
      assert !Twins(s.rows[a], s.rows[b], s.now);
    }
  }

  lemma EvolutionKeepsHandouts(s: System, s': System)
    requires HandoutsOk(s) && RowsEvolve(s, s') && s'.handouts == s.handouts
    requires forall id :: id in s.rows ==> s'.rows[id].attempts == s.rows[id].attempts
    ensures HandoutsOk(s')
  {
    forall h | h in s'.handouts
      ensures h.id in s'.rows && s'.rows[h.id].deliveredAt.Some? && h.at <= s'.rows[h.id].deliveredAt.value
    {
      assert RowEvolves(s.rows[h.id], s'.rows[h.id]);
    }
  }

  // ---- every step keeps the invariant ----

  lemma AgentEventKeepsInv(s: System, owner: Owner, event: AgentEvent)
    requires Inv(s) && Enabled(s, AgentStep(owner, event))
    ensures Inv(Apply(s, AgentStep(owner, event)))
  {
    var a := s.agents[owner];
    var s' := Apply(s, AgentStep(owner, event));
    assert AgentOk(a);
    AgentStepKeepsOk(a, event);
    forall id, verdict, extra | Recorded(a, id, verdict, extra)
      ensures Recorded(s'.agents[owner], id, verdict, extra)
    {
      AgentStepKeepsRecord(a, event, id);
    }
    forall ack | ack in s'.acks ensures AckOk(s', ack) {
      if ack in s.acks {
        assert AckOk(s, ack);
      }
    }
    forall ack | ack in s'.reading ensures ReadingOk(s', ack) { assert ReadingOk(s, ack); }
    forall sel | sel in s'.selected ensures SelectionOk(s', sel) { assert SelectionOk(s, sel); }
    forall id | id in s'.rows ensures VerdictOk(s', s'.rows[id], id) && TimesOk(s'.rows[id]) {
      assert VerdictOk(s, s.rows[id], id);
    }
    assert NoTwins(s');
  }

  lemma EnqueueKeepsInv(s: System, e: Event)
    requires Inv(s) && e.Enqueue? && Enabled(s, e)
    ensures Inv(Apply(s, e))
  {
    var s' := Apply(s, e);
    forall ack | ack in s'.acks ensures AckOk(s', ack) { assert AckOk(s, ack); }
    forall ack | ack in s'.reading ensures ReadingOk(s', ack) { assert ReadingOk(s, ack); }
    forall sel | sel in s'.selected ensures SelectionOk(s', sel) { assert SelectionOk(s, sel); }
    forall id | id in s'.rows ensures VerdictOk(s', s'.rows[id], id) && TimesOk(s'.rows[id]) {
      assert id != e.id ==> VerdictOk(s, s.rows[id], id);
    }
    forall a, b | a in s'.rows && b in s'.rows && a != b ensures !Twins(s'.rows[a], s'.rows[b], s'.now) {
      if a != e.id && b != e.id {
        assert !Twins(s.rows[a], s.rows[b], s.now);
      }
    }
  }

  lemma HandOutRow(row: Row, owner: Owner, at: int)
    requires Takeable(row, owner, at) && TimesOk(row) && row.createdAt <= at < row.expiresAt
    ensures RowEvolves(row, HandOut(row, at)) && TimesOk(HandOut(row, at)) && HandOut(row, at).state == Delivered
  {
  }

  lemma HandOutEvolves(s: System, sel: Selection)
    requires Inv(s) && sel in s.selected && sel.id in s.rows && Takeable(s.rows[sel.id], sel.owner, sel.at)
    ensures RowsEvolve(s, Apply(s, ClaimUpdate(sel)))
    ensures RowsOk(Apply(s, ClaimUpdate(sel)))
  {
    var s' := Apply(s, ClaimUpdate(sel));
    assert SelectionOk(s, sel) && TimesOk(s.rows[sel.id]);
    HandOutRow(s.rows[sel.id], sel.owner, sel.at);
    assert s'.rows == s.rows[sel.id := HandOut(s.rows[sel.id], sel.at)];
    forall id | id in s.rows
      ensures RowEvolves(s.rows[id], s'.rows[id]) && VerdictOk(s', s'.rows[id], id) && TimesOk(s'.rows[id])
    {
      assert VerdictOk(s, s.rows[id], id) && TimesOk(s.rows[id]);
    }
  }

  lemma ClaimUpdateKeepsInv(s: System, sel: Selection)
    requires Inv(s) && Enabled(s, ClaimUpdate(sel))
    ensures Inv(Apply(s, ClaimUpdate(sel)))
  {
    var s' := Apply(s, ClaimUpdate(sel));
    if sel.id in s.rows && Takeable(s.rows[sel.id], sel.owner, sel.at) {
      HandOutEvolves(s, sel);
      ClaimKeepsHandouts(s, sel);
    } else {
      forall id | id in s.rows ensures VerdictOk(s', s'.rows[id], id) { assert VerdictOk(s, s.rows[id], id); }
    }
    EvolutionKeepsMessages(s, s');
    EvolutionKeepsNoTwins(s, s');
  }

  lemma AppendKeepsGaps(handouts: seq<Handout>, h: Handout)
    requires GapsOk(handouts)
    requires forall g :: g in handouts && g.id == h.id ==> h.at - g.at > REDELIVERY_LEASE
    ensures GapsOk(handouts + [h])
  {
    var longer := handouts + [h];
    forall i, j | 0 <= i < j < |longer| && longer[i].id == longer[j].id
      ensures longer[j].at - longer[i].at > REDELIVERY_LEASE
    {
      assert longer[i] in handouts;
    }
  }

  lemma AppendCounts(handouts: seq<Handout>, h: Handout)
    ensures forall id ::
      HandoutsOf(handouts + [h], id) == HandoutsOf(handouts, id) + (if id == h.id then 1 else 0)
  {
    assert (handouts + [h])[..|handouts|] == handouts;
  }

  lemma ClaimKeepsCounts(handouts: seq<Handout>, rows: Table, id: CommandId, at: int, given: int)
    requires LatestOk(handouts, rows) && CountsOk(handouts, rows) && id in rows
    requires rows[id].deliveredAt.Some? ==> rows[id].deliveredAt.value <= at
    ensures LatestOk(handouts + [Handout(id, at, given)], rows[id := HandOut(rows[id], at)])
    ensures CountsOk(handouts + [Handout(id, at, given)], rows[id := HandOut(rows[id], at)])
  {
    AppendCounts(handouts, Handout(id, at, given));
  }

  lemma ClaimKeepsHandouts(s: System, sel: Selection)
    requires HandoutsOk(s) && sel.id in s.rows && TimesOk(s.rows[sel.id]) && Takeable(s.rows[sel.id], sel.owner, sel.at)
    ensures HandoutsOk(s.(rows := s.rows[sel.id := HandOut(s.rows[sel.id], sel.at)],
                          handouts := s.handouts + [Handout(sel.id, sel.at, s.now)]))
  {
    AppendKeepsGaps(s.handouts, Handout(sel.id, sel.at, s.now));
    ClaimKeepsCounts(s.handouts, s.rows, sel.id, sel.at, s.now);
  }

  lemma SettleEvolves(s: System, ack: Ack)
    requires Inv(s) && Enabled(s, AckWrite(ack))
    ensures RowsEvolve(s, Apply(s, AckWrite(ack)))
    ensures RowsOk(Apply(s, AckWrite(ack)))
  {
    var s' := Apply(s, AckWrite(ack));
    assert ReadingOk(s, ack);
    forall id | id in s.rows
      ensures RowEvolves(s.rows[id], s'.rows[id]) && VerdictOk(s', s'.rows[id], id) && TimesOk(s'.rows[id])
    {
      assert VerdictOk(s, s.rows[id], id) && TimesOk(s.rows[id]);
    }
  }

  lemma ExpireEvolves(s: System)
    requires Inv(s)
    ensures RowsEvolve(s, Apply(s, ExpireDue))
    ensures RowsOk(Apply(s, ExpireDue))
  {
    var s' := Apply(s, ExpireDue);
    forall id | id in s.rows
      ensures RowEvolves(s.rows[id], s'.rows[id]) && VerdictOk(s', s'.rows[id], id) && TimesOk(s'.rows[id])
    {
      assert VerdictOk(s, s.rows[id], id) && TimesOk(s.rows[id]);
    }
  }

  lemma SelectKeepsInv(s: System, owner: Owner, id: CommandId)
    requires Inv(s) && Enabled(s, ClaimSelect(owner, id))
    ensures Inv(Apply(s, ClaimSelect(owner, id)))
  {
    var s' := Apply(s, ClaimSelect(owner, id));
    forall ack | ack in s'.acks ensures AckOk(s', ack) { assert AckOk(s, ack); }
    forall ack | ack in s'.reading ensures ReadingOk(s', ack) { assert ReadingOk(s, ack); }
    forall sel | sel in s'.selected ensures SelectionOk(s', sel) {
      assert sel in s.selected ==> SelectionOk(s, sel);
    }
    assert forall other :: other in s.rows && VerdictOk(s, s.rows[other], other) ==> VerdictOk(s', s'.rows[other], other);
  }

  lemma AckReadKeepsInv(s: System, ack: Ack)
    requires Inv(s) && Enabled(s, AckRead(ack))
    ensures Inv(Apply(s, AckRead(ack)))
  {
    var s' := Apply(s, AckRead(ack));
    assert AckOk(s, ack) && TimesOk(s.rows[ack.id]);
    forall other | other in s'.acks ensures AckOk(s', other) { assert AckOk(s, other); }
    forall other | other in s'.reading ensures ReadingOk(s', other) {
      assert other in s.reading ==> ReadingOk(s, other);
    }
    forall sel | sel in s'.selected ensures SelectionOk(s', sel) { assert SelectionOk(s, sel); }
    assert forall id :: id in s.rows && VerdictOk(s, s.rows[id], id) ==> VerdictOk(s', s'.rows[id], id);
  }

  lemma TickKeepsInv(s: System, to: int)
    requires Inv(s) && s.now <= to
    ensures Inv(s.(now := to))
  {
    var s' := s.(now := to);
    EvolutionKeepsMessages(s, s');
    EvolutionKeepsNoTwins(s, s');
    forall id | id in s.rows ensures VerdictOk(s', s'.rows[id], id) { assert VerdictOk(s, s.rows[id], id); }
  }

  lemma AckWriteKeepsInv(s: System, ack: Ack)
    requires Inv(s) && Enabled(s, AckWrite(ack))
    ensures Inv(Apply(s, AckWrite(ack)))
  {
    var s' := Apply(s, AckWrite(ack));
    SettleEvolves(s, ack);
    EvolutionKeepsMessages(s, s');
    EvolutionKeepsNoTwins(s, s');
    EvolutionKeepsHandouts(s, s');
  }

  lemma ExpireKeepsInv(s: System)
    requires Inv(s)
    ensures Inv(Apply(s, ExpireDue))
  {
    var s' := Apply(s, ExpireDue);
    ExpireEvolves(s);
    EvolutionKeepsMessages(s, s');
    EvolutionKeepsNoTwins(s, s');
    EvolutionKeepsHandouts(s, s');
  }

  lemma StepKeepsInv(s: System, e: Event)
    requires Inv(s) && Enabled(s, e)
    ensures Inv(Apply(s, e))
  {
    match e
    case Tick(to) => TickKeepsInv(s, to);
    case Enqueue(_, _, _, _, _) => EnqueueKeepsInv(s, e);
    case ClaimSelect(owner, id) => SelectKeepsInv(s, owner, id);
    case ClaimUpdate(sel) => ClaimUpdateKeepsInv(s, sel);
    case AckRead(ack) => AckReadKeepsInv(s, ack);
    case AckWrite(ack) => AckWriteKeepsInv(s, ack);
    case ExpireDue => ExpireKeepsInv(s);
    case AgentStep(owner, event) => AgentEventKeepsInv(s, owner, event);
  }

  lemma {:induction false} RunKeepsInv(s: System, run: seq<Event>)
    requires Inv(s) && ValidRun(s, run)
    ensures Inv(Run(s, run))
    decreases |run|
  {
    if run != [] {
      StepKeepsInv(s, run[0]);
      RunKeepsInv(Apply(s, run[0]), run[1..]);
    }
  }

  // ---- main results ----

  /** A success or failure the server shows is the one the agent's journal holds, result included. */
  lemma VerdictsMatchTheJournal(s: System, run: seq<Event>, id: CommandId)
    requires Init(s) && ValidRun(s, run)
    requires id in Run(s, run).rows && Run(s, run).rows[id].state.Settled?
    ensures
      var end := Run(s, run);
      var row := end.rows[id];
      row.state.verdict != Cancelled ==>
        row.owner in end.agents && Recorded(end.agents[row.owner], id, row.state.verdict, row.result)
  {
    InitHolds(s);
    RunKeepsInv(s, run);
    assert VerdictOk(Run(s, run), Run(s, run).rows[id], id);
  }

  // ---- where a verdict comes from ----

  /** At some point of the run this agent's handler, at work on this command, returned `extra`, with or without an error. */
  ghost predicate HandlerReturned(s: System, run: seq<Event>, owner: Owner, id: CommandId, ok: bool, extra: string)
    requires ValidRun(s, run)
    decreases |run|
  {
    run != [] &&
    ((run[0] == AgentStep(owner, Return(ok, extra)) && s.agents[owner].phase == Running(id))
     || HandlerReturned(Apply(s, run[0]), run[1..], owner, id, ok, extra))
  }

  /** The verdict is recorded, about to be, or follows from a result recorded without a state. */
  predicate Decided(a: Agent, id: CommandId, verdict: Verdict, extra: string) {
    || Recorded(a, id, verdict, extra)
    || a.phase == Ran(id, verdict, extra)
    || (verdict == Failed && id in a.journal && a.journal[id] == Finished(None, extra))
  }

  lemma DecidedBefore(a: Agent, e: AgentEvent, id: CommandId, verdict: Verdict, extra: string)
    requires PhaseMatchesJournal(a) && AgentEnabled(a, e) && Decided(AgentApply(a, e), id, verdict, extra)
    ensures
      || Decided(a, id, verdict, extra)
      || (a.phase == Running(id) && verdict != Cancelled && e == Return(verdict == Succeeded, extra))
  {
  }

  lemma {:induction false} DecidedInRun(s: System, run: seq<Event>, owner: Owner, id: CommandId, verdict: Verdict, extra: string)
    requires Inv(s) && ValidRun(s, run) && owner in Run(s, run).agents && Decided(Run(s, run).agents[owner], id, verdict, extra)
    ensures owner in s.agents
    ensures
      || Decided(s.agents[owner], id, verdict, extra)
      || (verdict != Cancelled && HandlerReturned(s, run, owner, id, verdict == Succeeded, extra))
    decreases |run|
  {
    if run != [] {
      StepKeepsInv(s, run[0]);
      DecidedInRun(Apply(s, run[0]), run[1..], owner, id, verdict, extra);
      if run[0].AgentStep? && run[0].owner == owner {
        assert AgentOk(s.agents[owner]);
        if Decided(AgentApply(s.agents[owner], run[0].event), id, verdict, extra) {
          DecidedBefore(s.agents[owner], run[0].event, id, verdict, extra);
        }
      }
    }
  }

  /**
    A success the server shows was returned without an error by the handler, a failure with one, in this
    run and with this result; unless the agent's journal had come with it.
  */
  lemma VerdictsComeFromHandlers(s: System, run: seq<Event>, id: CommandId)
    requires Init(s) && ValidRun(s, run)
    requires id in Run(s, run).rows && Run(s, run).rows[id].state.Settled? && Run(s, run).rows[id].state.verdict != Cancelled
    ensures
      var row := Run(s, run).rows[id];
      && row.owner in s.agents
      && (|| HandlerReturned(s, run, row.owner, id, row.state.verdict == Succeeded, row.result)
          || (id in s.agents[row.owner].journal
              && (s.agents[row.owner].journal[id] == Finished(Some(row.state.verdict), row.result)
                  || (row.state.verdict == Failed && s.agents[row.owner].journal[id] == Finished(None, row.result)))))
  {
    InitHolds(s);
    VerdictsMatchTheJournal(s, run, id);
    var row := Run(s, run).rows[id];
    DecidedInRun(s, run, row.owner, id, row.state.verdict, row.result);
  }

  // ---- what is settled stays ----

  /** One step leaves a settled command's state and result alone, whatever stale write it is. */
  lemma StepKeepsSettled(s: System, e: Event, id: CommandId)
    requires Inv(s) && Enabled(s, e) && id in s.rows && s.rows[id].state.Settled?
    ensures
      var after := Apply(s, e).rows;
      id in after && after[id].state == s.rows[id].state && after[id].result == s.rows[id].result
  {
    assert VerdictOk(s, s.rows[id], id);
    if e.AckWrite? {
      assert ReadingOk(s, e.ack);
    }
  }

  lemma {:induction false} SettledStays(s: System, run: seq<Event>, id: CommandId)
    requires Inv(s) && ValidRun(s, run) && id in s.rows && s.rows[id].state.Settled?
    ensures
      var after := Run(s, run).rows;
      id in after && after[id].state == s.rows[id].state && after[id].result == s.rows[id].result
    decreases |run|
  {
    if run != [] {
      StepKeepsInv(s, run[0]);
      StepKeepsSettled(s, run[0], id);
      SettledStays(Apply(s, run[0]), run[1..], id);
    }
  }

  /** Once settled at any moment of any run, a command's state and result never change afterwards. */
  lemma SettledIsFinal(s: System, run: seq<Event>, later: seq<Event>, id: CommandId)
    requires Init(s) && ValidRun(s, run) && ValidRun(Run(s, run), later)
    requires id in Run(s, run).rows && Run(s, run).rows[id].state.Settled?
    ensures
      var once := Run(s, run).rows;
      var after := Run(Run(s, run), later).rows;
      id in after && after[id].state == once[id].state && after[id].result == once[id].result
  {
    InitHolds(s);
    RunKeepsInv(s, run);
    SettledStays(Run(s, run), later, id);
  }

  /** Dispatches never exceed one plus the interruptions between consume and durable finish. */
  lemma DispatchesAreBounded(s: System, run: seq<Event>, owner: Owner, id: CommandId)
    requires Init(s) && ValidRun(s, run) && owner in Run(s, run).agents
    ensures
      var a := Run(s, run).agents[owner];
      Count(a.dispatches, id) <= 1 + Count(a.interruptions, id)
  {
    InitHolds(s);
    RunKeepsInv(s, run);
    assert AgentOk(Run(s, run).agents[owner]);
    assert DispatchBound(Run(s, run).agents[owner], id);
  }

  lemma StepKeepsFinished(s: System, e: Event, owner: Owner, id: CommandId)
    requires Inv(s) && Enabled(s, e) && owner in s.agents && IsFinished(s.agents[owner], id)
    ensures
      var after := Apply(s, e).agents;
      && owner in after && IsFinished(after[owner], id)
      && Count(after[owner].dispatches, id) == Count(s.agents[owner].dispatches, id)
      && (s.agents[owner].journal[id].verdict.Some? ==> after[owner].journal[id] == s.agents[owner].journal[id])
  {
    assert AgentOk(s.agents[owner]);
    if e.AgentStep? && e.owner == owner {
      AgentStepKeepsRecord(s.agents[owner], e.event, id);
    }
  }

  /** A finished command is never dispatched again, and its recorded verdict and result stay. */
  lemma {:induction false} FinishedIsFinal(s: System, run: seq<Event>, owner: Owner, id: CommandId)
    requires Inv(s) && ValidRun(s, run) && owner in s.agents && IsFinished(s.agents[owner], id)
    ensures
      var after := Run(s, run).agents;
      && owner in after && IsFinished(after[owner], id)
      && Count(after[owner].dispatches, id) == Count(s.agents[owner].dispatches, id)
      && (s.agents[owner].journal[id].verdict.Some? ==> after[owner].journal[id] == s.agents[owner].journal[id])
    decreases |run|
  {
    if run != [] {
      StepKeepsInv(s, run[0]);
      StepKeepsFinished(s, run[0], owner, id);
      FinishedIsFinal(Apply(s, run[0]), run[1..], owner, id);
    }
  }

  lemma LastHandout(handouts: seq<Handout>, id: CommandId)
    requires handouts != []
    ensures
      var n := |handouts| - 1;
      (set i | 0 <= i < |handouts| && handouts[i].id == id) ==
        (set i | 0 <= i < n && handouts[..n][i].id == id) + (if handouts[n].id == id then {n} else {})
  {
  }

  lemma {:induction false} HandoutsAt(handouts: seq<Handout>, id: CommandId)
    ensures HandoutsOf(handouts, id) == |set i | 0 <= i < |handouts| && handouts[i].id == id|
    decreases |handouts|
  {
    if handouts != [] {
      HandoutsAt(handouts[..|handouts| - 1], id);
      LastHandout(handouts, id);
    }
  }

  lemma {:induction false} WindowStays(s: System, run: seq<Event>, id: CommandId)
    requires ValidRun(s, run) && id in s.rows
    ensures
      var after := Run(s, run).rows;
      id in after && after[id].createdAt == s.rows[id].createdAt && after[id].expiresAt == s.rows[id].expiresAt
    decreases |run|
  {
    if run != [] {
      WindowStays(Apply(s, run[0]), run[1..], id);
    }
  }

  lemma WindowBoundsDeliveries(s: System, id: CommandId)
    requires Inv(s) && id in s.rows
    ensures
      var row := s.rows[id];
      && |set i | 0 <= i < |s.handouts| && s.handouts[i].id == id| == row.attempts
      && (row.attempts > 0 ==> REDELIVERY_LEASE * (row.attempts - 1) < row.expiresAt - row.createdAt)
  {
    HandoutsAt(s.handouts, id);
    assert TimesOk(s.rows[id]);
  }

  /** A command enqueued for m minutes is handed out n times only with 20 · (n - 1) < 60 · m. */
  lemma DeliveriesAreBounded(s: System, run: seq<Event>, e: Event, later: seq<Event>)
    requires Init(s) && ValidRun(s, run) && e.Enqueue? && Enabled(Run(s, run), e)
    requires ValidRun(Apply(Run(s, run), e), later)
    ensures
      var end := Run(Apply(Run(s, run), e), later);
      var n := |set i | 0 <= i < |end.handouts| && end.handouts[i].id == e.id|;
      && e.id in end.rows && end.rows[e.id].attempts == n
      && (n > 0 ==> 20 * (n - 1) < 60 * e.minutes)
      && (e.minutes == 15 ==> n <= 45)
  {
    InitHolds(s);
    RunKeepsInv(s, run);
    StepKeepsInv(Run(s, run), e);
    BoundFrom(Apply(Run(s, run), e), e, later);
  }

  lemma BoundFrom(queued: System, e: Event, later: seq<Event>)
    requires Inv(queued) && ValidRun(queued, later) && e.Enqueue? && e.id in queued.rows
    requires queued.rows[e.id].expiresAt == queued.rows[e.id].createdAt + e.minutes * MINUTE
    ensures
      var end := Run(queued, later);
      var n := |set i | 0 <= i < |end.handouts| && end.handouts[i].id == e.id|;
      && e.id in end.rows && end.rows[e.id].attempts == n
      && (n > 0 ==> 20 * (n - 1) < 60 * e.minutes)
      && (e.minutes == 15 ==> n <= 45)
  {
    RunKeepsInv(queued, later);
    WindowStays(queued, later, e.id);
    WindowBoundsDeliveries(Run(queued, later), e.id);
  }

  /** No delivery is made before its claim read the clock. */
  ghost predicate GivenOk(s: System) {
    forall h :: h in s.handouts ==> h.at <= h.given
  }

  lemma {:induction false} RunKeepsGiven(s: System, run: seq<Event>)
    requires Inv(s) && GivenOk(s) && ValidRun(s, run)
    ensures GivenOk(Run(s, run))
    decreases |run|
  {
    if run != [] {
      if run[0].ClaimUpdate? { assert SelectionOk(s, run[0].selection); }
      StepKeepsInv(s, run[0]);
      RunKeepsGiven(Apply(s, run[0]), run[1..]);
    }
  }

  /**
    The stamps of two deliveries of one command are more than 20 s apart, however claims interleave. The
    deliveries themselves are more than 20 s apart less the time the earlier claim took from its SELECT to
    its UPDATE.
  */
  lemma DeliveriesAreSpaced(s: System, run: seq<Event>, i: nat, j: nat)
    requires Init(s) && ValidRun(s, run) && i < j < |Run(s, run).handouts|
    requires Run(s, run).handouts[i].id == Run(s, run).handouts[j].id
    ensures
      var earlier, later := Run(s, run).handouts[i], Run(s, run).handouts[j];
      && later.at - earlier.at > 20 * SECOND
      && later.given - earlier.given > 20 * SECOND - (earlier.given - earlier.at)
  {
    InitHolds(s);
    RunKeepsInv(s, run);
    RunKeepsGiven(s, run);
    assert Run(s, run).handouts[j] in Run(s, run).handouts;
  }

  ghost predicate Leads(s: System, run: seq<Event>, s': System) {
    ValidRun(s, run) && Run(s, run) == s'
  }

  lemma LeadsFirst(s: System, e: Event, rest: seq<Event>, s': System)
    requires Enabled(s, e) && Leads(Apply(s, e), rest, s')
    ensures Leads(s, [e] + rest, s')
  {
    var run := [e] + rest;
    assert run[0] == e && run[1..] == rest;
  }

  /** A claim of the only command, its UPDATE `lag` after its SELECT. */
  lemma SlowClaim(s: System, owner: Owner, id: CommandId, to: int)
    requires s.rows.Keys == {id} && Claimable(s.rows[id], owner, s.now) && s.now <= to && s.selected == {}
    ensures
      var sel := Selection(owner, id, s.now);
      Leads(s, [ClaimSelect(owner, id)] + ([Tick(to)] + ([ClaimUpdate(sel)] + [])),
            s.(now := to, rows := map[id := HandOut(s.rows[id], s.now)], offers := s.offers + {Offer(owner, id)},
               handouts := s.handouts + [Handout(id, s.now, to)]))
  {
    var sel := Selection(owner, id, s.now);
    var selected := Apply(s, ClaimSelect(owner, id));
    var ticked := Apply(selected, Tick(to));
    var given := Apply(ticked, ClaimUpdate(sel));
    assert given.selected == {} && given.rows == map[id := HandOut(s.rows[id], s.now)];
    assert Leads(given, [], given);
    LeadsFirst(ticked, ClaimUpdate(sel), [], given);
    LeadsFirst(selected, Tick(to), [ClaimUpdate(sel)] + [], given);
    LeadsFirst(s, ClaimSelect(owner, id), [Tick(to)] + ([ClaimUpdate(sel)] + []), given);
  }

  lemma {:induction false} LeadsOn(s: System, run: seq<Event>, mid: System, rest: seq<Event>, s': System)
    requires Leads(s, run, mid) && Leads(mid, rest, s')
    ensures Leads(s, run + rest, s')
    decreases |run|
  {
    if run == [] {
      assert run + rest == rest;
    } else {
      LeadsOn(Apply(s, run[0]), run[1..], mid, rest, s');
      LeadsFirst(s, run[0], run[1..] + rest, s');
      assert [run[0]] + (run[1..] + rest) == run + rest;
    }
  }

  /** No better bound holds: whatever the lag, up to the lease itself, the next delivery can come that much earlier. */
  lemma SpacingIsTight(lag: nat)
    requires lag <= 20 * SECOND
    ensures exists s, run ::
      && Init(s) && ValidRun(s, run) && |Run(s, run).handouts| == 2
      && Run(s, run).handouts[0].id == Run(s, run).handouts[1].id
      && Run(s, run).handouts[0].given - Run(s, run).handouts[0].at == lag
      && Run(s, run).handouts[1].given - Run(s, run).handouts[0].given == 20 * SECOND - lag + 1
  {
    var owner, id, at := Owner("pc", "i"), "c", 20 * SECOND + 1;
    var empty := System(0, map[], {}, {}, {}, {}, map[], []);
    var enqueue := Enqueue(id, owner, "REFRESH_POLICY", "", 15);
    var queued := Apply(empty, enqueue);
    SlowClaim(queued, owner, id, lag);
    var first := queued.(now := lag, rows := map[id := HandOut(queued.rows[id], 0)], offers := {Offer(owner, id)},
      handouts := [Handout(id, 0, lag)]);
    var ticked := Apply(first, Tick(at));
    SlowClaim(ticked, owner, id, at);
    var claim := [ClaimSelect(owner, id)] + ([Tick(lag)] + ([ClaimUpdate(Selection(owner, id, 0))] + []));
    var again := [ClaimSelect(owner, id)] + ([Tick(at)] + ([ClaimUpdate(Selection(owner, id, at))] + []));
    var end := ticked.(rows := map[id := HandOut(ticked.rows[id], at)], handouts := [Handout(id, 0, lag), Handout(id, at, at)]);
    assert Leads(ticked, again, end);
    LeadsFirst(first, Tick(at), again, end);
    LeadsOn(queued, claim, first, [Tick(at)] + again, end);
    LeadsFirst(empty, enqueue, claim + ([Tick(at)] + again), end);
  }

  /** However clicks and deliveries interleave, at most one live backup request waits per installation. */
  lemma OneLiveBackupRequest(s: System, run: seq<Event>, a: CommandId, b: CommandId)
    requires Init(s) && ValidRun(s, run) && a in Run(s, run).rows && b in Run(s, run).rows
    requires Run(s, run).rows[a].kind == Run(s, run).rows[b].kind == "RUN_BACKUP"
    requires Run(s, run).rows[a].owner == Run(s, run).rows[b].owner
    requires Pending(Run(s, run).rows[a], Run(s, run).now) && Pending(Run(s, run).rows[b], Run(s, run).now)
    ensures a == b
  {
    InitHolds(s);
    RunKeepsInv(s, run);
    var end := Run(s, run);
    assert a != b ==> !Twins(end.rows[a], end.rows[b], end.now);
  }

  // ---- the store's calls are steps of this system ----

  /** An undisturbed claim selects and updates at one clock reading. */
  lemma ClaimIsTwoSteps(s: System, owner: Owner, id: CommandId)
    requires OldestClaimable(s.rows, id, owner, s.now)
    ensures Enabled(s, ClaimSelect(owner, id))
    ensures
      var selected := Apply(s, ClaimSelect(owner, id));
      var update := ClaimUpdate(Selection(owner, id, s.now));
      && Enabled(selected, update) && Apply(selected, update).rows == s.rows[id := HandOut(s.rows[id], s.now)]
      && Offer(owner, id) in Apply(selected, update).offers
  {
  }

  lemma AckIsTwoSteps(s: System, ack: Ack)
    requires ack in s.acks && ack.id in s.rows && s.rows[ack.id].owner == ack.owner && Acceptable(s.rows[ack.id])
    ensures Enabled(s, AckRead(ack))
    ensures
      var read := Apply(s, AckRead(ack));
      Enabled(read, AckWrite(ack)) && Apply(read, AckWrite(ack)).rows == Settle(s.rows, ack, s.now)
  {
  }
}
