/**
  The agent's self-upgrade with its boot-loop guard (agent/cmd/stowline-agent/upgrade.go, and
  its callers in main.go), one step per file operation.

  Every operation may fail, a write may be torn, and the process may die between any two steps.
  The host refuses to delete or overwrite the image of the running process but lets it be renamed.
*/
module Upgrade {
  import opened Options
  import opened Sets

  /** A build's SHA-256, taken as the build itself. */
  type BuildId = string

  /** The files beside the agent's executable; `Rollback` carries a Unix time, `FailedCopy` a nanosecond one. */
  datatype Name = Live | Staging | Rollback(stamp: nat) | FailedCopy(nano: nat) | Marker

  /** `Mark` is a well-formed marker with a rollback path; anything else a marker may hold is garbage. */
  datatype Content = Build(id: BuildId) | Mark(stamp: nat, boots: nat) | Garbage

  type Dir = map<Name, Content>

  const MAX_UNCONFIRMED_BOOTS := 3
  const KEEP := 2

  datatype WriteOutcome = Written | NotWritten | Torn

  /** What a running process is about to do. `Restoring…` is `restoreRollback`, for the guard or to undo a swap. */
  datatype Phase =
    | Guarding
    | Dropping
    | Counting(stamp: nat, boots: nat)
    | RestoringAside(stamp: nat, guard: bool)
    | RestoringBack(stamp: nat, nano: nat, guard: bool)
    | RestoringUndo(nano: nat, guard: bool)
    | Removing
    | PruneReady
    | Pruning(todo: set<Name>)
    | Serving
    | Confirmed
    | Downloaded(build: BuildId)
    | Checking(build: BuildId)
    | DropStaging
    | MovingAside(build: BuildId)
    | Installing(build: BuildId, stamp: nat)
    | PuttingBack(stamp: nat)
    | Marking(stamp: nat)
    | Awaiting

  datatype Process = Down | Up(image: Name, phase: Phase)

  datatype Swap = Swap(previous: BuildId, stamp: nat)

  /**
    `trusted` are the first live build and every build that matched a pin and passed its self-check;
    `pending` is the last swap no heartbeat followed yet and nobody undid; `armed` is that swap while
    its marker counts starts; `passes` and `errors` are the starts that got past the guard since, and
    the guard's failed file operations. Nothing in the code keeps these five.
  */
  datatype Machine = Machine(
    dir: Dir,
    proc: Process,
    trusted: set<BuildId>,
    pending: Option<Swap>,
    armed: Option<Swap>,
    passes: nat,
    errors: nat)

  datatype Event =
    | Boot
    | Crash
    | GuardRead(ok: bool)
    | GuardDrop(ok: bool)
    | GuardCount(outcome: WriteOutcome)
    | MoveBad(nano: nat, ok: bool)
    | PutRollback(ok: bool)
    | MoveBadBack(ok: bool)
    | RemoveMarker(ok: bool)
    | PruneList(markerRead: bool, dirRead: bool)
    | PruneRemove(name: Name, ok: bool)
    | PruneDone
    | Heartbeat(removed: bool)
    | Idle
    | Download(build: BuildId, want: BuildId)
    | WriteStaging(outcome: WriteOutcome)
    | SelfCheck(passed: bool)
    | RemoveStaging(ok: bool)
    | MoveAside(stamp: nat, ok: bool)
    | Install(ok: bool)
    | PutBack(ok: bool)
    | WriteMarker(outcome: WriteOutcome)

  // ---- file operations ----

  predicate CanRename(d: Dir, image: Name, src: Name, dst: Name) {
    src in d && !(dst in d && dst == image)
  }

  function Renamed(d: Dir, src: Name, dst: Name): Dir
    requires src in d
  {
    (d - {src})[dst := d[src]]
  }

  function Moved(image: Name, src: Name, dst: Name): Name {
    if image == src then dst else image
  }

  predicate CanRemove(d: Dir, image: Name, name: Name) {
    name in d && name != image
  }

  function WrittenTo(d: Dir, name: Name, content: Content, outcome: WriteOutcome): Dir {
    match outcome
    case Written => d[name := content]
    case NotWritten => d
    case Torn => d[name := Garbage]
  }

  // ---- pruning ----

  function NewerRollbacks(d: Dir, stamp: nat): set<Name> {
    set name | name in d && name.Rollback? && name.stamp > stamp
  }

  /** What `pruneUpgradeLeftovers` tries to remove: the newest `KEEP` rollbacks and the recorded one stay. */
  predicate IsDoomed(d: Dir, recorded: Option<nat>, name: Name) {
    match name
    case Rollback(stamp) => |NewerRollbacks(d, stamp)| >= KEEP && recorded != Some(stamp)
    case FailedCopy(_) => true
    case Staging => true
    case _ => false
  }

  function Doomed(d: Dir, recorded: Option<nat>): set<Name> {
    set name | name in d && IsDoomed(d, recorded, name)
  }

  function Recorded(d: Dir): Option<nat> {
    if Marker in d && d[Marker].Mark? then Some(d[Marker].stamp) else None
  }

  // ---- steps ----

  predicate Enabled(m: Machine, e: Event) {
    match e
    case Boot => m.proc.Down? && Live in m.dir && m.dir[Live].Build?
    case Crash => true
    case _ => m.proc.Up? && EnabledUp(m.dir, m.proc.image, m.proc.phase, e)
  }

  predicate EnabledUp(d: Dir, image: Name, phase: Phase, e: Event) {
    match e
    case Boot => false
    case Crash => true
    case GuardRead(_) => phase.Guarding?
    case GuardDrop(ok) => phase.Dropping? && (ok ==> CanRemove(d, image, Marker))
    case GuardCount(_) => phase.Counting?
    case MoveBad(nano, ok) => phase.RestoringAside? && (ok ==> CanRename(d, image, Live, FailedCopy(nano)))
    case PutRollback(ok) => phase.RestoringBack? && (ok ==> CanRename(d, image, Rollback(phase.stamp), Live))
    case MoveBadBack(ok) => phase.RestoringUndo? && (ok ==> CanRename(d, image, FailedCopy(phase.nano), Live))
    case RemoveMarker(ok) => phase.Removing? && (ok ==> CanRemove(d, image, Marker))
    case PruneList(_, _) => phase.PruneReady?
    case PruneRemove(name, ok) => phase.Pruning? && name in phase.todo && (ok ==> CanRemove(d, image, name))
    case PruneDone => phase.Pruning? && phase.todo == {}
    case Heartbeat(removed) => (phase.Serving? || phase.Awaiting?) && (removed ==> CanRemove(d, image, Marker))
    case Idle => phase.Confirmed?
    case Download(build, want) => phase.Confirmed? && build == want
    case WriteStaging(_) => phase.Downloaded?
    case SelfCheck(_) => phase.Checking?
    case RemoveStaging(ok) => phase.DropStaging? && (ok ==> CanRemove(d, image, Staging))
    case MoveAside(stamp, ok) => phase.MovingAside? && (ok ==> CanRename(d, image, Live, Rollback(stamp)))
    case Install(ok) => phase.Installing? && (ok ==> CanRename(d, image, Staging, Live))
    case PutBack(ok) => phase.PuttingBack? && (ok ==> CanRename(d, image, Rollback(phase.stamp), Live))
    case WriteMarker(_) => phase.Marking?
  }

  function At(m: Machine, phase: Phase): Machine
    requires m.proc.Up?
  {
    m.(proc := m.proc.(phase := phase))
  }

  function AfterRename(m: Machine, src: Name, dst: Name, phase: Phase): Machine
    requires m.proc.Up? && src in m.dir
  {
    m.(dir := Renamed(m.dir, src, dst), proc := Up(Moved(m.proc.image, src, dst), phase))
  }

  function AfterRemove(m: Machine, name: Name, ok: bool, phase: Phase): Machine
    requires m.proc.Up?
  {
    At(m.(dir := if ok then m.dir - {name} else m.dir), phase)
  }

  /** A start that gets past the guard. */
  function Passed(m: Machine, failed: bool): Machine
    requires m.proc.Up?
  {
    At(m.(passes := m.passes + 1, errors := if failed then m.errors + 1 else m.errors), PruneReady)
  }

  function Apply(m: Machine, e: Event): Machine
    requires Enabled(m, e)
  {
    match e
    case Boot => m.(proc := Up(Live, Guarding))
    case Crash => m.(proc := Down)
    case GuardRead(ok) =>
      if !ok then Passed(m, true)
      else if Marker !in m.dir then Passed(m, false)
      else if !m.dir[Marker].Mark? then At(m, Dropping)
      else if m.dir[Marker].boots + 1 > MAX_UNCONFIRMED_BOOTS then At(m, RestoringAside(m.dir[Marker].stamp, true))
      else At(m, Counting(m.dir[Marker].stamp, m.dir[Marker].boots + 1))
    case GuardDrop(ok) => Passed(AfterRemove(m, Marker, ok, PruneReady), false)
    case GuardCount(outcome) =>
      var content := Mark(m.proc.phase.stamp, m.proc.phase.boots);
      Passed(m.(dir := WrittenTo(m.dir, Marker, content, outcome), armed := if outcome.Torn? then None else m.armed), !outcome.Written?)
    case MoveBad(nano, ok) =>
      var next := RestoringBack(m.proc.phase.stamp, nano, m.proc.phase.guard);
      if ok then AfterRename(m, Live, FailedCopy(nano), next)
      else if Live !in m.dir then At(m, next)
      else if m.proc.phase.guard then Passed(m, true)
      else At(m, Serving)
    case PutRollback(ok) =>
      var phase := m.proc.phase;
      if !ok then At(m, RestoringUndo(phase.nano, phase.guard))
      else
        var after := AfterRename(m, Rollback(phase.stamp), Live, if phase.guard then Removing else Serving);
        if phase.guard then after.(armed := None) else after.(pending := None)
    case MoveBadBack(ok) =>
      var phase := m.proc.phase;
      var after := if ok then AfterRename(m, FailedCopy(phase.nano), Live, Serving) else At(m, Serving);
      if phase.guard then Passed(after, true) else after
    case RemoveMarker(ok) => AfterRemove(m, Marker, ok, Removing).(proc := Down)
    case PruneList(markerRead, dirRead) =>
      At(m, Pruning(if dirRead then Doomed(m.dir, if markerRead then Recorded(m.dir) else None) else {}))
    case PruneRemove(name, ok) => AfterRemove(m, name, ok, Pruning(m.proc.phase.todo - {name}))
    case PruneDone => At(m, Serving)
    case Heartbeat(removed) =>
      AfterRemove(m, Marker, removed, if m.proc.phase.Serving? then Confirmed else Awaiting).(pending := None, armed := None)
    case Idle => At(m, Serving)
    case Download(build, _) => At(m, Downloaded(build))
    case WriteStaging(outcome) =>
      var build := m.proc.phase.build;
      At(m.(dir := WrittenTo(m.dir, Staging, Build(build), outcome)), if outcome.Written? then Checking(build) else Serving)
    case SelfCheck(passed) =>
      var build := m.proc.phase.build;
      if passed then At(m, MovingAside(build)).(trusted := m.trusted + {build}) else At(m, DropStaging)
    case RemoveStaging(ok) => AfterRemove(m, Staging, ok, Serving)
    case MoveAside(stamp, ok) =>
      if !ok then At(m, DropStaging)
      else
        var after := AfterRename(m, Live, Rollback(stamp), Installing(m.proc.phase.build, stamp));
        if m.dir[Live].Build? then after.(pending := Some(Swap(m.dir[Live].id, stamp))) else after
    case Install(ok) =>
      var stamp := m.proc.phase.stamp;
      if ok then AfterRename(m, Staging, Live, Marking(stamp)) else At(m, PuttingBack(stamp))
    case PutBack(ok) =>
      if ok then AfterRename(m, Rollback(m.proc.phase.stamp), Live, Serving).(pending := None) else At(m, Serving)
    case WriteMarker(outcome) =>
      var stamp := m.proc.phase.stamp;
      var written := m.(dir := WrittenTo(m.dir, Marker, Mark(stamp, 0), outcome));
      if outcome.Written? then At(written, Awaiting).(armed := m.pending, passes := 0, errors := 0)
      else At(written, RestoringAside(stamp, false))
  }

  /** A machine as installed: the agent at the live path, nothing beside it. */
  ghost predicate Init(m: Machine) {
    && m.proc == Down && m.pending == None && m.armed == None
    && Live in m.dir && m.dir[Live].Build? && m.dir.Keys == {Live} && m.trusted == {m.dir[Live].id}
  }

  ghost predicate ValidRun(m: Machine, run: seq<Event>)
    decreases |run|
  {
    run == [] || (Enabled(m, run[0]) && ValidRun(Apply(m, run[0]), run[1..]))
  }

  ghost function Run(m: Machine, run: seq<Event>): Machine
    requires ValidRun(m, run)
    decreases |run|
  {
    if run == [] then m else Run(Apply(m, run[0]), run[1..])
  }

  /** The clock does not go back behind as many copies as pruning keeps: this is what the swap could check. */
  predicate ClockForward(m: Machine, e: Event) {
    e.MoveAside? ==> |NewerRollbacks(m.dir, e.stamp)| < KEEP
  }

  ghost predicate ForwardRun(m: Machine, run: seq<Event>)
    requires ValidRun(m, run)
    decreases |run|
  {
    run == [] || (ClockForward(m, run[0]) && ForwardRun(Apply(m, run[0]), run[1..]))
  }

  // ---- trust ----

  /** The steps of a start, up to the guard's answer, and of a restore. */
  predicate GuardEvent(e: Event) {
    e.Boot? || e.GuardRead? || e.GuardDrop? || e.GuardCount? || e.MoveBad? || e.PutRollback? || e.MoveBadBack? || e.RemoveMarker?
  }

  predicate Executable(name: Name) {
    name.Live? || name.Rollback? || name.FailedCopy?
  }

  /** Whatever may be renamed to the live path is trusted; the staged file is what was verified. */
  ghost predicate TrustOk(m: Machine) {
    && (forall name :: name in m.dir && Executable(name) ==> m.dir[name].Build? && m.dir[name].id in m.trusted)
    && (m.proc.Up? && m.proc.phase.Checking? ==> Staging in m.dir && m.dir[Staging] == Build(m.proc.phase.build))
    && (m.proc.Up? && (m.proc.phase.MovingAside? || m.proc.phase.Installing?) ==>
          Staging in m.dir && m.dir[Staging] == Build(m.proc.phase.build) && m.proc.phase.build in m.trusted)
  }

  lemma GuardKeepsTrust(m: Machine, e: Event)
    requires TrustOk(m) && Enabled(m, e) && GuardEvent(e)
    ensures TrustOk(Apply(m, e))
  {
  }

  lemma UpgradeKeepsTrust(m: Machine, e: Event)
    requires TrustOk(m) && Enabled(m, e) && !GuardEvent(e)
    ensures TrustOk(Apply(m, e))
  {
  }

  lemma StepKeepsTrust(m: Machine, e: Event)
    requires TrustOk(m) && Enabled(m, e)
    ensures TrustOk(Apply(m, e))
  {
    if GuardEvent(e) { GuardKeepsTrust(m, e); } else { UpgradeKeepsTrust(m, e); }
  }

  /** In every run the live path holds nothing but builds that were live before or were verified. */
  lemma {:induction false} LiveIsTrusted(m: Machine, run: seq<Event>)
    requires TrustOk(m) && ValidRun(m, run)
    ensures TrustOk(Run(m, run))
    ensures Live in Run(m, run).dir ==> Run(m, run).dir[Live].Build? && Run(m, run).dir[Live].id in Run(m, run).trusted
    decreases |run|
  {
    if run != [] {
      StepKeepsTrust(m, run[0]);
      LiveIsTrusted(Apply(m, run[0]), run[1..]);
    }
  }

  // ---- the previous build stays on disk ----

  predicate OnDisk(d: Dir, build: BuildId) {
    exists name :: name in d && Executable(name) && d[name] == Build(build)
  }

  /** Where each phase is in its own file operations. */
  predicate PhaseOk(m: Machine) {
    m.proc.Up? ==>
      var phase := m.proc.phase;
      && (phase.Guarding? ==> m.proc.image == Live && Live in m.dir)
      && (phase.Counting? ==> m.proc.image == Live && RecordsBoots(m.dir, phase.stamp, phase.boots - 1) && 1 <= phase.boots <= MAX_UNCONFIRMED_BOOTS)
      && (phase.Dropping? ==> Recorded(m.dir) == None)
      && (phase.RestoringAside? && phase.guard ==> m.proc.image == Live && Live in m.dir && Recorded(m.dir) == Some(phase.stamp))
      && (phase.RestoringBack? ==> Live !in m.dir)
      && (phase.RestoringUndo? ==> Live !in m.dir)
      && (phase.RestoringBack? && phase.guard ==> m.proc.image == FailedCopy(phase.nano) && Recorded(m.dir) == Some(phase.stamp))
      && (phase.RestoringUndo? && phase.guard ==> m.proc.image == FailedCopy(phase.nano))
      && (SwapPhase(phase).Some? ==> m.pending.Some? && m.pending.value.stamp == SwapPhase(phase).value)
      && (UpgradePhase(phase) ==> m.armed == None)
      && (phase.Pruning? ==> Live !in phase.todo && Marker !in phase.todo)
      && (phase.Confirmed? || phase.Downloaded? || phase.Checking? || phase.DropStaging? || phase.MovingAside? ==> m.pending == None)
  }

  predicate RecordsBoots(d: Dir, stamp: nat, boots: int) {
    Marker in d && d[Marker].Mark? && d[Marker].stamp == stamp && d[Marker].boots == boots
  }

  /** The swap a phase is in the middle of, or undoing. */
  function SwapPhase(phase: Phase): Option<nat> {
    match phase
    case Installing(_, stamp) => Some(stamp)
    case PuttingBack(stamp) => Some(stamp)
    case Marking(stamp) => Some(stamp)
    case RestoringAside(stamp, false) => Some(stamp)
    case RestoringBack(stamp, _, false) => Some(stamp)
    case _ => None
  }

  predicate UpgradePhase(phase: Phase) {
    || SwapPhase(phase).Some? || phase.Confirmed? || phase.Downloaded? || phase.Checking? || phase.DropStaging? || phase.MovingAside?
    || (phase.RestoringUndo? && !phase.guard)
  }

  /** Set aside by the swap, with fewer newer rollback copies than pruning keeps. */
  predicate SetAside(m: Machine, sw: Swap) {
    && Rollback(sw.stamp) in m.dir && m.dir[Rollback(sw.stamp)] == Build(sw.previous)
    && |NewerRollbacks(m.dir, sw.stamp)| < KEEP
    && (m.proc.Up? && m.proc.phase.Pruning? ==> Rollback(sw.stamp) !in m.proc.phase.todo)
  }

  /** Back at the live path, its rollback copy used up; a leftover marker can only point at that copy. */
  predicate BackLive(m: Machine, sw: Swap) {
    && Live in m.dir && m.dir[Live] == Build(sw.previous) && Rollback(sw.stamp) !in m.dir
    && (Recorded(m.dir).Some? ==> Recorded(m.dir) == Some(sw.stamp))
    && (m.proc.Up? ==> SwapPhase(m.proc.phase) == None)
  }

  /** Moved aside once more by a leftover marker: only the process running it is left, and it is its image. */
  predicate SetFailed(m: Machine, sw: Swap) {
    && Live !in m.dir && Rollback(sw.stamp) !in m.dir
    && (Recorded(m.dir).Some? ==> Recorded(m.dir) == Some(sw.stamp))
    && (exists name :: name in m.dir && name.FailedCopy? && m.dir[name] == Build(sw.previous) && (m.proc.Up? ==> m.proc.image == name))
    && (m.proc.Up? ==>
          || (m.proc.phase.RestoringBack? && m.proc.phase.guard && m.proc.phase.stamp == sw.stamp)
          || (m.proc.phase.RestoringUndo? && m.proc.phase.guard)
          || m.proc.phase.PruneReady? || m.proc.phase.Pruning? || m.proc.phase.Serving?)
  }

  predicate PendingOk(m: Machine) {
    m.pending.Some? ==> SetAside(m, m.pending.value) || BackLive(m, m.pending.value) || SetFailed(m, m.pending.value)
  }

  ghost predicate Inv(m: Machine) {
    TrustOk(m) && PhaseOk(m) && PendingOk(m)
  }

  lemma GuardKeepsPhase(m: Machine, e: Event)
    requires PhaseOk(m) && Enabled(m, e) && TrustOk(m) && GuardEvent(e)
    ensures PhaseOk(Apply(m, e))
  {
  }

  lemma UpgradeKeepsPhase(m: Machine, e: Event)
    requires PhaseOk(m) && Enabled(m, e) && TrustOk(m) && !GuardEvent(e)
    ensures PhaseOk(Apply(m, e))
  {
  }

  lemma StepKeepsPhase(m: Machine, e: Event)
    requires PhaseOk(m) && Enabled(m, e) && TrustOk(m)
    ensures PhaseOk(Apply(m, e))
  {
    if GuardEvent(e) { GuardKeepsPhase(m, e); } else { UpgradeKeepsPhase(m, e); }
  }

  /** No step but a swap adds a rollback copy. */
  lemma RollbacksOnlyShrink(m: Machine, e: Event, stamp: nat)
    requires Enabled(m, e) && !e.MoveAside?
    ensures NewerRollbacks(Apply(m, e).dir, stamp) <= NewerRollbacks(m.dir, stamp)
  {
  }

  lemma FewerNewer(m: Machine, e: Event, stamp: nat)
    requires Enabled(m, e) && !e.MoveAside?
    ensures |NewerRollbacks(Apply(m, e).dir, stamp)| <= |NewerRollbacks(m.dir, stamp)|
  {
    RollbacksOnlyShrink(m, e, stamp);
    SubsetSize(NewerRollbacks(Apply(m, e).dir, stamp), NewerRollbacks(m.dir, stamp));
  }

  lemma SetAsideStep(m: Machine, e: Event)
    requires Inv(m) && Enabled(m, e) && m.pending.Some? && SetAside(m, m.pending.value)
    ensures PendingOk(Apply(m, e))
  {
    assert !e.MoveAside?;
    FewerNewer(m, e, m.pending.value.stamp);
  }

  lemma SwapStep(m: Machine, e: Event)
    requires Inv(m) && Enabled(m, e) && ClockForward(m, e) && e.MoveAside? && e.ok
    ensures PendingOk(Apply(m, e))
  {
    var m' := Apply(m, e);
    assert NewerRollbacks(m'.dir, e.stamp) == NewerRollbacks(m.dir, e.stamp);
  }

  lemma BackLiveMoved(m: Machine, nano: nat)
    requires PhaseOk(m) && Enabled(m, MoveBad(nano, true)) && m.pending.Some? && BackLive(m, m.pending.value)
    ensures PendingOk(Apply(m, MoveBad(nano, true)))
  {
    var m' := Apply(m, MoveBad(nano, true));
    assert FailedCopy(nano) in m'.dir && m'.proc.image == FailedCopy(nano);
    assert SetFailed(m', m.pending.value);
  }

  lemma BackLiveStays(m: Machine, e: Event)
    requires PhaseOk(m) && Enabled(m, e) && m.pending.Some? && BackLive(m, m.pending.value) && !(e.MoveBad? && e.ok)
    ensures Apply(m, e).pending.Some? ==> Apply(m, e).pending == m.pending && BackLive(Apply(m, e), m.pending.value)
  {
  }

  lemma SetFailedStep(m: Machine, e: Event)
    requires Inv(m) && Enabled(m, e) && m.pending.Some? && SetFailed(m, m.pending.value)
    ensures PendingOk(Apply(m, e))
  {
    var sw := m.pending.value;
    var name :| name in m.dir && name.FailedCopy? && m.dir[name] == Build(sw.previous) && (m.proc.Up? ==> m.proc.image == name);
    var m' := Apply(m, e);
    if e.MoveBadBack? && e.ok {
      assert BackLive(m', sw);
    } else {
      assert m'.pending.Some? ==> name in m'.dir && m'.dir[name] == Build(sw.previous) && (m'.proc.Up? ==> m'.proc.image == name);
    }
  }

  lemma StepKeepsPending(m: Machine, e: Event)
    requires Inv(m) && Enabled(m, e) && ClockForward(m, e)
    ensures PendingOk(Apply(m, e))
  {
    if e.MoveAside? && e.ok {
      SwapStep(m, e);
    } else if m.pending.Some? {
      var sw := m.pending.value;
      if SetAside(m, sw) { SetAsideStep(m, e); }
      else if BackLive(m, sw) {
        if e.MoveBad? && e.ok { BackLiveMoved(m, e.nano); } else { BackLiveStays(m, e); }
      }
      else { SetFailedStep(m, e); }
    }
  }

  lemma InitHolds(m: Machine)
    requires Init(m)
    ensures Inv(m) && CountOk(m)
  {
  }

  lemma StepKeepsInv(m: Machine, e: Event)
    requires Inv(m) && Enabled(m, e) && ClockForward(m, e)
    ensures Inv(Apply(m, e))
  {
    StepKeepsTrust(m, e);
    StepKeepsPhase(m, e);
    StepKeepsPending(m, e);
  }

  lemma {:induction false} RunKeepsInv(m: Machine, run: seq<Event>)
    requires Inv(m) && ValidRun(m, run) && ForwardRun(m, run)
    ensures Inv(Run(m, run))
    decreases |run|
  {
    if run != [] {
      StepKeepsInv(m, run[0]);
      RunKeepsInv(Apply(m, run[0]), run[1..]);
    }
  }

  lemma PendingIsOnDisk(m: Machine)
    requires Inv(m) && m.pending.Some?
    ensures OnDisk(m.dir, m.pending.value.previous)
  {
    var sw := m.pending.value;
    if SetAside(m, sw) {
      assert Executable(Rollback(sw.stamp));
    } else if BackLive(m, sw) {
      assert Executable(Live);
    } else {
      var name :| name in m.dir && name.FailedCopy? && m.dir[name] == Build(sw.previous);
      assert Executable(name);
    }
  }

  /**
    Wherever a run is cut off, the build a swap set aside is still on disk, as long as no heartbeat
    followed the swap and nobody undid it; the clock must not go back behind as many copies as pruning keeps.
  */
  lemma PreviousBuildStays(m: Machine, run: seq<Event>)
    requires Init(m) && ValidRun(m, run) && ForwardRun(m, run)
    requires Run(m, run).pending.Some?
    ensures OnDisk(Run(m, run).dir, Run(m, run).pending.value.previous)
  {
    InitHolds(m);
    RunKeepsInv(m, run);
    PendingIsOnDisk(Run(m, run));
  }

  /** A swap stops being watched only by a heartbeat, or because the previous build is live again. */
  lemma PendingEndsBy(m: Machine, e: Event)
    requires Inv(m) && Enabled(m, e) && m.pending.Some? && Apply(m, e).pending != m.pending
    ensures e.Heartbeat? || (Live in Apply(m, e).dir && Apply(m, e).dir[Live] == Build(m.pending.value.previous))
  {
  }

  // ---- the boot-loop guard ----

  /** The marker has counted every start that got past the guard, but for those where an operation failed. */
  predicate CountOk(m: Machine) {
    m.armed.Some? ==>
      && Recorded(m.dir) == Some(m.armed.value.stamp)
      && m.dir[Marker].boots <= MAX_UNCONFIRMED_BOOTS && m.passes <= m.dir[Marker].boots + m.errors
      && m.armed == m.pending && (m.proc.Up? ==> !m.proc.phase.Removing?)
  }

  lemma GuardKeepsCount(m: Machine, e: Event)
    requires PhaseOk(m) && CountOk(m) && Enabled(m, e) && GuardEvent(e)
    ensures CountOk(Apply(m, e))
  {
  }

  lemma UpgradeKeepsCount(m: Machine, e: Event)
    requires PhaseOk(m) && CountOk(m) && Enabled(m, e) && !GuardEvent(e)
    ensures CountOk(Apply(m, e))
  {
  }

  lemma StepKeepsCount(m: Machine, e: Event)
    requires PhaseOk(m) && CountOk(m) && Enabled(m, e)
    ensures CountOk(Apply(m, e))
  {
    if GuardEvent(e) { GuardKeepsCount(m, e); } else { UpgradeKeepsCount(m, e); }
  }

  lemma {:induction false} RunKeepsCount(m: Machine, run: seq<Event>)
    requires PhaseOk(m) && TrustOk(m) && CountOk(m) && ValidRun(m, run)
    ensures PhaseOk(Run(m, run)) && TrustOk(Run(m, run)) && CountOk(Run(m, run))
    decreases |run|
  {
    if run != [] {
      StepKeepsTrust(m, run[0]);
      StepKeepsPhase(m, run[0]);
      StepKeepsCount(m, run[0]);
      RunKeepsCount(Apply(m, run[0]), run[1..]);
    }
  }

  /** While the marker stands, at most three starts pass the guard, and one more per failed guard operation. */
  lemma GuardedStartsAreBounded(m: Machine, run: seq<Event>)
    requires Init(m) && ValidRun(m, run) && Run(m, run).armed.Some?
    ensures Run(m, run).passes <= 3 + Run(m, run).errors
  {
    InitHolds(m);
    RunKeepsCount(m, run);
  }

  /** The marker stops counting only by a heartbeat, by a torn write of itself, or by the previous build's return. */
  lemma GuardEndsBy(m: Machine, e: Event)
    requires Inv(m) && CountOk(m) && Enabled(m, e) && m.armed.Some? && Apply(m, e).armed != m.armed
    ensures
      || e.Heartbeat? || e == GuardCount(Torn)
      || (e == PutRollback(true) && Apply(m, e).dir[Live] == Build(m.armed.value.previous))
  {
  }

  /** A guarded swap's previous build has not been moved back yet. */
  predicate ArmedAside(m: Machine) {
    m.armed.Some? ==> SetAside(m, m.armed.value)
  }

  lemma StepKeepsAside(m: Machine, e: Event)
    requires Inv(m) && CountOk(m) && ArmedAside(m) && Enabled(m, e) && ClockForward(m, e)
    ensures ArmedAside(Apply(m, e))
  {
    if m.pending.Some? {
      assert !e.MoveAside?;
      FewerNewer(m, e, m.pending.value.stamp);
    }
  }

  lemma {:induction false} RunKeepsAside(m: Machine, run: seq<Event>)
    requires Inv(m) && CountOk(m) && ArmedAside(m) && ValidRun(m, run) && ForwardRun(m, run)
    ensures ArmedAside(Run(m, run))
    decreases |run|
  {
    if run != [] {
      StepKeepsInv(m, run[0]);
      StepKeepsCount(m, run[0]);
      StepKeepsAside(m, run[0]);
      RunKeepsAside(Apply(m, run[0]), run[1..]);
    }
  }

  ghost predicate Leads(m: Machine, run: seq<Event>, m': Machine) {
    ValidRun(m, run) && Run(m, run) == m'
  }

  lemma LeadsFirst(m: Machine, e: Event, rest: seq<Event>, m': Machine)
    requires Enabled(m, e) && Leads(Apply(m, e), rest, m')
    ensures Leads(m, [e] + rest, m')
  {
    var run := [e] + rest;
    assert run[0] == e && run[1..] == rest;
  }

  lemma GuardAtLimit(m: Machine)
    requires m.proc.Up? && m.proc.phase.Guarding? && Recorded(m.dir).Some? && m.dir[Marker].boots >= MAX_UNCONFIRMED_BOOTS
    ensures Enabled(m, GuardRead(true)) && Apply(m, GuardRead(true)) == At(m, RestoringAside(m.dir[Marker].stamp, true))
  {
  }

  lemma MovesBadAside(m: Machine, stamp: nat, nano: nat)
    requires m.proc == Up(Live, RestoringAside(stamp, true)) && Live in m.dir
    ensures Enabled(m, MoveBad(nano, true))
    ensures Apply(m, MoveBad(nano, true)) == AfterRename(m, Live, FailedCopy(nano), RestoringBack(stamp, nano, true))
  {
  }

  lemma PutsRollbackBack(m: Machine, stamp: nat, nano: nat)
    requires m.proc == Up(FailedCopy(nano), RestoringBack(stamp, nano, true)) && Rollback(stamp) in m.dir
    ensures Enabled(m, PutRollback(true))
    ensures Apply(m, PutRollback(true)) == AfterRename(m, Rollback(stamp), Live, Removing).(armed := None)
  {
  }

  function Restored(m: Machine, stamp: nat, nano: nat): Machine
    requires Live in m.dir && Rollback(stamp) in m.dir
  {
    var aside := Renamed(m.dir, Live, FailedCopy(nano));
    m.(dir := Renamed(aside, Rollback(stamp), Live), proc := Up(FailedCopy(nano), Removing), armed := None)
  }

  lemma RestoresAtLimit(m: Machine, stamp: nat, nano: nat)
    requires m.proc == Up(Live, Guarding) && Live in m.dir && Rollback(stamp) in m.dir
    requires Recorded(m.dir) == Some(stamp) && m.dir[Marker].boots >= MAX_UNCONFIRMED_BOOTS
    ensures Leads(m, [GuardRead(true), MoveBad(nano, true), PutRollback(true)], Restored(m, stamp, nano))
  {
    GuardAtLimit(m);
    var s1 := At(m, RestoringAside(stamp, true));
    MovesBadAside(s1, stamp, nano);
    var s2 := AfterRename(s1, Live, FailedCopy(nano), RestoringBack(stamp, nano, true));
    PutsRollbackBack(s2, stamp, nano);
    var s3 := Restored(m, stamp, nano);
    assert Leads(s3, [], s3);
    LeadsFirst(s2, PutRollback(true), [], s3);
    LeadsFirst(s1, MoveBad(nano, true), [PutRollback(true)], s3);
    LeadsFirst(m, GuardRead(true), [MoveBad(nano, true)] + [PutRollback(true)], s3);
    assert [GuardRead(true)] + ([MoveBad(nano, true)] + [PutRollback(true)]) == [GuardRead(true), MoveBad(nano, true), PutRollback(true)];
  }

  /** The next start after three that passed restores the previous build, if its two renames go through. */
  lemma FourthStartRestores(m: Machine, run: seq<Event>, nano: nat)
    requires Init(m) && ValidRun(m, run) && ForwardRun(m, run)
    requires
      var s := Run(m, run);
      s.armed.Some? && s.errors == 0 && s.passes == 3 && s.proc.Up? && s.proc.phase == Guarding
    ensures
      var s := Run(m, run);
      exists s' :: Leads(s, [GuardRead(true), MoveBad(nano, true), PutRollback(true)], s')
        && Live in s'.dir && s'.dir[Live] == Build(s.armed.value.previous) && s'.proc.Up? && s'.proc.phase == Removing && s'.passes == s.passes
  {
    InitHolds(m);
    RunKeepsInv(m, run);
    RunKeepsCount(m, run);
    RunKeepsAside(m, run);
    RestoresAtLimit(Run(m, run), Run(m, run).armed.value.stamp, nano);
  }

  // ---- where the guarantees end ----

  /** One start and death of a build whose marker is gone. */
  lemma UnguardedStart(m: Machine)
    requires m.proc == Down && Marker !in m.dir && Live in m.dir && m.dir[Live].Build?
    ensures Leads(m, [Boot, GuardRead(true), Crash], m.(passes := m.passes + 1))
  {
    var again := m.(passes := m.passes + 1);
    var up := m.(proc := Up(Live, Guarding));
    var past := Passed(up, false);
    assert Leads(again, [], again);
    LeadsFirst(past, Crash, [], again);
    LeadsFirst(up, GuardRead(true), [Crash], again);
    assert [GuardRead(true)] + [Crash] == [GuardRead(true), Crash];
    LeadsFirst(m, Boot, [GuardRead(true), Crash], again);
    assert [Boot] + [GuardRead(true), Crash] == [Boot, GuardRead(true), Crash];
  }

  function CrashLoop(times: nat): seq<Event> {
    if times == 0 then [] else [Boot, GuardRead(true), Crash] + CrashLoop(times - 1)
  }

  lemma {:induction false} LeadsOn(m: Machine, run: seq<Event>, mid: Machine, rest: seq<Event>, m': Machine)
    requires Leads(m, run, mid) && Leads(mid, rest, m')
    ensures Leads(m, run + rest, m')
    decreases |run|
  {
    if run == [] {
      assert run + rest == rest;
    } else {
      LeadsOn(Apply(m, run[0]), run[1..], mid, rest, m');
      LeadsFirst(m, run[0], run[1..] + rest, m');
      assert [run[0]] + (run[1..] + rest) == run + rest;
    }
  }

  lemma {:induction false} UnguardedForever(m: Machine, times: nat)
    requires m.proc == Down && Marker !in m.dir && Live in m.dir && m.dir[Live].Build?
    ensures Leads(m, CrashLoop(times), m.(passes := m.passes + times))
    decreases times
  {
    if times > 0 {
      var again := m.(passes := m.passes + 1);
      UnguardedStart(m);
      UnguardedForever(again, times - 1);
      LeadsOn(m, [Boot, GuardRead(true), Crash], again, CrashLoop(times - 1), m.(passes := m.passes + times));
    }
  }

  lemma HeartbeatThenDeath(m: Machine)
    requires m.proc.Up? && m.proc.phase == Awaiting && m.proc.image != Marker && Marker in m.dir
    ensures Leads(m, [Heartbeat(true), Crash], m.(dir := m.dir - {Marker}, proc := Down, pending := None, armed := None))
  {
    var beaten := At(m, Awaiting).(dir := m.dir - {Marker}, pending := None, armed := None);
    var dead := beaten.(proc := Down);
    assert Leads(dead, [], dead);
    LeadsFirst(beaten, Crash, [], dead);
    assert Apply(m, Heartbeat(true)) == beaten;
    LeadsFirst(m, Heartbeat(true), [Crash], dead);
    assert [Heartbeat(true)] + [Crash] == [Heartbeat(true), Crash];
  }

  /**
    The process that swapped keeps sending heartbeats until it restarts; one of them takes the marker
    away, and from then on the new build may start and die any number of times, never rolled back.
  */
  lemma WaitingHeartbeatDisarms(m: Machine, times: nat)
    requires m.proc.Up? && m.proc.phase == Awaiting && m.proc.image != Marker
    requires Marker in m.dir && Live in m.dir && m.dir[Live].Build?
    ensures exists m' ::
      Leads(m, [Heartbeat(true), Crash] + CrashLoop(times), m') && m'.passes == m.passes + times && m'.dir == m.dir - {Marker}
  {
    var dead := m.(dir := m.dir - {Marker}, proc := Down, pending := None, armed := None);
    HeartbeatThenDeath(m);
    UnguardedForever(dead, times);
    LeadsOn(m, [Heartbeat(true), Crash], dead, CrashLoop(times), dead.(passes := dead.passes + times));
  }
}
