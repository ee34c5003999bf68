/**
  The functions of agent/cmd/stowline-agent/upgrade.go as they run on one directory, each from
  call to return, with the choices of the file system as parameters. Every one of them is shown
  to perform steps of the machine in `Upgrade`, so that what is proved there about every cut-off
  point and every sequence of starts is about this code.
*/
module Upgrader {
  import opened Options
  import opened Sets
  import opened Upgrade

  datatype RestoreChoices = RestoreChoices(nano: nat, moveAllowed: bool, putAllowed: bool, backAllowed: bool)

  datatype GuardChoices = GuardChoices(readable: bool, dropAllowed: bool, count: WriteOutcome,
      restore: RestoreChoices, removeAllowed: bool)

  datatype GuardResult = PassedGuard(failed: bool) | RolledBack

  datatype StageChoices = StageChoices(write: WriteOutcome, passes: bool, now: nat, asideAllowed: bool,
      installAllowed: bool, backAllowed: bool, cleanupAllowed: bool)

  /** The host lets both renames of a restore through. */
  predicate RestoreAllowed(d: Dir, image: Name, stamp: nat, choices: RestoreChoices) {
    choices.moveAllowed && choices.putAllowed && Rollback(stamp) in d && image != FailedCopy(choices.nano)
  }

  /** The staged file is written, passes its self-check, and both renames of the swap go through. */
  predicate SwapAllowed(d: Dir, image: Name, choices: StageChoices) {
    && choices.write.Written? && choices.passes && choices.asideAllowed && choices.installAllowed
    && CanRename(d, image, Live, Rollback(choices.now))
  }

  /** There is a qualified pin other than the live build, its binary arrived, and the swap goes through. */
  predicate Upgrades(d: Dir, image: Name, want: BuildId, qualified: bool, downloaded: Option<BuildId>, choices: StageChoices) {
    && qualified && want != "" && downloaded == Some(want)
    && Live in d && d[Live] != Build(want) && SwapAllowed(d, image, choices)
  }

  // ---- runs of the machine ----

  ghost predicate Reached(m0: Machine, m: Machine) {
    exists run :: Leads(m0, run, m)
  }

  lemma Stay(m: Machine)
    ensures Reached(m, m)
  {
    assert Leads(m, [], m);
  }

  lemma Take(m0: Machine, m: Machine, e: Event)
    requires Reached(m0, m) && Enabled(m, e)
    ensures Reached(m0, Apply(m, e))
  {
    var run :| Leads(m0, run, m);
    var next := Apply(m, e);
    assert Leads(next, [], next);
    LeadsFirst(m, e, [], next);
    LeadsOn(m0, run, m, [e] + [], next);
  }

  /** No build that was on disk is gone. */
  ghost predicate KeepsBuilds(d: Dir, d': Dir) {
    forall build :: OnDisk(d, build) ==> OnDisk(d', build)
  }

  lemma RenameKeepsBuilds(d: Dir, src: Name, dst: Name)
    requires src in d && dst !in d && Executable(src) && Executable(dst)
    ensures KeepsBuilds(d, Renamed(d, src, dst))
  {
    forall build | OnDisk(d, build) ensures OnDisk(Renamed(d, src, dst), build) {
      var name :| name in d && Executable(name) && d[name] == Build(build);
      var now := if name == src then dst else name;
      assert now in Renamed(d, src, dst) && Executable(now);
    }
  }

  lemma ReachedOn(m0: Machine, m: Machine, m': Machine)
    requires Reached(m0, m) && Reached(m, m')
    ensures Reached(m0, m')
  {
    var run :| Leads(m0, run, m);
    var rest :| Leads(m, rest, m');
    LeadsOn(m0, run, m, rest, m');
  }

  /** The live path is untouched, or empty with its binary kept under the rollback name. */
  predicate KeptAside(d: Dir, d': Dir, stamp: nat) {
    if Live !in d then Live !in d'
    else if Live in d' then d'[Live] == d[Live]
    else Rollback(stamp) in d' && d'[Rollback(stamp)] == d[Live]
  }

  /**
    What an attempt that got as far as the staged file leaves of `d`, the directory with that file in it:
    nothing else is touched before the self-check and the first rename went through, and what a failure
    of the second rename leaves depends on whether the first may be undone.
  */
  ghost predicate StagedLeaves(d: Dir, d': Dir, image: Name, choices: StageChoices) {
    var copy := Rollback(choices.now);
    var moves := choices.passes && choices.asideAllowed && CanRename(d, image, Live, copy);
    && (!moves ==> d' == if choices.cleanupAllowed && image != Staging then d - {Staging} else d)
    && (moves && !choices.installAllowed && choices.backAllowed ==> d' == d - {copy})
    && (moves && !choices.installAllowed && !choices.backAllowed ==> d' == (d - {Live})[copy := d[Live]])
  }

  // ---- what each file operation makes of the machine ----

  function MovedBad(m: Machine, stamp: nat, nano: nat, guard: bool, ok: bool): Machine
    requires m.proc.Up? && (ok ==> Live in m.dir)
  {
    if ok then AfterRename(m, Live, FailedCopy(nano), RestoringBack(stamp, nano, guard))
    else if Live !in m.dir then At(m, RestoringBack(stamp, nano, guard))
    else if guard then Passed(m, true)
    else At(m, Serving)
  }

  lemma TakeMoveBad(m0: Machine, m: Machine, stamp: nat, nano: nat, guard: bool, ok: bool)
    requires Reached(m0, m) && m.proc.Up? && m.proc.phase == RestoringAside(stamp, guard)
    requires ok ==> CanRename(m.dir, m.proc.image, Live, FailedCopy(nano))
    ensures Reached(m0, MovedBad(m, stamp, nano, guard, ok))
  {
    Take(m0, m, MoveBad(nano, ok));
  }

  function PutBackLive(m: Machine, stamp: nat, nano: nat, guard: bool, ok: bool): Machine
    requires m.proc.Up? && (ok ==> Rollback(stamp) in m.dir)
  {
    if !ok then At(m, RestoringUndo(nano, guard))
    else if guard then AfterRename(m, Rollback(stamp), Live, Removing).(armed := None)
    else AfterRename(m, Rollback(stamp), Live, Serving).(pending := None)
  }

  lemma TakePutRollback(m0: Machine, m: Machine, stamp: nat, nano: nat, guard: bool, ok: bool)
    requires Reached(m0, m) && m.proc.Up? && m.proc.phase == RestoringBack(stamp, nano, guard)
    requires ok ==> CanRename(m.dir, m.proc.image, Rollback(stamp), Live)
    ensures Reached(m0, PutBackLive(m, stamp, nano, guard, ok))
  {
    Take(m0, m, PutRollback(ok));
  }

  function MovedBack(m: Machine, nano: nat, guard: bool, ok: bool): Machine
    requires m.proc.Up? && (ok ==> FailedCopy(nano) in m.dir)
  {
    var after := if ok then AfterRename(m, FailedCopy(nano), Live, Serving) else At(m, Serving);
    if guard then Passed(after, true) else after
  }

  lemma TakeMoveBadBack(m0: Machine, m: Machine, nano: nat, guard: bool, ok: bool)
    requires Reached(m0, m) && m.proc.Up? && m.proc.phase == RestoringUndo(nano, guard)
    requires ok ==> CanRename(m.dir, m.proc.image, FailedCopy(nano), Live)
    ensures Reached(m0, MovedBack(m, nano, guard, ok))
  {
    Take(m0, m, MoveBadBack(ok));
  }

  function CheckedMarker(m: Machine, ok: bool): Machine
    requires m.proc.Up?
  {
    if !ok then Passed(m, true)
    else if Marker !in m.dir then Passed(m, false)
    else if !m.dir[Marker].Mark? then At(m, Dropping)
    else if m.dir[Marker].boots + 1 > MAX_UNCONFIRMED_BOOTS then At(m, RestoringAside(m.dir[Marker].stamp, true))
    else At(m, Counting(m.dir[Marker].stamp, m.dir[Marker].boots + 1))
  }

  lemma TakeGuardRead(m0: Machine, m: Machine, ok: bool)
    requires Reached(m0, m) && m.proc.Up? && m.proc.phase == Guarding
    ensures Reached(m0, CheckedMarker(m, ok))
  {
    Take(m0, m, GuardRead(ok));
  }

  lemma TakeGuardDrop(m0: Machine, m: Machine, ok: bool)
    requires Reached(m0, m) && m.proc.Up? && m.proc.phase == Dropping && (ok ==> CanRemove(m.dir, m.proc.image, Marker))
    ensures Reached(m0, Passed(AfterRemove(m, Marker, ok, PruneReady), false))
  {
    Take(m0, m, GuardDrop(ok));
  }

  function CountedStart(m: Machine, stamp: nat, boots: nat, outcome: WriteOutcome): Machine
    requires m.proc.Up?
  {
    Passed(m.(dir := WrittenTo(m.dir, Marker, Mark(stamp, boots), outcome), armed := if outcome.Torn? then None else m.armed), !outcome.Written?)
  }

  lemma TakeGuardCount(m0: Machine, m: Machine, stamp: nat, boots: nat, outcome: WriteOutcome)
    requires Reached(m0, m) && m.proc.Up? && m.proc.phase == Counting(stamp, boots)
    ensures Reached(m0, CountedStart(m, stamp, boots, outcome))
  {
    Take(m0, m, GuardCount(outcome));
  }

  lemma TakeRemoveMarker(m0: Machine, m: Machine, ok: bool)
    requires Reached(m0, m) && m.proc.Up? && m.proc.phase == Removing && (ok ==> CanRemove(m.dir, m.proc.image, Marker))
    ensures Reached(m0, AfterRemove(m, Marker, ok, Removing).(proc := Down))
  {
    Take(m0, m, RemoveMarker(ok));
  }

  lemma TakePruneList(m0: Machine, m: Machine, markerRead: bool, dirRead: bool)
    requires Reached(m0, m) && m.proc.Up? && m.proc.phase == PruneReady
    ensures Reached(m0, At(m, Pruning(if dirRead then Doomed(m.dir, if markerRead then Upgrade.Recorded(m.dir) else None) else {})))
  {
    Take(m0, m, PruneList(markerRead, dirRead));
  }

  lemma TakePruneRemove(m0: Machine, m: Machine, todo: set<Name>, name: Name, ok: bool)
    requires Reached(m0, m) && m.proc.Up? && m.proc.phase == Pruning(todo) && name in todo
    requires ok ==> CanRemove(m.dir, m.proc.image, name)
    ensures Reached(m0, AfterRemove(m, name, ok, Pruning(todo - {name})))
  {
    Take(m0, m, PruneRemove(name, ok));
  }

  lemma TakePruneDone(m0: Machine, m: Machine)
    requires Reached(m0, m) && m.proc.Up? && m.proc.phase == Pruning({})
    ensures Reached(m0, At(m, Serving))
  {
    Take(m0, m, PruneDone);
  }

  function Beaten(m: Machine, removed: bool, next: Phase): Machine
    requires m.proc.Up?
  {
    AfterRemove(m, Marker, removed, next).(pending := None, armed := None)
  }

  lemma TakeHeartbeat(m0: Machine, m: Machine, removed: bool)
    requires Reached(m0, m) && m.proc.Up? && (m.proc.phase == Serving || m.proc.phase == Awaiting)
    requires removed ==> CanRemove(m.dir, m.proc.image, Marker)
    ensures Reached(m0, Beaten(m, removed, if m.proc.phase == Serving then Confirmed else Awaiting))
  {
    Take(m0, m, Heartbeat(removed));
  }

  lemma TakeIdle(m0: Machine, m: Machine)
    requires Reached(m0, m) && m.proc.Up? && m.proc.phase == Confirmed
    ensures Reached(m0, At(m, Serving))
  {
    Take(m0, m, Idle);
  }

  lemma TakeDownload(m0: Machine, m: Machine, build: BuildId)
    requires Reached(m0, m) && m.proc.Up? && m.proc.phase == Confirmed
    ensures Reached(m0, At(m, Downloaded(build)))
  {
    Take(m0, m, Download(build, build));
  }

  function StagedFile(m: Machine, build: BuildId, outcome: WriteOutcome): Machine
    requires m.proc.Up?
  {
    At(m.(dir := WrittenTo(m.dir, Staging, Build(build), outcome)), if outcome.Written? then Checking(build) else Serving)
  }

  lemma TakeWriteStaging(m0: Machine, m: Machine, build: BuildId, outcome: WriteOutcome)
    requires Reached(m0, m) && m.proc.Up? && m.proc.phase == Downloaded(build)
    ensures Reached(m0, StagedFile(m, build, outcome))
  {
    Take(m0, m, WriteStaging(outcome));
  }

  lemma TakeSelfCheck(m0: Machine, m: Machine, build: BuildId, passed: bool)
    requires Reached(m0, m) && m.proc.Up? && m.proc.phase == Checking(build)
    ensures Reached(m0, if passed then At(m, MovingAside(build)).(trusted := m.trusted + {build}) else At(m, DropStaging))
  {
    Take(m0, m, SelfCheck(passed));
  }

  lemma TakeRemoveStaging(m0: Machine, m: Machine, ok: bool)
    requires Reached(m0, m) && m.proc.Up? && m.proc.phase == DropStaging
    requires ok ==> CanRemove(m.dir, m.proc.image, Staging)
    ensures Reached(m0, AfterRemove(m, Staging, ok, Serving))
  {
    Take(m0, m, RemoveStaging(ok));
  }

  function MovedAside(m: Machine, build: BuildId, stamp: nat, ok: bool): Machine
    requires m.proc.Up? && (ok ==> Live in m.dir)
  {
    if !ok then At(m, DropStaging)
    else
      var after := AfterRename(m, Live, Rollback(stamp), Installing(build, stamp));
      if m.dir[Live].Build? then after.(pending := Some(Swap(m.dir[Live].id, stamp))) else after
  }

  lemma TakeMoveAside(m0: Machine, m: Machine, build: BuildId, stamp: nat, ok: bool)
    requires Reached(m0, m) && m.proc.Up? && m.proc.phase == MovingAside(build)
    requires ok ==> CanRename(m.dir, m.proc.image, Live, Rollback(stamp))
    ensures Reached(m0, MovedAside(m, build, stamp, ok))
  {
    Take(m0, m, MoveAside(stamp, ok));
  }

  lemma TakeInstall(m0: Machine, m: Machine, build: BuildId, stamp: nat, ok: bool)
    requires Reached(m0, m) && m.proc.Up? && m.proc.phase == Installing(build, stamp)
    requires ok ==> CanRename(m.dir, m.proc.image, Staging, Live)
    ensures Reached(m0, if ok then AfterRename(m, Staging, Live, Marking(stamp)) else At(m, PuttingBack(stamp)))
  {
    Take(m0, m, Install(ok));
  }

  lemma TakePutBack(m0: Machine, m: Machine, stamp: nat, ok: bool)
    requires Reached(m0, m) && m.proc.Up? && m.proc.phase == PuttingBack(stamp)
    requires ok ==> CanRename(m.dir, m.proc.image, Rollback(stamp), Live)
    ensures Reached(m0, if ok then AfterRename(m, Rollback(stamp), Live, Serving).(pending := None) else At(m, Serving))
  {
    Take(m0, m, PutBack(ok));
  }

  function MarkedSwap(m: Machine, stamp: nat, outcome: WriteOutcome): Machine
    requires m.proc.Up?
  {
    var written := m.(dir := WrittenTo(m.dir, Marker, Mark(stamp, 0), outcome));
    if outcome.Written? then At(written, Awaiting).(armed := m.pending, passes := 0, errors := 0) else At(written, RestoringAside(stamp, false))
  }

  lemma TakeWriteMarker(m0: Machine, m: Machine, stamp: nat, outcome: WriteOutcome)
    requires Reached(m0, m) && m.proc.Up? && m.proc.phase == Marking(stamp)
    ensures Reached(m0, MarkedSwap(m, stamp, outcome))
  {
    Take(m0, m, WriteMarker(outcome));
  }

  // ---- sorted rollback stamps ----

  predicate Rising(stamps: seq<nat>) {
    forall i, k :: 0 <= i < k < |stamps| ==> stamps[i] < stamps[k]
  }

  function InsertStamp(stamps: seq<nat>, x: nat): (r: seq<nat>)
    requires Rising(stamps) && x !in stamps
    ensures Rising(r) && |r| == |stamps| + 1 && forall y :: y in r <==> y == x || y in stamps
  {
    if stamps == [] then [x]
    else if x < stamps[0] then [x] + stamps
    else
      var rest := InsertStamp(stamps[1..], x);
      assert forall y :: y in stamps <==> y == stamps[0] || y in stamps[1..];
      assert forall k :: 0 <= k < |rest| ==> rest[k] in rest;
      [stamps[0]] + rest
  }

  /** The stamps among `names`, which are distinct, in rising order. */
  ghost predicate StampsOf(stamps: seq<nat>, names: seq<Name>) {
    Rising(stamps) && forall stamp :: stamp in stamps <==> Rollback(stamp) in names
  }

  lemma StampsStep(stamps: seq<nat>, entries: seq<Name>, i: nat)
    requires i < |entries| && StampsOf(stamps, entries[..i]) && forall k, l :: 0 <= k < l < |entries| ==> entries[k] != entries[l]
    ensures
      var name := entries[i];
      if name.Rollback? then name.stamp !in stamps && StampsOf(InsertStamp(stamps, name.stamp), entries[..i + 1])
      else StampsOf(stamps, entries[..i + 1])
  {
    assert entries[..i + 1] == entries[..i] + [entries[i]];
    assert entries[i] !in entries[..i];
  }

  predicate TwoNewer(d: Dir, stamp: nat, a: nat, b: nat) {
    stamp < a < b && Rollback(a) in d && Rollback(b) in d
  }

  lemma TwoNewerAreTwo(d: Dir, stamp: nat)
    ensures |NewerRollbacks(d, stamp)| >= 2 <==> exists a, b :: TwoNewer(d, stamp, a, b)
  {
    var newer := NewerRollbacks(d, stamp);
    if a, b :| TwoNewer(d, stamp, a, b) {
      SubsetSize({Rollback(a), Rollback(b)}, newer);
    }
    if |newer| >= 2 {
      var x :| x in newer;
      var rest := newer - {x};
      assert |rest| == |newer| - 1;
      var y :| y in rest;
      assert if x.stamp < y.stamp then TwoNewer(d, stamp, x.stamp, y.stamp) else TwoNewer(d, stamp, y.stamp, x.stamp);
    }
  }

  /** Failed and staged binaries go, and a rollback copy does that is neither recorded nor among the newest two. */
  lemma DoomedExactly(d: Dir, recorded: Option<nat>, name: Name)
    ensures name in Doomed(d, recorded) <==>
      && name in d && name != Live && name != Marker
      && (name.Rollback? ==> recorded != Some(name.stamp) && exists a, b :: TwoNewer(d, name.stamp, a, b))
  {
    if name.Rollback? { TwoNewerAreTwo(d, name.stamp); }
  }

  /** Counting from the end of the sorted list is counting the newer copies. */
  lemma NewerCount(d: Dir, stamps: seq<nat>, i: nat)
    requires Rising(stamps) && (forall stamp :: stamp in stamps <==> Rollback(stamp) in d) && i < |stamps|
    ensures |NewerRollbacks(d, stamps[i])| == |stamps| - 1 - i
    decreases |stamps| - i
  {
    var newer := NewerRollbacks(d, stamps[i]);
    if i == |stamps| - 1 {
      assert newer == {};
    } else {
      NewerCount(d, stamps, i + 1);
      assert newer == NewerRollbacks(d, stamps[i + 1]) + {Rollback(stamps[i + 1])};
    }
  }

  function RollbacksIn(names: set<Name>): set<Name> {
    set name | name in names && name.Rollback?
  }

  lemma NewestAreSpared(d: Dir, recorded: Option<nat>, stamps: seq<nat>, from: nat)
    requires Rising(stamps) && (forall stamp :: stamp in stamps <==> Rollback(stamp) in d) && |stamps| - KEEP <= from <= |stamps|
    ensures forall name :: name in Doomed(d, recorded) && name.Rollback? ==> name.stamp in stamps[..from]
  {
    forall name | name in Doomed(d, recorded) && name.Rollback? ensures name.stamp in stamps[..from] {
      var i :| 0 <= i < |stamps| && stamps[i] == name.stamp;
      NewerCount(d, stamps, i);
    }
  }

  /** What the first loop still leaves to remove: rollback copies, and what it has not come to. */
  ghost function Unlisted(doomed: set<Name>, entries: seq<Name>, i: nat): set<Name>
    requires i <= |entries|
  {
    set name | name in doomed && (name.Rollback? || name !in entries[..i])
  }

  lemma UnlistedStep(d: Dir, recorded: Option<nat>, entries: seq<Name>, i: nat)
    requires i < |entries| && entries[i] in d && forall k, l :: 0 <= k < l < |entries| ==> entries[k] != entries[l]
    ensures
      var doomed := Doomed(d, recorded);
      var name := entries[i];
      if name.FailedCopy? || name.Staging? then name in Unlisted(doomed, entries, i) && Unlisted(doomed, entries, i + 1) == Unlisted(doomed, entries, i) - {name}
      else Unlisted(doomed, entries, i + 1) == Unlisted(doomed, entries, i)
  {
    assert entries[..i + 1] == entries[..i] + [entries[i]];
  }

  /** What is left of `d` once the doomed names that the host lets go are removed. */
  ghost predicate Pruned(d: Dir, d': Dir, doomed: set<Name>, spared: set<Name>) {
    && (forall name :: name in d' <==> name in d && !(name in doomed && name !in spared))
    && (forall name :: name in d' ==> d'[name] == d[name])
  }

  class Upgrader {
    var dir: Dir
    /** The name the running process's image file goes by; the host keeps track of it. */
    var image: Name
    ghost var m: Machine

    ghost predicate In(phase: Phase)
      reads this
    {
      m.dir == dir && m.proc == Up(image, phase)
    }

    method Rename(src: Name, dst: Name, allowed: bool) returns (ok: bool)
      modifies `dir, `image
      ensures ok == (allowed && CanRename(old(dir), old(image), src, dst))
      ensures ok ==> dir == Renamed(old(dir), src, dst) && dir == (old(dir) - {src})[dst := old(dir)[src]]
      ensures ok ==> image == Moved(old(image), src, dst) && image == if old(image) == src then dst else old(image)
      ensures !ok ==> dir == old(dir) && image == old(image)
    {
      if !allowed || !CanRename(dir, image, src, dst) { return false; }
      dir := (dir - {src})[dst := dir[src]];
      if image == src { image := dst; }
      return true;
    }

    method Remove(name: Name, allowed: bool) returns (ok: bool)
      modifies `dir
      ensures ok == (allowed && CanRemove(old(dir), image, name))
      ensures dir == if ok then old(dir) - {name} else old(dir)
    {
      if !allowed || !CanRemove(dir, image, name) { return false; }
      dir := dir - {name};
      return true;
    }

    method WriteFile(name: Name, content: Content, outcome: WriteOutcome)
      modifies `dir
      ensures dir == WrittenTo(old(dir), name, content, outcome)
      ensures outcome.Written? ==> dir == old(dir)[name := content]
      ensures outcome.NotWritten? ==> dir == old(dir)
      ensures outcome.Torn? ==> dir == old(dir)[name := Garbage]
    {
      match outcome
      case Written => dir := dir[name := content];
      case NotWritten =>
      case Torn => dir := dir[name := Garbage];
    }

    /**
      On success the live path holds what the rollback copy held and the bad binary is kept under its new
      name. If the rollback copy cannot be put there, the bad binary is moved back where the host allows
      it. Whatever fails, no build that was on disk is lost, as long as the name for the bad binary is new.
    */
    method RestoreRollback(stamp: nat, choices: RestoreChoices, ghost guard: bool) returns (ok: bool)
      requires In(RestoringAside(stamp, guard))
      modifies this
      ensures Reached(old(m), m)
      ensures In(if !guard then Serving else if ok then Removing else PruneReady)
      ensures ok ==> Rollback(stamp) in old(dir) && Live in dir && dir[Live] == old(dir)[Rollback(stamp)]
      ensures RestoreAllowed(old(dir), old(image), stamp, choices) ==> ok
      ensures
        var failed := FailedCopy(choices.nano);
        Live in old(dir) && choices.moveAllowed && CanRename(old(dir), old(image), Live, failed) ==>
          && ok == (choices.putAllowed && Rollback(stamp) in old(dir))
          && (ok ==> dir == (old(dir) - {Rollback(stamp)})[failed := old(dir)[Live]][Live := old(dir)[Rollback(stamp)]])
          && (!ok && choices.backAllowed ==> dir == old(dir) - {failed})
          && (!ok && !choices.backAllowed ==> dir == (old(dir) - {Live})[failed := old(dir)[Live]])
      ensures Live in old(dir) && !(choices.moveAllowed && CanRename(old(dir), old(image), Live, FailedCopy(choices.nano))) ==>
        !ok && dir == old(dir)
      ensures Live !in old(dir) ==>
        && ok == (choices.putAllowed && Rollback(stamp) in old(dir))
        && (ok ==> dir == (old(dir) - {Rollback(stamp)})[Live := old(dir)[Rollback(stamp)]])
      ensures Live in old(dir) && !ok && choices.backAllowed ==> Live in dir && dir[Live] == old(dir)[Live]
      ensures Marker in dir <==> Marker in old(dir)
      ensures Marker in dir ==> dir[Marker] == old(dir)[Marker]
      ensures image == Marker <==> old(image) == Marker
      ensures FailedCopy(choices.nano) !in old(dir) ==> KeepsBuilds(old(dir), dir)
    {
      ghost var m0 := m;
      Stay(m0);
      var failed := FailedCopy(choices.nano);
      var absent := Live !in dir;
      var moved := Rename(Live, failed, choices.moveAllowed);
      TakeMoveBad(m0, m, stamp, choices.nano, guard, moved);
      m := MovedBad(m, stamp, choices.nano, guard, moved);
      assert moved && failed !in old(dir) ==> KeepsBuilds(old(dir), dir) by {
        if moved && failed !in old(dir) { RenameKeepsBuilds(old(dir), Live, failed); }
      }
      if !moved && !absent { return false; }
      ok := PutBackOrUndo(stamp, choices, guard, m0);
    }

    /** With the live path empty: the rollback copy takes it, or the bad binary is moved back. */
    method PutBackOrUndo(stamp: nat, choices: RestoreChoices, ghost guard: bool, ghost m0: Machine) returns (ok: bool)
      requires Reached(m0, m) && In(RestoringBack(stamp, choices.nano, guard)) && Live !in dir
      modifies this
      ensures Reached(m0, m)
      ensures In(if !guard then Serving else if ok then Removing else PruneReady)
      ensures ok == (choices.putAllowed && Rollback(stamp) in old(dir))
      ensures ok ==> dir == (old(dir) - {Rollback(stamp)})[Live := old(dir)[Rollback(stamp)]]
      ensures !ok ==>
        var failed := FailedCopy(choices.nano);
        dir == if choices.backAllowed && failed in old(dir) then (old(dir) - {failed})[Live := old(dir)[failed]] else old(dir)
      ensures KeepsBuilds(old(dir), dir)
      ensures image == Marker <==> old(image) == Marker
    {
      var put := Rename(Rollback(stamp), Live, choices.putAllowed);
      TakePutRollback(m0, m, stamp, choices.nano, guard, put);
      m := PutBackLive(m, stamp, choices.nano, guard, put);
      if put {
        RenameKeepsBuilds(old(dir), Rollback(stamp), Live);
        return true;
      }
      var back := Rename(FailedCopy(choices.nano), Live, choices.backAllowed);
      TakeMoveBadBack(m0, m, choices.nano, guard, back);
      m := MovedBack(m, choices.nano, guard, back);
      if back { RenameKeepsBuilds(old(dir), FailedCopy(choices.nano), Live); }
      return false;
    }

    /** Counts this start, or gives the previous build back. */
    method GuardUnconfirmedUpgrade(choices: GuardChoices) returns (result: GuardResult)
      requires In(Guarding) && Live in dir
      modifies this
      ensures Reached(old(m), m) && m.dir == dir
      ensures if result.RolledBack? then m.proc == Down else In(PruneReady)
      ensures result.RolledBack? ==>
        && Recorded(old(dir)).Some? && old(dir)[Marker].boots >= 3
        && Rollback(old(dir)[Marker].stamp) in old(dir) && Live in dir && dir[Live] == old(dir)[Rollback(old(dir)[Marker].stamp)]
      ensures choices.readable && Recorded(old(dir)).Some? && old(dir)[Marker].boots < 3 ==>
        && result == PassedGuard(!choices.count.Written?)
        && (choices.count.NotWritten? ==> dir == old(dir)) && (choices.count.Torn? ==> dir == old(dir)[Marker := Garbage])
      ensures choices.readable && Recorded(old(dir)).Some? && old(dir)[Marker].boots >= 3 ==>
        RestoreAllowed(old(dir), old(image), old(dir)[Marker].stamp, choices.restore) ==> result == RolledBack
      ensures result == PassedGuard(false) && Recorded(old(dir)).Some? ==>
        && old(dir)[Marker].boots < 3
        && dir == old(dir)[Marker := Mark(old(dir)[Marker].stamp, old(dir)[Marker].boots + 1)]
      ensures !choices.readable ==> result == PassedGuard(true) && dir == old(dir)
      ensures choices.readable && Marker !in old(dir) ==> result == PassedGuard(false) && dir == old(dir)
      ensures choices.readable && Marker in old(dir) && Recorded(old(dir)).None? ==>
        && result == PassedGuard(false)
        && dir == if choices.dropAllowed && old(image) != Marker then old(dir) - {Marker} else old(dir)
      ensures result.PassedGuard? && choices.restore.backAllowed ==> Live in dir && dir[Live] == old(dir)[Live]
      ensures result.RolledBack? ==> FailedCopy(choices.restore.nano) in dir && dir[FailedCopy(choices.restore.nano)] == old(dir)[Live]
      ensures result.RolledBack? ==> (Marker in dir <==> !(choices.removeAllowed && old(image) != Marker))
    {
      ghost var m0 := m;
      Stay(m0);
      TakeGuardRead(m0, m, choices.readable);
      m := CheckedMarker(m, choices.readable);
      if !choices.readable { return PassedGuard(true); }
      if Marker !in dir { return PassedGuard(false); }
      if !dir[Marker].Mark? {
        var dropped := Remove(Marker, choices.dropAllowed);
        TakeGuardDrop(m0, m, dropped);
        m := Passed(AfterRemove(m, Marker, dropped, PruneReady), false);
        return PassedGuard(false);
      }
      var stamp, boots := dir[Marker].stamp, dir[Marker].boots + 1;
      if boots > MAX_UNCONFIRMED_BOOTS {
        result := GiveBack(stamp, choices, m0);
        return;
      }
      WriteFile(Marker, Mark(stamp, boots), choices.count);
      TakeGuardCount(m0, m, stamp, boots, choices.count);
      m := CountedStart(m, stamp, boots, choices.count);
      return PassedGuard(!choices.count.Written?);
    }

    method GiveBack(stamp: nat, choices: GuardChoices, ghost m0: Machine) returns (result: GuardResult)
      requires Reached(m0, m) && In(RestoringAside(stamp, true))
      modifies this
      ensures Reached(m0, m) && m.dir == dir
      ensures if result.RolledBack? then m.proc == Down else In(PruneReady)
      ensures result.RolledBack? || result == PassedGuard(true)
      ensures RestoreAllowed(old(dir), old(image), stamp, choices.restore) ==> result.RolledBack?
      ensures result.RolledBack? ==> Rollback(stamp) in old(dir) && Live in dir && dir[Live] == old(dir)[Rollback(stamp)]
      ensures result.RolledBack? && Marker in old(dir) ==> (Marker in dir <==> !(choices.removeAllowed && old(image) != Marker))
      ensures result.RolledBack? && Live in old(dir) ==>
        FailedCopy(choices.restore.nano) in dir && dir[FailedCopy(choices.restore.nano)] == old(dir)[Live]
      ensures !result.RolledBack? && choices.restore.backAllowed && Live in old(dir) ==> Live in dir && dir[Live] == old(dir)[Live]
    {
      var ok := RestoreRollback(stamp, choices.restore, true);
      ReachedOn(m0, old(m), m);
      if !ok { return PassedGuard(true); }
      var removed := Remove(Marker, choices.removeAllowed);
      TakeRemoveMarker(m0, m, removed);
      m := AfterRemove(m, Marker, removed, Removing).(proc := Down);
      return RolledBack;
    }

    method RemoveDoomed(name: Name, refused: set<Name>, ghost d0: Dir, ghost doomed: set<Name>,
        ghost todo: set<Name>, ghost m0: Machine)
      requires Reached(m0, m) && In(Pruning(todo)) && name in todo && name in d0 && todo <= doomed
      requires Pruned(d0, dir, doomed - todo, refused + {image})
      modifies `dir, `m
      ensures Reached(m0, m) && In(Pruning(todo - {name}))
      ensures Pruned(d0, dir, doomed - (todo - {name}), refused + {image})
    {
      assert name in dir;
      var ok := Remove(name, name !in refused);
      TakePruneRemove(m0, m, todo, name, ok);
      m := AfterRemove(m, name, ok, Pruning(todo - {name}));
    }

    /**
      `entries` is the directory listing, `refused` the names the host refuses to remove. The newest two
      rollback copies and the recorded one stay; of the rest, exactly what may be removed goes.
    */
    method PruneUpgradeLeftovers(markerRead: bool, dirRead: bool, entries: seq<Name>, refused: set<Name>)
      requires In(PruneReady)
      requires (forall name :: name in entries <==> name in dir) && forall i, k :: 0 <= i < k < |entries| ==> entries[i] != entries[k]
      modifies `dir, `m
      ensures Reached(old(m), m) && In(Serving)
      ensures
        var doomed := if dirRead then Doomed(old(dir), if markerRead then Upgrade.Recorded(old(dir)) else None) else {};
        Pruned(old(dir), dir, doomed, refused + {image})
    {
      ghost var m0, d0 := m, dir;
      var recorded := if markerRead then Upgrade.Recorded(dir) else None;
      Stay(m0);
      TakePruneList(m0, m, markerRead, dirRead);
      if !dirRead {
        m := At(m, Pruning({}));
        TakePruneDone(m0, m);
        m := At(m, Serving);
        return;
      }
      ghost var doomed := Doomed(d0, recorded);
      m := At(m, Pruning(doomed));
      var rollbacks := RemoveFailures(entries, refused, recorded, d0, m0);
      PruneRollbacks(rollbacks, recorded, refused, d0, m0);
    }

    /** The listing once through: failed and staged binaries go, rollback copies are collected. */
    method RemoveFailures(entries: seq<Name>, refused: set<Name>, ghost recorded: Option<nat>, ghost d0: Dir,
        ghost m0: Machine)
      returns (rollbacks: seq<nat>)
      requires (forall name :: name in entries <==> name in d0) && forall i, k :: 0 <= i < k < |entries| ==> entries[i] != entries[k]
      requires dir == d0 && Reached(m0, m) && In(Pruning(Doomed(d0, recorded)))
      modifies `dir, `m
      ensures Rising(rollbacks) && forall stamp :: stamp in rollbacks <==> Rollback(stamp) in d0
      ensures Reached(m0, m) && In(Pruning(RollbacksIn(Doomed(d0, recorded))))
      ensures Pruned(d0, dir, Doomed(d0, recorded) - RollbacksIn(Doomed(d0, recorded)), refused + {image})
    {
      ghost var doomed := Doomed(d0, recorded);
      ghost var todo := doomed;
      rollbacks := [];
      var i := 0;
      while i < |entries|
        invariant i <= |entries| && StampsOf(rollbacks, entries[..i])
        invariant Reached(m0, m) && In(Pruning(todo))
        invariant todo == Unlisted(doomed, entries, i)
        invariant Pruned(d0, dir, doomed - todo, refused + {image})
      {
        var name := entries[i];
        assert name in entries;
        UnlistedStep(d0, recorded, entries, i);
        StampsStep(rollbacks, entries, i);
        if name.Rollback? {
          rollbacks := InsertStamp(rollbacks, name.stamp);
        } else if name.FailedCopy? || name.Staging? {
          RemoveDoomed(name, refused, d0, doomed, todo, m0);
          todo := todo - {name};
        }
        i := i + 1;
      }
      assert entries[..i] == entries;
      assert todo == RollbacksIn(doomed);
    }

    /** The rising list of copies, all but the newest two, the recorded one passed over. */
    method PruneRollbacks(rollbacks: seq<nat>, recorded: Option<nat>, refused: set<Name>, ghost d0: Dir,
        ghost m0: Machine)
      requires Rising(rollbacks) && forall stamp :: stamp in rollbacks <==> Rollback(stamp) in d0
      requires Reached(m0, m) && In(Pruning(RollbacksIn(Doomed(d0, recorded))))
      requires Pruned(d0, dir, Doomed(d0, recorded) - RollbacksIn(Doomed(d0, recorded)), refused + {image})
      modifies `dir, `m
      ensures Reached(m0, m) && In(Serving)
      ensures Pruned(d0, dir, Doomed(d0, recorded), refused + {image})
    {
      ghost var doomed := Doomed(d0, recorded);
      ghost var todo := RollbacksIn(doomed);
      var i := 0;
      while i < |rollbacks| - KEEP
        invariant i <= |rollbacks|
        invariant Reached(m0, m) && In(Pruning(todo))
        invariant todo == set name | name in doomed && name.Rollback? && name.stamp !in rollbacks[..i]
        invariant Pruned(d0, dir, doomed - todo, refused + {image})
      {
        var stamp := rollbacks[i];
        assert rollbacks[..i + 1] == rollbacks[..i] + [stamp];
        NewerCount(d0, rollbacks, i);
        if recorded != Some(stamp) {
          RemoveDoomed(Rollback(stamp), refused, d0, doomed, todo, m0);
          todo := todo - {Rollback(stamp)};
        }
        i := i + 1;
      }
      NewestAreSpared(d0, recorded, rollbacks, i);
      assert todo == {};
      TakePruneDone(m0, m);
      m := At(m, Serving);
    }

    /**
      Nothing goes live but a build that is the pinned one and passed its self-check, and then what was
      live is the rollback copy. On failure the live path is as it was, unless the host refuses both the
      second rename and the one that undoes the first: then it is empty, its binary under the rollback name.
    */
    method StageVerifiedUpgrade(downloaded: BuildId, want: BuildId,
        choices: StageChoices) returns (rollback: Option<nat>)
      requires In(Confirmed)
      modifies this
      ensures Reached(old(m), m)
      ensures image == old(image) || image == Live || image.Rollback?
      ensures In(if rollback.Some? then Marking(rollback.value) else Serving)
      ensures rollback.Some? ==>
        && downloaded == want && choices.passes && rollback.value == choices.now
        && Live in old(dir) && Live in dir && dir[Live] == Build(want)
        && Rollback(choices.now) in dir && dir[Rollback(choices.now)] == old(dir)[Live]
      ensures rollback.Some? <==> downloaded == want && SwapAllowed(old(dir), old(image), choices)
      ensures
        && downloaded == want && choices.write.Written? && choices.passes && choices.asideAllowed && choices.installAllowed
        && Live in old(dir) && old(image) != Rollback(choices.now) ==>
          rollback.Some?
      ensures rollback.Some? ==>
        dir == (old(dir) - {Staging})[Rollback(choices.now) := old(dir)[Live]][Live := Build(want)]
      ensures rollback.None? && choices.backAllowed && Live in old(dir) ==> Live in dir && dir[Live] == old(dir)[Live]
      ensures rollback.None? ==> KeptAside(old(dir), dir, choices.now)
      ensures downloaded != want || choices.write.NotWritten? ==> dir == old(dir)
      ensures downloaded == want && choices.write.Torn? ==> dir == old(dir)[Staging := Garbage]
      ensures downloaded == want && choices.write.Written? ==>
        StagedLeaves(old(dir)[Staging := Build(want)], dir, old(image), choices)
    {
      ghost var m0 := m;
      Stay(m0);
      if downloaded != want {
        TakeIdle(m0, m);
        m := At(m, Serving);
        return None;
      }
      TakeDownload(m0, m, want);
      m := At(m, Downloaded(want));
      WriteFile(Staging, Build(want), choices.write);
      TakeWriteStaging(m0, m, want, choices.write);
      m := StagedFile(m, want, choices.write);
      if !choices.write.Written? { return None; }
      rollback := CheckStaged(want, choices, m0);
    }

    /** The staged file runs its own self-check before it may be swapped in. */
    method CheckStaged(want: BuildId, choices: StageChoices, ghost m0: Machine) returns (rollback: Option<nat>)
      requires Reached(m0, m) && In(Checking(want)) && choices.write.Written? && Staging in dir && dir[Staging] == Build(want)
      modifies this
      ensures Reached(m0, m)
      ensures image == old(image) || image == Live || image.Rollback?
      ensures In(if rollback.Some? then Marking(rollback.value) else Serving)
      ensures rollback.Some? ==>
        && Live in old(dir) && choices.passes && rollback.value == choices.now && Live in dir && dir[Live] == Build(want)
        && Rollback(choices.now) in dir && dir[Rollback(choices.now)] == old(dir)[Live]
      ensures rollback.Some? <==> SwapAllowed(old(dir), old(image), choices)
      ensures rollback.Some? ==>
        dir == (old(dir) - {Staging})[Rollback(choices.now) := old(dir)[Live]][Live := Build(want)]
      ensures rollback.None? && choices.backAllowed && Live in old(dir) ==> Live in dir && dir[Live] == old(dir)[Live]
      ensures rollback.None? ==> KeptAside(old(dir), dir, choices.now)
      ensures StagedLeaves(old(dir), dir, old(image), choices)
    {
      TakeSelfCheck(m0, m, want, choices.passes);
      if !choices.passes {
        m := At(m, DropStaging);
        CleanUp(choices.cleanupAllowed, m0);
        return None;
      }
      m := At(m, MovingAside(want)).(trusted := m.trusted + {want});
      rollback := SwapIn(want, choices, m0);
    }

    /** A failed attempt may leave the staged file behind. */
    method CleanUp(allowed: bool, ghost m0: Machine)
      requires Reached(m0, m) && In(DropStaging)
      modifies `dir, `m
      ensures Reached(m0, m) && In(Serving)
      ensures dir == if allowed && old(image) != Staging then old(dir) - {Staging} else old(dir)
    {
      var removed := Remove(Staging, allowed);
      TakeRemoveStaging(m0, m, removed);
      m := AfterRemove(m, Staging, removed, Serving);
    }

    /** The two renames of the swap, and the one that undoes the first. */
    method SwapIn(want: BuildId, choices: StageChoices, ghost m0: Machine) returns (rollback: Option<nat>)
      requires Reached(m0, m) && In(MovingAside(want)) && choices.write.Written? && choices.passes && Staging in dir && dir[Staging] == Build(want)
      modifies this
      ensures Reached(m0, m)
      ensures image == old(image) || image == Live || image.Rollback?
      ensures In(if rollback.Some? then Marking(rollback.value) else Serving)
      ensures rollback.Some? ==>
        && Live in old(dir) && rollback.value == choices.now && Live in dir && dir[Live] == Build(want)
        && Rollback(choices.now) in dir && dir[Rollback(choices.now)] == old(dir)[Live]
      ensures rollback.Some? <==> SwapAllowed(old(dir), old(image), choices)
      ensures rollback.Some? ==>
        dir == (old(dir) - {Staging})[Rollback(choices.now) := old(dir)[Live]][Live := Build(want)]
      ensures rollback.None? && choices.backAllowed && Live in old(dir) ==> Live in dir && dir[Live] == old(dir)[Live]
      ensures rollback.None? ==> KeptAside(old(dir), dir, choices.now)
      ensures StagedLeaves(old(dir), dir, old(image), choices)
    {
      var stamp := choices.now;
      var aside := Rename(Live, Rollback(stamp), choices.asideAllowed);
      TakeMoveAside(m0, m, want, stamp, aside);
      m := MovedAside(m, want, stamp, aside);
      if !aside {
        CleanUp(choices.cleanupAllowed, m0);
        return None;
      }
      rollback := InstallStaged(want, stamp, choices, m0);
    }

    /** The second rename, with the live path empty, and the undoing of the first if it fails. */
    method InstallStaged(want: BuildId, stamp: nat, choices: StageChoices,
        ghost m0: Machine) returns (rollback: Option<nat>)
      requires Reached(m0, m) && In(Installing(want, stamp))
      requires Live !in dir && Rollback(stamp) in dir && Staging in dir && dir[Staging] == Build(want)
      modifies this
      ensures Reached(m0, m)
      ensures image == old(image) || image == Live || image.Rollback?
      ensures In(if rollback.Some? then Marking(rollback.value) else Serving)
      ensures rollback.Some? ==>
        rollback.value == stamp && Live in dir && dir[Live] == Build(want) && Rollback(stamp) in dir && dir[Rollback(stamp)] == old(dir)[Rollback(stamp)]
      ensures rollback.Some? <==> choices.installAllowed
      ensures rollback.Some? ==> dir == (old(dir) - {Staging})[Live := Build(want)]
      ensures rollback.None? ==>
        dir == if choices.backAllowed then (old(dir) - {Rollback(stamp)})[Live := old(dir)[Rollback(stamp)]] else old(dir)
    {
      var installed := Rename(Staging, Live, choices.installAllowed);
      TakeInstall(m0, m, want, stamp, installed);
      m := if installed then AfterRename(m, Staging, Live, Marking(stamp)) else At(m, PuttingBack(stamp));
      if installed { return Some(stamp); }
      var back := Rename(Rollback(stamp), Live, choices.backAllowed);
      TakePutBack(m0, m, stamp, back);
      m := if back then AfterRename(m, Rollback(stamp), Live, Serving).(pending := None) else At(m, Serving);
      return None;
    }

    /** Only a qualified pin other than the live build leads to an attempt. */
    method RunAgentUpgrade(want: BuildId, qualified: bool, downloaded: Option<BuildId>,
        choices: StageChoices) returns (rollback: Option<nat>)
      requires In(Confirmed) && Live in dir
      modifies this
      ensures Reached(old(m), m)
      ensures image == old(image) || image == Live || image.Rollback?
      ensures In(if rollback.Some? then Marking(rollback.value) else Serving)
      ensures rollback.Some? ==>
        && qualified && want != "" && downloaded == Some(want) && old(dir)[Live] != Build(want)
        && Live in dir && dir[Live] == Build(want)
        && Rollback(rollback.value) in dir && dir[Rollback(rollback.value)] == old(dir)[Live]
      ensures rollback.None? && choices.backAllowed ==> Live in dir && dir[Live] == old(dir)[Live]
      ensures rollback.None? ==> KeptAside(old(dir), dir, choices.now)
      ensures !qualified || want == "" || downloaded != Some(want) || old(dir)[Live] == Build(want) ==> dir == old(dir)
      ensures rollback.Some? <==> Upgrades(old(dir), old(image), want, qualified, downloaded, choices)
    {
      if !qualified || want == "" || dir[Live] == Build(want) || downloaded.None? {
        Stay(m);
        TakeIdle(m, m);
        m := At(m, Serving);
        return None;
      }
      rollback := StageVerifiedUpgrade(downloaded.value, want, choices);
    }

    /** `confirmUpgradeHealthy`: a heartbeat ends the watch over a pending upgrade. */
    method ConfirmUpgradeHealthy(allowed: bool)
      requires In(Serving) || In(Awaiting)
      modifies `dir, `m
      ensures Reached(old(m), m) && In(if old(m).proc.phase == Serving then Confirmed else Awaiting)
      ensures dir == if allowed && CanRemove(old(dir), image, Marker) then old(dir) - {Marker} else old(dir)
      ensures m.pending == None
    {
      Stay(m);
      var removed := Remove(Marker, allowed);
      TakeHeartbeat(m, m, removed);
      m := Beaten(m, removed, if m.proc.phase == Serving then Confirmed else Awaiting);
    }

    /** `writeUpgradeMarker`, and the undoing of the swap where it fails. */
    method RecordOrUndo(stamp: nat, outcome: WriteOutcome, restore: RestoreChoices) returns (recorded: bool)
      requires In(Marking(stamp))
      modifies this
      ensures Reached(old(m), m) && In(if recorded then Awaiting else Serving)
      ensures recorded == outcome.Written?
      ensures recorded ==> dir == old(dir)[Marker := Mark(stamp, 0)] && m.armed == old(m).pending
      ensures !recorded && RestoreAllowed(old(dir), old(image), stamp, restore) ==>
        Live in dir && dir[Live] == old(dir)[Rollback(stamp)]
      ensures !recorded && Live in old(dir) && restore.backAllowed ==>
        Live in dir && (dir[Live] == old(dir)[Live] || (Rollback(stamp) in old(dir) && dir[Live] == old(dir)[Rollback(stamp)]))
    {
      ghost var m0 := m;
      Stay(m0);
      WriteFile(Marker, Mark(stamp, 0), outcome);
      TakeWriteMarker(m0, m, stamp, outcome);
      m := MarkedSwap(m, stamp, outcome);
      if outcome.Written? { return true; }
      ghost var unmarked := m;
      var _ := RestoreRollback(stamp, restore, false);
      ReachedOn(m0, unmarked, m);
      return false;
    }

    /** An attempt and, if it swapped the binaries, its marker. */
    method SwapAndRecord(want: BuildId, qualified: bool, downloaded: Option<BuildId>,
        choices: StageChoices, mark: WriteOutcome, restore: RestoreChoices)
      returns (restarting: bool)
      requires In(Confirmed) && Live in dir
      modifies this
      ensures Reached(old(m), m) && In(if restarting then Awaiting else Serving)
      ensures restarting <==> mark.Written? && Upgrades(old(dir), old(image), want, qualified, downloaded, choices)
      ensures restarting ==>
        && Live in dir && dir[Live] == Build(want)
        && Recorded(dir).Some? && dir[Marker].boots == 0
        && Rollback(dir[Marker].stamp) in dir && dir[Rollback(dir[Marker].stamp)] == old(dir)[Live]
      ensures !restarting && choices.backAllowed && restore.backAllowed ==>
        Live in dir && (dir[Live] == old(dir)[Live] || dir[Live] == Build(want))
      ensures !restarting && choices.backAllowed && restore.moveAllowed && restore.putAllowed && old(image) != FailedCopy(restore.nano) ==>
        Live in dir && dir[Live] == old(dir)[Live]
    {
      ghost var m0 := m;
      var rollback := RunAgentUpgrade(want, qualified, downloaded, choices);
      if rollback.None? { return false; }
      ghost var swapped := m;
      restarting := RecordOrUndo(rollback.value, mark, restore);
      ReachedOn(m0, swapped, m);
    }

    /**
      What a heartbeat's pin sets off. A restart is asked for exactly when the pinned build is live,
      the build before it is the rollback copy, and the marker says so with no starts counted.
    */
    method OnAgentPin(want: BuildId, qualified: bool, busy: bool, confirmAllowed: bool, downloaded: Option<BuildId>,
        choices: StageChoices, mark: WriteOutcome, restore: RestoreChoices)
      returns (restarting: bool)
      requires In(Serving)
      modifies this
      ensures Reached(old(m), m) && In(if restarting then Awaiting else Serving)
      ensures restarting <==> !busy && mark.Written? && Upgrades(old(dir), old(image), want, qualified, downloaded, choices)
      ensures restarting ==>
        && Live in dir && dir[Live] == Build(want)
        && Recorded(dir).Some? && dir[Marker].boots == 0
        && Rollback(dir[Marker].stamp) in dir && dir[Rollback(dir[Marker].stamp)] == old(dir)[Live]
      ensures !restarting && Live in old(dir) && choices.backAllowed && restore.backAllowed ==>
        Live in dir && (dir[Live] == old(dir)[Live] || dir[Live] == Build(want))
      ensures !restarting && Live in old(dir) && choices.backAllowed && restore.moveAllowed && restore.putAllowed ==>
        old(image) != FailedCopy(restore.nano) ==> Live in dir && dir[Live] == old(dir)[Live]
    {
      ghost var m0 := m;
      ConfirmUpgradeHealthy(confirmAllowed);
      if busy || Live !in dir {
        TakeIdle(m0, m);
        m := At(m, Serving);
        return false;
      }
      ghost var confirmed := m;
      restarting := SwapAndRecord(want, qualified, downloaded, choices, mark, restore);
      ReachedOn(m0, confirmed, m);
    }
  }
}
