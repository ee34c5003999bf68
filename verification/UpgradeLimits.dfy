/** How far the clock may go back across an upgrade: exactly not behind as many copies as pruning keeps. */
module UpgradeLimits {
  import opened Options
  import opened Sets
  import opened Upgrade
  import opened Upgrader

  // ---- without a heartbeat there is no further swap ----

  predicate NoHeartbeat(run: seq<Event>) {
    forall e :: e in run ==> !e.Heartbeat?
  }

  /** Not between a heartbeat and the swap it may lead to. */
  predicate Calm(m: Machine) {
    m.proc.Up? ==> var phase := m.proc.phase; !(phase.Confirmed? || phase.Downloaded? || phase.Checking? || phase.MovingAside?)
  }

  lemma StaysCalm(m: Machine, e: Event)
    requires Calm(m) && Enabled(m, e) && !e.Heartbeat?
    ensures Calm(Apply(m, e)) && ClockForward(m, e)
  {
  }

  lemma {:induction false} CalmIsForward(m: Machine, run: seq<Event>)
    requires Calm(m) && ValidRun(m, run) && NoHeartbeat(run)
    ensures ForwardRun(m, run)
    decreases |run|
  {
    if run != [] {
      assert run[0] in run;
      StaysCalm(m, run[0]);
      CalmIsForward(Apply(m, run[0]), run[1..]);
    }
  }

  // ---- a copy behind two newer ones ----

  /** A swap just made, its marker not written, the previous build nowhere but in its rollback copy. */
  ghost predicate JustSwapped(m: Machine, sw: Swap) {
    && m.proc.Up? && m.proc.phase == Marking(sw.stamp) && m.pending == Some(sw) && m.armed == None
    && TrustOk(m) && Live in m.dir && Marker !in m.dir
    && Rollback(sw.stamp) in m.dir && m.dir[Rollback(sw.stamp)] == Build(sw.previous)
    && (forall name :: name in m.dir && Executable(name) && m.dir[name] == Build(sw.previous) ==> name == Rollback(sw.stamp))
  }

  /** The process dies before the marker is written; the new build starts, and prunes. */
  function LosingRun(stamp: nat): seq<Event> {
    [Crash, Boot, GuardRead(true), PruneList(true, true), PruneRemove(Rollback(stamp), true)]
  }

  function Lost(m: Machine, stamp: nat): Machine {
    var doomed := Doomed(m.dir, None);
    m.(dir := m.dir - {Rollback(stamp)}, proc := Up(Live, Pruning(doomed - {Rollback(stamp)})), passes := m.passes + 1)
  }

  lemma PruningLoses(m: Machine, stamp: nat)
    requires m.proc == Up(Live, PruneReady) && Marker !in m.dir && Rollback(stamp) in m.dir && |NewerRollbacks(m.dir, stamp)| >= KEEP
    ensures Leads(m, [PruneList(true, true)] + ([PruneRemove(Rollback(stamp), true)] + []), Lost(m, stamp).(passes := m.passes))
  {
    var lost := Lost(m, stamp).(passes := m.passes);
    var listed := Upgrade.At(m, Pruning(Doomed(m.dir, None)));
    assert Rollback(stamp) in Doomed(m.dir, None);
    assert Leads(lost, [], lost);
    LeadsFirst(listed, PruneRemove(Rollback(stamp), true), [], lost);
    LeadsFirst(m, PruneList(true, true), [PruneRemove(Rollback(stamp), true)] + [], lost);
  }

  lemma GuardedLoses(m: Machine, stamp: nat)
    requires m.proc == Up(Live, Guarding) && Marker !in m.dir && Rollback(stamp) in m.dir && |NewerRollbacks(m.dir, stamp)| >= KEEP
    ensures Leads(m, [GuardRead(true)] + ([PruneList(true, true)] + ([PruneRemove(Rollback(stamp), true)] + [])), Lost(m, stamp))
  {
    PruningLoses(m.(proc := Up(Live, PruneReady), passes := m.passes + 1), stamp);
    LeadsFirst(m, GuardRead(true), [PruneList(true, true)] + ([PruneRemove(Rollback(stamp), true)] + []), Lost(m, stamp));
  }

  lemma StartLoses(m: Machine, sw: Swap)
    requires JustSwapped(m, sw) && |NewerRollbacks(m.dir, sw.stamp)| >= KEEP
    ensures Leads(m, LosingRun(sw.stamp), Lost(m, sw.stamp))
  {
    var pruning := [PruneList(true, true)] + ([PruneRemove(Rollback(sw.stamp), true)] + []);
    GuardedLoses(m.(proc := Up(Live, Guarding)), sw.stamp);
    assert Lost(m.(proc := Up(Live, Guarding)), sw.stamp) == Lost(m, sw.stamp);
    var down := m.(proc := Down);
    LeadsFirst(down, Boot, [GuardRead(true)] + pruning, Lost(m, sw.stamp));
    LeadsFirst(m, Crash, [Boot] + ([GuardRead(true)] + pruning), Lost(m, sw.stamp));
    assert [Crash] + ([Boot] + ([GuardRead(true)] + pruning)) == LosingRun(sw.stamp);
  }

  lemma NotOnDisk(m: Machine, sw: Swap)
    requires JustSwapped(m, sw)
    ensures !OnDisk(Lost(m, sw.stamp).dir, sw.previous)
  {
  }

  /** The previous build survives every run up to the next heartbeat exactly when fewer copies are newer than pruning keeps. */
  lemma SurvivesExactly(m: Machine, sw: Swap)
    requires JustSwapped(m, sw)
    ensures
      |NewerRollbacks(m.dir, sw.stamp)| < KEEP <==>
        forall run :: ValidRun(m, run) && NoHeartbeat(run) && Run(m, run).pending == Some(sw) ==> OnDisk(Run(m, run).dir, sw.previous)
  {
    if |NewerRollbacks(m.dir, sw.stamp)| < KEEP {
      assert Inv(m);
      forall run | ValidRun(m, run) && NoHeartbeat(run) && Run(m, run).pending == Some(sw) ensures OnDisk(Run(m, run).dir, sw.previous) {
        CalmIsForward(m, run);
        RunKeepsInv(m, run);
        PendingIsOnDisk(Run(m, run));
      }
    } else {
      var run := LosingRun(sw.stamp);
      StartLoses(m, sw);
      NotOnDisk(m, sw);
      assert ValidRun(m, run) && NoHeartbeat(run) && Run(m, run).pending == Some(sw);
    }
  }

  // ---- reaching it from a fresh installation ----

  /** Started, past the guard with no marker, and nothing to prune. */
  lemma Starts(m: Machine)
    requires m.proc == Down && Marker !in m.dir && Live in m.dir && m.dir[Live].Build? && Doomed(m.dir, None) == {}
    ensures Reached(m, m.(proc := Up(Live, Serving), passes := m.passes + 1))
  {
    Stay(m);
    Take(m, m, Boot);
    var booted := m.(proc := Up(Live, Guarding));
    TakeGuardRead(m, booted, true);
    var ready := CheckedMarker(booted, true);
    TakePruneList(m, ready, true, true);
    TakePruneDone(m, Upgrade.At(ready, Pruning({})));
  }

  /** A heartbeat, a download, and a swap up to the writing of its marker. */
  function Swapped(m: Machine, build: BuildId, stamp: nat): Machine
    requires Live in m.dir && m.dir[Live].Build?
  {
    m.(dir := Renamed(m.dir, Live, Rollback(stamp))[Live := Build(build)], proc := Up(Rollback(stamp), Marking(stamp)),
       trusted := m.trusted + {build}, pending := Some(Swap(m.dir[Live].id, stamp)), armed := None)
  }

  /** The new build is staged and has passed its self-check. */
  function Staged(m: Machine, build: BuildId): Machine
    requires m.proc == Up(Live, Serving)
  {
    var beaten := Beaten(m, false, Confirmed);
    Upgrade.At(StagedFile(Upgrade.At(beaten, Downloaded(build)), build, Written), MovingAside(build)).(trusted := m.trusted + {build})
  }

  lemma Stages(m: Machine, build: BuildId)
    requires m.proc == Up(Live, Serving) && Live in m.dir && m.dir[Live].Build?
    ensures Reached(m, Staged(m, build))
  {
    Stay(m);
    TakeHeartbeat(m, m, false);
    var beaten := Beaten(m, false, Confirmed);
    TakeDownload(m, beaten, build);
    TakeWriteStaging(m, Upgrade.At(beaten, Downloaded(build)), build, Written);
    TakeSelfCheck(m, StagedFile(Upgrade.At(beaten, Downloaded(build)), build, Written), build, true);
  }

  lemma Swaps(m: Machine, build: BuildId, stamp: nat)
    requires m.proc == Up(Live, Serving) && Live in m.dir && m.dir[Live].Build? && Staging !in m.dir && Rollback(stamp) !in m.dir
    ensures Reached(m, Swapped(m, build, stamp))
  {
    Stages(m, build);
    var checked := Staged(m, build);
    TakeMoveAside(m, checked, build, stamp, true);
    var aside := MovedAside(checked, build, stamp, true);
    TakeInstall(m, aside, build, stamp, true);
    assert AfterRename(aside, Staging, Live, Marking(stamp)) == Swapped(m, build, stamp);
  }

  /** One start, one swap, and a death before the marker. */
  function Cycled(m: Machine, build: BuildId, stamp: nat): Machine
    requires Live in m.dir && m.dir[Live].Build?
  {
    Swapped(m.(passes := m.passes + 1), build, stamp).(proc := Down)
  }

  lemma StartsAndSwaps(m: Machine, build: BuildId, stamp: nat)
    requires m.proc == Down && Marker !in m.dir && Live in m.dir && m.dir[Live].Build? && Doomed(m.dir, None) == {}
    requires Staging !in m.dir && Rollback(stamp) !in m.dir
    ensures Reached(m, Swapped(m.(passes := m.passes + 1), build, stamp)) && Reached(m, Cycled(m, build, stamp))
  {
    var serving := m.(proc := Up(Live, Serving), passes := m.passes + 1);
    Starts(m);
    Swaps(serving, build, stamp);
    ReachedOn(m, serving, Swapped(serving, build, stamp));
    Take(m, Swapped(serving, build, stamp), Crash);
  }

  const FRESH := Machine(map[Live := Build("a")], Down, {"a"}, None, None, 0, 0)

  lemma NothingDoomed(d: Dir)
    requires (forall name :: name in d ==> name.Live? || name.Rollback?) && |d| <= 3 && Live in d
    ensures Doomed(d, None) == {}
  {
    forall name | name in d && name.Rollback? ensures |NewerRollbacks(d, name.stamp)| < KEEP {
      var newer := NewerRollbacks(d, name.stamp);
      SubsetSize(newer + {name, Live}, d.Keys);
      assert |newer + {name, Live}| == |newer| + 2;
    }
  }

  function OneSwap(): Machine { Cycled(FRESH, "b", 5) }
  function TwoSwaps(): Machine
    requires Live in OneSwap().dir && OneSwap().dir[Live].Build?
  {
    Cycled(OneSwap(), "c", 6)
  }

  lemma AfterOne()
    ensures Reached(FRESH, OneSwap()) && OneSwap().dir == map[Live := Build("b"), Rollback(5) := Build("a")] && OneSwap().proc == Down
  {
    NothingDoomed(FRESH.dir);
    StartsAndSwaps(FRESH, "b", 5);
  }

  lemma AfterTwo()
    ensures Reached(FRESH, TwoSwaps()) && TwoSwaps().proc == Down
    ensures TwoSwaps().dir == map[Live := Build("c"), Rollback(5) := Build("a"), Rollback(6) := Build("b")]
    ensures TwoSwaps().trusted == {"a", "b", "c"}
  {
    AfterOne();
    NothingDoomed(OneSwap().dir);
    StartsAndSwaps(OneSwap(), "c", 6);
    ReachedOn(FRESH, OneSwap(), TwoSwaps());
  }

  lemma ThirdDir(d: Dir)
    requires d == map[Live := Build("c"), Rollback(5) := Build("a"), Rollback(6) := Build("b")]
    ensures Renamed(d, Live, Rollback(3))[Live := Build("d")]
      == map[Live := Build("d"), Rollback(5) := Build("a"), Rollback(6) := Build("b"), Rollback(3) := Build("c")]
  {
  }

  lemma ThirdSwap(m: Machine)
    requires m.proc == Up(Rollback(3), Marking(3)) && m.pending == Some(Swap("c", 3)) && m.armed == None
    requires m.dir == map[Live := Build("d"), Rollback(5) := Build("a"), Rollback(6) := Build("b"), Rollback(3) := Build("c")]
    requires {"a", "b", "c", "d"} <= m.trusted
    ensures JustSwapped(m, Swap("c", 3)) && |NewerRollbacks(m.dir, 3)| >= KEEP
  {
    assert NewerRollbacks(m.dir, 3) == {Rollback(5), Rollback(6)};
  }

  lemma ThirdIsBehind(m: Machine)
    requires m.dir == map[Live := Build("c"), Rollback(5) := Build("a"), Rollback(6) := Build("b")] && m.trusted == {"a", "b", "c"}
    ensures JustSwapped(Swapped(m, "d", 3), Swap("c", 3)) && |NewerRollbacks(Swapped(m, "d", 3).dir, 3)| >= KEEP
  {
    ThirdDir(m.dir);
    ThirdSwap(Swapped(m, "d", 3));
  }

  /** Two swaps at 5 and 6, then one with the clock back at 3. */
  lemma ReachesClockBack()
    ensures exists m :: Reached(FRESH, m) && JustSwapped(m, Swap("c", 3)) && |NewerRollbacks(m.dir, 3)| >= KEEP
  {
    AfterTwo();
    var two := TwoSwaps();
    NothingDoomed(two.dir);
    StartsAndSwaps(two, "d", 3);
    var counted := two.(passes := two.passes + 1);
    ReachedOn(FRESH, two, Swapped(counted, "d", 3));
    ThirdIsBehind(counted);
  }

  lemma LosesFrom(m: Machine, sw: Swap)
    requires JustSwapped(m, sw) && |NewerRollbacks(m.dir, sw.stamp)| >= KEEP
    ensures exists m' :: Reached(m, m') && m'.pending == Some(sw) && !OnDisk(m'.dir, sw.previous)
  {
    StartLoses(m, sw);
    NotOnDisk(m, sw);
    assert Reached(m, Lost(m, sw.stamp));
  }

  /** From a fresh installation, a clock set back behind two copies can cost the previous build. */
  lemma ClockBackLosesPrevious()
    ensures Init(FRESH)
    ensures exists m, sw :: Reached(FRESH, m) && m.pending == Some(sw) && !OnDisk(m.dir, sw.previous)
  {
    ReachesClockBack();
    var sw := Swap("c", 3);
    var m :| Reached(FRESH, m) && JustSwapped(m, sw) && |NewerRollbacks(m.dir, 3)| >= KEEP;
    LosesFrom(m, sw);
    var lost :| Reached(m, lost) && lost.pending == Some(sw) && !OnDisk(lost.dir, sw.previous);
    ReachedOn(FRESH, m, lost);
  }

  // ---- a heartbeat while waiting to restart ----

  /** The first swap of a fresh installation, its marker written, the process waiting to restart. */
  lemma ReachesWaiting()
    ensures Reached(FRESH, MarkedSwap(Swapped(FRESH.(passes := FRESH.passes + 1), "b", 5), 5, Written))
  {
    NothingDoomed(FRESH.dir);
    StartsAndSwaps(FRESH, "b", 5);
    TakeWriteMarker(FRESH, Swapped(FRESH.(passes := FRESH.passes + 1), "b", 5), 5, Written);
  }

  /**
    From a fresh installation: the upgraded build is never heard of again, starts and dies any number of
    times, and is never rolled back, for a heartbeat of its predecessor had removed the marker.
  */
  lemma DisarmedCrashLoop(times: nat)
    ensures Init(FRESH)
    ensures exists m: Machine ::
      && Reached(FRESH, m) && m.passes == times && Live in m.dir && m.dir[Live] == Build("b")
      && Rollback(5) in m.dir && m.dir[Rollback(5)] == Build("a")
  {
    ReachesWaiting();
    var waiting := MarkedSwap(Swapped(FRESH.(passes := FRESH.passes + 1), "b", 5), 5, Written);
    WaitingHeartbeatDisarms(waiting, times);
    var m :| Leads(waiting, [Heartbeat(true), Crash] + CrashLoop(times), m)
      && m.passes == waiting.passes + times && m.dir == waiting.dir - {Marker};
    assert Reached(waiting, m);
    ReachedOn(FRESH, waiting, m);
  }
}
