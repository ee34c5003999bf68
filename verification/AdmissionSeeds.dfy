/** The limit of one initial seed over all sites: which steps add a seed, and when the limit holds. */
module AdmissionSeeds {
  import opened Options
  import opened Bandwidth
  import opened Admission
  import opened AdmissionRuns
  import opened Sets

  // ---- which steps add a seed ----

  /** An insert of a seed whose keys are free, or a renewal that brings back a seed that was not live. */
  predicate SeedJoins(s: State, e: Event) {
    match e
    case InsertPlanned(l, id) => l.wanClass == InitialSeed && KeysFree(s.leases, l) && Live(l, s.now)
    case RenewHeld(id) =>
      id in s.leases && s.leases[id].wanClass == InitialSeed && Renewable(s.leases, id) && !Live(s.leases[id], s.now)
    case _ => false
  }

  function Joining(e: Event): LeaseId
    requires e.InsertPlanned? || e.RenewHeld?
  {
    e.id
  }

  lemma JoinAdds(s: State, e: Event)
    requires Enabled(s, e) && SeedJoins(s, e)
    ensures
      var after := Apply(s, e);
      Joining(e) !in ActiveSeeds(s.leases, s.now) && ActiveSeeds(after.leases, after.now) == ActiveSeeds(s.leases, s.now) + {Joining(e)}
  {
  }

  lemma OthersDoNotAdd(s: State, e: Event)
    requires Enabled(s, e) && !SeedJoins(s, e)
    ensures ActiveSeeds(Apply(s, e).leases, Apply(s, e).now) <= ActiveSeeds(s.leases, s.now)
  {
  }

  ghost function Seeds(s: State): nat {
    |ActiveSeeds(s.leases, s.now)|
  }

  /** A step raises the number of active seeds exactly when a seed joins. */
  lemma SeedsRiseExactly(s: State, e: Event)
    requires Enabled(s, e)
    ensures Seeds(Apply(s, e)) > Seeds(s) <==> SeedJoins(s, e)
    ensures Seeds(Apply(s, e)) <= Seeds(s) + 1
  {
    if SeedJoins(s, e) {
      JoinAdds(s, e);
    } else {
      OthersDoNotAdd(s, e);
      SubsetSize(ActiveSeeds(Apply(s, e).leases, Apply(s, e).now), ActiveSeeds(s.leases, s.now));
    }
  }

  // ---- when the limit holds ----

  ghost predicate OneSeedThroughout(s: State, run: seq<Event>)
    requires ValidRun(s, run)
    decreases |run|
  {
    Seeds(s) <= 1 && (run != [] ==> OneSeedThroughout(Apply(s, run[0]), run[1..]))
  }

  /** Every seed joins while no other is active. */
  ghost predicate SeedsJoinAlone(s: State, run: seq<Event>)
    requires ValidRun(s, run)
    decreases |run|
  {
    run != [] ==> (SeedJoins(s, run[0]) ==> Seeds(s) == 0) && SeedsJoinAlone(Apply(s, run[0]), run[1..])
  }

  /** At most one seed is active throughout a run exactly if every seed, new or revived, joins while none is active. */
  lemma {:induction false} OneSeedExactly(s: State, run: seq<Event>)
    requires Seeds(s) <= 1 && ValidRun(s, run)
    ensures OneSeedThroughout(s, run) <==> SeedsJoinAlone(s, run)
    decreases |run|
  {
    if run != [] {
      SeedsRiseExactly(s, run[0]);
      if Seeds(Apply(s, run[0])) <= 1 {
        OneSeedExactly(Apply(s, run[0]), run[1..]);
      }
    }
  }

  // ---- two ways to two seeds ----

  const SITE := Site(Some(100.0), 20, 1, 0, false, false, None, None, 0)
  const AT_A := Request("pc1", "a", "t1", Some(InitialSeed), false)
  const AT_B := Request("pc2", "b", "t2", Some(InitialSeed), false)
  const SHARE := 2197

  const EMPTY := State(0, map[], map[], {}, map[])
  /** Two sites, measured and open, neither allowed seeds of its own. */
  const TWO_SITES := State(0, map[], map["a" := SITE, "b" := SITE], {}, map["a" := 1, "b" := 1])

  function SeedLease(req: Request, now: int): Lease {
    NewLease(req, InitialSeed, 1, now, SHARE, RESTORE_DOWNLOAD_MULTIPLIER * SHARE)
  }

  lemma SiteIsMeasured()
    ensures CompileForSite(SITE, 1) == Some(Compiled(20_000_000, 2_500_000, SHARE))
  {
    assert 100.0 * 1000000.0 * 20.0 / 100.0 == 20_000_000.0;
    assert (20_000_000.0 / 8.0 / 1024.0 * AGENT_SAFETY_MARGIN / 1.0).Floor == SHARE;
  }

  /** The seed gate looks at the leases there are, so it lets a seed through while another is still being inserted. */
  lemma SeedIsPlanned(leases: Leases, sites: map<string, Site>, req: Request, now: int)
    requires req.site in sites && sites[req.site] == SITE && req.wanClass == Some(InitialSeed) && !req.overdue
    requires ActiveSeeds(leases, now) == {} && ActiveLeases(leases, req.site, now) == {}
    requires forall id :: id in leases ==> leases[id].attempt != req.attempt
    ensures PlanAcquire(leases, sites, req, now) == Insert(SeedLease(req, now))
  {
    SiteIsMeasured();
    assert SlotsOf(leases, {}) == {};
    assert FirstFree({}, 1, 1) == Some(1);
  }

  lemma PlansSeed(s: State, req: Request)
    requires req.site in s.sites && s.sites[req.site] == SITE && req.wanClass == Some(InitialSeed) && !req.overdue
    requires ActiveSeeds(s.leases, s.now) == {} && ActiveLeases(s.leases, req.site, s.now) == {}
    requires forall id :: id in s.leases ==> s.leases[id].attempt != req.attempt
    ensures Apply(s, PlanRequest(req)) == s.(plans := s.plans + {SeedLease(req, s.now)})
  {
    SeedIsPlanned(s.leases, s.sites, req, s.now);
  }

  lemma InsertsSeed(s: State, l: Lease, id: LeaseId)
    requires l in s.plans && id !in s.leases && KeysFree(s.leases, l)
    ensures Enabled(s, InsertPlanned(l, id)) && Apply(s, InsertPlanned(l, id)) == s.(leases := s.leases[id := l], plans := s.plans - {l})
  {
  }

  lemma OpensTwoSites(rest: seq<Event>, s': State)
    requires Leads(TWO_SITES, rest, s')
    ensures Init(EMPTY) && Leads(EMPTY, [SetSite("a", SITE)] + ([SetSite("b", SITE)] + rest), s')
  {
    var one := Apply(EMPTY, SetSite("a", SITE));
    assert Apply(one, SetSite("b", SITE)) == TWO_SITES;
    LeadsFirst(one, SetSite("b", SITE), rest, s');
    LeadsFirst(EMPTY, SetSite("a", SITE), [SetSite("b", SITE)] + rest, s');
  }

  // ---- two seeds that race ----

  const SEED_A := SeedLease(AT_A, 0)
  const SEED_B := SeedLease(AT_B, 0)
  const BOTH := TWO_SITES.(leases := map["1" := SEED_A, "2" := SEED_B])

  lemma BothInsert()
    ensures Leads(TWO_SITES.(plans := {SEED_A, SEED_B}), [InsertPlanned(SEED_A, "1")] + ([InsertPlanned(SEED_B, "2")] + []), BOTH)
  {
    var planned := TWO_SITES.(plans := {SEED_A, SEED_B});
    var first := TWO_SITES.(plans := {SEED_B}, leases := map["1" := SEED_A]);
    InsertsSeed(planned, SEED_A, "1");
    assert {SEED_A, SEED_B} - {SEED_A} == {SEED_B};
    InsertsSeed(first, SEED_B, "2");
    assert {SEED_B} - {SEED_B} == {};
    assert first.leases["2" := SEED_B] == BOTH.leases;
    assert Leads(BOTH, [], BOTH);
    LeadsFirst(first, InsertPlanned(SEED_B, "2"), [], BOTH);
    LeadsFirst(planned, InsertPlanned(SEED_A, "1"), [InsertPlanned(SEED_B, "2")] + [], BOTH);
  }

  lemma BothPlan(rest: seq<Event>, s': State)
    requires Leads(TWO_SITES.(plans := {SEED_A, SEED_B}), rest, s')
    ensures Leads(TWO_SITES, [PlanRequest(AT_A)] + ([PlanRequest(AT_B)] + rest), s')
  {
    var one := TWO_SITES.(plans := {SEED_A});
    PlansSeed(TWO_SITES, AT_A);
    assert TWO_SITES.plans + {SEED_A} == {SEED_A};
    PlansSeed(one, AT_B);
    assert {SEED_A} + {SEED_B} == {SEED_A, SEED_B};
    LeadsFirst(one, PlanRequest(AT_B), rest, s');
    LeadsFirst(TWO_SITES, PlanRequest(AT_A), [PlanRequest(AT_B)] + rest, s');
  }

  /** Two fresh requests at two sites both pass the gate before either lease is there. */
  lemma RacingSeedsBothEnter()
    ensures exists run: seq<Event>, s' ::
      Init(EMPTY) && Leads(EMPTY, run, s') && Seeds(s') == 2 && forall e: Event :: e in run ==> !e.RenewHeld?
  {
    BothInsert();
    var inserts := [InsertPlanned(SEED_A, "1")] + ([InsertPlanned(SEED_B, "2")] + []);
    BothPlan(inserts, BOTH);
    var rest := [PlanRequest(AT_A)] + ([PlanRequest(AT_B)] + inserts);
    OpensTwoSites(rest, BOTH);
    assert ActiveSeeds(BOTH.leases, 0) == {"1", "2"};
  }

  // ---- a seed that comes back ----

  const LAPSED := ReleaseRow(SEED_A, "1", "expired", LEASE_TTL)
  const BACK := Retake(LAPSED).(expiresAt := 2 * LEASE_TTL)
  const NEXT_B := SeedLease(AT_B, LEASE_TTL)
  const REAPED := TWO_SITES.(now := LEASE_TTL, leases := map["1" := LAPSED])
  const REVIVED := TWO_SITES.(now := LEASE_TTL, leases := map["1" := BACK, "2" := NEXT_B])

  lemma NextJoins()
    ensures Leads(REAPED, [PlanRequest(AT_B)] + ([InsertPlanned(NEXT_B, "2")] + ([RenewHeld("1")] + [])), REVIVED)
  {
    var planned := REAPED.(plans := {NEXT_B});
    var second := REAPED.(leases := map["1" := LAPSED, "2" := NEXT_B]);
    PlansSeed(REAPED, AT_B);
    assert REAPED.plans + {NEXT_B} == {NEXT_B};
    InsertsSeed(planned, NEXT_B, "2");
    assert {NEXT_B} - {NEXT_B} == {} && planned.leases["2" := NEXT_B] == second.leases;
    assert RetakeAllowed(second.leases, "1");
    assert second.leases["1" := BACK] == REVIVED.leases;
    assert Leads(REVIVED, [], REVIVED);
    LeadsFirst(second, RenewHeld("1"), [], REVIVED);
    LeadsFirst(planned, InsertPlanned(NEXT_B, "2"), [RenewHeld("1")] + [], REVIVED);
    LeadsFirst(REAPED, PlanRequest(AT_B), [InsertPlanned(NEXT_B, "2")] + ([RenewHeld("1")] + []), REVIVED);
  }

  lemma FirstLapses(rest: seq<Event>, s': State)
    requires Leads(REAPED, rest, s')
    ensures Leads(TWO_SITES, [PlanRequest(AT_A)] + ([InsertPlanned(SEED_A, "1")] + ([Tick(LEASE_TTL)] + ([ReapExpired] + rest))), s')
  {
    var planned := TWO_SITES.(plans := {SEED_A});
    var entered := TWO_SITES.(leases := map["1" := SEED_A]);
    var later := entered.(now := LEASE_TTL);
    PlansSeed(TWO_SITES, AT_A);
    assert TWO_SITES.plans + {SEED_A} == {SEED_A};
    InsertsSeed(planned, SEED_A, "1");
    assert {SEED_A} - {SEED_A} == {} && planned.leases["1" := SEED_A] == entered.leases;
    assert Reap(later.leases, LEASE_TTL) == REAPED.leases;
    LeadsFirst(later, ReapExpired, rest, s');
    LeadsFirst(entered, Tick(LEASE_TTL), [ReapExpired] + rest, s');
    LeadsFirst(planned, InsertPlanned(SEED_A, "1"), [Tick(LEASE_TTL)] + ([ReapExpired] + rest), s');
    LeadsFirst(TWO_SITES, PlanRequest(AT_A), [InsertPlanned(SEED_A, "1")] + ([Tick(LEASE_TTL)] + ([ReapExpired] + rest)), s');
  }

  /** A seed that ran out, a new one at another site, and the first one's renewal. */
  lemma RevivedSeedJoins()
    ensures exists run: seq<Event>, s' :: Init(EMPTY) && Leads(EMPTY, run, s') && Seeds(s') == 2
  {
    NextJoins();
    var next := [PlanRequest(AT_B)] + ([InsertPlanned(NEXT_B, "2")] + ([RenewHeld("1")] + []));
    FirstLapses(next, REVIVED);
    var rest := [PlanRequest(AT_A)] + ([InsertPlanned(SEED_A, "1")] + ([Tick(LEASE_TTL)] + ([ReapExpired] + next)));
    OpensTwoSites(rest, REVIVED);
    assert ActiveSeeds(REVIVED.leases, LEASE_TTL) == {"1", "2"};
  }
}
