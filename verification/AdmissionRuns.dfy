/**
  Every interleaving of admission requests over one lease table: reaping, planning, inserting,
  renewing (with revival), releasing and operator changes, with a clock that only moves forward.

  `acquire` is split where the code commits or reads again: it reaps, plans on what it then
  reads, and inserts later, possibly after other requests and clock movement.
*/
module AdmissionRuns {
  import opened Options
  import opened Bandwidth
  import opened Admission

  /** `limits` remembers the largest slot limit each site has had so far; the code does not keep it. */
  datatype State = State(
    now: int,
    leases: Leases,
    sites: map<string, Site>,
    plans: set<Lease>,
    limits: map<string, int>)

  datatype Event =
    | Tick(to: int)
    | SetSite(id: string, site: Site)
    | ReapExpired
    | PlanRequest(req: Request)
    | InsertPlanned(lease: Lease, id: LeaseId)
    | RenewHeld(id: LeaseId)
    | ReleaseHeld(id: LeaseId, reason: string)

  predicate Enabled(s: State, e: Event) {
    match e
    case Tick(to) => s.now <= to
    case SetSite(_, _) => true
    case ReapExpired => true
    case PlanRequest(_) => true
    case InsertPlanned(l, id) => l in s.plans && id !in s.leases
    case RenewHeld(id) => id in s.leases
    case ReleaseHeld(id, _) => id in s.leases
  }

  function Max(a: int, b: int): int {
    if a >= b then a else b
  }

  ghost function Apply(s: State, e: Event): State
    requires Enabled(s, e)
  {
    match e
    case Tick(to) => s.(now := to)
    case SetSite(id, site) =>
      var before := if id in s.limits then s.limits[id] else 0;
      s.(sites := s.sites[id := site], limits := s.limits[id := Max(before, SlotLimit(site))])
    case ReapExpired => s.(leases := Reap(s.leases, s.now))
    case PlanRequest(req) =>
      (match PlanAcquire(s.leases, s.sites, req, s.now)
       case Answer(_) => s
       case Extend(id) => s.(leases := Renew(s.leases, id, s.now))
       case Insert(l) => s.(plans := s.plans + {l}))
    case InsertPlanned(l, id) =>
      if KeysFree(s.leases, l) then s.(leases := s.leases[id := l], plans := s.plans - {l})
      else s.(plans := s.plans - {l})
    case RenewHeld(id) => s.(leases := Renew(s.leases, id, s.now))
    case ReleaseHeld(id, reason) => s.(leases := Release(s.leases, id, reason, s.now))
  }

  predicate Init(s: State) {
    s.leases == map[] && s.sites == map[] && s.plans == {} && s.limits == map[]
  }

  ghost predicate ValidRun(s: State, run: seq<Event>)
    decreases |run|
  {
    run == [] || (Enabled(s, run[0]) && ValidRun(Apply(s, run[0]), run[1..]))
  }

  ghost function Run(s: State, run: seq<Event>): State
    requires ValidRun(s, run)
    decreases |run|
  {
    if run == [] then s else Run(Apply(s, run[0]), run[1..])
  }

  ghost predicate Leads(s: State, run: seq<Event>, s': State) {
    ValidRun(s, run) && Run(s, run) == s'
  }

  lemma LeadsFirst(s: State, e: Event, rest: seq<Event>, s': State)
    requires Enabled(s, e) && Leads(Apply(s, e), rest, s')
    ensures Leads(s, [e] + rest, s')
  {
    var run := [e] + rest;
    assert run[0] == e && run[1..] == rest;
  }

  // ---- the invariant ----

  predicate InRange(s: State, l: Lease) {
    l.site in s.limits && 1 <= l.slot <= s.limits[l.site]
  }

  predicate PlanOk(s: State, l: Lease) {
    InRange(s, l) && Unreleased(l) && l.holdKey == Held(l.site, l.slot) && l.deviceKey == HeldBy(l.device)
  }

  ghost predicate RangesOk(s: State) {
    && (forall id :: id in s.leases ==> InRange(s, s.leases[id]))
    && (forall l :: l in s.plans ==> PlanOk(s, l))
    && (forall id :: id in s.limits ==> s.limits[id] >= 1)
    && (forall id :: id in s.sites ==> id in s.limits && SlotLimit(s.sites[id]) <= s.limits[id])
  }

  ghost predicate Inv(s: State) {
    TableOk(s.leases) && RangesOk(s)
  }

  lemma StepKeepsTable(s: State, e: Event)
    requires Inv(s) && Enabled(s, e)
    ensures TableOk(Apply(s, e).leases)
  {
    match e
    case Tick(_) =>
    case SetSite(_, _) =>
    case ReapExpired => ReapKeepsTable(s.leases, s.now);
    case PlanRequest(req) =>
      var plan := PlanAcquire(s.leases, s.sites, req, s.now);
      if plan.Extend? {
        RenewKeepsTable(s.leases, plan.id, s.now);
      }
    case InsertPlanned(l, id) =>
      assert PlanOk(s, l);
      if KeysFree(s.leases, l) {
        InsertKeepsTable(s.leases, id, l);
      }
    case RenewHeld(id) => RenewKeepsTable(s.leases, id, s.now);
    case ReleaseHeld(id, reason) => ReleaseKeepsTable(s.leases, id, reason, s.now);
  }

  /** Rows keep their site and slot. */
  predicate SamePlaces(before: Leases, after: Leases) {
    after.Keys == before.Keys && forall id :: id in before ==> after[id].site == before[id].site && after[id].slot == before[id].slot
  }

  lemma LeaseChangesKeepRanges(s: State, leases: Leases)
    requires RangesOk(s) && SamePlaces(s.leases, leases)
    ensures RangesOk(s.(leases := leases))
  {
    var s' := s.(leases := leases);
    forall id | id in leases ensures InRange(s', leases[id]) { assert InRange(s, s.leases[id]); }
    forall l | l in s'.plans ensures PlanOk(s', l) { assert PlanOk(s, l); }
  }

  lemma PlanKeepsRanges(s: State, req: Request)
    requires RangesOk(s)
    ensures RangesOk(Apply(s, PlanRequest(req)))
  {
    var plan := PlanAcquire(s.leases, s.sites, req, s.now);
    match plan
    case Answer(_) =>
    case Extend(id) => LeaseChangesKeepRanges(s, Renew(s.leases, id, s.now));
    case Insert(l) =>
      PlannedLease(s.leases, s.sites, req, s.now);
      var s' := s.(plans := s.plans + {l});
      assert forall id :: id in s.leases && InRange(s, s.leases[id]) ==> InRange(s', s.leases[id]);
      assert forall other :: other in s.plans && PlanOk(s, other) ==> PlanOk(s', other);
  }

  lemma SetSiteKeepsRanges(s: State, id: string, site: Site)
    requires RangesOk(s)
    ensures RangesOk(Apply(s, SetSite(id, site)))
  {
    var s' := Apply(s, SetSite(id, site));
    forall id | id in s'.leases ensures InRange(s', s'.leases[id]) { assert InRange(s, s.leases[id]); }
    forall l | l in s'.plans ensures PlanOk(s', l) { assert PlanOk(s, l); }
  }

  lemma InsertKeepsRanges(s: State, l: Lease, id: LeaseId)
    requires RangesOk(s) && Enabled(s, InsertPlanned(l, id))
    ensures RangesOk(Apply(s, InsertPlanned(l, id)))
  {
    var s' := Apply(s, InsertPlanned(l, id));
    assert PlanOk(s, l);
    forall id | id in s'.leases ensures InRange(s', s'.leases[id]) { assert id in s.leases ==> InRange(s, s.leases[id]); }
    forall l | l in s'.plans ensures PlanOk(s', l) { assert PlanOk(s, l); }
  }

  lemma StepKeepsRanges(s: State, e: Event)
    requires RangesOk(s) && Enabled(s, e)
    ensures RangesOk(Apply(s, e))
  {
    match e
    case Tick(to) =>
      var s' := s.(now := to);
      assert forall id :: id in s.leases && InRange(s, s.leases[id]) ==> InRange(s', s.leases[id]);
      assert forall l :: l in s.plans && PlanOk(s, l) ==> PlanOk(s', l);
    case SetSite(id, site) => SetSiteKeepsRanges(s, id, site);
    case ReapExpired => LeaseChangesKeepRanges(s, Reap(s.leases, s.now));
    case PlanRequest(req) => PlanKeepsRanges(s, req);
    case InsertPlanned(l, id) => InsertKeepsRanges(s, l, id);
    case RenewHeld(id) => LeaseChangesKeepRanges(s, Renew(s.leases, id, s.now));
    case ReleaseHeld(id, reason) => LeaseChangesKeepRanges(s, Release(s.leases, id, reason, s.now));
  }

  lemma StepKeepsInv(s: State, e: Event)
    requires Inv(s) && Enabled(s, e)
    ensures Inv(Apply(s, e))
  {
    StepKeepsTable(s, e);
    StepKeepsRanges(s, e);
  }

  lemma {:induction false} RunKeepsInv(s: State, run: seq<Event>)
    requires Inv(s) && ValidRun(s, run)
    ensures Inv(Run(s, run))
    decreases |run|
  {
    if run != [] {
      StepKeepsInv(s, run[0]);
      RunKeepsInv(Apply(s, run[0]), run[1..]);
    }
  }

  // ---- main results ----

  /** In every run, two unreleased leases share neither a device nor a slot of a site. */
  lemma LeasesAreAlone(s: State, run: seq<Event>, a: LeaseId, b: LeaseId)
    requires Init(s) && ValidRun(s, run) && a != b
    requires a in Run(s, run).leases && Unreleased(Run(s, run).leases[a])
    requires b in Run(s, run).leases && Unreleased(Run(s, run).leases[b])
    ensures
      var leases := Run(s, run).leases;
      leases[a].device != leases[b].device && (leases[a].site == leases[b].site ==> leases[a].slot != leases[b].slot)
  {
    RunKeepsInv(s, run);
    UnreleasedAreAlone(Run(s, run).leases, a, b);
  }

  /** A site's unreleased leases never outnumber its largest slot limit so far, though revival checks no capacity. */
  lemma CapacityHolds(s: State, run: seq<Event>, site: string)
    requires Init(s) && ValidRun(s, run)
    ensures
      var end := Run(s, run);
      |UnreleasedAt(end.leases, site)| <= (if site in end.limits then end.limits[site] else 0)
  {
    RunKeepsInv(s, run);
    var end := Run(s, run);
    var ids := UnreleasedAt(end.leases, site);
    forall a, b | a in ids && b in ids && a != b ensures end.leases[a].slot != end.leases[b].slot {
      UnreleasedAreAlone(end.leases, a, b);
    }
    DistinctSlots(end.leases, ids, if site in end.limits then end.limits[site] else 0);
  }

  /** `limits` is what its name says: it only grows, and covers the limit in force. */
  lemma {:induction false} LimitsOnlyGrow(s: State, run: seq<Event>, site: string)
    requires Inv(s) && ValidRun(s, run) && site in s.sites
    ensures
      var end := Run(s, run);
      && site in end.sites && site in end.limits
      && s.limits[site] <= end.limits[site] && SlotLimit(end.sites[site]) <= end.limits[site]
    decreases |run|
  {
    if run != [] {
      StepKeepsInv(s, run[0]);
      LimitsOnlyGrow(Apply(s, run[0]), run[1..], site);
    }
  }

  /** A released row whose reason is not expiry is never held again, and never changes. */
  lemma {:induction false} ReleasedStaysReleased(s: State, run: seq<Event>, id: LeaseId)
    requires ValidRun(s, run) && id in s.leases && !Unreleased(s.leases[id]) && s.leases[id].reason != "expired"
    ensures id in Run(s, run).leases && Run(s, run).leases[id] == s.leases[id]
    decreases |run|
  {
    if run != [] {
      ReleasedStaysReleased(Apply(s, run[0]), run[1..], id);
    }
  }

  /** The leases whose unique keys stand in the way of taking `id` back. */
  function Blockers(leases: Leases, id: LeaseId): set<LeaseId>
    requires id in leases
  {
    set other | other in leases && other != id
      && (leases[other].holdKey == Held(leases[id].site, leases[id].slot) || leases[other].deviceKey == HeldBy(leases[id].device))
  }

  lemma ReleaseUnblocks(s: State, id: LeaseId, other: LeaseId)
    requires TableOk(s.leases) && id in s.leases && !Unreleased(s.leases[id]) && other in Blockers(s.leases, id)
    ensures Enabled(s, ReleaseHeld(other, "complete"))
    ensures
      var s' := Apply(s, ReleaseHeld(other, "complete"));
      TableOk(s'.leases) && s'.leases[id] == s.leases[id] && id in s'.leases && Blockers(s'.leases, id) < Blockers(s.leases, id)
  {
    ReleaseKeepsTable(s.leases, other, "complete", s.now);
    assert KeysMatch(s.leases[other], other);
    assert other !in Blockers(Apply(s, ReleaseHeld(other, "complete")).leases, id);
  }

  /** A lease that is released as expired can be held again, once whoever took its place has gone. */
  lemma {:induction false} ExpiredCanReturn(s: State, id: LeaseId)
    requires TableOk(s.leases) && id in s.leases && !Unreleased(s.leases[id]) && s.leases[id].reason == "expired"
    ensures exists run, end :: Leads(s, run, end) && id in end.leases && Unreleased(end.leases[id])
    decreases Blockers(s.leases, id)
  {
    if other :| other in Blockers(s.leases, id) {
      ReleaseUnblocks(s, id, other);
      var s' := Apply(s, ReleaseHeld(other, "complete"));
      ExpiredCanReturn(s', id);
      var rest, end :| Leads(s', rest, end) && id in end.leases && Unreleased(end.leases[id]);
      LeadsFirst(s, ReleaseHeld(other, "complete"), rest, end);
    } else {
      assert forall other :: other in s.leases && other != id ==> other !in Blockers(s.leases, id);
      assert RetakeAllowed(s.leases, id);
      var end := Apply(s, RenewHeld(id));
      assert Leads(end, [], end);
      LeadsFirst(s, RenewHeld(id), [], end);
    }
  }

  ghost predicate NeverHeldAgain(s: State, id: LeaseId) {
    forall later, end :: Leads(s, later, end) ==> id in end.leases && !Unreleased(end.leases[id])
  }

  /**
    A release is final exactly if it does not leave the row as expired: the lease was held when the call
    came (and the reason given is not expiry), or it had been released for another reason. A lease
    reaped just before its owner gives it back can still be held again, by a renewal that comes late.
  */
  lemma ReleaseIsFinalExactly(s: State, id: LeaseId, reason: string)
    requires TableOk(s.leases) && id in s.leases
    ensures
      var released := Apply(s, ReleaseHeld(id, reason));
      (if Unreleased(s.leases[id]) then reason != "expired" else s.leases[id].reason != "expired") <==> NeverHeldAgain(released, id)
  {
    var released := Apply(s, ReleaseHeld(id, reason));
    ReleaseKeepsTable(s.leases, id, reason, s.now);
    if released.leases[id].reason == "expired" {
      ExpiredCanReturn(released, id);
      var later, end :| Leads(released, later, end) && id in end.leases && Unreleased(end.leases[id]);
    } else {
      forall later, end | Leads(released, later, end) ensures id in end.leases && !Unreleased(end.leases[id]) {
        ReleasedStaysReleased(released, later, id);
      }
    }
  }

  // ---- the upload budget ----

  /** Operators may change anything about the site but its measured rate and its budget percent. */
  predicate KeepsRate(run: seq<Event>, site: string, mbps: Option<real>, percent: int) {
    forall e :: e in run && e.SetSite? && e.id == site ==> e.site.measuredMbps == mbps && e.site.budgetPercent == percent
  }

  predicate RateOk(s: State, site: string, mbps: Option<real>, percent: int) {
    site in s.sites ==> s.sites[site].measuredMbps == mbps && s.sites[site].budgetPercent == percent
  }

  ghost predicate SharesOk(s: State, site: string, bps: int) {
    && (forall id :: id in s.leases && s.leases[id].site == site ==> s.leases[id].bandwidthKibps <= FairShare(bps, Max(1, s.leases[id].slot)))
    && (forall l :: l in s.plans && l.site == site ==> l.bandwidthKibps <= FairShare(bps, Max(1, l.slot)))
  }

  function BudgetOf(mbps: Option<real>, percent: int): Option<int> {
    if mbps.None? then None else SiteBudgetBps(mbps.value, if percent == 0 then 20 else percent)
  }

  lemma PlanKeepsShares(s: State, req: Request, site: string, mbps: Option<real>, percent: int, bps: int)
    requires RateOk(s, site, mbps, percent) && SharesOk(s, site, bps) && BudgetOf(mbps, percent) == Some(bps)
    ensures SharesOk(Apply(s, PlanRequest(req)), site, bps)
  {
    if PlanAcquire(s.leases, s.sites, req, s.now).Insert? {
      PlannedLease(s.leases, s.sites, req, s.now);
    }
  }

  lemma StepKeepsShares(s: State, e: Event, site: string, mbps: Option<real>, percent: int, bps: int)
    requires Enabled(s, e) && RateOk(s, site, mbps, percent) && SharesOk(s, site, bps) && BudgetOf(mbps, percent) == Some(bps)
    ensures SharesOk(Apply(s, e), site, bps)
  {
    if e.PlanRequest? { PlanKeepsShares(s, e.req, site, mbps, percent, bps); }
  }

  lemma {:induction false} RunKeepsShares(s: State, run: seq<Event>, site: string, mbps: Option<real>,
      percent: int, bps: int)
    requires ValidRun(s, run) && KeepsRate(run, site, mbps, percent) && BudgetOf(mbps, percent) == Some(bps)
    requires RateOk(s, site, mbps, percent) && SharesOk(s, site, bps)
    ensures SharesOk(Run(s, run), site, bps)
    decreases |run|
  {
    if run != [] {
      assert run[0] in run;
      StepKeepsShares(s, run[0], site, mbps, percent, bps);
      RunKeepsShares(Apply(s, run[0]), run[1..], site, mbps, percent, bps);
    }
  }

  ghost function SumBandwidth(leases: Leases, ids: set<LeaseId>): int
    requires ids <= leases.Keys
    decreases ids
  {
    if ids == {} then 0 else
      var id :| id in ids;
      leases[id].bandwidthKibps + SumBandwidth(leases, ids - {id})
  }

  lemma {:induction false} SumRemove(leases: Leases, ids: set<LeaseId>, x: LeaseId)
    requires ids <= leases.Keys && x in ids
    ensures SumBandwidth(leases, ids) == leases[x].bandwidthKibps + SumBandwidth(leases, ids - {x})
    decreases ids
  {
    var id :| id in ids && SumBandwidth(leases, ids) == leases[id].bandwidthKibps + SumBandwidth(leases, ids - {id});
    if id != x {
      SumRemove(leases, ids - {id}, x);
      SumRemove(leases, ids - {x}, id);
      assert ids - {id} - {x} == ids - {x} - {id};
    }
  }

  function ShareSum(bps: int, slots: int): int {
    if slots <= 0 then 0 else FairShare(bps, slots) + ShareSum(bps, slots - 1)
  }

  lemma {:induction false} SumBounded(leases: Leases, ids: set<LeaseId>, bps: int, slots: int)
    requires ids <= leases.Keys && bps >= 0 && slots >= 0
    requires forall id :: id in ids ==> 1 <= leases[id].slot <= slots && leases[id].bandwidthKibps <= FairShare(bps, leases[id].slot)
    requires forall a, b :: a in ids && b in ids && a != b ==> leases[a].slot != leases[b].slot
    ensures SumBandwidth(leases, ids) <= ShareSum(bps, slots)
    decreases slots
  {
    if id :| id in ids && leases[id].slot == slots {
      SumRemove(leases, ids, id);
      SumBounded(leases, ids - {id}, bps, slots - 1);
    } else if slots > 0 {
      SumBounded(leases, ids, bps, slots - 1);
      FairShareShrinks(bps, 1, slots);
    } else {
      assert ids == {};
    }
  }

  lemma BudgetIsNatural(mbps: Option<real>, percent: int)
    requires BudgetOf(mbps, percent).Some?
    ensures BudgetOf(mbps, percent).value >= 0
  {
  }

  /**
    While a site's rate and percent stay fixed: every lease's upload limit is at most the share its
    slot number alone would give, and all unreleased leases together stay under the sum of those
    shares, in every reachable state, after revivals too.
  */
  lemma UploadBudgetHolds(s: State, run: seq<Event>, site: string, mbps: Option<real>, percent: int, bps: int)
    requires Init(s) && ValidRun(s, run) && KeepsRate(run, site, mbps, percent) && BudgetOf(mbps, percent) == Some(bps)
    ensures
      var end := Run(s, run);
      && (forall id :: id in end.leases && end.leases[id].site == site ==>
            end.leases[id].slot >= 1 && end.leases[id].bandwidthKibps <= FairShare(bps, end.leases[id].slot))
      && SumBandwidth(end.leases, UnreleasedAt(end.leases, site)) <= ShareSum(bps, if site in end.limits then end.limits[site] else 0)
  {
    RunKeepsInv(s, run);
    RunKeepsShares(s, run, site, mbps, percent, bps);
    var end := Run(s, run);
    var ids := UnreleasedAt(end.leases, site);
    assert forall id :: id in end.leases ==> InRange(end, end.leases[id]);
    forall a, b | a in ids && b in ids && a != b ensures end.leases[a].slot != end.leases[b].slot {
      UnreleasedAreAlone(end.leases, a, b);
    }
    BudgetIsNatural(mbps, percent);
    SumBounded(end.leases, ids, bps, if site in end.limits then end.limits[site] else 0);
  }

  // ---- what a plan needs ----

  lemma PlansOnly(s: State, req: Request)
    requires Inv(s) && PlanAcquire(s.leases, s.sites, req, s.now).Insert?
    ensures Competes(s.leases, s.sites, req, s.now) && HasSlot(s.leases, s.sites[req.site], req, s.now)
    ensures Measured(s.sites[req.site], |HeldAt(s.leases, req.site, s.now)| + 1)
  {
    PlanSeesLiveOnly(s.leases, s.sites, req, s.now);
    ReapedHolds(s.leases, req, s.now);
    ReapedIsLive(s.leases, req, s.now);
  }

  lemma PlansThen(s: State, req: Request)
    requires Inv(s) && Competes(s.leases, s.sites, req, s.now) && HasSlot(s.leases, s.sites[req.site], req, s.now)
    requires Measured(s.sites[req.site], |HeldAt(s.leases, req.site, s.now)| + 1)
    ensures
      var plan := PlanAcquire(s.leases, s.sites, req, s.now);
      plan.Insert? && IsAdmitted(plan.lease, s.leases, s.sites[req.site], req, s.now)
  {
    PlanSeesLiveOnly(s.leases, s.sites, req, s.now);
    PlannedIsAdmitted(s.leases, s.sites, req, s.now);
  }

  /** A plan is made for a new attempt that competes at an open, measured site with a slot left, and is the lease it is to get. */
  lemma PlansExactly(s: State, req: Request)
    requires Inv(s)
    ensures
      var plan := PlanAcquire(s.leases, s.sites, req, s.now);
      (plan.Insert? <==>
        && Competes(s.leases, s.sites, req, s.now) && HasSlot(s.leases, s.sites[req.site], req, s.now)
        && Measured(s.sites[req.site], |HeldAt(s.leases, req.site, s.now)| + 1))
    ensures
      var plan := PlanAcquire(s.leases, s.sites, req, s.now);
      plan.Insert? ==>
        Apply(s, PlanRequest(req)) == s.(plans := s.plans + {plan.lease}) && IsAdmitted(plan.lease, s.leases, s.sites[req.site], req, s.now)
  {
    var plan := PlanAcquire(s.leases, s.sites, req, s.now);
    if plan.Insert? { PlansOnly(s, req); }
    if Competes(s.leases, s.sites, req, s.now) && HasSlot(s.leases, s.sites[req.site], req, s.now) {
      if Measured(s.sites[req.site], |HeldAt(s.leases, req.site, s.now)| + 1) { PlansThen(s, req); }
    }
  }

  /** What a request plans at a paused site is for another one. */
  lemma PausedPlansElsewhere(s: State, req: Request, site: string)
    requires site in s.sites && s.sites[site].paused && forall l :: l in s.plans ==> l.site != site
    ensures forall l :: l in Apply(s, PlanRequest(req)).plans ==> l.site != site
    ensures SamePlaces(s.leases, Apply(s, PlanRequest(req)).leases)
  {
    if PlanAcquire(s.leases, s.sites, req, s.now).Insert? { PlannedLease(s.leases, s.sites, req, s.now); }
  }

  lemma RowsKeepPlaces(s: State, e: Event)
    requires Enabled(s, e) && (e.ReapExpired? || e.RenewHeld? || e.ReleaseHeld?)
    ensures SamePlaces(s.leases, Apply(s, e).leases) && Apply(s, e).plans == s.plans
  {
  }

  ghost predicate PausedThroughout(s: State, run: seq<Event>, site: string)
    requires ValidRun(s, run)
    decreases |run|
  {
    && site in s.sites && s.sites[site].paused
    && (run != [] ==> PausedThroughout(Apply(s, run[0]), run[1..], site))
  }

  lemma PausedStep(s: State, e: Event, site: string)
    requires Enabled(s, e) && site in s.sites && s.sites[site].paused && forall l :: l in s.plans ==> l.site != site
    ensures forall l :: l in Apply(s, e).plans ==> l.site != site
    ensures forall id :: id in Apply(s, e).leases && Apply(s, e).leases[id].site == site ==> id in s.leases && s.leases[id].site == site
  {
    match e
    case PlanRequest(req) => PausedPlansElsewhere(s, req, site);
    case InsertPlanned(l, _) => assert l.site != site;
    case Tick(_) =>
    case SetSite(_, _) =>
    case _ => RowsKeepPlaces(s, e);
  }

  /** A site that is paused, with no request of it under way, gains no lease for as long as it stays paused. */
  lemma {:induction false} PausedSiteGainsNoLease(s: State, run: seq<Event>, site: string)
    requires Inv(s) && ValidRun(s, run) && PausedThroughout(s, run, site) && forall l :: l in s.plans ==> l.site != site
    ensures forall id :: id in Run(s, run).leases && Run(s, run).leases[id].site == site ==> id in s.leases && s.leases[id].site == site
    decreases |run|
  {
    if run != [] {
      StepKeepsInv(s, run[0]);
      PausedStep(s, run[0], site);
      PausedSiteGainsNoLease(Apply(s, run[0]), run[1..], site);
    }
  }
}
