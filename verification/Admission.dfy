/**
  WAN admission leases (server/app/admission.py).

  A lease sits on a numbered slot of its site and is held by one device. Two unique columns,
  the site hold key and the device hold key, are what keeps two leases apart. The first part
  gives every transaction as a function of the lease table; `AdmissionDesk` is the code.
*/
module Admission {
  import opened Options
  import opened Bandwidth

  type LeaseId = string

  const LEASE_TTL: int := 90
  const RESTORE_DOWNLOAD_MULTIPLIER: int := 4

  datatype WanClass = NormalBackup | InitialSeed | Restore | Canary | Maintenance

  /** `site:{id}:slot:{n}` while held, `released:{lease id}` afterwards. */
  datatype HoldKey = Held(site: string, slot: int) | Freed(lease: LeaseId)
  datatype DeviceKey = HeldBy(device: string) | FreedDevice(lease: LeaseId)

  datatype Site = Site(
    measuredMbps: Option<real>,
    budgetPercent: int,
    maxConcurrent: int,
    restoreLimitKibps: int,
    paused: bool,
    allowSeeds: bool,
    providerDownUntil: Option<int>,
    emergencyUntil: Option<int>,
    emergencyKibps: int)

  datatype Lease = Lease(
    site: string,
    device: string,
    attempt: string,
    wanClass: WanClass,
    slot: int,
    holdKey: HoldKey,
    deviceKey: DeviceKey,
    expiresAt: int,
    releasedAt: Option<int>,
    reason: string,
    bandwidthKibps: int,
    restoreKibps: int)

  type Leases = map<LeaseId, Lease>

  /** `wanClass` is None when the body names no known class; `overdue`: a normal backup of the site is overdue. */
  datatype Request = Request(device: string, site: string, attempt: string, wanClass: Option<WanClass>, overdue: bool)

  datatype Reply =
    | Granted(id: LeaseId)
    | Denied
    | Paused
    | ProviderUnavailable
    | SiteUnmeasured
    | Queued
    | CapacityWait
    | NotFound
    | Released(id: LeaseId)

  datatype Plan = Answer(reply: Reply) | Extend(id: LeaseId) | Insert(lease: Lease)

  // ---- reading ----

  predicate Unreleased(l: Lease) {
    l.releasedAt.None?
  }

  predicate Live(l: Lease, now: int) {
    Unreleased(l) && l.expiresAt > now
  }

  function ActiveLeases(leases: Leases, site: string, now: int): set<LeaseId> {
    set id | id in leases && leases[id].site == site && Live(leases[id], now)
  }

  function UnreleasedAt(leases: Leases, site: string): set<LeaseId> {
    set id | id in leases && leases[id].site == site && Unreleased(leases[id])
  }

  function ActiveSeeds(leases: Leases, now: int): set<LeaseId> {
    set id | id in leases && leases[id].wanClass == InitialSeed && Live(leases[id], now)
  }

  function SlotsOf(leases: Leases, ids: set<LeaseId>): set<int>
    requires ids <= leases.Keys
  {
    set id | id in ids :: leases[id].slot
  }

  /** A limit of zero counts as one. */
  function SlotLimit(site: Site): int {
    if site.maxConcurrent >= 1 then site.maxConcurrent else 1
  }

  /** A budget of zero means the default of 20 percent. */
  function CompileForSite(site: Site, jobs: int): Option<Compiled> {
    CompileSite(site.measuredMbps, if site.budgetPercent == 0 then 20 else site.budgetPercent, jobs)
  }

  function RestoreKibps(site: Site, share: int, now: int): int {
    if site.emergencyUntil.Some? && site.emergencyUntil.value > now && site.emergencyKibps > 0 then site.emergencyKibps
    else if site.restoreLimitKibps != 0 then site.restoreLimitKibps
    else RESTORE_DOWNLOAD_MULTIPLIER * share
  }

  /** The first slot of i..limit nobody uses, as the generator in `acquire` finds it. */
  function FirstFree(used: set<int>, i: int, limit: int): Option<int>
    decreases limit - i
  {
    if i > limit then None else if i !in used then Some(i) else FirstFree(used, i + 1, limit)
  }

  // ---- transactions ----

  function ReleaseRow(l: Lease, id: LeaseId, reason: string, now: int): Lease {
    l.(releasedAt := Some(now), reason := reason, holdKey := Freed(id), deviceKey := FreedDevice(id))
  }

  function ReapRow(l: Lease, id: LeaseId, now: int): Lease {
    if Unreleased(l) && l.expiresAt <= now then ReleaseRow(l, id, "expired", now) else l
  }

  function Reap(leases: Leases, now: int): Leases {
    map id | id in leases :: ReapRow(leases[id], id, now)
  }

  /** The table when the rows of `todo` are still to be looked at. */
  function ReapExcept(leases: Leases, todo: set<LeaseId>, now: int): Leases {
    map id | id in leases :: if id in todo then leases[id] else ReapRow(leases[id], id, now)
  }

  lemma ReapNothing(leases: Leases, now: int)
    ensures ReapExcept(leases, leases.Keys, now) == leases && Due(leases, now) - leases.Keys == {}
  {
  }

  lemma ReapedAll(leases: Leases, now: int)
    ensures ReapExcept(leases, {}, now) == Reap(leases, now) && Due(leases, now) - {} == Due(leases, now)
  {
  }

  lemma ReapOne(leases: Leases, todo: set<LeaseId>, id: LeaseId, now: int)
    requires id in todo && todo <= leases.Keys
    ensures ReapExcept(leases, todo, now)[id] == leases[id]
    ensures
      ReapExcept(leases, todo - {id}, now) ==
        if id in Due(leases, now) then ReapExcept(leases, todo, now)[id := ReleaseRow(leases[id], id, "expired", now)]
        else ReapExcept(leases, todo, now)
    ensures |Due(leases, now) - (todo - {id})| == |Due(leases, now) - todo| + (if id in Due(leases, now) then 1 else 0)
  {
    var due := Due(leases, now);
    if id in due {
      assert due - (todo - {id}) == (due - todo) + {id};
    } else {
      assert due - (todo - {id}) == due - todo;
    }
  }

  function Due(leases: Leases, now: int): set<LeaseId> {
    set id | id in leases && Unreleased(leases[id]) && leases[id].expiresAt <= now
  }

  function NewLease(req: Request, wanClass: WanClass, slot: int, now: int, share: int, restore: int): Lease {
    Lease(req.site, req.device, req.attempt, wanClass, slot, Held(req.site, slot), HeldBy(req.device),
          now + LEASE_TTL, None, "", share, restore)
  }

  predicate ProviderDown(site: Site, now: int) {
    site.providerDownUntil.Some? && site.providerDownUntil.value > now
  }

  ghost function PlanAcquire(leases: Leases, sites: map<string, Site>, req: Request, now: int): Plan {
    if req.site !in sites then Answer(Denied)
    else
      var site := sites[req.site];
      if site.paused then Answer(Paused)
      else if ProviderDown(site, now) then Answer(ProviderUnavailable)
      else if CompileForSite(site, 1).None? then Answer(SiteUnmeasured)
      else if exists id :: id in leases && leases[id].attempt == req.attempt then
        // attempt ids are unique, so at most one lease matches
        if exists id :: id in leases && leases[id].attempt == req.attempt && Live(leases[id], now) then
          var id :| id in leases && leases[id].attempt == req.attempt && Live(leases[id], now);
          Extend(id)
        else Answer(Denied)
      else if req.wanClass.None? then Answer(Denied)
      else if req.wanClass.value == InitialSeed && !site.allowSeeds && |ActiveSeeds(leases, now)| >= 1 then Answer(Queued)
      else if req.wanClass.value == InitialSeed && req.overdue then Answer(Queued)
      else PlanSlot(leases, site, req, now)
  }

  /** The capacity check, the slot search and the share of the budget. */
  function PlanSlot(leases: Leases, site: Site, req: Request, now: int): Plan
    requires req.wanClass.Some?
  {
    var active := ActiveLeases(leases, req.site, now);
    if |active| >= SlotLimit(site) then Answer(CapacityWait)
    else
      match FirstFree(SlotsOf(leases, active), 1, SlotLimit(site))
      case None => Answer(CapacityWait)
      case Some(slot) =>
        match CompileForSite(site, |active| + 1)
        case None => Answer(SiteUnmeasured)
        case Some(fair) =>
          Insert(NewLease(req, req.wanClass.value, slot, now, fair.agentKibps, RestoreKibps(site, fair.agentKibps, now)))
  }

  /** The three unique columns. */
  predicate KeysFree(leases: Leases, l: Lease) {
    forall id :: id in leases ==>
      leases[id].attempt != l.attempt && leases[id].holdKey != l.holdKey && leases[id].deviceKey != l.deviceKey
  }

  /** A lost race is still a grant if it was lost to a live lease of the same attempt. */
  ghost function RacedReply(leases: Leases, attempt: string, now: int): Reply {
    if exists id :: id in leases && leases[id].attempt == attempt && Live(leases[id], now) then
      var id :| id in leases && leases[id].attempt == attempt && Live(leases[id], now);
      Granted(id)
    else CapacityWait
  }

  ghost function AfterPlan(leases: Leases, plan: Plan, now: int, newId: LeaseId): (Leases, Reply)
    requires plan.Extend? ==> plan.id in leases
  {
    match plan
    case Answer(r) => (leases, r)
    case Extend(id) => (leases[id := leases[id].(expiresAt := now + LEASE_TTL)], Granted(id))
    case Insert(l) => if KeysFree(leases, l) then (leases[newId := l], Granted(newId)) else (leases, RacedReply(leases, l.attempt, now))
  }

  /** `acquire` as one undisturbed transaction at one instant. */
  ghost function AcquireNow(leases: Leases, sites: map<string, Site>, req: Request, now: int,
      newId: LeaseId): (Leases, Reply) {
    var reaped := Reap(leases, now);
    AfterPlan(reaped, PlanAcquire(reaped, sites, req, now), now, newId)
  }

  function Retake(l: Lease): Lease {
    l.(releasedAt := None, reason := "", holdKey := Held(l.site, l.slot), deviceKey := HeldBy(l.device))
  }

  /** The unique columns as they bear on row `id` of an updated table. */
  predicate RetakeAllowed(leases: Leases, id: LeaseId)
    requires id in leases
  {
    forall other :: other in leases && other != id ==>
      leases[other].holdKey != Held(leases[id].site, leases[id].slot) && leases[other].deviceKey != HeldBy(leases[id].device)
  }

  /** A renewal extends a held lease, and takes back one that only expired if nobody took its place. */
  predicate Renewable(leases: Leases, id: LeaseId)
    requires id in leases
  {
    Unreleased(leases[id]) || (leases[id].reason == "expired" && RetakeAllowed(leases, id))
  }

  function Renew(leases: Leases, id: LeaseId, now: int): Leases
    requires id in leases
  {
    if Renewable(leases, id) then
      var held := if Unreleased(leases[id]) then leases[id] else Retake(leases[id]);
      leases[id := held.(expiresAt := now + LEASE_TTL)]
    else leases
  }

  function Release(leases: Leases, id: LeaseId, reason: string, now: int): Leases
    requires id in leases
  {
    if Unreleased(leases[id])
    then leases[id := ReleaseRow(leases[id], id, if reason == "" then "released" else reason, now)]
    else leases
  }

  // ---- the invariant of the table ----

  /** Hold keys say exactly what a row holds, and no two rows share a unique column. */
  ghost predicate TableOk(leases: Leases) {
    && (forall id :: id in leases ==> KeysMatch(leases[id], id))
    && (forall a, b :: a in leases && b in leases && a != b ==> Apart(leases[a], leases[b]))
  }

  predicate KeysMatch(l: Lease, id: LeaseId) {
    if Unreleased(l) then l.holdKey == Held(l.site, l.slot) && l.deviceKey == HeldBy(l.device)
    else l.holdKey == Freed(id) && l.deviceKey == FreedDevice(id)
  }

  predicate Apart(a: Lease, b: Lease) {
    a.attempt != b.attempt && a.holdKey != b.holdKey && a.deviceKey != b.deviceKey
  }

  /** Two leases that are both unreleased share neither a slot of a site nor a device. */
  lemma UnreleasedAreAlone(leases: Leases, a: LeaseId, b: LeaseId)
    requires TableOk(leases) && a in leases && b in leases && a != b
    requires Unreleased(leases[a]) && Unreleased(leases[b])
    ensures leases[a].device != leases[b].device
    ensures leases[a].site == leases[b].site ==> leases[a].slot != leases[b].slot
  {
    assert KeysMatch(leases[a], a) && KeysMatch(leases[b], b) && Apart(leases[a], leases[b]);
  }

  lemma ReapKeepsTable(leases: Leases, now: int)
    requires TableOk(leases)
    ensures TableOk(Reap(leases, now))
  {
    var after := Reap(leases, now);
    forall a, b | a in after && b in after && a != b ensures Apart(after[a], after[b]) {
      assert KeysMatch(leases[a], a) && KeysMatch(leases[b], b) && Apart(leases[a], leases[b]);
    }
  }

  lemma InsertKeepsTable(leases: Leases, id: LeaseId, l: Lease)
    requires TableOk(leases) && id !in leases && KeysFree(leases, l) && Unreleased(l) && KeysMatch(l, id)
    ensures TableOk(leases[id := l])
  {
  }

  lemma RenewKeepsTable(leases: Leases, id: LeaseId, now: int)
    requires TableOk(leases) && id in leases
    ensures TableOk(Renew(leases, id, now))
  {
    var after := Renew(leases, id, now);
    forall a, b | a in after && b in after && a != b ensures Apart(after[a], after[b]) {
      assert KeysMatch(leases[a], a) && KeysMatch(leases[b], b) && Apart(leases[a], leases[b]);
    }
  }

  lemma ReleaseKeepsTable(leases: Leases, id: LeaseId, reason: string, now: int)
    requires TableOk(leases) && id in leases
    ensures TableOk(Release(leases, id, reason, now))
  {
    var after := Release(leases, id, reason, now);
    forall a, b | a in after && b in after && a != b ensures Apart(after[a], after[b]) {
      assert KeysMatch(leases[a], a) && KeysMatch(leases[b], b) && Apart(leases[a], leases[b]);
    }
  }

  // ---- counting slots ----

  /** Finitely many items on distinct slots of 1..limit number at most limit. */
  lemma {:induction false} DistinctSlots(leases: Leases, ids: set<LeaseId>, limit: int)
    requires ids <= leases.Keys && limit >= 0
    requires forall id :: id in ids ==> 1 <= leases[id].slot <= limit
    requires forall a, b :: a in ids && b in ids && a != b ==> leases[a].slot != leases[b].slot
    ensures |ids| <= limit
    decreases limit
  {
    if id :| id in ids && leases[id].slot == limit {
      DistinctSlots(leases, ids - {id}, limit - 1);
    } else if limit > 0 {
      DistinctSlots(leases, ids, limit - 1);
    } else {
      assert ids == {};
    }
  }

  lemma {:induction false} FirstFreeSpec(used: set<int>, i: int, limit: int)
    requires i <= limit + 1
    ensures FirstFree(used, i, limit).Some? ==>
      var slot := FirstFree(used, i, limit).value;
      i <= slot <= limit && slot !in used && forall k :: i <= k < slot ==> k in used
    ensures FirstFree(used, i, limit).None? ==> forall k :: i <= k <= limit ==> k in used
    decreases limit - i
  {
    if i <= limit && i in used {
      FirstFreeSpec(used, i + 1, limit);
    }
  }

  lemma {:induction false} IntervalSize(used: set<int>, lo: int, hi: int)
    requires lo <= hi && forall k :: lo <= k < hi ==> k in used
    ensures |used| >= hi - lo
    decreases hi - lo
  {
    if lo < hi {
      IntervalSize(used - {lo}, lo + 1, hi);
    }
  }

  lemma {:induction false} SlotsAreFewer(leases: Leases, ids: set<LeaseId>)
    requires ids <= leases.Keys
    ensures |SlotsOf(leases, ids)| <= |ids|
    decreases ids
  {
    if id :| id in ids {
      SlotsAreFewer(leases, ids - {id});
      assert SlotsOf(leases, ids) == SlotsOf(leases, ids - {id}) + {leases[id].slot};
    }
  }

  /** With fewer active leases than the limit a slot is always found, and the slot is at most one more than their number. */
  lemma SlotFound(leases: Leases, active: set<LeaseId>, limit: int)
    requires active <= leases.Keys && |active| < limit
    ensures
      var found := FirstFree(SlotsOf(leases, active), 1, limit);
      found.Some? && 1 <= found.value <= limit && found.value <= |active| + 1 && found.value !in SlotsOf(leases, active)
  {
    var used := SlotsOf(leases, active);
    SlotsAreFewer(leases, active);
    FirstFreeSpec(used, 1, limit);
    if FirstFree(used, 1, limit).None? {
      IntervalSize(used, 1, limit + 1);
    } else {
      IntervalSize(used, 1, FirstFree(used, 1, limit).value);
    }
  }

  /** A planned lease: in range, and its share is at most the share its slot number alone would give. */
  lemma PlannedLease(leases: Leases, sites: map<string, Site>, req: Request, now: int)
    requires PlanAcquire(leases, sites, req, now).Insert?
    ensures
      var l := PlanAcquire(leases, sites, req, now).lease;
      && l.site == req.site && l.site in sites && l.device == req.device && l.attempt == req.attempt
      && Unreleased(l) && l.holdKey == Held(l.site, l.slot) && l.deviceKey == HeldBy(l.device)
      && 1 <= l.slot <= SlotLimit(sites[l.site])
      && CompileForSite(sites[l.site], 1).Some?
      && l.bandwidthKibps <= FairShare(CompileForSite(sites[l.site], 1).value.bps, l.slot)
  {
    var site := sites[req.site];
    var active := ActiveLeases(leases, req.site, now);
    SlotFound(leases, active, SlotLimit(site));
    var l := PlanAcquire(leases, sites, req, now).lease;
    FairShareShrinks(CompileForSite(site, 1).value.bps, l.slot, |active| + 1);
  }

  /** Two rows the unique columns do not admit beside each other. */
  predicate Clash(a: Lease, b: Lease) {
    a.attempt == b.attempt || a.holdKey == b.holdKey || a.deviceKey == b.deviceKey
  }

  // ---- the code ----

  class AdmissionDesk {
    var leases: Leases
    var sites: map<string, Site>

    method ReapExpiredLeases(now: int) returns (count: nat)
      modifies this`leases
      ensures leases == Reap(old(leases), now)
      ensures count == |Due(old(leases), now)|
    {
      var todo := leases.Keys;
      ghost var before := leases;
      count := 0;
      ReapNothing(before, now);
      while todo != {}
        invariant todo <= before.Keys && leases == ReapExcept(before, todo, now)
        invariant count == |Due(before, now) - todo|
        decreases todo
      {
        var id :| id in todo;
        ReapOne(before, todo, id, now);
        var row := leases[id];
        if Unreleased(row) && row.expiresAt <= now {
          leases := leases[id := ReleaseRow(row, id, "expired", now)];
          count := count + 1;
        }
        todo := todo - {id};
      }
      ReapedAll(before, now);
    }

    method FindFreeSlot(used: set<int>, limit: int) returns (slot: Option<int>)
      requires limit >= 1
      ensures slot == FirstFree(used, 1, limit)
    {
      var i := 1;
      while i <= limit
        invariant 1 <= i <= limit + 1
        invariant FirstFree(used, 1, limit) == FirstFree(used, i, limit)
      {
        if i !in used {
          return Some(i);
        }
        i := i + 1;
      }
      return None;
    }

    /** What `acquire` does between its reaping and its INSERT. */
    method PlanAdmission(req: Request, now: int) returns (plan: Plan)
      requires TableOk(leases)
      ensures plan == PlanAcquire(leases, sites, req, now)
    {
      if req.site !in sites {
        return Answer(Denied);
      }
      var site := sites[req.site];
      if site.paused {
        return Answer(Paused);
      }
      if ProviderDown(site, now) {
        return Answer(ProviderUnavailable);
      }
      if CompileForSite(site, 1).None? {
        return Answer(SiteUnmeasured);
      }
      if exists id :: id in leases && leases[id].attempt == req.attempt {
        var existing :| existing in leases && leases[existing].attempt == req.attempt;
        assert forall id :: id in leases && id != existing ==> Apart(leases[id], leases[existing]);
        return if Live(leases[existing], now) then Extend(existing) else Answer(Denied);
      }
      if req.wanClass.None? {
        return Answer(Denied);
      }
      if req.wanClass.value == InitialSeed {
        if !site.allowSeeds && |ActiveSeeds(leases, now)| >= 1 {
          return Answer(Queued);
        }
        if req.overdue {
          return Answer(Queued);
        }
      }
      var active := ActiveLeases(leases, req.site, now);
      var limit := SlotLimit(site);
      if |active| >= limit {
        return Answer(CapacityWait);
      }
      var slot := FindFreeSlot(SlotsOf(leases, active), limit);
      SlotFound(leases, active, limit);
      var fair := CompileForSite(site, |active| + 1);
      if fair.None? {
        return Answer(SiteUnmeasured);
      }
      var share := fair.value.agentKibps;
      plan := Insert(NewLease(req, req.wanClass.value, slot.value, now, share, RestoreKibps(site, share, now)));
    }

    /** The INSERT checks all three unique columns and adds the row in one step. */
    method ExecutePlan(plan: Plan, now: int, newId: LeaseId) returns (reply: Reply)
      requires TableOk(leases) && (plan.Extend? ==> plan.id in leases)
      modifies this`leases
      ensures (leases, reply) == AfterPlan(old(leases), plan, now, newId)
      // a row with the attempt, the slot or the device of the new one keeps it out
      ensures plan.Insert? && (exists id :: id in old(leases) && Clash(old(leases)[id], plan.lease)) ==>
        && leases == old(leases)
        && (reply == CapacityWait || (reply.Granted? && HeldNow(leases, reply.id, now) && leases[reply.id].attempt == plan.lease.attempt))
      ensures plan.Insert? && !(exists id :: id in old(leases) && Clash(old(leases)[id], plan.lease)) ==>
        leases == old(leases)[newId := plan.lease] && reply == Granted(newId)
      ensures plan.Insert? && reply == CapacityWait ==>
        forall id :: HeldNow(leases, id, now) ==> leases[id].attempt != plan.lease.attempt
      ensures plan.Extend? ==> leases == old(leases)[plan.id := old(leases)[plan.id].(expiresAt := now + 90)] && reply == Granted(plan.id)
      ensures plan.Answer? ==> leases == old(leases) && reply == plan.reply
    {
      match plan
      case Answer(r) =>
        reply := r;
      case Extend(id) =>
        leases := leases[id := leases[id].(expiresAt := now + LEASE_TTL)];
        reply := Granted(id);
      case Insert(l) =>
        if exists id :: id in leases && (leases[id].attempt == l.attempt || leases[id].holdKey == l.holdKey || leases[id].deviceKey == l.deviceKey) {
          if raced :| raced in leases && leases[raced].attempt == l.attempt && Live(leases[raced], now) {
            assert forall id :: id in leases && id != raced ==> Apart(leases[id], leases[raced]);
            return Granted(raced);
          }
          return CapacityWait;
        }
        leases := leases[newId := l];
        reply := Granted(newId);
    }

    /** `acquire` with nobody else writing between its reaping and its INSERT. */
    method Acquire(req: Request, now: int, newId: LeaseId) returns (reply: Reply)
      requires TableOk(leases) && newId !in leases
      modifies this`leases
      ensures (leases, reply) == AcquireNow(old(leases), sites, req, now, newId)
      ensures TableOk(leases)
    {
      AcquireKeepsTable(leases, sites, req, now, newId);
      ReapKeepsTable(leases, now);
      var _ := ReapExpiredLeases(now);
      var plan := PlanAdmission(req, now);
      reply := ExecutePlan(plan, now, newId);
    }

    method RenewLease(device: string, id: LeaseId, now: int) returns (reply: Reply)
      requires TableOk(leases)
      modifies this`leases
      ensures TableOk(leases)
      ensures reply == NotFound <==> (id !in old(leases) || old(leases)[id].device != device)
      ensures reply == NotFound ==> leases == old(leases)
      ensures reply != NotFound ==>
        leases == Renew(old(leases), id, now) && reply == if Renewable(old(leases), id) then Granted(id) else Denied
      // denied exactly if it was given back for another reason than expiry, or somebody has its slot or its device
      ensures reply == Denied <==>
        && id in old(leases) && old(leases)[id].device == device && old(leases)[id].releasedAt.Some?
        && (old(leases)[id].reason != "expired"
            || exists other :: other in old(leases) && other != id && old(leases)[other].releasedAt.None?
                 && (old(leases)[other].device == device
                     || (old(leases)[other].site == old(leases)[id].site && old(leases)[other].slot == old(leases)[id].slot)))
      ensures reply == Denied ==> leases == old(leases)
      // otherwise it is held, for another 90 s, on its own slot and device
      ensures reply == Granted(id) <==> reply != NotFound && reply != Denied
      ensures reply == Granted(id) ==>
        var row := old(leases)[id];
        && id in leases && leases == old(leases)[id := leases[id]]
        && leases[id] == row.(expiresAt := now + 90, releasedAt := None, reason := leases[id].reason,
          holdKey := leases[id].holdKey, deviceKey := leases[id].deviceKey)
        && leases[id].holdKey == Held(row.site, row.slot) && leases[id].deviceKey == HeldBy(device)
    {
      if id !in leases || leases[id].device != device {
        return NotFound;
      }
      RenewKeepsTable(leases, id, now);
      var row := leases[id];
      if row.releasedAt.Some? {
        if row.reason != "expired" {
          return Denied;
        }
        // the retaken hold keys are flushed first; a conflict rolls the row back
        if exists other :: other in leases && other != id && (leases[other].holdKey == Held(row.site, row.slot) || leases[other].deviceKey == HeldBy(row.device)) {
          return Denied;
        }
        row := Retake(row);
      }
      leases := leases[id := row.(expiresAt := now + LEASE_TTL)];
      return Granted(id);
    }

    method ReleaseLease(device: string, id: LeaseId, reason: string, now: int) returns (reply: Reply)
      requires TableOk(leases)
      modifies this`leases
      ensures TableOk(leases)
      ensures reply == NotFound <==> (id !in old(leases) || old(leases)[id].device != device)
      ensures reply == NotFound ==> leases == old(leases)
      ensures reply != NotFound ==> reply == Released(id) && leases == Release(old(leases), id, reason, now) && !Unreleased(leases[id])
      ensures reply != NotFound && old(leases)[id].releasedAt.Some? ==> leases == old(leases)
      ensures reply != NotFound && old(leases)[id].releasedAt.None? ==>
        leases == old(leases)[id := old(leases)[id].(releasedAt := Some(now), reason := if reason == "" then "released" else reason,
          holdKey := Freed(id), deviceKey := FreedDevice(id))]
    {
      if id !in leases || leases[id].device != device {
        return NotFound;
      }
      ReleaseKeepsTable(leases, id, reason, now);
      if leases[id].releasedAt.None? {
        leases := leases[id := ReleaseRow(leases[id], id, if reason == "" then "released" else reason, now)];
      }
      return Released(id);
    }
  }

  // ---- admission at a single instant ----

  predicate Fresh(leases: Leases, req: Request) {
    forall id :: id in leases ==> leases[id].attempt != req.attempt
  }

  /** The site exists, is not paused, its provider circuit is closed, and both rate computations succeed. */
  predicate PassesGates(leases: Leases, sites: map<string, Site>, req: Request, now: int) {
    && req.site in sites
    && !sites[req.site].paused
    && !ProviderDown(sites[req.site], now)
    && CompileForSite(sites[req.site], 1).Some?
    && CompileForSite(sites[req.site], |ActiveLeases(leases, req.site, now)| + 1).Some?
  }

  predicate NonSeed(req: Request) {
    req.wanClass.Some? && req.wanClass.value != InitialSeed
  }

  /** Fewer live leases at the site than its limit, and none anywhere for the device. */
  ghost predicate RoomFor(leases: Leases, site: Site, req: Request, now: int) {
    && |ActiveLeases(leases, req.site, now)| < SlotLimit(site)
    && forall id :: id in leases && Live(leases[id], now) ==> leases[id].device != req.device
  }

  /** Reaping at `now` leaves exactly the live leases unreleased. */
  lemma ReapedIsLive(leases: Leases, req: Request, now: int)
    ensures ActiveLeases(Reap(leases, now), req.site, now) == ActiveLeases(leases, req.site, now)
    ensures Fresh(Reap(leases, now), req) == Fresh(leases, req)
    ensures forall id :: id in leases ==> (Unreleased(Reap(leases, now)[id]) <==> Live(leases[id], now))
    ensures forall id :: id in leases ==> Reap(leases, now)[id].device == leases[id].device
  {
    var after := Reap(leases, now);
    assert forall id :: id in leases ==> (Live(after[id], now) <==> Live(leases[id], now)) && after[id].attempt == leases[id].attempt;
  }

  /** Once nothing unreleased has expired, the slot the search finds has a free key. */
  lemma PlannedKeyIsFree(leases: Leases, sites: map<string, Site>, req: Request, now: int)
    requires TableOk(leases) && Fresh(leases, req) && PlanAcquire(leases, sites, req, now).Insert?
    requires forall id :: id in leases && Unreleased(leases[id]) ==> Live(leases[id], now)
    ensures
      var l := PlanAcquire(leases, sites, req, now).lease;
      && (forall id :: id in leases ==> leases[id].holdKey != l.holdKey)
      && (KeysFree(leases, l) <==> forall id :: id in leases && Unreleased(leases[id]) ==> leases[id].device != req.device)
  {
    var l := PlanAcquire(leases, sites, req, now).lease;
    PlannedLease(leases, sites, req, now);
    var active := ActiveLeases(leases, req.site, now);
    SlotFound(leases, active, SlotLimit(sites[req.site]));
    forall id | id in leases ensures leases[id].holdKey != l.holdKey {
      assert KeysMatch(leases[id], id);
      if Unreleased(leases[id]) && leases[id].site == l.site {
        assert id in active && leases[id].slot in SlotsOf(leases, active);
      }
    }
    assert forall id :: id in leases ==> KeysMatch(leases[id], id);
  }

  /** A fresh request past the gates is granted exactly when the site has a slot left and the device holds nothing. */
  lemma GrantedExactly(leases: Leases, sites: map<string, Site>, req: Request, now: int, newId: LeaseId)
    requires TableOk(leases) && Fresh(leases, req) && NonSeed(req) && PassesGates(leases, sites, req, now)
    ensures AcquireNow(leases, sites, req, now, newId).1.Granted? <==> RoomFor(leases, sites[req.site], req, now)
  {
    var reaped := Reap(leases, now);
    ReapKeepsTable(leases, now);
    ReapedIsLive(leases, req, now);
    var active := ActiveLeases(reaped, req.site, now);
    if |active| < SlotLimit(sites[req.site]) {
      SlotFound(reaped, active, SlotLimit(sites[req.site]));
      PlannedKeyIsFree(reaped, sites, req, now) by {
        assert forall id :: id in reaped && Unreleased(reaped[id]) ==> Live(reaped[id], now);
      }
    }
  }

  // ---- what each request is answered, by the fields of its site and the rows of the table ----

  /** The site exists, takes new leases, and its provider is reachable. */
  predicate Open(sites: map<string, Site>, req: Request, now: int) {
    && req.site in sites && !sites[req.site].paused
    && (sites[req.site].providerDownUntil.Some? ==> sites[req.site].providerDownUntil.value <= now)
  }

  predicate Measured(site: Site, jobs: int) {
    CompileSite(site.measuredMbps, if site.budgetPercent == 0 then 20 else site.budgetPercent, jobs).Some?
  }

  /** A lease held at this moment, for whatever it is. */
  predicate HeldNow(leases: Leases, id: LeaseId, now: int) {
    id in leases && leases[id].releasedAt.None? && leases[id].expiresAt > now
  }

  ghost predicate HoldsAttempt(leases: Leases, req: Request, now: int) {
    exists id :: HeldNow(leases, id, now) && leases[id].attempt == req.attempt
  }

  /** A seed waits while another is active, unless the site may seed on its own, and behind overdue backups. */
  ghost predicate SeedWaits(leases: Leases, site: Site, req: Request, now: int) {
    && req.wanClass == Some(InitialSeed)
    && (req.overdue || (!site.allowSeeds && exists id :: HeldNow(leases, id, now) && leases[id].wanClass == InitialSeed))
  }

  function HeldAt(leases: Leases, site: string, now: int): set<LeaseId> {
    set id | id in leases && HeldNow(leases, id, now) && leases[id].site == site
  }

  ghost predicate DeviceBusy(leases: Leases, req: Request, now: int) {
    exists id :: HeldNow(leases, id, now) && leases[id].device == req.device
  }

  predicate HasSlot(leases: Leases, site: Site, req: Request, now: int) {
    |HeldAt(leases, req.site, now)| < 1 || |HeldAt(leases, req.site, now)| < site.maxConcurrent
  }

  /** A new attempt of a known class that no seed rule holds back. */
  ghost predicate Competes(leases: Leases, sites: map<string, Site>, req: Request, now: int) {
    && Open(sites, req, now) && Measured(sites[req.site], 1) && Fresh(leases, req)
    && req.wanClass.Some? && !SeedWaits(leases, sites[req.site], req, now)
  }

  /** A row that ran out is released as expired and lets go of both keys; every other row stays. */
  lemma ReapsExactly(leases: Leases, now: int, id: LeaseId)
    requires id in leases
    ensures id in Reap(leases, now)
    ensures Reap(leases, now)[id] ==
      if leases[id].releasedAt.None? && leases[id].expiresAt <= now
      then leases[id].(releasedAt := Some(now), reason := "expired", holdKey := Freed(id), deviceKey := FreedDevice(id))
      else leases[id]
  {
  }

  lemma ReapedHolds(leases: Leases, req: Request, now: int)
    ensures forall id :: HeldNow(Reap(leases, now), id, now) <==> HeldNow(leases, id, now)
    ensures ActiveLeases(Reap(leases, now), req.site, now) == HeldAt(leases, req.site, now)
    ensures (|ActiveSeeds(Reap(leases, now), now)| >= 1) <==> exists id :: HeldNow(leases, id, now) && leases[id].wanClass == InitialSeed
  {
    var reaped := Reap(leases, now);
    assert forall id :: id in leases ==> reaped[id].site == leases[id].site && reaped[id].wanClass == leases[id].wanClass;
    assert forall id :: HeldNow(reaped, id, now) <==> HeldNow(leases, id, now);
    if id :| HeldNow(leases, id, now) && leases[id].wanClass == InitialSeed {
      assert id in ActiveSeeds(reaped, now);
    } else {
      assert ActiveSeeds(reaped, now) == {};
    }
  }

  /** Refused for what the site is: it is not there, paused, cut off from its provider, or not measured. */
  lemma ClosedSites(leases: Leases, sites: map<string, Site>, req: Request, now: int, newId: LeaseId)
    ensures
      var reply := AcquireNow(leases, sites, req, now, newId).1;
      && (reply == Paused <==> req.site in sites && sites[req.site].paused)
      && (reply == ProviderUnavailable <==>
            && req.site in sites && !sites[req.site].paused
            && sites[req.site].providerDownUntil.Some? && sites[req.site].providerDownUntil.value > now)
      && (req.site !in sites ==> reply == Denied)
      && (Open(sites, req, now) && !Measured(sites[req.site], 1) ==> reply == SiteUnmeasured)
      && (!Open(sites, req, now) || !Measured(sites[req.site], 1) ==> AcquireNow(leases, sites, req, now, newId).0 == Reap(leases, now))
  {
  }

  /** An attempt that has a lease: extended while it is held, never granted again afterwards. */
  lemma KnownAttempts(leases: Leases, sites: map<string, Site>, req: Request, now: int, newId: LeaseId, id: LeaseId)
    requires TableOk(leases) && Open(sites, req, now) && Measured(sites[req.site], 1) && id in leases && leases[id].attempt == req.attempt
    ensures
      AcquireNow(leases, sites, req, now, newId) ==
        if HeldNow(leases, id, now) then (Reap(leases, now)[id := leases[id].(expiresAt := now + 90)], Granted(id))
        else (Reap(leases, now), Denied)
  {
    var reaped := Reap(leases, now);
    ReapKeepsTable(leases, now);
    assert reaped[id].attempt == req.attempt;
    assert forall other :: other in reaped && other != id ==> Apart(reaped[other], reaped[id]);
    ReapsExactly(leases, now, id);
  }

  /** A new attempt is denied for its class, or queued for the sake of seeds and overdue backups. */
  lemma FreshAnswers(leases: Leases, sites: map<string, Site>, req: Request, now: int, newId: LeaseId)
    requires TableOk(leases) && Open(sites, req, now) && Measured(sites[req.site], 1)
    requires Fresh(leases, req) && !Competes(leases, sites, req, now)
    ensures AcquireNow(leases, sites, req, now, newId) == (Reap(leases, now), if req.wanClass.None? then Denied else Queued)
  {
    ReapedIsLive(leases, req, now);
    ReapedHolds(leases, req, now);
  }

  predicate SlotHeld(leases: Leases, held: set<LeaseId>, slot: int)
    requires held <= leases.Keys
  {
    exists id :: id in held && leases[id].slot == slot
  }

  /** The lease an admitted request gets. */
  predicate IsAdmitted(l: Lease, leases: Leases, site: Site, req: Request, now: int) {
    var held := HeldAt(leases, req.site, now);
    && l.site == req.site && l.device == req.device && l.attempt == req.attempt && Some(l.wanClass) == req.wanClass
    && l.expiresAt == now + 90 && l.releasedAt.None? && l.holdKey == Held(req.site, l.slot) && l.deviceKey == HeldBy(req.device)
    // the least slot nobody at the site holds
    && l.slot >= 1 && !SlotHeld(leases, held, l.slot) && (forall slot :: 1 <= slot < l.slot ==> SlotHeld(leases, held, slot))
    // its share of the budget among all that are then active
    && AgentCeilingKibps(SiteBudget(site), |held| + 1) == Some(l.bandwidthKibps)
    && (site.emergencyUntil.Some? && site.emergencyUntil.value > now && site.emergencyKibps > 0 ==> l.restoreKibps == site.emergencyKibps)
    && (!(site.emergencyUntil.Some? && site.emergencyUntil.value > now && site.emergencyKibps > 0) ==>
          l.restoreKibps == if site.restoreLimitKibps != 0 then site.restoreLimitKibps else 4 * l.bandwidthKibps)
  }

  /** The measured rate's budget, of 20 percent unless the site says otherwise; 0 where there is none. */
  function SiteBudget(site: Site): int {
    if site.measuredMbps.None? then 0
    else
      var budget := SiteBudgetBps(site.measuredMbps.value, if site.budgetPercent == 0 then 20 else site.budgetPercent);
      if budget.None? then 0 else budget.value
  }

  lemma PlannedIsAdmitted(leases: Leases, sites: map<string, Site>, req: Request, now: int)
    requires TableOk(leases) && Competes(leases, sites, req, now) && HasSlot(leases, sites[req.site], req, now)
    requires Measured(sites[req.site], |HeldAt(leases, req.site, now)| + 1)
    ensures
      var plan := PlanAcquire(Reap(leases, now), sites, req, now);
      plan.Insert? && IsAdmitted(plan.lease, leases, sites[req.site], req, now)
  {
    var site, reaped, held := sites[req.site], Reap(leases, now), HeldAt(leases, req.site, now);
    ReapedIsLive(leases, req, now);
    ReapedHolds(leases, req, now);
    LeastSlot(leases, held, SlotLimit(site), now);
  }

  lemma LeastSlot(leases: Leases, held: set<LeaseId>, limit: int, now: int)
    requires held <= leases.Keys && |held| < limit
    ensures
      var found := FirstFree(SlotsOf(Reap(leases, now), held), 1, limit);
      && found.Some? && found.value >= 1 && !SlotHeld(leases, held, found.value)
      && forall slot :: 1 <= slot < found.value ==> SlotHeld(leases, held, slot)
  {
    var reaped := Reap(leases, now);
    assert forall id :: id in leases ==> reaped[id].slot == leases[id].slot;
    SlotFound(reaped, held, limit);
    var used := SlotsOf(reaped, held);
    FirstFreeSpec(used, 1, limit);
    var slot := FirstFree(used, 1, limit).value;
    forall k | 1 <= k < slot ensures SlotHeld(leases, held, k) {
      assert k in used;
    }
    forall id | id in held ensures leases[id].slot != slot {
      assert reaped[id].slot in used;
    }
  }

  /** The competing request waits for a slot, or for its device, or fails on a share too small to split. */
  lemma CompetingAnswers(leases: Leases, sites: map<string, Site>, req: Request, now: int, newId: LeaseId)
    requires TableOk(leases) && Competes(leases, sites, req, now)
    ensures
      var site, measured := sites[req.site], Measured(sites[req.site], |HeldAt(leases, req.site, now)| + 1);
      var (after, reply) := AcquireNow(leases, sites, req, now, newId);
      if !HasSlot(leases, site, req, now) then reply == CapacityWait && after == Reap(leases, now)
      else if !measured then reply == SiteUnmeasured && after == Reap(leases, now)
      else if DeviceBusy(leases, req, now) then reply == CapacityWait && after == Reap(leases, now)
      else
        && reply == Granted(newId) && newId in after && IsAdmitted(after[newId], leases, site, req, now)
        && after == Reap(leases, now)[newId := after[newId]]
  {
    var reaped := Reap(leases, now);
    ReapKeepsTable(leases, now);
    ReapedIsLive(leases, req, now);
    ReapedHolds(leases, req, now);
    if HasSlot(leases, sites[req.site], req, now) {
      SlotFound(reaped, HeldAt(leases, req.site, now), SlotLimit(sites[req.site]));
      if Measured(sites[req.site], |HeldAt(leases, req.site, now)| + 1) {
        PlannedIsAdmitted(leases, sites, req, now);
        PlannedKeyIsFree(reaped, sites, req, now);
        DeviceDecides(leases, req, now);
      }
    }
  }

  lemma SeedsSeeLiveOnly(leases: Leases, now: int)
    ensures ActiveSeeds(Reap(leases, now), now) == ActiveSeeds(leases, now)
  {
    var reaped := Reap(leases, now);
    assert forall id :: id in leases ==> reaped[id].wanClass == leases[id].wanClass && (Live(reaped[id], now) <==> Live(leases[id], now));
  }

  lemma SlotSeesLiveOnly(leases: Leases, site: Site, req: Request, now: int)
    requires req.wanClass.Some?
    ensures PlanSlot(Reap(leases, now), site, req, now) == PlanSlot(leases, site, req, now)
  {
    var reaped, active := Reap(leases, now), ActiveLeases(leases, req.site, now);
    assert forall id :: id in leases ==>
      reaped[id].site == leases[id].site && reaped[id].slot == leases[id].slot && (Live(reaped[id], now) <==> Live(leases[id], now));
    assert ActiveLeases(reaped, req.site, now) == active;
    assert SlotsOf(reaped, active) == SlotsOf(leases, active);
  }

  lemma KnownPlan(leases: Leases, sites: map<string, Site>, req: Request, now: int, id: LeaseId)
    requires TableOk(leases) && Open(sites, req, now) && Measured(sites[req.site], 1) && id in leases && leases[id].attempt == req.attempt
    ensures PlanAcquire(leases, sites, req, now) == if Live(leases[id], now) then Extend(id) else Answer(Denied)
  {
    assert forall other :: other in leases && other != id ==> Apart(leases[other], leases[id]);
  }

  lemma FreshPlanSeesLiveOnly(leases: Leases, sites: map<string, Site>, req: Request, now: int)
    requires Fresh(leases, req) && Fresh(Reap(leases, now), req)
    ensures PlanAcquire(Reap(leases, now), sites, req, now) == PlanAcquire(leases, sites, req, now)
  {
    if req.site in sites && req.wanClass.Some? { SlotSeesLiveOnly(leases, sites[req.site], req, now); }
    SeedsSeeLiveOnly(leases, now);
  }

  /** A plan looks at live leases only, so that it makes no difference whether the others are reaped before. */
  lemma PlanSeesLiveOnly(leases: Leases, sites: map<string, Site>, req: Request, now: int)
    requires TableOk(leases)
    ensures PlanAcquire(Reap(leases, now), sites, req, now) == PlanAcquire(leases, sites, req, now)
  {
    ReapedIsLive(leases, req, now);
    if Fresh(leases, req) {
      FreshPlanSeesLiveOnly(leases, sites, req, now);
    } else if Open(sites, req, now) && Measured(sites[req.site], 1) {
      var id :| id in leases && leases[id].attempt == req.attempt;
      ReapKeepsTable(leases, now);
      assert Reap(leases, now)[id].attempt == req.attempt;
      KnownPlan(leases, sites, req, now, id);
      KnownPlan(Reap(leases, now), sites, req, now, id);
    }
  }

  lemma DeviceDecides(leases: Leases, req: Request, now: int)
    ensures DeviceBusy(leases, req, now) <==>
      !forall id :: id in Reap(leases, now) && Unreleased(Reap(leases, now)[id]) ==> Reap(leases, now)[id].device != req.device
  {
    ReapedIsLive(leases, req, now);
    if id :| HeldNow(leases, id, now) && leases[id].device == req.device {
      assert Unreleased(Reap(leases, now)[id]);
    }
  }

  lemma AcquireKeepsTable(leases: Leases, sites: map<string, Site>, req: Request, now: int, newId: LeaseId)
    requires TableOk(leases) && newId !in leases
    ensures TableOk(AcquireNow(leases, sites, req, now, newId).0)
  {
    var reaped := Reap(leases, now);
    ReapKeepsTable(leases, now);
    match PlanAcquire(reaped, sites, req, now)
    case Answer(_) =>
    case Extend(id) =>
      RenewKeepsTable(reaped, id, now);
    case Insert(l) =>
      PlannedLease(reaped, sites, req, now);
      if KeysFree(reaped, l) {
        InsertKeepsTable(reaped, newId, l);
      }
  }

  /** A site past the first measurement gate fails the second exactly when its ceiling for one job is below the number of jobs. */
  lemma SecondGateExactly(site: Site, jobs: int)
    requires jobs >= 1 && CompileForSite(site, 1).Some?
    ensures CompileForSite(site, jobs).None? <==> CompileForSite(site, 1).value.agentKibps < jobs
  {
    SplitCeilingFails(CompileForSite(site, 1).value.bps, jobs);
  }
}
