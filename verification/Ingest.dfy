/**
  Reports of finished backups (`ingest_attempt` in server/app/services.py): what the server keeps
  as a device's last success when reports come late, twice, or in any order.
*/
module Ingest {
  import opened Options

  type AttemptId = string
  type JobId = string
  type DeviceId = string

  datatype Outcome = SUCCEEDED | PARTIAL | FAILED | CANCELLED

  /** `ended` is the agent's own end time, None when absent or malformed. */
  datatype Report = Report(attempt: AttemptId, job: JobId, slot: string, outcome: Outcome, snapshot: string,
      notGreen: bool, ended: Option<int>)

  datatype Device = Device(lastOutcome: Option<Outcome>, successAt: Option<int>, snapshot: string, ended: Option<int>)

  datatype Job = Job(device: DeviceId, slot: string, state: Option<Outcome>)

  datatype Reply = Mismatch | Accepted(idempotent: bool)

  predicate Green(r: Report) {
    r.outcome == SUCCEEDED && r.snapshot != "" && !r.notGreen
  }

  /** Older than what is recorded; a report without an end time never is. */
  predicate Stale(d: Device, r: Report) {
    r.ended.Some? && d.ended.Some? && r.ended.value < d.ended.value
  }

  function Reported(d: Device, r: Report, now: int): Device {
    var seen := d.(lastOutcome := Some(r.outcome));
    if !Green(r) || Stale(d, r) then seen
    else seen.(successAt := Some(now), snapshot := r.snapshot, ended := if r.ended.Some? then r.ended else d.ended)
  }

  // ---- any order of delivery ----

  datatype Ledger = Ledger(attempts: set<AttemptId>, device: Device)

  datatype Delivery = Delivery(report: Report, now: int)

  /** A report whose attempt is known changes nothing. */
  function Delivered(l: Ledger, r: Report, now: int): Ledger {
    if r.attempt in l.attempts then l else Ledger(l.attempts + {r.attempt}, Reported(l.device, r, now))
  }

  function DeliveredAll(l: Ledger, run: seq<Delivery>): Ledger {
    if run == [] then l
    else
      var last := run[|run| - 1];
      Delivered(DeliveredAll(l, run[..|run| - 1]), last.report, last.now)
  }

  function ReportsIn(run: seq<Delivery>): set<Report> {
    set d | d in run :: d.report
  }

  /** The green reports among these that are news to the ledger. */
  function NewGreens(l: Ledger, reports: set<Report>): set<Report> {
    set r | r in reports && Green(r) && r.attempt !in l.attempts
  }

  /** An attempt is reported one way, however often. */
  ghost predicate OnePerAttempt(reports: set<Report>) {
    forall a, b :: a in reports && b in reports && a.attempt == b.attempt ==> a == b
  }

  predicate NoLater(a: Option<int>, b: Option<int>) {
    a.Some? ==> b.Some? && a.value <= b.value
  }

  /** The recorded end time: the latest of the one before and those reported. */
  ghost predicate IsLatestEnd(before: Option<int>, greens: set<Report>, ended: Option<int>) {
    && NoLater(before, ended) && (forall g :: g in greens ==> NoLater(g.ended, ended))
    && (ended == before || exists g :: g in greens && g.ended == ended)
  }

  /** The reports that can be the last to take over: undated ones, and those with the latest end time that is not stale. */
  function Contenders(before: Device, greens: set<Report>): set<Report> {
    set r | r in greens && !Stale(before, r) && (r.ended.None? || forall g :: g in greens ==> NoLater(g.ended, r.ended))
  }

  /** What the last success is after these new green reports, in whatever order they came. */
  ghost predicate Settles(before: Device, greens: set<Report>, after: Device) {
    && IsLatestEnd(before.ended, greens, after.ended)
    && (Contenders(before, greens) == {} ==> after.snapshot == before.snapshot)
    && (Contenders(before, greens) != {} ==> exists r :: r in Contenders(before, greens) && after.snapshot == r.snapshot)
  }

  lemma StaleSettles(before: Device, greens: set<Report>, now: Device, r: Report, at: int)
    requires Green(r) && Stale(now, r) && Settles(before, greens, now)
    ensures Settles(before, greens + {r}, Reported(now, r, at))
  {
    var more := greens + {r};
    if top :| top in Contenders(before, greens) && now.snapshot == top.snapshot {
      assert top in Contenders(before, more) by {
        assert top.ended.Some? ==> NoLater(now.ended, top.ended);
      }
    }
    if now.ended != before.ended {
      var g :| g in greens && g.ended == now.ended;
      assert g in more;
      assert g in Contenders(before, greens);
    }
    forall x | x in Contenders(before, more) ensures x in Contenders(before, greens) {
      assert x != r by {
        if now.ended != before.ended {
          var g :| g in greens && g.ended == now.ended;
          assert g in more;
        }
      }
    }
  }

  lemma FreshSettles(before: Device, greens: set<Report>, now: Device, r: Report, at: int)
    requires Green(r) && !Stale(now, r) && Settles(before, greens, now)
    ensures Settles(before, greens + {r}, Reported(now, r, at))
  {
    var more, after := greens + {r}, Reported(now, r, at);
    assert r in Contenders(before, more);
    assert r.ended.None? ==> after.ended == now.ended;
    if r.ended.None? && now.ended != before.ended {
      var g :| g in greens && g.ended == now.ended;
      assert g in more;
    }
    assert r in more;
  }

  lemma DeliverySettles(l: Ledger, sofar: set<Report>, now: Ledger, r: Report, at: int)
    requires OnePerAttempt(sofar + {r}) && Settles(l.device, NewGreens(l, sofar), now.device)
    requires now.attempts == l.attempts + set x | x in sofar :: x.attempt
    ensures Settles(l.device, NewGreens(l, sofar + {r}), Delivered(now, r, at).device)
    ensures Delivered(now, r, at).attempts == l.attempts + set x | x in sofar + {r} :: x.attempt
  {
    if Green(r) && r.attempt !in now.attempts {
      assert NewGreens(l, sofar + {r}) == NewGreens(l, sofar) + {r};
      if Stale(now.device, r) {
        StaleSettles(l.device, NewGreens(l, sofar), now.device, r, at);
      } else {
        FreshSettles(l.device, NewGreens(l, sofar), now.device, r, at);
      }
    } else {
      assert NewGreens(l, sofar + {r}) == NewGreens(l, sofar);
    }
  }

  /** The last success after any run: the latest end time, with the snapshot of a contender. */
  lemma {:induction false} LatestWins(l: Ledger, run: seq<Delivery>)
    requires OnePerAttempt(ReportsIn(run))
    ensures Settles(l.device, NewGreens(l, ReportsIn(run)), DeliveredAll(l, run).device)
    ensures DeliveredAll(l, run).attempts == l.attempts + set r | r in ReportsIn(run) :: r.attempt
    decreases |run|
  {
    if run != [] {
      var init, last := run[..|run| - 1], run[|run| - 1];
      assert run == init + [last];
      assert ReportsIn(run) == ReportsIn(init) + {last.report};
      LatestWins(l, init);
      DeliverySettles(l, ReportsIn(init), DeliveredAll(l, init), last.report, last.now);
    }
  }

  lemma LatestEndIsUnique(before: Option<int>, greens: set<Report>, a: Option<int>, b: Option<int>)
    requires IsLatestEnd(before, greens, a) && IsLatestEnd(before, greens, b)
    ensures a == b
  {
  }

  ghost predicate SameSuccess(l: Ledger, a: seq<Delivery>, b: seq<Delivery>) {
    var d, d' := DeliveredAll(l, a).device, DeliveredAll(l, b).device;
    d.snapshot == d'.snapshot && d.ended == d'.ended
  }

  predicate OneSnapshot(reports: set<Report>) {
    forall a, b :: a in reports && b in reports ==> a.snapshot == b.snapshot
  }

  lemma OneMoreReport(run: seq<Delivery>, d: Delivery)
    ensures ReportsIn(run + [d]) == ReportsIn(run) + {d.report}
  {
    assert d in run + [d];
    forall r | r in ReportsIn(run) ensures r in ReportsIn(run + [d]) {
      var e :| e in run && e.report == r;
      assert e in run + [d];
    }
  }

  ghost function Listed(reports: set<Report>): (run: seq<Delivery>)
    ensures ReportsIn(run) == reports
  {
    if reports == {} then []
    else
      var r :| r in reports;
      OneMoreReport(Listed(reports - {r}), Delivery(r, 0));
      Listed(reports - {r}) + [Delivery(r, 0)]
  }

  /** A contender that comes last takes over. */
  lemma LastContenderWins(l: Ledger, reports: set<Report>, r: Report) returns (run: seq<Delivery>)
    requires OnePerAttempt(reports) && r in Contenders(l.device, NewGreens(l, reports))
    ensures ReportsIn(run) == reports && DeliveredAll(l, run).device.snapshot == r.snapshot
  {
    var others := reports - {r};
    var before := Listed(others);
    run := before + [Delivery(r, 0)];
    assert run[..|run| - 1] == before;
    OneMoreReport(before, Delivery(r, 0));
    LatestWins(l, before);
    var now := DeliveredAll(l, before);
    assert r.attempt !in now.attempts;
    assert !Stale(now.device, r) by {
      if r.ended.Some? && now.device.ended != l.device.ended {
        var g :| g in NewGreens(l, others) && g.ended == now.device.ended;
        assert g in NewGreens(l, reports);
      }
    }
  }

  /**
    The same reports leave the same last success in any two orders with any repetitions exactly when
    all contenders name the same snapshot. The end time never depends on the order.
  */
  lemma OrderDoesNotMatter(l: Ledger, reports: set<Report>)
    requires OnePerAttempt(reports)
    ensures
      OneSnapshot(Contenders(l.device, NewGreens(l, reports))) <==>
        forall a, b :: ReportsIn(a) == reports && ReportsIn(b) == reports ==> SameSuccess(l, a, b)
    ensures forall a, b :: ReportsIn(a) == reports && ReportsIn(b) == reports ==>
              DeliveredAll(l, a).device.ended == DeliveredAll(l, b).device.ended
  {
    var contenders := Contenders(l.device, NewGreens(l, reports));
    forall a, b | ReportsIn(a) == reports && ReportsIn(b) == reports
      ensures DeliveredAll(l, a).device.ended == DeliveredAll(l, b).device.ended && (OneSnapshot(contenders) ==> SameSuccess(l, a, b))
    {
      LatestWins(l, a);
      LatestWins(l, b);
      LatestEndIsUnique(l.device.ended, NewGreens(l, reports), DeliveredAll(l, a).device.ended, DeliveredAll(l, b).device.ended);
    }
    forall x, y | x in contenders && y in contenders && x.snapshot != y.snapshot
      ensures exists a, b :: ReportsIn(a) == reports && ReportsIn(b) == reports && !SameSuccess(l, a, b)
    {
      var a := LastContenderWins(l, reports, x);
      var b := LastContenderWins(l, reports, y);
      assert !SameSuccess(l, a, b);
    }
  }

  /** Green reports with distinct end times leave the same last success in any two orders with any repetitions. */
  lemma DistinctEndsAgree(l: Ledger, reports: set<Report>, a: seq<Delivery>, b: seq<Delivery>)
    requires OnePerAttempt(reports) && ReportsIn(a) == reports && ReportsIn(b) == reports
    requires forall r :: r in reports && Green(r) ==> r.ended.Some?
    requires forall r, r' :: r in reports && r' in reports && Green(r) && Green(r') && r.ended == r'.ended ==> r == r'
    ensures SameSuccess(l, a, b)
  {
    assert OneSnapshot(Contenders(l.device, NewGreens(l, reports)));
    OrderDoesNotMatter(l, reports);
  }

  /** For two reports: one snapshot, different end times, or one of them stale from the start. */
  lemma PairOrderExactly(l: Ledger, a: Report, b: Report, now: int)
    requires Green(a) && Green(b) && a.attempt != b.attempt && a.attempt !in l.attempts && b.attempt !in l.attempts
    ensures
      var ab, ba := Delivered(Delivered(l, a, now), b, now).device, Delivered(Delivered(l, b, now), a, now).device;
      ab.snapshot == ba.snapshot && ab.ended == ba.ended <==>
        || a.snapshot == b.snapshot || (a.ended.Some? && b.ended.Some? && a.ended != b.ended)
        || Stale(l.device, a) || Stale(l.device, b)
  {
  }

  /** Two green reports with one end time: whichever comes second wins. */
  lemma TiesFollowArrival(l: Ledger, a: Report, b: Report, now: int)
    requires Green(a) && Green(b) && a.ended == b.ended && a.ended.Some? && a.attempt != b.attempt && a.snapshot != b.snapshot
    requires a.attempt !in l.attempts && b.attempt !in l.attempts && (l.device.ended.Some? ==> l.device.ended.value <= a.ended.value)
    ensures Delivered(Delivered(l, a, now), b, now).device.snapshot == b.snapshot
    ensures Delivered(Delivered(l, b, now), a, now).device.snapshot == a.snapshot
  {
  }

  /** A green report without an end time takes over however old it is, and leaves the recorded end time standing. */
  lemma UndatedTakesOver(l: Ledger, r: Report, now: int)
    requires Green(r) && r.ended == None && r.attempt !in l.attempts
    ensures Delivered(l, r, now).device.snapshot == r.snapshot && Delivered(l, r, now).device.ended == l.device.ended
  {
  }

  // ---- the server's code ----

  class Desk {
    const deviceId: DeviceId
    var jobs: map<JobId, Job>
    var attempts: map<AttemptId, JobId>
    var device: Device

    ghost function Contents(): Ledger
      reads this
    {
      Ledger(attempts.Keys, device)
    }

    ghost predicate Valid()
      reads this
    {
      forall id :: id in attempts ==> attempts[id] in jobs
    }

    constructor (deviceId: DeviceId)
      ensures Valid() && this.deviceId == deviceId && Contents() == Ledger({}, Device(None, None, "", None)) && jobs == map[]
    {
      this.deviceId := deviceId;
      jobs, attempts, device := map[], map[], Device(None, None, "", None);
    }

    /** A named slot's job of this device. */
    predicate SlotOf(jobs: map<JobId, Job>, id: JobId, slot: string) {
      slot != "" && id in jobs && jobs[id].device == deviceId && jobs[id].slot == slot
    }

    /** The job a report belongs to: its own, the slot's, or a new one. None if the job is another device's. */
    method FindJob(r: Report, newId: JobId) returns (id: Option<JobId>)
      requires newId !in jobs
      modifies `jobs
      ensures id.None? <==> r.job != "" && r.job in old(jobs) && old(jobs)[r.job].device != deviceId
      ensures id.None? ==> jobs == old(jobs)
      ensures id.Some? ==> id.value in jobs && jobs[id.value].device == deviceId
      ensures r.job != "" && r.job in old(jobs) && id.Some? ==> id.value == r.job && jobs == old(jobs)
      ensures !(r.job != "" && r.job in old(jobs)) && (exists found :: SlotOf(old(jobs), found, r.slot)) ==>
        id.Some? && SlotOf(old(jobs), id.value, r.slot) && jobs == old(jobs)
      ensures !(r.job != "" && r.job in old(jobs)) && !(exists found :: SlotOf(old(jobs), found, r.slot)) ==>
        id == Some(newId) && jobs == old(jobs)[newId := Job(deviceId, r.slot, None)]
      ensures jobs == old(jobs) || jobs == old(jobs)[newId := Job(deviceId, r.slot, None)]
    {
      if r.job != "" && r.job in jobs {
        return if jobs[r.job].device != deviceId then None else Some(r.job);
      }
      if r.slot != "" {
        if found :| found in jobs && jobs[found].device == deviceId && jobs[found].slot == r.slot {
          assert SlotOf(jobs, found, r.slot);
          return Some(found);
        }
      }
      jobs := jobs[newId := Job(deviceId, r.slot, None)];
      return Some(newId);
    }

    /** A refused or repeated report leaves the ledger alone; any other is what `Delivered` says, and names a job of this device. */
    method IngestAttempt(r: Report, newId: JobId, now: int) returns (reply: Reply)
      requires Valid() && newId !in jobs
      modifies `jobs, `attempts, `device
      ensures Valid()
      ensures r.attempt in old(attempts) ==>
        && jobs == old(jobs) && attempts == old(attempts) && device == old(device)
        && reply == if jobs[attempts[r.attempt]].device != deviceId then Mismatch else Accepted(true)
      ensures r.attempt !in old(attempts) && r.job != "" && r.job in old(jobs) && old(jobs)[r.job].device != deviceId ==>
        reply == Mismatch && jobs == old(jobs) && attempts == old(attempts) && device == old(device)
      ensures r.attempt !in old(attempts) && !(r.job != "" && r.job in old(jobs) && old(jobs)[r.job].device != deviceId) ==>
        && reply == Accepted(false) && Contents() == Delivered(old(Contents()), r, now)
        && r.attempt in attempts && jobs[attempts[r.attempt]].device == deviceId && jobs[attempts[r.attempt]].state == Some(r.outcome)
      ensures reply == Accepted(false) ==>
        && r.attempt in attempts && attempts == old(attempts)[r.attempt := attempts[r.attempt]]
        && (r.job != "" && r.job in old(jobs) ==> attempts[r.attempt] == r.job)
        && (forall id :: id in jobs <==> id in old(jobs) || id == attempts[r.attempt])
        && (forall id :: id in old(jobs) && id != attempts[r.attempt] ==> jobs[id] == old(jobs)[id])
        && device.lastOutcome == Some(r.outcome)
      ensures
        var older := r.ended.Some? && old(device).ended.Some? && r.ended.value < old(device).ended.value;
        reply == Accepted(false) ==>
          if r.outcome == SUCCEEDED && r.snapshot != "" && !r.notGreen && !older then
            && device.successAt == Some(now) && device.snapshot == r.snapshot
            && device.ended == if r.ended.Some? then r.ended else old(device).ended
          else
            device.successAt == old(device).successAt && device.snapshot == old(device).snapshot && device.ended == old(device).ended
    {
      if r.attempt in attempts {
        return if jobs[attempts[r.attempt]].device != deviceId then Mismatch else Accepted(true);
      }
      var job := FindJob(r, newId);
      if job.None? { return Mismatch; }
      attempts := attempts[r.attempt := job.value];
      jobs := jobs[job.value := jobs[job.value].(state := Some(r.outcome))];
      device := device.(lastOutcome := Some(r.outcome));
      if r.outcome == SUCCEEDED && r.snapshot != "" && !r.notGreen {
        var stale := r.ended.Some? && device.ended.Some? && r.ended.value < device.ended.value;
        if !stale {
          device := device.(successAt := Some(now), snapshot := r.snapshot);
          if r.ended.Some? { device := device.(ended := r.ended); }
        }
      }
      reply := Accepted(false);
    }
  }
}
