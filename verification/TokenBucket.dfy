/**
  The gateway's per-site token bucket (gateway/gw/limiter.py), in exact arithmetic: any number of
  takers interleave, each holding the lock for one refill and one take.
*/
module TokenBucket {
  type DeviceId = string

  /** The rate stays what it is; `burst` is at least 16384 bytes unless the caller sets it. */
  datatype Bucket = Bucket(rate: real, burst: real, tokens: real, updated: real, taken: int)

  /** One call of `take`: `counted` once its bytes were added to its device. */
  datatype Taker = Taker(device: DeviceId, n: nat, remaining: int, counted: bool)

  datatype Gateway = Gateway(bucket: Bucket, takers: seq<Taker>, bytes: map<DeviceId, int>)

  /** `Turn` is one pass of the loop of `take` under the lock, at the clock reading `now`. */
  datatype Event = Start(device: DeviceId, n: nat) | Turn(taker: nat, now: real) | Finish(taker: nat)

  function Min(a: real, b: real): real {
    if a <= b then a else b
  }

  predicate BucketOk(b: Bucket) {
    b.rate > 0.0 && 0.0 <= b.tokens <= b.burst
  }

  function Refilled(b: Bucket, now: real): Bucket {
    b.(tokens := Min(b.burst, b.tokens + Earned(b.rate, b.updated, now)), updated := now)
  }

  /** What a bucket of this rate earns over a stretch of time. */
  function Earned(rate: real, from: real, to: real): real {
    (to - from) * rate
  }

  lemma EarnedNonnegative(rate: real, from: real, to: real)
    requires rate >= 0.0 && from <= to
    ensures Earned(rate, from, to) >= 0.0
  {
  }

  lemma EarnedIsRate(rate: real, from: real, to: real)
    ensures Earned(rate, from, to) == rate * (to - from)
  {
  }

  lemma EarnedAdds(rate: real, a: real, b: real, c: real)
    ensures Earned(rate, a, b) + Earned(rate, b, c) == Earned(rate, a, c)
  {
  }

  /** What `_refill` leaves in the bucket: what was earned meanwhile on top, up to the burst. */
  function Filled(burst: real, tokens: real, rate: real, elapsed: real): real {
    Min(burst, tokens + elapsed * rate)
  }

  lemma RefillsTo(burst: real, tokens: real, rate: real, from: real, now: real)
    ensures Filled(burst, tokens, rate, now - from) == Min(burst, tokens + Earned(rate, from, now))
    ensures
      var earned := tokens + rate * (now - from);
      Filled(burst, tokens, rate, now - from) == if earned > burst then burst else earned
  {
    EarnedIsRate(rate, from, now);
  }

  /** What a taker with `remaining` bytes to go takes off a refilled bucket: whole bytes are counted, fractions are lost. */
  function Use(b: Bucket, remaining: int): real {
    Min(b.tokens, remaining as real)
  }

  function Charged(b: Bucket, remaining: int): Bucket {
    var use := Use(b, remaining);
    b.(tokens := b.tokens - use, taken := b.taken + use.Floor)
  }

  function BytesOf(bytes: map<DeviceId, int>, device: DeviceId): int {
    if device in bytes then bytes[device] else 0
  }

  predicate Enabled(g: Gateway, e: Event) {
    match e
    case Start(_, _) => true
    case Turn(i, now) => i < |g.takers| && g.takers[i].remaining > 0 && now >= g.bucket.updated
    case Finish(i) => i < |g.takers| && g.takers[i].remaining <= 0 && !g.takers[i].counted
  }

  function Apply(g: Gateway, e: Event): Gateway
    requires Enabled(g, e)
  {
    match e
    case Start(device, n) => g.(takers := g.takers + [Taker(device, n, n, false)])
    case Turn(i, now) =>
      var b, t := Refilled(g.bucket, now), g.takers[i];
      if b.tokens >= 1.0 then
        g.(bucket := Charged(b, t.remaining), takers := g.takers[i := t.(remaining := t.remaining - Use(b, t.remaining).Floor)])
      else g.(bucket := b)
    case Finish(i) =>
      var t := g.takers[i];
      g.(takers := g.takers[i := t.(counted := true)], bytes := g.bytes[t.device := BytesOf(g.bytes, t.device) + t.n])
  }

  ghost predicate ValidRun(g: Gateway, run: seq<Event>)
    decreases |run|
  {
    run == [] || (Enabled(g, run[0]) && ValidRun(Apply(g, run[0]), run[1..]))
  }

  ghost function Run(g: Gateway, run: seq<Event>): Gateway
    requires ValidRun(g, run)
    decreases |run|
  {
    if run == [] then g else Run(Apply(g, run[0]), run[1..])
  }

  // ---- one turn ----

  /** A turn that takes makes progress by whole bytes, never past what was asked for. */
  lemma TurnTakes(b: Bucket, remaining: int)
    requires b.tokens >= 1.0 && remaining > 0
    ensures 1 <= Use(b, remaining).Floor <= remaining && (Use(b, remaining).Floor as real) <= b.tokens
  {
  }

  /** The remaining count strictly falls on every turn that takes, and stays on every other. */
  lemma RemainingFalls(g: Gateway, i: nat, now: real)
    requires BucketOk(g.bucket) && Enabled(g, Turn(i, now))
    ensures
      var g' := Apply(g, Turn(i, now));
      if Refilled(g.bucket, now).tokens >= 1.0 then 0 <= g'.takers[i].remaining < g.takers[i].remaining
      else g'.takers == g.takers && g'.bucket.taken == g.bucket.taken
  {
    var b := Refilled(g.bucket, now);
    if b.tokens >= 1.0 {
      TurnTakes(b, g.takers[i].remaining);
    }
  }

  /**
    A turn with a whole byte there takes what is asked for, or else everything: then no token is left, and
    the fraction of a byte is lost. Any other turn takes nothing. Only the turn's taker changes.
  */
  lemma TurnExactly(g: Gateway, i: nat, now: real)
    requires BucketOk(g.bucket) && Enabled(g, Turn(i, now))
    ensures
      var b, b' := g.bucket, Apply(g, Turn(i, now)).bucket;
      var earned := b.tokens + b.rate * (now - b.updated);
      var full := if earned > b.burst then b.burst else earned;
      var before, after := g.takers[i], Apply(g, Turn(i, now)).takers[i];
      && b'.updated == now
      && (full < 1.0 ==> b'.tokens == full && b'.taken == b.taken && after == before)
      && (1.0 <= full && before.remaining as real <= full ==>
            b'.tokens == full - before.remaining as real && b'.taken == b.taken + before.remaining && after.remaining == 0)
      && (1.0 <= full < before.remaining as real ==>
            b'.tokens == 0.0 && b'.taken == b.taken + full.Floor && after.remaining == before.remaining - full.Floor)
      && after.n == before.n && after.device == before.device
      && forall k :: 0 <= k < |g.takers| && k != i ==> Apply(g, Turn(i, now)).takers[k] == g.takers[k]
  {
    EarnedIsRate(g.bucket.rate, g.bucket.updated, now);
  }

  /** What is asked for is what the loop sleeps at least: after that long a whole byte is there, if nobody else took. */
  lemma WaitSuffices(b: Bucket, slept: real)
    requires BucketOk(b) && b.burst >= 1.0 && b.tokens < 1.0 && slept >= (1.0 - b.tokens) / b.rate
    ensures Refilled(b, b.updated + slept).tokens >= 1.0
  {
    var wait := (1.0 - b.tokens) / b.rate;
    assert wait * b.rate == 1.0 - b.tokens;
    EarnedNonnegative(b.rate, wait, slept);
    EarnedAdds(b.rate, 0.0, wait, slept);
    assert Earned(b.rate, b.updated, b.updated + slept) == Earned(b.rate, 0.0, slept);
  }

  // ---- the rate bound ----

  lemma StepKeepsBucket(g: Gateway, e: Event)
    requires BucketOk(g.bucket) && Enabled(g, e)
    ensures BucketOk(Apply(g, e).bucket) && Apply(g, e).bucket.rate == g.bucket.rate && Apply(g, e).bucket.burst == g.bucket.burst
  {
    if e.Turn? {
      EarnedNonnegative(g.bucket.rate, g.bucket.updated, e.now);
    }
  }

  /** Bytes counted plus tokens left grow no faster than the rate. */
  lemma StepPays(g: Gateway, e: Event)
    requires BucketOk(g.bucket) && Enabled(g, e)
    ensures
      var b, b' := g.bucket, Apply(g, e).bucket;
      b'.updated >= b.updated && (b'.taken - b.taken) as real + b'.tokens <= b.tokens + Earned(b.rate, b.updated, b'.updated)
  {
    if e.Turn? {
      var b := Refilled(g.bucket, e.now);
      if b.tokens >= 1.0 { TurnTakes(b, g.takers[e.taker].remaining); }
    }
  }

  lemma {:induction false} RunPays(g: Gateway, run: seq<Event>)
    requires BucketOk(g.bucket) && ValidRun(g, run)
    ensures
      var b, b' := g.bucket, Run(g, run).bucket;
      && BucketOk(b') && b'.rate == b.rate && b'.burst == b.burst && b'.updated >= b.updated
      && (b'.taken - b.taken) as real + b'.tokens <= b.tokens + Earned(b.rate, b.updated, b'.updated)
    decreases |run|
  {
    if run != [] {
      var g1 := Apply(g, run[0]);
      StepKeepsBucket(g, run[0]);
      StepPays(g, run[0]);
      RunPays(g1, run[1..]);
      var b, b1, b2 := g.bucket, g1.bucket, Run(g, run).bucket;
      EarnedAdds(b.rate, b.updated, b1.updated, b2.updated);
    }
  }

  /** The first turn of a window takes from at most a full bucket, however long the bucket stood idle before. */
  lemma FirstTurnPays(g: Gateway, i: nat, now: real)
    requires BucketOk(g.bucket) && Enabled(g, Turn(i, now))
    ensures
      var b' := Apply(g, Turn(i, now)).bucket;
      (b'.taken - g.bucket.taken) as real + b'.tokens <= g.bucket.burst && b'.updated == now
  {
    var b := Refilled(g.bucket, now);
    EarnedNonnegative(g.bucket.rate, g.bucket.updated, now);
    if b.tokens >= 1.0 { TurnTakes(b, g.takers[i].remaining); }
  }

  lemma WindowPays(g: Gateway, run: seq<Event>)
    requires BucketOk(g.bucket) && run != [] && run[0].Turn? && ValidRun(g, run)
    ensures
      var b, b' := g.bucket, Run(g, run).bucket;
      (b'.taken - b.taken) as real <= b.burst + Earned(b.rate, run[0].now, b'.updated)
  {
    var g1 := Apply(g, run[0]);
    StepKeepsBucket(g, run[0]);
    FirstTurnPays(g, run[0].taker, run[0].now);
    RunPays(g1, run[1..]);
  }

  /**
    In any window of any run, the bytes counted are at most the burst and the rate over the time
    between the window's first turn and its last.
  */
  lemma BytesInWindow(g: Gateway, run: seq<Event>)
    requires BucketOk(g.bucket) && run != [] && run[0].Turn? && ValidRun(g, run)
    ensures
      var b, b' := g.bucket, Run(g, run).bucket;
      (b'.taken - b.taken) as real <= b.burst + b.rate * (b'.updated - run[0].now)
  {
    WindowPays(g, run);
    EarnedIsRate(g.bucket.rate, run[0].now, Run(g, run).bucket.updated);
  }

  // ---- conservation ----

  function TakenBy(takers: seq<Taker>): int {
    if takers == [] then 0
    else
      var t := takers[|takers| - 1];
      TakenBy(takers[..|takers| - 1]) + t.n - t.remaining
  }

  function CountedFor(takers: seq<Taker>, device: DeviceId): int {
    if takers == [] then 0
    else
      var t := takers[|takers| - 1];
      CountedFor(takers[..|takers| - 1], device) + if t.counted && t.device == device then t.n else 0
  }

  lemma {:induction false} TakenByUpdate(takers: seq<Taker>, i: nat, t: Taker)
    requires i < |takers| && t.n == takers[i].n
    ensures TakenBy(takers[i := t]) == TakenBy(takers) + takers[i].remaining - t.remaining
    decreases |takers|
  {
    var init := takers[..|takers| - 1];
    if i < |init| {
      TakenByUpdate(init, i, t);
      assert takers[i := t][..|takers| - 1] == init[i := t];
    } else {
      assert takers[i := t][..|takers| - 1] == init;
    }
  }

  lemma {:induction false} CountedForUpdate(takers: seq<Taker>, i: nat, t: Taker, device: DeviceId)
    requires i < |takers| && t.n == takers[i].n && t.device == takers[i].device && (takers[i].counted ==> t.counted)
    ensures CountedFor(takers[i := t], device) ==
            CountedFor(takers, device) + (if device == t.device && t.counted && !takers[i].counted then t.n else 0)
    decreases |takers|
  {
    var init := takers[..|takers| - 1];
    if i < |init| {
      CountedForUpdate(init, i, t, device);
      assert takers[i := t][..|takers| - 1] == init[i := t];
    } else {
      assert takers[i := t][..|takers| - 1] == init;
    }
  }

  /** The bucket counted exactly what its takers received, and a device exactly what its finished takers asked for. */
  ghost predicate Conserved(g: Gateway) {
    && g.bucket.taken == TakenBy(g.takers)
    && (forall device :: BytesOf(g.bytes, device) == CountedFor(g.takers, device))
    && (forall t :: t in g.takers ==> 0 <= t.remaining <= t.n && (t.counted ==> t.remaining == 0))
  }

  lemma StartConserves(g: Gateway, device: DeviceId, n: nat)
    requires Conserved(g)
    ensures Conserved(Apply(g, Start(device, n)))
  {
    var takers := g.takers + [Taker(device, n, n, false)];
    assert takers[..|takers| - 1] == g.takers;
  }

  lemma TurnConserves(g: Gateway, i: nat, now: real)
    requires BucketOk(g.bucket) && Conserved(g) && Enabled(g, Turn(i, now))
    ensures Conserved(Apply(g, Turn(i, now)))
  {
    var b, t := Refilled(g.bucket, now), g.takers[i];
    if b.tokens >= 1.0 {
      TurnTakes(b, t.remaining);
      var t' := t.(remaining := t.remaining - Use(b, t.remaining).Floor);
      assert t in g.takers;
      TakenByUpdate(g.takers, i, t');
      forall device ensures CountedFor(g.takers[i := t'], device) == CountedFor(g.takers, device) {
        CountedForUpdate(g.takers, i, t', device);
      }
    }
  }

  lemma FinishConserves(g: Gateway, i: nat)
    requires Conserved(g) && Enabled(g, Finish(i))
    ensures Conserved(Apply(g, Finish(i)))
  {
    var t := g.takers[i];
    var t' := t.(counted := true);
    assert t in g.takers;
    TakenByUpdate(g.takers, i, t');
    var g' := Apply(g, Finish(i));
    forall device ensures BytesOf(g'.bytes, device) == CountedFor(g'.takers, device) {
      CountedForUpdate(g.takers, i, t', device);
      assert BytesOf(g.bytes, device) == CountedFor(g.takers, device);
    }
  }

  lemma StepConserves(g: Gateway, e: Event)
    requires BucketOk(g.bucket) && Conserved(g) && Enabled(g, e)
    ensures Conserved(Apply(g, e))
  {
    match e
    case Start(device, n) => StartConserves(g, device, n);
    case Turn(i, now) => TurnConserves(g, i, now);
    case Finish(i) => FinishConserves(g, i);
  }

  lemma {:induction false} RunConserves(g: Gateway, run: seq<Event>)
    requires BucketOk(g.bucket) && Conserved(g) && ValidRun(g, run)
    ensures Conserved(Run(g, run))
    decreases |run|
  {
    if run != [] {
      StepKeepsBucket(g, run[0]);
      StepConserves(g, run[0]);
      RunConserves(Apply(g, run[0]), run[1..]);
    }
  }

  // ---- the code ----

  class Limiter {
    var rate: real
    var burst: real
    var tokens: real
    var updated: real
    var taken: int

    function Value(): Bucket
      reads this
    {
      Bucket(rate, burst, tokens, updated, taken)
    }

    /** `burst` as the caller sets it, or a quarter of a second's bytes within 16384 and 65536. */
    constructor (rate: real, now: real)
      requires rate > 0.0
      ensures BucketOk(Value()) && tokens == burst && taken == 0 && this.rate == rate && updated == now
      ensures 16384.0 <= rate / 4.0 <= 65536.0 ==> burst == rate / 4.0
      ensures rate / 4.0 < 16384.0 ==> burst == 16384.0
      ensures rate / 4.0 > 65536.0 ==> burst == 65536.0
    {
      var quarter := rate * 0.25;
      var atLeast := if quarter < 16384.0 then 16384.0 else quarter;
      var size := if atLeast > 65536.0 then 65536.0 else atLeast;
      this.rate, burst, tokens, updated, taken := rate, size, size, now, 0;
    }

    method Refill(now: real)
      modifies `tokens, `updated
      ensures Value() == Refilled(old(Value()), now) && updated == now
      ensures
        var earned := old(tokens) + rate * (now - old(updated));
        tokens == if earned > burst then burst else earned
    {
      RefillsTo(burst, tokens, rate, updated, now);
      var elapsed := now - updated;
      updated := now;
      tokens := Filled(burst, tokens, rate, elapsed);
    }

    /**
      One call of `take`, alone, with the clock readings of its turns. What it has not received yet
      it still waits for; it is done as soon as nothing remains, and the bucket counted exactly the rest.
    */
    method Take(n: nat, readings: seq<real>) returns (remaining: int)
      requires BucketOk(Value())
      requires (readings != [] ==> updated <= readings[0]) && forall i :: 0 <= i < |readings| - 1 ==> readings[i] <= readings[i + 1]
      modifies `tokens, `updated, `taken
      ensures BucketOk(Value()) && 0 <= remaining <= n
      ensures taken == old(taken) + n - remaining
      ensures remaining > 0 && readings != [] ==> updated == readings[|readings| - 1] && tokens < 1.0
      ensures (taken - old(taken)) as real + tokens <= old(tokens) + rate * (updated - old(updated))
    {
      remaining := n;
      var i := 0;
      while remaining > 0 && i < |readings|
        invariant i <= |readings| && 0 <= remaining <= n && BucketOk(Value())
        invariant taken == old(taken) + n - remaining
        invariant updated == if i == 0 then old(updated) else readings[i - 1]
        invariant i > 0 && remaining > 0 ==> tokens < 1.0
        invariant (taken - old(taken)) as real + tokens <= old(tokens) + Earned(rate, old(updated), updated)
      {
        ghost var before := updated;
        assert updated <= readings[i];
        EarnedNonnegative(rate, updated, readings[i]);
        Refill(readings[i]);
        EarnedAdds(rate, old(updated), before, updated);
        if tokens >= 1.0 {
          TurnTakes(Value(), remaining);
          var use := Min(tokens, remaining as real);
          tokens := tokens - use;
          taken := taken + use.Floor;
          remaining := remaining - use.Floor;
        }
        i := i + 1;
      }
      EarnedIsRate(rate, old(updated), updated);
    }
  }
}
