/**
  The failed-attempt limiter of the sign-in endpoints (server/app/ratelimit.py): lazily pruned
  queues of failure times, against the full history since the last clear.
*/
module FailureLimiter {
  const WINDOW_SECONDS := 900.0
  const MAX_FAILURES_PER_IP := 10
  const MAX_FAILURES_PER_ACCOUNT := 20

  /** A key may fail fewer than `max` times inside the window. */
  datatype Limit = Limit(key: string, max: nat)

  // ---- the reference: counting the whole history ----

  predicate Live(window: real, t: real, now: real) {
    now - t < window
  }

  function LiveCount(window: real, times: seq<real>, now: real): nat {
    if times == [] then 0
    else (if Live(window, times[0], now) then 1 else 0) + LiveCount(window, times[1..], now)
  }

  /** The places from `from` on of the failures inside the window. */
  ghost function Inside(window: real, times: seq<real>, from: nat, now: real): set<nat> {
    set i | from <= i < |times| && now - times[i] < window
  }

  lemma {:induction false} LiveCountFrom(window: real, times: seq<real>, from: nat, now: real)
    requires from <= |times|
    ensures LiveCount(window, times[from..], now) == |Inside(window, times, from, now)|
    decreases |times| - from
  {
    var here := Inside(window, times, from, now);
    if from < |times| {
      var next := Inside(window, times, from + 1, now);
      LiveCountFrom(window, times, from + 1, now);
      assert times[from..][1..] == times[from + 1..];
      assert here == if now - times[from] < window then next + {from} else next;
    } else {
      assert here == {};
    }
  }

  /** The failures less than a window ago, counted by their places. */
  lemma LiveCountExactly(window: real, times: seq<real>, now: real)
    ensures LiveCount(window, times, now) == |set i | 0 <= i < |times| && now - times[i] < window|
  {
    LiveCountFrom(window, times, 0, now);
    assert times[0..] == times;
    assert Inside(window, times, 0, now) == set i | 0 <= i < |times| && now - times[i] < window;
  }

  predicate Rising(times: seq<real>) {
    forall i, k :: 0 <= i < k < |times| ==> times[i] <= times[k]
  }

  function Of(history: map<string, seq<real>>, key: string): seq<real> {
    if key in history then history[key] else []
  }

  /** Every key is below its limit. */
  predicate AllFree(window: real, history: map<string, seq<real>>, limits: seq<Limit>, now: real) {
    forall i :: 0 <= i < |limits| ==> LiveCount(window, Of(history, limits[i].key), now) < limits[i].max
  }

  /** Free once `delay` has passed with no further failure. */
  predicate FreeAfter(window: real, history: map<string, seq<real>>, limits: seq<Limit>, now: real, delay: real) {
    AllFree(window, history, limits, now + delay)
  }

  lemma {:induction false} LiveAll(window: real, times: seq<real>, now: real)
    requires forall i :: 0 <= i < |times| ==> Live(window, times[i], now)
    ensures LiveCount(window, times, now) == |times|
    decreases |times|
  {
    if times != [] { LiveAll(window, times[1..], now); }
  }

  lemma {:induction false} LiveSplit(window: real, times: seq<real>, k: nat, now: real)
    requires k <= |times| && forall i :: 0 <= i < k ==> !Live(window, times[i], now)
    ensures LiveCount(window, times, now) == LiveCount(window, times[k..], now)
    decreases k
  {
    if k > 0 {
      LiveSplit(window, times[1..], k - 1, now);
      assert times[1..][k - 1..] == times[k..];
    }
  }

  lemma {:induction false} LiveAtMost(window: real, times: seq<real>, now: real)
    ensures LiveCount(window, times, now) <= |times|
    decreases |times|
  {
    if times != [] { LiveAtMost(window, times[1..], now); }
  }

  lemma {:induction false} LiveSuffix(window: real, times: seq<real>, k: nat, now: real)
    requires k <= |times|
    ensures LiveCount(window, times, now) >= LiveCount(window, times[k..], now)
    decreases k
  {
    if k > 0 {
      LiveSuffix(window, times[1..], k - 1, now);
      assert times[1..][k - 1..] == times[k..];
    }
  }

  /** A key below its limit stays below it, without further failures. */
  lemma {:induction false} LiveFalls(window: real, times: seq<real>, now: real, later: real)
    requires now <= later
    ensures LiveCount(window, times, later) <= LiveCount(window, times, now)
    decreases |times|
  {
    if times != [] { LiveFalls(window, times[1..], now, later); }
  }

  // ---- the pruned queue ----

  predicate Gone(window: real, times: seq<real>, k: nat, now: real) {
    k <= |times| && forall i :: 0 <= i < k ==> !Live(window, times[i], now)
  }

  predicate UpTo(times: seq<real>, now: real) {
    forall i :: 0 <= i < |times| ==> times[i] <= now
  }

  /** The queue is the history without its first `k` failures, which have left the window for good. */
  predicate KeyOk(window: real, q: seq<real>, times: seq<real>, k: nat, now: real) {
    Rising(times) && UpTo(times, now) && Gone(window, times, k, now) && q == times[k..]
  }

  lemma LaterKeyOk(window: real, q: seq<real>, times: seq<real>, k: nat, now: real, later: real)
    requires KeyOk(window, q, times, k, now) && now <= later
    ensures KeyOk(window, q, times, k, later)
  {
  }

  lemma FailedKeyOk(window: real, q: seq<real>, times: seq<real>, k: nat, now: real)
    requires KeyOk(window, q, times, k, now)
    ensures KeyOk(window, q + [now], times + [now], k, now)
  {
    assert (times + [now])[k..] == times[k..] + [now];
  }

  /** Popping what left the window keeps the queue a tail, and what is left is exactly what counts. */
  lemma PrunedKeyOk(window: real, q: seq<real>, times: seq<real>, k: nat, c: nat, now: real)
    requires KeyOk(window, q, times, k, now) && Gone(window, q, c, now) && (c < |q| ==> Live(window, q[c], now))
    ensures KeyOk(window, q[c..], times, k + c, now)
    ensures |q| - c == LiveCount(window, times, now)
  {
    assert q[c..] == times[k + c..];
    assert forall i :: 0 <= i < |q| ==> q[i] == times[k + i];
    forall i | 0 <= i < k + c ensures !Live(window, times[i], now) {
      if i >= k { assert times[i] == q[i - k]; }
    }
    LiveSplit(window, times, k + c, now);
    forall i | 0 <= i < |q[c..]| ensures Live(window, q[c..][i], now) {
      assert q[c] <= q[c + i];
    }
    LiveAll(window, q[c..], now);
  }

  /** The failure that has to leave the window for a queue of live failures to fall below its limit. */
  function OwnDelay(window: real, q: seq<real>, max: nat, now: real): real
    requires 1 <= max <= |q|
  {
    window - (now - q[|q| - max])
  }

  lemma FreeFromThen(window: real, q: seq<real>, max: nat, now: real, delay: real)
    requires Rising(q) && 1 <= max <= |q| && delay >= OwnDelay(window, q, max, now)
    ensures LiveCount(window, q, now + delay) < max
  {
    var first := |q| - max + 1;
    LiveSplit(window, q, first, now + delay);
    LiveAtMost(window, q[first..], now + delay);
  }

  lemma NotFreeBefore(window: real, q: seq<real>, max: nat, now: real, delay: real)
    requires Rising(q) && 1 <= max <= |q| && delay < OwnDelay(window, q, max, now)
    ensures LiveCount(window, q, now + delay) >= max
  {
    var first := |q| - max;
    LiveSuffix(window, q, first, now + delay);
    forall i | 0 <= i < max ensures Live(window, q[first..][i], now + delay) {
      assert q[first] <= q[first + i];
    }
    LiveAll(window, q[first..], now + delay);
  }

  /** A key at its limit is free again after its delay, and not a moment earlier. */
  lemma DelayIsLeast(window: real, q: seq<real>, times: seq<real>, k: nat, max: nat, now: real, delay: real)
    requires KeyOk(window, q, times, k, now) && 1 <= max <= |q| && delay >= 0.0
    ensures LiveCount(window, times, now + delay) < max <==> delay >= OwnDelay(window, q, max, now)
  {
    LiveSplit(window, times, k, now + delay);
    assert Rising(q) by { assert forall i :: 0 <= i < |q| ==> q[i] == times[k + i]; }
    if delay >= OwnDelay(window, q, max, now) {
      FreeFromThen(window, q, max, now, delay);
    } else {
      NotFreeBefore(window, q, max, now, delay);
    }
  }

  lemma AllFreeStep(window: real, history: map<string, seq<real>>, limits: seq<Limit>, i: nat, at: real)
    requires i < |limits|
    ensures AllFree(window, history, limits[..i + 1], at) <==>
            (AllFree(window, history, limits[..i], at) && LiveCount(window, Of(history, limits[i].key), at) < limits[i].max)
  {
    var before, after := limits[..i], limits[..i + 1];
    assert forall k :: 0 <= k < i ==> before[k] == after[k];
    assert after[i] == limits[i];
  }

  /** The least time after which every key is free. */
  ghost predicate LeastDelay(window: real, history: map<string, seq<real>>, limits: seq<Limit>, now: real, wait: real) {
    wait >= 0.0 && forall delay :: delay >= 0.0 ==> (FreeAfter(window, history, limits, now, delay) <==> delay >= wait)
  }

  lemma LongerDelay(window: real, history: map<string, seq<real>>, limits: seq<Limit>, i: nat, q: seq<real>,
      k: nat, now: real, longest: real)
    requires i < |limits| && limits[i].max >= 1 && LeastDelay(window, history, limits[..i], now, longest)
    requires KeyOk(window, q, Of(history, limits[i].key), k, now) && |q| == LiveCount(window, Of(history, limits[i].key), now)
    ensures
      var own := if |q| >= limits[i].max then OwnDelay(window, q, limits[i].max, now) else 0.0;
      LeastDelay(window, history, limits[..i + 1], now, if own > longest then own else longest)
  {
    var l, upto := limits[i], limits[..i + 1];
    var own := if |q| >= l.max then OwnDelay(window, q, l.max, now) else 0.0;
    var longer := if own > longest then own else longest;
    forall delay | delay >= 0.0 ensures FreeAfter(window, history, upto, now, delay) <==> delay >= longer {
      AllFreeStep(window, history, limits, i, now + delay);
      assert FreeAfter(window, history, limits[..i], now, delay) <==> delay >= longest;
      if |q| >= l.max {
        DelayIsLeast(window, q, Of(history, l.key), k, l.max, now, delay);
      } else {
        LiveFalls(window, Of(history, l.key), now, now + delay);
      }
    }
  }

  function Ceil(x: real): int {
    -((-x).Floor)
  }

  /** Waiting the rounded time is enough, and less than a second too long. */
  lemma CeilIsEnough(x: real)
    ensures x <= Ceil(x) as real < x + 1.0
  {
  }

  /** One failure for every time the key is named. */
  function Repeated(keys: seq<string>, key: string, now: real): seq<real> {
    if keys == [] then []
    else Repeated(keys[..|keys| - 1], key, now) + if keys[|keys| - 1] == key then [now] else []
  }

  /** As many failures as the key is named, all of them now. */
  lemma {:induction false} RepeatedExactly(keys: seq<string>, key: string, now: real)
    ensures |Repeated(keys, key, now)| == multiset(keys)[key]
    ensures forall t :: t in Repeated(keys, key, now) ==> t == now
    decreases |keys|
  {
    if keys != [] {
      RepeatedExactly(keys[..|keys| - 1], key, now);
      assert keys == keys[..|keys| - 1] + [keys[|keys| - 1]];
    }
  }

  /** One failure of the next key, and no other key's history changes. */
  lemma FailedOnce(start: map<string, seq<real>>, before: map<string, seq<real>>, after: map<string, seq<real>>,
      keys: seq<string>, i: nat, now: real)
    requires i < |keys| && after == before[keys[i] := Of(before, keys[i]) + [now]]
    requires forall key :: Of(before, key) == Of(start, key) + Repeated(keys[..i], key, now)
    ensures forall key :: Of(after, key) == Of(start, key) + Repeated(keys[..i + 1], key, now)
  {
    assert keys[..i + 1][..i] == keys[..i];
    forall key ensures Of(after, key) == Of(start, key) + Repeated(keys[..i + 1], key, now) {
      assert Of(after, key) == Of(before, key) + if key == keys[i] then [now] else [];
    }
  }

  /** `account` in lower case. */
  function Keys(kind: string, ip: string, account: string): (limits: seq<Limit>)
    ensures forall l :: l in limits ==> l.max >= 1
    ensures |limits| == if account == "" then 1 else 2
  {
    [Limit(kind + ":ip:" + if ip == "" then "?" else ip, MAX_FAILURES_PER_IP)]
    + if account == "" then [] else [Limit(kind + ":account:" + account, MAX_FAILURES_PER_ACCOUNT)]
  }

  // ---- the code ----

  class Limiter {
    const window: real
    var failures: map<string, seq<real>>
    /** Every failure of a key since it was last cleared, and how many of them its queue has lost. */
    ghost var history: map<string, seq<real>>
    ghost var lost: map<string, nat>
    ghost var clock: real

    ghost predicate Valid()
      reads this
    {
      forall key :: ValidKey(key)
    }

    ghost predicate ValidKey(key: string)
      reads this
    {
      KeyOk(window, Of(failures, key), Of(history, key), if key in lost then lost[key] else 0, clock)
    }

    constructor (window: real, now: real)
      ensures Valid() && this.window == window && clock == now && history == map[]
    {
      this.window := window;
      failures, history, lost, clock := map[], map[], map[], now;
    }

    ghost method Advance(now: real)
      requires Valid() && clock <= now
      modifies `clock
      ensures Valid() && clock == now
    {
      var earlier := clock;
      clock := now;
      forall key ensures ValidKey(key) {
        assert old(ValidKey(key));
        LaterKeyOk(window, Of(failures, key), Of(history, key), if key in lost then lost[key] else 0, earlier, now);
      }
    }

    /** The key's queue without what left the window; an empty queue is dropped. */
    method Recent(key: string, now: real) returns (q: seq<real>)
      requires Valid() && clock == now
      modifies `failures, `lost
      ensures Valid() && q == Of(failures, key) && |q| == LiveCount(window, Of(history, key), now)
    {
      assert ValidKey(key);
      ghost var start, k, c := Of(failures, key), if key in lost then lost[key] else 0, 0;
      q := Of(failures, key);
      while q != [] && !Live(window, q[0], now)
        invariant c <= |start| && q == start[c..] && Gone(window, start, c, now)
      {
        q := q[1..];
        c := c + 1;
      }
      PrunedKeyOk(window, start, Of(history, key), k, c, now);
      Replace(key, q, k + c);
    }

    method Replace(key: string, q: seq<real>, ghost dropped: nat)
      requires Valid() && KeyOk(window, q, Of(history, key), dropped, clock)
      modifies `failures, `lost
      ensures Valid() && Of(failures, key) == q
    {
      failures := if q == [] then failures - {key} else failures[key := q];
      lost := lost[key := dropped];
      forall other ensures ValidKey(other) {
        assert other != key ==> old(ValidKey(other));
      }
    }

    /**
      0 exactly when every key is below its limit; otherwise the least delay after which that becomes
      true with no further failures, rounded up.
    */
    method RetryAfter(limits: seq<Limit>, now: real) returns (seconds: int, ghost wait: real)
      requires Valid() && clock <= now && forall l :: l in limits ==> l.max >= 1
      modifies `failures, `lost, `clock
      ensures Valid() && clock == now
      ensures LeastDelay(window, history, limits, now, wait)
      ensures seconds == Ceil(wait) && wait <= seconds as real < wait + 1.0
      ensures seconds == 0 <==> AllFree(window, history, limits, now)
      ensures FreeAfter(window, history, limits, now, seconds as real)
    {
      Advance(now);
      var longest := 0.0;
      for i := 0 to |limits|
        invariant Valid() && clock == now && LeastDelay(window, history, limits[..i], now, longest)
      {
        longest := Lengthen(limits, i, longest, now);
      }
      assert limits[..|limits|] == limits;
      wait := longest;
      seconds := if longest > 0.0 then Ceil(longest) else 0;
      CeilIsEnough(longest);
      assert FreeAfter(window, history, limits, now, 0.0) <==> AllFree(window, history, limits, now);
    }

    /** `check`: the attempt is let through exactly when its address and its account are below their limits. */
    method Check(kind: string, ip: string, account: string, now: real) returns (allowed: bool)
      requires Valid() && clock <= now
      modifies `failures, `lost, `clock
      ensures Valid() && clock == now
      ensures
        var byIp, byAccount := kind + ":ip:" + (if ip == "" then "?" else ip), kind + ":account:" + account;
        allowed <==>
        && LiveCount(window, Of(history, byIp), now) < 10
        && (account != "" ==> LiveCount(window, Of(history, byAccount), now) < 20)
    {
      ghost var wait;
      var seconds;
      seconds, wait := RetryAfter(Keys(kind, ip, account), now);
      allowed := seconds == 0;
      ghost var limits := Keys(kind, ip, account);
      assert limits[0].key == kind + ":ip:" + (if ip == "" then "?" else ip) && limits[0].max == 10;
      assert account != "" ==> limits[1].key == kind + ":account:" + account && limits[1].max == 20;
    }

    /** One key's turn in the loop. */
    method Lengthen(limits: seq<Limit>, i: nat, longest: real, now: real) returns (longer: real)
      requires Valid() && clock == now && i < |limits| && limits[i].max >= 1
      requires LeastDelay(window, history, limits[..i], now, longest)
      modifies `failures, `lost
      ensures Valid() && LeastDelay(window, history, limits[..i + 1], now, longer)
    {
      var l := limits[i];
      var q := Recent(l.key, now);
      assert ValidKey(l.key);
      ghost var k := if l.key in lost then lost[l.key] else 0;
      longer := longest;
      if |q| >= l.max {
        var own := window - (now - q[|q| - l.max]);
        if own > longest { longer := own; }
      }
      LongerDelay(window, history, limits, i, q, k, now, longest);
    }

    method Add(key: string, now: real)
      requires Valid() && clock == now
      modifies `failures, `history
      ensures Valid() && history == old(history)[key := old(Of(history, key)) + [now]]
    {
      assert ValidKey(key);
      var q := Of(failures, key);
      ghost var times := Of(history, key);
      FailedKeyOk(window, q, times, if key in lost then lost[key] else 0, now);
      failures := failures[key := q + [now]];
      history := history[key := times + [now]];
      forall other ensures ValidKey(other) {
        if other == key {
          assert Of(failures, key) == q + [now] && Of(history, key) == times + [now];
        } else {
          assert old(ValidKey(other));
        }
      }
    }

    method Fail(keys: seq<string>, now: real)
      requires Valid() && clock <= now
      modifies `failures, `history, `clock
      ensures Valid() && clock == now
      ensures forall key :: Of(history, key) == old(Of(history, key)) + Repeated(keys, key, now)
    {
      ghost var start := history;
      Advance(now);
      for i := 0 to |keys|
        invariant Valid() && clock == now
        invariant forall key :: Of(history, key) == Of(start, key) + Repeated(keys[..i], key, now)
      {
        ghost var before := history;
        Add(keys[i], now);
        FailedOnce(start, before, history, keys, i, now);
      }
      assert keys[..|keys|] == keys;
    }

    method Clear(keys: seq<string>)
      requires Valid()
      modifies `failures, `history, `lost
      ensures Valid()
      ensures forall key :: Of(history, key) == if key in keys then [] else old(Of(history, key))
    {
      for i := 0 to |keys|
        invariant Valid()
        invariant forall key :: Of(history, key) == if key in keys[..i] then [] else old(Of(history, key))
      {
        assert keys[..i + 1] == keys[..i] + [keys[i]];
        Forget(keys[i]);
      }
      assert keys[..|keys|] == keys;
    }

    method Forget(key: string)
      requires Valid()
      modifies `failures, `history, `lost
      ensures Valid() && history == old(history) - {key}
    {
      failures := failures - {key};
      history := history - {key};
      lost := lost - {key};
      forall other ensures ValidKey(other) {
        assert other != key ==> old(ValidKey(other));
      }
    }
  }
}
