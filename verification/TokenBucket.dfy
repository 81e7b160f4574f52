/**
 The shared token bucket: one Redis hash per key, refilled lazily by the acquire script, paused by
 the pause script, and dropped by Redis 3600 s after its last write.

 Every result is about arbitrary sequences of calls by arbitrary callers at non-decreasing times.
 `expiring` selects the bucket as deployed; with `expiring` off, the key is never dropped.
 */
module TokenBucket {
  import opened Options

  const TTL: real := 3600.0

  datatype Level = Level(tokens: real, ts: real)

  /** The hash: its token fields, its pause field, and when Redis drops it. */
  datatype Bucket = Bucket(level: Option<Level>, pauseUntil: Option<real>, expiresAt: real)

  const Absent := Bucket(None, None, 0.0)

  datatype Call =
    | Acquire(capacity: real, rate: real, requested: real, now: real)
    | Pause(seconds: real, now: real)

  datatype Reply = Reply(ok: bool, waitMs: int)

  datatype Outcome = Outcome(bucket: Bucket, reply: Reply)

  /** What callers pass: times are Unix times, and only a positive rate reaches the script. */
  predicate WellFormed(call: Call) {
    call.now >= 0.0 && (call.Acquire? ==> call.rate > 0.0 && call.capacity >= 0.0 && call.requested >= 0.0)
  }

  predicate Ordered(calls: seq<Call>, from: real) {
    calls != [] ==>
      && WellFormed(calls[0])
      && from <= calls[0].now
      && Ordered(calls[1..], calls[0].now)
  }

  function MinR(a: real, b: real): real {
    if a <= b then a else b
  }

  function MaxR(a: real, b: real): real {
    if a >= b then a else b
  }

  function Ceil(x: real): (c: int)
    ensures x <= c as real < x + 1.0
  {
    if x.Floor as real == x then x.Floor else x.Floor + 1
  }

  predicate IsPaused(b: Bucket, now: real) {
    b.pauseUntil.GetOr(0.0) > now
  }

  /** The tokens a caller with this capacity and rate finds in the bucket. */
  function Available(b: Bucket, capacity: real, rate: real, now: real): real {
    var level := b.level.GetOr(Level(capacity, now));
    MinR(capacity, level.tokens + MaxR(0.0, now - level.ts) * rate)
  }

  function AcquireScript(b: Bucket, capacity: real, rate: real, requested: real, now: real): Outcome
    requires rate > 0.0
  {
    if IsPaused(b, now) then
      Outcome(b, Reply(false, Ceil((b.pauseUntil.GetOr(0.0) - now) * 1000.0)))
    else
      var tokens := Available(b, capacity, rate, now);
      if tokens < requested then
        var wait := (requested - tokens) / rate;
        Outcome(b.(level := Some(Level(tokens, now)), expiresAt := now + TTL), Reply(false, Ceil(wait * 1000.0)))
      else
        Outcome(b.(level := Some(Level(tokens - requested, now)), expiresAt := now + TTL), Reply(true, 0))
  }

  function PauseScript(b: Bucket, until: real, now: real): Outcome {
    Outcome(b.(pauseUntil := Some(until), expiresAt := now + TTL), Reply(true, 0))
  }

  /** The key as Redis sees it at a given time. */
  function Seen(b: Bucket, now: real, expiring: bool): Bucket {
    if expiring && now >= b.expiresAt then Absent else b
  }

  function Step(b: Bucket, call: Call, expiring: bool): Outcome
    requires WellFormed(call)
  {
    var seen := Seen(b, call.now, expiring);
    match call
    case Acquire(capacity, rate, requested, now) => AcquireScript(seen, capacity, rate, requested, now)
    case Pause(seconds, now) => PauseScript(seen, now + MaxR(seconds, 0.0), now)
  }

  function After(b: Bucket, calls: seq<Call>, expiring: bool): Bucket
    requires forall i | 0 <= i < |calls| :: WellFormed(calls[i])
    decreases |calls|
  {
    if calls == [] then b else After(Step(b, calls[0], expiring).bucket, calls[1..], expiring)
  }

  function Replies(b: Bucket, calls: seq<Call>, expiring: bool): (replies: seq<Reply>)
    requires forall i | 0 <= i < |calls| :: WellFormed(calls[i])
    ensures |replies| == |calls|
    decreases |calls|
  {
    if calls == [] then []
    else
      var o := Step(b, calls[0], expiring);
      [o.reply] + Replies(o.bucket, calls[1..], expiring)
  }

  lemma {:induction false} OrderedIsWellFormed(calls: seq<Call>, from: real)
    requires Ordered(calls, from)
    ensures forall i | 0 <= i < |calls| :: WellFormed(calls[i]) && from <= calls[i].now
  {
    if calls != [] {
      OrderedIsWellFormed(calls[1..], calls[0].now);
    }
  }

  /** What a call takes out of the bucket. */
  function Taken(call: Call, reply: Reply): real {
    if call.Acquire? && reply.ok then call.requested else 0.0
  }

  /** The tokens granted by calls whose time lies in the window [s, t]. */
  function GrantedIn(b: Bucket, calls: seq<Call>, expiring: bool, s: real, t: real): real
    requires forall i | 0 <= i < |calls| :: WellFormed(calls[i])
    decreases |calls|
  {
    if calls == [] then 0.0
    else
      var o := Step(b, calls[0], expiring);
      (if s <= calls[0].now <= t then Taken(calls[0], o.reply) else 0.0)
      + GrantedIn(o.bucket, calls[1..], expiring, s, t)
  }

  /** Every caller on the key stays within capacity c and rate r. */
  predicate Within(calls: seq<Call>, c: real, r: real) {
    forall i | 0 <= i < |calls| && calls[i].Acquire? :: calls[i].capacity <= c && calls[i].rate <= r
  }

  /** The stored level is within [0, c], no newer than u, and the key outlives it by the TTL. */
  predicate Sound(b: Bucket, c: real, u: real) {
    b.level.Some? ==>
      && 0.0 <= b.level.value.tokens <= c
      && b.level.value.ts <= u
      && b.level.value.ts + TTL <= b.expiresAt
  }

  // ---- Stored tokens stay in range -------------------------------------------------------

  lemma MulMonotone(x: real, a: real, b: real)
    requires 0.0 <= x && a <= b
    ensures x * a <= x * b
  {
    assert x * b - x * a == x * (b - a);
  }

  lemma StepKeepsSound(b: Bucket, call: Call, expiring: bool, c: real, u: real)
    requires WellFormed(call) && u <= call.now && Within([call], c, if call.Acquire? then call.rate else 0.0)
    requires Sound(b, c, u)
    ensures Sound(Step(b, call, expiring).bucket, c, call.now)
  {
    if call.Acquire? {
      assert [call][0].capacity <= c;
      var seen := Seen(b, call.now, expiring);
      var level := seen.level.GetOr(Level(call.capacity, call.now));
      MulMonotone(MaxR(0.0, call.now - level.ts), 0.0, call.rate);
    }
  }

  /** Over any sequence of calls the stored tokens stay in [0, c]. */
  lemma {:induction false} StoredTokensInRange(b: Bucket, calls: seq<Call>, expiring: bool, c: real, r: real, u: real)
    requires Ordered(calls, u) && Within(calls, c, r) && Sound(b, c, u)
    ensures forall i | 0 <= i < |calls| :: WellFormed(calls[i])
    ensures var level := After(b, calls, expiring).level;
            level.Some? ==> 0.0 <= level.value.tokens <= c
    decreases |calls|
  {
    OrderedIsWellFormed(calls, u);
    if calls != [] {
      assert Within([calls[0]], c, if calls[0].Acquire? then calls[0].rate else 0.0);
      StepKeepsSound(b, calls[0], expiring, c, u);
      StoredTokensInRange(Step(b, calls[0], expiring).bucket, calls[1..], expiring, c, r, calls[0].now);
    }
  }

  // ---- The rate bound --------------------------------------------------------------------

  /** The tokens that rate r refills in dt seconds. */
  function Refill(r: real, dt: real): real {
    r * dt
  }

  lemma RefillMonotone(r: real, a: real, b: real)
    requires 0.0 <= r && a <= b
    ensures Refill(r, a) <= Refill(r, b)
  {
    MulMonotone(r, a, b);
  }

  lemma RefillAdds(r: real, a: real, b: real)
    ensures Refill(r, a + b) == Refill(r, a) + Refill(r, b)
    ensures Refill(r, 0.0) == 0.0
  {
  }

  /** The most the bucket can hold at time u for callers within capacity c and rate r. */
  function Ceiling(b: Bucket, c: real, r: real, u: real): real {
    if b.level.None? then c else MinR(c, b.level.value.tokens + Refill(r, u - b.level.value.ts))
  }

  /** A key is only dropped once its bucket would have been full again. */
  lemma DroppingFreesNothing(b: Bucket, expiring: bool, c: real, r: real, u: real, v: real)
    requires Sound(b, c, u) && u <= v && 0.0 <= r && 0.0 <= c && (expiring ==> c <= Refill(r, TTL))
    ensures Sound(Seen(b, v, expiring), c, v)
    ensures Ceiling(Seen(b, v, expiring), c, r, v) <= Ceiling(b, c, r, v)
  {
    hide Refill;
    if expiring && v >= b.expiresAt && b.level.Some? {
      RefillMonotone(r, TTL, v - b.level.value.ts);
    }
  }

  lemma CeilingGrows(b: Bucket, c: real, r: real, u: real, v: real)
    requires Sound(b, c, u) && u <= v && 0.0 <= r && 0.0 <= c
    ensures 0.0 <= Ceiling(b, c, r, u) <= c
    ensures Ceiling(b, c, r, v) <= Ceiling(b, c, r, u) + Refill(r, v - u)
  {
    hide Refill;
    RefillMonotone(r, 0.0, v - u);
    RefillAdds(r, 0.0, 0.0);
    if b.level.Some? {
      var ts := b.level.value.ts;
      RefillMonotone(r, 0.0, u - ts);
      RefillAdds(r, u - ts, v - u);
      assert (u - ts) + (v - u) == v - ts;
    }
  }

  lemma AvailableIsWithinCeiling(b: Bucket, capacity: real, rate: real, c: real, r: real, now: real)
    requires 0.0 <= capacity <= c && 0.0 < rate <= r && Sound(b, c, now)
    ensures 0.0 <= Available(b, capacity, rate, now) <= Ceiling(b, c, r, now)
  {
    var level := b.level.GetOr(Level(capacity, now));
    FasterRefillsMore(now - level.ts, rate, r);
    hide Refill;
  }

  lemma FasterRefillsMore(elapsed: real, rate: real, r: real)
    requires 0.0 <= elapsed && 0.0 < rate <= r
    ensures 0.0 <= elapsed * rate <= Refill(r, elapsed)
  {
    MulMonotone(elapsed, rate, r);
    MulMonotone(elapsed, 0.0, rate);
  }

  lemma JustStored(b: Bucket, c: real, r: real, now: real)
    requires b.level.Some? && b.level.value.ts == now && b.level.value.tokens <= c
    ensures Ceiling(b, c, r, now) == b.level.value.tokens
  {
    hide Refill;
    RefillAdds(r, 0.0, 0.0);
  }

  lemma AcquirePaysFromCeiling(b: Bucket, call: Call, c: real, r: real)
    requires WellFormed(call) && call.Acquire? && call.capacity <= c && call.rate <= r
    requires Sound(b, c, call.now)
    ensures var o := AcquireScript(b, call.capacity, call.rate, call.requested, call.now);
            && Sound(o.bucket, c, call.now)
            && Taken(call, o.reply) + Ceiling(o.bucket, c, r, call.now) <= Ceiling(b, c, r, call.now)
  {
    hide Available, Refill, Ceil;
    if !IsPaused(b, call.now) {
      AvailableIsWithinCeiling(b, call.capacity, call.rate, c, r, call.now);
      JustStored(AcquireScript(b, call.capacity, call.rate, call.requested, call.now).bucket, c, r, call.now);
    }
  }

  lemma PausePaysNothing(b: Bucket, until: real, c: real, r: real, now: real)
    requires Sound(b, c, now)
    ensures Sound(PauseScript(b, until, now).bucket, c, now)
    ensures Ceiling(PauseScript(b, until, now).bucket, c, r, now) == Ceiling(b, c, r, now)
  {
    hide Refill;
  }

  lemma StepPaysFromCeiling(b: Bucket, call: Call, expiring: bool, c: real, r: real, u: real)
    requires WellFormed(call) && u <= call.now
    requires Within([call], c, r) && 0.0 <= r && 0.0 <= c && (expiring ==> c <= Refill(r, TTL))
    requires Sound(b, c, u)
    ensures var o := Step(b, call, expiring);
            && Sound(o.bucket, c, call.now)
            && Taken(call, o.reply) + Ceiling(o.bucket, c, r, call.now) <= Ceiling(b, c, r, u) + Refill(r, call.now - u)
  {
    hide AcquireScript, Available, Ceiling, Refill;
    DroppingFreesNothing(b, expiring, c, r, u, call.now);
    CeilingGrows(b, c, r, u, call.now);
    if call.Acquire? {
      assert [call][0].capacity <= c && [call][0].rate <= r;
      AcquirePaysFromCeiling(Seen(b, call.now, expiring), call, c, r);
    } else {
      PausePaysNothing(Seen(b, call.now, expiring), call.now + MaxR(call.seconds, 0.0), c, r, call.now);
    }
  }

  lemma {:induction false} BudgetBound(b: Bucket, calls: seq<Call>, expiring: bool, c: real, r: real, u: real,
      s: real, t: real)
    requires Ordered(calls, u) && Within(calls, c, r) && 0.0 <= r && 0.0 <= c && (expiring ==> c <= Refill(r, TTL))
    requires Sound(b, c, u) && s <= u <= t
    ensures forall i | 0 <= i < |calls| :: WellFormed(calls[i])
    ensures GrantedIn(b, calls, expiring, s, t) <= Ceiling(b, c, r, u) + Refill(r, t - u)
    decreases |calls|
  {
    hide Step, Ceiling, Sound, Refill;
    OrderedIsWellFormed(calls, u);
    RefillMonotone(r, 0.0, t - u);
    RefillAdds(r, 0.0, 0.0);
    CeilingGrows(b, c, r, u, u);
    if calls != [] {
      var v := calls[0].now;
      if v <= t {
        assert Within([calls[0]], c, r);
        StepPaysFromCeiling(b, calls[0], expiring, c, r, u);
        BudgetBound(Step(b, calls[0], expiring).bucket, calls[1..], expiring, c, r, v, s, t);
        RefillAdds(r, t - v, v - u);
        assert (t - v) + (v - u) == t - u;
      } else {
        NothingAfter(Step(b, calls[0], expiring).bucket, calls[1..], expiring, v, s, t);
      }
    }
  }

  lemma {:induction false} NothingAfter(b: Bucket, calls: seq<Call>, expiring: bool, u: real, s: real, t: real)
    requires Ordered(calls, u) && t < u
    ensures forall i | 0 <= i < |calls| :: WellFormed(calls[i])
    ensures GrantedIn(b, calls, expiring, s, t) == 0.0
    decreases |calls|
  {
    hide Step;
    OrderedIsWellFormed(calls, u);
    if calls != [] {
      NothingAfter(Step(b, calls[0], expiring).bucket, calls[1..], expiring, calls[0].now, s, t);
    }
  }

  lemma {:induction false} WindowBound(b: Bucket, calls: seq<Call>, expiring: bool, c: real, r: real, u: real,
      s: real, t: real)
    requires Ordered(calls, u) && Within(calls, c, r) && 0.0 <= r && 0.0 <= c && (expiring ==> c <= Refill(r, TTL))
    requires Sound(b, c, u) && s <= t
    ensures forall i | 0 <= i < |calls| :: WellFormed(calls[i])
    ensures GrantedIn(b, calls, expiring, s, t) <= c + Refill(r, t - s)
    decreases |calls|
  {
    hide Step, Ceiling, Sound, Refill;
    OrderedIsWellFormed(calls, u);
    RefillMonotone(r, 0.0, t - s);
    RefillAdds(r, 0.0, 0.0);
    if calls != [] {
      var v := calls[0].now;
      if v < s {
        assert Within([calls[0]], c, r);
        StepPaysFromCeiling(b, calls[0], expiring, c, r, u);
        WindowBound(Step(b, calls[0], expiring).bucket, calls[1..], expiring, c, r, v, s, t);
      } else if v <= t {
        var w := MaxR(u, s);
        SoundLater(b, c, u, w);
        CeilingGrows(b, c, r, w, w);
        BudgetBound(b, calls, expiring, c, r, w, s, t);
        RefillMonotone(r, t - w, t - s);
      } else {
        NothingAfter(Step(b, calls[0], expiring).bucket, calls[1..], expiring, v, s, t);
      }
    }
  }

  /**
   Rate bound: in any window [s, t], whoever calls, at most c + r * (t - s) tokens are granted.
   With key expiry this needs c <= 3600 r; `RateBoundNeedsRefill` shows that it cannot be dropped.
   */
  lemma RateBound(b: Bucket, calls: seq<Call>, expiring: bool, c: real, r: real, u: real, s: real, t: real)
    requires Ordered(calls, u) && Within(calls, c, r) && 0.0 <= r && 0.0 <= c && (expiring ==> c <= 3600.0 * r)
    requires Sound(b, c, u) && s <= t
    ensures forall i | 0 <= i < |calls| :: WellFormed(calls[i])
    ensures GrantedIn(b, calls, expiring, s, t) <= c + r * (t - s)
  {
    hide Step, Sound, GrantedIn;
    WindowBound(b, calls, expiring, c, r, u, s, t);
  }

  lemma SoundLater(b: Bucket, c: real, u: real, v: real)
    requires Sound(b, c, u) && u <= v
    ensures Sound(b, c, v)
  {
  }

  /**
   The condition of `RateBound` is exact: as soon as c > 3600 r, one caller within c and r is
   granted more than the bound, because the dropped key comes back full.
   */
  lemma RateBoundNeedsRefill(c: real, r: real) returns (calls: seq<Call>)
    requires 0.0 < r && 3600.0 * r < c
    ensures Ordered(calls, 0.0) && Within(calls, c, r) && Sound(Absent, c, 0.0)
    ensures forall i | 0 <= i < |calls| :: WellFormed(calls[i])
    ensures GrantedIn(Absent, calls, true, 0.0, 3600.0) > c + r * 3600.0
  {
    var first, second := Acquire(c, r, c, 0.0), Acquire(c, r, c, TTL);
    calls := [first, second];
    assert calls[1..] == [second] && [second][1..] == [];
    assert Ordered([second], 0.0);
    var b := Step(Absent, first, true).bucket;
    assert Available(Absent, c, r, 0.0) == c;
    assert Seen(b, TTL, true) == Absent;
    assert Available(Absent, c, r, TTL) == c;
    assert GrantedIn(b, [second], true, 0.0, TTL) == c + 0.0;
  }

  // ---- Pauses ----------------------------------------------------------------------------

  predicate NoPause(calls: seq<Call>) {
    forall i | 0 <= i < |calls| :: calls[i].Acquire?
  }

  predicate AllBefore(calls: seq<Call>, until: real) {
    forall i | 0 <= i < |calls| :: calls[i].now < until
  }

  lemma {:induction false} PausedGrantsNothing(b: Bucket, calls: seq<Call>, expiring: bool, u: real, until: real)
    requires Ordered(calls, u) && NoPause(calls) && AllBefore(calls, until)
    requires b.pauseUntil == Some(until) && (expiring ==> until <= b.expiresAt)
    ensures forall i | 0 <= i < |calls| :: WellFormed(calls[i])
    ensures forall i | 0 <= i < |calls| :: !Replies(b, calls, expiring)[i].ok
    decreases |calls|
  {
    OrderedIsWellFormed(calls, u);
    if calls != [] {
      assert calls[0].now < until;
      assert Step(b, calls[0], expiring).bucket == b;
      PausedGrantsNothing(b, calls[1..], expiring, calls[0].now, until);
    }
  }

  /** After a pause of at most 3600 s nothing is granted before its end, unless another pause is set. */
  lemma {:induction false} PauseHolds(b: Bucket, seconds: real, now: real, calls: seq<Call>, expiring: bool)
    requires now >= 0.0 && Ordered(calls, now) && NoPause(calls)
    requires AllBefore(calls, now + MaxR(seconds, 0.0)) && (expiring ==> seconds <= 3600.0)
    ensures forall i | 0 <= i < |calls| :: WellFormed(calls[i])
    ensures var paused := Step(b, Pause(seconds, now), expiring).bucket;
            forall i | 0 <= i < |calls| :: !Replies(paused, calls, expiring)[i].ok
  {
    var paused := Step(b, Pause(seconds, now), expiring).bucket;
    PausedGrantsNothing(paused, calls, expiring, now, now + MaxR(seconds, 0.0));
  }

  /** A pause longer than 3600 s is cut short: the key is dropped and with it the pause. */
  lemma LongPauseIsForgotten(b: Bucket, seconds: real, now: real, capacity: real, rate: real)
    requires now >= 0.0 && seconds > 3600.0 && rate > 0.0 && capacity >= 0.0
    ensures var paused := Step(b, Pause(seconds, now), true).bucket;
            Step(paused, Acquire(capacity, rate, capacity, now + 3600.0), true).reply.ok
  {
    var paused := Step(b, Pause(seconds, now), true).bucket;
    assert Seen(paused, now + TTL, true) == Absent;
    assert Available(Absent, capacity, rate, now + TTL) == capacity;
  }

  // ---- Key expiry ------------------------------------------------------------------------

  /** Callers refill within the TTL, and pauses end within it. */
  predicate Bearable(calls: seq<Call>) {
    forall i | 0 <= i < |calls| ::
      if calls[i].Acquire? then calls[i].capacity <= TTL * calls[i].rate else calls[i].seconds <= TTL
  }

  /** The expiring bucket a and the everlasting bucket b, as callers at time u or later see them. */
  predicate Indistinguishable(a: Bucket, b: Bucket, u: real) {
    && (a.level.Some? ==> 0.0 <= a.level.value.tokens && a.level.value.ts <= u && a.level.value.ts + TTL <= a.expiresAt)
    && a.pauseUntil.GetOr(0.0) <= MaxR(u, a.expiresAt)
    && (a.level == b.level ||
        (a.level.None? && b.level.Some? && 0.0 <= b.level.value.tokens && b.level.value.ts + TTL <= u))
    && (a.pauseUntil == b.pauseUntil || (a.pauseUntil.GetOr(0.0) <= u && b.pauseUntil.GetOr(0.0) <= u))
  }

  lemma SeenStaysIndistinguishable(a: Bucket, b: Bucket, u: real, v: real)
    requires Indistinguishable(a, b, u) && 0.0 <= u <= v
    ensures Indistinguishable(Seen(a, v, true), b, v)
    ensures Seen(a, v, true).pauseUntil.GetOr(0.0) > v ==> Seen(a, v, true).pauseUntil == b.pauseUntil
  {
  }

  /** A caller that refills within the TTL finds the same tokens in both. */
  lemma SameAvailable(a: Bucket, b: Bucket, capacity: real, rate: real, now: real)
    requires 0.0 <= capacity <= TTL * rate && 0.0 < rate && Indistinguishable(a, b, now)
    ensures Available(a, capacity, rate, now) == Available(b, capacity, rate, now) >= 0.0
  {
    if a.level != b.level {
      var elapsed := now - b.level.value.ts;
      MulMonotone(rate, TTL, elapsed);
      assert elapsed * rate == rate * elapsed >= TTL * rate;
      assert MinR(capacity, b.level.value.tokens + elapsed * rate) == capacity;
    } else if a.level.Some? {
      MulMonotone(rate, 0.0, MaxR(0.0, now - a.level.value.ts));
      assert MaxR(0.0, now - a.level.value.ts) * rate == rate * MaxR(0.0, now - a.level.value.ts);
    }
  }

  lemma AcquireStaysIndistinguishable(a: Bucket, b: Bucket, call: Call)
    requires WellFormed(call) && call.Acquire? && call.capacity <= TTL * call.rate
    requires Indistinguishable(a, b, call.now)
    requires a.pauseUntil.GetOr(0.0) > call.now ==> a.pauseUntil == b.pauseUntil
    ensures var o := AcquireScript(a, call.capacity, call.rate, call.requested, call.now);
            var p := AcquireScript(b, call.capacity, call.rate, call.requested, call.now);
            o.reply == p.reply && Indistinguishable(o.bucket, p.bucket, call.now)
  {
    assert IsPaused(a, call.now) <==> IsPaused(b, call.now);
    if !IsPaused(a, call.now) {
      SameAvailable(a, b, call.capacity, call.rate, call.now);
    }
  }

  lemma StepStaysIndistinguishable(a: Bucket, b: Bucket, call: Call, u: real)
    requires WellFormed(call) && 0.0 <= u <= call.now && Bearable([call])
    requires Indistinguishable(a, b, u)
    ensures Step(a, call, true).reply == Step(b, call, false).reply
    ensures Indistinguishable(Step(a, call, true).bucket, Step(b, call, false).bucket, call.now)
  {
    SeenStaysIndistinguishable(a, b, u, call.now);
    if call.Acquire? {
      assert [call][0].capacity <= TTL * [call][0].rate;
      AcquireStaysIndistinguishable(Seen(a, call.now, true), b, call);
    } else {
      assert [call][0].seconds <= TTL;
    }
  }

  /**
   Key expiry is invisible: the deployed bucket and one that is never dropped give the same
   replies, wait quotes included, whenever each caller's capacity is at most 3600 times its rate
   and no pause is longer than 3600 s.
   */
  lemma {:induction false} ExpiryIsInvisible(a: Bucket, b: Bucket, calls: seq<Call>, u: real)
    requires 0.0 <= u && Ordered(calls, u) && Bearable(calls) && Indistinguishable(a, b, u)
    ensures forall i | 0 <= i < |calls| :: WellFormed(calls[i])
    ensures Replies(a, calls, true) == Replies(b, calls, false)
    decreases |calls|
  {
    OrderedIsWellFormed(calls, u);
    if calls != [] {
      assert Bearable([calls[0]]);
      StepStaysIndistinguishable(a, b, calls[0], u);
      ExpiryIsInvisible(Step(a, calls[0], true).bucket, Step(b, calls[0], false).bucket, calls[1..], calls[0].now);
    }
  }

  /** The condition is exact: for any caller that does not refill within the TTL, two calls tell. */
  lemma ExpiryShows(capacity: real, rate: real)
    requires 0.0 < rate && 3600.0 * rate < capacity
    ensures var calls := [Acquire(capacity, rate, capacity, 0.0), Acquire(capacity, rate, capacity, 3600.0)];
            Ordered(calls, 0.0) && Replies(Absent, calls, true) != Replies(Absent, calls, false)
  {
    var first, second := Acquire(capacity, rate, capacity, 0.0), Acquire(capacity, rate, capacity, TTL);
    var calls := [first, second];
    assert calls[1..] == [second] && [second][1..] == [];
    assert Ordered([second], 0.0);
    assert Available(Absent, capacity, rate, 0.0) == capacity;
    assert Available(Absent, capacity, rate, TTL) == capacity;
    var b := Step(Absent, first, true).bucket;
    assert b == Step(Absent, first, false).bucket == Bucket(Some(Level(0.0, 0.0)), None, TTL);
    assert Available(b, capacity, rate, TTL) == TTL * rate;
    assert Replies(b, [second], true)[0].ok && !Replies(b, [second], false)[0].ok;
    assert Replies(Absent, calls, true)[1] != Replies(Absent, calls, false)[1];
  }

  // ---- Wait quotes -----------------------------------------------------------------------

  /**
   A request no larger than the capacity, refused for lack of tokens at `now`, and retried d
   seconds later with no call in between, is granted exactly when d has reached need / rate (or
   the key has been dropped meanwhile). The quoted wait has, and is less than a millisecond more.
   */
  lemma QuoteIsTight(b: Bucket, capacity: real, rate: real, requested: real, now: real, d: real, expiring: bool)
    requires 0.0 <= now && 0.0 < rate && 0.0 <= requested <= capacity && 0.0 <= d
    requires b.level.Some? ==> b.level.value.ts <= now
    requires var seen := Seen(b, now, expiring);
             !IsPaused(seen, now) && Available(seen, capacity, rate, now) < requested
    ensures var seen := Seen(b, now, expiring);
            var refused := Step(b, Acquire(capacity, rate, requested, now), expiring);
            var need := requested - Available(seen, capacity, rate, now);
            var retry := Step(refused.bucket, Acquire(capacity, rate, requested, now + d), expiring);
            && !refused.reply.ok
            && (retry.reply.ok <==> d >= need / rate || (expiring && d >= 3600.0))
            && need / rate <= refused.reply.waitMs as real / 1000.0 < need / rate + 0.001
  {
    var seen := Seen(b, now, expiring);
    var tokens := Available(seen, capacity, rate, now);
    var need := requested - tokens;
    var refused := Step(b, Acquire(capacity, rate, requested, now), expiring);
    assert refused.bucket.level == Some(Level(tokens, now));
    var again := Seen(refused.bucket, now + d, expiring);
    assert !IsPaused(again, now + d);
    if !(expiring && d >= TTL) {
      assert again == refused.bucket;
      assert Available(again, capacity, rate, now + d) == MinR(capacity, tokens + d * rate);
      DivisionThreshold(need, rate, d);
    } else {
      assert Available(again, capacity, rate, now + d) == capacity;
    }
  }

  lemma DivisionThreshold(need: real, rate: real, d: real)
    requires 0.0 < rate
    ensures d >= need / rate <==> d * rate >= need
  {
    var q := need / rate;
    assert q * rate == need;
    if d >= q {
      MulMonotone(rate, q, d);
    } else {
      assert (q - d) * rate > 0.0;
    }
  }

  /** A request larger than the capacity is never granted. */
  lemma OversizedIsRefused(b: Bucket, capacity: real, rate: real, requested: real, now: real, expiring: bool)
    requires 0.0 <= now && 0.0 < rate && 0.0 <= capacity < requested
    ensures !Step(b, Acquire(capacity, rate, requested, now), expiring).reply.ok
  {
  }
}
