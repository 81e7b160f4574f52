/**
 The bucket as a Redis hash that the scripts read and overwrite, and the client's acquire loop
 against its deadline, with other clients calling the scripts in between.
 */
module RateLimiter {
  import opened Options
  import opened TokenBucket

  const MIN_NAP: real := 0.01
  const MAX_NAP: real := 1.0

  /** One sleep of the acquire loop: when it starts on the monotonic clock, the wait, and its length. */
  datatype Nap = Nap(start: real, wait: real, length: real)

  datatype Result = Proceed | TimedOut

  /**
   What an acquire call meets: the wall-clock reading at each of its script calls, how long each of
   them takes, how much later than asked each sleep ends, and the calls that other clients make
   before each script call.
   */
  datatype Surroundings = Surroundings(wall: nat -> real, latency: nat -> real, lag: nat -> real,
      others: nat -> seq<Call>) {
    ghost predicate Valid() {
      && (forall k: nat :: wall(k) >= 0.0)
      && (forall k: nat :: latency(k) >= 0.0 && lag(k) >= 0.0)
      && (forall k: nat, i: nat | i < |others(k)| :: WellFormed(others(k)[i]))
    }
  }

  /** What one client asks for. */
  datatype Request = Request(capacity: real, rate: real, requested: real) {
    predicate Valid() {
      rate > 0.0 && capacity >= 0.0 && requested >= 0.0
    }
  }

  /** The outcome of the k-th script call of an acquire that starts on bucket b. */
  ghost function Attempt(b: Bucket, own: Request, env: Surroundings, k: nat): Outcome
    requires env.Valid() && own.Valid()
  {
    var before := if k == 0 then b else Attempt(b, own, env, k - 1).bucket;
    Step(After(before, env.others(k), true), Call.Acquire(own.capacity, own.rate, own.requested, env.wall(k)), true)
  }

  lemma AttemptUnfolds(b: Bucket, own: Request, env: Surroundings, k: nat)
    requires env.Valid() && own.Valid()
    ensures var before := if k == 0 then b else Attempt(b, own, env, k - 1).bucket;
            var call := Call.Acquire(own.capacity, own.rate, own.requested, env.wall(k));
            WellFormed(call) && Attempt(b, own, env, k) == Step(After(before, env.others(k), true), call, true)
  {
    hide Step, After;
  }

  lemma OversizedAttempt(b: Bucket, own: Request, env: Surroundings, k: nat)
    requires env.Valid() && own.Valid()
    ensures own.requested > own.capacity ==> !Attempt(b, own, env, k).reply.ok
  {
    hide After, Attempt, Step;
    AttemptUnfolds(b, own, env, k);
    if own.requested > own.capacity {
      var before := if k == 0 then b else Attempt(b, own, env, k - 1).bucket;
      OversizedIsRefused(After(before, env.others(k), true), own.capacity, own.rate, own.requested, env.wall(k), true);
    }
  }

  function WaitSeconds(waitMs: int): real {
    MaxR(waitMs as real / 1000.0, MIN_NAP)
  }

  /** Each sleep is for what the refusal before it quoted, at least 10 ms and at most 1 s. */
  ghost predicate AsQuoted(b: Bucket, own: Request, env: Surroundings, naps: seq<Nap>)
    requires env.Valid() && own.Valid()
  {
    forall k | 0 <= k < |naps| ::
      var quoted := Attempt(b, own, env, k).reply.waitMs as real / 1000.0;
      && naps[k].wait == (if quoted >= 0.01 then quoted else 0.01)
      && naps[k].length == (if naps[k].wait <= 1.0 then naps[k].wait else 1.0)
  }

  /** Each sleep is over before any later one starts, and before the call ends. */
  predicate InTurn(naps: seq<Nap>, finished: real) {
    && (forall j, k | 0 <= j < k < |naps| :: naps[j].start + naps[j].length <= naps[k].start)
    && (forall k | 0 <= k < |naps| :: naps[k].start + naps[k].length <= finished)
  }

  lemma NoNaps(b: Bucket, own: Request, env: Surroundings, finished: real)
    ensures env.Valid() && own.Valid() ==> AsQuoted(b, own, env, [])
    ensures InTurn([], finished)
  {
  }

  lemma OneMoreNap(b: Bucket, own: Request, env: Surroundings, naps: seq<Nap>, nap: Nap)
    requires env.Valid() && own.Valid() && AsQuoted(b, own, env, naps)
    requires nap.wait == WaitSeconds(Attempt(b, own, env, |naps|).reply.waitMs) && nap.length == MinR(nap.wait, MAX_NAP)
    ensures AsQuoted(b, own, env, naps + [nap])
  {
    hide Attempt;
  }

  lemma StillInTurn(naps: seq<Nap>, before: real, nap: Nap, after: real)
    requires InTurn(naps, before) && before <= nap.start && 0.0 <= nap.length && nap.start + nap.length <= after
    ensures InTurn(naps + [nap], after)
  {
  }

  lemma InTurnLater(naps: seq<Nap>, before: real, after: real)
    requires InTurn(naps, before) && before <= after
    ensures InTurn(naps, after)
  {
  }

  class SharedBucket {
    var tokens: Option<real>
    var ts: Option<real>
    var pauseUntil: Option<real>
    var expiresAt: real

    constructor ()
      ensures Valid() && View() == Absent
    {
      tokens, ts, pauseUntil, expiresAt := None, None, None, 0.0;
    }

    /** The scripts write the two token fields together. */
    ghost predicate Valid()
      reads this
    {
      tokens.Some? <==> ts.Some?
    }

    ghost function View(): Bucket
      requires Valid()
      reads this
    {
      Bucket(if tokens.Some? then Some(Level(tokens.value, ts.value)) else None, pauseUntil, expiresAt)
    }

    /** Redis drops the whole hash at its expiry time. */
    method Expire(now: real)
      requires Valid()
      modifies this
      ensures Valid() && View() == Seen(old(View()), now, true)
    {
      if now >= expiresAt {
        tokens, ts, pauseUntil, expiresAt := None, None, None, 0.0;
      }
    }

    method AcquireTokens(capacity: real, rate: real, requested: real, now: real) returns (ok: bool, waitMs: int)
      requires Valid() && WellFormed(Call.Acquire(capacity, rate, requested, now))
      modifies this
      ensures Valid()
      ensures Outcome(View(), Reply(ok, waitMs)) ==
          Step(old(View()), Call.Acquire(capacity, rate, requested, now), true)
    {
      Expire(now);
      var paused := pauseUntil.GetOr(0.0);
      if paused > now {
        return false, Ceil((paused - now) * 1000.0);
      }
      var level, since := tokens.GetOr(capacity), ts.GetOr(now);
      var elapsed := MaxR(0.0, now - since);
      level := MinR(capacity, level + elapsed * rate);
      if level < requested {
        var need := requested - level;
        var wait := need / rate;
        tokens, ts := Some(level), Some(now);
        expiresAt := now + TTL;
        return false, Ceil(wait * 1000.0);
      }
      level := level - requested;
      tokens, ts := Some(level), Some(now);
      expiresAt := now + TTL;
      return true, 0;
    }

    method PauseFor(seconds: real, now: real)
      requires Valid() && now >= 0.0
      modifies this
      ensures Valid() && View() == Step(old(View()), Pause(seconds, now), true).bucket
    {
      Expire(now);
      pauseUntil := Some(now + MaxR(seconds, 0.0));
      expiresAt := now + TTL;
    }

    /** Other clients' calls on the same key. */
    method Others(calls: seq<Call>)
      requires Valid() && forall i | 0 <= i < |calls| :: WellFormed(calls[i])
      modifies this
      ensures Valid() && View() == After(old(View()), calls, true)
    {
      var i := 0;
      assert calls[0..] == calls;
      while i < |calls|
        invariant 0 <= i <= |calls|
        invariant Valid() && After(View(), calls[i..], true) == After(old(View()), calls, true)
      {
        assert calls[i..][0] == calls[i] && calls[i..][1..] == calls[i + 1..];
        match calls[i] {
          case Acquire(capacity, rate, requested, now) =>
            var _, _ := AcquireTokens(capacity, rate, requested, now);
          case Pause(seconds, now) =>
            PauseFor(seconds, now);
        }
        i := i + 1;
      }
    }

    /**
     The acquire loop. Whatever the others do, it makes at most max_wait / 0.01 + 1 script calls,
     sleeps after each refusal for what was quoted, but at least 10 ms and at most 1 s, never starts
     a sleep that would pass its deadline, proceeds exactly on the first granted reply, and times out
     only when the next wait would pass the deadline. A request above the capacity always times out.
     */
    method Acquire(rate: real, capacity: Option<real>, requested: real, maxWait: real,
                   started: real, env: Surroundings)
      returns (result: Result, scripts: nat, naps: seq<Nap>, finished: real)
      requires Valid() && env.Valid() && requested >= 0.0 && (capacity.Some? ==> capacity.value >= 0.0)
      modifies this
      ensures Valid()
      ensures rate <= 0.0 ==> result == Proceed && scripts == 0 && naps == [] && View() == old(View())
      ensures rate > 0.0 ==>
                var own := Request(capacity.GetOr(MaxR(rate, requested)), rate, requested);
                && scripts == |naps| + 1
                && View() == Attempt(old(View()), own, env, scripts - 1).bucket
                && (forall k: nat | k < scripts - 1 :: !Attempt(old(View()), own, env, k).reply.ok)
                && (result == Proceed <==> Attempt(old(View()), own, env, scripts - 1).reply.ok)
                && (result == TimedOut ==>
                      var last := Attempt(old(View()), own, env, scripts - 1).reply;
                      finished + WaitSeconds(last.waitMs) > started + maxWait)
                && AsQuoted(old(View()), own, env, naps) && InTurn(naps, finished)
      ensures rate > 0.0 && requested > capacity.GetOr(MaxR(rate, requested)) ==> result == TimedOut
      ensures forall nap | nap in naps ::
                MIN_NAP <= nap.length <= MAX_NAP && nap.length <= nap.wait && nap.start + nap.wait <= started + maxWait
      ensures |naps| as real <= MaxR(maxWait, 0.0) / MIN_NAP
    {
      hide Step, After, Attempt, WellFormed, AsQuoted, InTurn;
      NoNaps(View(), Request(capacity.GetOr(MaxR(rate, requested)), rate, requested), env, started);
      naps, scripts, finished := [], 0, started;
      if rate <= 0.0 {
        return Proceed, 0, [], started;
      }
      var cap := capacity.GetOr(MaxR(rate, requested));
      var deadline := started + maxWait;
      ghost var own := Request(cap, rate, requested);
      ghost var initial := View();
      while true
        invariant Valid() && scripts == |naps|
        invariant View() == if scripts == 0 then initial else Attempt(initial, own, env, scripts - 1).bucket
        invariant forall k: nat | k < scripts :: !Attempt(initial, own, env, k).reply.ok
        invariant AsQuoted(initial, own, env, naps) && InTurn(naps, finished)
        invariant forall nap | nap in naps ::
                    MIN_NAP <= nap.length <= MAX_NAP && nap.length <= nap.wait && nap.start + nap.wait <= deadline
        invariant started + |naps| as real * MIN_NAP <= finished
        invariant |naps| as real * MIN_NAP <= MaxR(maxWait, 0.0)
        decreases (MaxR(maxWait, 0.0) - |naps| as real * MIN_NAP) * 100.0 + 1.0
      {
        Others(env.others(scripts));
        var now := env.wall(scripts);
        var ok, waitMs := AcquireTokens(cap, rate, requested, now);
        assert Outcome(View(), Reply(ok, waitMs)) == Attempt(initial, own, env, scripts) by {
          AttemptUnfolds(initial, own, env, scripts);
        }
        OversizedAttempt(initial, own, env, scripts);
        InTurnLater(naps, finished, finished + env.latency(scripts));
        finished := finished + env.latency(scripts);
        scripts := scripts + 1;
        if ok {
          result := Proceed;
          return;
        }
        var wait := WaitSeconds(waitMs);
        if finished + wait > deadline {
          result := TimedOut;
          return;
        }
        var nap := Nap(finished, wait, MinR(wait, MAX_NAP));
        OneMoreNap(initial, own, env, naps, nap);
        StillInTurn(naps, finished, nap, finished + nap.length + env.lag(scripts - 1));
        naps := naps + [nap];
        finished := finished + nap.length + env.lag(scripts - 1);
      }
    }
  }
}
