/**
 Exactly which requests the bucket grants. The rate bound says that not too much is granted; here,
 what one caller's requests leave in the bucket, and what pauses take away, is pinned from both
 sides, and always by the replies alone.
 */
module Grants {
  import opened Options
  import opened TokenBucket

  /** All calls are requests of one caller, within its capacity c and at its rate r. */
  predicate OneCaller(calls: seq<Call>, c: real, r: real) {
    forall i | 0 <= i < |calls| :: calls[i].Acquire? && calls[i].capacity == c && calls[i].rate == r
  }

  /** What calls j to k - 1 were granted. */
  function TakenOver(calls: seq<Call>, replies: seq<Reply>, j: nat, k: nat): real
    requires j <= k <= |calls| == |replies|
    decreases k - j
  {
    if j == k then 0.0 else Taken(calls[j], replies[j]) + TakenOver(calls, replies, j + 1, k)
  }

  /** Since call j, request k and all that was granted before it stay within c plus the refill. */
  predicate WithinSince(calls: seq<Call>, replies: seq<Reply>, j: nat, k: nat, c: real, r: real)
    requires j <= k < |calls| == |replies| && calls[k].Acquire?
  {
    TakenOver(calls, replies, j, k) + calls[k].requested <= c + Refill(r, calls[k].now - calls[j].now)
  }

  predicate WithinAlways(calls: seq<Call>, replies: seq<Reply>, k: nat, c: real, r: real)
    requires k < |calls| == |replies| && calls[k].Acquire?
  {
    forall j | 0 <= j <= k :: WithinSince(calls, replies, j, k, c, r)
  }

  /** The same, measured from a bucket that held some tokens at an earlier time. */
  predicate WithinStock(calls: seq<Call>, replies: seq<Reply>, k: nat, tokens: real, since: real, r: real)
    requires k < |calls| == |replies| && calls[k].Acquire?
  {
    TakenOver(calls, replies, 0, k) + calls[k].requested <= tokens + Refill(r, calls[k].now - since)
  }

  lemma {:induction false} TakenShift(calls: seq<Call>, replies: seq<Reply>, j: nat, k: nat)
    requires 0 < j <= k <= |calls| == |replies|
    ensures TakenOver(calls, replies, j, k) == TakenOver(calls[1..], replies[1..], j - 1, k - 1)
    decreases k - j
  {
    if j < k {
      TakenShift(calls, replies, j + 1, k);
    }
  }

  lemma TakenFirst(calls: seq<Call>, replies: seq<Reply>, k: nat)
    requires 0 < k <= |calls| == |replies|
    ensures TakenOver(calls, replies, 0, k)
         == Taken(calls[0], replies[0]) + TakenOver(calls[1..], replies[1..], 0, k - 1)
  {
    TakenShift(calls, replies, 1, k);
  }

  lemma WithinShift(calls: seq<Call>, replies: seq<Reply>, k: nat, c: real, r: real)
    requires 0 < k < |calls| == |replies| && calls[k].Acquire?
    ensures WithinAlways(calls, replies, k, c, r) <==>
            WithinSince(calls, replies, 0, k, c, r) && WithinAlways(calls[1..], replies[1..], k - 1, c, r)
  {
    hide TakenOver, Refill;
    if WithinAlways(calls[1..], replies[1..], k - 1, c, r) && WithinSince(calls, replies, 0, k, c, r) {
      forall j | 0 <= j <= k ensures WithinSince(calls, replies, j, k, c, r) {
        if j > 0 {
          TakenShift(calls, replies, j, k);
          assert WithinSince(calls[1..], replies[1..], j - 1, k - 1, c, r);
        }
      }
    }
    if WithinAlways(calls, replies, k, c, r) {
      var tail, rest, last := calls[1..], replies[1..], k - 1;
      forall j | 0 <= j <= last ensures WithinSince(tail, rest, j, last, c, r) {
        TakenShift(calls, replies, j + 1, k);
        assert WithinSince(calls, replies, j + 1, k, c, r);
      }
    }
  }

  /** The stock that the first call leaves is what measures the later ones. */
  lemma StockShift(calls: seq<Call>, replies: seq<Reply>, k: nat, tokens: real, since: real, c: real, r: real)
    requires 0 < k < |calls| == |replies| && calls[k].Acquire?
    ensures var left := MinR(c, tokens + Refill(r, calls[0].now - since)) - Taken(calls[0], replies[0]);
            WithinStock(calls[1..], replies[1..], k - 1, left, calls[0].now, r) <==>
            WithinStock(calls, replies, k, tokens, since, r) && WithinSince(calls, replies, 0, k, c, r)
  {
    hide Refill, TakenOver, Taken;
    TakenFirst(calls, replies, k);
    RefillAdds(r, calls[0].now - since, calls[k].now - calls[0].now);
    assert (calls[0].now - since) + (calls[k].now - calls[0].now) == calls[k].now - since;
  }

  /** The bucket holds exactly what one at the given level would, for a caller within c and r. */
  predicate HoldsStock(b: Bucket, tokens: real, since: real) {
    b.level == Some(Level(tokens, since)) && b.pauseUntil == None
  }

  lemma FirstReply(b: Bucket, call: Call, tokens: real, since: real)
    requires WellFormed(call) && call.Acquire? && HoldsStock(b, tokens, since) && since <= call.now
    ensures var o := Step(b, call, false);
            var found := MinR(call.capacity, tokens + Refill(call.rate, call.now - since));
            && (o.reply.ok <==> call.requested <= found)
            && HoldsStock(o.bucket, found - Taken(call, o.reply), call.now)
  {
    assert (call.now - since) * call.rate == call.rate * (call.now - since);
    assert Available(b, call.capacity, call.rate, call.now)
        == MinR(call.capacity, tokens + Refill(call.rate, call.now - since));
  }

  lemma FirstWithin(calls: seq<Call>, replies: seq<Reply>, tokens: real, since: real, c: real, r: real)
    requires calls != [] && |calls| == |replies| && calls[0].Acquire?
    ensures WithinStock(calls, replies, 0, tokens, since, r) && WithinAlways(calls, replies, 0, c, r) <==>
            calls[0].requested <= MinR(c, tokens + Refill(r, calls[0].now - since))
  {
    RefillAdds(r, 0.0, 0.0);
    assert WithinAlways(calls, replies, 0, c, r) <==> WithinSince(calls, replies, 0, 0, c, r);
  }

  lemma RepliesUnfold(b: Bucket, calls: seq<Call>, expiring: bool)
    requires calls != [] && forall i | 0 <= i < |calls| :: WellFormed(calls[i])
    ensures var o := Step(b, calls[0], expiring);
            && Replies(b, calls, expiring)[0] == o.reply
            && Replies(b, calls, expiring)[1..] == Replies(o.bucket, calls[1..], expiring)
  {
    hide Step;
  }

  /** Reply k, from a bucket that holds some tokens and is never dropped. */
  lemma {:induction false} ReplyFromStock(b: Bucket, calls: seq<Call>, k: nat, tokens: real, since: real, c: real,
      r: real)
    requires Ordered(calls, since) && OneCaller(calls, c, r) && HoldsStock(b, tokens, since) && k < |calls|
    ensures forall i | 0 <= i < |calls| :: WellFormed(calls[i])
    ensures var replies := Replies(b, calls, false);
            replies[k].ok <==>
            WithinStock(calls, replies, k, tokens, since, r) && WithinAlways(calls, replies, k, c, r)
    decreases k
  {
    hide Step, Replies, Refill, Taken, WithinStock, WithinAlways, HoldsStock, WellFormed;
    OrderedIsWellFormed(calls, since);
    RepliesUnfold(b, calls, false);
    FirstReply(b, calls[0], tokens, since);
    var replies := Replies(b, calls, false);
    if k == 0 {
      FirstWithin(calls, replies, tokens, since, c, r);
    } else {
      var left := MinR(c, tokens + Refill(r, calls[0].now - since)) - Taken(calls[0], replies[0]);
      ReplyFromStock(Step(b, calls[0], false).bucket, calls[1..], k - 1, left, calls[0].now, c, r);
      StockShift(calls, replies, k, tokens, since, c, r);
      WithinShift(calls, replies, k, c, r);
    }
  }

  /** A bucket that has never been used answers as a full one does. */
  lemma AbsentIsFull(calls: seq<Call>, c: real, r: real)
    requires calls != [] && OneCaller(calls, c, r) && forall i | 0 <= i < |calls| :: WellFormed(calls[i])
    ensures Replies(Absent, calls, false)
         == Replies(Bucket(Some(Level(c, calls[0].now)), None, 0.0), calls, false)
  {
    var full := Bucket(Some(Level(c, calls[0].now)), None, 0.0);
    var a, b := Step(Absent, calls[0], false), Step(full, calls[0], false);
    assert Available(Absent, c, r, calls[0].now) == c == Available(full, c, r, calls[0].now);
    assert a == b;
  }

  /**
   Exactly what one caller is granted from a full bucket: request k, whether or not earlier ones
   were refused, is granted if and only if, since every earlier call j, it and all that was granted
   meanwhile stay within c + r * (time since j). So nothing is lost that was not taken. With key
   expiry this needs c <= 3600 r, as the rate bound does.
   */
  lemma GrantsExactly(calls: seq<Call>, expiring: bool, c: real, r: real, u: real)
    requires 0.0 <= u && Ordered(calls, u) && OneCaller(calls, c, r) && (expiring ==> c <= 3600.0 * r)
    ensures forall i | 0 <= i < |calls| :: WellFormed(calls[i])
    ensures var replies := Replies(Absent, calls, expiring);
            forall k | 0 <= k < |calls| ::
              replies[k].ok <==>
              forall j | 0 <= j <= k ::
                TakenOver(calls, replies, j, k) + calls[k].requested <= c + r * (calls[k].now - calls[j].now)
  {
    hide Step, Replies, TakenOver;
    OrderedIsWellFormed(calls, u);
    if expiring {
      assert Bearable(calls);
      ExpiryIsInvisible(Absent, Absent, calls, u);
    }
    var replies := Replies(Absent, calls, expiring);
    forall k | 0 <= k < |calls|
      ensures replies[k].ok <==>
              forall j | 0 <= j <= k ::
                TakenOver(calls, replies, j, k) + calls[k].requested <= c + r * (calls[k].now - calls[j].now)
    {
      AbsentIsFull(calls, c, r);
      OrderedFromFirst(calls, u);
      ReplyFromStock(Bucket(Some(Level(c, calls[0].now)), None, 0.0), calls, k, c, calls[0].now, c, r);
      assert WithinStock(calls, replies, k, c, calls[0].now, r) <==> WithinSince(calls, replies, 0, k, c, r);
      WithinMeans(calls, replies, k, c, r);
    }
  }

  lemma WithinMeans(calls: seq<Call>, replies: seq<Reply>, k: nat, c: real, r: real)
    requires k < |calls| == |replies| && calls[k].Acquire?
    ensures WithinAlways(calls, replies, k, c, r) <==>
            forall j | 0 <= j <= k ::
              TakenOver(calls, replies, j, k) + calls[k].requested <= c + r * (calls[k].now - calls[j].now)
  {
    hide TakenOver;
    if forall j | 0 <= j <= k ::
         TakenOver(calls, replies, j, k) + calls[k].requested <= c + r * (calls[k].now - calls[j].now) {
      forall j | 0 <= j <= k ensures WithinSince(calls, replies, j, k, c, r) {
        assert TakenOver(calls, replies, j, k) + calls[k].requested <= c + r * (calls[k].now - calls[j].now);
      }
    }
    if WithinAlways(calls, replies, k, c, r) {
      forall j | 0 <= j <= k
        ensures TakenOver(calls, replies, j, k) + calls[k].requested <= c + r * (calls[k].now - calls[j].now)
      {
        assert WithinSince(calls, replies, j, k, c, r);
      }
    }
  }

  lemma OrderedFromFirst(calls: seq<Call>, u: real)
    requires calls != [] && Ordered(calls, u)
    ensures Ordered(calls, calls[0].now)
  {
  }

  function Requested(calls: seq<Call>, j: nat, k: nat): real
    requires j <= k <= |calls| && forall i | 0 <= i < |calls| :: calls[i].Acquire?
    decreases k - j
  {
    if j == k then 0.0 else calls[j].requested + Requested(calls, j + 1, k)
  }

  lemma {:induction false} AllTaken(calls: seq<Call>, replies: seq<Reply>, j: nat, k: nat)
    requires j <= k <= |calls| == |replies| && forall i | 0 <= i < |calls| :: calls[i].Acquire?
    requires forall i | j <= i < k :: replies[i].ok
    ensures TakenOver(calls, replies, j, k) == Requested(calls, j, k)
    decreases k - j
  {
    if j < k {
      AllTaken(calls, replies, j + 1, k);
    }
  }

  lemma {:induction false} RequestedLast(calls: seq<Call>, j: nat, k: nat)
    requires j <= k < |calls| && forall i | 0 <= i < |calls| :: calls[i].Acquire?
    ensures Requested(calls, j, k + 1) == Requested(calls, j, k) + calls[k].requested
    decreases k - j
  {
    if j < k {
      RequestedLast(calls, j + 1, k);
    }
  }

  /** All of a caller's requests are granted exactly if those of every stretch fit the rate bound. */
  lemma AllGrantedExactly(calls: seq<Call>, expiring: bool, c: real, r: real, u: real)
    requires 0.0 <= u && Ordered(calls, u) && OneCaller(calls, c, r) && (expiring ==> c <= 3600.0 * r)
    ensures forall i | 0 <= i < |calls| :: WellFormed(calls[i])
    ensures (forall k | 0 <= k < |calls| :: Replies(Absent, calls, expiring)[k].ok) <==>
            (forall j, k | 0 <= j <= k < |calls| ::
                Requested(calls, j, k + 1) <= c + r * (calls[k].now - calls[j].now))
  {
    hide Replies, TakenOver, Requested;
    GrantsExactly(calls, expiring, c, r, u);
    var replies := Replies(Absent, calls, expiring);
    if forall k | 0 <= k < |calls| :: replies[k].ok {
      forall j, k | 0 <= j <= k < |calls|
        ensures Requested(calls, j, k + 1) <= c + r * (calls[k].now - calls[j].now)
      {
        AllTaken(calls, replies, j, k);
        RequestedLast(calls, j, k);
      }
    }
    if forall j, k | 0 <= j <= k < |calls| :: Requested(calls, j, k + 1) <= c + r * (calls[k].now - calls[j].now) {
      GrantedSoFar(calls, replies, c, r, |calls|);
    }
  }

  lemma {:induction false} GrantedSoFar(calls: seq<Call>, replies: seq<Reply>, c: real, r: real, n: nat)
    requires n <= |calls| == |replies| && forall i | 0 <= i < |calls| :: calls[i].Acquire?
    requires forall k | 0 <= k < |calls| ::
               replies[k].ok <==>
               forall j | 0 <= j <= k ::
                 TakenOver(calls, replies, j, k) + calls[k].requested <= c + r * (calls[k].now - calls[j].now)
    requires forall j, k | 0 <= j <= k < |calls| ::
               Requested(calls, j, k + 1) <= c + r * (calls[k].now - calls[j].now)
    ensures forall k | 0 <= k < n :: replies[k].ok
  {
    hide TakenOver, Requested;
    if n > 0 {
      GrantedSoFar(calls, replies, c, r, n - 1);
      var k := n - 1;
      forall j | 0 <= j <= k
        ensures TakenOver(calls, replies, j, k) + calls[k].requested <= c + r * (calls[k].now - calls[j].now)
      {
        AllTaken(calls, replies, j, k);
        RequestedLast(calls, j, k);
      }
    }
  }

  /**
   In any state of the bucket: after a granted request, a second one of the same caller at the same
   time is granted exactly if both together would have been.
   */
  lemma SameTimeGrants(b: Bucket, capacity: real, rate: real, first: real, second: real, now: real, expiring: bool)
    requires 0.0 <= now && 0.0 < rate && 0.0 <= capacity && 0.0 <= first && 0.0 <= second
    requires Step(b, Acquire(capacity, rate, first, now), expiring).reply.ok
    ensures var after := Step(b, Acquire(capacity, rate, first, now), expiring).bucket;
            Step(after, Acquire(capacity, rate, second, now), expiring).reply.ok <==>
            Step(b, Acquire(capacity, rate, first + second, now), expiring).reply.ok
  {
  }

  // ---- Pauses ----------------------------------------------------------------------------

  /**
   A pause is exact. Up to its end requests are refused, with a quote that reaches the end and
   overshoots it by less than a millisecond; from its end on they are answered as if neither this
   pause nor any earlier one had been set.
   */
  lemma PauseIsExact(b: Bucket, seconds: real, paused: real, capacity: real, rate: real, requested: real, now: real)
    requires 0.0 <= paused <= now && 0.0 < rate && 0.0 <= capacity && 0.0 <= requested
    ensures var end := if seconds >= 0.0 then paused + seconds else paused;
            var call := Acquire(capacity, rate, requested, now);
            var reply := Step(Step(b, Pause(seconds, paused), false).bucket, call, false).reply;
            if now < end then !reply.ok && end - now <= reply.waitMs as real / 1000.0 < end - now + 0.001
            else reply == Step(b.(pauseUntil := None), call, false).reply
  {
    var end := paused + MaxR(seconds, 0.0);
    var held := Step(b, Pause(seconds, paused), false).bucket;
    var free := b.(pauseUntil := None);
    assert IsPaused(held, now) <==> now < end;
    assert !IsPaused(free, now);
    assert Available(held, capacity, rate, now) == Available(free, capacity, rate, now);
  }
}
