/**
 Webhook delivery: one chain of attempts on its own, and all the POSTs of a batch's whole life.
 */
module Webhooks {
  import opened Backoff
  import opened Pipeline
  import opened Invariants
  import opened Lifecycle

  /** One POST's result, and the jittered delay drawn if another is to follow. */
  datatype Post = Post(ok: bool, delay: real)

  /** The POST made when the attempt counter reaches a given value. */
  type Receiver = nat -> Post

  ghost predicate DelaysInBounds(receiver: Receiver) {
    forall a: nat :: 0.0 <= receiver(a).delay <= WebhookBound(a) as real
  }

  /** What a chain did: the batch row it leaves, its POSTs, and the deferrals between them. */
  datatype Chain = Chain(batch: Batch, posts: nat, deferrals: seq<int>)

  /** A delivery job and the jobs it defers, up to the last one. */
  ghost function DeliverChain(batch: Batch, maxAttempts: int, receiver: Receiver): Chain
    requires DelaysInBounds(receiver)
    decreases maxAttempts - batch.webhookAttempts
  {
    var attempt := batch.webhookAttempts + 1;
    var post := receiver(attempt);
    var after := RecordPost(batch, maxAttempts, post.ok);
    if TriesAgain(after.webhookAttempts, maxAttempts, post.ok) then
      var rest := DeliverChain(after, maxAttempts, receiver);
      Chain(rest.batch, 1 + rest.posts, [Deferral(after.webhookAttempts, post.delay)] + rest.deferrals)
    else Chain(after, 1, [])
  }

  function Total(deferrals: seq<int>): int {
    if deferrals == [] then 0 else deferrals[0] + Total(deferrals[1..])
  }

  /**
   A chain that starts with `first` attempts on record posts at most m - first times (once at
   least), and ends delivered or dead: dead exactly when every POST failed.
   */
  lemma {:induction false} ChainEnds(batch: Batch, m: int, receiver: Receiver)
    requires DelaysInBounds(receiver)
    ensures var first := batch.webhookAttempts;
            var chain := DeliverChain(batch, m, receiver);
            && 1 <= chain.posts <= (if m - first > 1 then m - first else 1)
            && (chain.batch.webhookStatus.Delivered? || chain.batch.webhookStatus.Dead?)
            && (chain.batch.webhookStatus.Dead? <==>
                forall k: nat | first < k <= first + chain.posts :: !receiver(k).ok)
            && (chain.batch.webhookStatus.Dead? ==> first + chain.posts >= m)
            && chain.batch.webhookAttempts == first + chain.posts
    decreases m - batch.webhookAttempts
  {
    hide WebhookBound, Deferral, Round, Pow2;
    var attempt := batch.webhookAttempts + 1;
    var post := receiver(attempt);
    var after := RecordPost(batch, m, post.ok);
    if TriesAgain(after.webhookAttempts, m, post.ok) {
      ChainEnds(after, m, receiver);
      assert !receiver(attempt).ok;
    } else {
      assert !post.ok ==> forall k: nat | attempt - 1 < k <= attempt :: !receiver(k).ok;
    }
  }

  /** It defers once between any two POSTs, by 1 to 300 s, and by no more than the capped powers of two in all. */
  lemma {:induction false} ChainDefers(batch: Batch, m: int, receiver: Receiver)
    requires DelaysInBounds(receiver)
    ensures var chain := DeliverChain(batch, m, receiver);
            && |chain.deferrals| == chain.posts - 1
            && (forall d | d in chain.deferrals :: 1 <= d <= WEBHOOK_CAP)
            && Total(chain.deferrals) <= WorstDeferral(batch.webhookAttempts + 1, m)
    decreases m - batch.webhookAttempts
  {
    hide WebhookBound, Deferral, Round, Pow2;
    var attempt := batch.webhookAttempts + 1;
    var post := receiver(attempt);
    var after := RecordPost(batch, m, post.ok);
    if TriesAgain(after.webhookAttempts, m, post.ok) {
      ChainDefers(after, m, receiver);
      var rest := DeliverChain(after, m, receiver);
      var deferrals := [Deferral(after.webhookAttempts, post.delay)] + rest.deferrals;
      assert deferrals[1..] == rest.deferrals;
    }
  }

  /** A fresh batch's chain, with the total in closed form. */
  lemma FirstChain(batch: Batch, m: nat, receiver: Receiver)
    requires m >= 1 && batch.webhookAttempts == 0 && DelaysInBounds(receiver)
    ensures var chain := DeliverChain(batch, m, receiver);
            && chain.posts <= m
            && (m <= 10 ==> Total(chain.deferrals) <= Pow2(m - 1) - 1)
            && (m >= 10 ==> Total(chain.deferrals) <= 511 + 300 * (m - 10))
  {
    ChainEnds(batch, m, receiver);
    ChainDefers(batch, m, receiver);
    WorstDeferralClosed(m);
  }

  // ---- All deliveries of a batch ---------------------------------------------------------

  function AtLeastOne(m: int): nat {
    if m >= 1 then m else 1
  }

  function Pending(s: State): nat {
    Hooks(s, FailedHook) + Hooks(s, CompletedHook)
  }

  function Started(cfg: Config, s: State, es: seq<Event>): int
    requires Feasible(cfg, s, es)
  {
    Chains(cfg, s, es, FailedHook) + Chains(cfg, s, es, CompletedHook)
  }

  predicate NothingLost(es: seq<Event>) {
    forall i | 0 <= i < |es| :: !es[i].Lose?
  }

  /** The POSTs made over a run. */
  function Posts(cfg: Config, es: seq<Event>): nat {
    if es == [] then 0
    else Posts(cfg, es[..|es| - 1]) + if es[|es| - 1].Deliver? && cfg.hasWebhook then 1 else 0
  }

  /** The delivery jobs that the queue duplicates over a run. */
  function Duplicates(es: seq<Event>): nat {
    if es == [] then 0
    else Duplicates(es[..|es| - 1]) + Duplicated(es[|es| - 1])
  }

  function Duplicated(e: Event): nat {
    if e.Redeliver? && e.job.WebhookJob? then 1 else 0
  }

  predicate Resolved(s: State) {
    s.batch.webhookStatus.Delivered? || s.batch.webhookStatus.Dead?
  }

  lemma DeliverAccounts(cfg: Config, s: State, hook: Hook, ok: bool)
    requires WebhookJob(hook) in s.queue
    ensures var t := DeliverHook(cfg, s, hook, ok);
            && t.batch.webhookAttempts == s.batch.webhookAttempts + (if cfg.hasWebhook then 1 else 0)
            && (|| Pending(t) == Pending(s) - 1
                || (Pending(t) == Pending(s) && t.batch.webhookAttempts < cfg.webhookMaxAttempts))
            && (cfg.hasWebhook && Pending(t) < Pending(s) ==> Resolved(t))
            && (Resolved(s) ==> Resolved(t))
  {
  }

  lemma LoseAccounts(s: State, job: Job)
    requires job in s.queue
    ensures Pending(Consume(s, job)) <= Pending(s)
  {
  }

  lemma RedeliverAccounts(cfg: Config, s: State, job: Job)
    ensures Enabled(cfg, s, Redeliver(job))
    ensures Pending(Next(cfg, s, Redeliver(job))) == Pending(s) + Duplicated(Redeliver(job))
  {
    if job.WebhookJob? {
      assert job == WebhookJob(FailedHook) || job == WebhookJob(CompletedHook) by {
        assert job.hook.FailedHook? || job.hook.CompletedHook?;
      }
    }
  }

  lemma OthersKeepWebhook(cfg: Config, s: State, e: Event)
    requires Enabled(cfg, s, e) && !e.Deliver?
    ensures Next(cfg, s, e).batch.webhookAttempts == s.batch.webhookAttempts
    ensures Next(cfg, s, e).batch.webhookStatus == s.batch.webhookStatus
  {
    hide DeliverHook, JobsFor, ReclaimAll, Conclude, Leasable, ResultsBody, ManifestOf, AllSucceeded, Sum,
         CreateChunkRows;
  }

  lemma NextOfDeliver(cfg: Config, s: State, hook: Hook, ok: bool)
    requires Enabled(cfg, s, Deliver(hook, ok))
    ensures Next(cfg, s, Deliver(hook, ok)) == DeliverHook(cfg, s, hook, ok) && WebhookJob(hook) in s.queue
  {
    hide DeliverHook;
  }

  lemma NextOfLose(cfg: Config, s: State, job: Job)
    requires Enabled(cfg, s, Lose(job))
    ensures Next(cfg, s, Lose(job)) == Consume(s, job) && job in s.queue
  {
  }

  /** How one step changes the deliveries outstanding, the chains started, and the attempt counter. */
  lemma StepAccounts(cfg: Config, s: State, e: Event)
    requires cfg.Valid() && Safe(cfg, s) && Enabled(cfg, s, e)
    ensures var t := Next(cfg, s, e);
            var started := ChainsStarted(cfg, s, e, FailedHook) + ChainsStarted(cfg, s, e, CompletedHook);
            && started >= 0
            && (Resolved(s) ==> Resolved(t))
            && (if e.Deliver? then
                  && started == 0
                  && t.batch.webhookAttempts == s.batch.webhookAttempts + (if cfg.hasWebhook then 1 else 0)
                  && (|| Pending(t) == Pending(s) - 1
                      || (Pending(t) == Pending(s) && t.batch.webhookAttempts < cfg.webhookMaxAttempts))
                  && (cfg.hasWebhook && Pending(t) < Pending(s) ==> Resolved(t))
                else
                  && (if e.Lose? then started == 0 && Pending(t) <= Pending(s)
                      else Pending(t) == Pending(s) + started + Duplicated(e))
                  && t.batch.webhookAttempts == s.batch.webhookAttempts
                  && t.batch.webhookStatus == s.batch.webhookStatus)
  {
    hide NewlyFailed, Next, Enabled, Safe;
    StepDecides(cfg, s, e);
    if e.Deliver? {
      NextOfDeliver(cfg, s, e.hook, e.ok);
      DeliverAccounts(cfg, s, e.hook, e.ok);
    } else {
      OthersKeepWebhook(cfg, s, e);
      if e.Lose? {
        NextOfLose(cfg, s, e.job);
        LoseAccounts(s, e.job);
      } else if e.Redeliver? {
        RedeliverAccounts(cfg, s, e.job);
      }
    }
  }

  /**
   Over a batch's whole life the attempt counter is the number of POSTs, and it stays below the
   maximum plus the chains started and the delivery jobs duplicated; so without duplicates there
   are at most m + 1 POSTs, and at most m with one chain. Once no delivery job is left, the
   webhook is delivered or dead.
   */
  lemma {:induction false} PostsBounded(cfg: Config, now: int, es: seq<Event>)
    requires cfg.Valid() && Feasible(cfg, Init(cfg, now), es)
    ensures var s := Exec(cfg, Init(cfg, now), es);
            var m, started := AtLeastOne(cfg.webhookMaxAttempts), Started(cfg, Init(cfg, now), es);
            && s.batch.webhookAttempts == Posts(cfg, es)
            && started <= 2 && Pending(s) <= started + Duplicates(es)
            && Posts(cfg, es) + Pending(s) <= m - 1 + started + Duplicates(es)
            && (started + Duplicates(es) <= 1 ==> Posts(cfg, es) <= m)
            && (NothingLost(es) && cfg.hasWebhook && started + Duplicates(es) > 0 && Pending(s) == 0 ==> Resolved(s))
  {
    hide Pending, ChainsStarted, Resolved, Next, Enabled;
    AtMostOneVerdict(cfg, now, es);
    if es == [] {
      NothingPending(cfg, now);
    } else {
      var front, e := es[..|es| - 1], es[|es| - 1];
      PostsBounded(cfg, now, front);
      RunIsSafe(cfg, now, front);
      StepAccounts(cfg, Exec(cfg, Init(cfg, now), front), e);
      assert NothingLost(es) ==> NothingLost(front) && !e.Lose?;
    }
  }

  lemma NothingPending(cfg: Config, now: int)
    ensures Pending(Init(cfg, now)) == 0
  {
  }

  // ---- Which event is delivered ----------------------------------------------------------

  /**
   One delivery in full. Its job is kept exactly if the POST failed with attempts left, and it
   keeps its event: jobs of the other event, and all other jobs, stay as they are. Without a URL
   nothing is posted and nothing recorded.
   */
  lemma DeliveryKeepsEvent(cfg: Config, s: State, hook: Hook, ok: bool)
    requires Enabled(cfg, s, Deliver(hook, ok))
    ensures var t := Next(cfg, s, Deliver(hook, ok));
            var attempts := s.batch.webhookAttempts + 1;
            var again := cfg.hasWebhook && !ok && attempts < cfg.webhookMaxAttempts;
            && t.queue[WebhookJob(hook)] == s.queue[WebhookJob(hook)] - (if again then 0 else 1)
            && (forall job | job != WebhookJob(hook) :: t.queue[job] == s.queue[job])
            && t == s.(queue := t.queue, batch := t.batch)
            && t.batch == (
                 if !cfg.hasWebhook then s.batch
                 else s.batch.(
                   webhookAttempts := attempts,
                   webhookStatus :=
                     if ok then Delivered
                     else if attempts >= cfg.webhookMaxAttempts then Dead
                     else s.batch.webhookStatus))
  {
    hide Next, Enabled;
    NextOfDeliver(cfg, s, hook, ok);
  }

  /** The jobs of one event that the queue duplicates over a run. */
  function DuplicatesOf(es: seq<Event>, hook: Hook): nat {
    if es == [] then 0
    else DuplicatesOf(es[..|es| - 1], hook) + if es[|es| - 1] == Redeliver(WebhookJob(hook)) then 1 else 0
  }

  lemma StepDelivers(cfg: Config, s: State, e: Event, hook: Hook)
    requires Enabled(cfg, s, e)
    ensures Next(cfg, s, e).queue[WebhookJob(hook)] <=
            s.queue[WebhookJob(hook)] + ChainsStarted(cfg, s, e, hook)
            + (if e == Redeliver(WebhookJob(hook)) then 1 else 0)
  {
    hide Next, Enabled;
    match e {
      case Deliver(h, ok) => DeliveryKeepsEvent(cfg, s, h, ok);
      case Lose(job) => NextOfLose(cfg, s, job);
      case Redeliver(job) => NextOfRedeliver(cfg, s, job);
      case _ =>
    }
  }

  lemma NextOfRedeliver(cfg: Config, s: State, job: Job)
    ensures Enabled(cfg, s, Redeliver(job)) && Next(cfg, s, Redeliver(job)) == Enqueue(s, job)
  {
  }

  /** The two events do not mix: jobs of one come from its own chain, or from duplicates of its own. */
  lemma {:induction false} DeliveriesPerEvent(cfg: Config, now: int, es: seq<Event>, hook: Hook)
    requires Feasible(cfg, Init(cfg, now), es)
    ensures Exec(cfg, Init(cfg, now), es).queue[WebhookJob(hook)] <=
            Chains(cfg, Init(cfg, now), es, hook) + DuplicatesOf(es, hook)
  {
    hide Next, Enabled, ChainsStarted;
    if es != [] {
      var front := es[..|es| - 1];
      DeliveriesPerEvent(cfg, now, front, hook);
      StepDelivers(cfg, Exec(cfg, Init(cfg, now), front), es[|es| - 1], hook);
    }
  }

  /** The status that an event tells the client about. */
  function Announced(hook: Hook): BatchStatus {
    match hook
    case FailedHook => BatchFailed
    case CompletedHook => Completed
  }

  /** The batch had a status in some state of the run. */
  ghost predicate Had(cfg: Config, s: State, es: seq<Event>, status: BatchStatus)
    requires Feasible(cfg, s, es)
  {
    Exec(cfg, s, es).batch.status == status || (es != [] && Had(cfg, s, es[..|es| - 1], status))
  }

  /** A delivery job was queued in some state of the run. */
  ghost predicate WasQueued(cfg: Config, s: State, es: seq<Event>, hook: Hook)
    requires Feasible(cfg, s, es)
  {
    WebhookJob(hook) in Exec(cfg, s, es).queue || (es != [] && WasQueued(cfg, s, es[..|es| - 1], hook))
  }

  /** Only delivery jobs that had been queued are delivered again. */
  ghost predicate Genuine(cfg: Config, s: State, es: seq<Event>, hook: Hook)
    requires Feasible(cfg, s, es)
  {
    es == [] || (
      && Genuine(cfg, s, es[..|es| - 1], hook)
      && (es[|es| - 1] == Redeliver(WebhookJob(hook)) ==> WasQueued(cfg, s, es[..|es| - 1], hook)))
  }

  /** A step queues a first delivery of an event only when it gives the batch the event's status. */
  lemma FirstDeliveryIsTrue(cfg: Config, s: State, e: Event, hook: Hook)
    requires cfg.Valid() && Safe(cfg, s) && Enabled(cfg, s, e)
    requires WebhookJob(hook) !in s.queue && WebhookJob(hook) in Next(cfg, s, e).queue
    ensures e == Redeliver(WebhookJob(hook)) || Next(cfg, s, e).batch.status == Announced(hook)
  {
    hide Safe, Next, Enabled, NewlyFailed;
    StepDecides(cfg, s, e);
    match e {
      case Deliver(h, ok) => OtherDelivery(cfg, s, h, ok, hook);
      case Lose(job) => NextOfLose(cfg, s, job);
      case Redeliver(job) => OtherDuplicate(cfg, s, job, hook);
      case _ => assert ChainsStarted(cfg, s, e, hook) > 0;
    }
  }

  lemma OtherDelivery(cfg: Config, s: State, h: Hook, ok: bool, hook: Hook)
    requires Enabled(cfg, s, Deliver(h, ok)) && WebhookJob(hook) !in s.queue
    ensures WebhookJob(hook) !in Next(cfg, s, Deliver(h, ok)).queue
  {
    hide Next;
    NextOfDeliver(cfg, s, h, ok);
    DeliveryKeepsEvent(cfg, s, h, ok);
    assert WebhookJob(hook) != WebhookJob(h);
    assert Next(cfg, s, Deliver(h, ok)).queue[WebhookJob(hook)] == s.queue[WebhookJob(hook)];
  }

  lemma OtherDuplicate(cfg: Config, s: State, job: Job, hook: Hook)
    requires WebhookJob(hook) !in s.queue
    ensures Enabled(cfg, s, Redeliver(job))
    ensures WebhookJob(hook) in Next(cfg, s, Redeliver(job)).queue ==> job == WebhookJob(hook)
  {
  }

  lemma {:induction false} QueuedIsTrue(cfg: Config, now: int, es: seq<Event>, hook: Hook)
    requires cfg.Valid() && Feasible(cfg, Init(cfg, now), es) && Genuine(cfg, Init(cfg, now), es, hook)
    ensures WasQueued(cfg, Init(cfg, now), es, hook) ==> Had(cfg, Init(cfg, now), es, Announced(hook))
  {
    hide Next, Enabled;
    if es != [] {
      var front := es[..|es| - 1];
      QueuedIsTrue(cfg, now, front, hook);
      RunIsSafe(cfg, now, front);
      var s := Exec(cfg, Init(cfg, now), front);
      if WebhookJob(hook) !in s.queue && WebhookJob(hook) in Exec(cfg, Init(cfg, now), es).queue {
        FirstDeliveryIsTrue(cfg, s, es[|es| - 1], hook);
      }
    }
  }

  /**
   No client is told what did not happen: when a `batch.failed` is posted the batch has failed
   before, and when a `batch.completed` is posted it has completed, however often POSTs fail and
   jobs are delivered again.
   */
  lemma PostsAreTrue(cfg: Config, now: int, es: seq<Event>, hook: Hook, ok: bool)
    requires cfg.Valid() && Feasible(cfg, Init(cfg, now), es) && Genuine(cfg, Init(cfg, now), es, hook)
    requires Enabled(cfg, Exec(cfg, Init(cfg, now), es), Deliver(hook, ok))
    ensures Had(cfg, Init(cfg, now), es, if hook.FailedHook? then BatchFailed else Completed)
  {
    hide Enabled;
    NextOfDeliver(cfg, Exec(cfg, Init(cfg, now), es), hook, ok);
    QueuedIsTrue(cfg, now, es, hook);
  }

  /** Every POST of the run failed. */
  predicate NoneAccepted(es: seq<Event>) {
    forall i | 0 <= i < |es| && es[i].Deliver? :: !es[i].ok
  }

  /** What the batch row records after some POSTs, given whether all of them failed. */
  predicate Records(cfg: Config, batch: Batch, posts: nat, noneAccepted: bool) {
    && batch.webhookAttempts == posts
    && (if cfg.hasWebhook then batch.webhookStatus != NoWebhook else batch.webhookStatus == NoWebhook && posts == 0)
    && (cfg.hasWebhook ==>
          (batch.webhookStatus == Undelivered <==>
           noneAccepted && (posts == 0 || posts < cfg.webhookMaxAttempts)))
  }

  lemma DeliveryRecords(cfg: Config, s: State, hook: Hook, ok: bool, posts: nat, noneAccepted: bool)
    requires Enabled(cfg, s, Deliver(hook, ok)) && Records(cfg, s.batch, posts, noneAccepted)
    ensures Records(cfg, Next(cfg, s, Deliver(hook, ok)).batch, posts + (if cfg.hasWebhook then 1 else 0),
                    noneAccepted && !ok)
  {
    hide Next, Enabled;
    DeliveryKeepsEvent(cfg, s, hook, ok);
  }

  lemma NoneAcceptedLast(es: seq<Event>)
    requires es != []
    ensures var e := es[|es| - 1];
            NoneAccepted(es) <==> NoneAccepted(es[..|es| - 1]) && (e.Deliver? ==> !e.ok)
  {
  }

  lemma {:induction false} RunRecords(cfg: Config, now: int, es: seq<Event>)
    requires cfg.Valid() && Feasible(cfg, Init(cfg, now), es)
    ensures Records(cfg, Exec(cfg, Init(cfg, now), es).batch, Posts(cfg, es), NoneAccepted(es))
  {
    hide Next, Enabled, Records, NoneAccepted, Config.Valid;
    if es == [] {
      NothingRecorded(cfg, now);
    } else {
      var front, e := es[..|es| - 1], es[|es| - 1];
      var s := Exec(cfg, Init(cfg, now), front);
      RunRecords(cfg, now, front);
      NoneAcceptedLast(es);
      if e.Deliver? {
        DeliveryRecords(cfg, s, e.hook, e.ok, Posts(cfg, front), NoneAccepted(front));
      } else {
        OthersKeepWebhook(cfg, s, e);
        SameRecords(cfg, s.batch, Next(cfg, s, e).batch, Posts(cfg, front), NoneAccepted(front));
      }
    }
  }

  lemma NothingRecorded(cfg: Config, now: int)
    ensures Records(cfg, Init(cfg, now).batch, 0, NoneAccepted([]))
  {
  }

  lemma SameRecords(cfg: Config, batch: Batch, after: Batch, posts: nat, noneAccepted: bool)
    requires Records(cfg, batch, posts, noneAccepted)
    requires after.webhookAttempts == batch.webhookAttempts && after.webhookStatus == batch.webhookStatus
    ensures Records(cfg, after, posts, noneAccepted)
  {
  }

  /**
   What the webhook status says. A batch without a URL keeps status `none` and posts nothing. With
   one, it is `pending` exactly as long as every POST has failed and the maximum is not reached.
   */
  lemma WebhookStatusMeans(cfg: Config, now: int, es: seq<Event>)
    requires cfg.Valid() && Feasible(cfg, Init(cfg, now), es)
    ensures var batch := Exec(cfg, Init(cfg, now), es).batch;
            && batch.webhookAttempts == Posts(cfg, es)
            && (!cfg.hasWebhook ==> batch.webhookStatus == NoWebhook && Posts(cfg, es) == 0)
            && (cfg.hasWebhook ==>
                  && batch.webhookStatus != NoWebhook
                  && (batch.webhookStatus == Undelivered <==>
                      NoneAccepted(es) && (Posts(cfg, es) == 0 || Posts(cfg, es) < cfg.webhookMaxAttempts)))
  {
    hide Exec, Feasible, Posts, NoneAccepted;
    RunRecords(cfg, now, es);
  }
}
