/**
  app/repositories/queue/inmemory/inmemory.go under concurrent Enqueue and Consume
  (app/usecases/consumemessage/consumemessage.go), as a step system. The channel send and the
  counter update of Enqueue are separate steps, as are Dequeue, Push and Ack of Consume.
 */
module InMemoryQueue {
  import opened Numbers

  datatype ProducerPc =
    | Idle
    | Sending(id: string)     // blocked on q.ch <- m
    | Counting(id: string, n: nat)    // sent as message n, before q.size.Add(1)
    | Enqueued(id: string, n: nat)    // Enqueue returned id
  {
    predicate HasSent() {
      Counting? || Enqueued?
    }
  }

  datatype WorkerPc =
    | Waiting                 // not in Consume
    | Dequeuing               // in the select of Dequeue
    | Holding(n: nat)         // dequeued, before Push returns
    | Pushed(n: nat)          // pushed, before q.size.Add(-1) in Ack
    | Consumed(taken: Option<nat>, ok: bool)    // Consume returned: what it took, and whether it succeeded
  {
    predicate Holds() {
      Holding? || Pushed?
    }
  }

  /** Messages are numbered in the order they are sent. The last five fields are histories:
      ids sent, and numbers taken, pushed successfully, acked, and given up after a failed push. */
  datatype State = State(
    capacity: nat, buffer: seq<nat>, size: int,
    producers: seq<ProducerPc>, workers: seq<WorkerPc>,
    sent: seq<string>, taken: seq<nat>, pushed: seq<nat>, acked: seq<nat>, abandoned: seq<nat>)

  predicate Init(s: State) {
    && s.buffer == [] && s.size == 0
    && (forall p :: 0 <= p < |s.producers| ==> s.producers[p] == Idle)
    && (forall w :: 0 <= w < |s.workers| ==> s.workers[w] == Waiting)
    && s.sent == [] && s.taken == [] && s.pushed == [] && s.acked == [] && s.abandoned == []
  }

  datatype Action =
    | Enqueue(p: nat, id: string) | SendToBuffer(p: nat) | HandOver(p: nat, w: nat) | Count(p: nat)
    | Consume(w: nat) | CtxDone(w: nat) | Take(w: nat) | PushOk(w: nat) | PushFail(w: nat) | Ack(w: nat)

  predicate Enabled(s: State, a: Action) {
    match a
    case Enqueue(p, _) => p < |s.producers| && (s.producers[p].Idle? || s.producers[p].Enqueued?)
    case SendToBuffer(p) => p < |s.producers| && s.producers[p].Sending? && |s.buffer| < s.capacity
    // a receiver already waiting on the empty channel, buffered or not
    case HandOver(p, w) =>
      p < |s.producers| && s.producers[p].Sending? && w < |s.workers| && s.workers[w].Dequeuing? && s.buffer == []
    case Count(p) => p < |s.producers| && s.producers[p].Counting?
    case Consume(w) => w < |s.workers| && (s.workers[w].Waiting? || s.workers[w].Consumed?)
    case CtxDone(w) => w < |s.workers| && s.workers[w].Dequeuing?
    case Take(w) => w < |s.workers| && s.workers[w].Dequeuing? && s.buffer != []
    case PushOk(w) => w < |s.workers| && s.workers[w].Holding?
    case PushFail(w) => w < |s.workers| && s.workers[w].Holding?
    case Ack(w) => w < |s.workers| && s.workers[w].Pushed?
  }

  function ProducerMoves(s: State, p: nat, pc: ProducerPc): State
    requires p < |s.producers|
  {
    s.(producers := s.producers[p := pc])
  }

  function WorkerMoves(s: State, w: nat, pc: WorkerPc): State
    requires w < |s.workers|
  {
    s.(workers := s.workers[w := pc])
  }

  function Apply(s: State, a: Action): State
    requires Enabled(s, a)
  {
    match a
    case Enqueue(p, id) => ProducerMoves(s, p, Sending(id))
    case SendToBuffer(p) =>
      ProducerMoves(s, p, Counting(s.producers[p].id, |s.sent|)).(buffer := s.buffer + [|s.sent|], sent := s.sent + [s.producers[p].id])
    case HandOver(p, w) =>
      WorkerMoves(ProducerMoves(s, p, Counting(s.producers[p].id, |s.sent|)), w, Holding(|s.sent|))
        .(sent := s.sent + [s.producers[p].id], taken := s.taken + [|s.sent|])
    case Count(p) => ProducerMoves(s, p, Enqueued(s.producers[p].id, s.producers[p].n)).(size := s.size + 1)
    case Consume(w) => WorkerMoves(s, w, Dequeuing)
    case CtxDone(w) => WorkerMoves(s, w, Consumed(None, false))
    case Take(w) =>
      WorkerMoves(s, w, Holding(s.buffer[0])).(buffer := s.buffer[1..], taken := s.taken + [s.buffer[0]])
    case PushOk(w) => WorkerMoves(s, w, Pushed(s.workers[w].n)).(pushed := s.pushed + [s.workers[w].n])
    case PushFail(w) => WorkerMoves(s, w, Consumed(Some(s.workers[w].n), false)).(abandoned := s.abandoned + [s.workers[w].n])
    case Ack(w) => WorkerMoves(s, w, Consumed(Some(s.workers[w].n), true)).(size := s.size - 1, acked := s.acked + [s.workers[w].n])
  }

  /** A sequence of actions, each enabled when it is taken: one interleaving. */
  predicate Legal(s: State, actions: seq<Action>)
    decreases |actions|
  {
    actions == [] || (Enabled(s, actions[0]) && Legal(Apply(s, actions[0]), actions[1..]))
  }

  function Run(s: State, actions: seq<Action>): State
    requires Legal(s, actions)
    decreases |actions|
  {
    if actions == [] then s else Run(Apply(s, actions[0]), actions[1..])
  }

  // Counting

  function Bit(b: bool): nat {
    if b then 1 else 0
  }

  /** Producers that have sent but not yet counted. */
  function Pending(producers: seq<ProducerPc>): nat {
    if producers == [] then 0 else Bit(producers[0].Counting?) + Pending(producers[1..])
  }

  lemma {:induction false} PendingUpdate(producers: seq<ProducerPc>, p: nat, pc: ProducerPc)
    requires p < |producers|
    ensures Pending(producers[p := pc]) == Pending(producers) - Bit(producers[p].Counting?) + Bit(pc.Counting?)
  {
    if p == 0 {
      assert producers[p := pc][1..] == producers[1..];
    } else {
      assert producers[p := pc][1..] == producers[1..][p - 1 := pc];
      PendingUpdate(producers[1..], p - 1, pc);
    }
  }

  /** Workers that hold message n; workers that hold any message. */
  function Holders(workers: seq<WorkerPc>, n: nat): nat {
    if workers == [] then 0 else Bit(workers[0].Holds() && workers[0].n == n) + Holders(workers[1..], n)
  }

  function Held(workers: seq<WorkerPc>): nat {
    if workers == [] then 0 else Bit(workers[0].Holds()) + Held(workers[1..])
  }

  lemma {:induction false} WorkersUpdate(workers: seq<WorkerPc>, w: nat, pc: WorkerPc, n: nat)
    requires w < |workers|
    ensures Held(workers[w := pc]) == Held(workers) - Bit(workers[w].Holds()) + Bit(pc.Holds())
    ensures Holders(workers[w := pc], n)
         == Holders(workers, n) - Bit(workers[w].Holds() && workers[w].n == n) + Bit(pc.Holds() && pc.n == n)
  {
    if w == 0 {
      assert workers[w := pc][1..] == workers[1..];
    } else {
      assert workers[w := pc][1..] == workers[1..][w - 1 := pc];
      WorkersUpdate(workers[1..], w - 1, pc, n);
    }
  }

  function Occurs(xs: seq<nat>, n: nat): nat {
    if xs == [] then 0 else Bit(xs[0] == n) + Occurs(xs[1..], n)
  }

  lemma {:induction false} OccursAppend(xs: seq<nat>, x: nat, n: nat)
    ensures Occurs(xs + [x], n) == Occurs(xs, n) + Bit(x == n)
  {
    if xs != [] {
      assert (xs + [x])[1..] == xs[1..] + [x];
      OccursAppend(xs[1..], x, n);
    }
  }

  lemma {:induction false} OccursIn(xs: seq<nat>, n: nat)
    ensures n in xs <==> Occurs(xs, n) > 0
  {
    if xs != [] {
      OccursIn(xs[1..], n);
    }
  }

  /** How often message n is somewhere: in the channel, with a worker, acked, or abandoned. */
  function Places(s: State, n: nat): nat {
    Occurs(s.buffer, n) + Holders(s.workers, n) + Occurs(s.acked, n) + Occurs(s.abandoned, n)
  }

  // The invariant

  /** Messages leave in the order they were sent. */
  ghost predicate FifoOk(s: State) {
    && |s.taken| + |s.buffer| == |s.sent|
    && (forall k :: 0 <= k < |s.taken| ==> s.taken[k] == k)
    && (forall k :: 0 <= k < |s.buffer| ==> s.buffer[k] == |s.taken| + k)
  }

  /** Every message sent is in exactly one place. */
  ghost predicate PlacesOk(s: State) {
    forall n: nat :: Places(s, n) == Bit(n < |s.sent|)
  }

  ghost predicate CountOk(s: State) {
    s.size + Pending(s.producers) == |s.buffer| + Held(s.workers) + |s.abandoned|
  }

  /** The messages pushed are those acked and those about to be. */
  ghost predicate PushedOk(s: State) {
    && (forall n :: n in s.acked ==> n in s.pushed)
    && (forall w :: 0 <= w < |s.workers| && s.workers[w].Pushed? ==> s.workers[w].n in s.pushed)
    && (forall n :: n in s.pushed && n !in s.acked ==> AboutToAck(s, n))
  }

  predicate AboutToAck(s: State, n: nat) {
    exists w :: 0 <= w < |s.workers| && s.workers[w] == Pushed(n)
  }

  /** Each producer's message is the one it was given. */
  ghost predicate SentOk(s: State) {
    forall p :: 0 <= p < |s.producers| && s.producers[p].HasSent() ==>
      s.producers[p].n < |s.sent| && s.sent[s.producers[p].n] == s.producers[p].id
  }

  /** A Consume succeeded on a message that was acked, or failed on one that was abandoned, or took
      none. */
  ghost predicate ConsumedOk(s: State) {
    forall w :: 0 <= w < |s.workers| && s.workers[w].Consumed? ==>
      match s.workers[w].taken
      case None => !s.workers[w].ok
      case Some(n) => if s.workers[w].ok then n in s.acked else n in s.abandoned
  }

  ghost predicate Inv(s: State) {
    FifoOk(s) && PlacesOk(s) && CountOk(s) && PushedOk(s) && SentOk(s) && ConsumedOk(s)
  }

  lemma SentStep(s: State, a: Action)
    requires SentOk(s) && Enabled(s, a)
    ensures SentOk(Apply(s, a))
  {
  }

  lemma ConsumedStep(s: State, a: Action)
    requires ConsumedOk(s) && Enabled(s, a)
    ensures ConsumedOk(Apply(s, a))
  {
  }

  lemma FifoStep(s: State, a: Action)
    requires FifoOk(s) && Enabled(s, a)
    ensures FifoOk(Apply(s, a))
  {
  }

  lemma PushedStep(s: State, a: Action)
    requires PushedOk(s) && Enabled(s, a)
    ensures PushedOk(Apply(s, a))
  {
    hide AboutToAck;
    var s' := Apply(s, a);
    forall n | n in s'.pushed && n !in s'.acked ensures AboutToAck(s', n) {
      AboutToAckStep(s, a, n);
    }
  }

  lemma AboutToAckStep(s: State, a: Action, n: nat)
    requires Enabled(s, a) && n in Apply(s, a).pushed && n !in Apply(s, a).acked
    requires n in s.pushed && n !in s.acked ==> AboutToAck(s, n)
    ensures AboutToAck(Apply(s, a), n)
  {
    var s' := Apply(s, a);
    if n in s.pushed {
      var w :| 0 <= w < |s.workers| && s.workers[w] == Pushed(n);
      assert s'.workers[w] == Pushed(n);
    } else {
      assert s'.workers[a.w] == Pushed(n);
    }
  }

  lemma CountStep(s: State, a: Action)
    requires CountOk(s) && Enabled(s, a)
    ensures CountOk(Apply(s, a))
  {
    var s' := Apply(s, a);
    if a.Enqueue? || a.SendToBuffer? || a.HandOver? || a.Count? {
      PendingUpdate(s.producers, a.p, s'.producers[a.p]);
    }
    if !(a.Enqueue? || a.SendToBuffer? || a.Count?) {
      WorkersUpdate(s.workers, a.w, s'.workers[a.w], 0);
    }
  }

  lemma PlaceStep(s: State, a: Action, n: nat)
    requires Enabled(s, a) && Places(s, n) == Bit(n < |s.sent|)
    ensures Places(Apply(s, a), n) == Bit(n < |Apply(s, a).sent|)
  {
    hide Occurs, Holders;
    var s' := Apply(s, a);
    if !(a.Enqueue? || a.SendToBuffer? || a.Count?) {
      WorkersUpdate(s.workers, a.w, s'.workers[a.w], n);
    }
    match a
    case SendToBuffer(_) => OccursAppend(s.buffer, |s.sent|, n);
    case Take(_) => OccursFirst(s.buffer, n);
    case PushFail(w) => OccursAppend(s.abandoned, s.workers[w].n, n);
    case Ack(w) => OccursAppend(s.acked, s.workers[w].n, n);
    case _ =>
  }

  lemma OccursFirst(xs: seq<nat>, n: nat)
    requires xs != []
    ensures Occurs(xs, n) == Bit(xs[0] == n) + Occurs(xs[1..], n)
  {
  }

  lemma {:induction false} RunInv(s: State, actions: seq<Action>)
    requires Inv(s) && Legal(s, actions)
    ensures Inv(Run(s, actions))
    decreases |actions|
  {
    hide FifoOk, CountOk, PushedOk, Places, SentOk, ConsumedOk;
    if actions != [] {
      FifoStep(s, actions[0]);
      CountStep(s, actions[0]);
      PushedStep(s, actions[0]);
      SentStep(s, actions[0]);
      ConsumedStep(s, actions[0]);
      forall n: nat ensures Places(Apply(s, actions[0]), n) == Bit(n < |Apply(s, actions[0]).sent|) {
        PlaceStep(s, actions[0], n);
      }
      RunInv(Apply(s, actions[0]), actions[1..]);
    }
  }

  lemma {:induction false} NobodyHolds(workers: seq<WorkerPc>, n: nat)
    requires forall w :: 0 <= w < |workers| ==> workers[w] == Waiting
    ensures Held(workers) == 0 && Holders(workers, n) == 0
  {
    if workers != [] {
      NobodyHolds(workers[1..], n);
    }
  }

  lemma {:induction false} NobodyPending(producers: seq<ProducerPc>)
    requires forall p :: 0 <= p < |producers| ==> producers[p] == Idle
    ensures Pending(producers) == 0
  {
    if producers != [] {
      NobodyPending(producers[1..]);
    }
  }

  lemma InitInv(s: State)
    requires Init(s)
    ensures Inv(s)
  {
    NobodyPending(s.producers);
    forall n: nat ensures Places(s, n) == 0 && Held(s.workers) == 0 {
      NobodyHolds(s.workers, n);
    }
    assert Places(s, 0) == 0;
  }

  // What follows for every interleaving

  /** Each message sent is in exactly one place: buffered, held by one worker, acked, or
      abandoned after a failed push. */
  lemma EveryMessageIsInOnePlace(s: State, actions: seq<Action>, n: nat)
    requires Init(s) && Legal(s, actions)
    ensures Places(Run(s, actions), n) == if n < |Run(s, actions).sent| then 1 else 0
  {
    InitInv(s);
    RunInv(s, actions);
  }

  /** The counter lags behind the messages outstanding by the updates still to come. */
  lemma SizeIsOutstanding(s: State, actions: seq<Action>)
    requires Init(s) && Legal(s, actions)
    ensures var s' := Run(s, actions);
      && s'.size + Pending(s'.producers) == |s'.buffer| + Held(s'.workers) + |s'.abandoned|
      && -|s'.producers| <= s'.size <= |s'.buffer| + Held(s'.workers) + |s'.abandoned|
      && ((forall p :: 0 <= p < |s'.producers| ==> !s'.producers[p].Counting?) ==>
            s'.size == |s'.buffer| + Held(s'.workers) + |s'.abandoned|)
  {
    InitInv(s);
    RunInv(s, actions);
    PendingBounds(Run(s, actions).producers);
  }

  lemma {:induction false} PendingBounds(producers: seq<ProducerPc>)
    ensures Pending(producers) <= |producers|
    ensures (forall p :: 0 <= p < |producers| ==> !producers[p].Counting?) ==> Pending(producers) == 0
  {
    if producers != [] {
      PendingBounds(producers[1..]);
    }
  }

  /** Messages are dequeued in the order they were sent; a message is acked at most once, and
      only after a successful push; one that was pushed has been acked, or its worker is about to. */
  lemma FifoAndAckAfterPush(s: State, actions: seq<Action>)
    requires Init(s) && Legal(s, actions)
    ensures var s' := Run(s, actions);
      && (forall k :: 0 <= k < |s'.taken| ==> s'.taken[k] == k)
      && (forall n: nat :: n in s'.acked ==> n in s'.pushed && Occurs(s'.acked, n) == 1)
      && (forall n: nat :: n in s'.pushed && n !in s'.acked ==> AboutToAck(s', n))
  {
    InitInv(s);
    RunInv(s, actions);
    var s' := Run(s, actions);
    forall n: nat | n in s'.acked ensures Occurs(s'.acked, n) == 1 {
      assert Places(s', n) == Bit(n < |s'.sent|);
      OccursIn(s'.acked, n);
    }
  }

  /** Enqueue returns the id it was given, and it is that id that was sent. */
  lemma EnqueueSendsItsMessage(s: State, actions: seq<Action>, p: nat)
    requires Init(s) && Legal(s, actions) && p < |Run(s, actions).producers| && Run(s, actions).producers[p].Enqueued?
    ensures var s' := Run(s, actions);
      var me := s'.producers[p];
      me.n < |s'.sent| && s'.sent[me.n] == me.id
  {
    InitInv(s);
    RunInv(s, actions);
  }

  /** An Enqueue that finds room, or a worker waiting at an empty channel, can finish by its own steps,
      and a Consume that finds a message can get it to the target. */
  lemma EnqueueAndConsumeCanFinish(s: State, p: nat, w: nat)
    requires p < |s.producers| && s.producers[p].Sending? && w < |s.workers| && s.workers[w].Dequeuing?
    ensures var id := s.producers[p].id;
      && (|s.buffer| < s.capacity ==>
            Can(s, [SendToBuffer(p)] + ([Count(p)] + []))
            && Run(s, [SendToBuffer(p)] + ([Count(p)] + [])).sent == s.sent + [id])
      && (s.buffer == [] ==>
            Can(s, [HandOver(p, w)] + ([Count(p)] + []))
            && Run(s, [HandOver(p, w)] + ([Count(p)] + [])).workers[w..w + 1] == [Holding(|s.sent|)])
      && (s.buffer != [] ==>
            Can(s, [Take(w)] + ([PushOk(w)] + ([Ack(w)] + [])))
            && Run(s, [Take(w)] + ([PushOk(w)] + ([Ack(w)] + []))).acked == s.acked + [s.buffer[0]])
  {
    hide Legal, Run;
    if |s.buffer| < s.capacity {
      var s1 := Apply(s, SendToBuffer(p));
      NoMore(Apply(s1, Count(p)));
      OneMore(s1, Count(p), []);
      OneMore(s, SendToBuffer(p), [Count(p)] + []);
    }
    if s.buffer == [] {
      var s1 := Apply(s, HandOver(p, w));
      NoMore(Apply(s1, Count(p)));
      OneMore(s1, Count(p), []);
      OneMore(s, HandOver(p, w), [Count(p)] + []);
    } else {
      var s1 := Apply(s, Take(w));
      var s2 := Apply(s1, PushOk(w));
      NoMore(Apply(s2, Ack(w)));
      OneMore(s2, Ack(w), []);
      OneMore(s1, PushOk(w), [Ack(w)] + []);
      OneMore(s, Take(w), [PushOk(w)] + ([Ack(w)] + []));
    }
  }

  predicate Can(s: State, actions: seq<Action>) {
    && Legal(s, actions)
    && |Run(s, actions).producers| == |s.producers| && |Run(s, actions).workers| == |s.workers|
  }

  lemma NoMore(s: State)
    ensures Legal(s, []) && Run(s, []) == s
  {
  }

  /** A worker that holds a message acks it by its own steps if the push succeeds; it gives it up if
      the push fails, and only then. */
  lemma PushDecides(s: State, w: nat)
    requires w < |s.workers| && s.workers[w].Holding?
    ensures var n := s.workers[w].n;
      var pushed := Apply(s, PushOk(w));
      var done, failed := Apply(pushed, Ack(w)), Apply(s, PushFail(w));
      && pushed.pushed == s.pushed + [n] && pushed.abandoned == s.abandoned
      && Enabled(pushed, Ack(w)) && done.acked == s.acked + [n] && done.size == s.size - 1
      && done.workers[w] == Consumed(Some(n), true)
      && failed.abandoned == s.abandoned + [n] && failed.pushed == s.pushed && failed.acked == s.acked
      && failed.workers[w] == Consumed(Some(n), false)
  {
  }

  /** A Consume that has returned succeeded if and only if it took a message that was pushed and
      acked; if it took one and failed, that message was abandoned. */
  lemma ConsumeSucceedsExactly(s: State, actions: seq<Action>, w: nat)
    requires Init(s) && Legal(s, actions) && w < |Run(s, actions).workers| && Run(s, actions).workers[w].Consumed?
    ensures var s' := Run(s, actions);
      var me := s'.workers[w];
      && (me.ok <==> me.taken.Some? && me.taken.value in s'.acked && me.taken.value in s'.pushed)
      && (me.taken.Some? && !me.ok ==> me.taken.value in s'.abandoned)
  {
    InitInv(s);
    RunInv(s, actions);
    var s' := Run(s, actions);
    if s'.workers[w].taken.Some? {
      var n := s'.workers[w].taken.value;
      assert Places(s', n) == Bit(n < |s'.sent|);
      OccursIn(s'.acked, n);
      OccursIn(s'.abandoned, n);
    }
  }

  lemma {:induction false} AbandonedStays(s: State, later: seq<Action>)
    requires Legal(s, later)
    ensures s.abandoned <= Run(s, later).abandoned
    decreases |later|
  {
    if later != [] {
      AbandonedStays(Apply(s, later[0]), later[1..]);
    }
  }

  /** This queue does not redeliver: a message whose push failed is never buffered, held or
      acked again, and its share of the counter is never given back. */
  lemma AbandonedIsNeverRedelivered(s: State, actions: seq<Action>, later: seq<Action>, n: nat)
    requires Init(s) && Legal(s, actions) && n in Run(s, actions).abandoned
    requires Legal(Run(s, actions), later)
    ensures var s' := Run(Run(s, actions), later);
      n !in s'.buffer && Holders(s'.workers, n) == 0 && n !in s'.acked && Occurs(s'.abandoned, n) == 1
  {
    InitInv(s);
    RunInv(s, actions);
    RunInv(Run(s, actions), later);
    AbandonedStays(Run(s, actions), later);
    var s' := Run(Run(s, actions), later);
    assert Places(s', n) == Bit(n < |s'.sent|);
    OccursIn(s'.abandoned, n);
    OccursIn(s'.buffer, n);
    OccursIn(s'.acked, n);
  }

  /** Size() can be negative: a fast consumer acks before the producer has counted. */
  lemma SizeCanBeNegative()
    ensures var s := State(1, [], 0, [Idle], [Waiting], [], [], [], [], []);
            var actions := [Enqueue(0, "m"), SendToBuffer(0), Consume(0)] + [Take(0), PushOk(0), Ack(0)];
            Init(s) && Legal(s, actions) && Run(s, actions).size == -1
  {
    hide Run, Legal;
    var s0 := State(1, [], 0, [Idle], [Waiting], [], [], [], [], []);
    var s1 := State(1, [], 0, [Sending("m")], [Waiting], [], [], [], [], []);
    var s2 := State(1, [0], 0, [Counting("m", 0)], [Waiting], ["m"], [], [], [], []);
    var s3 := State(1, [0], 0, [Counting("m", 0)], [Dequeuing], ["m"], [], [], [], []);
    var rest := [Take(0), PushOk(0), Ack(0)];
    assert Apply(s0, Enqueue(0, "m")) == s1 && Apply(s1, SendToBuffer(0)) == s2 && Apply(s2, Consume(0)) == s3;
    AckBeforeCount();
    OneMore(s2, Consume(0), rest);
    OneMore(s1, SendToBuffer(0), [Consume(0)] + rest);
    OneMore(s0, Enqueue(0, "m"), [SendToBuffer(0)] + ([Consume(0)] + rest));
    assert [Enqueue(0, "m")] + ([SendToBuffer(0)] + ([Consume(0)] + rest))
        == [Enqueue(0, "m"), SendToBuffer(0), Consume(0)] + rest;
  }

  lemma AckBeforeCount()
    ensures var s := State(1, [0], 0, [Counting("m", 0)], [Dequeuing], ["m"], [], [], [], []);
            var actions := [Take(0), PushOk(0), Ack(0)];
            Legal(s, actions) && Run(s, actions).size == -1
  {
    var s := State(1, [0], 0, [Counting("m", 0)], [Dequeuing], ["m"], [], [], [], []);
    var s1 := Apply(s, Take(0));
    var s2 := Apply(s1, PushOk(0));
    OneMore(s2, Ack(0), []);
    OneMore(s1, PushOk(0), [Ack(0)]);
    OneMore(s, Take(0), [PushOk(0)] + [Ack(0)]);
    assert [Take(0)] + ([PushOk(0)] + [Ack(0)]) == [Take(0), PushOk(0), Ack(0)];
    assert [Ack(0)] + [] == [Ack(0)];
  }

  lemma OneMore(s: State, a: Action, rest: seq<Action>)
    requires Enabled(s, a) && Legal(Apply(s, a), rest)
    ensures Legal(s, [a] + rest) && Run(s, [a] + rest) == Run(Apply(s, a), rest)
  {
    assert ([a] + rest)[1..] == rest;
  }
}
