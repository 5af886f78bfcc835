/**
  internal/metrics/async.go as a step system: any number of senders and stoppers and the one
  worker, interleaved at every lock, flag and channel access.
 */
module AsyncRecorder {
  import opened Numbers

  datatype Event = Gauge(values: map<string, real>) | Incr(names: seq<string>)

  /** What became of an event given to send: it was the n-th to be accepted, or the recorder was
      found closed, or the channel full. */
  datatype Fate = Accepted(n: nat) | TooLate | Full

  datatype SenderPc =
    | Idle
    | Starting(e: Event)                // before RLock
    | Locked(e: Event)                  // holding the read lock, before the test of closed
    | Open(e: Event)                    // holding the read lock, closed was false
    | Leaving(e: Event, fate: Fate)     // holding the read lock
    | Sent(e: Event, fate: Fate)        // send returned
  {
    predicate HoldsReadLock() {
      Locked? || Open? || Leaving?
    }
  }

  datatype StopperPc =
    | Quiet
    | Stopping                // before Lock
    | Inside                  // holding the lock, before the test of closed
    | Closing                 // holding the lock, closed is set, before close(ch)
    | Unlocking               // holding the lock
    | Waiting                 // in wg.Wait
    | Stopped                 // stop returned
  {
    predicate HoldsLock() {
      Inside? || Closing? || Unlocking?
    }
  }

  datatype WorkerPc = Receiving | Holding(e: Event) | Exited

  datatype Report = Report(e: Event, fate: Fate)

  /** `closes` counts close(ch). Two histories: `accepted` has the events that went into the channel,
      `returned` has, for every send that returned, its event and what became of it. */
  datatype State = State(
    capacity: nat, closed: bool, closes: nat, buffer: seq<Event>, writer: Option<nat>,
    senders: seq<SenderPc>, stoppers: seq<StopperPc>, worker: WorkerPc,
    delivered: seq<Event>, accepted: seq<Event>, returned: seq<Report>)

  predicate Init(s: State) {
    && !s.closed && s.closes == 0 && s.buffer == [] && s.writer == None
    && (forall i :: 0 <= i < |s.senders| ==> s.senders[i] == Idle)
    && (forall j :: 0 <= j < |s.stoppers| ==> s.stoppers[j] == Quiet)
    && s.worker == Receiving && s.delivered == [] && s.accepted == [] && s.returned == []
  }

  datatype Action =
    // a sender
    | Send(i: nat, e: Event) | RLock(i: nat) | TestClosed(i: nat)
    | Buffer(i: nat) | HandOver(i: nat) | Drop(i: nat) | RUnlock(i: nat)
    // a stopper
    | Stop(j: nat) | Lock(j: nat) | SetClosed(j: nat) | CloseChan(j: nat) | Unlock(j: nat) | Joined(j: nat)
    // the worker
    | Receive | Deliver | Exit
  {
    predicate BySender() {
      Send? || RLock? || TestClosed? || Buffer? || HandOver? || Drop? || RUnlock?
    }

    predicate ByStopper() {
      Stop? || Lock? || SetClosed? || CloseChan? || Unlock? || Joined?
    }
  }

  predicate Enabled(s: State, a: Action) {
    if a.BySender() then
      && a.i < |s.senders|
      && var me := s.senders[a.i];
        match a
        case Send(_, _) => me.Idle? || me.Sent?
        case RLock(_) => me.Starting? && s.writer.None?
        case TestClosed(_) => me.Locked?
        // the select: a free slot, or a worker ready to receive, or else the default
        case Buffer(_) => me.Open? && |s.buffer| < s.capacity
        case HandOver(_) => me.Open? && s.buffer == [] && s.worker.Receiving?
        case Drop(_) => me.Open? && |s.buffer| >= s.capacity
        case RUnlock(_) => me.Leaving?
    else if a.ByStopper() then
      && a.j < |s.stoppers|
      && var me := s.stoppers[a.j];
        match a
        case Stop(_) => me.Quiet? || me.Stopped?
        case Lock(_) =>
          me.Stopping? && s.writer.None? && forall i :: 0 <= i < |s.senders| ==> !s.senders[i].HoldsReadLock()
        case SetClosed(_) => me.Inside?
        case CloseChan(_) => me.Closing?
        case Unlock(_) => me.Unlocking?
        case Joined(_) => me.Waiting? && s.worker.Exited?
    else
      match a
      case Receive => s.worker.Receiving? && s.buffer != []
      case Deliver => s.worker.Holding?
      case Exit => s.worker.Receiving? && s.buffer == [] && s.closes > 0
  }

  function SenderMoves(s: State, i: nat, pc: SenderPc): State
    requires i < |s.senders|
  {
    s.(senders := s.senders[i := pc])
  }

  function StopperMoves(s: State, j: nat, pc: StopperPc): State
    requires j < |s.stoppers|
  {
    s.(stoppers := s.stoppers[j := pc])
  }

  function Apply(s: State, a: Action): State
    requires Enabled(s, a)
  {
    match a
    case Send(i, e) => SenderMoves(s, i, Starting(e))
    case RLock(i) => SenderMoves(s, i, Locked(s.senders[i].e))
    case TestClosed(i) => 
      var e := s.senders[i].e;
      SenderMoves(s, i, if s.closed then Leaving(e, TooLate) else Open(e))
    case Buffer(i) =>
      var e := s.senders[i].e;
      SenderMoves(s, i, Leaving(e, Accepted(|s.accepted|))).(buffer := s.buffer + [e], accepted := s.accepted + [e])
    case HandOver(i) =>
      var e := s.senders[i].e;
      SenderMoves(s, i, Leaving(e, Accepted(|s.accepted|))).(worker := Holding(e), accepted := s.accepted + [e])
    case Drop(i) => SenderMoves(s, i, Leaving(s.senders[i].e, Full))
    case RUnlock(i) =>
      var me := s.senders[i];
      SenderMoves(s, i, Sent(me.e, me.fate)).(returned := s.returned + [Report(me.e, me.fate)])
    case Stop(j) => StopperMoves(s, j, Stopping)
    case Lock(j) => StopperMoves(s, j, Inside).(writer := Some(j))
    case SetClosed(j) => if s.closed then StopperMoves(s, j, Unlocking) else StopperMoves(s, j, Closing).(closed := true)
    case CloseChan(j) => StopperMoves(s, j, Unlocking).(closes := s.closes + 1)
    case Unlock(j) => StopperMoves(s, j, Waiting).(writer := None)
    case Joined(j) => StopperMoves(s, j, Stopped)
    case Receive => s.(worker := Holding(s.buffer[0]), buffer := s.buffer[1..])
    case Deliver => s.(worker := Receiving, delivered := s.delivered + [s.worker.e])
    case Exit => s.(worker := Exited)
  }

  /** A sequence of actions, each enabled when it is taken: one interleaving. */
  predicate Legal(s: State, actions: seq<Action>)
    decreases |actions|
  {
    actions == [] || (Enabled(s, actions[0]) && Legal(Apply(s, actions[0]), actions[1..]))
  }

  function Run(s: State, actions: seq<Action>): State
    requires Legal(s, actions)
    decreases |actions|
  {
    if actions == [] then s else Run(Apply(s, actions[0]), actions[1..])
  }

  // The invariant

  function InHand(w: WorkerPc): seq<Event> {
    if w.Holding? then [w.e] else []
  }

  /** Readers and the writer exclude each other. */
  ghost predicate LocksOk(s: State) {
    && (s.writer.Some? ==> s.writer.value < |s.stoppers|)
    && (forall j :: 0 <= j < |s.stoppers| ==> (s.stoppers[j].HoldsLock() <==> s.writer == Some(j)))
    && (s.writer.Some? ==> forall i :: 0 <= i < |s.senders| ==> !s.senders[i].HoldsReadLock())
  }

  /** The flag and the channel agree except between setting the one and closing the other,
      and whoever has seen the flag down still holds the lock. */
  ghost predicate FlagOk(s: State) {
    && s.closes == (if s.closed && !(s.writer.Some? && s.writer.value < |s.stoppers| && s.stoppers[s.writer.value].Closing?)
                    then 1 else 0)
    && (s.writer.Some? && s.writer.value < |s.stoppers| && s.stoppers[s.writer.value].Closing? ==> s.closed)
    && (forall i :: 0 <= i < |s.senders| && s.senders[i].Open? ==> !s.closed)
    && (forall j :: 0 <= j < |s.stoppers| && (s.stoppers[j].Unlocking? || s.stoppers[j].Waiting?) ==> s.closes == 1)
  }

  /** Nothing accepted is lost, duplicated or reordered; the worker leaves an empty channel. */
  ghost predicate QueueOk(s: State) {
    && s.delivered + InHand(s.worker) + s.buffer == s.accepted
    && |s.buffer| <= s.capacity
    && (s.worker.Exited? ==> s.closes == 1 && s.buffer == [])
    && (forall j :: 0 <= j < |s.stoppers| && s.stoppers[j].Stopped? ==> s.worker.Exited?)
  }

  /** What is known of an event by its fate. */
  predicate FateHolds(s: State, e: Event, fate: Fate) {
    match fate
    case Accepted(n) => n < |s.accepted| && s.accepted[n] == e
    case TooLate => s.closed
    case Full => true
  }

  /** Not the same place among the accepted events. */
  predicate Distinct(a: Fate, b: Fate) {
    a.Accepted? && b.Accepted? ==> a.n != b.n
  }

  /** Every send that has decided tells the truth ... */
  ghost predicate TruthOk(s: State) {
    && (forall i :: 0 <= i < |s.senders| && s.senders[i].Leaving? ==> FateHolds(s, s.senders[i].e, s.senders[i].fate))
    && (forall k :: 0 <= k < |s.returned| ==> FateHolds(s, s.returned[k].e, s.returned[k].fate))
  }

  /** ... and no two tell of the same place. */
  ghost predicate DistinctOk(s: State) {
    && (forall i, j :: 0 <= i < j < |s.senders| && s.senders[i].Leaving? && s.senders[j].Leaving? ==>
          Distinct(s.senders[i].fate, s.senders[j].fate))
    && (forall i, k :: 0 <= i < |s.senders| && s.senders[i].Leaving? && 0 <= k < |s.returned| ==>
          Distinct(s.senders[i].fate, s.returned[k].fate))
    && (forall j, k :: 0 <= j < k < |s.returned| ==> Distinct(s.returned[j].fate, s.returned[k].fate))
  }

  ghost predicate Inv(s: State) {
    LocksOk(s) && FlagOk(s) && QueueOk(s) && TruthOk(s) && DistinctOk(s)
  }

  lemma TruthStep(s: State, a: Action)
    requires TruthOk(s) && Enabled(s, a)
    ensures TruthOk(Apply(s, a))
  {
    hide Distinct;
  }

  predicate Accepts(a: Action) {
    a.Buffer? || a.HandOver?
  }

  lemma DistinctStep(s: State, a: Action)
    requires TruthOk(s) && DistinctOk(s) && Accepts(a) && Enabled(s, a)
    ensures DistinctOk(Apply(s, a))
  {
  }

  lemma SameDistinctStep(s: State, a: Action)
    requires DistinctOk(s) && !Accepts(a) && Enabled(s, a)
    ensures DistinctOk(Apply(s, a))
  {
    hide FateHolds;
  }

  lemma FatesStep(s: State, a: Action)
    requires TruthOk(s) && DistinctOk(s) && Enabled(s, a)
    ensures TruthOk(Apply(s, a)) && DistinctOk(Apply(s, a))
  {
    hide TruthOk, DistinctOk, Enabled, Apply;
    TruthStep(s, a);
    if Accepts(a) {
      DistinctStep(s, a);
    } else {
      SameDistinctStep(s, a);
    }
  }

  lemma LocksStep(s: State, a: Action)
    requires LocksOk(s) && Enabled(s, a)
    ensures LocksOk(Apply(s, a))
  {
  }

  lemma FlagStep(s: State, a: Action)
    requires LocksOk(s) && FlagOk(s) && Enabled(s, a)
    ensures FlagOk(Apply(s, a))
  {
  }

  lemma OrderStep(s: State, a: Action)
    requires s.delivered + InHand(s.worker) + s.buffer == s.accepted && Enabled(s, a)
    ensures var s' := Apply(s, a); s'.delivered + InHand(s'.worker) + s'.buffer == s'.accepted
  {
    var s' := Apply(s, a);
    if a.Buffer? {
      assert s'.accepted == s.delivered + InHand(s.worker) + (s.buffer + [s.senders[a.i].e]);
    }
  }

  lemma QueueStep(s: State, a: Action)
    requires LocksOk(s) && FlagOk(s) && QueueOk(s) && Enabled(s, a)
    ensures QueueOk(Apply(s, a))
  {
    hide InHand;
    OrderStep(s, a);
  }

  lemma {:induction false} RunInv(s: State, actions: seq<Action>)
    requires Inv(s) && Legal(s, actions)
    ensures Inv(Run(s, actions))
    decreases |actions|
  {
    hide LocksOk, FlagOk, QueueOk, TruthOk, DistinctOk;
    if actions != [] {
      LocksStep(s, actions[0]);
      FlagStep(s, actions[0]);
      QueueStep(s, actions[0]);
      FatesStep(s, actions[0]);
      RunInv(Apply(s, actions[0]), actions[1..]);
    }
  }

  lemma InitInv(s: State)
    requires Init(s)
    ensures Inv(s)
  {
  }

  // What follows for every interleaving

  /** The channel is never sent to after it was closed, and never closed twice: neither panic
      of Go can happen. */
  lemma NoPanic(s: State, actions: seq<Action>, a: Action)
    requires Init(s) && Legal(s, actions) && Enabled(Run(s, actions), a)
    requires a.Buffer? || a.HandOver? || a.Drop? || a.CloseChan?
    ensures Run(s, actions).closes == 0
  {
    InitInv(s);
    RunInv(s, actions);
  }

  /** Delivered, in hand, buffered: at every moment these are the accepted events, in order. */
  lemma NothingIsLost(s: State, actions: seq<Action>)
    requires Init(s) && Legal(s, actions)
    ensures var s' := Run(s, actions);
      s'.delivered + InHand(s'.worker) + s'.buffer == s'.accepted && |s'.buffer| <= s'.capacity
  {
    InitInv(s);
    RunInv(s, actions);
  }

  /** Every send that has returned is accounted for: its very event is at its own place among the
      accepted ones, or the recorder was closed, or the channel was full. */
  lemma EverySendIsAccountedFor(s: State, actions: seq<Action>)
    requires Init(s) && Legal(s, actions)
    ensures var s' := Run(s, actions);
      && (forall k :: 0 <= k < |s'.returned| ==> FateHolds(s', s'.returned[k].e, s'.returned[k].fate))
      && (forall j, k :: 0 <= j < k < |s'.returned| ==> Distinct(s'.returned[j].fate, s'.returned[k].fate))
  {
    InitInv(s);
    RunInv(s, actions);
  }

  /** How a send decides, in every interleaving: it keeps the event it was given until then; it gives
      up only if it finds the flag up, or the channel full to capacity; otherwise the event is
      accepted, and is in the channel or in the worker's hands. */
  lemma SendDecides(s: State, actions: seq<Action>, a: Action, i: nat)
    requires Init(s) && Legal(s, actions) && Enabled(Run(s, actions), a) && i < |Run(s, actions).senders|
    ensures var before := Run(s, actions);
      var after := Apply(before, a);
      var was, now := before.senders[i], after.senders[i];
      && (was.Starting? || was.Locked? || was.Open? ==> !now.Idle? && now.e == was.e)
      && (now != was && now.Leaving? ==>
            match now.fate
            case TooLate => a == TestClosed(i) && before.closed
            case Full => a == Drop(i) && !before.closed && |before.buffer| == before.capacity
            case Accepted(n) =>
              && !before.closed && n == |before.accepted| && after.accepted == before.accepted + [now.e]
              && (after.buffer == before.buffer + [now.e] || after.worker == Holding(now.e)))
      && (now != was && now.Sent? ==> was == Leaving(now.e, now.fate) && after.returned == before.returned + [Report(now.e, now.fate)])
  {
    hide Enabled, Apply, TruthOk, DistinctOk, LocksOk;
    InitInv(s);
    RunInv(s, actions);
    DecideStep(Run(s, actions), a, i);
  }

  lemma DecideStep(s: State, a: Action, i: nat)
    requires FlagOk(s) && |s.buffer| <= s.capacity && Enabled(s, a) && i < |s.senders|
    ensures var s' := Apply(s, a);
      var was, now := s.senders[i], s'.senders[i];
      && (was.Starting? || was.Locked? || was.Open? ==> !now.Idle? && now.e == was.e)
      && (now != was && now.Leaving? ==>
            match now.fate
            case TooLate => a == TestClosed(i) && s.closed
            case Full => a == Drop(i) && !s.closed && |s.buffer| == s.capacity
            case Accepted(n) =>
              && !s.closed && n == |s.accepted| && s'.accepted == s.accepted + [now.e]
              && (s'.buffer == s.buffer + [now.e] || s'.worker == Holding(now.e)))
      && (now != was && now.Sent? ==> was == Leaving(now.e, now.fate) && s'.returned == s.returned + [Report(now.e, now.fate)])
  {
  }

  lemma OneMore(s: State, a: Action, rest: seq<Action>)
    requires Enabled(s, a) && Legal(Apply(s, a), rest)
    ensures Legal(s, [a] + rest) && Run(s, [a] + rest) == Run(Apply(s, a), rest)
  {
    assert ([a] + rest)[1..] == rest;
  }

  /** A send that finds no writer, the flag down, and room or a worker waiting at an empty channel,
      can finish by its own steps, and its event is accepted. */
  lemma SendCanFinish(s: State, i: nat)
    requires i < |s.senders| && s.senders[i].Starting? && s.writer.None? && !s.closed
    requires |s.buffer| < s.capacity || (s.buffer == [] && s.worker.Receiving?)
    ensures var e := s.senders[i].e;
      var into := if |s.buffer| < s.capacity then Buffer(i) else HandOver(i);
      var steps := [RLock(i)] + ([TestClosed(i)] + ([into] + ([RUnlock(i)] + [])));
      && Legal(s, steps) && Run(s, steps).accepted == s.accepted + [e]
      && |Run(s, steps).senders| == |s.senders| && Run(s, steps).senders[i] == Sent(e, Accepted(|s.accepted|))
  {
    hide Legal, Run;
    var into := if |s.buffer| < s.capacity then Buffer(i) else HandOver(i);
    var s1 := Apply(s, RLock(i));
    var s2 := Apply(s1, TestClosed(i));
    var s3 := Apply(s2, into);
    NoMore(Apply(s3, RUnlock(i)));
    OneMore(s3, RUnlock(i), []);
    OneMore(s2, into, [RUnlock(i)] + []);
    OneMore(s1, TestClosed(i), [into] + ([RUnlock(i)] + []));
    OneMore(s, RLock(i), [TestClosed(i)] + ([into] + ([RUnlock(i)] + [])));
  }

  /** A first stop that finds no one at the lock can close the channel by its own steps; from there the
      worker drains it (WorkerDrains) and the stop can return. */
  lemma StopCanClose(s: State, j: nat)
    requires j < |s.stoppers| && s.stoppers[j].Stopping? && s.writer.None? && !s.closed
    requires forall i :: 0 <= i < |s.senders| ==> !s.senders[i].HoldsReadLock()
    ensures var steps := [Lock(j)] + ([SetClosed(j)] + ([CloseChan(j)] + ([Unlock(j)] + [])));
      && Legal(s, steps)
      && Run(s, steps) == s.(closed := true, closes := s.closes + 1, stoppers := s.stoppers[j := Waiting])
      && (Run(s, steps).worker.Exited? ==> Enabled(Run(s, steps), Joined(j)))
  {
    hide Legal, Run;
    var s1 := Apply(s, Lock(j));
    var s2 := Apply(s1, SetClosed(j));
    var s3 := Apply(s2, CloseChan(j));
    NoMore(Apply(s3, Unlock(j)));
    OneMore(s3, Unlock(j), []);
    OneMore(s2, CloseChan(j), [Unlock(j)] + []);
    OneMore(s1, SetClosed(j), [CloseChan(j)] + ([Unlock(j)] + []));
    OneMore(s, Lock(j), [SetClosed(j)] + ([CloseChan(j)] + ([Unlock(j)] + [])));
    assert Apply(s3, Unlock(j)).stoppers == s.stoppers[j := Waiting];
  }

  lemma NoMore(s: State)
    ensures Legal(s, []) && Run(s, []) == s
  {
  }

  /** When any stop has returned, exactly the accepted events have been delivered, each once
      and in order, and whatever happens afterwards nothing more is accepted or delivered. */
  lemma StopDrains(s: State, actions: seq<Action>, j: nat, later: seq<Action>)
    requires Init(s) && Legal(s, actions)
    requires j < |Run(s, actions).stoppers| && Run(s, actions).stoppers[j].Stopped?
    requires Legal(Run(s, actions), later)
    ensures var s' := Run(s, actions);
      && s'.delivered == s'.accepted
      && Run(s', later).delivered == s'.delivered
      && Run(s', later).accepted == s'.accepted
  {
    InitInv(s);
    RunInv(s, actions);
    NothingAfterExit(Run(s, actions), later);
  }

  lemma ExitedStep(s: State, a: Action)
    requires Inv(s) && s.worker.Exited? && Enabled(s, a)
    ensures Apply(s, a).worker.Exited?
    ensures Apply(s, a).delivered == s.delivered && Apply(s, a).accepted == s.accepted
  {
  }

  lemma {:induction false} NothingAfterExit(s: State, later: seq<Action>)
    requires Inv(s) && s.worker.Exited? && Legal(s, later)
    ensures Run(s, later).delivered == s.delivered && Run(s, later).accepted == s.accepted
    decreases |later|
  {
    hide Inv;
    if later != [] {
      ExitedStep(s, later[0]);
      assert Inv(Apply(s, later[0])) by {
        RunInv(s, [later[0]]);
        assert Run(s, [later[0]]) == Apply(s, later[0]);
      }
      NothingAfterExit(Apply(s, later[0]), later[1..]);
    }
  }

  function StepsLeft(w: WorkerPc): nat {
    match w
    case Holding(_) => 2
    case Receiving => 1
    case Exited => 0
  }

  /** Once the channel is closed the worker needs no one else to finish: its own steps deliver
      everything accepted and let every waiting stop return. */
  function Drain(s: State): seq<Action>
    decreases |s.buffer|, StepsLeft(s.worker)
  {
    match s.worker
    case Exited => []
    case Holding(e) => [Deliver] + Drain(s.(worker := Receiving, delivered := s.delivered + [e]))
    case Receiving =>
      if s.buffer == [] then [Exit]
      else [Receive] + Drain(s.(worker := Holding(s.buffer[0]), buffer := s.buffer[1..]))
  }

  lemma {:induction false} WorkerDrains(s: State)
    requires Inv(s) && s.closes > 0
    ensures Legal(s, Drain(s))
    ensures Run(s, Drain(s)) == s.(worker := Exited, buffer := [], delivered := s.accepted)
    decreases |s.buffer|, StepsLeft(s.worker)
  {
    if !s.worker.Exited? {
      var a := Drain(s)[0];
      var s' := Apply(s, a);
      LocksStep(s, a);
      FlagStep(s, a);
      QueueStep(s, a);
      FatesStep(s, a);
      WorkerDrains(s');
      assert Drain(s) == [a] + Drain(s');
      assert Drain(s)[1..] == Drain(s');
    }
  }
}
