/**
  app/repositories/queue/switchable/switchable.go as a step system: any number of callers of
  Dequeue and of SetType, interleaved at every lock, channel and field access.
 */
module QueueSwitch {
  import opened Numbers

  /** What the active queue's Dequeue returns: a message, the cancellation of the context it
      was given, or an error of its own. */
  datatype Outcome = Message(id: nat) | Cancelled | BrokerError(code: nat)

  datatype CallerPc =
    | Idle
    | Starting                                          // top of the retry loop
    | Reading                                           // in snapshot, holding the read lock
    | Snapped(inst: nat, ch: nat)                       // has read active and switched, still locked
    | Waiting(inst: nat, ch: nat, cancelled: bool)      // in active.Dequeue; was its context cancelled?
    | CheckingErr(ch: nat, outcome: Outcome)            // before err == nil
    | CheckingCtx(ch: nat, outcome: Outcome)            // before ctx.Err() != nil
    | CheckingChan(ch: nat, outcome: Outcome)           // before !isClosed(switched)
    | Returned(outcome: Outcome)
  {
    predicate HoldsReadLock() {
      Reading? || Snapped?
    }

    predicate HasOutcome() {
      CheckingErr? || CheckingCtx? || CheckingChan?
    }
  }

  /** `ctxDone` is the caller's own context. The counts are of this call: how often it retried,
      and how many channels had been closed when it began. */
  datatype Caller = Caller(pc: CallerPc, ctxDone: bool, retries: nat, base: nat)

  datatype SwitcherPc =
    | Out
    | Wanting(t: string)                  // before buildMu.Lock
    | Building(t: string)                 // holding buildMu
    | Ready(t: string, inst: nat)         // has the instance, before mu.Lock
    | Locked(t: string, inst: nat)        // holding mu
    | ActiveSet(t: string, inst: nat)     // holding mu, q.active assigned
    | TypeSet(t: string, inst: nat)       // holding mu, q.activeType assigned too
    | ChanClosed(t: string, inst: nat)    // holding mu, q.switched closed
    | Leaving(t: string, inst: nat)       // holding mu, nothing left to do
    | Done(ok: bool)
  {
    predicate HoldsLock() {
      Locked? || ActiveSet? || TypeSet? || ChanClosed? || Leaving?
    }

    predicate HasSetType() {
      TypeSet? || ChanClosed? || Leaving?
    }

    predicate HasInstance() {
      Ready? || Locked? || ActiveSet? || TypeSet? || ChanClosed? || Leaving?
    }
  }

  /** Channels and instances are numbered in the order they are made; `closes` counts the
      close calls on each channel. */
  datatype State = State(
    callers: seq<Caller>, switchers: seq<SwitcherPc>,
    builder: Option<nat>, writer: Option<nat>,
    built: map<string, nat>, made: nat,
    active: nat, activeType: string,
    closes: seq<nat>, switched: nat)

  /** New: one instance, of the configured type, and one open channel. */
  predicate Init(s: State) {
    && (forall c :: 0 <= c < |s.callers| ==> s.callers[c].pc == Idle)
    && (forall w :: 0 <= w < |s.switchers| ==> s.switchers[w] == Out)
    && s.builder == None && s.writer == None
    && s.built == map[s.activeType := 0] && s.made == 1 && s.active == 0
    && s.closes == [0] && s.switched == 0
  }

  datatype Action =
    // a caller of Dequeue
    | Call(c: nat) | CtxDone(c: nat)
    | RLock(c: nat) | Snapshot(c: nat) | RUnlock(c: nat)
    | Cancel(c: nat) | Receive(c: nat, id: nat) | Fail(c: nat, code: nat) | Abort(c: nat)
    | CheckErr(c: nat) | CheckCtx(c: nat) | CheckChan(c: nat)
    // a caller of SetType
    | Want(w: nat, t: string) | LockBuild(w: nat) | Build(w: nat, ok: bool)
    | Lock(w: nat) | CompareAndSetActive(w: nat) | SetActiveType(w: nat)
    | CloseChan(w: nat) | MakeChan(w: nat) | Unlock(w: nat)
  {
    predicate ByCaller() {
      Call? || CtxDone? || RLock? || Snapshot? || RUnlock? || Cancel? || Receive? || Fail? || Abort?
      || CheckErr? || CheckCtx? || CheckChan?
    }
  }

  predicate CallerEnabled(s: State, a: Action)
    requires a.ByCaller()
  {
    && a.c < |s.callers|
    && var me := s.callers[a.c];
      match a
      case Call(_) => me.pc.Idle? || me.pc.Returned?
      case CtxDone(_) => true
      case RLock(_) => me.pc.Starting? && s.writer.None?
      case Snapshot(_) => me.pc.Reading?
      case RUnlock(_) => me.pc.Snapped?
      // the watching goroutine, or the parent context
      case Cancel(_) =>
        me.pc.Waiting? && !me.pc.cancelled && ((me.pc.ch < |s.closes| && s.closes[me.pc.ch] > 0) || me.ctxDone)
      case Receive(_, _) => me.pc.Waiting?
      case Fail(_, _) => me.pc.Waiting?
      case Abort(_) => me.pc.Waiting? && me.pc.cancelled
      case CheckErr(_) => me.pc.CheckingErr?
      case CheckCtx(_) => me.pc.CheckingCtx?
      case CheckChan(_) => me.pc.CheckingChan? && me.pc.ch < |s.closes|
  }

  predicate SwitcherEnabled(s: State, a: Action)
    requires !a.ByCaller()
  {
    && a.w < |s.switchers|
    && var me := s.switchers[a.w];
      match a
      case Want(_, _) => me.Out? || me.Done?
      case LockBuild(_) => me.Wanting? && s.builder.None?
      case Build(_, _) => me.Building?
      case Lock(_) => me.Ready? && s.writer.None? && forall c :: 0 <= c < |s.callers| ==> !s.callers[c].pc.HoldsReadLock()
      case CompareAndSetActive(_) => me.Locked?
      case SetActiveType(_) => me.ActiveSet?
      case CloseChan(_) => me.TypeSet? && s.switched < |s.closes|
      case MakeChan(_) => me.ChanClosed?
      case Unlock(_) => me.Leaving?
  }

  predicate Enabled(s: State, a: Action) {
    if a.ByCaller() then CallerEnabled(s, a) else SwitcherEnabled(s, a)
  }

  /** How many channels are closed: the number of switches that have taken effect. */
  function Switches(s: State): nat {
    if s.switched < |s.closes| && s.closes[s.switched] > 0 then s.switched + 1 else s.switched
  }

  function CallerAfter(s: State, a: Action): Caller
    requires a.ByCaller() && CallerEnabled(s, a)
  {
    var me := s.callers[a.c];
    match a
    case Call(_) => Caller(Starting, false, 0, Switches(s))
    case CtxDone(_) => me.(ctxDone := true)
    case RLock(_) => me.(pc := Reading)
    case Snapshot(_) => me.(pc := Snapped(s.active, s.switched))
    case RUnlock(_) => me.(pc := Waiting(me.pc.inst, me.pc.ch, false))
    case Cancel(_) => me.(pc := me.pc.(cancelled := true))
    case Receive(_, id) => me.(pc := CheckingErr(me.pc.ch, Message(id)))
    case Fail(_, code) => me.(pc := CheckingErr(me.pc.ch, BrokerError(code)))
    case Abort(_) => me.(pc := CheckingErr(me.pc.ch, Cancelled))
    case CheckErr(_) =>
      if me.pc.outcome.Message? then me.(pc := Returned(me.pc.outcome))
      else me.(pc := CheckingCtx(me.pc.ch, me.pc.outcome))
    case CheckCtx(_) =>
      if me.ctxDone then me.(pc := Returned(me.pc.outcome))
      else me.(pc := CheckingChan(me.pc.ch, me.pc.outcome))
    case CheckChan(_) =>
      if s.closes[me.pc.ch] == 0 then me.(pc := Returned(me.pc.outcome))
      else me.(pc := Starting, retries := me.retries + 1)
  }

  function SwitcherMoves(s: State, w: nat, pc: SwitcherPc): State
    requires w < |s.switchers|
  {
    s.(switchers := s.switchers[w := pc])
  }

  function SwitcherAfter(s: State, a: Action): State
    requires !a.ByCaller() && SwitcherEnabled(s, a)
  {
    var w, me := a.w, s.switchers[a.w];
    match a
    case Want(_, t) => SwitcherMoves(s, w, Wanting(t))
    case LockBuild(_) => SwitcherMoves(s, w, Building(me.t)).(builder := Some(w))
    case Build(_, ok) =>
      var unlocked := s.(builder := None);
      if me.t in s.built then SwitcherMoves(unlocked, w, Ready(me.t, s.built[me.t]))
      else if ok then
        SwitcherMoves(unlocked, w, Ready(me.t, s.made)).(built := s.built[me.t := s.made], made := s.made + 1)
      else SwitcherMoves(unlocked, w, Done(false))
    case Lock(_) => SwitcherMoves(s, w, Locked(me.t, me.inst)).(writer := Some(w))
    case CompareAndSetActive(_) =>
      if me.t == s.activeType then SwitcherMoves(s, w, Leaving(me.t, me.inst))
      else SwitcherMoves(s, w, ActiveSet(me.t, me.inst)).(active := me.inst)
    case SetActiveType(_) => SwitcherMoves(s, w, TypeSet(me.t, me.inst)).(activeType := me.t)
    case CloseChan(_) =>
      SwitcherMoves(s, w, ChanClosed(me.t, me.inst)).(closes := s.closes[s.switched := s.closes[s.switched] + 1])
    case MakeChan(_) => SwitcherMoves(s, w, Leaving(me.t, me.inst)).(closes := s.closes + [0], switched := |s.closes|)
    case Unlock(_) => SwitcherMoves(s, w, Done(true)).(writer := None)
  }

  function Apply(s: State, a: Action): State
    requires Enabled(s, a)
  {
    if a.ByCaller() then s.(callers := s.callers[a.c := CallerAfter(s, a)]) else SwitcherAfter(s, a)
  }

  /** A sequence of actions, each enabled when it is taken: one interleaving. */
  predicate Legal(s: State, actions: seq<Action>)
    decreases |actions|
  {
    actions == [] || (Enabled(s, actions[0]) && Legal(Apply(s, actions[0]), actions[1..]))
  }

  function Run(s: State, actions: seq<Action>): State
    requires Legal(s, actions)
    decreases |actions|
  {
    if actions == [] then s else Run(Apply(s, actions[0]), actions[1..])
  }

  // The invariant

  ghost predicate LocksOk(s: State) {
    && (forall w :: 0 <= w < |s.switchers| ==> (s.switchers[w].HoldsLock() <==> s.writer == Some(w)))
    && (forall w :: 0 <= w < |s.switchers| ==> (s.switchers[w].Building? <==> s.builder == Some(w)))
    && (s.writer.Some? ==> s.writer.value < |s.switchers|)
    && (s.writer.Some? ==> forall c :: 0 <= c < |s.callers| ==> !s.callers[c].pc.HoldsReadLock())
  }

  /** The writer, if there is one, has got to this point of its critical section. */
  predicate WriterAt(s: State, at: SwitcherPc -> bool) {
    s.writer.Some? && s.writer.value < |s.switchers| && at(s.switchers[s.writer.value])
  }

  /** The channel in the field is open, except between close and make; every earlier channel
      was closed exactly once. */
  ghost predicate ChannelsOk(s: State) {
    && |s.closes| == s.switched + 1
    && (forall k :: 0 <= k < s.switched ==> s.closes[k] == 1)
    && s.closes[s.switched] == if WriterAt(s, (pc: SwitcherPc) => pc.ChanClosed?) then 1 else 0
  }

  /** No type has been built twice, and every instance a switcher holds is the cached one. */
  ghost predicate CacheOk(s: State) {
    && |s.built| == s.made
    && (forall t :: t in s.built ==> s.built[t] < s.made)
    && (forall t, u :: t in s.built && u in s.built && t != u ==> s.built[t] != s.built[u])
    && (forall w :: 0 <= w < |s.switchers| && s.switchers[w].HasInstance() ==>
          s.switchers[w].t in s.built && s.built[s.switchers[w].t] == s.switchers[w].inst)
  }

  /** The active queue is the cached instance of the active type, except between the two
      assignments. */
  ghost predicate ActiveOk(s: State) {
    && s.activeType in s.built
    && (if WriterAt(s, (pc: SwitcherPc) => pc.ActiveSet?) then s.active == s.switchers[s.writer.value].inst
        else s.active == s.built[s.activeType])
  }

  /** A switcher assigns only a type that is not active, and leaves it active. */
  ghost predicate TypeOk(s: State) {
    && (forall w :: 0 <= w < |s.switchers| && s.switchers[w].ActiveSet? ==> s.switchers[w].t != s.activeType)
    && (forall w :: 0 <= w < |s.switchers| && s.switchers[w].HasSetType() ==> s.switchers[w].t == s.activeType)
  }

  predicate Closed(s: State, ch: nat) {
    ch < |s.closes| && s.closes[ch] > 0
  }

  /** The queue has been assigned and its channel not been closed yet. */
  predicate Assigning(s: State) {
    WriterAt(s, (pc: SwitcherPc) => pc.ActiveSet? || pc.TypeSet?)
  }

  /** What one caller knows. */
  ghost predicate CallerOk(s: State, me: Caller) {
    match me.pc
    case Idle => true
    case Starting => me.base + me.retries <= Switches(s)
    case Reading => me.base + me.retries <= Switches(s)
    case Snapped(inst, ch) =>
      me.base + me.retries <= ch && ch == s.switched && !Closed(s, ch) && inst == s.active
    case Waiting(inst, ch, cancelled) =>
      && me.base + me.retries <= ch <= s.switched && (cancelled ==> Closed(s, ch) || me.ctxDone)
      && (!Closed(s, ch) && !Assigning(s) ==> inst == s.active)
    case CheckingErr(ch, outcome) =>
      me.base + me.retries <= ch <= s.switched && (outcome.Cancelled? ==> Closed(s, ch) || me.ctxDone)
    case CheckingCtx(ch, outcome) =>
      me.base + me.retries <= ch <= s.switched && !outcome.Message?
      && (outcome.Cancelled? ==> Closed(s, ch) || me.ctxDone)
    case CheckingChan(ch, outcome) =>
      me.base + me.retries <= ch <= s.switched && !outcome.Message? && (outcome.Cancelled? ==> Closed(s, ch))
    case Returned(outcome) =>
      me.base + me.retries <= Switches(s) && (outcome.Cancelled? ==> me.ctxDone)
  }

  ghost predicate Inv(s: State) {
    && LocksOk(s) && ChannelsOk(s) && CacheOk(s) && ActiveOk(s) && TypeOk(s)
    && forall c :: 0 <= c < |s.callers| ==> CallerOk(s, s.callers[c])
  }

  lemma InitInv(s: State)
    requires Init(s)
    ensures Inv(s)
  {
  }

  lemma CallerKeepsLocks(s: State, a: Action)
    requires LocksOk(s) && a.ByCaller() && CallerEnabled(s, a)
    ensures LocksOk(Apply(s, a))
  {
  }

  lemma CallerMovesOk(s: State, a: Action)
    requires Inv(s) && a.ByCaller() && CallerEnabled(s, a)
    ensures CallerOk(s, CallerAfter(s, a))
  {
    assert CallerOk(s, s.callers[a.c]);
  }

  /** The rest of the invariant does not look at the other callers. */
  lemma CallersAreSeparate(s: State, callers: seq<Caller>)
    ensures var s' := s.(callers := callers);
      && ChannelsOk(s') == ChannelsOk(s) && CacheOk(s') == CacheOk(s)
      && ActiveOk(s') == ActiveOk(s) && TypeOk(s') == TypeOk(s)
      && forall me :: CallerOk(s', me) == CallerOk(s, me)
  {
  }

  lemma CallerStep(s: State, a: Action)
    requires Inv(s) && a.ByCaller() && CallerEnabled(s, a)
    ensures Inv(Apply(s, a))
  {
    hide CallerAfter, LocksOk, ChannelsOk, CacheOk, ActiveOk, TypeOk, CallerOk;
    CallerKeepsLocks(s, a);
    CallerMovesOk(s, a);
    CallersAreSeparate(s, s.callers[a.c := CallerAfter(s, a)]);
  }

  /** Nothing a switcher does to the channels and the instances disturbs a caller. */
  lemma CallersKeep(s: State, s': State)
    requires Inv(s) && s'.callers == s.callers && |s.closes| <= |s'.closes| && s.switched <= s'.switched
    requires forall k :: 0 <= k < |s.closes| && s.closes[k] > 0 ==> s'.closes[k] > 0
    requires Switches(s) <= Switches(s')
    requires s.writer.Some? || (s'.switched == s.switched && s'.closes == s.closes && s'.active == s.active)
    requires Closed(s', s.switched) || Assigning(s') || (!Assigning(s) && s'.active == s.active)
    requires forall k :: 0 <= k < s.switched ==> s.closes[k] > 0
    ensures forall c :: 0 <= c < |s'.callers| ==> CallerOk(s', s'.callers[c])
  {
    forall c | 0 <= c < |s'.callers| ensures CallerOk(s', s'.callers[c]) {
      assert CallerOk(s, s.callers[c]);
    }
  }

  predicate MovesLocks(a: Action) {
    a.LockBuild? || a.Build? || a.Lock? || a.Unlock?
  }

  lemma LockingStep(s: State, a: Action)
    requires LocksOk(s) && !a.ByCaller() && MovesLocks(a) && SwitcherEnabled(s, a)
    ensures LocksOk(SwitcherAfter(s, a))
  {
  }

  lemma LocksStep(s: State, a: Action)
    requires LocksOk(s) && !a.ByCaller() && !MovesLocks(a) && SwitcherEnabled(s, a)
    ensures LocksOk(SwitcherAfter(s, a))
  {
  }

  /** What a switcher does, as far as callers can tell. */
  lemma SeenByCallers(s: State, a: Action)
    requires LocksOk(s) && ChannelsOk(s) && !a.ByCaller() && SwitcherEnabled(s, a)
    ensures var s' := SwitcherAfter(s, a);
      && s'.callers == s.callers && |s.closes| <= |s'.closes| && s.switched <= s'.switched
      && (forall k :: 0 <= k < |s.closes| && s.closes[k] > 0 ==> s'.closes[k] > 0)
      && Switches(s) <= Switches(s')
      && (s.writer.Some? || (s'.switched == s.switched && s'.closes == s.closes && s'.active == s.active))
      && (Closed(s', s.switched) || Assigning(s') || (!Assigning(s) && s'.active == s.active))
      && |s.closes| == s.switched + 1 && (forall k :: 0 <= k < s.switched ==> s.closes[k] > 0)
  {
  }

  lemma ChannelsStep(s: State, a: Action)
    requires LocksOk(s) && ChannelsOk(s) && !a.ByCaller() && SwitcherEnabled(s, a)
    ensures ChannelsOk(SwitcherAfter(s, a))
  {
  }

  lemma BuildStep(s: State, w: nat, ok: bool)
    requires CacheOk(s) && SwitcherEnabled(s, Build(w, ok))
    ensures CacheOk(SwitcherAfter(s, Build(w, ok)))
  {
    var t, s' := s.switchers[w].t, SwitcherAfter(s, Build(w, ok));
    if t !in s.built && ok {
      assert s'.built == s.built[t := s.made] && s'.made == s.made + 1;
      assert |s'.built| == |s.built| + 1;
    }
    forall v | 0 <= v < |s'.switchers| && s'.switchers[v].HasInstance()
      ensures s'.switchers[v].t in s'.built && s'.built[s'.switchers[v].t] == s'.switchers[v].inst
    {
      assert v != w ==> s'.switchers[v] == s.switchers[v];
    }
  }

  lemma CacheStep(s: State, a: Action)
    requires CacheOk(s) && !a.ByCaller() && !a.Build? && SwitcherEnabled(s, a)
    ensures CacheOk(SwitcherAfter(s, a))
  {
    var s' := SwitcherAfter(s, a);
    assert s'.built == s.built && s'.made == s.made;
    forall v | 0 <= v < |s'.switchers| && s'.switchers[v].HasInstance()
      ensures s'.switchers[v].t in s'.built && s'.built[s'.switchers[v].t] == s'.switchers[v].inst
    {
      assert v != a.w ==> s'.switchers[v] == s.switchers[v];
      assert s.switchers[a.w].HasInstance() ==> s.built[s.switchers[a.w].t] == s.switchers[a.w].inst;
    }
  }

  lemma TypeStep(s: State, a: Action)
    requires LocksOk(s) && TypeOk(s) && !a.ByCaller() && SwitcherEnabled(s, a)
    ensures TypeOk(SwitcherAfter(s, a))
  {
    if s.switchers[a.w].HoldsLock() {
      forall v | 0 <= v < |s.switchers| && v != a.w ensures !s.switchers[v].HoldsLock() {
        OnlyWriterHolds(s, v, a.w);
      }
    }
  }

  predicate MovesActive(a: Action) {
    a.CompareAndSetActive? || a.SetActiveType?
  }

  /** Within the critical section: the queue and its type are assigned one after the other. */
  lemma AssignStep(s: State, a: Action)
    requires LocksOk(s) && CacheOk(s) && ActiveOk(s) && !a.ByCaller() && MovesActive(a) && SwitcherEnabled(s, a)
    ensures ActiveOk(SwitcherAfter(s, a))
  {
  }

  /** Everything else a switcher does leaves the queue, its type and its instance alone. */
  lemma ActiveStep(s: State, a: Action)
    requires LocksOk(s) && CacheOk(s) && ActiveOk(s) && !a.ByCaller() && !MovesActive(a) && SwitcherEnabled(s, a)
    ensures ActiveOk(SwitcherAfter(s, a))
  {
  }

  lemma SwitcherStep(s: State, a: Action)
    requires Inv(s) && !a.ByCaller() && SwitcherEnabled(s, a)
    ensures Inv(Apply(s, a))
  {
    hide LocksOk, ChannelsOk, CacheOk, ActiveOk, TypeOk, SwitcherEnabled, SwitcherAfter, CallerOk;
    if MovesLocks(a) {
      LockingStep(s, a);
    } else {
      LocksStep(s, a);
    }
    SeenByCallers(s, a);
    ChannelsStep(s, a);
    if a.Build? {
      BuildStep(s, a.w, a.ok);
    } else {
      CacheStep(s, a);
    }
    if MovesActive(a) {
      AssignStep(s, a);
    } else {
      ActiveStep(s, a);
    }
    TypeStep(s, a);
    CallersKeep(s, Apply(s, a));
  }

  lemma {:induction false} RunInv(s: State, actions: seq<Action>)
    requires Inv(s) && Legal(s, actions)
    ensures Inv(Run(s, actions))
    decreases |actions|
  {
    if actions != [] {
      if actions[0].ByCaller() {
        CallerStep(s, actions[0]);
      } else {
        SwitcherStep(s, actions[0]);
      }
      RunInv(Apply(s, actions[0]), actions[1..]);
    }
  }

  // What follows for every interleaving

  /** Channels: all but the current one are closed, each exactly once, and the current one is open
      but for the moment between close and make. Instances: each type was built once, and the
      active queue is the cached instance of the active type but for the moment between the
      assignments of the queue and of its type, when it is that of the type to come. */
  lemma SwitchProtocol(s: State, actions: seq<Action>)
    requires Init(s) && Legal(s, actions)
    ensures var s' := Run(s, actions);
      && |s'.closes| == s'.switched + 1
      && (forall k :: 0 <= k < s'.switched ==> s'.closes[k] == 1)
      && s'.closes[s'.switched] == (if Switching(s', (pc: SwitcherPc) => pc.ChanClosed?) then 1 else 0)
      && |s'.built| == s'.made
      && (forall t, u :: t in s'.built && u in s'.built && t != u ==> s'.built[t] != s'.built[u])
      && s'.activeType in s'.built
      && (!Switching(s', (pc: SwitcherPc) => pc.ActiveSet?) ==> s'.active == s'.built[s'.activeType])
      && (forall w :: 0 <= w < |s'.switchers| && s'.switchers[w].ActiveSet? ==>
            s'.switchers[w].t in s'.built && s'.active == s'.built[s'.switchers[w].t])
  {
    InitInv(s);
    RunInv(s, actions);
  }

  /** Some switcher has got to this point. */
  predicate Switching(s: State, at: SwitcherPc -> bool) {
    exists w :: 0 <= w < |s.switchers| && at(s.switchers[w])
  }

  /** What a caller has read under the read lock is of one generation: the current channel, open,
      and the cached instance of the active type. */
  lemma SnapshotIsOneGeneration(s: State, actions: seq<Action>, c: nat)
    requires Init(s) && Legal(s, actions) && c < |Run(s, actions).callers|
    requires Run(s, actions).callers[c].pc.Snapped?
    ensures var s' := Run(s, actions);
      var pc := s'.callers[c].pc;
      && pc.ch == s'.switched && !Closed(s', pc.ch)
      && s'.activeType in s'.built && pc.inst == s'.built[s'.activeType]
  {
    InitInv(s);
    RunInv(s, actions);
    var s' := Run(s, actions);
    assert CallerOk(s', s'.callers[c]);
  }

  /** A caller parked on a queue whose channel is still open is parked on the active one, the cached
      instance of the active type, but for the moments between assigning a new one and closing
      the channel. */
  lemma WaitsOnActiveQueue(s: State, actions: seq<Action>, c: nat)
    requires Init(s) && Legal(s, actions) && c < |Run(s, actions).callers|
    requires Run(s, actions).callers[c].pc.Waiting? && !Closed(Run(s, actions), Run(s, actions).callers[c].pc.ch)
    requires Run(s, actions).writer.None?
    ensures var s' := Run(s, actions);
      s'.activeType in s'.built && s'.callers[c].pc.inst == s'.built[s'.activeType]
  {
    InitInv(s);
    RunInv(s, actions);
    var s' := Run(s, actions);
    assert CallerOk(s', s'.callers[c]);
  }

  /** What Dequeue does with what the queue gave it. A message is returned, whatever happens in the
      meantime; so is any outcome once the caller's own context is found done. Anything that is returned is what the queue gave. Only a call that got no
      message starts over, and only because the channel of its snapshot has been closed. */
  lemma ReturnsOrStartsOver(s: State, actions: seq<Action>, a: Action, c: nat)
    requires Init(s) && Legal(s, actions) && Enabled(Run(s, actions), a) && c < |Run(s, actions).callers|
    ensures var before := Run(s, actions);
      var was, now := before.callers[c].pc, Apply(before, a).callers[c].pc;
      && (was.CheckingErr? && was.outcome.Message? ==> now == was || now == Returned(was.outcome))
      && (was.CheckingCtx? && before.callers[c].ctxDone ==> now == was || now == Returned(was.outcome))
      && (now.Returned? && now != was ==> was.HasOutcome() && now.outcome == was.outcome)
      && (now.Starting? && now != was && a != Call(c) ==>
            a == CheckChan(c) && was.CheckingChan? && !was.outcome.Message? && Closed(before, was.ch))
  {
    hide Enabled, Apply, CallerOk;
    InitInv(s);
    RunInv(s, actions);
    var before := Run(s, actions);
    assert CallerOk(before, before.callers[c]);
    OutcomeStep(before, a, c);
  }

  lemma OutcomeStep(s: State, a: Action, c: nat)
    requires Enabled(s, a) && c < |s.callers| && CallerOk(s, s.callers[c])
    ensures var was, now := s.callers[c].pc, Apply(s, a).callers[c].pc;
      && (was.CheckingErr? && was.outcome.Message? ==> now == was || now == Returned(was.outcome))
      && (was.CheckingCtx? && s.callers[c].ctxDone ==> now == was || now == Returned(was.outcome))
      && (now.Returned? && now != was ==> was.HasOutcome() && now.outcome == was.outcome)
      && (now.Starting? && now != was && a != Call(c) ==>
            a == CheckChan(c) && was.CheckingChan? && !was.outcome.Message? && Closed(s, was.ch))
  {
  }

  /** A SetType that fails to build its queue changes nothing that a caller could see, and only such
      a SetType fails. */
  lemma OnlyFailedBuildFails(s: State, a: Action, w: nat)
    requires Enabled(s, a) && w < |s.switchers| && s.switchers[w] != Done(false)
    requires Apply(s, a).switchers[w] == Done(false)
    ensures a == Build(w, false) && s.switchers[w].Building? && s.switchers[w].t !in s.built
    ensures Same(s, Apply(s, a)) && Apply(s, a).built == s.built && Apply(s, a).callers == s.callers
  {
  }

  /** close(q.switched) never meets a closed channel. */
  lemma NeverClosesTwice(s: State, actions: seq<Action>, w: nat)
    requires Init(s) && Legal(s, actions) && Enabled(Run(s, actions), CloseChan(w))
    ensures var s' := Run(s, actions); s'.closes[s'.switched] == 0
  {
    InitInv(s);
    RunInv(s, actions);
  }

  // What one SetType does

  /** The queue, its type and its channels as they were. */
  predicate Same(before: State, now: State) {
    && now.active == before.active && now.activeType == before.activeType
    && now.closes == before.closes && now.switched == before.switched
  }

  /** The channels once the current one has been closed; and once it has been replaced. */
  function Closing(s: State): seq<nat>
    requires s.switched < |s.closes|
  {
    s.closes[s.switched := s.closes[s.switched] + 1]
  }

  /** How far the switcher that holds the lock has got since it took it. */
  predicate Section(before: State, now: State, w: nat, t: string)
    requires w < |now.switchers| && before.switched < |before.closes|
  {
    match now.switchers[w]
    case Locked(u, _) => u == t && Same(before, now)
    case ActiveSet(u, _) =>
      && u == t && before.activeType != t
      && now.activeType == before.activeType && now.closes == before.closes && now.switched == before.switched
    case TypeSet(u, _) =>
      && u == t && before.activeType != t
      && now.activeType == t && now.closes == before.closes && now.switched == before.switched
    case ChanClosed(u, _) =>
      && u == t && before.activeType != t
      && now.activeType == t && now.closes == Closing(before) && now.switched == before.switched
    case Leaving(u, _) =>
      && u == t
      && if before.activeType == t then Same(before, now)
         else now.activeType == t && now.closes == Closing(before) + [0] && now.switched == |before.closes|
    case _ => false
  }

  lemma SectionStep(before: State, now: State, a: Action, w: nat, t: string)
    requires LocksOk(now) && now.writer == Some(w) && w < |now.switchers| && before.switched < |before.closes|
    requires Section(before, now, w, t) && Enabled(now, a) && a != Unlock(w)
    ensures LocksOk(Apply(now, a)) ==>
      Apply(now, a).writer == Some(w) && w < |Apply(now, a).switchers| && Section(before, Apply(now, a), w, t)
  {
    hide LocksOk;
    if !a.ByCaller() {
      assert a.w != w ==> !now.switchers[a.w].HoldsLock() by {
        OnlyWriterHolds(now, a.w, w);
      }
    }
  }

  lemma OnlyWriterHolds(s: State, v: nat, w: nat)
    requires LocksOk(s) && s.writer == Some(w) && v < |s.switchers|
    ensures s.switchers[v].HoldsLock() <==> v == w
  {
  }

  lemma {:induction false} SectionRun(before: State, now: State, actions: seq<Action>, w: nat, t: string)
    requires Inv(now) && now.writer == Some(w) && w < |now.switchers| && before.switched < |before.closes|
    requires Section(before, now, w, t) && Legal(now, actions) && Unlock(w) !in actions
    ensures Inv(Run(now, actions)) && w < |Run(now, actions).switchers| && Section(before, Run(now, actions), w, t)
    decreases |actions|
  {
    hide Enabled, Apply, Section, LocksOk, ChannelsOk, CacheOk, ActiveOk, TypeOk, CallerOk;
    if actions != [] {
      SectionStep(before, now, actions[0], w, t);
      AnyStep(now, actions[0]);
      SectionRun(before, Apply(now, actions[0]), actions[1..], w, t);
    }
  }

  lemma AnyStep(s: State, a: Action)
    requires Inv(s) && Enabled(s, a)
    ensures Inv(Apply(s, a))
  {
    hide Inv, Apply;
    if a.ByCaller() {
      CallerStep(s, a);
    } else {
      SwitcherStep(s, a);
    }
  }

  /** SetType switches, once, and only where there is something to switch. From taking the lock to
      the point of giving it back, in every interleaving: the type asked for has become the active
      one, with its cached instance; if it was active already nothing has changed at all, and
      otherwise the channel of the old generation has been closed and a new one made. */
  lemma SetTypeSwitchesOnce(s: State, earlier: seq<Action>, during: seq<Action>, w: nat)
    requires Init(s) && Legal(s, earlier) && Enabled(Run(s, earlier), Lock(w))
    requires Legal(Apply(Run(s, earlier), Lock(w)), during) && Unlock(w) !in during
    requires var end := Run(Apply(Run(s, earlier), Lock(w)), during);
      w < |end.switchers| && end.switchers[w].Leaving?
    ensures var before := Run(s, earlier);
      var end, t := Run(Apply(before, Lock(w)), during), before.switchers[w].t;
      && end.activeType == t && t in end.built && end.active == end.built[t]
      && if before.activeType == t then Same(before, end)
         else
           && end.switched == before.switched + 1 && Switches(end) == Switches(before) + 1
           && !Closed(before, before.switched) && Closed(end, before.switched) && !Closed(end, end.switched)
  {
    hide Enabled, Legal, Run, Apply, Inv;
    InitInv(s);
    RunInv(s, earlier);
    var before := Run(s, earlier);
    AnyStep(before, Lock(w));
    LockedSection(before, w);
    var t := before.switchers[w].t;
    SectionRun(before, Apply(before, Lock(w)), during, w, t);
    LeavingSection(before, Run(Apply(before, Lock(w)), during), w, t);
  }

  lemma LockedSection(s: State, w: nat)
    requires Inv(s) && Enabled(s, Lock(w))
    ensures w < |s.switchers| && s.switchers[w].Ready?
    ensures var s' := Apply(s, Lock(w));
      && s'.writer == Some(w) && w < |s'.switchers| && s.switched < |s.closes| && s.writer.None?
      && Section(s, s', w, s.switchers[w].t)
  {
  }

  lemma LeavingSection(before: State, end: State, w: nat, t: string)
    requires Inv(before) && before.writer.None? && Inv(end) && w < |end.switchers| && end.switchers[w].Leaving?
    requires before.switched < |before.closes| && Section(before, end, w, t)
    ensures end.activeType == t && t in end.built && end.active == end.built[t]
    ensures before.activeType == t ==> Same(before, end)
    ensures before.activeType != t ==>
      && end.switched == before.switched + 1 && Switches(end) == Switches(before) + 1
      && !Closed(before, before.switched) && Closed(end, before.switched) && !Closed(end, end.switched)
  {
    hide CallerOk, CacheOk;
    OnlyWriterHolds(end, w, end.writer.value);
  }

  /** How often the active type changes. */
  function TypeChanges(s: State, actions: seq<Action>): nat
    requires Legal(s, actions)
    decreases |actions|
  {
    if actions == [] then 0
    else
      var s' := Apply(s, actions[0]);
      (if s'.activeType != s.activeType then 1 else 0) + TypeChanges(s', actions[1..])
  }

  /** A type has been assigned whose channel is still to be closed. */
  function Announced(s: State): nat {
    if WriterAt(s, (pc: SwitcherPc) => pc.TypeSet?) then 1 else 0
  }

  lemma ChangeStep(s: State, a: Action)
    requires Inv(s) && Enabled(s, a)
    ensures Switches(Apply(s, a)) + Announced(Apply(s, a))
         == Switches(s) + Announced(s) + (if Apply(s, a).activeType != s.activeType then 1 else 0)
  {
    hide CallerOk, CallerAfter, CacheOk;
    if !a.ByCaller() && a.w < |s.switchers| && s.switchers[a.w].HoldsLock() {
      assert s.writer == Some(a.w);
    }
  }

  lemma {:induction false} ChangesFrom(s: State, actions: seq<Action>)
    requires Inv(s) && Legal(s, actions)
    ensures Switches(Run(s, actions)) + Announced(Run(s, actions)) == Switches(s) + Announced(s) + TypeChanges(s, actions)
    decreases |actions|
  {
    hide Enabled, Apply, Inv, Switches, Announced;
    if actions != [] {
      ChangeStep(s, actions[0]);
      AnyStep(s, actions[0]);
      ChangesFrom(Apply(s, actions[0]), actions[1..]);
    }
  }

  /** Channels are closed exactly for changes of the active type, one for each, at the latest when
      the switch that made it is over. */
  lemma SwitchesAreTypeChanges(s: State, actions: seq<Action>)
    requires Init(s) && Legal(s, actions)
    ensures var s' := Run(s, actions);
      TypeChanges(s, actions) == Switches(s') + (if Switching(s', (pc: SwitcherPc) => pc.TypeSet?) then 1 else 0)
  {
    InitInv(s);
    RunInv(s, actions);
    ChangesFrom(s, actions);
  }

  /** While its own context is live, a call returns an error only by finding the channel of
      its snapshot open; that error is the broker's own, never a cancellation by a switch. */
  lemma SwitchIsNeverSurfaced(s: State, actions: seq<Action>, a: Action, c: nat)
    requires Init(s) && Legal(s, actions)
    requires var before := Run(s, actions);
      && Enabled(before, a) && c < |before.callers| && !before.callers[c].pc.Returned? && !before.callers[c].ctxDone
      && Apply(before, a).callers[c].pc.Returned? && !Apply(before, a).callers[c].pc.outcome.Message?
    ensures var before := Run(s, actions);
      && a == CheckChan(c) && before.callers[c].pc.CheckingChan?
      && !Closed(before, before.callers[c].pc.ch)
      && Apply(before, a).callers[c].pc.outcome.BrokerError?
  {
    hide Enabled, Apply, CallerOk;
    InitInv(s);
    RunInv(s, actions);
    SurfaceStep(Run(s, actions), a, c);
  }

  lemma SurfaceStep(s: State, a: Action, c: nat)
    requires Enabled(s, a) && c < |s.callers| && CallerOk(s, s.callers[c])
    requires !s.callers[c].pc.Returned? && !s.callers[c].ctxDone
    requires Apply(s, a).callers[c].pc.Returned? && !Apply(s, a).callers[c].pc.outcome.Message?
    ensures a == CheckChan(c) && s.callers[c].pc.CheckingChan? && !Closed(s, s.callers[c].pc.ch)
    ensures Apply(s, a).callers[c].pc.outcome.BrokerError?
  {
  }

  /** A call retries at most once for each switch that takes effect while it runs. */
  lemma RetriesAreBounded(s: State, actions: seq<Action>, c: nat)
    requires Init(s) && Legal(s, actions) && c < |Run(s, actions).callers|
    requires !Run(s, actions).callers[c].pc.Idle?
    ensures var me := Run(s, actions).callers[c]; me.retries <= Switches(Run(s, actions)) - me.base
  {
    InitInv(s);
    RunInv(s, actions);
    var s' := Run(s, actions);
    assert CallerOk(s', s'.callers[c]);
  }

  /** A call parked on a queue that has been switched away can leave by its own steps alone,
      and with a live context it is then back at the top of its loop. */
  lemma ParkedCallIsReleased(s: State, c: nat)
    requires c < |s.callers| && s.callers[c].pc.Waiting? && !s.callers[c].pc.cancelled && !s.callers[c].ctxDone
    requires Closed(s, s.callers[c].pc.ch)
    ensures var leave := [Cancel(c), Abort(c)] + [CheckErr(c), CheckCtx(c), CheckChan(c)];
      && Legal(s, leave)
      && Run(s, leave) == s.(callers := s.callers[c :=
           s.callers[c].(pc := Starting, retries := s.callers[c].retries + 1)])
  {
    var s1 := Apply(s, Cancel(c));
    var s2 := Apply(s1, Abort(c));
    var rest := [CheckErr(c), CheckCtx(c), CheckChan(c)];
    CancelledCallRetries(s2, c);
    OneMore(s1, Abort(c), rest);
    OneMore(s, Cancel(c), [Abort(c)] + rest);
    assert [Cancel(c)] + ([Abort(c)] + rest) == [Cancel(c), Abort(c)] + rest;
    assert s2.callers == s.callers[c := s.callers[c].(pc := CheckingErr(s.callers[c].pc.ch, Cancelled))];
  }

  lemma CancelledCallRetries(s: State, c: nat)
    requires c < |s.callers| && s.callers[c].pc.CheckingErr? && s.callers[c].pc.outcome.Cancelled?
    requires !s.callers[c].ctxDone && Closed(s, s.callers[c].pc.ch)
    ensures var rest := [CheckErr(c), CheckCtx(c), CheckChan(c)];
      && Legal(s, rest)
      && Run(s, rest) == s.(callers := s.callers[c :=
           s.callers[c].(pc := Starting, retries := s.callers[c].retries + 1)])
  {
    var s1 := Apply(s, CheckErr(c));
    var s2 := Apply(s1, CheckCtx(c));
    OneMore(s2, CheckChan(c), []);
    OneMore(s1, CheckCtx(c), [CheckChan(c)]);
    OneMore(s, CheckErr(c), [CheckCtx(c), CheckChan(c)]);
    assert [CheckErr(c)] + ([CheckCtx(c)] + [CheckChan(c)]) == [CheckErr(c), CheckCtx(c), CheckChan(c)];
    assert [CheckCtx(c)] + [CheckChan(c)] == [CheckCtx(c), CheckChan(c)];
    assert [CheckChan(c)] + [] == [CheckChan(c)];
    assert Apply(s2, CheckChan(c)).callers
        == s.callers[c := s.callers[c].(pc := Starting, retries := s.callers[c].retries + 1)];
  }

  /** Without a writer a call can get to its queue by its own steps, and what the queue gives it then
      can be returned: its message, by its own steps alone. */
  lemma DequeueCanReturn(s: State, c: nat, id: nat)
    requires c < |s.callers| && s.callers[c].pc.Starting? && s.writer.None?
    ensures var steps := [RLock(c)] + ([Snapshot(c)] + ([RUnlock(c)] + ([Receive(c, id)] + ([CheckErr(c)] + []))));
      && Legal(s, steps)
      && |Run(s, steps).callers| == |s.callers| && Run(s, steps).callers[c].pc == Returned(Message(id))
  {
    hide Legal, Run;
    var s1 := Apply(s, RLock(c));
    var s2 := Apply(s1, Snapshot(c));
    var s3 := Apply(s2, RUnlock(c));
    var s4 := Apply(s3, Receive(c, id));
    NoMore(Apply(s4, CheckErr(c)));
    OneMore(s4, CheckErr(c), []);
    OneMore(s3, Receive(c, id), [CheckErr(c)] + []);
    OneMore(s2, RUnlock(c), [Receive(c, id)] + ([CheckErr(c)] + []));
    OneMore(s1, Snapshot(c), [RUnlock(c)] + ([Receive(c, id)] + ([CheckErr(c)] + [])));
    OneMore(s, RLock(c), [Snapshot(c)] + ([RUnlock(c)] + ([Receive(c, id)] + ([CheckErr(c)] + []))));
  }

  /** Once it has its instance, and no one holds the lock, a SetType of another type can finish by its
      own steps. */
  lemma SetTypeCanFinish(s: State, w: nat)
    requires s.switched < |s.closes| && w < |s.switchers| && s.switchers[w].Ready? && s.writer.None?
    requires forall c :: 0 <= c < |s.callers| ==> !s.callers[c].pc.HoldsReadLock()
    requires s.switchers[w].t != s.activeType
    ensures var rest := [CloseChan(w)] + ([MakeChan(w)] + ([Unlock(w)] + []));
      var steps := [Lock(w)] + ([CompareAndSetActive(w)] + ([SetActiveType(w)] + rest));
      && Legal(s, steps)
      && |Run(s, steps).switchers| == |s.switchers| && Run(s, steps).switchers[w] == Done(true)
      && Run(s, steps).activeType == s.switchers[w].t && Run(s, steps).active == s.switchers[w].inst
  {
    hide Legal, Run;
    var s1 := Apply(s, Lock(w));
    var s2 := Apply(s1, CompareAndSetActive(w));
    var s3 := Apply(s2, SetActiveType(w));
    var rest := [CloseChan(w)] + ([MakeChan(w)] + ([Unlock(w)] + []));
    ReplaceChannel(s3, w);
    OneMore(s2, SetActiveType(w), rest);
    OneMore(s1, CompareAndSetActive(w), [SetActiveType(w)] + rest);
    OneMore(s, Lock(w), [CompareAndSetActive(w)] + ([SetActiveType(w)] + rest));
  }

  lemma ReplaceChannel(s: State, w: nat)
    requires s.switched < |s.closes| && w < |s.switchers| && s.switchers[w].TypeSet?
    ensures var rest := [CloseChan(w)] + ([MakeChan(w)] + ([Unlock(w)] + []));
      && Legal(s, rest)
      && |Run(s, rest).switchers| == |s.switchers| && Run(s, rest).switchers[w] == Done(true)
      && Run(s, rest).activeType == s.activeType && Run(s, rest).active == s.active
  {
    hide Legal, Run;
    var s1 := Apply(s, CloseChan(w));
    var s2 := Apply(s1, MakeChan(w));
    NoMore(Apply(s2, Unlock(w)));
    OneMore(s2, Unlock(w), []);
    OneMore(s1, MakeChan(w), [Unlock(w)] + []);
    OneMore(s, CloseChan(w), [MakeChan(w)] + ([Unlock(w)] + []));
  }

  lemma NoMore(s: State)
    ensures Legal(s, []) && Run(s, []) == s
  {
  }

  lemma OneMore(s: State, a: Action, rest: seq<Action>)
    requires Enabled(s, a) && Legal(Apply(s, a), rest)
    ensures Legal(s, [a] + rest) && Run(s, [a] + rest) == Run(Apply(s, a), rest)
  {
    assert ([a] + rest)[1..] == rest;
  }
}
