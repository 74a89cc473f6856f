/**
 Live updates in one process: mutations commit and then publish a wake-up, the bus may drop
 it, and every stream rereads the database after each wake-up it does receive. All of it
 interleaves step by step on top of module Bus.
 */
module LiveUpdate {
  import opened Bus
  import opened StreamLoop
  import P = BusProgress
  import T = Tables

  const TOPIC := "todos.changed"

  /** `log` holds every committed state in commit order; channel `c` belongs to stream `c`. */
  datatype App = App(bus: State, log: seq<T.Tables>, loops: seq<Loop>)

  datatype AppStep =
    | Commit(p: nat, tables: T.Tables, reason: string)  // commit a mutation, publish next
    | Open                                              // a browser opens `/stream`
    | Cycle(c: nat)                                     // `Subscribe` returned: first round
    | Wake(c: nat)                                      // a wake-up is taken from the channel
    | TodosQuery(c: nat)
    | EventsQuery(c: nat)
    | WriteSnapshot(c: nat)
    | Beat(c: nat)
    | Exit(c: nat)                                      // shutdown, failure or end of context
    | BusStep(step: Step)

  function Now(s: App): nat
    requires s.log != []
  {
    |s.log| - 1
  }

  predicate AppStart(s: App) { s.bus == EMPTY && |s.log| == 1 && s.loops == [] }

  predicate InPhase(s: App, c: nat) { c < |s.loops| && c < |s.bus.subs| }

  predicate AppEnabled(s: App, step: AppStep)
  {
    && s.log != []
    && match step
       case Commit(p, _, reason) => Enabled(s.bus, BeginPublish(p, TOPIC, reason))
       case Open => true
       case Cycle(c) => InPhase(s, c) && s.loops[c].phase.Subscribing? && Started(s.bus.subs[c].phase)
       case Wake(c) => InPhase(s, c) && s.loops[c].phase.Idle? && s.bus.subs[c].queue != []
       case TodosQuery(c) => InPhase(s, c) && s.loops[c].phase.QueryTodos?
       case EventsQuery(c) => InPhase(s, c) && s.loops[c].phase.QueryEvents?
       case WriteSnapshot(c) => InPhase(s, c) && s.loops[c].phase.Writing?
       case Beat(c) => InPhase(s, c) && s.loops[c].phase.Idle?
       case Exit(c) => && InPhase(s, c) && !s.loops[c].phase.Subscribing? && !s.loops[c].phase.Exited?
                       && Enabled(s.bus, HandlerCall(c))
       case BusStep(step) => (P.Internal(step) || step.NewPublisher? || step.Cancel?) && Enabled(s.bus, step)
  }

  function SetLoop(s: App, c: nat, loop: Loop): App
    requires c < |s.loops|
  {
    s.(loops := s.loops[c := loop])
  }

  /** What the todos query and the events query return now. */
  function TodosNow(s: App): map<string, T.Todo>
    requires s.log != []
  {
    s.log[Now(s)].todos
  }

  ghost function EventsNow(s: App): seq<T.AppEvent>
    requires s.log != []
  {
    T.ListEvents(s.log[Now(s)].events, 10)
  }

  ghost function AppNext(s: App, step: AppStep): App
    requires AppEnabled(s, step)
  {
    match step
    case Commit(p, tables, reason) =>
      s.(bus := Next(s.bus, BeginPublish(p, TOPIC, reason)), log := s.log + [tables])
    case Open => s.(bus := Next(s.bus, BeginSubscribe(TOPIC)), loops := s.loops + [NEW_LOOP])
    case Cycle(c) => SetLoop(s, c, BeginRound(s.loops[c], Now(s)))
    case Wake(c) => SetLoop(s, c, BeginRound(s.loops[c], Now(s))).(bus := Next(s.bus, Receive(c)))
    case TodosQuery(c) => SetLoop(s, c, ReadTodos(s.loops[c], Now(s), TodosNow(s)))
    case EventsQuery(c) => SetLoop(s, c, ReadEvents(s.loops[c], Now(s), EventsNow(s)))
    case WriteSnapshot(c) => SetLoop(s, c, Write(s.loops[c], Now(s)))
    case Beat(c) => s
    case Exit(c) => SetLoop(s, c, s.loops[c].(phase := Exited)).(bus := Next(s.bus, HandlerCall(c)))
    case BusStep(step) => s.(bus := Next(s.bus, step))
  }

  // ---- The invariant -------------------------------------------------------------------

  /** A stream whose browser is still there and whose handler still runs. */
  predicate Live(s: App, c: nat)
  {
    InPhase(s, c) && !s.loops[c].phase.Exited? && !s.bus.subs[c].cancelled
  }

  /** Publisher `pub` has a wake-up it has not yet offered to channel `c`. */
  predicate Owes(pub: Pub, c: nat)
  {
    pub.phase.Wanting? || (pub.phase.Sending? && c in pub.phase.left)
  }

  ghost predicate WakeUpComing(bus: State, c: nat)
    requires c < |bus.subs|
  {
    bus.subs[c].queue != [] || exists p :: 0 <= p < |bus.pubs| && Owes(bus.pubs[p], c)
  }

  predicate PubOnTopic(pub: Pub) { pub.phase.Resting? || pub.phase.event.topic == TOPIC }

  ghost predicate StreamOk(s: App, c: nat)
    requires InPhase(s, c) && s.log != []
  {
    var loop, sub := s.loops[c], s.bus.subs[c];
    && LoopOk(loop, Now(s)) && ReadsOk(loop, s.log) && sub.topic == TOPIC
    && (sub.handler.Idle? <==> !loop.phase.Exited?)
    && (!loop.phase.Subscribing? ==> Started(sub.phase))
    && |loop.shown| + Rounds(loop) <= 1 + Received(sub)
    && NeverForgotten(s, c)
  }

  /** What a live stream does not show yet, and its round will not either, a wake-up will bring. */
  ghost predicate NeverForgotten(s: App, c: nat)
    requires InPhase(s, c) && s.log != []
  {
    Live(s, c) && !Fresh(s.loops[c], Now(s)) ==> WakeUpComing(s.bus, c)
  }

  function Received(sub: Sub): int { |sub.sent| - |sub.queue| }

  ghost predicate AppInv(s: App)
  {
    && s.log != [] && Inv(s.bus) && |s.loops| == |s.bus.subs|
    && (forall p :: 0 <= p < |s.bus.pubs| ==> PubOnTopic(s.bus.pubs[p]))
    && (forall c :: 0 <= c < |s.loops| ==> StreamOk(s, c))
  }

  /** The bus step inside an application step. */
  function Inner(step: AppStep): Step
    requires step.Commit? || step.Open? || step.Wake? || step.Exit? || step.BusStep?
  {
    match step
    case Commit(p, _, reason) => BeginPublish(p, TOPIC, reason)
    case Open => BeginSubscribe(TOPIC)
    case Wake(c) => Receive(c)
    case Exit(c) => HandlerCall(c)
    case BusStep(step) => step
  }

  predicate HasInner(step: AppStep)
  {
    step.Commit? || step.Open? || step.Wake? || step.Exit? || step.BusStep?
  }

  lemma BusPart(s: App, step: AppStep)
    requires AppEnabled(s, step)
    ensures HasInner(step) ==> Enabled(s.bus, Inner(step)) && AppNext(s, step).bus == Next(s.bus, Inner(step))
    ensures !HasInner(step) ==> AppNext(s, step).bus == s.bus
  {
  }

  /** A live stream's channel is in the registry once the lock is free. */
  lemma LiveIsListed(s: App, c: nat)
    requires AppInv(s) && Live(s, c) && Started(s.bus.subs[c].phase)
    ensures s.bus.subs[c].phase.Active? && InRegistry(s.bus, TOPIC, c)
  {
    assert StreamOk(s, c) && CallersOk(s.bus.subs[c]);
  }

  /**
   A wake-up on its way to a registered channel stays on its way or arrives: taking the read
   lock finds the channel, and a visit fills the channel unless it is full already.
   */
  lemma WakeUpSurvives(s: App, step: Step, c: nat)
    requires Enabled(s.bus, step) && step != Receive(c)
    requires Live(s, c) && Started(s.bus.subs[c].phase)
    requires WakeUpComing(s.bus, c)
    requires AppInv(s)
    ensures c < |Next(s.bus, step).subs| && WakeUpComing(Next(s.bus, step), c)
  {
    var t := Next(s.bus, step);
    LiveIsListed(s, c);
    SubMoves(s.bus, step, c);
    if s.bus.subs[c].queue != [] {
      QueueStays(s.bus, step, c);
      hide Next, AppInv;
    } else {
      var p: nat :| 0 <= p < |s.bus.pubs| && Owes(s.bus.pubs[p], c);
      assert PubOnTopic(s.bus.pubs[p]);
      hide Next, AppInv, Enabled;
      DebtSurvives(s.bus, step, c, p);
    }
  }

  /** A wake-up on its way to a registered channel with room stays on its way or arrives. */
  lemma DebtSurvives(bus: State, step: Step, c: nat, p: nat)
    requires Enabled(bus, step) && c < |bus.subs| && bus.subs[c].queue == [] && InRegistry(bus, TOPIC, c)
    requires p < |bus.pubs| && Owes(bus.pubs[p], c) && PubOnTopic(bus.pubs[p])
    ensures p < |Next(bus, step).pubs| && c < |Next(bus, step).subs|
    ensures Owes(Next(bus, step).pubs[p], c) || Next(bus, step).subs[c].queue != []
  {
    PubMoves(bus, step, p);
    SubMoves(bus, step, c);
    hide Next;
  }

  lemma QueueStays(bus: State, step: Step, c: nat)
    requires Enabled(bus, step) && c < |bus.subs| && bus.subs[c].queue != [] && step != Receive(c)
    ensures SubAfter(bus, step, c).queue != []
  {
  }

  /** What the bus may do to a subscription behind the back of its stream. */
  ghost predicate SubDrifts(sub: Sub, after: Sub, received: bool, exited: bool)
  {
    && after.topic == sub.topic && (Started(sub.phase) ==> Started(after.phase))
    && (sub.cancelled ==> after.cancelled)
    && (after.handler.Idle? <==> sub.handler.Idle? && !exited)
    && Received(after) == Received(sub) + if received then 1 else 0
  }

  lemma LockStepOnSub(bus: State, step: Step, c: nat)
    requires Enabled(bus, step) && LockStep(step) && c < |bus.subs|
    ensures SubDrifts(bus.subs[c], SubAfter(bus, step, c), false, false)
  {
  }

  lemma OtherStepOnSub(bus: State, step: Step, c: nat)
    requires Enabled(bus, step) && !LockStep(step) && c < |bus.subs| && CallersOk(bus.subs[c])
    ensures SubDrifts(bus.subs[c], SubAfter(bus, step, c), step == Receive(c), step == HandlerCall(c))
  {
    hide Lookup;
  }

  lemma InnerStepOnSub(bus: State, step: Step, c: nat)
    requires Enabled(bus, step) && c < |bus.subs| && CallersOk(bus.subs[c])
    ensures c < |Next(bus, step).subs|
    ensures SubDrifts(bus.subs[c], Next(bus, step).subs[c], step == Receive(c), step == HandlerCall(c))
  {
    SubMoves(bus, step, c);
    hide Next, SubAfter;
    if LockStep(step) {
      LockStepOnSub(bus, step, c);
    } else {
      OtherStepOnSub(bus, step, c);
    }
  }

  /** What one step does to the loop of one stream. */
  ghost function LoopAfter(s: App, step: AppStep, c: nat): Loop
    requires AppEnabled(s, step) && c < |s.loops|
  {
    var loop := s.loops[c];
    if step == Cycle(c) || step == Wake(c) then BeginRound(loop, Now(s))
    else if step == TodosQuery(c) then ReadTodos(loop, Now(s), TodosNow(s))
    else if step == EventsQuery(c) then ReadEvents(loop, Now(s), EventsNow(s))
    else if step == WriteSnapshot(c) then Write(loop, Now(s))
    else if step == Exit(c) then loop.(phase := Exited)
    else loop
  }

  lemma LoopMoves(s: App, step: AppStep, c: nat)
    requires AppEnabled(s, step)
    ensures var t := AppNext(s, step); t.log != [] && Now(t) == Now(s) + if step.Commit? then 1 else 0
    ensures |AppNext(s, step).loops| == |s.loops| + if step.Open? then 1 else 0
    ensures c < |s.loops| ==> AppNext(s, step).loops[c] == LoopAfter(s, step, c)
    ensures c == |s.loops| && step.Open? ==> AppNext(s, step).loops[c] == NEW_LOOP
  {
    hide Next, Enabled, BeginRound, ReadTodos, ReadEvents, Write;
  }

  lemma StreamCallers(s: App, c: nat)
    requires AppInv(s) && c < |s.loops|
    ensures CallersOk(s.bus.subs[c])
  {
  }

  /** What one step does to the subscription of one stream. */
  lemma StepOnSub(s: App, step: AppStep, c: nat)
    requires AppEnabled(s, step) && c < |s.bus.subs| && CallersOk(s.bus.subs[c])
    ensures c < |AppNext(s, step).bus.subs|
    ensures SubDrifts(s.bus.subs[c], AppNext(s, step).bus.subs[c], step == Wake(c), step == Exit(c))
  {
    BusPart(s, step);
    if HasInner(step) {
      InnerStepOnSub(s.bus, Inner(step), c);
      InnerKinds(s, step, c);
    }
    hide AppNext, AppEnabled, Next, Enabled, CallersOk, Started;
  }

  lemma InnerKinds(s: App, step: AppStep, c: nat)
    requires AppEnabled(s, step) && HasInner(step)
    ensures Inner(step) == Receive(c) <==> step == Wake(c)
    ensures Inner(step) == HandlerCall(c) <==> step == Exit(c)
  {
  }

  lemma StepKeepsLoop(s: App, step: AppStep, c: nat)
    requires s.log != [] && InPhase(s, c) && StreamOk(s, c) && CallersOk(s.bus.subs[c]) && AppEnabled(s, step)
    ensures InPhase(AppNext(s, step), c) && AppNext(s, step).log != []
    ensures NeverForgotten(AppNext(s, step), c) ==> StreamOk(AppNext(s, step), c)
  {
    LoopMoves(s, step, c);
    StepOnSub(s, step, c);
    hide AppNext, NeverForgotten, Started, CallersOk;
    KeepsLoopOk(s, step, c);
    KeepsReads(s, step, c);
    KeepsCounts(s, step, c);
    hide AppEnabled, LoopAfter, LoopOk, ReadsOk, Rounds, Received;
  }

  lemma KeepsLoopOk(s: App, step: AppStep, c: nat)
    requires AppEnabled(s, step) && c < |s.loops| && LoopOk(s.loops[c], Now(s))
    ensures LoopOk(LoopAfter(s, step, c), Now(s) + if step.Commit? then 1 else 0)
  {
    hide LoopOk, BeginRound, ReadTodos, ReadEvents, Write;
    LoopStepsKeepOk(s.loops[c], Now(s), TodosNow(s), EventsNow(s));
    LoopStepsKeepOk(LoopAfter(s, step, c), Now(s), TodosNow(s), EventsNow(s));
  }

  lemma LogMoves(s: App, step: AppStep)
    requires AppEnabled(s, step)
    ensures AppNext(s, step).log == s.log + if step.Commit? then [step.tables] else []
  {
    hide Next, Enabled, BeginRound, ReadTodos, ReadEvents, Write;
  }

  lemma KeepsReads(s: App, step: AppStep, c: nat)
    requires AppEnabled(s, step) && c < |s.loops| && ReadsOk(s.loops[c], s.log)
    ensures ReadsOk(LoopAfter(s, step, c), AppNext(s, step).log)
  {
    LogMoves(s, step);
    var tables := if step.Commit? then step.tables else s.log[0];
    LoopStepsKeepReads(s.loops[c], s.log, tables, Now(s));
    hide AppNext, ReadsOk, BeginRound, ReadTodos, ReadEvents, Write, T.ListEvents;
  }

  /** The phase and the snapshots of the loop, in step with its subscription. */
  lemma KeepsCounts(s: App, step: AppStep, c: nat)
    requires AppEnabled(s, step) && InPhase(s, c)
    ensures var loop, after := s.loops[c], LoopAfter(s, step, c);
            && (after.phase.Exited? <==> loop.phase.Exited? || step == Exit(c))
            && (!after.phase.Subscribing? ==> !loop.phase.Subscribing? || Started(s.bus.subs[c].phase))
            && |after.shown| + Rounds(after) <= |loop.shown| + Rounds(loop) + if step == Wake(c) then 1 else 0
  {
    hide Enabled;
  }

  /** A stream that was up to date stays so, and the round of a wake-up will be. */
  lemma StaysFresh(s: App, step: AppStep, c: nat)
    requires AppEnabled(s, step) && !step.Commit? && c < |s.loops| && LoopOk(s.loops[c], Now(s))
    requires Fresh(s.loops[c], Now(s)) || step == Wake(c)
    ensures Fresh(LoopAfter(s, step, c), Now(s))
  {
    hide LoopOk, Fresh;
    FreshOnExit(s.loops[c], Now(s));
    RoundStaysFresh(s.loops[c], Now(s), TodosNow(s), EventsNow(s));
  }

  lemma FreshOnExit(loop: Loop, now: nat)
    ensures Fresh(loop.(phase := Exited), now)
  {
  }

  lemma CommitIsOwed(s: App, step: AppStep, c: nat)
    requires AppEnabled(s, step) && step.Commit? && c < |AppNext(s, step).bus.subs|
    ensures WakeUpComing(AppNext(s, step).bus, c)
  {
    BusPart(s, step);
    PubMoves(s.bus, Inner(step), step.p);
    hide Next, AppNext;
    assert Owes(AppNext(s, step).bus.pubs[step.p], c);
  }

  lemma StepForgetsNothing(s: App, step: AppStep, c: nat)
    requires AppInv(s) && AppEnabled(s, step) && c < |s.loops|
    requires InPhase(AppNext(s, step), c) && AppNext(s, step).log != []
    ensures NeverForgotten(AppNext(s, step), c)
  {
    var t := AppNext(s, step);
    assert StreamOk(s, c);
    BusPart(s, step);
    StreamCallers(s, c);
    LoopMoves(s, step, c);
    StepOnSub(s, step, c);
    hide AppNext, AppEnabled, AppInv, Next, Enabled, WakeUpComing, LoopOk, Fresh, CallersOk;
    if step.Commit? {
      CommitIsOwed(s, step, c);
    } else if Live(t, c) && !Fresh(t.loops[c], Now(t)) {
      ExitedStays(s, step, c);
      if Fresh(s.loops[c], Now(s)) || step == Wake(c) {
        StaysFresh(s, step, c);
      } else {
        SubscribingIsFresh(s.loops[c], Now(s));
        if HasInner(step) {
          InnerKinds(s, step, c);
          WakeUpSurvives(s, Inner(step), c);
        }
      }
    }
  }

  lemma SubscribingIsFresh(loop: Loop, now: nat)
    ensures loop.phase.Subscribing? ==> Fresh(loop, now)
  {
  }

  lemma ExitedStays(s: App, step: AppStep, c: nat)
    requires AppEnabled(s, step) && c < |s.loops|
    ensures s.loops[c].phase.Exited? ==> LoopAfter(s, step, c).phase.Exited?
  {
  }

  /** A stream is live from its opening until its handler exits or its context ends. */
  lemma LiveUntilEnded(s: App, step: AppStep, c: nat)
    requires AppEnabled(s, step) && |s.loops| == |s.bus.subs|
    requires if step.Open? then Live(s, c) || c == |s.loops| else Live(s, c)
    requires step != Exit(c) && step != BusStep(Step.Cancel(c))
    ensures Live(AppNext(s, step), c)
  {
    BusPart(s, step);
    LoopMoves(s, step, c);
    if HasInner(step) {
      SubMoves(s.bus, Inner(step), c);
    }
    hide AppNext, Next, Enabled;
  }

  lemma NewStreamOk(s: App, step: AppStep)
    requires AppEnabled(s, step) && step.Open? && |s.loops| == |s.bus.subs|
    ensures InPhase(AppNext(s, step), |s.loops|) && AppNext(s, step).log != []
    ensures StreamOk(AppNext(s, step), |s.loops|)
  {
    var c := |s.loops|;
    BusPart(s, step);
    LoopMoves(s, step, c);
    SubMoves(s.bus, Inner(step), c);
    hide AppNext, Next, WakeUpComing;
  }

  lemma StepKeepsTopics(s: App, step: AppStep, p: nat)
    requires AppEnabled(s, step) && p < |AppNext(s, step).bus.pubs|
    requires p < |s.bus.pubs| ==> PubOnTopic(s.bus.pubs[p])
    ensures PubOnTopic(AppNext(s, step).bus.pubs[p])
  {
    BusPart(s, step);
    if HasInner(step) {
      PubMoves(s.bus, Inner(step), p);
    }
    hide AppNext, Next;
  }

  lemma AppStepKeepsInv(s: App, step: AppStep)
    requires AppInv(s) && AppEnabled(s, step)
    ensures AppInv(AppNext(s, step))
  {
    var t := AppNext(s, step);
    BusPart(s, step);
    LoopMoves(s, step, 0);
    StreamsMatch(s, step);
    hide AppNext, AppEnabled, Next, Inv, StreamOk, PubOnTopic;
    if HasInner(step) {
      StepKeepsInv(s.bus, Inner(step));
    }
    forall p | 0 <= p < |t.bus.pubs| ensures PubOnTopic(t.bus.pubs[p]) {
      StepKeepsTopics(s, step, p);
    }
    forall c | 0 <= c < |t.loops| ensures StreamOk(t, c) {
      if c < |s.loops| {
        StreamCallers(s, c);
        StepKeepsLoop(s, step, c);
        StepForgetsNothing(s, step, c);
      } else {
        NewStreamOk(s, step);
      }
    }
  }

  lemma StreamsMatch(s: App, step: AppStep)
    requires AppEnabled(s, step) && |s.loops| == |s.bus.subs|
    ensures |AppNext(s, step).loops| == |AppNext(s, step).bus.subs|
  {
    BusPart(s, step);
    LoopMoves(s, step, 0);
    if HasInner(step) {
      SubMoves(s.bus, Inner(step), 0);
    }
    hide AppNext, Next;
  }
}
