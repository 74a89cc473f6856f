/**
 The in-process bus (internal/realtime/memory.go) as a transition system. Publishers,
 subscriptions, context watchers and unsubscribe callers interleave at the granularity of
 single operations under the read-write lock.

 Channels and publisher goroutines are numbered in order of creation. An event carries the
 number of its publisher and its place among that publisher's publications, which the code
 does not store, so that statements about order can be made.
 */
module Bus {
  import opened Options

  const CAPACITY := 16

  datatype Event = Event(topic: string, data: string, sender: nat, number: nat)

  /** Where a subscription stands, from the call of `Subscribe` to the end of `unsubscribe`. */
  datatype Phase =
    | Waiting    // the channel is made, the write lock is not held yet
    | Making     // lock held: about to make the topic's set if there is none
    | Adding     // lock held: about to add the channel
    | Unlocking  // lock held: about to release it
    | Active     // `Subscribe` has returned and started the watcher
    | Closing    // `once` has begun: `done` is closed, the lock is not held yet
    | Removing   // lock held: about to delete the channel
    | Pruning    // lock held: about to delete the topic if its set is empty
    | Releasing  // lock held: about to release it
    | Gone       // `once` is done

  function Rank(phase: Phase): nat
  {
    match phase
    case Waiting => 9 case Making => 8 case Adding => 7 case Unlocking => 6 case Active => 5
    case Closing => 4 case Removing => 3 case Pruning => 2 case Releasing => 1 case Gone => 0
  }

  predicate HoldsLock(phase: Phase) { Rank(phase) in {8, 7, 6, 3, 2, 1} }

  predicate Listed(phase: Phase) { 3 <= Rank(phase) <= 6 }

  predicate Started(phase: Phase) { Rank(phase) <= 5 }

  predicate DoneClosed(phase: Phase) { Rank(phase) <= 4 }

  /** A party that may call `unsubscribe` once. */
  datatype Caller = Idle | Calling | Returned

  /** `sent` is everything ever put into the channel; `queue` is what is still in it. */
  datatype Sub = Sub(topic: string, phase: Phase, queue: seq<Event>, sent: seq<Event>,
                     cancelled: bool, watcher: Caller, handler: Caller)

  /** `left` holds the channels the publishing loop has not visited. */
  datatype PubPhase = Resting | Wanting(event: Event) | Sending(event: Event, left: set<nat>)

  datatype Pub = Pub(count: nat, phase: PubPhase)

  datatype State = State(registry: map<string, set<nat>>, writer: Option<nat>,
                         subs: seq<Sub>, pubs: seq<Pub>, published: seq<Event>)

  const EMPTY := State(map[], None, [], [], [])

  function Lookup<C(==)>(registry: map<string, set<C>>, topic: string): set<C>
  {
    if topic in registry then registry[topic] else {}
  }

  /** The send with a default case: a full channel drops the event. */
  function Offer<E>(queue: seq<E>, e: E): seq<E>
  {
    if |queue| < CAPACITY then queue + [e] else queue
  }

  /** What `Subscribe` does to the registry while it holds the write lock. */
  function Register<C(==)>(registry: map<string, set<C>>, topic: string, c: C): map<string, set<C>>
  {
    registry[topic := Lookup(registry, topic) + {c}]
  }

  /** What `unsubscribe` does to it: the last channel takes the topic with it. */
  function Unregister<C(==)>(registry: map<string, set<C>>, topic: string, c: C): map<string, set<C>>
  {
    var left := Lookup(registry, topic) - {c};
    if left == {} then registry - {topic} else registry[topic := left]
  }

  datatype Step =
    | NewPublisher
    | BeginPublish(p: nat, topic: string, data: string)
    | ReadLock(p: nat)
    | Send(p: nat, c: nat)
    | ReadUnlock(p: nat)
    | BeginSubscribe(topic: string)
    | Lock(c: nat)
    | Make(c: nat)
    | Add(c: nat)
    | Remove(c: nat)
    | Prune(c: nat)
    | Unlock(c: nat)
    | Cancel(c: nat)
    | HandlerCall(c: nat)
    | WatcherCall(c: nat)
    | WatcherDone(c: nat)
    | CloseOnce(c: nat)
    | HandlerReturn(c: nat)
    | WatcherReturn(c: nat)
    | Receive(c: nat)

  predicate NoReader(s: State) { forall p :: 0 <= p < |s.pubs| ==> !s.pubs[p].phase.Sending? }

  predicate IsSub(s: State, c: nat, phase: Phase) { c < |s.subs| && s.subs[c].phase == phase }

  predicate Enabled(s: State, step: Step)
  {
    match step
    case NewPublisher => true
    case BeginPublish(p, _, _) => p < |s.pubs| && s.pubs[p].phase.Resting?
    case ReadLock(p) => p < |s.pubs| && s.pubs[p].phase.Wanting? && s.writer.None?
    case Send(p, c) => p < |s.pubs| && s.pubs[p].phase.Sending? && c in s.pubs[p].phase.left && c < |s.subs|
    case ReadUnlock(p) => p < |s.pubs| && s.pubs[p].phase.Sending? && s.pubs[p].phase.left == {}
    case BeginSubscribe(_) => true
    case Lock(c) => (IsSub(s, c, Waiting) || IsSub(s, c, Closing)) && s.writer.None? && NoReader(s)
    case Make(c) => IsSub(s, c, Making)
    case Add(c) => IsSub(s, c, Adding) && s.subs[c].topic in s.registry
    case Remove(c) => IsSub(s, c, Removing)
    case Prune(c) => IsSub(s, c, Pruning)
    case Unlock(c) => IsSub(s, c, Unlocking) || IsSub(s, c, Releasing)
    case Cancel(c) => c < |s.subs|
    case HandlerCall(c) => c < |s.subs| && Started(s.subs[c].phase) && s.subs[c].handler.Idle?
    case WatcherCall(c) => c < |s.subs| && Started(s.subs[c].phase) && s.subs[c].watcher.Idle? && s.subs[c].cancelled
    case WatcherDone(c) => c < |s.subs| && DoneClosed(s.subs[c].phase) && s.subs[c].watcher.Idle?
    case CloseOnce(c) => IsSub(s, c, Active) && (s.subs[c].watcher.Calling? || s.subs[c].handler.Calling?)
    case HandlerReturn(c) => IsSub(s, c, Gone) && s.subs[c].handler.Calling?
    case WatcherReturn(c) => IsSub(s, c, Gone) && s.subs[c].watcher.Calling?
    case Receive(c) => c < |s.subs| && s.subs[c].queue != []
  }

  function SetSub(s: State, c: nat, sub: Sub): State
    requires c < |s.subs|
  {
    s.(subs := s.subs[c := sub])
  }

  function SetPub(s: State, p: nat, pub: Pub): State
    requires p < |s.pubs|
  {
    s.(pubs := s.pubs[p := pub])
  }

  function Next(s: State, step: Step): State
    requires Enabled(s, step)
  {
    match step
    case NewPublisher => s.(pubs := s.pubs + [Pub(0, Resting)])
    case BeginPublish(p, topic, data) =>
      var e := Event(topic, data, p, s.pubs[p].count);
      SetPub(s, p, Pub(s.pubs[p].count + 1, Wanting(e))).(published := s.published + [e])
    case ReadLock(p) =>
      var e := s.pubs[p].phase.event;
      SetPub(s, p, s.pubs[p].(phase := Sending(e, Lookup(s.registry, e.topic))))
    case Send(p, c) =>
      var Sending(e, left) := s.pubs[p].phase;
      var sub := s.subs[c];
      var taken := if |sub.queue| < CAPACITY then [e] else [];
      SetSub(SetPub(s, p, s.pubs[p].(phase := Sending(e, left - {c}))), c,
             sub.(queue := Offer(sub.queue, e), sent := sub.sent + taken))
    case ReadUnlock(p) => SetPub(s, p, s.pubs[p].(phase := Resting))
    case BeginSubscribe(topic) => s.(subs := s.subs + [Sub(topic, Waiting, [], [], false, Idle, Idle)])
    case Lock(c) =>
      var phase := if s.subs[c].phase.Waiting? then Making else Removing;
      SetSub(s, c, s.subs[c].(phase := phase)).(writer := Some(c))
    case Make(c) =>
      var topic := s.subs[c].topic;
      SetSub(s, c, s.subs[c].(phase := Adding)).(registry := s.registry[topic := Lookup(s.registry, topic)])
    case Add(c) =>
      var topic := s.subs[c].topic;
      SetSub(s, c, s.subs[c].(phase := Unlocking)).(registry := s.registry[topic := Lookup(s.registry, topic) + {c}])
    case Remove(c) =>
      var topic := s.subs[c].topic;
      SetSub(s, c, s.subs[c].(phase := Pruning)).(
        registry := if topic in s.registry then s.registry[topic := s.registry[topic] - {c}] else s.registry)
    case Prune(c) =>
      var topic := s.subs[c].topic;
      SetSub(s, c, s.subs[c].(phase := Releasing)).(
        registry := if Lookup(s.registry, topic) == {} then s.registry - {topic} else s.registry)
    case Unlock(c) =>
      var phase := if s.subs[c].phase.Unlocking? then Active else Gone;
      SetSub(s, c, s.subs[c].(phase := phase)).(writer := None)
    case Cancel(c) => SetSub(s, c, s.subs[c].(cancelled := true))
    case HandlerCall(c) => SetSub(s, c, s.subs[c].(handler := Calling))
    case WatcherCall(c) => SetSub(s, c, s.subs[c].(watcher := Calling))
    case WatcherDone(c) => SetSub(s, c, s.subs[c].(watcher := Returned))
    case CloseOnce(c) => SetSub(s, c, s.subs[c].(phase := Closing))
    case HandlerReturn(c) => SetSub(s, c, s.subs[c].(handler := Returned))
    case WatcherReturn(c) => SetSub(s, c, s.subs[c].(watcher := Returned))
    case Receive(c) => SetSub(s, c, s.subs[c].(queue := s.subs[c].queue[1..]))
  }

  // ---- What a step does, part by part --------------------------------------------------

  /** Steps of the holder of the write lock, and of those who take it. */
  predicate LockStep(step: Step)
  {
    step.Lock? || step.Make? || step.Add? || step.Remove? || step.Prune? || step.Unlock?
  }

  /** The phase a step under the lock leads to. */
  function LockPhase(phase: Phase): Phase
  {
    match phase
    case Waiting => Making case Making => Adding case Adding => Unlocking case Unlocking => Active
    case Closing => Removing case Removing => Pruning case Pruning => Releasing case _ => Gone
  }

  function SubAfter(s: State, step: Step, c: nat): Sub
    requires Enabled(s, step) && c < |s.subs|
  {
    var sub := s.subs[c];
    if LockStep(step) && step.c == c then sub.(phase := LockPhase(sub.phase))
    else if step == Cancel(c) then sub.(cancelled := true)
    else if step == HandlerCall(c) then sub.(handler := Calling)
    else if step == WatcherCall(c) then sub.(watcher := Calling)
    else if step == WatcherDone(c) || step == WatcherReturn(c) then sub.(watcher := Returned)
    else if step == CloseOnce(c) then sub.(phase := Closing)
    else if step == HandlerReturn(c) then sub.(handler := Returned)
    else if step == Receive(c) then sub.(queue := sub.queue[1..])
    else if step.Send? && step.c == c then Offered(sub, s.pubs[step.p].phase.event)
    else sub
  }

  function Offered(sub: Sub, e: Event): Sub
  {
    sub.(queue := Offer(sub.queue, e), sent := sub.sent + if |sub.queue| < CAPACITY then [e] else [])
  }

  function PubAfter(s: State, step: Step, p: nat): Pub
    requires Enabled(s, step) && p < |s.pubs|
  {
    var pub := s.pubs[p];
    if step.BeginPublish? && step.p == p then Pub(pub.count + 1, Wanting(Event(step.topic, step.data, p, pub.count)))
    else if step == ReadLock(p) then pub.(phase := Sending(pub.phase.event, Lookup(s.registry, pub.phase.event.topic)))
    else if step.Send? && step.p == p then pub.(phase := Sending(pub.phase.event, pub.phase.left - {step.c}))
    else if step == ReadUnlock(p) then pub.(phase := Resting)
    else pub
  }

  lemma LockMovesSub(s: State, step: Step, c: nat)
    requires Enabled(s, step) && LockStep(step)
    ensures |Next(s, step).subs| == |s.subs|
    ensures c < |s.subs| ==> Next(s, step).subs[c] == SubAfter(s, step, c)
  {
  }

  lemma OthersMoveSub(s: State, step: Step, c: nat)
    requires Enabled(s, step) && !LockStep(step)
    ensures |Next(s, step).subs| == |s.subs| + if step.BeginSubscribe? then 1 else 0
    ensures c < |s.subs| ==> Next(s, step).subs[c] == SubAfter(s, step, c)
    ensures c == |s.subs| && step.BeginSubscribe? ==>
              Next(s, step).subs[c] == Sub(step.topic, Waiting, [], [], false, Idle, Idle)
  {
    if PubStep(step) {
      PublishersMoveSub(s, step, c);
    } else {
      CallersMoveSub(s, step, c);
    }
    hide Next, SubAfter;
  }

  predicate PubStep(step: Step)
  {
    step.NewPublisher? || step.BeginPublish? || step.ReadLock? || step.Send? || step.ReadUnlock?
  }

  lemma PublishersMoveSub(s: State, step: Step, c: nat)
    requires Enabled(s, step) && PubStep(step)
    ensures |Next(s, step).subs| == |s.subs|
    ensures c < |s.subs| ==> Next(s, step).subs[c] == SubAfter(s, step, c)
  {
    hide Offer, Lookup;
  }

  lemma CallersMoveSub(s: State, step: Step, c: nat)
    requires Enabled(s, step) && !LockStep(step) && !PubStep(step)
    ensures |Next(s, step).subs| == |s.subs| + if step.BeginSubscribe? then 1 else 0
    ensures c < |s.subs| ==> Next(s, step).subs[c] == SubAfter(s, step, c)
    ensures c == |s.subs| && step.BeginSubscribe? ==>
              Next(s, step).subs[c] == Sub(step.topic, Waiting, [], [], false, Idle, Idle)
  {
  }

  lemma SubMoves(s: State, step: Step, c: nat)
    requires Enabled(s, step)
    ensures |Next(s, step).subs| == |s.subs| + if step.BeginSubscribe? then 1 else 0
    ensures c < |s.subs| ==> Next(s, step).subs[c] == SubAfter(s, step, c)
    ensures c == |s.subs| && step.BeginSubscribe? ==>
              Next(s, step).subs[c] == Sub(step.topic, Waiting, [], [], false, Idle, Idle)
  {
    if LockStep(step) {
      LockMovesSub(s, step, c);
    } else {
      OthersMoveSub(s, step, c);
    }
    hide Next, SubAfter;
  }

  lemma PubMoves(s: State, step: Step, p: nat)
    requires Enabled(s, step)
    ensures |Next(s, step).pubs| == |s.pubs| + if step.NewPublisher? then 1 else 0
    ensures p < |s.pubs| ==> Next(s, step).pubs[p] == PubAfter(s, step, p)
    ensures p == |s.pubs| && step.NewPublisher? ==> Next(s, step).pubs[p] == Pub(0, Resting)
  {
    hide Offer, Lookup;
  }

  lemma PublishedMoves(s: State, step: Step)
    requires Enabled(s, step)
    ensures Next(s, step).published ==
            s.published + if step.BeginPublish?
                          then [Event(step.topic, step.data, step.p, s.pubs[step.p].count)] else []
  {
    hide Offer, Lookup;
  }

  // ---- The invariant -------------------------------------------------------------------

  ghost predicate InRegistry(s: State, topic: string, c: nat) { c in Lookup(s.registry, topic) }

  /** The map of sets is exactly the registered (topic, channel) pairs. */
  ghost predicate RegistryExact(s: State)
  {
    forall topic: string, c: nat :: InRegistry(s, topic, c) <==>
                                    c < |s.subs| && s.subs[c].topic == topic && Listed(s.subs[c].phase)
  }

  /** Only the holder of the write lock ever sees an empty inner set, that of its own topic. */
  ghost predicate NoEmptySet(s: State)
  {
    forall topic :: topic in s.registry && s.registry[topic] == {} ==>
                      && s.writer.Some? && s.writer.value < |s.subs|
                      && s.subs[s.writer.value].topic == topic
                      && s.subs[s.writer.value].phase in {Adding, Pruning}
  }

  /** The insertion of `Subscribe` never meets a missing inner map. */
  ghost predicate MapMade(s: State)
  {
    forall c :: 0 <= c < |s.subs| && s.subs[c].phase.Adding? ==> s.subs[c].topic in s.registry
  }

  /** The write lock excludes other writers and all readers. */
  ghost predicate LockExact(s: State)
  {
    && (forall c :: 0 <= c < |s.subs| ==> (HoldsLock(s.subs[c].phase) <==> s.writer == Some(c)))
    && (s.writer.Some? ==> s.writer.value < |s.subs| && NoReader(s))
  }

  /** `unsubscribe` runs only when someone called it, and returns only when it is done. */
  ghost predicate CallersOk(sub: Sub)
  {
    && (!Started(sub.phase) ==> sub.watcher.Idle? && sub.handler.Idle?)
    && (sub.watcher.Calling? ==> sub.cancelled)
    && (sub.watcher.Returned? ==> DoneClosed(sub.phase))
    && (sub.handler.Returned? ==> sub.phase.Gone?)
    && (DoneClosed(sub.phase) ==> sub.cancelled || !sub.handler.Idle?)
  }

  /** Publications of `pub` up to here may already stand in channel `c`. */
  function Horizon(pub: Pub, c: nat): int
  {
    match pub.phase
    case Resting => pub.count
    case Wanting(_) => pub.count - 1
    case Sending(_, left) => if c in left then pub.count - 1 else pub.count
  }

  ghost predicate SentOk(s: State, c: nat)
  {
    && c < |s.subs|
    && (forall i :: 0 <= i < |s.subs[c].sent| ==> EventOk(s, c, s.subs[c].sent[i]))
    && Ordered(s.subs[c].sent)
    && |s.subs[c].queue| <= CAPACITY && |s.subs[c].queue| <= |s.subs[c].sent|
    && s.subs[c].queue == s.subs[c].sent[|s.subs[c].sent| - |s.subs[c].queue|..]
  }

  ghost predicate EventOk(s: State, c: nat, e: Event)
    requires c < |s.subs|
  {
    && e.topic == s.subs[c].topic && e in s.published
    && e.sender < |s.pubs| && e.number < Horizon(s.pubs[e.sender], c)
  }

  /** Events of one publisher stand in the order of their publication. */
  ghost predicate Ordered(events: seq<Event>)
  {
    forall i, j :: 0 <= i < j < |events| && events[i].sender == events[j].sender ==>
                     events[i].number < events[j].number
  }

  ghost predicate PubOk(s: State, p: nat)
    requires p < |s.pubs|
  {
    match s.pubs[p].phase
    case Resting => true
    case Wanting(e) => IsCurrent(s, p, e)
    case Sending(e, left) => IsCurrent(s, p, e) && forall c :: c in left ==> InRegistry(s, e.topic, c)
  }

  ghost predicate IsCurrent(s: State, p: nat, e: Event)
    requires p < |s.pubs|
  {
    e.sender == p && e.number == s.pubs[p].count - 1 && e in s.published
  }

  ghost predicate PublishedOk(s: State)
  {
    && (forall i :: 0 <= i < |s.published| ==>
          s.published[i].sender < |s.pubs| && s.published[i].number < s.pubs[s.published[i].sender].count)
    && Ordered(s.published)
  }

  ghost predicate Inv(s: State)
  {
    && RegistryExact(s) && NoEmptySet(s) && MapMade(s) && LockExact(s) && PublishedOk(s)
    && (forall c :: 0 <= c < |s.subs| ==> CallersOk(s.subs[c]))
    && (forall c :: 0 <= c < |s.subs| ==> SentOk(s, c))
    && (forall p :: 0 <= p < |s.pubs| ==> PubOk(s, p))
  }

  /** Steps outside the lock leave the registry, the lock and who is registered alone. */
  lemma CalmStep(s: State, step: Step)
    requires Enabled(s, step) && !LockStep(step)
    ensures var t := Next(s, step);
            && t.registry == s.registry && t.writer == s.writer && |t.subs| >= |s.subs|
            && (forall c :: 0 <= c < |s.subs| ==>
                  && t.subs[c].topic == s.subs[c].topic
                  && (t.subs[c].phase == s.subs[c].phase || (s.subs[c].phase.Active? && t.subs[c].phase.Closing?)))
            && (forall c :: |s.subs| <= c < |t.subs| ==> t.subs[c].phase.Waiting?)
            && (s.writer.Some? && NoReader(s) ==> NoReader(t))
  {
  }

  lemma StepKeepsRegistry(s: State, step: Step)
    requires RegistryExact(s) && Enabled(s, step)
    ensures RegistryExact(Next(s, step))
  {
    var t := Next(s, step);
    if !LockStep(step) { CalmStep(s, step); }
    forall topic: string, c: nat
      ensures InRegistry(t, topic, c) <==> c < |t.subs| && t.subs[c].topic == topic && Listed(t.subs[c].phase)
    {
      assert InRegistry(s, topic, c) <==> c < |s.subs| && s.subs[c].topic == topic && Listed(s.subs[c].phase);
    }
  }

  lemma LockStepKeepsSets(s: State, step: Step)
    requires NoEmptySet(s) && LockExact(s) && Enabled(s, step) && LockStep(step)
    ensures NoEmptySet(Next(s, step))
  {
  }

  lemma LockStepKeepsMaps(s: State, step: Step)
    requires MapMade(s) && LockExact(s) && Enabled(s, step) && LockStep(step)
    ensures MapMade(Next(s, step))
  {
  }

  lemma LockStepKeepsHolder(s: State, step: Step)
    requires LockExact(s) && Enabled(s, step) && LockStep(step)
    ensures LockExact(Next(s, step))
  {
    var t := Next(s, step);
    forall c: nat | c < |s.subs|
      ensures |t.subs| == |s.subs|
      ensures t.subs[c] == if c == step.c then s.subs[c].(phase := LockPhase(s.subs[c].phase)) else s.subs[c]
    {
      LockMovesSub(s, step, c);
    }
    WriterMoves(s, step);
    LockHandling(s, step);
    hide Next, Enabled, HoldsLock, LockPhase;
  }

  lemma LockHandling(s: State, step: Step)
    requires Enabled(s, step) && LockStep(step)
    ensures step.c < |s.subs|
    ensures HoldsLock(s.subs[step.c].phase) <==> !step.Lock?
    ensures HoldsLock(LockPhase(s.subs[step.c].phase)) <==> !step.Unlock?
    ensures step.Lock? ==> s.writer.None? && NoReader(s)
  {
  }

  lemma WriterMoves(s: State, step: Step)
    requires Enabled(s, step) && LockStep(step)
    ensures var t := Next(s, step);
            && t.pubs == s.pubs && |t.subs| == |s.subs|
            && t.writer == if step.Lock? then Some(step.c) else if step.Unlock? then None else s.writer
  {
  }

  lemma StepKeepsLock(s: State, step: Step)
    requires NoEmptySet(s) && MapMade(s) && LockExact(s) && Enabled(s, step)
    ensures NoEmptySet(Next(s, step)) && MapMade(Next(s, step)) && LockExact(Next(s, step))
  {
    if LockStep(step) {
      hide Next;
      LockStepKeepsSets(s, step);
      LockStepKeepsMaps(s, step);
      LockStepKeepsHolder(s, step);
    } else {
      hide Next;
      CalmStep(s, step);
    }
  }

  lemma StepKeepsCallers(s: State, step: Step, c: nat)
    requires Enabled(s, step) && c < |Next(s, step).subs|
    requires c < |s.subs| ==> CallersOk(s.subs[c])
    ensures CallersOk(Next(s, step).subs[c])
  {
    SubMoves(s, step, c);
    hide Next, Offer, SubAfter, CallersOk;
    if c == |s.subs| {
      NewCallers(s, step);
    } else if LockStep(step) {
      LockKeepsCallers(s, step, c);
    } else {
      OthersKeepCallers(s, step, c);
    }
  }

  lemma NewCallers(s: State, step: Step)
    ensures step.BeginSubscribe? ==> CallersOk(Sub(step.topic, Waiting, [], [], false, Idle, Idle))
  {
  }

  lemma LockKeepsCallers(s: State, step: Step, c: nat)
    requires Enabled(s, step) && LockStep(step) && c < |s.subs| && CallersOk(s.subs[c])
    ensures CallersOk(SubAfter(s, step, c))
  {
  }

  lemma OthersKeepCallers(s: State, step: Step, c: nat)
    requires Enabled(s, step) && !LockStep(step) && c < |s.subs| && CallersOk(s.subs[c])
    ensures CallersOk(SubAfter(s, step, c))
  {
    hide Offer, Lookup;
  }

  lemma StepKeepsPub(s: State, step: Step, p: nat)
    requires LockExact(s) && Enabled(s, step)
    requires p < |Next(s, step).pubs| && (p < |s.pubs| ==> PubOk(s, p))
    ensures PubOk(Next(s, step), p)
  {
    PubMoves(s, step, p);
    PublishedMoves(s, step);
    if LockStep(step) {
      NoReaderBesideLock(s, step);
    } else {
      CalmStep(s, step);
    }
    hide Next, LockExact, Enabled;
    if p < |s.pubs| && !(step.BeginPublish? && step.p == p) {
      CurrentStays(s, Next(s, step), p);
    }
  }

  lemma NoReaderBesideLock(s: State, step: Step)
    requires LockExact(s) && Enabled(s, step) && LockStep(step)
    ensures NoReader(s)
  {
  }

  lemma CurrentStays(s: State, t: State, p: nat)
    requires p < |s.pubs| <= |t.pubs| && s.published <= t.published && t.pubs[p].count == s.pubs[p].count
    ensures forall e :: IsCurrent(s, p, e) ==> IsCurrent(t, p, e)
  {
  }

  ghost predicate CountsGrow(s: State, t: State)
  {
    |s.pubs| <= |t.pubs| && forall p :: 0 <= p < |s.pubs| ==> t.pubs[p].count >= s.pubs[p].count
  }

  lemma PublishedStays(s: State, t: State)
    requires PublishedOk(s) && t.published == s.published && CountsGrow(s, t)
    ensures PublishedOk(t)
  {
  }

  lemma PublishedGrows(s: State, t: State, e: Event)
    requires PublishedOk(s) && t.published == s.published + [e] && CountsGrow(s, t)
    requires e.sender < |s.pubs| && e.number == s.pubs[e.sender].count < t.pubs[e.sender].count
    ensures PublishedOk(t)
  {
  }

  lemma StepKeepsPublished(s: State, step: Step)
    requires PublishedOk(s) && Enabled(s, step)
    ensures PublishedOk(Next(s, step))
  {
    var t := Next(s, step);
    PublishedMoves(s, step);
    forall p: nat | p < |s.pubs| ensures p < |t.pubs| && t.pubs[p].count >= s.pubs[p].count {
      PubMoves(s, step, p);
    }
    PubMoves(s, step, 0);
    if step.BeginPublish? {
      PubMoves(s, step, step.p);
      hide Next, PublishedOk;
      PublishedGrows(s, t, Event(step.topic, step.data, step.p, s.pubs[step.p].count));
    } else {
      hide Next, Enabled, PublishedOk;
      assert s.published + [] == s.published;
      PublishedStays(s, t);
    }
  }

  /** A publication that may stand in a channel stays one that may. */
  lemma StepRaisesHorizon(s: State, step: Step, c: nat, e: Event)
    requires Enabled(s, step) && c < |s.subs| && EventOk(s, c, e)
    ensures c < |Next(s, step).subs| && EventOk(Next(s, step), c, e)
  {
    SubMoves(s, step, c);
    PubMoves(s, step, e.sender);
    PublishedMoves(s, step);
    hide Next;
  }

  lemma SendKeepsSent(s: State, p: nat, c: nat)
    requires Inv(s) && Enabled(s, Send(p, c))
    ensures SentOk(Next(s, Send(p, c)), c)
  {
    var t := Next(s, Send(p, c));
    var e := s.pubs[p].phase.event;
    assert PubOk(s, p) && SentOk(s, c) && InRegistry(s, e.topic, c);
    assert EventOk(t, c, e);
    forall i | 0 <= i < |s.subs[c].sent| ensures EventOk(t, c, s.subs[c].sent[i]) {
      StepRaisesHorizon(s, Send(p, c), c, s.subs[c].sent[i]);
    }
  }

  /** No other step touches what a channel holds or has held. */
  lemma StepLeavesChannel(s: State, step: Step, c: nat)
    requires Enabled(s, step) && c < |s.subs|
    requires step != Receive(c) && !(step.Send? && step.c == c)
    ensures c < |Next(s, step).subs|
    ensures Next(s, step).subs[c].sent == s.subs[c].sent && Next(s, step).subs[c].queue == s.subs[c].queue
    ensures Next(s, step).subs[c].topic == s.subs[c].topic
  {
    SubMoves(s, step, c);
    hide Next;
  }

  lemma StepKeepsSent(s: State, step: Step, c: nat)
    requires Inv(s) && Enabled(s, step) && c < |s.subs|
    ensures SentOk(Next(s, step), c)
  {
    if step.Send? && step.c == c {
      SendKeepsSent(s, step.p, c);
    } else {
      var t := Next(s, step);
      assert SentOk(s, c);
      if step != Receive(c) {
        StepLeavesChannel(s, step, c);
      }
      forall i | 0 <= i < |s.subs[c].sent| ensures EventOk(t, c, s.subs[c].sent[i]) {
        StepRaisesHorizon(s, step, c, s.subs[c].sent[i]);
      }
    }
  }

  lemma StepKeepsInv(s: State, step: Step)
    requires Inv(s) && Enabled(s, step)
    ensures Inv(Next(s, step))
  {
    StepKeepsRegistry(s, step);
    StepKeepsLock(s, step);
    StepKeepsPublished(s, step);
    var t := Next(s, step);
    forall c | 0 <= c < |t.subs| ensures CallersOk(t.subs[c]) && SentOk(t, c) {
      StepKeepsCallers(s, step, c);
      if c < |s.subs| { StepKeepsSent(s, step, c); }
    }
    forall p | 0 <= p < |t.pubs| ensures PubOk(t, p) {
      StepKeepsPub(s, step, p);
    }
  }

  // ---- Runs ----------------------------------------------------------------------------

  ghost predicate Valid(s: State, steps: seq<Step>)
    decreases |steps|
  {
    steps != [] ==> Enabled(s, steps[0]) && Valid(Next(s, steps[0]), steps[1..])
  }

  function Run(s: State, steps: seq<Step>): State
    requires Valid(s, steps)
    decreases |steps|
  {
    if steps == [] then s else Run(Next(s, steps[0]), steps[1..])
  }

  lemma {:induction false} RunKeepsInv(s: State, steps: seq<Step>)
    requires Inv(s) && Valid(s, steps)
    ensures Inv(Run(s, steps))
    decreases |steps|
  {
    if steps != [] {
      StepKeepsInv(s, steps[0]);
      RunKeepsInv(Next(s, steps[0]), steps[1..]);
    }
  }

  /** Every state that a new bus can reach satisfies the invariant. */
  lemma ReachableInv(start: State, steps: seq<Step>)
    requires start == EMPTY && Valid(start, steps)
    ensures Inv(Run(start, steps))
  {
    StartsEmpty(start);
    RunKeepsInv(start, steps);
  }

  lemma StartsEmpty(s: State)
    requires s == EMPTY
    ensures Inv(s)
  {
  }

  /**
   The registry, in every reachable state: whenever the write lock is free it holds exactly
   the channels that `Subscribe` has inserted and `unsubscribe` has not yet deleted, and no
   topic has an empty set.
   */
  lemma RegistryRefinement(s: State)
    requires Inv(s) && s.writer.None?
    ensures forall topic: string, c: nat :: c in Lookup(s.registry, topic) <==>
              c < |s.subs| && s.subs[c].topic == topic && s.subs[c].phase in {Active, Closing}
    ensures forall topic :: topic in s.registry ==> s.registry[topic] != {}
  {
    forall topic: string, c: nat
      ensures c in Lookup(s.registry, topic) <==>
                c < |s.subs| && s.subs[c].topic == topic && s.subs[c].phase in {Active, Closing}
    {
      assert InRegistry(s, topic, c) <==> c < |s.subs| && s.subs[c].topic == topic && Listed(s.subs[c].phase);
      assert c < |s.subs| ==> !HoldsLock(s.subs[c].phase);
    }
  }

  /** An event enters a channel only while the channel is registered, and from a registered topic. */
  lemma SendOnlyWhileRegistered(s: State, step: Step, c: nat)
    requires Enabled(s, step) && c < |s.subs|
    requires Next(s, step).subs[c].sent != s.subs[c].sent
    requires Inv(s)
    ensures step.Send? && step.c == c && s.subs[c].phase in {Active, Closing}
    ensures s.subs[c].topic == s.pubs[step.p].phase.event.topic
  {
    assert PubOk(s, step.p) && InRegistry(s, s.pubs[step.p].phase.event.topic, c);
    assert s.writer != Some(c);
  }

  /**
   Once `unsubscribe` is done, by whichever of its two callers, nothing is ever sent to the
   channel again and its registration never returns, whatever happens later.
   */
  lemma {:induction false} SilentAfterUnsubscribe(s: State, steps: seq<Step>, c: nat)
    requires Inv(s) && Valid(s, steps)
    requires IsSub(s, c, Gone)
    ensures IsSub(Run(s, steps), c, Gone)
    ensures Run(s, steps).subs[c].sent == s.subs[c].sent
    decreases |steps|
  {
    if steps != [] {
      StepKeepsInv(s, steps[0]);
      StaysSilent(s, steps[0], c);
      hide Next, Inv;
      SilentAfterUnsubscribe(Next(s, steps[0]), steps[1..], c);
    }
  }

  lemma StaysSilent(s: State, step: Step, c: nat)
    requires Inv(s) && Enabled(s, step) && IsSub(s, c, Gone)
    ensures IsSub(Next(s, step), c, Gone) && Next(s, step).subs[c].sent == s.subs[c].sent
  {
    SubMoves(s, step, c);
    if Next(s, step).subs[c].sent != s.subs[c].sent {
      SendOnlyWhileRegistered(s, step, c);
    }
    hide Next, Inv;
  }

  /** A caller of `unsubscribe` gets control back only when the channel is out of the registry. */
  lemma UnsubscribeReturned(s: State, c: nat, topic: string)
    requires Inv(s) && c < |s.subs|
    requires s.subs[c].handler.Returned? || s.subs[c].phase.Gone?
    ensures s.subs[c].phase.Gone? && c !in Lookup(s.registry, topic)
  {
    assert CallersOk(s.subs[c]);
    assert InRegistry(s, topic, c) ==> Listed(s.subs[c].phase);
  }

  /**
   Delivery in every reachable state: a channel holds at most 16 events, everything it ever
   held was published on its topic, and two events of one publisher arrive in the order in
   which that publisher published them.
   */
  lemma DeliveryOrder(s: State, c: nat)
    requires Inv(s) && c < |s.subs|
    ensures |s.subs[c].queue| <= 16
    ensures forall i :: 0 <= i < |s.subs[c].sent| ==>
                          s.subs[c].sent[i] in s.published && s.subs[c].sent[i].topic == s.subs[c].topic
    ensures forall i, j, x, y | 0 <= i < j < |s.subs[c].sent| && 0 <= x < |s.published| && 0 <= y < |s.published| ::
              (s.subs[c].sent[i] == s.published[x] && s.subs[c].sent[j] == s.published[y] &&
               s.published[x].sender == s.published[y].sender) ==> x < y
  {
    assert SentOk(s, c);
    forall i | 0 <= i < |s.subs[c].sent|
      ensures s.subs[c].sent[i] in s.published && s.subs[c].sent[i].topic == s.subs[c].topic
    {
      assert EventOk(s, c, s.subs[c].sent[i]);
    }
  }

  /** A wake-up is left out exactly when 16 are waiting; otherwise it goes to the end. */
  lemma DroppedOnlyWhenFull(s: State, p: nat, c: nat)
    requires Inv(s) && Enabled(s, Send(p, c))
    ensures var before, after := s.subs[c], Next(s, Send(p, c)).subs[c];
            var e := s.pubs[p].phase.event;
            if |before.queue| == 16 then after.queue == before.queue && after.sent == before.sent
            else |before.queue| < 16 && after.queue == before.queue + [e] && after.sent == before.sent + [e]
  {
    assert SentOk(s, c);
  }

  /** What the reader has taken and what it still finds are together what was sent. */
  lemma ReceiveTakesOldest(s: State, c: nat)
    requires Inv(s) && Enabled(s, Receive(c))
    ensures var taken := |s.subs[c].sent| - |s.subs[c].queue|;
            0 <= taken < |s.subs[c].sent| && s.subs[c].queue[0] == s.subs[c].sent[taken]
  {
    assert SentOk(s, c);
  }

  // ---- Whole operations ----------------------------------------------------------------

  /**
   `second` and `third` taken under the write lock, then the lock released: the registry
   ends as given, subscription `c` in the given phase, and no other subscription has moved.
   */
  ghost predicate Section(s: State, c: nat, second: Step, third: Step, registry: map<string, set<nat>>, phase: Phase)
  {
    && Enabled(s, Lock(c))
    && var a := Next(s, Lock(c));
    && Enabled(a, second)
    && var b := Next(a, second);
    && Enabled(b, third)
    && var d := Next(b, third);
    && Enabled(d, Unlock(c))
    && var t := Next(d, Unlock(c));
    && t.registry == registry && t.writer.None? && t.pubs == s.pubs
    && |t.subs| == |s.subs| && c < |s.subs| && t.subs[c] == s.subs[c].(phase := phase)
    && forall other :: 0 <= other < |s.subs| && other != c ==> t.subs[other] == s.subs[other]
  }

  /** The critical section of `Subscribe` adds up to `Register`. */
  lemma SubscribeSection(s: State, c: nat)
    requires s.writer.None? && NoReader(s) && IsSub(s, c, Waiting)
    ensures Section(s, c, Make(c), Add(c), Register(s.registry, s.subs[c].topic, c), Active)
  {
    var m, topic := s.registry, s.subs[c].topic;
    assert m[topic := Lookup(m, topic)][topic := Lookup(m, topic) + {c}] == Register(m, topic, c);
  }

  /** The critical section of `unsubscribe` adds up to `Unregister`. */
  lemma UnsubscribeSection(s: State, c: nat)
    requires RegistryExact(s) && s.writer.None? && NoReader(s) && IsSub(s, c, Closing)
    ensures Section(s, c, Remove(c), Prune(c), Unregister(s.registry, s.subs[c].topic, c), Gone)
  {
    var m, topic := s.registry, s.subs[c].topic;
    assert InRegistry(s, topic, c);
    RemoveAndPrune(m, topic, c);
  }

  lemma RemoveAndPrune(m: map<string, set<nat>>, topic: string, c: nat)
    requires topic in m
    ensures var removed := m[topic := m[topic] - {c}];
            (if Lookup(removed, topic) == {} then removed - {topic} else removed) == Unregister(m, topic, c)
  {
  }

  /** Without empty sets, unregistering a channel undoes registering it. */
  lemma UnregisterUndoesRegister<C>(registry: map<string, set<C>>, topic: string, c: C)
    requires c !in Lookup(registry, topic)
    requires topic in registry ==> registry[topic] != {}
    ensures Unregister(Register(registry, topic, c), topic, c) == registry
  {
  }

  function Sends(p: nat, order: seq<nat>): seq<Step>
  {
    seq(|order|, i requires 0 <= i < |order| => Send(p, order[i]))
  }

  ghost predicate Distinct(order: seq<nat>)
  {
    forall i, j :: 0 <= i < j < |order| ==> order[i] != order[j]
  }

  /**
   A publishing loop visits every channel it found registered exactly once, in any order:
   each gets the event offered, every other channel and the registry stay as they were.
   */
  lemma {:induction false} PublishLoop(s: State, p: nat, order: seq<nat>)
    requires Inv(s) && p < |s.pubs| && s.pubs[p].phase.Sending?
    requires Distinct(order) && s.pubs[p].phase.left == set i | 0 <= i < |order| :: order[i]
    ensures Valid(s, Sends(p, order))
    ensures var e, t := s.pubs[p].phase.event, Run(s, Sends(p, order));
            && t.pubs == s.pubs[p := Pub(s.pubs[p].count, Sending(e, {}))]
            && t.registry == s.registry && |t.subs| == |s.subs|
            && forall c :: 0 <= c < |s.subs| ==>
                 t.subs[c].queue == if c in s.pubs[p].phase.left then Offer(s.subs[c].queue, e) else s.subs[c].queue
    decreases |order|
  {
    var Sending(e, left) := s.pubs[p].phase;
    if order == [] {
      assert left == {};
    } else {
      var c := order[0];
      assert PubOk(s, p) && InRegistry(s, e.topic, c);
      var t := Next(s, Send(p, c));
      StepKeepsInv(s, Send(p, c));
      RestOfOrder(order, left);
      PublishLoop(t, p, order[1..]);
      assert Sends(p, order)[1..] == Sends(p, order[1..]);
      assert t.pubs[p := Pub(s.pubs[p].count, Sending(e, {}))] == s.pubs[p := Pub(s.pubs[p].count, Sending(e, {}))];
    }
  }

  lemma RestOfOrder(order: seq<nat>, left: set<nat>)
    requires order != [] && Distinct(order) && left == set i | 0 <= i < |order| :: order[i]
    ensures left - {order[0]} == set i | 0 <= i < |order[1..]| :: order[1..][i]
  {
  }
}
