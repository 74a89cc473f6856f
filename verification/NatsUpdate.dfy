/**
 Live updates across processes over NATS (internal/realtime/nats.go). Each process has one
 connection, a first-in first-out queue of protocol messages to the broker; the broker copies
 a publication to the subscriptions it has registered by then, in order, and a callback moves
 it into the stream's channel or drops it.
 */
module NatsUpdate {
  import opened Options
  import opened StreamLoop
  import opened Bus
  import T = Tables

  /** PING is numbered by the subscription whose flush it is; a publisher's flush has none. */
  datatype Wire = SubWire(c: nat) | PingWire(c: nat) | PubWire(data: string) | PubPingWire | UnsubWire(c: nat)

  /** `due`: the wake-up of a committed mutation, still to be written. `flushing`: its flush is. */
  datatype Publisher = Publisher(conn: nat, due: seq<string>, flushing: bool)

  /**
   `pinged`, `ponged`: the flush of `Subscribe` is written, and answered by the broker.
   `ready`: `Subscribe` has returned the channel. `ended`: `done` is closed.
   */
  datatype Channel = Channel(conn: nat, pinged: bool, ponged: bool, ready: bool, ended: bool, cancelled: bool,
                             inbox: seq<string>, queue: seq<string>)

  function NewChannel(conn: nat): Channel { Channel(conn, false, false, false, false, false, [], []) }

  datatype Cluster = Cluster(wires: seq<seq<Wire>>, registered: set<nat>, chans: seq<Channel>,
                             publishers: seq<Publisher>, log: seq<T.Tables>, loops: seq<Loop>)

  datatype NatsStep =
    | NewProcess
    | NewPublisher(conn: nat)
    | Commit(p: nat, tables: T.Tables, reason: string)
    | Publish(p: nat)                    // write PUB
    | PublishFlush(p: nat)               // write PING; waiting for its answer only delays the caller
    | Open(conn: nat)                    // `Subscribe`: write SUB
    | Flush(c: nat)                      // `Subscribe`: write PING
    | FlushDone(c: nat)                  // the flush returned: read the initial snapshot next
    | FlushFailed(c: nat)                // the flush failed or timed out
    | Broker(conn: nat)                  // the broker handles the next message of a connection
    | Callback(c: nat, late: bool)       // the client runs the callback for the next message
    | Wake(c: nat)
    | TodosQuery(c: nat)
    | EventsQuery(c: nat)
    | WriteSnapshot(c: nat)
    | Cancel(c: nat)
    | Exit(c: nat)
    | Unsubscribe(c: nat)                // by the watcher or the handler, once

  predicate Start(s: Cluster)
  {
    s.wires == [] && s.registered == {} && s.chans == [] && s.publishers == [] && |s.log| == 1 && s.loops == []
  }

  predicate Has(s: Cluster, c: nat) { c < |s.chans| && c < |s.loops| && s.chans[c].conn < |s.wires| }

  predicate NatsEnabled(s: Cluster, step: NatsStep)
  {
    && s.log != []
    && match step
       case NewProcess => true
       case NewPublisher(conn) => conn < |s.wires|
       case Commit(p, _, _) => p < |s.publishers| && s.publishers[p].due == [] && !s.publishers[p].flushing
       case Publish(p) => p < |s.publishers| && s.publishers[p].due != [] && s.publishers[p].conn < |s.wires|
       case PublishFlush(p) => p < |s.publishers| && s.publishers[p].flushing && s.publishers[p].conn < |s.wires|
       case Open(conn) => conn < |s.wires|
       case Flush(c) => Has(s, c) && s.loops[c].phase.Subscribing? && !s.chans[c].pinged && !s.chans[c].ended
       case FlushDone(c) => Has(s, c) && s.loops[c].phase.Subscribing? && s.chans[c].ponged && !s.chans[c].ended
       case FlushFailed(c) => Has(s, c) && s.loops[c].phase.Subscribing? && !s.chans[c].ended
       case Broker(conn) => conn < |s.wires| && s.wires[conn] != []
       case Callback(c, late) => Has(s, c) && s.chans[c].inbox != [] && (late ==> s.chans[c].ended)
       case Wake(c) => Has(s, c) && s.loops[c].phase.Idle? && s.chans[c].queue != []
       case TodosQuery(c) => Has(s, c) && s.loops[c].phase.QueryTodos?
       case EventsQuery(c) => Has(s, c) && s.loops[c].phase.QueryEvents?
       case WriteSnapshot(c) => Has(s, c) && s.loops[c].phase.Writing?
       case Cancel(c) => Has(s, c)
       case Exit(c) => Has(s, c) && !s.loops[c].phase.Subscribing? && !s.loops[c].phase.Exited?
       case Unsubscribe(c) =>
         && Has(s, c) && s.chans[c].ready && !s.chans[c].ended
         && (s.chans[c].cancelled || s.loops[c].phase.Exited?)
  }

  function Now(s: Cluster): nat
    requires s.log != []
  {
    |s.log| - 1
  }

  function SetLoop(s: Cluster, c: nat, loop: Loop): Cluster
    requires c < |s.loops|
  {
    s.(loops := s.loops[c := loop])
  }

  function SetChan(s: Cluster, c: nat, chan: Channel): Cluster
    requires c < |s.chans|
  {
    s.(chans := s.chans[c := chan])
  }

  function Transmit(s: Cluster, conn: nat, w: Wire): Cluster
    requires conn < |s.wires|
  {
    s.(wires := s.wires[conn := s.wires[conn] + [w]])
  }

  /** The broker copies a publication to the inbox of every registered subscription. */
  function FanOut(s: Cluster, data: string): seq<Channel>
  {
    seq(|s.chans|, c requires 0 <= c < |s.chans| =>
      if c in s.registered then s.chans[c].(inbox := s.chans[c].inbox + [data]) else s.chans[c])
  }

  function Handle(s: Cluster, w: Wire): Cluster
  {
    match w
    case SubWire(c) => s.(registered := s.registered + {c})
    case UnsubWire(c) => s.(registered := s.registered - {c})
    case PubWire(data) => s.(chans := FanOut(s, data))
    case PubPingWire => s
    case PingWire(c) => if c < |s.chans| then SetChan(s, c, s.chans[c].(ponged := true)) else s
  }

  function End(s: Cluster, c: nat): Cluster
    requires Has(s, c)
  {
    Transmit(SetChan(s, c, s.chans[c].(ended := true)), s.chans[c].conn, UnsubWire(c))
  }

  /** What the todos query and the events query return now. */
  function TodosNow(s: Cluster): map<string, T.Todo>
    requires s.log != []
  {
    s.log[Now(s)].todos
  }

  ghost function EventsNow(s: Cluster): seq<T.AppEvent>
    requires s.log != []
  {
    T.ListEvents(s.log[Now(s)].events, 10)
  }

  ghost function NatsNext(s: Cluster, step: NatsStep): Cluster
    requires NatsEnabled(s, step)
  {
    match step
    case NewProcess => s.(wires := s.wires + [[]])
    case NewPublisher(conn) => s.(publishers := s.publishers + [Publisher(conn, [], false)])
    case Commit(p, tables, reason) =>
      s.(log := s.log + [tables], publishers := s.publishers[p := s.publishers[p].(due := [reason])])
    case Publish(p) =>
      var pub := s.publishers[p];
      Transmit(s, pub.conn, PubWire(pub.due[0])).(publishers := s.publishers[p := pub.(due := [], flushing := true)])
    case PublishFlush(p) =>
      var pub := s.publishers[p];
      Transmit(s, pub.conn, PubPingWire).(publishers := s.publishers[p := pub.(flushing := false)])
    case Open(conn) =>
      Transmit(s, conn, SubWire(|s.chans|)).(
        chans := s.chans + [NewChannel(conn)], loops := s.loops + [NEW_LOOP])
    case Flush(c) => Transmit(SetChan(s, c, s.chans[c].(pinged := true)), s.chans[c].conn, PingWire(c))
    case FlushDone(c) =>
      SetLoop(SetChan(s, c, s.chans[c].(ready := true)), c, BeginRound(s.loops[c], Now(s)))
    case FlushFailed(c) => SetLoop(End(s, c), c, s.loops[c].(phase := Exited))
    case Broker(conn) => Handle(s.(wires := s.wires[conn := s.wires[conn][1..]]), s.wires[conn][0])
    case Callback(c, late) =>
      var chan := s.chans[c];
      var queue := if late then chan.queue else Offer(chan.queue, chan.inbox[0]);
      SetChan(s, c, chan.(inbox := chan.inbox[1..], queue := queue))
    case Wake(c) =>
      SetLoop(SetChan(s, c, s.chans[c].(queue := s.chans[c].queue[1..])), c, BeginRound(s.loops[c], Now(s)))
    case TodosQuery(c) => SetLoop(s, c, ReadTodos(s.loops[c], Now(s), TodosNow(s)))
    case EventsQuery(c) => SetLoop(s, c, ReadEvents(s.loops[c], Now(s), EventsNow(s)))
    case WriteSnapshot(c) => SetLoop(s, c, Write(s.loops[c], Now(s)))
    case Cancel(c) => SetChan(s, c, s.chans[c].(cancelled := true))
    case Exit(c) => SetLoop(s, c, s.loops[c].(phase := Exited))
    case Unsubscribe(c) => End(s, c)
  }

  // ---- What a step does, part by part --------------------------------------------------

  /** The message a step writes, and the connection it writes it to. */
  function Sent(s: Cluster, step: NatsStep): Option<(nat, Wire)>
    requires NatsEnabled(s, step)
  {
    match step
    case Publish(p) => Some((s.publishers[p].conn, PubWire(s.publishers[p].due[0])))
    case PublishFlush(p) => Some((s.publishers[p].conn, PubPingWire))
    case Open(conn) => Some((conn, SubWire(|s.chans|)))
    case Flush(c) => Some((s.chans[c].conn, PingWire(c)))
    case FlushFailed(c) => Some((s.chans[c].conn, UnsubWire(c)))
    case Unsubscribe(c) => Some((s.chans[c].conn, UnsubWire(c)))
    case _ => None
  }

  function WiresAfter(s: Cluster, step: NatsStep): seq<seq<Wire>>
    requires NatsEnabled(s, step)
  {
    if step.NewProcess? then s.wires + [[]]
    else if step.Broker? then s.wires[step.conn := s.wires[step.conn][1..]]
    else match Sent(s, step)
      case None => s.wires
      case Some((conn, w)) => s.wires[conn := s.wires[conn] + [w]]
  }

  /** What the handling of one message means for channel `c`. */
  function Delivered(chan: Channel, c: nat, listed: bool, w: Wire): Channel
  {
    match w
    case PingWire(k) => if k == c then chan.(ponged := true) else chan
    case PubWire(data) => if listed then chan.(inbox := chan.inbox + [data]) else chan
    case _ => chan
  }

  function ChanAfter(s: Cluster, step: NatsStep, c: nat): Channel
    requires NatsEnabled(s, step) && c < |s.chans|
  {
    var chan := s.chans[c];
    if step == Flush(c) then chan.(pinged := true)
    else if step == FlushDone(c) then chan.(ready := true)
    else if step == FlushFailed(c) || step == Unsubscribe(c) then chan.(ended := true)
    else if step == NatsStep.Cancel(c) then chan.(cancelled := true)
    else if step == Wake(c) then chan.(queue := chan.queue[1..])
    else if step.Callback? && step.c == c then
      chan.(inbox := chan.inbox[1..], queue := if step.late then chan.queue else Offer(chan.queue, chan.inbox[0]))
    else if step.Broker? then Delivered(chan, c, c in s.registered, s.wires[step.conn][0])
    else chan
  }

  ghost function LoopAfter(s: Cluster, step: NatsStep, c: nat): Loop
    requires NatsEnabled(s, step) && c < |s.loops|
  {
    var loop := s.loops[c];
    if step == FlushDone(c) || step == Wake(c) then BeginRound(loop, Now(s))
    else if step == TodosQuery(c) then ReadTodos(loop, Now(s), TodosNow(s))
    else if step == EventsQuery(c) then ReadEvents(loop, Now(s), EventsNow(s))
    else if step == WriteSnapshot(c) then Write(loop, Now(s))
    else if step == Exit(c) || step == FlushFailed(c) then loop.(phase := Exited)
    else loop
  }

  function PublisherAfter(s: Cluster, step: NatsStep, p: nat): Publisher
    requires NatsEnabled(s, step) && p < |s.publishers|
  {
    var pub := s.publishers[p];
    if step == Publish(p) then pub.(due := [], flushing := true)
    else if step == PublishFlush(p) then pub.(flushing := false)
    else if step.Commit? && step.p == p then pub.(due := [step.reason])
    else pub
  }

  lemma WireMoves(s: Cluster, step: NatsStep)
    requires NatsEnabled(s, step)
    ensures NatsNext(s, step).wires == WiresAfter(s, step)
  {
    hide BeginRound, ReadTodos, ReadEvents, Write, Offer, FanOut;
  }

  lemma ChanMoves(s: Cluster, step: NatsStep, c: nat)
    requires NatsEnabled(s, step)
    ensures |NatsNext(s, step).chans| == |s.chans| + if step.Open? then 1 else 0
    ensures c < |s.chans| ==> NatsNext(s, step).chans[c] == ChanAfter(s, step, c)
    ensures c == |s.chans| && step.Open? ==> NatsNext(s, step).chans[c] == NewChannel(step.conn)
  {
    if step.Broker? {
      BrokerMovesChan(s, step.conn, c);
    } else if OnChannel(step) {
      OwnMovesChan(s, step, c);
    } else {
      OtherMovesChan(s, step, c);
    }
    hide NatsNext, NatsEnabled, ChanAfter;
  }

  lemma BrokerMovesChan(s: Cluster, conn: nat, c: nat)
    requires NatsEnabled(s, Broker(conn))
    ensures |NatsNext(s, Broker(conn)).chans| == |s.chans|
    ensures c < |s.chans| ==> NatsNext(s, Broker(conn)).chans[c] == ChanAfter(s, Broker(conn), c)
  {
  }

  /** Steps of the client library and of `Subscribe`'s callers on one channel. */
  predicate OnChannel(step: NatsStep)
  {
    || step.Flush? || step.FlushDone? || step.FlushFailed? || step.Callback? || step.Wake?
    || step.Cancel? || step.Unsubscribe?
  }

  lemma OwnMovesChan(s: Cluster, step: NatsStep, c: nat)
    requires NatsEnabled(s, step) && OnChannel(step)
    ensures |NatsNext(s, step).chans| == |s.chans|
    ensures c < |s.chans| ==> NatsNext(s, step).chans[c] == ChanAfter(s, step, c)
  {
    if step.Callback? || step.Wake? || step.Cancel? {
      QueuesMoveChan(s, step, c);
    } else {
      FlagsMoveChan(s, step, c);
    }
    hide NatsNext, NatsEnabled, ChanAfter;
  }

  lemma QueuesMoveChan(s: Cluster, step: NatsStep, c: nat)
    requires NatsEnabled(s, step) && (step.Callback? || step.Wake? || step.Cancel?)
    ensures |NatsNext(s, step).chans| == |s.chans|
    ensures c < |s.chans| ==> NatsNext(s, step).chans[c] == ChanAfter(s, step, c)
  {
    hide BeginRound, Offer;
  }

  lemma FlagsMoveChan(s: Cluster, step: NatsStep, c: nat)
    requires NatsEnabled(s, step) && (step.Flush? || step.FlushDone? || step.FlushFailed? || step.Unsubscribe?)
    ensures |NatsNext(s, step).chans| == |s.chans|
    ensures c < |s.chans| ==> NatsNext(s, step).chans[c] == ChanAfter(s, step, c)
  {
    hide BeginRound;
  }

  lemma OtherMovesChan(s: Cluster, step: NatsStep, c: nat)
    requires NatsEnabled(s, step) && !step.Broker? && !OnChannel(step)
    ensures NatsNext(s, step).chans == s.chans + if step.Open? then [NewChannel(step.conn)] else []
    ensures c < |s.chans| ==> ChanAfter(s, step, c) == s.chans[c]
  {
    hide BeginRound, ReadTodos, ReadEvents, Write, Offer, Handle;
  }

  lemma LoopMoves(s: Cluster, step: NatsStep, c: nat)
    requires NatsEnabled(s, step)
    ensures var t := NatsNext(s, step); t.log != [] && Now(t) == Now(s) + if step.Commit? then 1 else 0
    ensures |NatsNext(s, step).loops| == |s.loops| + if step.Open? then 1 else 0
    ensures c < |s.loops| ==> NatsNext(s, step).loops[c] == LoopAfter(s, step, c)
    ensures c == |s.loops| && step.Open? ==> NatsNext(s, step).loops[c] == NEW_LOOP
  {
    LogMoves(s, step);
    if OnLoop(step) {
      OwnMovesLoop(s, step, c);
    } else {
      OtherMovesLoop(s, step, c);
    }
    hide NatsNext, NatsEnabled, LoopAfter;
  }

  predicate OnLoop(step: NatsStep)
  {
    || step.FlushDone? || step.FlushFailed? || step.Wake? || step.TodosQuery? || step.EventsQuery?
    || step.WriteSnapshot? || step.Exit?
  }

  lemma LogMoves(s: Cluster, step: NatsStep)
    requires NatsEnabled(s, step)
    ensures NatsNext(s, step).log == s.log + if step.Commit? then [step.tables] else []
  {
    hide BeginRound, ReadTodos, ReadEvents, Write, Offer, FanOut;
  }

  lemma OwnMovesLoop(s: Cluster, step: NatsStep, c: nat)
    requires NatsEnabled(s, step) && OnLoop(step)
    ensures |NatsNext(s, step).loops| == |s.loops|
    ensures c < |s.loops| ==> NatsNext(s, step).loops[c] == LoopAfter(s, step, c)
  {
    hide BeginRound, ReadTodos, ReadEvents, Write;
  }

  lemma OtherMovesLoop(s: Cluster, step: NatsStep, c: nat)
    requires NatsEnabled(s, step) && !OnLoop(step)
    ensures NatsNext(s, step).loops == s.loops + if step.Open? then [NEW_LOOP] else []
    ensures c < |s.loops| ==> LoopAfter(s, step, c) == s.loops[c]
  {
    hide BeginRound, ReadTodos, ReadEvents, Write, Offer, FanOut;
  }

  lemma PublisherMoves(s: Cluster, step: NatsStep, p: nat)
    requires NatsEnabled(s, step)
    ensures |NatsNext(s, step).publishers| == |s.publishers| + if step.NewPublisher? then 1 else 0
    ensures p < |s.publishers| ==> NatsNext(s, step).publishers[p] == PublisherAfter(s, step, p)
    ensures p == |s.publishers| && step.NewPublisher? ==>
              NatsNext(s, step).publishers[p] == Publisher(step.conn, [], false)
  {
    hide BeginRound, ReadTodos, ReadEvents, Write, Offer, FanOut;
  }

  lemma RegisteredMoves(s: Cluster, step: NatsStep, c: nat)
    requires NatsEnabled(s, step)
    ensures c in NatsNext(s, step).registered <==>
              || (c in s.registered && !(step.Broker? && s.wires[step.conn][0] == UnsubWire(c)))
              || (step.Broker? && s.wires[step.conn][0] == SubWire(c))
  {
  }

  // ---- The invariant -------------------------------------------------------------------

  predicate Live(s: Cluster, c: nat)
  {
    Has(s, c) && !s.loops[c].phase.Exited? && !s.chans[c].cancelled
  }

  /** SUB is still on its way, and no answer to the flush can come before it is handled. */
  ghost predicate SubAhead(wire: seq<Wire>, c: nat)
  {
    exists i :: 0 <= i < |wire| && wire[i] == SubWire(c) && forall j :: 0 <= j < i ==> wire[j] != PingWire(c)
  }

  ghost predicate PubOnWire(s: Cluster, conn: nat)
  {
    conn < |s.wires| && exists i :: 0 <= i < |s.wires[conn]| && s.wires[conn][i].PubWire?
  }

  /** A wake-up exists somewhere between a commit and the stream's channel. */
  ghost predicate WakeUpComing(s: Cluster, c: nat)
    requires Has(s, c)
  {
    || s.chans[c].queue != [] || s.chans[c].inbox != []
    || (exists p :: 0 <= p < |s.publishers| && s.publishers[p].due != [])
    || (exists conn: nat :: PubOnWire(s, conn))
  }

  /** How far a subscription is, and what the loop of its stream may be doing then. */
  predicate FlagsOk(chan: Channel, phase: LoopPhase)
  {
    && |chan.queue| <= CAPACITY
    && (chan.ready ==> chan.ponged) && (chan.ponged ==> chan.pinged)
    && (!chan.ready ==> phase.Subscribing? || phase.Exited?)
    && (phase.Subscribing? ==> !chan.ready && !chan.ended)
    && (chan.ended ==> chan.cancelled || phase.Exited?)
  }

  /** The flush is answered only once the broker has the subscription, and it will be answered. */
  ghost predicate RegistrationOk(s: Cluster, c: nat)
    requires Has(s, c)
  {
    var chan := s.chans[c];
    && (c !in s.registered && !chan.ended ==> !chan.ponged && SubAhead(s.wires[chan.conn], c))
    && (chan.pinged && !chan.ponged ==> PingWire(c) in s.wires[chan.conn])
  }

  ghost predicate StreamOk(s: Cluster, c: nat)
    requires s.log != []
  {
    && Has(s, c) && LoopOk(s.loops[c], Now(s)) && ReadsOk(s.loops[c], s.log)
    && FlagsOk(s.chans[c], s.loops[c].phase) && RegistrationOk(s, c)
  }

  /** UNSUB and PING are only ever sent for what they belong to. */
  ghost predicate WiresOk(s: Cluster)
  {
    && (forall conn, i :: 0 <= conn < |s.wires| && 0 <= i < |s.wires[conn]| ==> WireOk(s, conn, s.wires[conn][i]))
    && (forall p :: 0 <= p < |s.publishers| ==> s.publishers[p].conn < |s.wires|)
    && (forall c :: c in s.registered ==> c < |s.chans|)
  }

  ghost predicate WireOk(s: Cluster, conn: nat, w: Wire)
  {
    match w
    case SubWire(c) => c < |s.chans|
    case PingWire(c) => c < |s.chans| && s.chans[c].conn == conn && s.chans[c].pinged
    case UnsubWire(c) => c < |s.chans| && s.chans[c].ended
    case PubWire(_) => true
    case PubPingWire => true
  }

  ghost predicate NeverForgotten(s: Cluster, c: nat)
    requires Has(s, c) && s.log != []
  {
    Live(s, c) && !Fresh(s.loops[c], Now(s)) ==> WakeUpComing(s, c)
  }

  ghost predicate NatsInv(s: Cluster)
  {
    && s.log != [] && |s.chans| == |s.loops| && WiresOk(s)
    && (forall c :: 0 <= c < |s.chans| ==> StreamOk(s, c) && NeverForgotten(s, c))
  }

  /**
   Because `Subscribe` waits for its flush, a stream that reads its initial snapshot is
   already registered with the broker, and stays so until it unsubscribes.
   */
  lemma RegisteredBeforeSnapshot(s: Cluster, c: nat)
    requires NatsInv(s) && Live(s, c) && !s.loops[c].phase.Subscribing?
    ensures c in s.registered
  {
    assert StreamOk(s, c);
  }

  lemma WireGrows(wire: seq<Wire>, w: Wire, c: nat)
    requires SubAhead(wire, c)
    ensures SubAhead(wire + [w], c)
  {
    var i :| 0 <= i < |wire| && wire[i] == SubWire(c) && forall j :: 0 <= j < i ==> wire[j] != PingWire(c);
    assert (wire + [w])[i] == SubWire(c);
  }

  lemma WireShrinks(wire: seq<Wire>, c: nat)
    requires SubAhead(wire, c) && wire != []
    ensures wire[0] != PingWire(c) && (wire[0] == SubWire(c) || SubAhead(wire[1..], c))
  {
  }

  // ---- Messages ------------------------------------------------------------------------

  lemma ConnsStay(s: Cluster, step: NatsStep, c: nat)
    requires NatsEnabled(s, step) && c < |s.chans|
    ensures c < |NatsNext(s, step).chans| && NatsNext(s, step).chans[c].conn == s.chans[c].conn
    ensures s.chans[c].ended ==> NatsNext(s, step).chans[c].ended
    ensures s.chans[c].pinged ==> NatsNext(s, step).chans[c].pinged
  {
    ChanMoves(s, step, c);
    hide NatsNext, NatsEnabled;
  }

  lemma MessageStaysOk(s: Cluster, step: NatsStep, conn: nat, w: Wire)
    requires NatsEnabled(s, step) && WireOk(s, conn, w)
    ensures WireOk(NatsNext(s, step), conn, w)
  {
    hide NatsNext, NatsEnabled;
    match w
    case SubWire(c) => ConnsStay(s, step, c);
    case PingWire(c) => ConnsStay(s, step, c);
    case UnsubWire(c) => ConnsStay(s, step, c);
    case _ =>
  }

  lemma NewMessageOk(s: Cluster, step: NatsStep)
    requires NatsEnabled(s, step) && Sent(s, step).Some?
    ensures WireOk(NatsNext(s, step), Sent(s, step).value.0, Sent(s, step).value.1)
  {
  }

  lemma StepKeepsMessages(s: Cluster, step: NatsStep, conn: nat, i: nat)
    requires WiresOk(s) && NatsEnabled(s, step)
    requires conn < |WiresAfter(s, step)| && i < |WiresAfter(s, step)[conn]|
    ensures WireOk(NatsNext(s, step), conn, WiresAfter(s, step)[conn][i])
  {
    hide NatsNext, WireOk;
    var w := WiresAfter(s, step)[conn][i];
    if step == Broker(conn) {
      assert w == s.wires[conn][i + 1];
      MessageStaysOk(s, step, conn, w);
    } else if conn < |s.wires| && i < |s.wires[conn]| {
      assert w == s.wires[conn][i];
      MessageStaysOk(s, step, conn, w);
    } else {
      NewMessageOk(s, step);
    }
  }

  lemma StepKeepsWires(s: Cluster, step: NatsStep)
    requires WiresOk(s) && NatsEnabled(s, step)
    ensures WiresOk(NatsNext(s, step))
  {
    var t := NatsNext(s, step);
    hide NatsNext, WireOk;
    WireMoves(s, step);
    forall conn, i | 0 <= conn < |t.wires| && 0 <= i < |t.wires[conn]| ensures WireOk(t, conn, t.wires[conn][i]) {
      StepKeepsMessages(s, step, conn, i);
    }
    forall p | 0 <= p < |t.publishers| ensures t.publishers[p].conn < |t.wires| {
      PublisherMoves(s, step, p);
    }
    forall c | c in t.registered ensures c < |t.chans| {
      RegisteredMoves(s, step, c);
      ChanMoves(s, step, c);
      if c !in s.registered {
        assert WireOk(s, step.conn, s.wires[step.conn][0]);
        SubscribedExists(s, step.conn, c);
      }
    }
  }

  lemma SubscribedExists(s: Cluster, conn: nat, c: nat)
    requires WireOk(s, conn, SubWire(c))
    ensures c < |s.chans|
  {
  }

  // ---- Registration --------------------------------------------------------------------

  /** What a step does to the connection of one subscription. */
  lemma OwnWire(s: Cluster, step: NatsStep, conn: nat)
    requires NatsEnabled(s, step) && conn < |s.wires|
    ensures var t := NatsNext(s, step);
            && conn < |t.wires|
            && (|| t.wires[conn] == s.wires[conn]
                || (step == Broker(conn) && t.wires[conn] == s.wires[conn][1..])
                || (exists w :: !step.Broker? && t.wires[conn] == s.wires[conn] + [w]))
            && (step == Broker(conn) ==> t.wires[conn] == s.wires[conn][1..])
  {
    WireMoves(s, step);
    hide NatsNext;
  }

  lemma StepKeepsSub(s: Cluster, step: NatsStep, c: nat)
    requires s.log != [] && WiresOk(s) && Has(s, c) && RegistrationOk(s, c) && NatsEnabled(s, step)
    ensures Has(NatsNext(s, step), c)
    ensures var t := NatsNext(s, step);
            c !in t.registered && !t.chans[c].ended ==> !t.chans[c].ponged && SubAhead(t.wires[t.chans[c].conn], c)
  {
    var t, conn := NatsNext(s, step), s.chans[c].conn;
    ConnsStay(s, step, c);
    OwnWire(s, step, conn);
    LoopMoves(s, step, c);
    RegisteredMoves(s, step, c);
    ChanMoves(s, step, c);
    if step.Broker? {
      assert WireOk(s, step.conn, s.wires[step.conn][0]);
    }
    hide NatsNext, NatsEnabled, WiresOk, SubAhead;
    if c !in t.registered && !t.chans[c].ended {
      assert c !in s.registered && !s.chans[c].ended;
      if step == Broker(conn) {
        WireShrinks(s.wires[conn], c);
      } else if w :| t.wires[conn] == s.wires[conn] + [w] {
        WireGrows(s.wires[conn], w, c);
      }
    }
  }

  /** A flush that is unanswered after a step has just been written, or is still unanswered. */
  lemma StillUnanswered(s: Cluster, step: NatsStep, c: nat)
    requires NatsEnabled(s, step) && c < |s.chans|
    requires ChanAfter(s, step, c).pinged && !ChanAfter(s, step, c).ponged
    ensures step != Flush(c) ==> s.chans[c].pinged && !s.chans[c].ponged
    ensures step.Broker? ==> s.wires[step.conn][0] != PingWire(c)
  {
  }

  lemma StepKeepsPing(s: Cluster, step: NatsStep, c: nat)
    requires s.log != [] && Has(s, c) && RegistrationOk(s, c) && NatsEnabled(s, step) && Has(NatsNext(s, step), c)
    ensures var t := NatsNext(s, step);
            t.chans[c].pinged && !t.chans[c].ponged ==> PingWire(c) in t.wires[t.chans[c].conn]
  {
    var t, conn := NatsNext(s, step), s.chans[c].conn;
    WireMoves(s, step);
    ChanMoves(s, step, c);
    ConnsStay(s, step, c);
    hide NatsNext, NatsEnabled, SubAhead, ChanAfter;
    if t.chans[c].pinged && !t.chans[c].ponged {
      StillUnanswered(s, step, c);
      if step == Flush(c) {
        assert t.wires[conn][|s.wires[conn]|] == PingWire(c);
      } else {
        var i :| 0 <= i < |s.wires[conn]| && s.wires[conn][i] == PingWire(c);
        if step == Broker(conn) {
          assert i > 0 && t.wires[conn][i - 1] == PingWire(c);
        } else {
          assert t.wires[conn][i] == PingWire(c);
        }
      }
    }
  }

  // ---- Streams -------------------------------------------------------------------------

  lemma BrokerKeepsFlags(s: Cluster, conn: nat, c: nat)
    requires s.log != [] && StreamOk(s, c) && NatsEnabled(s, Broker(conn)) && WireOk(s, conn, s.wires[conn][0])
    ensures FlagsOk(ChanAfter(s, Broker(conn), c), LoopAfter(s, Broker(conn), c).phase)
  {
    hide RegistrationOk, LoopOk;
  }

  lemma OthersKeepFlags(s: Cluster, step: NatsStep, c: nat)
    requires NatsEnabled(s, step) && !step.Broker? && Has(s, c) && FlagsOk(s.chans[c], s.loops[c].phase)
    ensures FlagsOk(ChanAfter(s, step, c), LoopAfter(s, step, c).phase)
  {
    hide NatsEnabled, ChanAfter, LoopAfter, FlagsOk;
    if OnLoop(step) {
      OwnKeepFlags(s, step, c);
    } else {
      RestKeepFlags(s, step, c);
    }
  }

  lemma OwnKeepFlags(s: Cluster, step: NatsStep, c: nat)
    requires NatsEnabled(s, step) && OnLoop(step) && Has(s, c) && FlagsOk(s.chans[c], s.loops[c].phase)
    ensures FlagsOk(ChanAfter(s, step, c), LoopAfter(s, step, c).phase)
  {
  }

  lemma RestKeepFlags(s: Cluster, step: NatsStep, c: nat)
    requires NatsEnabled(s, step) && !step.Broker? && !OnLoop(step) && Has(s, c)
    requires FlagsOk(s.chans[c], s.loops[c].phase)
    ensures FlagsOk(ChanAfter(s, step, c), LoopAfter(s, step, c).phase)
  {
  }

  lemma StepKeepsFlags(s: Cluster, step: NatsStep, c: nat)
    requires s.log != [] && StreamOk(s, c) && NatsEnabled(s, step)
    requires step.Broker? ==> WireOk(s, step.conn, s.wires[step.conn][0])
    ensures FlagsOk(ChanAfter(s, step, c), LoopAfter(s, step, c).phase)
  {
    hide NatsEnabled, ChanAfter, LoopAfter, FlagsOk, RegistrationOk, LoopOk;
    if step.Broker? {
      BrokerKeepsFlags(s, step.conn, c);
    } else {
      OthersKeepFlags(s, step, c);
    }
  }

  lemma StepKeepsLoop(s: Cluster, step: NatsStep, c: nat)
    requires s.log != [] && StreamOk(s, c) && NatsEnabled(s, step)
    ensures LoopOk(LoopAfter(s, step, c), Now(s) + if step.Commit? then 1 else 0)
  {
    hide RegistrationOk, LoopOk, FlagsOk;
    LoopStepsKeepOk(s.loops[c], Now(s), TodosNow(s), EventsNow(s));
    LoopStepsKeepOk(LoopAfter(s, step, c), Now(s), TodosNow(s), EventsNow(s));
  }

  lemma KeepsReads(s: Cluster, step: NatsStep, c: nat)
    requires NatsEnabled(s, step) && c < |s.loops| && ReadsOk(s.loops[c], s.log)
    ensures ReadsOk(LoopAfter(s, step, c), NatsNext(s, step).log)
  {
    LogMoves(s, step);
    var tables := if step.Commit? then step.tables else s.log[0];
    LoopStepsKeepReads(s.loops[c], s.log, tables, Now(s));
    assert s.log + [] == s.log;
    if !OnLoop(step) {
      OtherMovesLoop(s, step, c);
      hide NatsNext, NatsEnabled, LoopAfter, ReadsOk, T.ListEvents;
    } else {
      hide NatsNext, ReadsOk, BeginRound, ReadTodos, ReadEvents, Write, T.ListEvents;
    }
  }

  lemma StepKeepsStream(s: Cluster, step: NatsStep, c: nat)
    requires s.log != [] && WiresOk(s) && StreamOk(s, c) && NatsEnabled(s, step)
    ensures StreamOk(NatsNext(s, step), c)
  {
    assert step.Broker? ==> WireOk(s, step.conn, s.wires[step.conn][0]);
    hide NatsNext, NatsEnabled, WiresOk, WireOk, LoopOk, ReadsOk, FlagsOk, SubAhead, ChanAfter, LoopAfter;
    StepKeepsSub(s, step, c);
    StepKeepsPing(s, step, c);
    StepKeepsFlags(s, step, c);
    StepKeepsLoop(s, step, c);
    KeepsReads(s, step, c);
    ChanMoves(s, step, c);
    LoopMoves(s, step, c);
  }

  /** A stream is live from its opening until its flush fails, its handler exits or its context ends. */
  lemma LiveUntilEnded(s: Cluster, step: NatsStep, c: nat)
    requires NatsEnabled(s, step) && |s.loops| == |s.chans|
    requires if step.Open? then Live(s, c) || c == |s.loops| else Live(s, c)
    requires step != FlushFailed(c) && step != Exit(c) && step != NatsStep.Cancel(c)
    ensures Live(NatsNext(s, step), c)
  {
    ChanMoves(s, step, c);
    LoopMoves(s, step, c);
    WireMoves(s, step);
    hide NatsNext;
  }

  lemma NewStreamOk(s: Cluster, conn: nat)
    requires s.log != [] && |s.chans| == |s.loops| && WiresOk(s) && NatsEnabled(s, Open(conn))
    ensures StreamOk(NatsNext(s, Open(conn)), |s.chans|)
  {
    var c, t := |s.chans|, NatsNext(s, Open(conn));
    ChanMoves(s, Open(conn), c);
    LoopMoves(s, Open(conn), c);
    WireMoves(s, Open(conn));
    RegisteredMoves(s, Open(conn), c);
    hide NatsNext;
    forall j | 0 <= j < |s.wires[conn]| ensures t.wires[conn][j] != PingWire(c) {
      assert WireOk(s, conn, s.wires[conn][j]);
    }
    assert t.wires[conn][|s.wires[conn]|] == SubWire(c);
  }

  // ---- Wake-ups ------------------------------------------------------------------------

  lemma DueSurvives(s: Cluster, step: NatsStep, p: nat)
    requires NatsEnabled(s, step) && p < |s.publishers| && s.publishers[p].due != []
    ensures var t := NatsNext(s, step);
            p < |t.publishers| && (t.publishers[p].due != [] || PubOnWire(t, s.publishers[p].conn))
  {
    PublisherMoves(s, step, p);
    WireMoves(s, step);
    var t := NatsNext(s, step);
    if step == Publish(p) {
      var conn := s.publishers[p].conn;
      assert t.wires[conn][|s.wires[conn]|] == PubWire(s.publishers[p].due[0]);
    }
    hide NatsNext;
  }

  lemma PublicationSurvives(s: Cluster, step: NatsStep, c: nat, conn: nat)
    requires NatsEnabled(s, step) && c < |s.chans| && c in s.registered && PubOnWire(s, conn)
    ensures c < |NatsNext(s, step).chans|
    ensures PubOnWire(NatsNext(s, step), conn) || NatsNext(s, step).chans[c].inbox != []
  {
    var t := NatsNext(s, step);
    WireMoves(s, step);
    ChanMoves(s, step, c);
    hide NatsNext;
    var i :| 0 <= i < |s.wires[conn]| && s.wires[conn][i].PubWire?;
    if step == Broker(conn) {
      if i > 0 {
        assert t.wires[conn][i - 1] == s.wires[conn][i];
      }
    } else {
      assert t.wires[conn][i] == s.wires[conn][i];
    }
  }

  /** A message in the inbox of a stream reaches its channel, or is dropped because that is full. */
  lemma InboxSurvives(s: Cluster, step: NatsStep, c: nat)
    requires NatsEnabled(s, step) && c < |s.chans| && step != Wake(c) && !s.chans[c].ended
    requires s.chans[c].queue != [] || s.chans[c].inbox != []
    ensures c < |NatsNext(s, step).chans|
    ensures NatsNext(s, step).chans[c].queue != [] || NatsNext(s, step).chans[c].inbox != []
  {
    ChanMoves(s, step, c);
    hide NatsNext;
  }

  /** No step but taking the wake-up from the channel loses the last one. */
  lemma WakeUpSurvives(s: Cluster, step: NatsStep, c: nat)
    requires NatsInv(s) && NatsEnabled(s, step) && Live(s, c) && !s.loops[c].phase.Subscribing?
    requires WakeUpComing(s, c) && step != Wake(c)
    requires Has(NatsNext(s, step), c)
    ensures WakeUpComing(NatsNext(s, step), c)
  {
    assert StreamOk(s, c);
    RegisteredBeforeSnapshot(s, c);
    hide NatsNext, NatsEnabled, NatsInv, LoopOk, RegistrationOk, PubOnWire;
    if s.chans[c].queue != [] || s.chans[c].inbox != [] {
      InboxSurvives(s, step, c);
    } else if p :| 0 <= p < |s.publishers| && s.publishers[p].due != [] {
      DueSurvives(s, step, p);
    } else {
      var conn: nat :| PubOnWire(s, conn);
      PublicationSurvives(s, step, c, conn);
    }
  }

  lemma CommitIsDue(s: Cluster, step: NatsStep, c: nat)
    requires NatsEnabled(s, step) && step.Commit? && Has(NatsNext(s, step), c)
    ensures WakeUpComing(NatsNext(s, step), c)
  {
    PublisherMoves(s, step, step.p);
    hide NatsNext;
    assert NatsNext(s, step).publishers[step.p].due != [];
  }

  /** A stream that was up to date stays so, and the round of a wake-up will be. */
  lemma StaysFresh(s: Cluster, step: NatsStep, c: nat)
    requires NatsEnabled(s, step) && !step.Commit? && c < |s.loops| && LoopOk(s.loops[c], Now(s))
    requires Fresh(s.loops[c], Now(s)) || step == Wake(c)
    ensures Fresh(LoopAfter(s, step, c), Now(s))
  {
    hide LoopOk, Fresh;
    FreshPhases(s.loops[c], Now(s));
    RoundStaysFresh(s.loops[c], Now(s), TodosNow(s), EventsNow(s));
  }

  lemma FreshPhases(loop: Loop, now: nat)
    ensures Fresh(loop.(phase := Exited), now)
  {
  }

  lemma LivedBefore(s: Cluster, step: NatsStep, c: nat)
    requires NatsEnabled(s, step) && Has(s, c) && Live(NatsNext(s, step), c)
    ensures Live(s, c)
  {
    ChanMoves(s, step, c);
    LoopMoves(s, step, c);
    hide NatsNext, BeginRound, ReadTodos, ReadEvents, Write, Offer;
  }

  lemma StepForgetsNothing(s: Cluster, step: NatsStep, c: nat)
    requires NatsInv(s) && NatsEnabled(s, step) && c < |s.chans|
    requires Has(NatsNext(s, step), c)
    ensures NatsNext(s, step).log != [] && NeverForgotten(NatsNext(s, step), c)
  {
    var t := NatsNext(s, step);
    assert StreamOk(s, c) && NeverForgotten(s, c);
    LoopMoves(s, step, c);
    hide NatsNext, NatsEnabled, NatsInv, WakeUpComing, LoopOk, RegistrationOk, FlagsOk, LoopAfter;
    if step.Commit? {
      CommitIsDue(s, step, c);
    } else if Live(t, c) && !Fresh(t.loops[c], Now(t)) {
      LivedBefore(s, step, c);
      if Fresh(s.loops[c], Now(s)) || step == Wake(c) {
        StaysFresh(s, step, c);
      } else {
        WakeUpSurvives(s, step, c);
      }
    }
  }

  lemma NatsStepKeepsInv(s: Cluster, step: NatsStep)
    requires NatsInv(s) && NatsEnabled(s, step)
    ensures NatsInv(NatsNext(s, step))
  {
    var t := NatsNext(s, step);
    StepKeepsWires(s, step);
    LoopMoves(s, step, 0);
    ChanMoves(s, step, 0);
    hide NatsNext, NatsEnabled, WiresOk, StreamOk, NeverForgotten;
    forall c | 0 <= c < |t.chans| ensures StreamOk(t, c) && Has(t, c) && NeverForgotten(t, c) {
      if c < |s.chans| {
        StepKeepsStream(s, step, c);
        StreamHas(t, c);
        StepForgetsNothing(s, step, c);
      } else {
        NewStreamOk(s, step.conn);
        StreamHas(t, c);
        NewStreamFresh(s, step.conn);
      }
    }
  }

  lemma StreamHas(s: Cluster, c: nat)
    requires s.log != [] && StreamOk(s, c)
    ensures Has(s, c)
  {
  }

  lemma NewStreamFresh(s: Cluster, conn: nat)
    requires s.log != [] && |s.chans| == |s.loops| && NatsEnabled(s, Open(conn))
    requires Has(NatsNext(s, Open(conn)), |s.chans|)
    ensures NatsNext(s, Open(conn)).log != [] && NeverForgotten(NatsNext(s, Open(conn)), |s.chans|)
  {
  }

  // ---- Runs ----------------------------------------------------------------------------

  ghost predicate NatsValid(s: Cluster, steps: seq<NatsStep>)
    decreases |steps|
  {
    steps != [] ==> NatsEnabled(s, steps[0]) && NatsValid(NatsNext(s, steps[0]), steps[1..])
  }

  ghost function NatsRun(s: Cluster, steps: seq<NatsStep>): Cluster
    requires NatsValid(s, steps)
    decreases |steps|
  {
    if steps == [] then s else NatsRun(NatsNext(s, steps[0]), steps[1..])
  }

  lemma StartInv(start: Cluster)
    requires Start(start)
    ensures NatsInv(start)
  {
  }

  lemma {:induction false} NatsRunKeepsInv(s: Cluster, steps: seq<NatsStep>)
    requires NatsInv(s) && NatsValid(s, steps)
    ensures NatsInv(NatsRun(s, steps))
    decreases |steps|
  {
    if steps != [] {
      NatsStepKeepsInv(s, steps[0]);
      NatsRunKeepsInv(NatsNext(s, steps[0]), steps[1..]);
    }
  }

  /**
   Across all processes: in every reachable state in which no publication is due, on a wire,
   in the stream's inbox or in its channel, an idle live stream shows the todos and the ten newest
   events as the last commit of any process left them.
   */
  lemma ConvergenceAcrossProcesses(start: Cluster, steps: seq<NatsStep>, c: nat)
    requires Start(start) && NatsValid(start, steps)
    requires var s := NatsRun(start, steps);
             && Live(s, c) && s.loops[c].phase.Idle? && !WakeUpComing(s, c)
    ensures var s := NatsRun(start, steps);
            && s.log != [] && s.loops[c].shown != []
            && var last := s.loops[c].shown[|s.loops[c].shown| - 1];
               last.content == ContentOf(s.log[|s.log| - 1])
  {
    NatsRunKeepsInv(start, steps);
    var s := NatsRun(start, steps);
    assert StreamOk(s, c) && NeverForgotten(s, c);
  }
}
