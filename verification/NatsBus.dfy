/**
 `NATSBus` of one process as the code has it (internal/realtime/nats.go): what it writes to
 its connection and what the callback does to a channel. The lemmas below show that the steps
 of module NatsUpdate, where the broker and other processes come in between, do the same.
 */
module NatsBus {
  import opened Options
  import opened Bus
  import opened NatsUpdate

  // ---- What the operations write -------------------------------------------------------

  function Published(wire: seq<Wire>, data: string): seq<Wire> { wire + [PubWire(data), PubPingWire] }

  function Subscribed(wire: seq<Wire>, c: nat): seq<Wire> { wire + [SubWire(c), PingWire(c)] }

  function Unsubscribed(wire: seq<Wire>, c: nat): seq<Wire> { wire + [UnsubWire(c)] }

  /**
   The `select` of the callback: the event is offered to the channel; once `done` is closed,
   the select may also pick that case and drop it.
   */
  predicate CallbackMay(before: seq<string>, data: string, done: bool, after: seq<string>)
  {
    after == Offer(before, data) || (done && after == before)
  }

  /**
   `wire` is all that was ever written to the connection and `handled` how many of these
   messages the broker has handled. `faults` says of each coming connection call whether it
   fails; past its end none does.
   */
  class NatsBus {
    var wire: seq<Wire>
    var handled: nat
    var faults: seq<bool>
    var subscriptions: nat

    ghost predicate Valid()
      reads this
    {
      handled <= |wire|
    }

    /** The broker has answered every PING and knows every subscription. */
    ghost predicate AllHandled()
      reads this
    {
      handled == |wire|
    }

    constructor (faults: seq<bool>)
      ensures Valid() && wire == [] && this.faults == faults && subscriptions == 0
    {
      wire, handled, this.faults, subscriptions := [], 0, faults, 0;
    }

    method Fails() returns (failed: bool)
      modifies this`faults
      ensures failed == (old(faults) != [] && old(faults)[0])
      ensures faults == if old(faults) == [] then [] else old(faults)[1..]
    {
      failed := faults != [] && faults[0];
      if faults != [] {
        faults := faults[1..];
      }
    }

    /**
     `FlushWithContext`: writes a PING and waits for the answer, which comes once the broker
     has handled everything before it. `reach` is how far the broker gets before the deadline.
     */
    method Flush(ping: Wire, reach: nat) returns (ok: bool)
      requires Valid()
      modifies this`wire, this`faults, this`handled
      ensures Valid() && handled >= old(handled)
      ensures ok ==> wire == old(wire) + [ping] && AllHandled()
      ensures !ok ==> wire == old(wire) || (wire == old(wire) + [ping] && !AllHandled())
      ensures old(faults) == [] ==> faults == [] && wire == old(wire) + [ping] && (reach >= |wire| ==> ok)
    {
      var failed := Fails();
      if failed { return false; }
      wire := wire + [ping];
      if handled < reach {
        handled := if reach < |wire| then reach else |wire|;
      }
      ok := handled == |wire|;
    }

    /** Success means that the broker has handled the publication. */
    method Publish(data: string, reach: nat) returns (ok: bool)
      requires Valid()
      modifies this`wire, this`faults, this`handled
      ensures Valid()
      ensures ok ==> wire == Published(old(wire), data) && AllHandled()
      ensures !ok ==>
                || wire == old(wire) || wire == old(wire) + [PubWire(data)]
                || (wire == Published(old(wire), data) && !AllHandled())
      ensures old(faults) == [] && reach >= |old(wire)| + 2 ==> ok
    {
      var failed := Fails();
      if failed { return false; }
      wire := wire + [PubWire(data)];
      ok := Flush(PubPingWire, reach);
      assert old(wire) + [PubWire(data)] + [PubPingWire] == Published(old(wire), data);
    }

    /**
     The subscription is returned, with its watcher, only after its flush was answered, so the
     broker has it by then.
     */
    method Subscribe(reach: nat) returns (sub: Option<(Subscription, Watcher)>)
      requires Valid()
      modifies this
      ensures Valid()
      ensures var c := old(subscriptions);
              && (sub.Some? ==>
                    && var (s, watcher) := sub.value;
                    && fresh(s) && s.bus == this && s.id == c && !s.once && !s.done && s.channel == []
                    && fresh(watcher) && watcher.sub == s && !watcher.exited
                    && wire == Subscribed(old(wire), c) && AllHandled())
              && (sub.None? ==>
                    || wire == old(wire)
                    || wire == Unsubscribed(old(wire) + [SubWire(c)], c)
                    || wire == Unsubscribed(Subscribed(old(wire), c), c))
      ensures subscriptions == old(subscriptions) + 1
      ensures old(faults) == [] && reach >= |old(wire)| + 2 ==> sub.Some?
    {
      var c := subscriptions;
      subscriptions := subscriptions + 1;
      var s := new Subscription(this, c);
      var failed := Fails();
      if failed { return None; }
      wire := wire + [SubWire(c)];
      var ok := Flush(PingWire(c), reach);
      assert old(wire) + [SubWire(c)] + [PingWire(c)] == Subscribed(old(wire), c);
      if !ok {
        s.Unsubscribe();
        return None;
      }
      var watcher := new Watcher(s);
      return Some((s, watcher));
    }
  }

  /** A subscription with its `sync.Once`, its `done` channel and its buffered channel. */
  class Subscription {
    const bus: NatsBus
    const id: nat
    var once: bool
    var done: bool
    var channel: seq<string>

    constructor (bus: NatsBus, id: nat)
      ensures this.bus == bus && this.id == id && !once && !done && channel == []
    {
      this.bus, this.id, once, done, channel := bus, id, false, false, [];
    }

    /** `pickDone` is the choice of the `select` when both of its cases are ready. */
    method Callback(data: string, pickDone: bool)
      modifies this`channel
      ensures CallbackMay(old(channel), data, done, channel)
      ensures !(done && pickDone) ==> channel == Offer(old(channel), data)
      ensures |old(channel)| <= CAPACITY ==> |channel| <= CAPACITY
    {
      if done && pickDone { return; }
      if |channel| < CAPACITY {
        channel := channel + [data];
      }
    }

    method Unsubscribe()
      modifies this`once, this`done, bus`wire
      ensures once && done == (old(done) || !old(once))
      ensures bus.wire == if old(once) then old(bus.wire) else Unsubscribed(old(bus.wire), id)
    {
      if !once {
        once, done := true, true;
        bus.wire := bus.wire + [UnsubWire(id)];
      }
    }
  }

  /** The goroutine that ends a subscription with its context, or ends when that is done. */
  class Watcher {
    const sub: Subscription
    var exited: bool

    constructor (sub: Subscription)
      ensures this.sub == sub && !exited
    {
      this.sub := sub;
      exited := false;
    }

    /** Its `select`, once a case is ready; with both ready it may take either. */
    method Run(ended: bool, pickDone: bool)
      requires (ended || sub.done) && (sub.done ==> sub.once)
      modifies this, sub`once, sub`done, sub.bus`wire
      ensures exited && sub.once && sub.done == (old(sub.done) || !old(sub.once))
      ensures sub.bus.wire == if old(sub.once) then old(sub.bus.wire) else Unsubscribed(old(sub.bus.wire), sub.id)
    {
      exited := true;
      if sub.done && (pickDone || !ended) { return; }
      sub.Unsubscribe();
    }
  }

  // ---- The steps of NatsUpdate do the same ---------------------------------------------

  /** Nothing else moves: no other connection, channel, stream or publisher, and no commit. */
  ghost predicate OnlyWire(s: Cluster, t: Cluster, conn: nat, wire: seq<Wire>)
    requires conn < |s.wires|
  {
    t.wires == s.wires[conn := wire] && t.registered == s.registered && t.log == s.log
  }

  /** A publisher whose mutation has committed writes what `Publish` writes, and is done. */
  lemma PublishSection(s: Cluster, p: nat)
    requires NatsEnabled(s, Publish(p))
    ensures var pub, a := s.publishers[p], NatsNext(s, Publish(p));
            && NatsEnabled(a, PublishFlush(p))
            && var t := NatsNext(a, PublishFlush(p));
            && OnlyWire(s, t, pub.conn, Published(s.wires[pub.conn], pub.due[0]))
            && t.chans == s.chans && t.loops == s.loops
            && t.publishers == s.publishers[p := pub.(due := [], flushing := false)]
  {
    var pub := s.publishers[p];
    var wire := s.wires[pub.conn];
    assert wire + [PubWire(pub.due[0])] + [PubPingWire] == Published(wire, pub.due[0]);
  }

  /** A new stream writes what `Subscribe` writes, on an empty channel of its own. */
  lemma SubscribeSection(s: Cluster, conn: nat)
    requires |s.chans| == |s.loops| && NatsEnabled(s, Open(conn))
    ensures var c, a := |s.chans|, NatsNext(s, Open(conn));
            && NatsEnabled(a, Flush(c))
            && var t := NatsNext(a, Flush(c));
            && OnlyWire(s, t, conn, Subscribed(s.wires[conn], c))
            && t.chans == s.chans + [NewChannel(conn).(pinged := true)]
            && |t.loops| == |s.loops| + 1 && t.publishers == s.publishers
  {
    var wire, c := s.wires[conn], |s.chans|;
    assert wire + [SubWire(c)] + [PingWire(c)] == Subscribed(wire, c);
  }

  /**
   `Subscribe` returns its channel only after the broker has handled its SUB and its PING;
   until then the PING, or the SUB and the PING, are still on the connection.
   */
  lemma SubscribeReturns(s: Cluster, c: nat)
    requires NatsInv(s) && Has(s, c) && s.loops[c].phase.Subscribing? && s.chans[c].pinged
    ensures NatsEnabled(s, FlushDone(c)) ==> c in s.registered
    ensures NatsEnabled(s, FlushDone(c)) <==> s.chans[c].ponged
    ensures !NatsEnabled(s, FlushDone(c)) ==> PingWire(c) in s.wires[s.chans[c].conn]
    ensures c !in s.registered ==> SubWire(c) in s.wires[s.chans[c].conn]
  {
    assert StreamOk(s, c);
  }

  /** A callback step does to the channel what `Callback` may do, and can do all of that. */
  lemma CallbackSteps(s: Cluster, c: nat, after: seq<string>)
    requires s.log != [] && Has(s, c) && s.chans[c].inbox != []
    ensures (exists late ::
               && NatsEnabled(s, NatsStep.Callback(c, late))
               && NatsNext(s, NatsStep.Callback(c, late)).chans[c].queue == after)
            <==> CallbackMay(s.chans[c].queue, s.chans[c].inbox[0], s.chans[c].ended, after)
    ensures forall late :: NatsEnabled(s, NatsStep.Callback(c, late)) ==>
              var t := NatsNext(s, NatsStep.Callback(c, late));
              t == s.(chans := s.chans[c := s.chans[c].(inbox := s.chans[c].inbox[1..], queue := t.chans[c].queue)])
  {
    var chan := s.chans[c];
    assert NatsEnabled(s, NatsStep.Callback(c, false));
    assert NatsNext(s, NatsStep.Callback(c, false)).chans[c].queue == Offer(chan.queue, chan.inbox[0]);
    if chan.ended {
      assert NatsEnabled(s, NatsStep.Callback(c, true));
      assert NatsNext(s, NatsStep.Callback(c, true)).chans[c].queue == chan.queue;
    }
  }

  lemma {:induction false} EndedForGood(s: Cluster, steps: seq<NatsStep>, c: nat)
    requires NatsValid(s, steps) && c < |s.chans| && s.chans[c].ended
    ensures forall i :: 0 <= i < |steps| ==> !Ends(steps[i], c) && steps[i] != FlushDone(c)
    decreases |steps|
  {
    hide NatsNext;
    if steps != [] {
      ConnsStay(s, steps[0], c);
      EndedForGood(NatsNext(s, steps[0]), steps[1..], c);
    }
  }

  /** `done` is closed: by `unsubscribe`, or by `Subscribe` itself when its flush fails. */
  predicate Ends(step: NatsStep, c: nat) { step == NatsStep.Unsubscribe(c) || step == FlushFailed(c) }

  /**
   Whoever ends a subscription closes `done` and writes what `Unsubscribe` writes, and in no
   run after that is there a second UNSUB, or does `Subscribe` still return the channel.
   */
  lemma UnsubscribeSection(s: Cluster, step: NatsStep, later: seq<NatsStep>, c: nat)
    requires Ends(step, c) && NatsEnabled(s, step) && NatsValid(NatsNext(s, step), later)
    ensures var conn, t := s.chans[c].conn, NatsNext(s, step);
            && OnlyWire(s, t, conn, Unsubscribed(s.wires[conn], c))
            && t.chans == s.chans[c := s.chans[c].(ended := true)] && t.publishers == s.publishers
    ensures forall i :: 0 <= i < |later| ==> !Ends(later[i], c) && later[i] != FlushDone(c)
  {
    EndedForGood(NatsNext(s, step), later, c);
  }
}
