/**
 `MemoryBus` as the code has it: a map of sets of channels, updated in place. Each method is
 one whole critical section; module Bus interleaves the steps inside them and shows that
 they add up to the functions used in these contracts.
 */
module MemoryBus {
  import opened Bus

  type byte = bv8

  /** The event's bytes are an array of their own, shared by all channels that hold it. */
  datatype Message = Message(topic: string, data: array<byte>)

  /** A buffered channel of capacity 16. */
  class Channel {
    var buffer: seq<Message>

    constructor ()
      ensures buffer == []
    {
      buffer := [];
    }

    /** A `select` with a send and a default case. */
    method TrySend(m: Message)
      modifies this
      ensures buffer == Offer(old(buffer), m)
    {
      if |buffer| < CAPACITY {
        buffer := buffer + [m];
      }
    }
  }

  class MemoryBus {
    var subscribers: map<string, set<Channel>>

    ghost function Channels(): set<Channel>
      reads this
    {
      set topic, ch | topic in subscribers && ch in subscribers[topic] :: ch
    }

    /** No topic without channels, and no channel over its capacity. */
    ghost predicate Valid()
      reads this, Channels()
    {
      && (forall topic :: topic in subscribers ==> subscribers[topic] != {})
      && (forall ch :: ch in Channels() ==> |ch.buffer| <= CAPACITY)
    }

    constructor ()
      ensures Valid() && subscribers == map[]
    {
      subscribers := map[];
    }

    /**
     Every channel of the topic is offered one and the same event, whose bytes are a fresh
     copy: what the caller writes into `data` later cannot reach it.
     */
    method Publish(topic: string, data: array<byte>) returns (ghost m: Message)
      requires Valid()
      modifies Lookup(subscribers, topic)
      ensures Valid() && subscribers == old(subscribers)
      ensures m.topic == topic && fresh(m.data) && m.data[..] == data[..] == old(data[..])
      ensures forall ch :: ch in Lookup(subscribers, topic) ==> ch.buffer == Offer(old(ch.buffer), m)
    {
      var copy := new byte[data.Length](i requires 0 <= i < data.Length reads data => data[i]);
      var event := Message(topic, copy);
      m := event;
      var left := Lookup(subscribers, topic);
      while left != {}
        invariant left <= Lookup(subscribers, topic)
        invariant forall ch :: ch in left ==> ch.buffer == old(ch.buffer)
        invariant forall ch :: ch in Lookup(subscribers, topic) - left ==> ch.buffer == Offer(old(ch.buffer), event)
        invariant forall ch :: ch in Channels() - Lookup(subscribers, topic) ==> ch.buffer == old(ch.buffer)
        invariant m == event && copy[..] == data[..]
        decreases left
      {
        var ch :| ch in left;
        ch.TrySend(event);
        left := left - {ch};
      }
    }

    /**
     A new empty channel joins the topic and nothing else changes. The watcher is the
     goroutine started for the subscription, which has not run yet.
     */
    method Subscribe(topic: string) returns (ch: Channel, unsubscribe: Unsubscribe, watcher: Watcher)
      requires Valid()
      modifies this
      ensures Valid()
      ensures fresh(ch) && ch.buffer == []
      ensures subscribers == Register(old(subscribers), topic, ch)
      ensures fresh(unsubscribe) && !unsubscribe.once && !unsubscribe.done
      ensures unsubscribe.bus == this && unsubscribe.topic == topic && unsubscribe.ch == ch
      ensures fresh(watcher) && !watcher.exited && watcher.unsubscribe == unsubscribe
    {
      ch := new Channel();
      ghost var before := Channels();
      if topic !in subscribers {
        subscribers := subscribers[topic := {}];
      }
      subscribers := subscribers[topic := subscribers[topic] + {ch}];
      assert Channels() <= before + {ch};
      unsubscribe := new Unsubscribe(this, topic, ch);
      watcher := new Watcher(unsubscribe);
    }
  }

  /** The closure `Subscribe` returns, with its `sync.Once` and its `done` channel. */
  class Unsubscribe {
    const bus: MemoryBus
    const topic: string
    const ch: Channel
    var once: bool
    var done: bool

    constructor (bus: MemoryBus, topic: string, ch: Channel)
      ensures this.bus == bus && this.topic == topic && this.ch == ch && !once && !done
    {
      this.bus, this.topic, this.ch := bus, topic, ch;
      once, done := false, false;
    }

    /** The first call takes the channel out; every later call changes nothing. */
    method Call()
      requires bus.Valid()
      modifies this, bus
      ensures bus.Valid() && once
      ensures done == (old(done) || !old(once))
      ensures bus.subscribers == if old(once) then old(bus.subscribers) else Unregister(old(bus.subscribers), topic, ch)
    {
      if !once {
        once := true;
        done := true;
        ghost var before := bus.Channels();
        if topic in bus.subscribers {
          bus.subscribers := bus.subscribers[topic := bus.subscribers[topic] - {ch}];
        }
        if Lookup(bus.subscribers, topic) == {} {
          bus.subscribers := bus.subscribers - {topic};
        }
        assert bus.Channels() <= before;
        assert bus.subscribers == Unregister(old(bus.subscribers), topic, ch);
      }
    }
  }

  /** The goroutine that ends a subscription with its context, or ends when that is done. */
  class Watcher {
    const unsubscribe: Unsubscribe
    var exited: bool

    constructor (unsubscribe: Unsubscribe)
      ensures this.unsubscribe == unsubscribe && !exited
    {
      this.unsubscribe := unsubscribe;
      exited := false;
    }

    /**
     Its `select`, once a case is ready; with both ready it may take either. Whichever it
     takes, an ended context has taken the channel out exactly once when it exits.
     */
    method Run(ended: bool, pickDone: bool)
      requires ended || unsubscribe.done
      requires unsubscribe.bus.Valid() && (unsubscribe.done ==> unsubscribe.once)
      modifies this, unsubscribe, unsubscribe.bus
      ensures exited && unsubscribe.bus.Valid()
      ensures unsubscribe.once && unsubscribe.done == (old(unsubscribe.done) || !old(unsubscribe.once))
      ensures unsubscribe.bus.subscribers ==
              if old(unsubscribe.once) then old(unsubscribe.bus.subscribers)
              else Unregister(old(unsubscribe.bus.subscribers), unsubscribe.topic, unsubscribe.ch)
    {
      exited := true;
      if unsubscribe.done && (pickDone || !ended) { return; }
      unsubscribe.Call();
    }
  }
}
