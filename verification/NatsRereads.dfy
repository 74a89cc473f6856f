/** How much the streams of a cluster read again, and in which order they see the commits. */
module NatsRereads {
  import opened Bus
  import opened StreamLoop
  import opened NatsUpdate
  import opened NatsConvergence

  function PubCount(): Wire -> nat { (w: Wire) => if w.PubWire? then 1 else 0 }

  function DueWeights(publishers: seq<Publisher>): seq<nat>
  {
    seq(|publishers|, p requires 0 <= p < |publishers| => if publishers[p].due != [] then 1 else 0)
  }

  /** Wake-ups that a publisher still has to write, and those the broker still has to handle. */
  function Flying(s: Cluster): nat { P.Sum(DueWeights(s.publishers)) + WireSum(s.wires, PubCount()) }

  /** Every wake-up that may still reach the stream, and its round. */
  function Pending(s: Cluster, c: nat): nat
    requires c < |s.chans| && c < |s.loops|
  {
    |s.chans[c].queue| + |s.chans[c].inbox| + Flying(s) + Rounds(s.loops[c])
  }

  /** A publication that the broker handles in this step. */
  predicate Fans(s: Cluster, step: NatsStep)
    requires NatsEnabled(s, step)
  {
    step.Broker? && s.wires[step.conn][0].PubWire?
  }

  lemma DueMoves(s: Cluster, step: NatsStep)
    requires NatsEnabled(s, step)
    ensures P.Sum(DueWeights(NatsNext(s, step).publishers)) + (if step.Publish? then 1 else 0)
            == P.Sum(DueWeights(s.publishers)) + if step.Commit? then 1 else 0
  {
    var t := NatsNext(s, step);
    forall p: nat | p < |s.publishers| ensures p < |t.publishers| && t.publishers[p] == PublisherAfter(s, step, p) {
      PublisherMoves(s, step, p);
    }
    PublisherMoves(s, step, |s.publishers|);
    PublisherThere(s, step);
    hide NatsNext, NatsEnabled;
    var a, b := DueWeights(s.publishers), DueWeights(t.publishers);
    if step.NewPublisher? {
      assert b == a + [0];
      P.SumSnoc(a, 0);
    } else if step.Publish? || step.Commit? {
      P.SumChange(a, b, step.p);
    } else {
      assert b == a;
    }
  }

  lemma PublisherThere(s: Cluster, step: NatsStep)
    requires NatsEnabled(s, step)
    ensures step.Publish? ==> step.p < |s.publishers| && s.publishers[step.p].due != []
    ensures step.Commit? ==> step.p < |s.publishers| && s.publishers[step.p].due == []
  {
  }

  lemma SentPub(s: Cluster, step: NatsStep)
    requires NatsEnabled(s, step)
    ensures (match Sent(s, step) case None => 0 case Some((_, w)) => PubCount()(w)) == if step.Publish? then 1 else 0
  {
  }

  /** A commit sets one wake-up flying; only the broker lets one down. */
  lemma FlyingMoves(s: Cluster, step: NatsStep)
    requires NatsEnabled(s, step)
    ensures Flying(NatsNext(s, step)) + (if Fans(s, step) then 1 else 0)
            == Flying(s) + if step.Commit? then 1 else 0
  {
    hide NatsNext, NatsEnabled, WireSum, DueWeights, Sent;
    DueMoves(s, step);
    WireFlow(s, step, PubCount());
    SentPub(s, step);
  }

  /** What one channel holds: only the broker adds to it, and a wake-up is taken from it. */
  lemma ChannelPending(s: Cluster, step: NatsStep, c: nat)
    requires NatsEnabled(s, step) && c < |s.chans|
    ensures var chan := ChanAfter(s, step, c);
            |chan.queue| + |chan.inbox| + (if step == Wake(c) then 1 else 0)
            <= |s.chans[c].queue| + |s.chans[c].inbox| + if Fans(s, step) then 1 else 0
  {
    if step.Broker? {
      BrokerFills(s.chans[c], c, c in s.registered, s.wires[step.conn][0]);
      hide NatsEnabled, Delivered;
    } else if step == Wake(c) || (step.Callback? && step.c == c) {
      QueueSpends(s, step, c);
    } else {
      OthersKeepQueues(s, step, c);
    }
  }

  lemma BrokerFills(chan: Channel, c: nat, listed: bool, w: Wire)
    ensures var after := Delivered(chan, c, listed, w);
            |after.queue| + |after.inbox| <= |chan.queue| + |chan.inbox| + if w.PubWire? then 1 else 0
  {
  }

  lemma QueueSpends(s: Cluster, step: NatsStep, c: nat)
    requires NatsEnabled(s, step) && c < |s.chans| && (step == Wake(c) || (step.Callback? && step.c == c))
    ensures var chan := ChanAfter(s, step, c);
            |chan.queue| + |chan.inbox| + (if step == Wake(c) then 1 else 0) <= |s.chans[c].queue| + |s.chans[c].inbox|
  {
  }

  lemma OthersKeepQueues(s: Cluster, step: NatsStep, c: nat)
    requires NatsEnabled(s, step) && !step.Broker? && c < |s.chans|
    requires step != Wake(c) && !(step.Callback? && step.c == c)
    ensures ChanAfter(s, step, c).queue == s.chans[c].queue && ChanAfter(s, step, c).inbox == s.chans[c].inbox
  {
    hide Offer, Delivered;
  }

  /** What one stream has shown or is about to: only a wake-up adds to it. */
  lemma LoopPending(s: Cluster, step: NatsStep, c: nat)
    requires NatsEnabled(s, step) && c < |s.loops|
    ensures var loop := LoopAfter(s, step, c);
            |loop.shown| + Rounds(loop) <= |s.loops[c].shown| + Rounds(s.loops[c]) + if step == Wake(c) then 1 else 0
  {
  }

  /** No step but a commit adds to what a stream has shown and may still be brought to show. */
  lemma StepSpendsPending(s: Cluster, step: NatsStep, c: nat)
    requires NatsEnabled(s, step) && c < |s.chans| && c < |s.loops|
    ensures var t := NatsNext(s, step);
            && c < |t.chans| && c < |t.loops|
            && |t.loops[c].shown| + Pending(t, c)
               <= |s.loops[c].shown| + Pending(s, c) + if step.Commit? then 1 else 0
  {
    ChanMoves(s, step, c);
    LoopMoves(s, step, c);
    hide NatsNext, NatsEnabled, ChanAfter, LoopAfter, Flying, Fans, Rounds;
    FlyingMoves(s, step);
    ChannelPending(s, step, c);
    LoopPending(s, step, c);
  }

  /**
   After the last commit a stream of any process writes at most as many snapshots as there are
   wake-ups in its channel (at most 16), in its inbox, with publishers and on connections, and
   one for its round.
   */
  lemma {:induction false} RereadsBounded(s: Cluster, steps: seq<NatsStep>, c: nat)
    requires NatsInv(s) && NatsValid(s, steps) && c < |s.chans|
    requires forall i :: 0 <= i < |steps| ==> !steps[i].Commit?
    ensures |s.loops| == |s.chans| && Pending(s, c) <= 16 + |s.chans[c].inbox| + Flying(s) + 1
    ensures c < |NatsRun(s, steps).loops|
    ensures |NatsRun(s, steps).loops[c].shown| <= |s.loops[c].shown| + Pending(s, c)
    decreases |steps|
  {
    assert StreamOk(s, c);
    hide NatsNext, NatsEnabled, NatsInv, Flying, StreamOk;
    if steps != [] {
      StepSpendsPending(s, steps[0], c);
      NatsStepKeepsInv(s, steps[0]);
      RereadsBounded(NatsNext(s, steps[0]), steps[1..], c);
    }
  }

  // ---- One snapshot per commit ---------------------------------------------------------

  /** What has been shown and what may still be is covered by the committed states. */
  ghost predicate Covered(s: Cluster)
  {
    && |s.loops| == |s.chans| && Flying(s) < |s.log|
    && forall c: nat :: c < |s.chans| ==> |s.loops[c].shown| + Pending(s, c) <= |s.log|
  }

  lemma NewStreamCovered(s: Cluster, step: NatsStep)
    requires NatsEnabled(s, step) && step.Open? && |s.loops| == |s.chans| && Flying(s) < |s.log|
    ensures var c, t := |s.chans|, NatsNext(s, step);
            c < |t.chans| && c < |t.loops| && |t.loops[c].shown| + Pending(t, c) <= |t.log|
  {
    ChanMoves(s, step, |s.chans|);
    LoopMoves(s, step, |s.chans|);
    LogMoves(s, step);
    FlyingMoves(s, step);
    hide NatsNext, NatsEnabled, Flying;
  }

  lemma StepKeepsCovered(s: Cluster, step: NatsStep)
    requires Covered(s) && NatsEnabled(s, step)
    ensures Covered(NatsNext(s, step))
  {
    var t := NatsNext(s, step);
    LogMoves(s, step);
    FlyingMoves(s, step);
    ChanMoves(s, step, 0);
    LoopMoves(s, step, 0);
    hide NatsNext, NatsEnabled, Flying, ChanAfter, LoopAfter, Pending;
    forall c: nat | c < |t.chans| ensures |t.loops[c].shown| + Pending(t, c) <= |t.log| {
      if c < |s.chans| {
        StepSpendsPending(s, step, c);
      } else {
        NewStreamCovered(s, step);
      }
    }
  }

  lemma {:induction false} RunKeepsCovered(s: Cluster, steps: seq<NatsStep>)
    requires Covered(s) && NatsValid(s, steps)
    ensures Covered(NatsRun(s, steps))
    decreases |steps|
  {
    hide NatsNext, NatsEnabled, Covered;
    if steps != [] {
      StepKeepsCovered(s, steps[0]);
      RunKeepsCovered(NatsNext(s, steps[0]), steps[1..]);
    }
  }

  lemma StartCovered(s: Cluster)
    requires Start(s)
    ensures Covered(s)
  {
  }

  /**
   In every run a stream of any process has written no more snapshots than there are committed
   states, the initial one included.
   */
  lemma OneSnapshotPerCommit(start: Cluster, steps: seq<NatsStep>, c: nat)
    requires Start(start) && NatsValid(start, steps) && c < |NatsRun(start, steps).loops|
    ensures |NatsRun(start, steps).loops[c].shown| <= |NatsRun(start, steps).log|
  {
    StartCovered(start);
    RunKeepsCovered(start, steps);
  }

  // ---- Order ---------------------------------------------------------------------------

  /**
   In every run the snapshots of a stream of any process never go back: each shows the todos
   of one committed state and the ten newest events of another, the todos no newer than the
   events, and both no older than in any snapshot before.
   */
  lemma SnapshotsNeverGoBack(start: Cluster, steps: seq<NatsStep>, c: nat, i: nat, j: nat)
    requires Start(start) && NatsValid(start, steps)
    requires var s := NatsRun(start, steps); c < |s.loops| && i < j < |s.loops[c].shown|
    ensures var s := NatsRun(start, steps);
            var a, b := s.loops[c].shown[i], s.loops[c].shown[j];
            && a.todosAt <= b.todosAt && a.eventsAt <= b.eventsAt
            && a.todosAt <= a.eventsAt && b.begin <= b.todosAt <= b.eventsAt <= b.end < |s.log|
            && a.content.todos == s.log[a.todosAt].todos && b.content.todos == s.log[b.todosAt].todos
            && T.NewestRows(s.log[a.eventsAt].events, 10, a.content.events)
            && T.NewestRows(s.log[b.eventsAt].events, 10, b.content.events)
  {
    StartInv(start);
    NatsRunKeepsInv(start, steps);
    var s := NatsRun(start, steps);
    assert StreamOk(s, c);
    hide NatsInv, NatsRun, NatsValid, T.ListEvents, T.NewestRows;
    SnapshotsMonotone(s.loops[c], Now(s), i, j);
    T.ListedRows(s.log[s.loops[c].shown[i].eventsAt].events, 10);
    T.ListedRows(s.log[s.loops[c].shown[j].eventsAt].events, 10);
  }
}
