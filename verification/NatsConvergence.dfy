/**
 The work that is left in a cluster ends: every message moves on, every wake-up is read, and
 then every live stream of every process shows the last commit.
 */
module NatsConvergence {
  import opened StreamLoop
  import opened NatsUpdate
  import P = BusProgress

  // ---- A measure of the work left ------------------------------------------------------

  /** A publication may still become an inbox message for each of `k` channels. */
  function WireWork(w: Wire, k: nat): nat { if w.PubWire? then 5 * k + 1 else 1 }

  function PublisherWork(pub: Publisher, k: nat): nat
  {
    (if pub.due != [] then 5 * k + 4 else 0) + if pub.flushing then 2 else 0
  }

  function ChanWork(chan: Channel): nat
  {
    4 * |chan.queue| + 5 * |chan.inbox| + (if chan.pinged then 0 else 2) + if chan.ended then 0 else 2
  }

  function LoopWork(phase: LoopPhase): nat
  {
    match phase
    case Subscribing => 5 case QueryTodos(_) => 4 case QueryEvents(_, _, _) => 3
    case Writing(_, _, _, _) => 2 case Idle => 1 case Exited => 0
  }

  function WireCost(k: nat): Wire -> nat { w => WireWork(w, k) }

  function WireWeights(wire: seq<Wire>, cost: Wire -> nat): seq<nat>
  {
    seq(|wire|, i requires 0 <= i < |wire| => cost(wire[i]))
  }

  function WiresWeights(wires: seq<seq<Wire>>, cost: Wire -> nat): seq<nat>
  {
    seq(|wires|, conn requires 0 <= conn < |wires| => P.Sum(WireWeights(wires[conn], cost)))
  }

  /** What all messages on all connections cost together. */
  function WireSum(wires: seq<seq<Wire>>, cost: Wire -> nat): nat { P.Sum(WiresWeights(wires, cost)) }

  function PublisherWeights(publishers: seq<Publisher>, k: nat): seq<nat>
  {
    seq(|publishers|, p requires 0 <= p < |publishers| => PublisherWork(publishers[p], k))
  }

  function ChanWeights(chans: seq<Channel>): seq<nat>
  {
    seq(|chans|, c requires 0 <= c < |chans| => ChanWork(chans[c]))
  }

  function LoopWeights(loops: seq<Loop>): seq<nat>
  {
    seq(|loops|, c requires 0 <= c < |loops| => LoopWork(loops[c].phase))
  }

  function WireTotal(s: Cluster): nat { WireSum(s.wires, WireCost(|s.chans|)) }

  function PublisherTotal(s: Cluster): nat { P.Sum(PublisherWeights(s.publishers, |s.chans|)) }

  function ChanTotal(s: Cluster): nat { P.Sum(ChanWeights(s.chans)) }

  function LoopTotal(s: Cluster): nat { P.Sum(LoopWeights(s.loops)) }

  function NatsMeasure(s: Cluster): nat { WireTotal(s) + PublisherTotal(s) + ChanTotal(s) + LoopTotal(s) }

  /** New processes, request goroutines, mutations, browsers and ended contexts are demand; the rest is work. */
  predicate NatsWork(step: NatsStep)
  {
    !step.NewProcess? && !step.NewPublisher? && !step.Commit? && !step.Open? && !step.Cancel?
  }

  /** Work that is neither a failure nor an exit. */
  predicate SoundWork(step: NatsStep) { NatsWork(step) && !step.Exit? && !step.FlushFailed? }

  predicate OfPublisher(step: NatsStep) { step.Publish? || step.PublishFlush? }

  /** Work on one stream and its channel. */
  predicate OfStream(step: NatsStep) { NatsWork(step) && !OfPublisher(step) && !step.Broker? }

  function SentWork(s: Cluster, step: NatsStep): nat
    requires NatsEnabled(s, step)
  {
    match Sent(s, step) case None => 0 case Some((_, w)) => WireWork(w, |s.chans|)
  }

  lemma WireAppend(wire: seq<Wire>, w: Wire, cost: Wire -> nat)
    ensures P.Sum(WireWeights(wire + [w], cost)) == P.Sum(WireWeights(wire, cost)) + cost(w)
  {
    assert WireWeights(wire + [w], cost) == WireWeights(wire, cost) + [cost(w)];
    P.SumSnoc(WireWeights(wire, cost), cost(w));
  }

  lemma WireDrop(wire: seq<Wire>, cost: Wire -> nat)
    requires wire != []
    ensures P.Sum(WireWeights(wire, cost)) == cost(wire[0]) + P.Sum(WireWeights(wire[1..], cost))
  {
    assert WireWeights(wire, cost)[1..] == WireWeights(wire[1..], cost);
  }

  /** What is written and what is handled make the difference on the wires. */
  lemma WireFlow(s: Cluster, step: NatsStep, cost: Wire -> nat)
    requires NatsEnabled(s, step)
    ensures WireSum(NatsNext(s, step).wires, cost) + (if step.Broker? then cost(s.wires[step.conn][0]) else 0)
            == WireSum(s.wires, cost) + match Sent(s, step) case None => 0 case Some((_, w)) => cost(w)
  {
    WireMoves(s, step);
    var t := NatsNext(s, step);
    if step.NewProcess? {
      assert WireWeights([], cost) == [];
      assert WiresWeights(t.wires, cost) == WiresWeights(s.wires, cost) + [0];
      P.SumSnoc(WiresWeights(s.wires, cost), 0);
    } else if step.Broker? {
      WireDrop(s.wires[step.conn], cost);
      hide NatsNext, NatsEnabled;
      P.SumChange(WiresWeights(s.wires, cost), WiresWeights(t.wires, cost), step.conn);
    } else if Sent(s, step).Some? {
      var (conn, w) := Sent(s, step).value;
      WireAppend(s.wires[conn], w, cost);
      hide NatsNext, NatsEnabled, Sent;
      P.SumChange(WiresWeights(s.wires, cost), WiresWeights(t.wires, cost), conn);
    }
  }

  lemma WirePart(s: Cluster, step: NatsStep)
    requires NatsEnabled(s, step) && NatsWork(step) && |NatsNext(s, step).chans| == |s.chans|
    ensures WireTotal(NatsNext(s, step)) + (if step.Broker? then WireWork(s.wires[step.conn][0], |s.chans|) else 0)
            == WireTotal(s) + SentWork(s, step)
  {
    hide NatsNext, NatsEnabled, WireSum, WireWork, Sent;
    WireFlow(s, step, WireCost(|s.chans|));
  }

  lemma PublisherPart(s: Cluster, step: NatsStep)
    requires NatsEnabled(s, step) && NatsWork(step) && |NatsNext(s, step).chans| == |s.chans|
    ensures if OfPublisher(step)
            then PublisherTotal(NatsNext(s, step)) + PublisherWork(s.publishers[step.p], |s.chans|)
                 == PublisherTotal(s) + PublisherWork(PublisherAfter(s, step, step.p), |s.chans|)
            else PublisherTotal(NatsNext(s, step)) == PublisherTotal(s)
  {
    var t, k := NatsNext(s, step), |s.chans|;
    forall p: nat | p < |s.publishers|
      ensures p < |t.publishers| && t.publishers[p] == PublisherAfter(s, step, p)
    {
      PublisherMoves(s, step, p);
    }
    PublisherMoves(s, step, 0);
    hide NatsNext, NatsEnabled, PublisherWork;
    if OfPublisher(step) {
      P.SumChange(PublisherWeights(s.publishers, k), PublisherWeights(t.publishers, k), step.p);
    } else {
      assert PublisherWeights(t.publishers, k) == PublisherWeights(s.publishers, k);
    }
  }

  lemma ChansStay(s: Cluster, step: NatsStep)
    requires NatsEnabled(s, step) && NatsWork(step)
    ensures |NatsNext(s, step).chans| == |s.chans| && |NatsNext(s, step).loops| == |s.loops|
    ensures forall c: nat :: c < |s.chans| ==> NatsNext(s, step).chans[c] == ChanAfter(s, step, c)
    ensures forall c: nat :: c < |s.loops| ==> NatsNext(s, step).loops[c] == LoopAfter(s, step, c)
  {
    ChanMoves(s, step, 0);
    LoopMoves(s, step, 0);
    hide NatsNext, ChanAfter, LoopAfter;
    forall c: nat | c < |s.chans| ensures NatsNext(s, step).chans[c] == ChanAfter(s, step, c) {
      ChanMoves(s, step, c);
    }
    forall c: nat | c < |s.loops| ensures NatsNext(s, step).loops[c] == LoopAfter(s, step, c) {
      LoopMoves(s, step, c);
    }
  }

  /** A step on one stream moves only that stream. */
  lemma OthersRest(s: Cluster, step: NatsStep, c: nat)
    requires NatsEnabled(s, step) && NatsWork(step) && !step.Broker? && (OfStream(step) ==> c != step.c)
    ensures c < |s.chans| ==> ChanAfter(s, step, c) == s.chans[c]
    ensures c < |s.loops| ==> LoopAfter(s, step, c) == s.loops[c]
  {
    hide BeginRound, ReadTodos, ReadEvents, Write, ChanAfter;
    if c < |s.chans| { ChanRests(s, step, c); }
  }

  lemma ChanRests(s: Cluster, step: NatsStep, c: nat)
    requires NatsEnabled(s, step) && NatsWork(step) && !step.Broker? && (OfStream(step) ==> c != step.c)
    requires c < |s.chans|
    ensures ChanAfter(s, step, c) == s.chans[c]
  {
    hide Delivered;
  }

  lemma ChanSum(chans: seq<Channel>, after: seq<Channel>, c: nat)
    requires |after| == |chans| && c < |chans| && forall k :: 0 <= k < |chans| && k != c ==> after[k] == chans[k]
    ensures P.Sum(ChanWeights(after)) + ChanWork(chans[c]) == P.Sum(ChanWeights(chans)) + ChanWork(after[c])
  {
    hide ChanWork;
    P.SumChange(ChanWeights(chans), ChanWeights(after), c);
  }

  lemma LoopSum(loops: seq<Loop>, after: seq<Loop>, c: nat)
    requires |after| == |loops| && c < |loops| && forall k :: 0 <= k < |loops| && k != c ==> after[k] == loops[k]
    ensures P.Sum(LoopWeights(after)) + LoopWork(loops[c].phase)
            == P.Sum(LoopWeights(loops)) + LoopWork(after[c].phase)
  {
    hide LoopWork;
    P.SumChange(LoopWeights(loops), LoopWeights(after), c);
  }

  lemma StreamPart(s: Cluster, step: NatsStep)
    requires NatsEnabled(s, step) && NatsWork(step) && !step.Broker?
    requires OfStream(step) ==> step.c < |s.chans| && step.c < |s.loops|
    ensures if OfStream(step)
            then && ChanTotal(NatsNext(s, step)) + ChanWork(s.chans[step.c])
                    == ChanTotal(s) + ChanWork(ChanAfter(s, step, step.c))
                 && LoopTotal(NatsNext(s, step)) + LoopWork(s.loops[step.c].phase)
                    == LoopTotal(s) + LoopWork(LoopAfter(s, step, step.c).phase)
            else ChanTotal(NatsNext(s, step)) == ChanTotal(s) && LoopTotal(NatsNext(s, step)) == LoopTotal(s)
  {
    var t := NatsNext(s, step);
    ChansStay(s, step);
    forall c: nat | !OfStream(step) || c != step.c
      ensures c < |s.chans| ==> t.chans[c] == s.chans[c]
      ensures c < |s.loops| ==> t.loops[c] == s.loops[c]
    {
      OthersRest(s, step, c);
    }
    hide NatsNext, NatsEnabled, ChanAfter, LoopAfter, ChanWork, LoopWork;
    hide ChanWeights, LoopWeights, NatsWork, OfStream;
    if OfStream(step) {
      ChanSum(s.chans, t.chans, step.c);
      LoopSum(s.loops, t.loops, step.c);
    } else {
      assert t.chans == s.chans && t.loops == s.loops;
    }
  }

  lemma {:induction false} SumGrows(a: seq<nat>, b: seq<nat>)
    requires |a| == |b| && forall i :: 0 <= i < |a| ==> b[i] <= a[i] + 5
    ensures P.Sum(b) <= P.Sum(a) + 5 * |a|
  {
    if a != [] {
      SumGrows(a[1..], b[1..]);
    }
  }

  /** Handling a message costs no more than the message was worth. */
  lemma BrokerPart(s: Cluster, conn: nat)
    requires NatsEnabled(s, Broker(conn))
    ensures ChanTotal(NatsNext(s, Broker(conn))) < ChanTotal(s) + WireWork(s.wires[conn][0], |s.chans|)
    ensures LoopTotal(NatsNext(s, Broker(conn))) == LoopTotal(s)
  {
    var t, w := NatsNext(s, Broker(conn)), s.wires[conn][0];
    ChansStay(s, Broker(conn));
    hide NatsNext, NatsEnabled;
    assert LoopWeights(t.loops) == LoopWeights(s.loops);
    if w.PubWire? {
      SumGrows(ChanWeights(s.chans), ChanWeights(t.chans));
    } else {
      assert ChanWeights(t.chans) == ChanWeights(s.chans);
    }
  }

  lemma PublisherSpends(s: Cluster, step: NatsStep)
    requires NatsEnabled(s, step) && OfPublisher(step)
    ensures PublisherWork(PublisherAfter(s, step, step.p), |s.chans|) + SentWork(s, step)
            < PublisherWork(s.publishers[step.p], |s.chans|)
  {
  }

  lemma StreamSpends(s: Cluster, step: NatsStep)
    requires NatsEnabled(s, step) && OfStream(step) && step.c < |s.chans| && step.c < |s.loops|
    ensures ChanWork(ChanAfter(s, step, step.c)) + LoopWork(LoopAfter(s, step, step.c).phase) + SentWork(s, step)
            < ChanWork(s.chans[step.c]) + LoopWork(s.loops[step.c].phase)
  {
    if OnLoop(step) {
      LoopSpends(s, step);
    } else {
      ChannelSpends(s, step);
    }
    hide NatsEnabled, ChanAfter, LoopAfter, Sent, ChanWork, LoopWork;
  }

  lemma LoopSpends(s: Cluster, step: NatsStep)
    requires NatsEnabled(s, step) && OfStream(step) && OnLoop(step) && step.c < |s.chans| && step.c < |s.loops|
    ensures ChanWork(ChanAfter(s, step, step.c)) + LoopWork(LoopAfter(s, step, step.c).phase) + SentWork(s, step)
            < ChanWork(s.chans[step.c]) + LoopWork(s.loops[step.c].phase)
  {
  }

  lemma ChannelSpends(s: Cluster, step: NatsStep)
    requires NatsEnabled(s, step) && OfStream(step) && !OnLoop(step) && step.c < |s.chans| && step.c < |s.loops|
    ensures LoopAfter(s, step, step.c) == s.loops[step.c]
    ensures ChanWork(ChanAfter(s, step, step.c)) + SentWork(s, step) < ChanWork(s.chans[step.c])
  {
  }

  /** Every step of the work left strictly decreases the measure. */
  lemma NatsWorkDecreasesMeasure(s: Cluster, step: NatsStep)
    requires NatsEnabled(s, step) && NatsWork(step)
    ensures NatsMeasure(NatsNext(s, step)) < NatsMeasure(s)
  {
    ChansStay(s, step);
    if OfStream(step) { HasIndices(s, step); }
    hide NatsNext, NatsEnabled, WireTotal, PublisherTotal, ChanTotal, LoopTotal, SentWork;
    hide PublisherWork, ChanWork, LoopWork, ChanAfter, LoopAfter, PublisherAfter;
    WirePart(s, step);
    PublisherPart(s, step);
    if step.Broker? {
      BrokerPart(s, step.conn);
      NothingSent(s, step);
    } else {
      StreamPart(s, step);
      if OfPublisher(step) {
        PublisherSpends(s, step);
      } else {
        StreamSpends(s, step);
      }
    }
  }

  lemma HasIndices(s: Cluster, step: NatsStep)
    requires NatsEnabled(s, step) && OfStream(step)
    ensures step.c < |s.chans| && step.c < |s.loops|
  {
  }

  lemma NothingSent(s: Cluster, step: NatsStep)
    requires NatsEnabled(s, step) && step.Broker?
    ensures SentWork(s, step) == 0
  {
  }

  // ---- The work ends, and where --------------------------------------------------------

  /** However the processes, the broker and the callbacks interleave, the work ends within the measure. */
  lemma {:induction false} NatsWorkBounded(s: Cluster, steps: seq<NatsStep>)
    requires NatsValid(s, steps)
    requires forall i :: 0 <= i < |steps| ==> NatsWork(steps[i])
    ensures |steps| + NatsMeasure(NatsRun(s, steps)) <= NatsMeasure(s)
    decreases |steps|
  {
    hide NatsMeasure, NatsNext;
    if steps != [] {
      NatsWorkDecreasesMeasure(s, steps[0]);
      NatsWorkBounded(NatsNext(s, steps[0]), steps[1..]);
    }
  }

  /** Nothing left to do for the subscription and the stream of one channel. */
  predicate AtRest(chan: Channel, phase: LoopPhase)
  {
    && chan.inbox == []
    && (phase.Exited? || (phase.Idle? && chan.queue == []))
    && !(chan.ready && !chan.ended && (chan.cancelled || phase.Exited?))
  }

  ghost predicate NatsSettled(s: Cluster)
  {
    && (forall conn :: 0 <= conn < |s.wires| ==> s.wires[conn] == [])
    && (forall p :: 0 <= p < |s.publishers| ==> s.publishers[p].due == [] && !s.publishers[p].flushing)
    && (forall c :: 0 <= c < |s.chans| && c < |s.loops| ==> AtRest(s.chans[c], s.loops[c].phase))
  }

  lemma StreamCanStep(s: Cluster, c: nat) returns (step: NatsStep)
    requires NatsInv(s) && c < |s.chans| && !AtRest(s.chans[c], s.loops[c].phase)
    requires forall conn :: 0 <= conn < |s.wires| ==> s.wires[conn] == []
    ensures SoundWork(step) && NatsEnabled(s, step)
  {
    assert StreamOk(s, c);
    if s.chans[c].inbox != [] {
      return NatsStep.Callback(c, false);
    }
    match s.loops[c].phase
    case Subscribing => step := if s.chans[c].pinged then FlushDone(c) else Flush(c);
    case QueryTodos(_) => step := TodosQuery(c);
    case QueryEvents(_, _, _) => step := EventsQuery(c);
    case Writing(_, _, _, _) => step := WriteSnapshot(c);
    case Idle => step := if s.chans[c].queue != [] then Wake(c) else NatsStep.Unsubscribe(c);
    case Exited => step := NatsStep.Unsubscribe(c);
  }

  /** No deadlock: until everything is settled some step other than a failure or an exit can be taken. */
  lemma NatsCanStep(s: Cluster) returns (step: NatsStep)
    requires NatsInv(s) && !NatsSettled(s)
    ensures SoundWork(step) && NatsEnabled(s, step)
  {
    if conn: nat :| conn < |s.wires| && s.wires[conn] != [] {
      step := Broker(conn);
    } else if p: nat :| p < |s.publishers| && s.publishers[p].due != [] {
      step := Publish(p);
    } else if p: nat :| p < |s.publishers| && s.publishers[p].flushing {
      step := PublishFlush(p);
    } else {
      var c: nat :| c < |s.chans| && c < |s.loops| && !AtRest(s.chans[c], s.loops[c].phase);
      step := StreamCanStep(s, c);
    }
  }

  predicate HasShown(s: Cluster, c: nat) { c < |s.loops| && s.loops[c].shown != [] }

  function LastShown(s: Cluster, c: nat): Content
    requires HasShown(s, c)
  {
    s.loops[c].shown[|s.loops[c].shown| - 1].content
  }

  /** The last snapshot of the stream shows the last commit of any process, in both parts. */
  ghost predicate ShowsLast(s: Cluster, c: nat)
  {
    s.log != [] && HasShown(s, c) && LastShown(s, c) == ContentOf(s.log[|s.log| - 1])
  }

  lemma SettledShowsLast(s: Cluster, c: nat)
    requires NatsInv(s) && NatsSettled(s) && Live(s, c)
    ensures ShowsLast(s, c) && c in s.registered
  {
    assert StreamOk(s, c) && NeverForgotten(s, c) && AtRest(s.chans[c], s.loops[c].phase);
    RegisteredBeforeSnapshot(s, c);
    hide LoopOk, RegistrationOk;
    assert !WakeUpComing(s, c);
  }

  lemma WorkKeepsLive(s: Cluster, step: NatsStep, c: nat)
    requires NatsInv(s) && NatsEnabled(s, step) && SoundWork(step) && Live(s, c)
    ensures Live(NatsNext(s, step), c)
  {
    LiveUntilEnded(s, step, c);
  }

  /**
   From every state, without any further mutation and with no failure, the work that is left
   leads within the measure to a state in which every live stream of every process shows the
   data as the last commit of any process left it.
   */
  lemma {:induction false} NatsEventuallyCurrent(s: Cluster) returns (steps: seq<NatsStep>)
    requires NatsInv(s)
    ensures NatsValid(s, steps) && |steps| <= NatsMeasure(s)
    ensures forall i :: 0 <= i < |steps| ==> SoundWork(steps[i])
    ensures var t := NatsRun(s, steps);
            && NatsInv(t) && t.log == s.log
            && (forall c: nat :: Live(s, c) ==> Live(t, c))
            && forall c: nat :: Live(t, c) ==> ShowsLast(t, c) && c in t.registered
    decreases NatsMeasure(s)
  {
    hide NatsMeasure, NatsNext, NatsEnabled, NatsInv, Live, ShowsLast;
    if NatsSettled(s) {
      steps := [];
      forall c: nat | Live(s, c) ensures ShowsLast(s, c) && c in s.registered {
        SettledShowsLast(s, c);
      }
    } else {
      var step := NatsCanStep(s);
      NatsWorkDecreasesMeasure(s, step);
      NatsStepKeepsInv(s, step);
      LogStays(s, step);
      var rest := NatsEventuallyCurrent(NatsNext(s, step));
      steps := [step] + rest;
      assert steps[1..] == rest;
      forall c: nat | Live(s, c) ensures Live(NatsNext(s, step), c) {
        WorkKeepsLive(s, step, c);
      }
    }
  }

  lemma LogStays(s: Cluster, step: NatsStep)
    requires NatsEnabled(s, step) && NatsWork(step)
    ensures NatsNext(s, step).log == s.log
  {
    LogMoves(s, step);
    hide NatsNext;
    assert s.log + [] == s.log;
  }

  // ---- Every schedule ------------------------------------------------------------------

  /** Nothing is left that can be done, except for handlers to exit and flushes to fail. */
  ghost predicate NatsExhausted(s: Cluster)
  {
    forall step :: SoundWork(step) ==> !NatsEnabled(s, step)
  }

  lemma ExhaustedShowsLast(s: Cluster, c: nat)
    requires NatsInv(s) && NatsExhausted(s) && Live(s, c)
    ensures ShowsLast(s, c) && c in s.registered
  {
    hide NatsWork, NatsEnabled, NatsInv, Live, NatsSettled, ShowsLast;
    if !NatsSettled(s) {
      var step := NatsCanStep(s);
    }
    SettledShowsLast(s, c);
  }

  lemma {:induction false} NatsWorkRun(s: Cluster, steps: seq<NatsStep>, c: nat)
    requires NatsInv(s) && NatsValid(s, steps)
    requires forall i :: 0 <= i < |steps| ==> NatsWork(steps[i])
    ensures NatsRun(s, steps).log == s.log
    ensures Live(s, c) && (forall i :: 0 <= i < |steps| ==> SoundWork(steps[i])) ==> Live(NatsRun(s, steps), c)
    decreases |steps|
  {
    hide NatsNext, NatsEnabled, NatsInv, Live, NatsWork;
    if steps != [] {
      LogStays(s, steps[0]);
      NatsStepKeepsInv(s, steps[0]);
      if Live(s, c) && SoundWork(steps[0]) {
        WorkKeepsLive(s, steps[0], c);
      }
      NatsWorkRun(NatsNext(s, steps[0]), steps[1..], c);
    }
  }

  /**
   Whatever the schedule of processes, broker, callbacks and streams: without any further
   mutation, work that is done until none is left takes no more steps than the measure, and
   then every live stream of every process shows the last commit of any process. Only streams
   whose handler exits or whose flush fails meanwhile are not live any more.
   */
  lemma NatsEveryScheduleArrives(s: Cluster, steps: seq<NatsStep>)
    requires NatsInv(s) && NatsValid(s, steps) && NatsExhausted(NatsRun(s, steps))
    requires forall i :: 0 <= i < |steps| ==> NatsWork(steps[i])
    ensures |steps| <= NatsMeasure(s)
    ensures var t := NatsRun(s, steps);
            && t.log == s.log
            && (forall c: nat :: Live(t, c) ==> ShowsLast(t, c) && c in t.registered)
            && ((forall i :: 0 <= i < |steps| ==> SoundWork(steps[i])) ==> forall c: nat :: Live(s, c) ==> Live(t, c))
  {
    hide NatsNext, NatsEnabled, NatsInv, NatsMeasure, Live, NatsWork, SoundWork, ShowsLast, NatsExhausted;
    var t := NatsRun(s, steps);
    NatsWorkBounded(s, steps);
    NatsRunKeepsInv(s, steps);
    NatsWorkRun(s, steps, 0);
    forall c: nat | Live(t, c) ensures ShowsLast(t, c) && c in t.registered {
      ExhaustedShowsLast(t, c);
    }
    if forall i :: 0 <= i < |steps| ==> SoundWork(steps[i]) {
      forall c: nat | Live(s, c) ensures Live(t, c) {
        NatsWorkRun(s, steps, c);
      }
    }
  }
}
