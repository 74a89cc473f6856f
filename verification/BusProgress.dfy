/**
 The bus always gets its work done: no operation waits for a stream to read, every step
 that is not new demand uses up a measure, and while an operation is pending some step of
 the bus itself can be taken.
 */
module BusProgress {
  import opened Bus

  function Sum(weights: seq<nat>): nat
  {
    if weights == [] then 0 else weights[0] + Sum(weights[1..])
  }

  /** Changing one weight changes the sum by that much. */
  lemma {:induction false} SumChange(a: seq<nat>, b: seq<nat>, i: nat)
    requires |a| == |b| && i < |a|
    requires forall j :: 0 <= j < |a| && j != i ==> a[j] == b[j]
    ensures Sum(b) + a[i] == Sum(a) + b[i]
  {
    if i == 0 {
      assert a[1..] == b[1..];
    } else {
      SumChange(a[1..], b[1..], i - 1);
    }
  }

  lemma {:induction false} SumSnoc(a: seq<nat>, x: nat)
    ensures Sum(a + [x]) == Sum(a) + x
  {
    if a == [] {
      assert a + [x] == [x];
    } else {
      assert (a + [x])[1..] == a[1..] + [x];
      SumSnoc(a[1..], x);
    }
  }

  /** A visit costs more than the event it may leave in a channel. */
  function PubWork(pub: Pub, subs: nat): nat
  {
    match pub.phase
    case Resting => 0
    case Wanting(_) => 5 * subs + 2
    case Sending(_, left) => 5 * |left| + 1
  }

  function CallerWork(caller: Caller): nat
  {
    match caller case Idle => 2 case Calling => 1 case Returned => 0
  }

  function SubWork(sub: Sub): nat
  {
    Rank(sub.phase) + 4 * |sub.queue| + CallerWork(sub.watcher) + CallerWork(sub.handler)
  }

  function PubWeights(s: State): seq<nat>
  {
    seq(|s.pubs|, p requires 0 <= p < |s.pubs| => PubWork(s.pubs[p], |s.subs|))
  }

  function SubWeights(s: State): seq<nat>
  {
    seq(|s.subs|, c requires 0 <= c < |s.subs| => SubWork(s.subs[c]))
  }

  function Measure(s: State): nat { Sum(PubWeights(s)) + Sum(SubWeights(s)) }

  /** What the environment asks of the bus. */
  predicate Demand(step: Step)
  {
    step.NewPublisher? || step.BeginPublish? || step.BeginSubscribe? || step.Cancel?
  }

  /** Steps the bus takes by itself: no reader and no handler is involved. */
  predicate Internal(step: Step) { !Demand(step) && !step.Receive? && !step.HandlerCall? }

  lemma {:induction false} SmallSet(left: set<nat>, n: nat)
    requires forall c: nat :: c in left ==> c < n
    ensures |left| <= n
  {
    if n == 0 {
      assert left == {};
    } else {
      SmallSet(left - {n - 1}, n - 1);
      assert left <= (left - {n - 1}) + {n - 1};
    }
  }

  lemma PubSpends(s: State, step: Step)
    requires Enabled(s, step) && (step.ReadLock? || step.ReadUnlock? || step.Send?) && step.p < |s.pubs|
    requires step.ReadLock? ==> |Lookup(s.registry, s.pubs[step.p].phase.event.topic)| <= |s.subs|
    ensures var work, after := PubWork(s.pubs[step.p], |s.subs|), PubWork(PubAfter(s, step, step.p), |s.subs|);
            if step.Send? then after + 5 == work else after < work
  {
    hide Lookup;
  }

  lemma LockSpends(s: State, step: Step)
    requires Enabled(s, step) && LockStep(step) && step.c < |s.subs|
    ensures SubWork(SubAfter(s, step, step.c)) < SubWork(s.subs[step.c])
  {
  }

  lemma CallerSpends(s: State, step: Step)
    requires Enabled(s, step) && !LockStep(step) && !PubStep(step) && !Demand(step) && step.c < |s.subs|
    ensures SubWork(SubAfter(s, step, step.c)) < SubWork(s.subs[step.c])
  {
  }

  lemma FewRegistered(s: State, topic: string)
    requires RegistryExact(s)
    ensures |Lookup(s.registry, topic)| <= |s.subs|
  {
    forall c: nat | c in Lookup(s.registry, topic) ensures c < |s.subs| {
      assert InRegistry(s, topic, c);
    }
    SmallSet(Lookup(s.registry, topic), |s.subs|);
  }

  lemma Indices(s: State, step: Step)
    requires Enabled(s, step) && !Demand(step)
    ensures step.ReadLock? || step.ReadUnlock? || step.Send? ==> step.p < |s.pubs|
    ensures !step.ReadLock? && !step.ReadUnlock? ==> step.c < |s.subs|
  {
  }

  /** How one step changes the weights of the publisher and the channel it is about. */
  lemma StepWork(s: State, step: Step)
    requires Enabled(s, step) && !Demand(step) && RegistryExact(s)
    ensures |Next(s, step).pubs| == |s.pubs| && |Next(s, step).subs| == |s.subs|
    ensures (step.ReadLock? || step.ReadUnlock?) ==>
              PubWork(Next(s, step).pubs[step.p], |s.subs|) < PubWork(s.pubs[step.p], |s.subs|)
    ensures step.Send? ==>
              PubWork(Next(s, step).pubs[step.p], |s.subs|) + 5 == PubWork(s.pubs[step.p], |s.subs|)
    ensures step.Send? ==> SubWork(Next(s, step).subs[step.c]) <= SubWork(s.subs[step.c]) + 4
    ensures !step.Send? && !step.ReadLock? && !step.ReadUnlock? ==>
              SubWork(Next(s, step).subs[step.c]) < SubWork(s.subs[step.c])
  {
    Indices(s, step);
    SubMoves(s, step, if step.ReadLock? || step.ReadUnlock? then 0 else step.c);
    if PubStep(step) {
      PubMoves(s, step, step.p);
      if step.ReadLock? { FewRegistered(s, s.pubs[step.p].phase.event.topic); }
      PubSpends(s, step);
      hide Next, Enabled, RegistryExact, PubAfter, PubWork;
    } else {
      PubMoves(s, step, 0);
      hide Next, RegistryExact, SubAfter, SubWork, PubAfter, PubWork;
      if LockStep(step) {
        LockSpends(s, step);
      } else {
        CallerSpends(s, step);
      }
      hide Enabled;
    }
  }

  lemma PubStepWeights(s: State, step: Step)
    requires Enabled(s, step) && (step.ReadLock? || step.ReadUnlock? || step.Send?)
    requires |Next(s, step).subs| == |s.subs| && |Next(s, step).pubs| == |s.pubs|
    ensures Sum(PubWeights(Next(s, step))) + PubWork(s.pubs[step.p], |s.subs|)
            == Sum(PubWeights(s)) + PubWork(Next(s, step).pubs[step.p], |s.subs|)
    ensures !step.Send? ==> SubWeights(Next(s, step)) == SubWeights(s)
  {
    SumChange(PubWeights(s), PubWeights(Next(s, step)), step.p);
  }

  lemma SubStepWeights(s: State, step: Step)
    requires Enabled(s, step) && !Demand(step) && !step.ReadLock? && !step.ReadUnlock?
    requires |Next(s, step).subs| == |s.subs| && |Next(s, step).pubs| == |s.pubs|
    ensures Sum(SubWeights(Next(s, step))) + SubWork(s.subs[step.c])
            == Sum(SubWeights(s)) + SubWork(Next(s, step).subs[step.c])
    ensures !step.Send? ==> PubWeights(Next(s, step)) == PubWeights(s)
  {
    SumChange(SubWeights(s), SubWeights(Next(s, step)), step.c);
  }

  /** Every step that is not new demand strictly decreases the measure. */
  lemma StepDecreasesMeasure(s: State, step: Step)
    requires Inv(s) && Enabled(s, step) && !Demand(step)
    ensures Measure(Next(s, step)) < Measure(s)
  {
    StepWork(s, step);
    hide Next, Inv, PubWeights, SubWeights, PubWork, SubWork;
    if step.ReadLock? || step.ReadUnlock? {
      PubStepWeights(s, step);
    } else if step.Send? {
      PubStepWeights(s, step);
      SubStepWeights(s, step);
    } else {
      SubStepWeights(s, step);
    }
  }

  /** A publish, subscribe or unsubscribe under way, or a watcher whose context has ended. */
  predicate PubBusy(pub: Pub) { !pub.phase.Resting? }

  predicate SubBusy(sub: Sub)
  {
    || sub.phase !in {Active, Gone} || sub.watcher.Calling? || sub.handler.Calling?
    || (sub.watcher.Idle? && (sub.cancelled || sub.phase.Gone?))
  }

  ghost predicate Busy(s: State)
  {
    || (exists p :: 0 <= p < |s.pubs| && PubBusy(s.pubs[p]))
    || (exists c :: 0 <= c < |s.subs| && SubBusy(s.subs[c]))
  }

  lemma WriterCanStep(s: State) returns (step: Step)
    requires Inv(s) && s.writer.Some?
    ensures Internal(step) && Enabled(s, step)
  {
    var c := s.writer.value;
    assert HoldsLock(s.subs[c].phase);
    match s.subs[c].phase
    case Making => step := Make(c);
    case Adding => step := Add(c);
    case Removing => step := Remove(c);
    case Pruning => step := Prune(c);
    case _ => step := Unlock(c);
  }

  lemma ReaderCanStep(s: State, p: nat) returns (step: Step)
    requires Inv(s) && p < |s.pubs| && s.pubs[p].phase.Sending?
    ensures Internal(step) && Enabled(s, step)
  {
    assert PubOk(s, p);
    var Sending(e, left) := s.pubs[p].phase;
    if left == {} {
      step := ReadUnlock(p);
    } else {
      var c :| c in left;
      assert InRegistry(s, e.topic, c);
      step := Send(p, c);
    }
  }

  lemma SubCanStep(s: State, c: nat) returns (step: Step)
    requires Inv(s) && s.writer.None? && NoReader(s)
    requires c < |s.subs| && SubBusy(s.subs[c])
    ensures Internal(step) && Enabled(s, step)
  {
    var sub := s.subs[c];
    assert CallersOk(sub) && !HoldsLock(sub.phase);
    if sub.phase in {Waiting, Closing} {
      step := Lock(c);
    } else if sub.phase.Active? {
      step := if sub.watcher.Calling? || sub.handler.Calling? then CloseOnce(c) else WatcherCall(c);
    } else {
      step := if sub.watcher.Calling? then WatcherReturn(c)
              else if sub.handler.Calling? then HandlerReturn(c) else WatcherDone(c);
    }
  }

  /** No deadlock: while anything is pending, some step of the bus itself can be taken. */
  lemma BusCanStep(s: State) returns (step: Step)
    requires Inv(s) && Busy(s)
    ensures Internal(step) && Enabled(s, step)
  {
    if s.writer.Some? {
      step := WriterCanStep(s);
    } else if p :| 0 <= p < |s.pubs| && s.pubs[p].phase.Sending? {
      step := ReaderCanStep(s, p);
    } else if p :| 0 <= p < |s.pubs| && PubBusy(s.pubs[p]) {
      step := ReadLock(p);
    } else {
      var c :| 0 <= c < |s.subs| && SubBusy(s.subs[c]);
      step := SubCanStep(s, c);
    }
  }

  ghost predicate AllInternal(steps: seq<Step>)
  {
    forall i :: 0 <= i < |steps| ==> Internal(steps[i])
  }

  /** However the steps interleave, work without new demand ends within the measure. */
  lemma {:induction false} WorkIsBounded(s: State, steps: seq<Step>)
    requires Inv(s) && Valid(s, steps)
    requires forall i :: 0 <= i < |steps| ==> !Demand(steps[i])
    ensures |steps| + Measure(Run(s, steps)) <= Measure(s)
    decreases |steps|
  {
    if steps != [] {
      StepDecreasesMeasure(s, steps[0]);
      StepKeepsInv(s, steps[0]);
      WorkIsBounded(Next(s, steps[0]), steps[1..]);
    }
  }

  /**
   From every state with pending operations the bus by itself reaches one with none, without
   a single event being received: publishes return, subscriptions are in place, unsubscribes
   are done and the watchers of ended contexts have exited.
   */
  lemma {:induction false} BusDrains(s: State) returns (steps: seq<Step>)
    requires Inv(s)
    ensures AllInternal(steps) && Valid(s, steps) && |steps| <= Measure(s)
    ensures !Busy(Run(s, steps))
    decreases Measure(s)
  {
    if Busy(s) {
      var step := BusCanStep(s);
      StepDecreasesMeasure(s, step);
      StepKeepsInv(s, step);
      var rest := BusDrains(Next(s, step));
      steps := [step] + rest;
      assert steps[1..] == rest;
    } else {
      steps := [];
    }
  }

  /** In a state without pending operations the watcher of an ended or closed subscription is gone. */
  lemma QuietMeansSettled(s: State, c: nat)
    requires Inv(s) && !Busy(s) && c < |s.subs|
    ensures s.subs[c].phase in {Active, Gone}
    ensures s.subs[c].cancelled ==> s.subs[c].phase.Gone? && s.subs[c].watcher.Returned?
    ensures s.subs[c].phase.Gone? ==> s.subs[c].watcher.Returned?
    ensures !s.subs[c].handler.Idle? ==> s.subs[c].handler.Returned? && s.subs[c].phase.Gone?
  {
  }
}
