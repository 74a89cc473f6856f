/** What follows for whole runs of module LiveUpdate. */
module LiveConvergence {
  import opened Bus
  import opened StreamLoop
  import opened LiveUpdate
  import opened BusProgress

  ghost predicate AppValid(s: App, steps: seq<AppStep>)
    decreases |steps|
  {
    steps != [] ==> AppEnabled(s, steps[0]) && AppValid(AppNext(s, steps[0]), steps[1..])
  }

  ghost function AppRun(s: App, steps: seq<AppStep>): App
    requires AppValid(s, steps)
    decreases |steps|
  {
    if steps == [] then s else AppRun(AppNext(s, steps[0]), steps[1..])
  }

  lemma {:induction false} AppRunKeepsInv(s: App, steps: seq<AppStep>)
    requires AppInv(s) && AppValid(s, steps)
    ensures AppInv(AppRun(s, steps))
    decreases |steps|
  {
    if steps != [] {
      AppStepKeepsInv(s, steps[0]);
      AppRunKeepsInv(AppNext(s, steps[0]), steps[1..]);
    }
  }

  // ---- Convergence ---------------------------------------------------------------------

  /** The stored todos and the ten newest stored events. */
  ghost function Current(s: App): Content
    requires s.log != []
  {
    ContentOf(s.log[Now(s)])
  }

  predicate HasShown(s: App, c: nat) { c < |s.loops| && s.loops[c].shown != [] }

  function LastShown(s: App, c: nat): Content
    requires HasShown(s, c)
  {
    s.loops[c].shown[|s.loops[c].shown| - 1].content
  }

  /** A reachable state of the server: whatever ran before, the invariant holds. */
  lemma ReachableInv(start: App, steps: seq<AppStep>)
    requires AppStart(start) && AppValid(start, steps)
    ensures AppInv(AppRun(start, steps))
  {
    StartInv(start);
    AppRunKeepsInv(start, steps);
  }

  lemma StartInv(start: App)
    requires AppStart(start)
    ensures AppInv(start)
  {
  }

  /**
   In every reachable state: a live stream that does not show the current data has a
   publisher that has not visited it yet, a wake-up in its channel, or a round under way
   whose remaining queries return the current data.
   */
  lemma StaleHasCause(s: App, c: nat)
    requires AppInv(s) && HasShown(s, c) && Live(s, c)
    requires LastShown(s, c) != Current(s)
    ensures || WakeUpComing(s.bus, c)
            || (InRound(s.loops[c].phase) && Fresh(s.loops[c], Now(s)))
  {
    assert StreamOk(s, c);
  }

  /**
   With no publish pending for it, its channel empty and its loop idle, a live stream shows
   exactly the current todos and the ten newest events, however many wake-ups were dropped.
   */
  lemma Convergence(s: App, c: nat)
    requires AppInv(s) && Live(s, c)
    requires s.loops[c].phase.Idle? && s.bus.subs[c].queue == []
    requires forall p :: 0 <= p < |s.bus.pubs| ==> !Owes(s.bus.pubs[p], c)
    ensures HasShown(s, c) && LastShown(s, c) == Current(s)
  {
    assert StreamOk(s, c);
  }

  /**
   The snapshots of a stream never go backwards: each shows the todos of one committed state
   and the ten newest events of another, no newer in the todos than in the events, both within
   the window of its render, and no older than the same part of any snapshot before.
   */
  lemma SnapshotsNeverGoBack(start: App, steps: seq<AppStep>, c: nat, i: nat, j: nat)
    requires AppStart(start) && AppValid(start, steps)
    requires var s := AppRun(start, steps); c < |s.loops| && i < j < |s.loops[c].shown|
    ensures var s := AppRun(start, steps);
            var a, b := s.loops[c].shown[i], s.loops[c].shown[j];
            && a.todosAt <= b.todosAt && a.eventsAt <= b.eventsAt
            && a.todosAt <= a.eventsAt && b.begin <= b.todosAt <= b.eventsAt <= b.end < |s.log|
            && a.content.todos == s.log[a.todosAt].todos && b.content.todos == s.log[b.todosAt].todos
            && T.NewestRows(s.log[a.eventsAt].events, 10, a.content.events)
            && T.NewestRows(s.log[b.eventsAt].events, 10, b.content.events)
  {
    ReachableInv(start, steps);
    var s := AppRun(start, steps);
    assert StreamOk(s, c);
    hide AppInv, AppRun, AppValid, T.ListEvents, T.NewestRows;
    SnapshotsMonotone(s.loops[c], Now(s), i, j);
    T.ListedRows(s.log[s.loops[c].shown[i].eventsAt].events, 10);
    T.ListedRows(s.log[s.loops[c].shown[j].eventsAt].events, 10);
  }

  // ---- How much rereading a commit can still cause -------------------------------------

  function Owing(pubs: seq<Pub>, c: nat): seq<nat>
  {
    seq(|pubs|, p requires 0 <= p < |pubs| => if Owes(pubs[p], c) then 1 else 0)
  }

  /** Queued wake-ups, publishers that have not visited the stream, and its round. */
  function Pending(s: App, c: nat): nat
    requires InPhase(s, c)
  {
    |s.bus.subs[c].queue| + Sum(Owing(s.bus.pubs, c)) + Rounds(s.loops[c])
  }

  /** One publisher's debt to a channel, before and after a step. */
  lemma DebtMoves(bus: State, step: Step, c: nat, p: nat)
    requires Enabled(bus, step) && p < |bus.pubs| && !step.BeginPublish?
    ensures p < |Next(bus, step).pubs|
    ensures Owes(Next(bus, step).pubs[p], c) ==> Owes(bus.pubs[p], c)
    ensures step == Send(p, c) ==> Owes(bus.pubs[p], c) && !Owes(Next(bus, step).pubs[p], c)
  {
    PubMoves(bus, step, p);
    hide Next;
  }

  lemma {:induction false} SumShrinks(a: seq<nat>, b: seq<nat>)
    requires |a| == |b| && forall i :: 0 <= i < |a| ==> b[i] <= a[i]
    ensures Sum(b) <= Sum(a)
    ensures (exists i :: 0 <= i < |a| && b[i] < a[i]) ==> Sum(b) < Sum(a)
  {
    if a != [] {
      assert forall i :: 1 <= i < |a| ==> a[i] == a[1..][i - 1] && b[i] == b[1..][i - 1];
      SumShrinks(a[1..], b[1..]);
    }
  }

  /** Debts only shrink, and a visit to the channel settles one. */
  lemma DebtsShrink(bus: State, step: Step, c: nat)
    requires Enabled(bus, step) && !step.BeginPublish?
    ensures Sum(Owing(Next(bus, step).pubs, c)) + (if step.Send? && step.c == c then 1 else 0)
            <= Sum(Owing(bus.pubs, c))
  {
    var t, n := Next(bus, step), |bus.pubs|;
    forall p: nat | p < n
      ensures p < |t.pubs| && (Owes(t.pubs[p], c) ==> Owes(bus.pubs[p], c))
      ensures step == Send(p, c) ==> Owes(bus.pubs[p], c) && !Owes(t.pubs[p], c)
    {
      DebtMoves(bus, step, c, p);
    }
    PubMoves(bus, step, n);
    var a, b := Owing(bus.pubs, c), Owing(t.pubs, c);
    var first := Owing(t.pubs[..n], c);
    SenderExists(bus, step);
    hide Next, Enabled;
    assert step.Send? && step.c == c ==> first[step.p] < a[step.p];
    hide Owes;
    SumShrinks(a, first);
    if step.NewPublisher? {
      SumSnoc(first, 0);
      assert b == first + [0];
    } else {
      assert t.pubs[..n] == t.pubs;
    }
  }

  lemma SenderExists(bus: State, step: Step)
    requires Enabled(bus, step)
    ensures step.Send? ==> step.p < |bus.pubs|
  {
  }

  lemma QueueMoves(bus: State, step: Step, c: nat)
    requires Enabled(bus, step) && c < |bus.subs|
    ensures c < |Next(bus, step).subs|
    ensures |Next(bus, step).subs[c].queue| + (if step == Receive(c) then 1 else 0)
            <= |bus.subs[c].queue| + if step.Send? && step.c == c then 1 else 0
  {
    SubMoves(bus, step, c);
    hide Next;
  }

  lemma PublishersCalm(bus: State, step: Step, c: nat)
    requires Enabled(bus, step) && !step.BeginPublish? && c < |bus.subs|
    ensures c < |Next(bus, step).subs|
    ensures |Next(bus, step).subs[c].queue| + Sum(Owing(Next(bus, step).pubs, c))
            + (if step == Receive(c) then 1 else 0)
            <= |bus.subs[c].queue| + Sum(Owing(bus.pubs, c))
  {
    hide Next, Enabled;
    DebtsShrink(bus, step, c);
    QueueMoves(bus, step, c);
  }

  lemma StepSpendsPending(s: App, step: AppStep, c: nat)
    requires AppInv(s) && AppEnabled(s, step) && !step.Commit? && InPhase(s, c)
    ensures InPhase(AppNext(s, step), c)
    ensures |AppNext(s, step).loops[c].shown| + Pending(AppNext(s, step), c)
            <= |s.loops[c].shown| + Pending(s, c)
  {
    BusPart(s, step);
    LoopMoves(s, step, c);
    KeepsCounts(s, step, c);
    if HasInner(step) {
      InnerKinds(s, step, c);
      NoPublication(s, step);
      hide AppNext, AppEnabled, Next, Enabled, AppInv;
      PublishersCalm(s.bus, Inner(step), c);
    } else {
      hide AppNext, AppEnabled, Next, Enabled, AppInv;
    }
  }

  lemma NoPublication(s: App, step: AppStep)
    requires AppEnabled(s, step) && !step.Commit? && HasInner(step)
    ensures !Inner(step).BeginPublish?
  {
  }

  /** After the last commit a stream writes at most as many snapshots as are pending for it. */
  lemma {:induction false} RereadsBounded(s: App, steps: seq<AppStep>, c: nat)
    requires AppInv(s) && AppValid(s, steps) && InPhase(s, c)
    requires forall i :: 0 <= i < |steps| ==> !steps[i].Commit?
    ensures InPhase(AppRun(s, steps), c)
    ensures |AppRun(s, steps).loops[c].shown| <= |s.loops[c].shown| + Pending(s, c)
    ensures Pending(s, c) <= 16 + Sum(Owing(s.bus.pubs, c)) + 1
    decreases |steps|
  {
    assert SentOk(s.bus, c);
    if steps != [] {
      StepSpendsPending(s, steps[0], c);
      AppStepKeepsInv(s, steps[0]);
      RereadsBounded(AppNext(s, steps[0]), steps[1..], c);
    }
  }

  /** In every reachable state a stream has written at most one snapshot more than it was sent wake-ups. */
  lemma OneSnapshotPerWakeUp(s: App, c: nat)
    requires AppInv(s) && c < |s.loops|
    ensures |s.loops[c].shown| <= 1 + |s.bus.subs[c].sent|
  {
    assert StreamOk(s, c) && SentOk(s.bus, c);
  }

  // ---- Termination of the work ---------------------------------------------------------

  function LoopWork(phase: LoopPhase): nat
  {
    match phase
    case Subscribing => 4 case QueryTodos(_) => 3 case QueryEvents(_, _, _) => 2 case Writing(_, _, _, _) => 1
    case _ => 0
  }

  function LoopWeights(s: App): seq<nat>
  {
    seq(|s.loops|, c requires 0 <= c < |s.loops| => LoopWork(s.loops[c].phase))
  }

  function AppMeasure(s: App): nat { Measure(s.bus) + Sum(LoopWeights(s)) }

  /** Everything but new mutations, new browsers, ended contexts and heartbeats. */
  predicate Work(step: AppStep)
  {
    match step
    case Commit(_, _, _) => false
    case Open => false
    case Beat(_) => false
    case BusStep(step) => Internal(step)
    case _ => true
  }

  lemma WorkDecreasesMeasure(s: App, step: AppStep)
    requires AppInv(s) && AppEnabled(s, step) && Work(step)
    ensures AppMeasure(AppNext(s, step)) < AppMeasure(s)
  {
    BusPart(s, step);
    LoopPart(s, step);
    if !step.BusStep? { LoopSpends(s, step); }
    assert Inv(s.bus);
    if HasInner(step) { InnerIsWork(s, step); }
    hide AppNext, AppEnabled, Next, Enabled, AppInv, Inv, Measure, LoopWork, LoopAfter, LoopWeights;
    if step.Wake? {
      ReceiveFreesFour(s.bus, step.c);
    } else if HasInner(step) {
      StepDecreasesMeasure(s.bus, Inner(step));
    }
  }

  lemma InnerIsWork(s: App, step: AppStep)
    requires AppEnabled(s, step) && Work(step) && HasInner(step)
    ensures !Demand(Inner(step))
  {
  }

  /** The loop whose turn it is moves; the others do not. */
  lemma LoopPart(s: App, step: AppStep)
    requires AppEnabled(s, step) && Work(step)
    ensures step.BusStep? ==> LoopWeights(AppNext(s, step)) == LoopWeights(s)
    ensures !step.BusStep? ==>
              && step.c < |s.loops|
              && Sum(LoopWeights(AppNext(s, step))) + LoopWork(s.loops[step.c].phase)
                 == Sum(LoopWeights(s)) + LoopWork(LoopAfter(s, step, step.c).phase)
  {
    var t := AppNext(s, step);
    forall c: nat | c < |s.loops|
      ensures |t.loops| == |s.loops| && t.loops[c] == LoopAfter(s, step, c)
      ensures step.BusStep? || c != step.c ==> t.loops[c] == s.loops[c]
    {
      LoopMoves(s, step, c);
    }
    LoopMoves(s, step, 0);
    hide AppNext, LoopAfter, LoopWork;
    if !step.BusStep? {
      SumChange(LoopWeights(s), LoopWeights(t), step.c);
    }
  }

  lemma LoopSpends(s: App, step: AppStep)
    requires AppEnabled(s, step) && Work(step) && !step.BusStep?
    ensures step.c < |s.loops|
    ensures LoopWork(LoopAfter(s, step, step.c).phase) < LoopWork(s.loops[step.c].phase) +
              if step.Wake? then 4 else if step.Exit? then 1 else 0
  {
  }

  lemma ReceiveFreesFour(bus: State, c: nat)
    requires Inv(bus) && Enabled(bus, Receive(c))
    ensures Measure(Next(bus, Receive(c))) + 4 == Measure(bus)
  {
    var t := Next(bus, Receive(c));
    SumChange(SubWeights(bus), SubWeights(t), c);
    assert PubWeights(t) == PubWeights(bus);
  }

  predicate LoopBusy(s: App, c: nat)
    requires InPhase(s, c)
  {
    !s.loops[c].phase.Exited? && (!s.loops[c].phase.Idle? || s.bus.subs[c].queue != [])
  }

  ghost predicate Settled(s: App)
  {
    !Busy(s.bus) && forall c: nat :: InPhase(s, c) ==> !LoopBusy(s, c)
  }

  /** No deadlock: until everything is settled, some step other than an exit can be taken. */
  lemma AppCanStep(s: App) returns (step: AppStep)
    requires AppInv(s) && !Settled(s)
    ensures Work(step) && !step.Exit? && AppEnabled(s, step)
  {
    if Busy(s.bus) {
      var inner := BusCanStep(s.bus);
      step := BusStep(inner);
    } else {
      var c: nat :| InPhase(s, c) && LoopBusy(s, c);
      QuietMeansSettled(s.bus, c);
      match s.loops[c].phase
      case Subscribing => step := Cycle(c);
      case QueryTodos(_) => step := TodosQuery(c);
      case QueryEvents(_, _, _) => step := EventsQuery(c);
      case Writing(_, _, _, _) => step := WriteSnapshot(c);
      case Idle => step := Wake(c);
    }
  }

  /** However the work interleaves, it ends within the measure. */
  lemma {:induction false} AppWorkBounded(s: App, steps: seq<AppStep>)
    requires AppInv(s) && AppValid(s, steps)
    requires forall i :: 0 <= i < |steps| ==> Work(steps[i])
    ensures |steps| + AppMeasure(AppRun(s, steps)) <= AppMeasure(s)
    decreases |steps|
  {
    if steps != [] {
      WorkDecreasesMeasure(s, steps[0]);
      AppStepKeepsInv(s, steps[0]);
      AppWorkBounded(AppNext(s, steps[0]), steps[1..]);
    }
  }

  lemma SettledMeansCurrent(s: App, c: nat)
    requires AppInv(s) && Settled(s) && Live(s, c)
    ensures HasShown(s, c) && LastShown(s, c) == Current(s)
  {
    forall p | 0 <= p < |s.bus.pubs| ensures !Owes(s.bus.pubs[p], c) {
      assert !PubBusy(s.bus.pubs[p]);
    }
    Convergence(s, c);
  }

  /**
   From every state, without any further mutation, the work that is left leads within the
   measure to a state in which every live stream shows the data as the last commit left it.
   */
  lemma {:induction false} EventuallyCurrent(s: App) returns (steps: seq<AppStep>)
    requires AppInv(s)
    ensures AppValid(s, steps) && |steps| <= AppMeasure(s)
    ensures forall i :: 0 <= i < |steps| ==> Work(steps[i]) && !steps[i].Exit?
    ensures var t := AppRun(s, steps);
            && t.log == s.log && AppInv(t)
            && (forall c: nat :: Live(s, c) ==> Live(t, c))
            && forall c: nat :: Live(t, c) ==> HasShown(t, c) && LastShown(t, c) == Current(t)
    decreases AppMeasure(s)
  {
    assert s.log != [];
    hide AppNext, AppEnabled, AppInv, AppMeasure, Live, HasShown, LastShown, Current;
    if Settled(s) {
      steps := [];
      forall c: nat | Live(s, c) ensures HasShown(s, c) && LastShown(s, c) == Current(s) {
        SettledMeansCurrent(s, c);
      }
    } else {
      var step := AppCanStep(s);
      WorkDecreasesMeasure(s, step);
      AppStepKeepsInv(s, step);
      LogStays(s, step);
      var rest := EventuallyCurrent(AppNext(s, step));
      steps := [step] + rest;
      assert steps[1..] == rest;
      forall c: nat | Live(s, c) ensures Live(AppNext(s, step), c) {
        WorkKeepsLive(s, step, c);
      }
    }
  }

  lemma LogStays(s: App, step: AppStep)
    requires AppEnabled(s, step) && Work(step)
    ensures AppNext(s, step).log == s.log
  {
  }

  lemma WorkKeepsLive(s: App, step: AppStep, c: nat)
    requires AppInv(s) && AppEnabled(s, step) && Work(step) && !step.Exit? && Live(s, c)
    ensures Live(AppNext(s, step), c)
  {
    LiveUntilEnded(s, step, c);
  }

  // ---- Every schedule ------------------------------------------------------------------

  /** Nothing is left that can be done, except for handlers to exit. */
  ghost predicate Exhausted(s: App)
  {
    forall step :: Work(step) && !step.Exit? ==> !AppEnabled(s, step)
  }

  /** Wherever the work has come to its end, every live stream is up to date. */
  lemma ExhaustedMeansCurrent(s: App, c: nat)
    requires AppInv(s) && Exhausted(s) && Live(s, c)
    ensures HasShown(s, c) && LastShown(s, c) == Current(s)
  {
    hide Work, AppEnabled, AppInv, Live, Settled, HasShown, LastShown, Current;
    if !Settled(s) {
      var step := AppCanStep(s);
    }
    SettledMeansCurrent(s, c);
  }

  /**
   Nothing is left behind: wherever the work has come to its end, the registry holds exactly
   the channels of the live streams.
   */
  lemma OnlyLiveRegistered(s: App, c: nat)
    requires AppInv(s) && Exhausted(s)
    ensures InRegistry(s.bus, TOPIC, c) <==> Live(s, c)
  {
    hide Work, AppEnabled, AppInv, Live, Settled;
    if !Settled(s) {
      var step := AppCanStep(s);
    }
    SettledRegistered(s, c);
  }

  lemma SettledRegistered(s: App, c: nat)
    requires AppInv(s) && Settled(s)
    ensures InRegistry(s.bus, TOPIC, c) <==> Live(s, c)
  {
    assert Inv(s.bus) && RegistryExact(s.bus);
    if c < |s.loops| {
      assert StreamOk(s, c);
      QuietMeansSettled(s.bus, c);
      assert InRegistry(s.bus, TOPIC, c) <==> s.bus.subs[c].topic == TOPIC && Listed(s.bus.subs[c].phase);
    }
    hide Inv, AppInv;
  }

  lemma {:induction false} WorkRun(s: App, steps: seq<AppStep>, c: nat)
    requires AppInv(s) && AppValid(s, steps)
    requires forall i :: 0 <= i < |steps| ==> Work(steps[i])
    ensures AppRun(s, steps).log == s.log
    ensures Live(s, c) && (forall i :: 0 <= i < |steps| ==> !steps[i].Exit?) ==> Live(AppRun(s, steps), c)
    decreases |steps|
  {
    hide AppNext, AppEnabled, AppInv, Live, Work;
    if steps != [] {
      LogStays(s, steps[0]);
      AppStepKeepsInv(s, steps[0]);
      if Live(s, c) && !steps[0].Exit? {
        WorkKeepsLive(s, steps[0], c);
      }
      WorkRun(AppNext(s, steps[0]), steps[1..], c);
    }
  }

  /**
   Whatever the schedule: without any further mutation, work that is done until none is left
   takes no more steps than the measure, and then every live stream shows the data as the last
   commit left it. Only streams whose handler exits meanwhile are not live any more.
   */
  lemma EveryScheduleArrives(s: App, steps: seq<AppStep>)
    requires AppInv(s) && AppValid(s, steps) && Exhausted(AppRun(s, steps))
    requires forall i :: 0 <= i < |steps| ==> Work(steps[i])
    ensures |steps| <= AppMeasure(s)
    ensures var t := AppRun(s, steps);
            && t.log == s.log
            && (forall c: nat :: Live(t, c) ==> HasShown(t, c) && LastShown(t, c) == Current(t))
            && ((forall i :: 0 <= i < |steps| ==> !steps[i].Exit?) ==> forall c: nat :: Live(s, c) ==> Live(t, c))
  {
    assert s.log != [];
    hide AppNext, AppEnabled, AppInv, AppMeasure, Live, Work, HasShown, LastShown, Current, Exhausted;
    AppWorkBounded(s, steps);
    AppRunKeepsInv(s, steps);
    WorkRun(s, steps, 0);
    forall c: nat ensures Live(AppRun(s, steps), c) ==>
        HasShown(AppRun(s, steps), c) && LastShown(AppRun(s, steps), c) == Current(AppRun(s, steps)) {
      if Live(AppRun(s, steps), c) { ExhaustedMeansCurrent(AppRun(s, steps), c); }
    }
    if forall i :: 0 <= i < |steps| ==> !steps[i].Exit? {
      forall c: nat | Live(s, c) ensures Live(AppRun(s, steps), c) {
        WorkRun(s, steps, c);
      }
    }
  }
}
