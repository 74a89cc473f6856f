/**
 The reading side of a `/stream` handler: subscribe, then again and again query the todos,
 query the events and write a snapshot (internal/server/app.go). The two queries are separate
 steps; committed states are numbered in commit order.
 */
module StreamLoop {
  import T = Tables

  /** What the panels are rendered from: the todos and the ten newest events, as the queries returned them. */
  datatype Content = Content(todos: map<string, T.Todo>, events: seq<T.AppEvent>)

  /** What a reader of one committed state would see. */
  ghost function ContentOf(tables: T.Tables): Content { Content(tables.todos, T.ListEvents(tables.events, 10)) }

  /** A written snapshot, the states its two queries saw, and the window its render took. */
  datatype Snap = Snap(begin: nat, todosAt: nat, eventsAt: nat, end: nat, content: Content)

  datatype LoopPhase =
    | Subscribing
    | QueryTodos(begin: nat)
    | QueryEvents(begin: nat, todosAt: nat, todos: map<string, T.Todo>)
    | Writing(begin: nat, todosAt: nat, eventsAt: nat, content: Content)
    | Idle
    | Exited

  datatype Loop = Loop(phase: LoopPhase, shown: seq<Snap>)

  const NEW_LOOP := Loop(Subscribing, [])

  predicate InRound(phase: LoopPhase) { phase.QueryTodos? || phase.QueryEvents? || phase.Writing? }

  /** A round still owed or under way: the initial one counts from the start. */
  function Rounds(loop: Loop): nat
  {
    if loop.phase.Subscribing? || InRound(loop.phase) then 1 else 0
  }

  function BeginRound(loop: Loop, now: nat): Loop { loop.(phase := QueryTodos(now)) }

  /** The first query returned `todos`. */
  function ReadTodos(loop: Loop, now: nat, todos: map<string, T.Todo>): Loop
    requires loop.phase.QueryTodos?
  {
    loop.(phase := QueryEvents(loop.phase.begin, now, todos))
  }

  /** The second query returned `events`. */
  function ReadEvents(loop: Loop, now: nat, events: seq<T.AppEvent>): Loop
    requires loop.phase.QueryEvents?
  {
    loop.(phase := Writing(loop.phase.begin, loop.phase.todosAt, now, Content(loop.phase.todos, events)))
  }

  function Write(loop: Loop, now: nat): Loop
    requires loop.phase.Writing?
  {
    var snap := Snap(loop.phase.begin, loop.phase.todosAt, loop.phase.eventsAt, now, loop.phase.content);
    Loop(Idle, loop.shown + [snap])
  }

  ghost predicate SnapOk(snap: Snap, now: nat)
  {
    snap.begin <= snap.todosAt <= snap.eventsAt <= snap.end <= now
  }

  /** No round begins before every written one has ended. */
  ghost predicate ShownBefore(shown: seq<Snap>, begin: nat)
  {
    forall i :: 0 <= i < |shown| ==> shown[i].end <= begin
  }

  ghost predicate LoopOk(loop: Loop, now: nat)
  {
    && (forall i :: 0 <= i < |loop.shown| ==> SnapOk(loop.shown[i], now))
    && (forall i, j :: 0 <= i < j < |loop.shown| ==> loop.shown[i].end <= loop.shown[j].begin)
    && match loop.phase
       case Subscribing => loop.shown == []
       case QueryTodos(begin) => begin <= now && ShownBefore(loop.shown, begin)
       case QueryEvents(begin, todosAt, _) => begin <= todosAt <= now && ShownBefore(loop.shown, begin)
       case Writing(begin, todosAt, eventsAt, _) =>
         begin <= todosAt <= eventsAt <= now && ShownBefore(loop.shown, begin)
       case Idle => loop.shown != []
       case Exited => true
  }

  /** The stream shows state `now`, or the round it is in will. */
  predicate Fresh(loop: Loop, now: nat)
  {
    match loop.phase
    case Subscribing => true
    case QueryTodos(_) => true
    case QueryEvents(_, todosAt, _) => todosAt == now
    case Writing(_, todosAt, eventsAt, _) => todosAt == now && eventsAt == now
    case Idle =>
      && loop.shown != []
      && loop.shown[|loop.shown| - 1].todosAt == now && loop.shown[|loop.shown| - 1].eventsAt == now
    case Exited => true
  }

  lemma LoopStepsKeepOk(loop: Loop, now: nat, todos: map<string, T.Todo>, events: seq<T.AppEvent>)
    requires LoopOk(loop, now)
    ensures loop.phase.Subscribing? || loop.phase.Idle? ==> LoopOk(BeginRound(loop, now), now)
    ensures loop.phase.QueryTodos? ==> LoopOk(ReadTodos(loop, now, todos), now)
    ensures loop.phase.QueryEvents? ==> LoopOk(ReadEvents(loop, now, events), now)
    ensures loop.phase.Writing? ==> LoopOk(Write(loop, now), now)
    ensures LoopOk(loop.(phase := Exited), now) && LoopOk(loop, now + 1)
  {
  }

  /** A round that saw the newest state at its first query still has it at the second. */
  lemma RoundStaysFresh(loop: Loop, now: nat, todos: map<string, T.Todo>, events: seq<T.AppEvent>)
    requires LoopOk(loop, now)
    ensures loop.phase.Subscribing? || loop.phase.Idle? ==> Fresh(BeginRound(loop, now), now)
    ensures loop.phase.QueryTodos? ==> Fresh(ReadTodos(loop, now, todos), now)
    ensures loop.phase.QueryEvents? ==> (Fresh(ReadEvents(loop, now, events), now) <==> Fresh(loop, now))
    ensures loop.phase.Writing? ==> (Fresh(Write(loop, now), now) <==> Fresh(loop, now))
  {
  }

  // ---- What was read -------------------------------------------------------------------

  /** The todos are those of one committed state, the events the newest of another. */
  ghost predicate ReadAt(content: Content, log: seq<T.Tables>, todosAt: nat, eventsAt: nat)
  {
    && todosAt < |log| && eventsAt < |log|
    && content == Content(log[todosAt].todos, T.ListEvents(log[eventsAt].events, 10))
  }

  ghost predicate ReadsOk(loop: Loop, log: seq<T.Tables>)
  {
    && (forall i :: 0 <= i < |loop.shown| ==>
          ReadAt(loop.shown[i].content, log, loop.shown[i].todosAt, loop.shown[i].eventsAt))
    && match loop.phase
       case QueryEvents(_, todosAt, todos) => todosAt < |log| && todos == log[todosAt].todos
       case Writing(_, todosAt, eventsAt, content) => ReadAt(content, log, todosAt, eventsAt)
       case _ => true
  }

  /** Each query stores what the newest state holds; later commits change nothing about it. */
  lemma LoopStepsKeepReads(loop: Loop, log: seq<T.Tables>, tables: T.Tables, now: nat)
    requires ReadsOk(loop, log) && log != []
    ensures ReadsOk(BeginRound(loop, now), log)
    ensures loop.phase.QueryTodos? ==> ReadsOk(ReadTodos(loop, |log| - 1, log[|log| - 1].todos), log)
    ensures loop.phase.QueryEvents? ==>
              ReadsOk(ReadEvents(loop, |log| - 1, T.ListEvents(log[|log| - 1].events, 10)), log)
    ensures loop.phase.Writing? ==> ReadsOk(Write(loop, now), log)
    ensures ReadsOk(loop.(phase := Exited), log) && ReadsOk(loop, log + [tables])
  {
    hide T.ListEvents;
    assert forall at :: 0 <= at < |log| ==> (log + [tables])[at] == log[at];
  }

  /**
   Snapshots never go backwards: both parts are non-decreasing from one snapshot to any later
   one, within one snapshot the todos are no newer than the events, and both lie inside the
   window of its render.
   */
  lemma SnapshotsMonotone(loop: Loop, now: nat, i: nat, j: nat)
    requires LoopOk(loop, now) && i < j < |loop.shown|
    ensures loop.shown[i].todosAt <= loop.shown[j].todosAt
    ensures loop.shown[i].eventsAt <= loop.shown[j].eventsAt
    ensures loop.shown[j].begin <= loop.shown[j].todosAt <= loop.shown[j].eventsAt <= loop.shown[j].end <= now
  {
  }
}
