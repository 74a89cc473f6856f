/** What the events table says about the number of todos and about the jobs. */
module Ledger {
  import opened Options
  import opened Tables
  import opened Effects
  import opened AuditLog

  // ---- Conservation of todos -----------------------------------------------------------

  /** created events + the N of seed events - deleted events, over the ids below a bound. */
  function Net(events: map<nat, AppEvent>, below: nat): int
  {
    if below == 0 then 0
    else Net(events, below - 1) + if below - 1 in events then Delta(events[below - 1]) else 0
  }

  lemma {:induction false} NetInsert(events: map<nat, AppEvent>, e: nat, row: AppEvent, below: nat)
    requires e !in events
    ensures Net(events[e := row], below) == Net(events, below) + if e < below then Delta(row) else 0
  {
    if below > 0 {
      NetInsert(events, e, row, below - 1);
    }
  }

  /** How many rows a write set adds. */
  lemma WritesSize(todos: map<string, Todo>, w: Writes)
    requires w.put.Keys !! todos.Keys || w.put.Keys <= todos.Keys
    requires w.del <= todos.Keys && w.del !! w.put.Keys
    ensures |(todos - w.del) + w.put| == |todos| - |w.del| + if w.put.Keys <= todos.Keys then 0 else |w.put|
  {
    assert ((todos - w.del) + w.put).Keys == (todos.Keys - w.del) + w.put.Keys;
    SetSizes(todos.Keys, w.put.Keys, w.del);
  }

  lemma SetSizes(all: set<string>, put: set<string>, del: set<string>)
    requires put !! all || put <= all
    requires del <= all && del !! put
    ensures |(all - del) + put| == |all| - |del| + if put <= all then 0 else |put|
  {
    assert |all - del| == |all| - |del|;
    if put <= all {
      assert (all - del) + put == all - del;
    } else {
      assert (all - del) !! put;
    }
  }

  lemma RequestDelta(tx: Tx)
    ensures Delta(EventOf(tx)) == match tx.request
                                  case Create(_) => 1
                                  case Delete(_) => -1
                                  case Seed => tx.count
                                  case _ => 0
  {
    match tx.request
    case Create(_) => TodoEventDecodes(Created, tx.row.body);
    case Toggle(_) => TodoEventDecodes(if tx.row.done then MarkedDone else MarkedOpen, tx.row.body);
    case Delete(_) => TodoEventDecodes(Deleted, tx.row.body);
    case Seed => SeedEventDecodes(tx.count);
    case Enqueue => OtherEventsChangeNothing(tx.job, "", "");
    case Pulse(bus) => OtherEventsChangeNothing(0, "", bus);
    case Process(job, report) => OtherEventsChangeNothing(job, report, "");
  }

  /** A commit changes the number of todos by what its event row announces. */
  lemma CommitSize(s: Db, i: nat)
    requires DbEnabled(s, Commit(i)) && TxOk(s, s.txs[i])
    ensures |DbNext(s, Commit(i)).tables.todos| == |s.tables.todos| + Delta(EventOf(s.txs[i]))
  {
    var tx := s.txs[i];
    RequestDelta(tx);
    RequestWrites(s, tx);
    hide EventOf, Delta, TxOk;
    WritesSize(s.tables.todos, tx.writes);
  }

  /** The rows a logged transaction adds are new and those it changes or removes are there. */
  lemma RequestWrites(s: Db, tx: Tx)
    requires TxOk(s, tx) && tx.stage.Logged?
    ensures var todos, w := s.tables.todos, tx.writes;
            && (tx.request.Create? || tx.request.Seed? ==>
                  w.put.Keys !! todos.Keys && w.del == {} && |w.put| == if tx.request.Seed? then tx.count else 1)
            && (tx.request.Toggle? ==> w.put.Keys <= todos.Keys && w.del == {})
            && (tx.request.Delete? ==> w.put == map[] && w.del <= todos.Keys && |w.del| == 1)
            && (tx.request.Enqueue? || tx.request.Pulse? || tx.request.Process? ==> w.put == map[] && w.del == {})
  {
    hide EventOf;
  }

  ghost predicate Balanced(s: Db, initial: nat)
  {
    |s.tables.todos| == initial + Net(s.tables.events, s.nextEvent)
  }

  lemma CommitKeepsBalance(s: Db, i: nat, initial: nat)
    requires DbEnabled(s, Commit(i)) && TxOk(s, s.txs[i]) && Balanced(s, initial)
    ensures Balanced(DbNext(s, Commit(i)), initial)
  {
    CommitSize(s, i);
    CommittedEvents(s, i);
    assert DbNext(s, Commit(i)).nextEvent == s.nextEvent;
    assert s.txs[i].event < s.nextEvent && s.txs[i].event !in s.tables.events;
    hide DbNext, Delta, EventOf, TxOk;
    NetInsert(s.tables.events, s.txs[i].event, EventOf(s.txs[i]), s.nextEvent);
  }

  /** An event id that is taken but not stored announces nothing. */
  lemma OthersKeepBalance(s: Db, step: DbStep, initial: nat)
    requires IdsOk(s) && DbEnabled(s, step) && !step.Commit? && Balanced(s, initial)
    ensures Balanced(DbNext(s, step), initial)
  {
    var t := DbNext(s, step);
    assert t.tables == s.tables && (t.nextEvent == s.nextEvent || t.nextEvent == s.nextEvent + 1);
    assert s.nextEvent !in s.tables.events;
    hide DbNext, Delta, IdsOk;
  }

  lemma StepKeepsBalance(s: Db, step: DbStep, initial: nat)
    requires DbInv(s) && DbEnabled(s, step) && Balanced(s, initial)
    ensures Balanced(DbNext(s, step), initial)
  {
    hide DbNext, Balanced, TxOk;
    if step.Commit? {
      CommitKeepsBalance(s, step.i, initial);
    } else {
      OthersKeepBalance(s, step, initial);
    }
  }

  lemma {:induction false} RunKeepsBalance(s: Db, steps: seq<DbStep>, initial: nat)
    requires DbInv(s) && DbValid(s, steps) && Balanced(s, initial)
    ensures Balanced(DbRun(s, steps), initial)
    decreases |steps|
  {
    if steps != [] {
      DbStepKeepsInv(s, steps[0]);
      StepKeepsBalance(s, steps[0], initial);
      RunKeepsBalance(DbNext(s, steps[0]), steps[1..], initial);
    }
  }

  lemma StartBalance(start: Db)
    requires Start(start)
    ensures Balanced(start, |start.tables.todos|)
  {
    var first := AppEvent("seed", "Database initialized by Goose migration");
    assert first.body[0] == 'D';
    assert Delta(first) == 0;
    assert Net(start.tables.events, 1) == 0;
  }

  /**
   In every reachable state, under any interleaving and any rollbacks, the number of todos is
   the number of initial rows plus what the stored event rows decode to.
   */
  lemma Conservation(start: Db, steps: seq<DbStep>)
    requires Start(start) && DbValid(start, steps)
    ensures var s := DbRun(start, steps);
            |s.tables.todos| == |start.tables.todos| + Net(s.tables.events, s.nextEvent)
  {
    StartInv(start);
    StartBalance(start);
    RunKeepsBalance(start, steps, |start.tables.todos|);
  }

  // ---- Jobs ----------------------------------------------------------------------------

  /** Row `e` says that `job` was queued. */
  ghost predicate IsEnqueued(events: map<nat, AppEvent>, job: nat, e: nat)
  {
    e in events && DecodeEnqueued(events[e]) == Some(job)
  }

  /** Row `e` says that `job` was processed. */
  ghost predicate IsProcessed(events: map<nat, AppEvent>, job: nat, e: nat)
  {
    e in events && DecodeProcessed(events[e]).Some? && DecodeProcessed(events[e]).value.0 == job
  }

  ghost predicate JobOk(s: Db, tx: Tx)
  {
    tx.request.Process? ==>
      && (InFlight(tx) ==> tx.request.job !in s.finished)
      && (tx.stage.Published? ==> tx.request.job in s.finished)
      && (tx.stage.Logged? || Done(tx) ==>
            exists e: nat :: IsEnqueued(s.tables.events, tx.request.job, e) && e < tx.event)
  }

  ghost predicate OneRun(a: Tx, b: Tx)
  {
    a.request.Process? && b.request.Process? && a.request.job == b.request.job ==>
      !(InFlight(a) && InFlight(b)) && !(Done(a) && Done(b))
  }

  ghost predicate JobInv(s: Db)
  {
    && (forall job :: job in s.tables.jobs <==> WasEnqueued(s.tables.events, job))
    && (forall i :: 0 <= i < |s.txs| ==> JobOk(s, s.txs[i]))
    && (forall i, j :: 0 <= i < j < |s.txs| ==> OneRun(s.txs[i], s.txs[j]))
  }

  ghost predicate WasEnqueued(events: map<nat, AppEvent>, job: nat) { exists e :: IsEnqueued(events, job, e) }

  lemma InsertedRow(events: map<nat, AppEvent>, e: nat, row: AppEvent, job: nat)
    requires e !in events
    ensures WasEnqueued(events[e := row], job) <==> WasEnqueued(events, job) || DecodeEnqueued(row) == Some(job)
  {
    var after := events[e := row];
    hide DecodeEnqueued;
    if DecodeEnqueued(row) == Some(job) {
      assert IsEnqueued(after, job, e);
    }
    if WasEnqueued(events, job) {
      var k :| IsEnqueued(events, job, k);
      assert IsEnqueued(after, job, k);
    }
    if WasEnqueued(after, job) {
      var k :| IsEnqueued(after, job, k);
      if k != e {
        assert IsEnqueued(events, job, k);
      }
    }
  }

  /** A committed job row comes with its "enqueued" event, and with nothing else's. */
  lemma CommitKeepsJobRows(s: Db, i: nat, job: nat)
    requires DbEnabled(s, Commit(i)) && TxOk(s, s.txs[i])
    requires job in s.tables.jobs <==> WasEnqueued(s.tables.events, job)
    ensures var t := DbNext(s, Commit(i)); job in t.tables.jobs <==> WasEnqueued(t.tables.events, job)
  {
    var tx := s.txs[i];
    CommittedEvents(s, i);
    InsertedRow(s.tables.events, tx.event, EventOf(tx), job);
    EventNamesJob(tx, job);
    CommittedJobs(s, i, job);
    hide DbNext, EventOf, DecodeEnqueued, WasEnqueued;
  }

  lemma CommittedJobs(s: Db, i: nat, job: nat)
    requires DbEnabled(s, Commit(i)) && TxOk(s, s.txs[i])
    ensures job in DbNext(s, Commit(i)).tables.jobs <==>
              job in s.tables.jobs || (s.txs[i].request.Enqueue? && s.txs[i].job == job)
  {
  }

  /** The event of a request reads as "enqueued" or "processed" exactly if the request did that. */
  lemma EventNamesJob(tx: Tx, job: nat)
    ensures DecodeEnqueued(EventOf(tx)) == Some(job) <==> tx.request.Enqueue? && tx.job == job
    ensures DecodeProcessed(EventOf(tx)) ==
            if tx.request.Process? then Some((tx.request.job, tx.request.report)) else None
  {
    hide DecodeEnqueued, DecodeProcessed;
    match tx.request
    case Enqueue =>
      EnqueuedDecodes(tx.job);
      JobEventsDiffer(tx.job, "");
    case Process(n, report) =>
      ProcessedDecodes(n, report);
      JobEventsDiffer(n, report);
    case _ => OtherKindsNameNoJob(EventOf(tx));
  }

  lemma StepKeepsEnqueued(s: Db, step: DbStep, job: nat, e: nat)
    requires DbEnabled(s, step) && IsEnqueued(s.tables.events, job, e)
    requires step.Commit? ==> TxOk(s, s.txs[step.i])
    ensures IsEnqueued(DbNext(s, step).tables.events, job, e)
  {
    if step.Commit? {
      CommittedEvents(s, step.i);
    }
  }

  lemma StepMovesJob(s: Db, step: DbStep, k: nat)
    requires DbEnabled(s, step) && k < |s.txs|
    ensures var tx, after := s.txs[k], DbNext(s, step).txs[k];
            && after.request == tx.request && (InFlight(after) ==> InFlight(tx))
            && (step == Publish(k) ==> !InFlight(after))
            && (Done(after) <==> Done(tx) || step == Commit(k))
            && (after.stage.Published? <==> tx.stage.Published? || step == Publish(k))
            && (after.stage.Logged? || Done(after) ==>
                  if step == Log(k) then after.event == s.nextEvent && Active(tx)
                  else after.event == tx.event && (tx.stage.Logged? || Done(tx)))
    ensures forall job :: job in DbNext(s, step).finished <==>
              job in s.finished || (step.Publish? && s.txs[step.i].request.Process? && s.txs[step.i].request.job == job)
  {
  }

  lemma StepKeepsJob(s: Db, step: DbStep, k: nat)
    requires IdsOk(s) && DbEnabled(s, step) && k < |s.txs| && s.txs[k].request.Process?
    requires JobOk(s, s.txs[k]) && TxOk(s, s.txs[k]) && (step.Commit? ==> TxOk(s, s.txs[step.i]))
    requires s.txs[k].request.job in s.tables.jobs ==> WasEnqueued(s.tables.events, s.txs[k].request.job)
    requires step.Publish? && step.i != k ==> OneRun(s.txs[step.i], s.txs[k])
    ensures JobOk(DbNext(s, step), DbNext(s, step).txs[k])
  {
    var tx, after := s.txs[k], DbNext(s, step).txs[k];
    StepMovesJob(s, step, k);
    assert step.Publish? ==> InFlight(s.txs[step.i]);
    if after.stage.Logged? || Done(after) {
      var job := tx.request.job;
      if step == Log(k) {
        var e :| IsEnqueued(s.tables.events, job, e);
        StepKeepsEnqueued(s, step, job, e);
      } else {
        var e: nat :| IsEnqueued(s.tables.events, job, e) && e < tx.event;
        StepKeepsEnqueued(s, step, job, e);
      }
    }
  }

  lemma StepKeepsOneRun(s: Db, step: DbStep, i: nat, j: nat)
    requires JobInv(s) && DbEnabled(s, step) && i < j < |DbNext(s, step).txs|
    ensures OneRun(DbNext(s, step).txs[i], DbNext(s, step).txs[j])
  {
    if j < |s.txs| {
      StepMovesJob(s, step, i);
      StepMovesJob(s, step, j);
      assert JobOk(s, s.txs[i]) && JobOk(s, s.txs[j]) && OneRun(s.txs[i], s.txs[j]);
      hide DbNext, JobInv;
    }
  }

  lemma StepKeepsJobs(s: Db, step: DbStep)
    requires DbInv(s) && JobInv(s) && DbEnabled(s, step)
    ensures JobInv(DbNext(s, step))
  {
    var t := DbNext(s, step);
    forall job ensures job in t.tables.jobs <==> WasEnqueued(t.tables.events, job) {
      assert job in s.tables.jobs <==> WasEnqueued(s.tables.events, job);
      if step.Commit? {
        assert TxOk(s, s.txs[step.i]);
        CommitKeepsJobRows(s, step.i, job);
      } else {
        OnlyCommitsChangeTables(s, step);
      }
    }
    forall i | 0 <= i < |t.txs| ensures JobOk(t, t.txs[i]) {
      if i < |s.txs| && s.txs[i].request.Process? {
        assert TxOk(s, s.txs[i]) && JobOk(s, s.txs[i]) && (step.Commit? ==> TxOk(s, s.txs[step.i]));
        if step.Publish? && step.i != i {
          assert if step.i < i then OneRun(s.txs[step.i], s.txs[i]) else OneRun(s.txs[i], s.txs[step.i]);
        }
        StepKeepsJob(s, step, i);
      } else if i < |s.txs| {
        StepMovesJob(s, step, i);
      }
    }
    forall i, j | 0 <= i < j < |t.txs| ensures OneRun(t.txs[i], t.txs[j]) {
      StepKeepsOneRun(s, step, i, j);
    }
  }

  lemma {:induction false} RunKeepsJobs(s: Db, steps: seq<DbStep>)
    requires DbInv(s) && JobInv(s) && DbValid(s, steps)
    ensures JobInv(DbRun(s, steps)) && DbInv(DbRun(s, steps))
    decreases |steps|
  {
    if steps != [] {
      DbStepKeepsInv(s, steps[0]);
      StepKeepsJobs(s, steps[0]);
      RunKeepsJobs(DbNext(s, steps[0]), steps[1..]);
    }
  }

  lemma StartJobs(start: Db)
    requires Start(start)
    ensures JobInv(start)
  {
  }

  /** In every reachable state a job row exists exactly if some stored event says it was enqueued. */
  lemma JobRowIffEvent(start: Db, steps: seq<DbStep>, job: nat)
    requires Start(start) && DbValid(start, steps)
    ensures var s := DbRun(start, steps);
            job in s.tables.jobs <==>
            exists e :: e in s.tables.events && DecodeEnqueued(s.tables.events[e]) == Some(job)
  {
    StartInv(start);
    StartJobs(start);
    RunKeepsJobs(start, steps);
    var events := DbRun(start, steps).tables.events;
    if WasEnqueued(events, job) {
      var e :| IsEnqueued(events, job, e);
      assert e in events && DecodeEnqueued(events[e]) == Some(job);
    }
    if e :| e in events && DecodeEnqueued(events[e]) == Some(job) {
      assert IsEnqueued(events, job, e);
    }
  }

  /**
   However often River retries a job, at most one attempt leaves a "processed" event, its id
   is greater than that of the job's "enqueued" event, and attempts that failed leave none. An
   attempt is reported as a success only after its event was stored and its publish made.
   */
  lemma RetriedJobs(start: Db, steps: seq<DbStep>, i: nat, j: nat)
    requires Start(start) && DbValid(start, steps)
    requires var s := DbRun(start, steps);
             && i < |s.txs| && j < |s.txs|
             && s.txs[i].request.Process? && s.txs[j].request.Process?
             && s.txs[i].request.job == s.txs[j].request.job
    ensures var s := DbRun(start, steps);
            && (Done(s.txs[i]) && Done(s.txs[j]) ==> i == j)
            && (Done(s.txs[i]) ==>
                  && s.txs[i].event in s.tables.events
                  && DecodeProcessed(s.tables.events[s.txs[i].event])
                     == Some((s.txs[i].request.job, s.txs[i].request.report))
                  && exists e: nat :: IsEnqueued(s.tables.events, s.txs[i].request.job, e) && e < s.txs[i].event)
            && (!Done(s.txs[i]) ==> forall e :: e in s.owner ==> s.owner[e] != i)
            && (Done(s.txs[i]) ==> (s.txs[i].request.job in s.finished <==> s.txs[i].stage.Published?))
  {
    StartInv(start);
    StartJobs(start);
    RunKeepsJobs(start, steps);
    var s := DbRun(start, steps);
    assert JobOk(s, s.txs[i]);
    if i != j {
      assert if i < j then OneRun(s.txs[i], s.txs[j]) else OneRun(s.txs[j], s.txs[i]);
    }
    OneEventPerCommit(start, steps, i, 0);
    EventNamesJob(s.txs[i], 0);
  }

  lemma {:induction false} FirstEventStays(s: Db, steps: seq<DbStep>)
    requires DbInv(s) && DbValid(s, steps)
    ensures 1 in s.tables.events && 1 in DbRun(s, steps).tables.events
    ensures DbRun(s, steps).tables.events[1] == s.tables.events[1]
    decreases |steps|
  {
    assert IdsOk(s);
    if steps != [] {
      if steps[0].Commit? {
        assert TxOk(s, s.txs[steps[0].i]);
        CommittedEvents(s, steps[0].i);
      } else {
        OnlyCommitsChangeTables(s, steps[0]);
      }
      DbStepKeepsInv(s, steps[0]);
      hide DbNext, DbEnabled, DbInv;
      FirstEventStays(DbNext(s, steps[0]), steps[1..]);
    }
  }

  lemma MigrationIsNoJob(start: Db, steps: seq<DbStep>, job: nat)
    requires Start(start) && DbValid(start, steps)
    ensures !IsProcessed(DbRun(start, steps).tables.events, job, 1)
  {
    StartInv(start);
    FirstEventStays(start, steps);
    OtherKindsNameNoJob(start.tables.events[1]);
  }

  /** No job is ever recorded as processed twice, and none that was not recorded as enqueued before. */
  lemma ProcessedOnce(start: Db, steps: seq<DbStep>, job: nat, e: nat, f: nat)
    requires Start(start) && DbValid(start, steps)
    requires var events := DbRun(start, steps).tables.events; IsProcessed(events, job, e) && IsProcessed(events, job, f)
    ensures e == f && exists k: nat :: IsEnqueued(DbRun(start, steps).tables.events, job, k) && k < e
  {
    var s := DbRun(start, steps);
    ReachableDb(start, steps);
    hide DbRun, DbValid, Start, DecodeProcessed, DecodeEnqueued;
    MigrationIsNoJob(start, steps, job);
    assert OwnersOk(s);
    hide DbInv;
    var i, j := s.owner[e], s.owner[f];
    EventNamesJob(s.txs[i], 0);
    EventNamesJob(s.txs[j], 0);
    RetriedJobs(start, steps, i, j);
  }
}
