/**
 Requests as concurrent database transactions. Row locks are held to the end of the
 transaction, an UPDATE or DELETE sees the latest committed row, event and job numbers are
 taken from counters that a rollback does not turn back, and nothing becomes visible before
 the commit.
 */
module AuditLog {
  import opened Tables
  import opened Effects
  import B = TodoBody

  const SHOWCASE_SEED_ITEMS := [
    "Model the account billing workflow",
    "Render the operator review queue",
    "Move invoice sync into River"
  ]

  /** The seed items that no todo of the table has as its body, in their fixed order. */
  function Missing(items: seq<string>, bodies: set<string>): seq<string>
  {
    if items == [] then []
    else (if items[0] in bodies then [] else [items[0]]) + Missing(items[1..], bodies)
  }

  function Bodies(todos: map<string, Todo>): set<string>
  {
    set id | id in todos :: todos[id].body
  }

  datatype Request =
    | Create(body: string)
    | Toggle(id: string)
    | Delete(id: string)
    | Seed
    | Enqueue
    | Pulse(bus: string)
    | Process(job: nat, report: string)  // one attempt of the snapshot worker

  datatype Stage = Begun | Seeding(missing: seq<string>) | Changed | Logged | Committed | Published | RolledBack

  /**
   `subject` and `row` are the id and the returned row of a todo request, `count` the rows a
   seed has inserted, `job` the job it is about, `event` the id of its event row once taken.
   */
  datatype Tx = Tx(request: Request, stage: Stage, writes: Writes, subject: string, row: Todo,
                   count: nat, job: nat, event: nat)

  const NO_ROW := Todo("", false, 0)

  /**
   `used` holds every todo id ever generated and whether `createTodo` did it; `owner` is the
   transaction of each committed event; `finished` are the jobs whose attempt reported success,
   which River will not run again.
   */
  datatype Db = Db(tables: Tables, nextEvent: nat, nextJob: nat, txs: seq<Tx>,
                   used: map<string, bool>, owner: map<nat, nat>, finished: set<nat>)

  datatype DbStep =
    | Begin(request: Request)
    | Change(i: nat, id: string, now: int)   // the first statement; `id` and `now` are generated
    | SeedRow(i: nat, id: string, now: int)  // one insert of a seed
    | Log(i: nat)                            // `InsertEvent`
    | Commit(i: nat)
    | Publish(i: nat)
    | Rollback(i: nat)

  /** The migrated database: some initial rows, none of them done, and one event. */
  predicate Start(s: Db)
  {
    && (forall id :: id in s.tables.todos ==> !s.tables.todos[id].done)
    && s.tables.events == map[1 := AppEvent("seed", "Database initialized by Goose migration")]
    && s.tables.jobs == {} && s.nextEvent == 2 && s.nextJob == 1 && s.txs == []
    && s.used == (map id | id in s.tables.todos :: false) && s.owner == map[] && s.finished == {}
  }

  predicate Active(tx: Tx) { tx.stage.Begun? || tx.stage.Seeding? || tx.stage.Changed? || tx.stage.Logged? }

  predicate Done(tx: Tx) { tx.stage.Committed? || tx.stage.Published? }

  predicate Touches(tx: Tx, id: string) { Active(tx) && (id in tx.writes.put || id in tx.writes.del) }

  ghost predicate Locked(s: Db, id: string)
  {
    exists i :: 0 <= i < |s.txs| && Touches(s.txs[i], id)
  }

  predicate InStage(s: Db, i: nat, stage: Stage) { i < |s.txs| && s.txs[i].stage == stage }

  /** An attempt is under way until it has published and returned. */
  predicate InFlight(tx: Tx) { Active(tx) || tx.stage.Committed? }

  predicate RunsJob(tx: Tx, job: nat) { InFlight(tx) && tx.request.Process? && tx.request.job == job }

  ghost predicate DbEnabled(s: Db, step: DbStep)
  {
    match step
    case Begin(Process(job, _)) =>
      && job in s.tables.jobs && job !in s.finished
      && forall i :: 0 <= i < |s.txs| ==> !RunsJob(s.txs[i], job)
    case Begin(_) => true
    case Change(i, id, _) =>
      && InStage(s, i, Begun)
      && (match s.txs[i].request
          case Create(body) => id !in s.used && B.Storable(body) && B.AllowedAfterSplit(B.SqlTrim(body))
          case Toggle(todo) => todo in s.tables.todos && !Locked(s, todo)
          case Delete(todo) => todo in s.tables.todos && !Locked(s, todo)
          case _ => true)
    case SeedRow(i, id, _) => i < |s.txs| && s.txs[i].stage.Seeding? && s.txs[i].stage.missing != [] && id !in s.used
    case Log(i) => InStage(s, i, Changed) || InStage(s, i, Seeding([]))
    case Commit(i) => InStage(s, i, Logged)
    case Publish(i) => InStage(s, i, Committed)
    case Rollback(i) => i < |s.txs| && Active(s.txs[i])
  }

  function EventOf(tx: Tx): AppEvent
  {
    match tx.request
    case Create(_) => TodoEvent(Created, tx.row.body)
    case Toggle(_) => TodoEvent(if tx.row.done then MarkedDone else MarkedOpen, tx.row.body)
    case Delete(_) => TodoEvent(Deleted, tx.row.body)
    case Seed => SeedEvent(tx.count)
    case Enqueue => EnqueuedEvent(tx.job)
    case Pulse(bus) => PulseEvent(bus)
    case Process(job, report) => ProcessedEvent(job, report)
  }

  /** What the wake-up of a request says. */
  function Reason(request: Request): string
  {
    match request
    case Create(_) => "create"
    case Toggle(_) => "toggle"
    case Delete(_) => "delete"
    case Seed => "seed"
    case Enqueue => "job-enqueued"
    case Pulse(_) => "pulse"
    case Process(_, _) => "river"
  }

  function SetTx(s: Db, i: nat, tx: Tx): Db
    requires i < |s.txs|
  {
    s.(txs := s.txs[i := tx])
  }

  /** The first statement of a request, on the rows committed when it runs. */
  function Changing(s: Db, tx: Tx, id: string, now: int): Tx
    requires match tx.request
             case Toggle(todo) => todo in s.tables.todos
             case Delete(todo) => todo in s.tables.todos
             case _ => true
  {
    match tx.request
    case Create(body) =>
      var row := Todo(B.SqlTrim(body), false, now);
      tx.(stage := Changed, writes := NOTHING.(put := map[id := row]), subject := id, row := row)
    case Toggle(todo) =>
      var row := s.tables.todos[todo].(done := !s.tables.todos[todo].done);
      tx.(stage := Changed, writes := NOTHING.(put := map[todo := row]), subject := todo, row := row)
    case Delete(todo) =>
      tx.(stage := Changed, writes := NOTHING.(del := {todo}), subject := todo, row := s.tables.todos[todo])
    case Seed => tx.(stage := Seeding(Missing(SHOWCASE_SEED_ITEMS, Bodies(s.tables.todos))))
    case Enqueue => tx.(stage := Changed, writes := NOTHING.(jobs := {s.nextJob}), job := s.nextJob)
    case Pulse(_) => tx.(stage := Changed)
    case Process(job, _) => tx.(stage := Changed, job := job)
  }

  function DbNext(s: Db, step: DbStep): Db
    requires DbEnabled(s, step)
  {
    match step
    case Begin(request) => s.(txs := s.txs + [Tx(request, Begun, NOTHING, "", NO_ROW, 0, 0, 0)])
    case Change(i, id, now) =>
      var tx := s.txs[i];
      SetTx(s, i, Changing(s, tx, id, now)).(
        used := if tx.request.Create? then s.used[id := true] else s.used,
        nextJob := if tx.request.Enqueue? then s.nextJob + 1 else s.nextJob)
    case SeedRow(i, id, now) =>
      var tx := s.txs[i];
      var row := Todo(B.SqlTrim(tx.stage.missing[0]), false, now);
      SetTx(s, i, tx.(stage := Seeding(tx.stage.missing[1..]), count := tx.count + 1,
                      writes := tx.writes.(put := tx.writes.put[id := row]))).(used := s.used[id := false])
    case Log(i) =>
      var tx := s.txs[i].(stage := Logged, event := s.nextEvent);
      SetTx(s, i, tx.(writes := tx.writes.(events := map[s.nextEvent := EventOf(tx)]))).(nextEvent := s.nextEvent + 1)
    case Commit(i) =>
      var tx := s.txs[i];
      SetTx(s, i, tx.(stage := Committed)).(
        tables := Apply(s.tables, tx.writes), owner := s.owner[tx.event := i])
    case Publish(i) =>
      var tx := s.txs[i];
      SetTx(s, i, tx.(stage := Published)).(
        finished := if tx.request.Process? then s.finished + {tx.request.job} else s.finished)
    case Rollback(i) => SetTx(s, i, s.txs[i].(stage := RolledBack))
  }

  // ---- The invariant -------------------------------------------------------------------

  predicate WritesOne(tx: Tx, put: map<string, Todo>, del: set<string>, jobs: set<nat>)
  {
    && tx.writes.put == put && tx.writes.del == del && tx.writes.jobs == jobs
    && tx.writes.events == if tx.stage.Logged? then map[tx.event := EventOf(tx)] else map[]
  }

  /** What a request has written once its first statement is done. */
  predicate WritesOk(tx: Tx)
  {
    match tx.request
    case Create(_) => !tx.row.done && WritesOne(tx, map[tx.subject := tx.row], {}, {})
    case Toggle(id) => tx.subject == id && WritesOne(tx, map[id := tx.row], {}, {})
    case Delete(id) => tx.subject == id && WritesOne(tx, map[], {id}, {})
    case Seed => |tx.writes.put| == tx.count && WritesOne(tx, tx.writes.put, {}, {})
    case Enqueue => WritesOne(tx, map[], {}, {tx.job})
    case Pulse(_) => WritesOne(tx, map[], {}, {})
    case Process(job, _) => tx.job == job && WritesOne(tx, map[], {}, {})
  }

  /** The committed rows it works on are still as it saw them, and the ids it made are its own. */
  ghost predicate RowsOk(todos: map<string, Todo>, used: map<string, bool>, tx: Tx)
  {
    match tx.request
    case Create(_) => tx.subject in used && used[tx.subject] && tx.subject !in todos
    case Toggle(id) => id in todos && tx.row == todos[id].(done := !todos[id].done)
    case Delete(id) => id in todos && tx.row == todos[id]
    case Seed =>
      forall id :: id in tx.writes.put ==> id in used && !used[id] && id !in todos && !tx.writes.put[id].done
    case _ => true
  }

  ghost predicate TxOk(s: Db, tx: Tx)
  {
    Active(tx) ==>
      && (tx.stage.Logged? ==> tx.event < s.nextEvent && tx.event !in s.tables.events)
      && (tx.stage.Seeding? ==> tx.request.Seed?)
      && (tx.request.Process? ==> tx.request.job in s.tables.jobs)
      && (tx.stage.Begun? ==> tx.writes == NOTHING && tx.count == 0)
      && (!tx.stage.Begun? ==> WritesOk(tx) && RowsOk(s.tables.todos, s.used, tx))
      && (forall job :: job in tx.writes.jobs ==> job < s.nextJob && job !in s.tables.jobs)
  }

  /** A row lock has one holder, an event id one transaction, a job id one request. */
  ghost predicate Exclusive(a: Tx, b: Tx)
  {
    && (forall id :: !(Touches(a, id) && Touches(b, id)))
    && (a.stage.Logged? && b.stage.Logged? ==> a.event != b.event)
    && (Active(a) && Active(b) ==> a.writes.jobs !! b.writes.jobs)
  }

  /** Every committed event row is the one event of one committed transaction. */
  ghost predicate OwnersOk(s: Db)
  {
    && (forall e :: e in s.tables.events ==> e == 1 || e in s.owner)
    && (forall e :: e in s.owner ==>
          && e in s.tables.events && e != 1 && s.owner[e] < |s.txs| && Done(s.txs[s.owner[e]])
          && s.txs[s.owner[e]].event == e && s.tables.events[e] == EventOf(s.txs[s.owner[e]]))
    && (forall i :: 0 <= i < |s.txs| && Done(s.txs[i]) ==>
          s.txs[i].event in s.owner && s.owner[s.txs[i].event] == i)
  }

  ghost predicate IdsOk(s: Db)
  {
    && (forall id :: id in s.tables.todos ==> id in s.used)
    && (forall job :: job in s.tables.jobs ==> job < s.nextJob)
    && (forall e :: e in s.tables.events ==> e < s.nextEvent)
    && 1 in s.tables.events
  }

  ghost predicate DbInv(s: Db)
  {
    && IdsOk(s) && OwnersOk(s)
    && (forall i :: 0 <= i < |s.txs| ==> TxOk(s, s.txs[i]))
    && (forall i, j :: 0 <= i < j < |s.txs| ==> Exclusive(s.txs[i], s.txs[j]))
  }

  lemma StartInv(s: Db)
    requires Start(s)
    ensures DbInv(s)
  {
  }

  lemma StepKeepsIds(s: Db, step: DbStep)
    requires DbInv(s) && DbEnabled(s, step)
    ensures IdsOk(DbNext(s, step))
  {
    if step.Commit? {
      assert TxOk(s, s.txs[step.i]);
    }
  }

  lemma CommitKeepsOwners(s: Db, i: nat)
    requires OwnersOk(s) && IdsOk(s) && DbEnabled(s, Commit(i)) && TxOk(s, s.txs[i])
    ensures OwnersOk(DbNext(s, Commit(i)))
  {
    var tx, t := s.txs[i], DbNext(s, Commit(i));
    CommittedEvents(s, i);
    forall e | e in t.owner
      ensures e in t.tables.events && e != 1 && t.owner[e] < |t.txs| && Done(t.txs[t.owner[e]])
      ensures t.txs[t.owner[e]].event == e && t.tables.events[e] == EventOf(t.txs[t.owner[e]])
    {
      if e == tx.event {
        assert t.txs[i] == tx.(stage := Committed);
      } else {
        assert t.owner[e] == s.owner[e] != i && t.txs[s.owner[e]] == s.txs[s.owner[e]];
      }
    }
    forall j | 0 <= j < |t.txs| && Done(t.txs[j]) ensures t.txs[j].event in t.owner && t.owner[t.txs[j].event] == j {
      assert j != i ==> Done(s.txs[j]) && s.txs[j].event in s.tables.events;
    }
  }

  lemma LoggedWrites(tx: Tx)
    requires tx.stage.Logged? && WritesOk(tx)
    ensures tx.writes.events == map[tx.event := EventOf(tx)]
  {
  }

  lemma EventStays(tx: Tx)
    ensures EventOf(tx.(stage := Committed)) == EventOf(tx)
  {
  }

  lemma CommittedEvents(s: Db, i: nat)
    requires DbEnabled(s, Commit(i)) && TxOk(s, s.txs[i])
    ensures DbNext(s, Commit(i)).tables.events == s.tables.events[s.txs[i].event := EventOf(s.txs[i])]
    ensures EventOf(s.txs[i].(stage := Committed)) == EventOf(s.txs[i])
  {
    hide EventOf, WritesOk, RowsOk;
    LoggedWrites(s.txs[i]);
    EventStays(s.txs[i]);
  }

  /** What a step other than a commit does to the transactions that are over. */
  lemma OtherSteps(s: Db, step: DbStep)
    requires DbEnabled(s, step) && !step.Commit?
    ensures var t := DbNext(s, step); t.owner == s.owner && t.tables == s.tables && |s.txs| <= |t.txs|
    ensures var t := DbNext(s, step);
            forall i :: 0 <= i < |t.txs| && Done(t.txs[i]) ==> i < |s.txs| && Done(s.txs[i])
    ensures var t := DbNext(s, step);
            forall i :: 0 <= i < |s.txs| && Done(s.txs[i]) ==>
              && Done(t.txs[i]) && t.txs[i].event == s.txs[i].event
              && EventOf(t.txs[i]) == EventOf(s.txs[i])
  {
    forall i | 0 <= i < |s.txs| && Done(s.txs[i]) ensures EventOf(DbNext(s, step).txs[i]) == EventOf(s.txs[i]) {
      if step == Publish(i) {
        assert EventOf(s.txs[i].(stage := Published)) == EventOf(s.txs[i]);
      }
    }
  }

  lemma OtherStepsKeepOwners(s: Db, step: DbStep)
    requires OwnersOk(s) && DbEnabled(s, step) && !step.Commit?
    ensures OwnersOk(DbNext(s, step))
  {
    OtherSteps(s, step);
    hide DbNext, DbEnabled, EventOf;
  }

  /** A fresh id, counter value or row lock keeps two transactions apart. */
  lemma MovedTxExclusive(s: Db, step: DbStep, other: Tx)
    requires IdsOk(s) && DbEnabled(s, step) && !step.Begin? && TxOk(s, s.txs[step.i]) && TxOk(s, other)
    requires Exclusive(s.txs[step.i], other)
    requires step.Change? ==>
               match s.txs[step.i].request
               case Toggle(id) => !Touches(other, id)
               case Delete(id) => !Touches(other, id)
               case _ => true
    ensures Exclusive(DbNext(s, step).txs[step.i], other)
  {
  }

  lemma StepKeepsExclusive(s: Db, step: DbStep, i: nat, j: nat)
    requires DbInv(s) && DbEnabled(s, step) && i < j < |DbNext(s, step).txs|
    ensures Exclusive(DbNext(s, step).txs[i], DbNext(s, step).txs[j])
  {
    if step.Begin? && j == |s.txs| {
    } else if !step.Begin? && (i == step.i || j == step.i) {
      var k := if i == step.i then j else i;
      assert TxOk(s, s.txs[step.i]) && TxOk(s, s.txs[k]) && Exclusive(s.txs[i], s.txs[j]);
      MovedTxExclusive(s, step, s.txs[k]);
    } else {
      assert Exclusive(s.txs[i], s.txs[j]);
    }
  }

  lemma ChangeKeepsTx(s: Db, i: nat, id: string, now: int)
    requires IdsOk(s) && DbEnabled(s, Change(i, id, now)) && TxOk(s, s.txs[i])
    ensures TxOk(DbNext(s, Change(i, id, now)), Changing(s, s.txs[i], id, now))
  {
  }

  lemma SeedRowKeepsTx(s: Db, i: nat, id: string, now: int)
    requires IdsOk(s) && DbEnabled(s, SeedRow(i, id, now)) && TxOk(s, s.txs[i])
    ensures TxOk(DbNext(s, SeedRow(i, id, now)), DbNext(s, SeedRow(i, id, now)).txs[i])
  {
  }

  lemma LogKeepsTx(s: Db, i: nat)
    requires IdsOk(s) && DbEnabled(s, Log(i)) && TxOk(s, s.txs[i])
    ensures TxOk(DbNext(s, Log(i)), DbNext(s, Log(i)).txs[i])
  {
  }

  lemma EndKeepsTx(s: Db, step: DbStep)
    requires DbEnabled(s, step) && (step.Commit? || step.Publish? || step.Rollback?)
    ensures !Active(DbNext(s, step).txs[step.i])
  {
  }

  /** The transaction that moves is in order afterwards. */
  lemma StepKeepsOwnTx(s: Db, step: DbStep)
    requires IdsOk(s) && DbEnabled(s, step) && !step.Begin? && TxOk(s, s.txs[step.i])
    ensures TxOk(DbNext(s, step), DbNext(s, step).txs[step.i])
  {
    match step
    case Change(i, id, now) => ChangeKeepsTx(s, i, id, now);
    case SeedRow(i, id, now) => SeedRowKeepsTx(s, i, id, now);
    case Log(i) => LogKeepsTx(s, i);
    case _ => EndKeepsTx(s, step);
  }

  /** A commit leaves the rows another active transaction works on as they are. */
  lemma CommitKeepsOtherRows(todos: map<string, Todo>, used: map<string, bool>, w: Writes, tx: Tx)
    requires WritesOk(tx) && RowsOk(todos, used, tx)
    requires forall id :: id in tx.writes.put || id in tx.writes.del ==> id !in w.put && id !in w.del
    ensures RowsOk((todos - w.del) + w.put, used, tx)
  {
  }

  lemma CommitKeepsOtherTx(s: Db, i: nat, tx: Tx)
    requires DbEnabled(s, Commit(i)) && TxOk(s, s.txs[i]) && TxOk(s, tx) && Exclusive(s.txs[i], tx)
    ensures TxOk(DbNext(s, Commit(i)), tx)
  {
    CommittedEvents(s, i);
    if Active(tx) && !tx.stage.Begun? {
      forall id | id in tx.writes.put || id in tx.writes.del
        ensures id !in s.txs[i].writes.put && id !in s.txs[i].writes.del
      {
        assert Touches(tx, id) && !Touches(s.txs[i], id);
      }
      CommitKeepsOtherRows(s.tables.todos, s.used, s.txs[i].writes, tx);
    }
  }

  /** Counters only grow, and ids in use stay in use. */
  lemma OthersKeepTx(s: Db, step: DbStep, tx: Tx)
    requires DbEnabled(s, step) && !step.Commit? && TxOk(s, tx)
    ensures TxOk(DbNext(s, step), tx)
  {
    var t := DbNext(s, step);
    assert t.tables == s.tables && s.nextEvent <= t.nextEvent && s.nextJob <= t.nextJob;
    assert forall id :: id in s.used ==> id in t.used && t.used[id] == s.used[id];
    hide DbNext, DbEnabled, WritesOk;
  }

  /** Nothing another transaction does moves the ground under an active one. */
  lemma StepKeepsOtherTx(s: Db, step: DbStep, k: nat)
    requires DbInv(s) && DbEnabled(s, step) && k < |s.txs| && (!step.Begin? ==> step.i != k)
    ensures TxOk(DbNext(s, step), s.txs[k])
  {
    assert TxOk(s, s.txs[k]);
    if step.Commit? {
      assert TxOk(s, s.txs[step.i]);
      assert Exclusive(s.txs[if step.i < k then step.i else k], s.txs[if step.i < k then k else step.i]);
      hide DbNext, TxOk;
      CommitKeepsOtherTx(s, step.i, s.txs[k]);
    } else {
      hide DbNext, TxOk;
      OthersKeepTx(s, step, s.txs[k]);
    }
  }

  lemma DbStepKeepsInv(s: Db, step: DbStep)
    requires DbInv(s) && DbEnabled(s, step)
    ensures DbInv(DbNext(s, step))
  {
    var t := DbNext(s, step);
    StepKeepsIds(s, step);
    if step.Commit? {
      CommitKeepsOwners(s, step.i);
    } else {
      OtherStepsKeepOwners(s, step);
    }
    forall i | 0 <= i < |t.txs| ensures TxOk(t, t.txs[i]) {
      if !step.Begin? && i == step.i {
        StepKeepsOwnTx(s, step);
      } else if i < |s.txs| {
        StepKeepsOtherTx(s, step, i);
      }
    }
    forall i, j | 0 <= i < j < |t.txs| ensures Exclusive(t.txs[i], t.txs[j]) {
      StepKeepsExclusive(s, step, i, j);
    }
  }

  // ---- Runs ----------------------------------------------------------------------------

  ghost predicate DbValid(s: Db, steps: seq<DbStep>)
    decreases |steps|
  {
    steps != [] ==> DbEnabled(s, steps[0]) && DbValid(DbNext(s, steps[0]), steps[1..])
  }

  ghost function DbRun(s: Db, steps: seq<DbStep>): Db
    requires DbValid(s, steps)
    decreases |steps|
  {
    if steps == [] then s else DbRun(DbNext(s, steps[0]), steps[1..])
  }

  lemma {:induction false} DbRunKeepsInv(s: Db, steps: seq<DbStep>)
    requires DbInv(s) && DbValid(s, steps)
    ensures DbInv(DbRun(s, steps))
    decreases |steps|
  {
    if steps != [] {
      DbStepKeepsInv(s, steps[0]);
      DbRunKeepsInv(DbNext(s, steps[0]), steps[1..]);
    }
  }

  lemma ReachableDb(start: Db, steps: seq<DbStep>)
    requires Start(start) && DbValid(start, steps)
    ensures DbInv(DbRun(start, steps))
  {
    StartInv(start);
    DbRunKeepsInv(start, steps);
  }

  /**
   Change and event go together in every run: a transaction that committed owns exactly one
   event row, the one its request calls for; one that has not committed or was rolled back
   owns none; and every event row but that of the migration has its transaction.
   */
  lemma OneEventPerCommit(start: Db, steps: seq<DbStep>, i: nat, e: nat)
    requires Start(start) && DbValid(start, steps) && i < |DbRun(start, steps).txs|
    ensures var s := DbRun(start, steps);
            && (Done(s.txs[i]) ==>
                  s.txs[i].event in s.tables.events && s.tables.events[s.txs[i].event] == EventOf(s.txs[i]))
            && (e in s.owner && s.owner[e] == i ==> Done(s.txs[i]) && e == s.txs[i].event)
            && (e in s.tables.events ==> e == 1 || (e in s.owner && s.owner[e] < |s.txs| && Done(s.txs[s.owner[e]])))
  {
    ReachableDb(start, steps);
  }

  lemma OnlyCommitsChangeTables(s: Db, step: DbStep)
    requires DbEnabled(s, step) && !step.Commit?
    ensures DbNext(s, step).tables == s.tables
  {
  }

  /** The write sets of the commits of a run, in commit order. */
  ghost function CommittedWrites(s: Db, steps: seq<DbStep>): seq<Writes>
    requires DbValid(s, steps)
    decreases |steps|
  {
    if steps == [] then []
    else (if steps[0].Commit? then [s.txs[steps[0].i].writes] else [])
         + CommittedWrites(DbNext(s, steps[0]), steps[1..])
  }

  function ApplyAll(tables: Tables, writes: seq<Writes>): Tables
    decreases |writes|
  {
    if writes == [] then tables else ApplyAll(Apply(tables, writes[0]), writes[1..])
  }

  /**
   In every run the tables end as the commits' write sets applied in commit order: a rollback,
   a request that finds no row and everything before a commit leave no trace in them.
   */
  lemma {:induction false} OnlyCommitsLeaveTraces(s: Db, steps: seq<DbStep>)
    requires DbValid(s, steps)
    ensures DbRun(s, steps).tables == ApplyAll(s.tables, CommittedWrites(s, steps))
    decreases |steps|
  {
    hide Apply;
    if steps != [] {
      OnlyCommitsLeaveTraces(DbNext(s, steps[0]), steps[1..]);
      if steps[0].Commit? {
        var rest := CommittedWrites(DbNext(s, steps[0]), steps[1..]);
        assert ([s.txs[steps[0].i].writes] + rest)[1..] == rest;
      } else {
        OnlyCommitsChangeTables(s, steps[0]);
        var rest := CommittedWrites(DbNext(s, steps[0]), steps[1..]);
        assert [] + rest == rest;
      }
    }
  }
}
