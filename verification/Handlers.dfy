/**
 The mutation handlers and the snapshot worker as the code runs them, one at a time, on a
 database and a bus of which any call may fail. Module AuditLog interleaves the same
 transactions.
 */
module Handlers {
  import opened Options
  import opened Tables
  import opened Effects
  import opened AuditLog

  /**
   What a request is answered with. A page may hold the composer, with its error if any, and
   the panels, rendered from the tables `shown`. A redirect carries the form error along.
   `ServerError` also stands for a page that broke off in the middle.
   */
  datatype Outcome =
    | Page(composer: Option<B.FormError>, shown: Option<Tables>)
    | Redirect(error: B.FormError)
    | BadRequest
    | NotFound
    | Unavailable
    | ServerError

  datatype TxResult = Stored | NoRow | Aborted

  datatype QueryResult<+T> = Got(value: T) | NoRows | Failed

  // ---- What a successful run leaves in the tables --------------------------------------
  //
  // Each of these puts one event row under the id `e`. The handlers take it from a counter
  // that is ahead of the table (`CountersAhead`), so that no row is ever overwritten.

  function AfterCreate(t: Tables, id: string, body: string, now: int, e: nat): Tables
  {
    Tables(t.todos[id := Todo(body, false, now)], t.events[e := TodoEvent(Created, body)], t.jobs)
  }

  function AfterToggle(t: Tables, id: string, e: nat): Tables
    requires id in t.todos
  {
    var row := t.todos[id].(done := !t.todos[id].done);
    Tables(t.todos[id := row], t.events[e := TodoEvent(if row.done then MarkedDone else MarkedOpen, row.body)], t.jobs)
  }

  function AfterDelete(t: Tables, id: string, e: nat): Tables
    requires id in t.todos
  {
    Tables(t.todos - {id}, t.events[e := TodoEvent(Deleted, t.todos[id].body)], t.jobs)
  }

  function AfterEnqueue(t: Tables, job: nat, e: nat): Tables
  {
    Tables(t.todos, t.events[e := EnqueuedEvent(job)], t.jobs + {job})
  }

  function AfterEvent(t: Tables, e: nat, row: AppEvent): Tables { t.(events := t.events[e := row]) }

  /** One new row per item. */
  function InsertAll(todos: map<string, Todo>, items: seq<string>, ids: seq<string>, now: int): map<string, Todo>
    requires |ids| >= |items|
    decreases |items|
  {
    if items == [] then todos
    else
      var last := |items| - 1;
      InsertAll(todos, items[..last], ids, now)[ids[last] := Todo(B.SqlTrim(items[last]), false, now)]
  }

  function AfterSeed(t: Tables, ids: seq<string>, now: int, e: nat): Tables
    requires |ids| >= |Missing(SHOWCASE_SEED_ITEMS, Bodies(t.todos))|
  {
    var missing := Missing(SHOWCASE_SEED_ITEMS, Bodies(t.todos));
    Tables(InsertAll(t.todos, missing, ids, now), t.events[e := SeedEvent(|missing|)], t.jobs)
  }

  // What the transactions write adds up to these.

  lemma CreateWrites(t: Tables, id: string, body: string, now: int, e: nat)
    ensures Apply(t, Writes(map[id := Todo(body, false, now)], {}, map[e := TodoEvent(Created, body)], {}))
            == AfterCreate(t, id, body, now, e)
  {
    hide TodoEvent;
  }

  lemma ToggleWrites(t: Tables, id: string, row: Todo, e: nat)
    requires id in t.todos && row == t.todos[id].(done := !t.todos[id].done)
    ensures var event := TodoEvent(if row.done then MarkedDone else MarkedOpen, row.body);
            Apply(t, Writes(map[id := row], {}, map[e := event], {})) == AfterToggle(t, id, e)
  {
    hide TodoEvent;
  }

  lemma DeleteWrites(t: Tables, id: string, e: nat)
    requires id in t.todos
    ensures Apply(t, Writes(map[], {id}, map[e := TodoEvent(Deleted, t.todos[id].body)], {})) == AfterDelete(t, id, e)
  {
    hide TodoEvent;
  }

  lemma EnqueueWrites(t: Tables, job: nat, e: nat)
    ensures Apply(t, Writes(map[], {}, map[e := EnqueuedEvent(job)], {job})) == AfterEnqueue(t, job, e)
  {
    hide EnqueuedEvent;
  }

  lemma EventWrites(t: Tables, e: nat, row: AppEvent)
    ensures Apply(t, NOTHING.(events := map[e := row])) == AfterEvent(t, e, row)
  {
  }

  // ---- The database and the bus --------------------------------------------------------

  /** `faults` says of each coming call whether it fails; past its end no call fails. */
  class Server {
    var tables: Tables
    var nextEvent: nat
    var nextJob: nat
    var faults: seq<bool>
    var published: seq<string>

    constructor (tables: Tables, nextEvent: nat, nextJob: nat, faults: seq<bool>)
      ensures this.tables == tables && this.nextEvent == nextEvent && this.nextJob == nextJob
      ensures this.faults == faults && published == []
    {
      this.tables, this.nextEvent, this.nextJob, this.faults := tables, nextEvent, nextJob, faults;
      published := [];
    }

    ghost predicate Healthy()
      reads this
    {
      forall i :: 0 <= i < |faults| ==> !faults[i]
    }

    /** Every id in the tables came from its counter. */
    ghost predicate CountersAhead()
      reads this
    {
      && (forall e :: e in tables.events ==> e < nextEvent)
      && (forall job :: job in tables.jobs ==> job < nextJob)
    }

    method Fails() returns (failed: bool)
      modifies this`faults
      ensures old(Healthy()) ==> !failed && Healthy()
    {
      failed := faults != [] && faults[0];
      if faults != [] {
        faults := faults[1..];
      }
    }

    /** `publishChange`: one attempt, whose failure is only logged. */
    method PublishChange(reason: string)
      modifies this`faults, this`published
      ensures published == old(published) + [reason]
      ensures old(Healthy()) ==> Healthy()
    {
      var failed := Fails();
      published := published + [reason];
    }
  }

  /** A transaction and its uncommitted changes; one that is not committed changes nothing. */
  class Transaction {
    const server: Server
    var writes: Writes

    constructor (server: Server)
      ensures this.server == server && writes == NOTHING
    {
      this.server := server;
      writes := NOTHING;
    }

    method CreateTodo(id: string, body: string, now: int) returns (r: QueryResult<Todo>)
      requires id !in server.tables.todos && id !in writes.put
      modifies this, server`faults
      ensures r.Got? ==> r.value == Todo(B.SqlTrim(body), false, now) && B.Storable(body)
      ensures writes == if r.Got? then old(writes).(put := old(writes).put[id := r.value]) else old(writes)
      ensures old(server.Healthy()) && B.Storable(body) && B.AllowedAfterSplit(B.SqlTrim(body)) ==> r.Got?
      ensures old(server.Healthy()) ==> server.Healthy()
    {
      var failed := server.Fails();
      if failed || !B.Storable(body) || !B.AllowedAfterSplit(B.SqlTrim(body)) { return Failed; }
      var row := Todo(B.SqlTrim(body), false, now);
      writes := writes.(put := writes.put[id := row]);
      return Got(row);
    }

    method ToggleTodo(id: string) returns (r: QueryResult<Todo>)
      requires writes == NOTHING
      modifies this, server`faults
      ensures r.Got? ==> id in server.tables.todos &&
                         r.value == server.tables.todos[id].(done := !server.tables.todos[id].done)
      ensures r.NoRows? ==> id !in server.tables.todos
      ensures writes == if r.Got? then NOTHING.(put := map[id := r.value]) else NOTHING
      ensures old(server.Healthy()) ==> server.Healthy() && !r.Failed?
    {
      var failed := server.Fails();
      if failed { return Failed; }
      if id !in server.tables.todos { return NoRows; }
      var row := server.tables.todos[id];
      row := row.(done := !row.done);
      writes := writes.(put := map[id := row]);
      return Got(row);
    }

    method DeleteTodo(id: string) returns (r: QueryResult<Todo>)
      requires writes == NOTHING
      modifies this, server`faults
      ensures r.Got? ==> id in server.tables.todos && r.value == server.tables.todos[id]
      ensures r.NoRows? ==> id !in server.tables.todos
      ensures writes == if r.Got? then NOTHING.(del := {id}) else NOTHING
      ensures old(server.Healthy()) ==> server.Healthy() && !r.Failed?
    {
      var failed := server.Fails();
      if failed { return Failed; }
      if id !in server.tables.todos { return NoRows; }
      writes := writes.(del := {id});
      return Got(server.tables.todos[id]);
    }

    /** The event number is taken even if the transaction is rolled back later. */
    method InsertEvent(row: AppEvent) returns (ok: bool)
      modifies this, server`faults, server`nextEvent
      ensures writes == if ok then old(writes).(events := old(writes).events[old(server.nextEvent) := row])
                        else old(writes)
      ensures server.nextEvent == old(server.nextEvent) + if ok then 1 else 0
      ensures old(server.Healthy()) ==> server.Healthy() && ok
    {
      var failed := server.Fails();
      if failed { return false; }
      writes := writes.(events := writes.events[server.nextEvent := row]);
      server.nextEvent := server.nextEvent + 1;
      return true;
    }

    method InsertJob() returns (job: Option<nat>)
      modifies this, server`faults, server`nextJob
      ensures writes == if job.Some? then old(writes).(jobs := old(writes).jobs + {job.value}) else old(writes)
      ensures job.Some? ==> job.value == old(server.nextJob)
      ensures server.nextJob == old(server.nextJob) + if job.Some? then 1 else 0
      ensures old(server.Healthy()) ==> server.Healthy() && job.Some?
    {
      var failed := server.Fails();
      if failed { return None; }
      job := Some(server.nextJob);
      writes := writes.(jobs := writes.jobs + {server.nextJob});
      server.nextJob := server.nextJob + 1;
    }

    /** A failed commit did not take place. */
    method Commit() returns (ok: bool)
      modifies server`tables, server`faults
      ensures server.tables == if ok then Apply(old(server.tables), writes) else old(server.tables)
      ensures old(server.Healthy()) ==> server.Healthy() && ok
    {
      var failed := server.Fails();
      if failed { return false; }
      server.tables := Apply(server.tables, writes);
      return true;
    }
  }

  // ---- The answers ---------------------------------------------------------------------

  /** The composer, the panels, or both: reading and rendering may fail, and then it is a 500. */
  method Respond(server: Server, composer: Option<B.FormError>, panels: bool) returns (r: Outcome)
    modifies server`faults
    ensures r == ServerError || r == Page(composer, if panels then Some(server.tables) else None)
    ensures old(server.Healthy()) ==> server.Healthy() && r != ServerError
  {
    if composer.Some? {
      var failed := server.Fails();
      if failed { return ServerError; }
    }
    if !panels { return Page(composer, None); }
    var failed := server.Fails();
    if failed { return ServerError; }
    failed := server.Fails();
    if failed { return ServerError; }
    failed := server.Fails();
    if failed { return ServerError; }
    return Page(composer, Some(server.tables));
  }

  /** `formError`. */
  method FormError(server: Server, error: B.FormError, htmx: bool) returns (r: Outcome)
    modifies server`faults
    ensures r == (if htmx then Page(Some(error), None) else Redirect(error)) || (htmx && r == ServerError)
    ensures old(server.Healthy()) ==> server.Healthy() && r != ServerError
  {
    if !htmx { return Redirect(error); }
    r := Respond(server, Some(error), false);
  }

  /** `notFoundOrSnapshot`. */
  method NotFoundOrSnapshot(server: Server, htmx: bool) returns (r: Outcome)
    modifies server`faults
    ensures r == (if htmx then Page(None, Some(server.tables)) else NotFound) || (htmx && r == ServerError)
    ensures old(server.Healthy()) ==> server.Healthy() && r != ServerError
  {
    if !htmx { return NotFound; }
    r := Respond(server, None, true);
  }

  // ---- The handlers --------------------------------------------------------------------
  //
  // What happened and what was answered are two things: a request may have committed and
  // published and still be answered with an error, when its answer cannot be rendered.

  /** Both tables, the jobs and what was published are as before. */
  twostate predicate Untouched(server: Server)
    reads server
  {
    server.tables == old(server.tables) && server.published == old(server.published)
  }

  /** The transaction of `createTodo`. */
  method CreateTx(server: Server, body: string, id: string, now: int) returns (ok: bool)
    requires id !in server.tables.todos && server.CountersAhead() && B.SqlTrim(body) == body
    modifies server`tables, server`faults, server`nextEvent
    ensures server.CountersAhead()
    ensures server.tables == if ok then AfterCreate(old(server.tables), id, body, now, old(server.nextEvent))
                             else old(server.tables)
    ensures ok ==> B.Storable(body)
    ensures old(server.Healthy()) ==> server.Healthy() && (B.Storable(body) && B.AllowedAfterSplit(body) ==> ok)
  {
    hide B.SqlTrim, B.Storable, B.AllowedAfterSplit, TodoEvent, Apply;
    var failed := server.Fails();
    if failed { return false; }
    var tx := new Transaction(server);
    var created := tx.CreateTodo(id, body, now);
    if !created.Got? { return false; }
    ok := tx.InsertEvent(TodoEvent(Created, created.value.body));
    if !ok { return; }
    ok := tx.Commit();
    CreateWrites(old(server.tables), id, body, now, old(server.nextEvent));
  }

  /**
   `createTodo`; `id` and `now` are what the insert generates. `form` is the body field of the
   form, or nothing if the form is too large or cannot be read.
   */
  method CreateTodo(server: Server, form: Option<string>, id: string, now: int, htmx: bool)
    returns (ghost committed: bool, r: Outcome)
    requires id !in server.tables.todos
    requires server.CountersAhead()
    modifies server
    ensures server.CountersAhead()
    ensures r == BadRequest <==> form.None?
    ensures committed ==>
              && form.Some?
              && B.Storable(B.TrimSpace(form.value)) && B.ValidateTodoBody(B.TrimSpace(form.value)) == B.NoError
              && server.tables
                 == AfterCreate(old(server.tables), id, B.TrimSpace(form.value), now, old(server.nextEvent))
              && server.published == old(server.published) + ["create"]
    ensures !committed ==> Untouched(server)
    ensures form.Some? && r != ServerError ==>
              var error := B.ValidateTodoBody(B.TrimSpace(form.value));
              && (committed <==> error == B.NoError)
              && r == if !htmx then Redirect(error)
                      else Page(Some(error), if committed then Some(server.tables) else None)
    ensures r == ServerError ==>
              form.Some? && (htmx || (!committed && B.ValidateTodoBody(B.TrimSpace(form.value)) == B.NoError))
    ensures old(server.Healthy()) && (form.Some? ==> B.Storable(B.TrimSpace(form.value))) ==> r != ServerError
  {
    if form.None? { return false, BadRequest; }
    B.BodyPipeline(form.value);
    hide B.TrimSpace, B.SqlTrim, B.Storable, B.ValidateTodoBody, B.AllowedAfterSplit;
    var body := B.TrimSpace(form.value);
    var formError := B.ValidateTodoBody(body);
    committed := false;
    if formError != B.NoError {
      r := FormError(server, formError, htmx);
      return;
    }
    var ok := CreateTx(server, body, id, now);
    if !ok { return false, ServerError; }
    server.PublishChange(Reason(Create(body)));
    committed := true;
    if !htmx { return true, Redirect(B.NoError); }
    r := Respond(server, Some(B.NoError), true);
  }

  /** The transaction of `toggleTodo`. */
  method ToggleTx(server: Server, id: string) returns (r: TxResult)
    requires server.CountersAhead()
    modifies server`tables, server`faults, server`nextEvent
    ensures server.CountersAhead()
    ensures r.Stored? ==>
              id in old(server.tables.todos) &&
              server.tables == AfterToggle(old(server.tables), id, old(server.nextEvent))
    ensures !r.Stored? ==> server.tables == old(server.tables)
    ensures r.NoRow? ==> id !in old(server.tables.todos)
    ensures old(server.Healthy()) ==> server.Healthy() && !r.Aborted?
  {
    hide TodoEvent, Apply;
    var failed := server.Fails();
    if failed { return Aborted; }
    var tx := new Transaction(server);
    var updated := tx.ToggleTodo(id);
    if updated.NoRows? { return NoRow; }
    if updated.Failed? { return Aborted; }
    var action := if updated.value.done then MarkedDone else MarkedOpen;
    var ok := tx.InsertEvent(TodoEvent(action, updated.value.body));
    if !ok { return Aborted; }
    ok := tx.Commit();
    if !ok { return Aborted; }
    ToggleWrites(old(server.tables), id, updated.value, old(server.nextEvent));
    return Stored;
  }

  method ToggleTodo(server: Server, id: string, htmx: bool) returns (ghost committed: bool, r: Outcome)
    requires server.CountersAhead()
    modifies server
    ensures server.CountersAhead()
    ensures committed ==>
              && id in old(server.tables.todos)
              && server.tables == AfterToggle(old(server.tables), id, old(server.nextEvent))
              && server.published == old(server.published) + ["toggle"]
    ensures !committed ==> Untouched(server)
    ensures committed ==> r == Page(None, Some(server.tables)) || r == ServerError
    ensures !committed && r != ServerError ==>
              id !in old(server.tables.todos) && r == if htmx then Page(None, Some(server.tables)) else NotFound
    ensures old(server.Healthy()) ==> r != ServerError && (committed <==> id in old(server.tables.todos))
  {
    var tx := ToggleTx(server, id);
    committed := tx.Stored?;
    match tx
    case NoRow => r := NotFoundOrSnapshot(server, htmx);
    case Aborted => r := ServerError;
    case Stored =>
      server.PublishChange(Reason(Toggle(id)));
      r := Respond(server, None, true);
  }

  /** The transaction of `deleteTodo`. */
  method DeleteTx(server: Server, id: string) returns (r: TxResult)
    requires server.CountersAhead()
    modifies server`tables, server`faults, server`nextEvent
    ensures server.CountersAhead()
    ensures r.Stored? ==>
              id in old(server.tables.todos) &&
              server.tables == AfterDelete(old(server.tables), id, old(server.nextEvent))
    ensures !r.Stored? ==> server.tables == old(server.tables)
    ensures r.NoRow? ==> id !in old(server.tables.todos)
    ensures old(server.Healthy()) ==> server.Healthy() && !r.Aborted?
  {
    hide TodoEvent, Apply;
    var failed := server.Fails();
    if failed { return Aborted; }
    var tx := new Transaction(server);
    var deleted := tx.DeleteTodo(id);
    if deleted.NoRows? { return NoRow; }
    if deleted.Failed? { return Aborted; }
    var ok := tx.InsertEvent(TodoEvent(Deleted, deleted.value.body));
    if !ok { return Aborted; }
    ok := tx.Commit();
    if !ok { return Aborted; }
    DeleteWrites(old(server.tables), id, old(server.nextEvent));
    return Stored;
  }

  method DeleteTodo(server: Server, id: string, htmx: bool) returns (ghost committed: bool, r: Outcome)
    requires server.CountersAhead()
    modifies server
    ensures server.CountersAhead()
    ensures committed ==>
              && id in old(server.tables.todos)
              && server.tables == AfterDelete(old(server.tables), id, old(server.nextEvent))
              && server.published == old(server.published) + ["delete"]
    ensures !committed ==> Untouched(server)
    ensures committed ==> r == Page(None, Some(server.tables)) || r == ServerError
    ensures !committed && r != ServerError ==>
              id !in old(server.tables.todos) && r == if htmx then Page(None, Some(server.tables)) else NotFound
    ensures old(server.Healthy()) ==> r != ServerError && (committed <==> id in old(server.tables.todos))
  {
    var tx := DeleteTx(server, id);
    committed := tx.Stored?;
    match tx
    case NoRow => r := NotFoundOrSnapshot(server, htmx);
    case Aborted => r := ServerError;
    case Stored =>
      server.PublishChange(Reason(Delete(id)));
      r := Respond(server, None, true);
  }

  method EnqueueTx(server: Server) returns (ok: bool)
    requires server.CountersAhead()
    modifies server`tables, server`faults, server`nextEvent, server`nextJob
    ensures server.CountersAhead()
    ensures server.tables == if ok then AfterEnqueue(old(server.tables), old(server.nextJob), old(server.nextEvent))
                             else old(server.tables)
    ensures old(server.Healthy()) ==> server.Healthy() && ok
  {
    hide EnqueuedEvent, Apply;
    var failed := server.Fails();
    if failed { return false; }
    var tx := new Transaction(server);
    var job := tx.InsertJob();
    if job.None? { return false; }
    assert {} + {job.value} == {job.value};
    ok := tx.InsertEvent(EnqueuedEvent(job.value));
    if !ok { return; }
    ok := tx.Commit();
    EnqueueWrites(old(server.tables), old(server.nextJob), old(server.nextEvent));
  }

  /** `river` says whether the server has a job client. */
  method EnqueueSnapshot(server: Server, river: bool) returns (ghost committed: bool, r: Outcome)
    requires server.CountersAhead()
    modifies server
    ensures server.CountersAhead()
    ensures committed ==>
              && server.tables == AfterEnqueue(old(server.tables), old(server.nextJob), old(server.nextEvent))
              && old(server.nextJob) in server.tables.jobs
              && DecodeEnqueued(server.tables.events[old(server.nextEvent)]) == Some(old(server.nextJob))
              && server.published == old(server.published) + ["job-enqueued"]
    ensures !committed ==> Untouched(server)
    ensures if river then r == ServerError || (committed && r == Page(Some(B.NoError), None))
            else !committed && r == Unavailable
    ensures old(server.Healthy()) && river ==> committed && r != ServerError
  {
    if !river { return false, Unavailable; }
    var ok := EnqueueTx(server);
    committed := ok;
    if !ok { return false, ServerError; }
    server.PublishChange(Reason(Enqueue));
    EnqueuedDecodes(old(server.nextJob));
    r := Respond(server, Some(B.NoError), false);
  }

  /** A single insert, which commits by itself. */
  method BroadcastPulse(server: Server, bus: string) returns (ghost committed: bool, r: Outcome)
    requires server.CountersAhead()
    modifies server
    ensures server.CountersAhead()
    ensures committed ==>
              && server.tables == AfterEvent(old(server.tables), old(server.nextEvent), PulseEvent(bus))
              && server.published == old(server.published) + ["pulse"]
    ensures !committed ==> Untouched(server)
    ensures r == ServerError || (committed && r == Page(Some(B.NoError), None))
    ensures old(server.Healthy()) ==> committed && r != ServerError
  {
    var ok := InsertAlone(server, PulseEvent(bus));
    committed := ok;
    if !ok { return false, ServerError; }
    server.PublishChange(Reason(Pulse(bus)));
    r := Respond(server, Some(B.NoError), false);
  }

  method InsertAlone(server: Server, row: AppEvent) returns (ok: bool)
    requires server.CountersAhead()
    modifies server`tables, server`faults, server`nextEvent
    ensures server.CountersAhead()
    ensures server.tables == if ok then AfterEvent(old(server.tables), old(server.nextEvent), row)
                             else old(server.tables)
    ensures old(server.Healthy()) ==> server.Healthy() && ok
  {
    hide Apply;
    var tx := new Transaction(server);
    ok := tx.InsertEvent(row);
    if !ok { return false; }
    ok := tx.Commit();
    EventWrites(old(server.tables), old(server.nextEvent), row);
  }

  /**
   One attempt of `SnapshotWorker.Work`. It fails before anything is stored, or it stores its
   event and succeeds, whether or not the publish that follows does. `time` is the clock's.
   */
  method Work(server: Server, job: nat, time: string, reason: string) returns (ok: bool)
    requires server.CountersAhead()
    modifies server
    ensures server.CountersAhead()
    ensures ok ==>
              var report := Report(time, CountTodos(old(server.tables.todos)), reason);
              && server.tables == AfterEvent(old(server.tables), old(server.nextEvent), ProcessedEvent(job, report))
              && server.published == old(server.published) + ["river"]
    ensures !ok ==> Untouched(server)
    ensures old(server.Healthy()) ==> ok
  {
    var failed := server.Fails();
    if failed { return false; }
    var stats := CountTodos(server.tables.todos);
    var report := Report(time, stats, reason);
    ok := InsertAlone(server, ProcessedEvent(job, report));
    if !ok { return false; }
    server.PublishChange(Reason(Process(job, report)));
  }

  /** `missingShowcaseSeedItems`: a set of the existing bodies, then one pass over the items. */
  method MissingShowcaseSeedItems(rows: seq<Row>) returns (missing: seq<string>)
    ensures missing == Missing(SHOWCASE_SEED_ITEMS, set i | 0 <= i < |rows| :: rows[i].todo.body)
  {
    var existing: set<string> := {};
    for i := 0 to |rows|
      invariant existing == set j | 0 <= j < i :: rows[j].todo.body
    {
      existing := existing + {rows[i].todo.body};
    }
    missing := [];
    var items := SHOWCASE_SEED_ITEMS;
    for i := 0 to |items|
      invariant missing == Missing(items[..i], existing)
    {
      MissingAppend(items[..i], [items[i]], existing);
      MissingOne(items[i], existing);
      assert items[..i] + [items[i]] == items[..i + 1];
      if items[i] !in existing {
        missing := missing + [items[i]];
      }
    }
    assert items[..|items|] == items;
  }

  lemma MissingFirst(items: seq<string>, bodies: set<string>)
    ensures Missing(items, bodies) ==
            if items == [] then [] else (if items[0] in bodies then [] else [items[0]]) + Missing(items[1..], bodies)
  {
  }

  /** What is missing of two lists, one after the other, in their order. */
  lemma {:induction false} MissingAppend(a: seq<string>, b: seq<string>, bodies: set<string>)
    ensures Missing(a + b, bodies) == Missing(a, bodies) + Missing(b, bodies)
  {
    hide Missing;
    MissingFirst(a, bodies);
    if a == [] {
      assert a + b == b;
    } else {
      var first := if a[0] in bodies then [] else [a[0]];
      var rest, others := Missing(a[1..], bodies), Missing(b, bodies);
      MissingFirst(a + b, bodies);
      MissingAppend(a[1..], b, bodies);
      assert (a + b)[0] == a[0] && (a + b)[1..] == a[1..] + b;
      assert first + (rest + others) == (first + rest) + others;
    }
  }

  lemma MissingOne(item: string, bodies: set<string>)
    ensures Missing([item], bodies) == if item in bodies then [] else [item]
  {
    assert Missing([item][1..], bodies) == [];
  }
}
