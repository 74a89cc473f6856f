/** The showcase seed: its handler and what running it again does. */
module Seeding {
  import opened Options
  import opened Tables
  import opened Effects
  import opened AuditLog
  import opened Handlers
  import V = ViewModel

  /** Exactly the required items that no todo has. */
  lemma {:induction false} MissingMembers(items: seq<string>, bodies: set<string>)
    ensures forall x :: x in Missing(items, bodies) <==> x in items && x !in bodies
    ensures |Missing(items, bodies)| <= |items|
    ensures (forall x :: x in items ==> x in bodies) ==> Missing(items, bodies) == []
  {
    if items != [] {
      MissingMembers(items[1..], bodies);
    }
  }

  /** Stored as it is written. */
  predicate Fits(item: string) { B.SqlTrim(item) == item && B.Storable(item) && B.AllowedAfterSplit(item) }

  lemma SeedItemFits(item: string)
    requires item in SHOWCASE_SEED_ITEMS
    ensures Fits(item)
  {
  }

  ghost predicate FreshIds(todos: map<string, Todo>, ids: seq<string>)
  {
    && (forall i :: 0 <= i < |ids| ==> ids[i] !in todos)
    && (forall i, j :: 0 <= i < j < |ids| ==> ids[i] != ids[j])
  }

  /** Whatever is missing is one of the items, and fits. */
  lemma MissingFits(bodies: set<string>, missing: seq<string>)
    requires missing == Missing(SHOWCASE_SEED_ITEMS, bodies)
    ensures |missing| <= |SHOWCASE_SEED_ITEMS|
    ensures forall i :: 0 <= i < |missing| ==> Fits(missing[i])
  {
    hide Fits;
    MissingMembers(SHOWCASE_SEED_ITEMS, bodies);
    forall i | 0 <= i < |missing| ensures Fits(missing[i]) {
      assert missing[i] in missing;
      SeedItemFits(missing[i]);
    }
  }

  lemma InsertNone(todos: map<string, Todo>, items: seq<string>, ids: seq<string>, now: int)
    requires items == []
    ensures InsertAll(todos, items, ids, now) == todos
  {
  }

  lemma {:induction false} InsertAllRows(todos: map<string, Todo>, items: seq<string>, ids: seq<string>, now: int)
    requires |ids| >= |items| && FreshIds(todos, ids)
    requires forall i :: 0 <= i < |items| ==> B.SqlTrim(items[i]) == items[i]
    ensures var after := InsertAll(todos, items, ids, now);
            && (forall id :: id in todos ==> id in after && after[id] == todos[id])
            && (forall i :: 0 <= i < |items| ==> ids[i] in after && after[ids[i]] == Todo(items[i], false, now))
            && (forall id :: id in after ==> id in todos || id in ids[..|items|])
    decreases |items|
  {
    hide B.SqlTrim, InsertAll;
    if items == [] {
      InsertNone(todos, items, ids, now);
    } else {
      var last := |items| - 1;
      InsertAllRows(todos, items[..last], ids, now);
      InsertLast(todos, items, ids, now);
      assert ids[..|items|] == ids[..last] + [ids[last]];
    }
  }

  lemma InsertLast(todos: map<string, Todo>, items: seq<string>, ids: seq<string>, now: int)
    requires items != [] && |ids| >= |items|
    ensures var last := |items| - 1;
            InsertAll(todos, items, ids, now) ==
            InsertAll(todos, items[..last], ids, now)[ids[last] := Todo(B.SqlTrim(items[last]), false, now)]
  {
  }

  /** A listing shows exactly the bodies of its table. */
  lemma ListingBodies(todos: map<string, Todo>, rows: seq<Row>)
    requires IsListing(todos, rows)
    ensures (set i | 0 <= i < |rows| :: rows[i].todo.body) == Bodies(todos)
  {
  }

  method MissingFromTable(todos: map<string, Todo>) returns (missing: seq<string>)
    ensures missing == Missing(SHOWCASE_SEED_ITEMS, Bodies(todos))
  {
    var rows := V.ListTodos(todos);
    missing := MissingShowcaseSeedItems(rows);
    ListingBodies(todos, rows);
  }

  lemma SeedWrites(t: Tables, put: map<string, Todo>, ids: seq<string>, now: int, e: nat)
    requires |ids| >= |Missing(SHOWCASE_SEED_ITEMS, Bodies(t.todos))|
    requires t.todos + put == InsertAll(t.todos, Missing(SHOWCASE_SEED_ITEMS, Bodies(t.todos)), ids, now)
    ensures var event := SeedEvent(|Missing(SHOWCASE_SEED_ITEMS, Bodies(t.todos))|);
            Apply(t, Writes(put, {}, map[e := event], {})) == AfterSeed(t, ids, now, e)
  {
    hide SHOWCASE_SEED_ITEMS, Missing, InsertAll, SeedEvent, Bodies;
    assert t.todos - {} == t.todos;
  }

  /** The transaction of `seedShowcase`: list, insert what is missing, record it, commit. */
  method SeedTx(server: Server, ids: seq<string>, now: int) returns (ok: bool)
    requires |ids| == |SHOWCASE_SEED_ITEMS| && FreshIds(server.tables.todos, ids) && server.CountersAhead()
    modifies server`tables, server`faults, server`nextEvent
    ensures |ids| >= |Missing(SHOWCASE_SEED_ITEMS, Bodies(old(server.tables.todos)))|
    ensures server.tables == if ok then AfterSeed(old(server.tables), ids, now, old(server.nextEvent))
                             else old(server.tables)
    ensures server.CountersAhead()
    ensures old(server.Healthy()) ==> server.Healthy() && ok
  {
    hide SHOWCASE_SEED_ITEMS, Missing, Fits, InsertAll, SeedEvent, Bodies, FreshIds, Apply;
    MissingFits(Bodies(server.tables.todos), Missing(SHOWCASE_SEED_ITEMS, Bodies(server.tables.todos)));
    var failed := server.Fails();
    if failed { return false; }
    var tx := new Transaction(server);
    failed := server.Fails();
    if failed { return false; }
    var missing := MissingFromTable(server.tables.todos);
    ok := InsertMissing(server, tx, missing, ids, now);
    if !ok { return false; }
    SeedWrites(server.tables, tx.writes.put, ids, now, server.nextEvent);
    ok := tx.InsertEvent(SeedEvent(|missing|));
    if !ok { return false; }
    ok := tx.Commit();
  }

  /** `seedShowcase`; `ids` and `now` are what the inserts generate. */
  method SeedShowcase(server: Server, ids: seq<string>, now: int) returns (ghost committed: bool, r: Outcome)
    requires |ids| == |SHOWCASE_SEED_ITEMS| && FreshIds(server.tables.todos, ids) && server.CountersAhead()
    modifies server
    ensures server.CountersAhead()
    ensures |ids| >= |Missing(SHOWCASE_SEED_ITEMS, Bodies(old(server.tables.todos)))|
    ensures committed ==>
              && server.tables == AfterSeed(old(server.tables), ids, now, old(server.nextEvent))
              && server.published == old(server.published) + ["seed"]
    ensures !committed ==> Untouched(server)
    ensures r == ServerError || (committed && r == Page(Some(B.NoError), None))
    ensures old(server.Healthy()) ==> committed && r != ServerError
  {
    hide SHOWCASE_SEED_ITEMS, Missing, InsertAll, SeedEvent, Bodies, FreshIds;
    var ok := SeedTx(server, ids, now);
    committed := ok;
    if !ok { return false, ServerError; }
    server.PublishChange(Reason(Seed));
    r := Respond(server, Some(B.NoError), false);
  }

  /** The rows put so far are those of the first `n` ids. */
  ghost predicate PutIds(put: map<string, Todo>, ids: seq<string>, n: nat)
  {
    n <= |ids| && forall id :: id in put ==> id in ids[..n]
  }

  lemma PutNextId(put: map<string, Todo>, ids: seq<string>, n: nat, row: Todo)
    requires n < |ids| && PutIds(put, ids, n)
    requires forall i, j :: 0 <= i < j < |ids| ==> ids[i] != ids[j]
    ensures ids[n] !in put && PutIds(put[ids[n] := row], ids, n + 1)
  {
  }

  lemma PutNextRow(todos: map<string, Todo>, put: map<string, Todo>, missing: seq<string>,
                   ids: seq<string>, now: int, n: nat)
    requires n < |missing| <= |ids|
    requires todos + put == InsertAll(todos, missing[..n], ids, now)
    ensures var row := Todo(B.SqlTrim(missing[n]), false, now);
            todos + put[ids[n] := row] == InsertAll(todos, missing[..n + 1], ids, now)
  {
    hide B.SqlTrim;
    var row := Todo(B.SqlTrim(missing[n]), false, now);
    assert missing[..n + 1][..n] == missing[..n];
    assert todos + put[ids[n] := row] == (todos + put)[ids[n] := row];
  }

  method InsertMissing(server: Server, tx: Transaction, missing: seq<string>, ids: seq<string>, now: int)
    returns (ok: bool)
    requires tx.server == server && tx.writes == NOTHING
    requires |missing| <= |ids| && FreshIds(server.tables.todos, ids)
    requires forall i :: 0 <= i < |missing| ==> Fits(missing[i])
    modifies tx, server`faults
    ensures ok ==> tx.writes == NOTHING.(put := tx.writes.put)
    ensures ok ==> server.tables.todos + tx.writes.put == InsertAll(server.tables.todos, missing, ids, now)
    ensures old(server.Healthy()) ==> server.Healthy() && ok
  {
    hide B.SqlTrim, B.Storable, B.AllowedAfterSplit, InsertAll;
    ghost var todos := server.tables.todos;
    assert todos + tx.writes.put == InsertAll(todos, missing[..0], ids, now) by {
      InsertNone(todos, missing[..0], ids, now);
    }
    for i := 0 to |missing|
      invariant tx.writes == NOTHING.(put := tx.writes.put) && PutIds(tx.writes.put, ids, i)
      invariant todos + tx.writes.put == InsertAll(todos, missing[..i], ids, now)
      invariant old(server.Healthy()) ==> server.Healthy()
    {
      assert Fits(missing[i]);
      PutNextId(tx.writes.put, ids, i, Todo(B.SqlTrim(missing[i]), false, now));
      PutNextRow(todos, tx.writes.put, missing, ids, now, i);
      var created := tx.CreateTodo(ids[i], missing[i], now);
      if !created.Got? { return false; }
    }
    assert missing[..|missing|] == missing;
    return true;
  }

  predicate AllPresent(todos: map<string, Todo>)
  {
    forall i :: 0 <= i < |SHOWCASE_SEED_ITEMS| ==> SHOWCASE_SEED_ITEMS[i] in Bodies(todos)
  }

  /**
   At any time, whatever happened since an earlier run: a run leaves the rows alone exactly if
   every required item has a row, and then it only says so.
   */
  lemma SeedAddsNothing(t: Tables, ids: seq<string>, now: int, e: nat)
    requires |ids| == |SHOWCASE_SEED_ITEMS| && FreshIds(t.todos, ids)
    ensures |ids| >= |Missing(SHOWCASE_SEED_ITEMS, Bodies(t.todos))|
    ensures AfterSeed(t, ids, now, e).todos == t.todos <==> AllPresent(t.todos)
    ensures AllPresent(t.todos) ==>
              AfterSeed(t, ids, now, e) == AfterEvent(t, e, AppEvent("seed", "showcase seed already present"))
  {
    hide SHOWCASE_SEED_ITEMS, B.SqlTrim, B.Storable, B.AllowedAfterSplit, Bodies;
    var items := SHOWCASE_SEED_ITEMS;
    var missing := Missing(items, Bodies(t.todos));
    MissingMembers(items, Bodies(t.todos));
    if missing != [] {
      assert missing[0] in missing;
      MissingFits(Bodies(t.todos), missing);
      InsertAllRows(t.todos, missing, ids, now);
      assert ids[0] in AfterSeed(t, ids, now, e).todos;
    }
  }

  /**
   After one run every required item is there and the rows that were there are as before; a
   run right after it, on whatever ids, adds no row and only says that everything is present.
   */
  lemma SeedTwice(t: Tables, ids: seq<string>, now: int, e: nat, again: seq<string>, later: int, f: nat)
    requires |ids| == |again| == |SHOWCASE_SEED_ITEMS| && FreshIds(t.todos, ids)
    ensures |ids| >= |Missing(SHOWCASE_SEED_ITEMS, Bodies(t.todos))|
    ensures var once := AfterSeed(t, ids, now, e);
            && AllPresent(once.todos)
            && (forall id :: id in t.todos ==> id in once.todos && once.todos[id] == t.todos[id])
            && |Missing(SHOWCASE_SEED_ITEMS, Bodies(once.todos))| == 0
            && AfterSeed(once, again, later, f)
               == AfterEvent(once, f, AppEvent("seed", "showcase seed already present"))
  {
    hide SHOWCASE_SEED_ITEMS, B.SqlTrim, B.Storable, B.AllowedAfterSplit;
    var items := SHOWCASE_SEED_ITEMS;
    var missing := Missing(items, Bodies(t.todos));
    MissingMembers(items, Bodies(t.todos));
    MissingFits(Bodies(t.todos), missing);
    InsertAllRows(t.todos, missing, ids, now);
    var once := AfterSeed(t, ids, now, e);
    forall item | item in items ensures item in Bodies(once.todos) {
      if item in missing {
        var i :| 0 <= i < |missing| && missing[i] == item;
        assert once.todos[ids[i]].body == item;
      } else {
        var id :| id in t.todos && t.todos[id].body == item;
        assert once.todos[id].body == item;
      }
    }
    MissingMembers(items, Bodies(once.todos));
  }
}
