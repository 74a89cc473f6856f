/** The reads behind every page and snapshot: `ListTodos`, `viewModel` (internal/server/app.go). */
module ViewModel {
  import opened Tables
  import T = Tables

  datatype Stats = Stats(total: nat, done: nat)

  datatype TodoView = TodoView(id: string, body: string, done: bool, createdAt: int)

  datatype HomeView = HomeView(todos: seq<TodoView>, events: seq<AppEvent>, stats: Stats)

  function Open(stats: Stats): int { stats.total - stats.done }

  function DoneRows(rows: seq<Row>): nat
  {
    if rows == [] then 0 else DoneRows(rows[..|rows| - 1]) + if rows[|rows| - 1].todo.done then 1 else 0
  }

  /** The rows read so far: all but those of `left`, and none of those is newer. */
  ghost predicate Taken(todos: map<string, Todo>, left: set<string>, rows: seq<Row>)
  {
    && left <= todos.Keys && Ids(rows) == todos.Keys - left
    && (forall i :: 0 <= i < |rows| ==> rows[i].id in Ids(rows) && todos[rows[i].id] == rows[i].todo)
    && Distinct(rows) && NewestFirst(rows)
    && (forall i :: 0 <= i < |rows| ==> NoneNewer(todos, left, rows[i].todo))
  }

  lemma TakeNext(todos: map<string, Todo>, left: set<string>, rows: seq<Row>, next: string)
    requires Taken(todos, left, rows) && next in left && IsLatest(todos, left, next)
    ensures Taken(todos, left - {next}, rows + [Row(next, todos[next])])
  {
    IdsSnoc(rows, Row(next, todos[next]));
    assert forall i :: 0 <= i < |rows| ==> NoneNewer(todos, left, rows[i].todo);
  }

  /** The row source of `SELECT ... ORDER BY created_at DESC`, read into a list row by row. */
  method ListTodos(todos: map<string, Todo>) returns (rows: seq<Row>)
    ensures IsListing(todos, rows)
  {
    rows := [];
    var left := todos.Keys;
    while left != {}
      invariant Taken(todos, left, rows)
      decreases left
    {
      LatestExists(todos, left);
      var next :| next in left && IsLatest(todos, left, next);
      TakeNext(todos, left, rows, next);
      rows := rows + [Row(next, todos[next])];
      left := left - {next};
    }
  }

  /** Any bound above all ids lists the same events. */
  lemma {:induction false} BoundIrrelevant(events: map<nat, AppEvent>, low: nat, high: nat, limit: nat)
    requires low <= high && forall e :: e in events ==> e < low
    ensures NewestIds(events, high, limit) == NewestIds(events, low, limit)
  {
    if low < high && limit > 0 {
      BoundIrrelevant(events, low, high - 1, limit);
    }
  }

  /** `SELECT ... ORDER BY id DESC LIMIT limit`, read into a list row by row; ids lie below `next`. */
  method ListEvents(events: map<nat, AppEvent>, next: nat, limit: nat) returns (rows: seq<AppEvent>)
    requires forall e :: e in events ==> e < next
    ensures rows == T.ListEvents(events, limit) && NewestRows(events, limit, rows)
  {
    rows := [];
    ListedRows(events, limit);
    var ids := NewestIds(events, next, limit);
    NewestAreNewest(events, next, limit);
    for i := 0 to |ids|
      invariant |rows| == i && forall j :: 0 <= j < i ==> rows[j] == events[ids[j]]
    {
      rows := rows + [events[ids[i]]];
    }
    ghost var top := Top(events.Keys);
    if top <= next {
      BoundIrrelevant(events, top, next, limit);
    } else {
      BoundIrrelevant(events, next, top, limit);
    }
  }

  predicate NoneNewer(todos: map<string, Todo>, left: set<string>, todo: Todo)
    requires left <= todos.Keys
  {
    forall id :: id in left ==> todo.createdAt >= todos[id].createdAt
  }

  predicate IsLatest(todos: map<string, Todo>, left: set<string>, next: string)
    requires left <= todos.Keys && next in todos
  {
    forall id :: id in left ==> todos[next].createdAt >= todos[id].createdAt
  }

  lemma {:induction false} LatestExists(todos: map<string, Todo>, left: set<string>)
    requires left != {} && left <= todos.Keys
    ensures exists next :: next in left && IsLatest(todos, left, next)
    decreases left
  {
    var some :| some in left;
    var rest := left - {some};
    assert forall id :: id in left ==> id == some || id in rest;
    if rest == {} {
      assert IsLatest(todos, left, some);
    } else {
      LatestExists(todos, rest);
      var best :| best in rest && IsLatest(todos, rest, best);
      assert IsLatest(todos, left, if todos[some].createdAt >= todos[best].createdAt then some else best);
    }
  }

  lemma AllButLast(todos: map<string, Todo>, rows: seq<Row>)
    requires IsListing(todos, rows) && rows != []
    ensures IsListing(todos - {rows[|rows| - 1].id}, rows[..|rows| - 1])
  {
  }

  /** The counts of a listing are the counts of its table, whatever the order of ties. */
  lemma {:induction false} ListingCounts(todos: map<string, Todo>, rows: seq<Row>)
    requires IsListing(todos, rows)
    ensures |rows| == |todos| && DoneRows(rows) == |DoneIds(todos)|
    decreases |rows|
  {
    if rows == [] {
      assert todos.Keys == {};
      assert DoneIds(todos) == {};
    } else {
      var last := rows[|rows| - 1];
      AllButLast(todos, rows);
      ListingCounts(todos - {last.id}, rows[..|rows| - 1]);
      OneRowLess(todos, last.id);
    }
  }

  lemma OneRowLess(todos: map<string, Todo>, id: string)
    requires id in todos
    ensures |todos| == |todos - {id}| + 1
    ensures |DoneIds(todos)| == |DoneIds(todos - {id})| + if todos[id].done then 1 else 0
  {
    assert (todos - {id}).Keys == todos.Keys - {id};
    assert DoneIds(todos) == DoneIds(todos - {id}) + if todos[id].done then {id} else {};
  }

  function ViewIds(todos: seq<TodoView>): set<string> { set i | 0 <= i < |todos| :: todos[i].id }

  function DoneViews(todos: seq<TodoView>): set<nat> { set i | 0 <= i < |todos| && todos[i].done }

  function OpenViews(todos: seq<TodoView>): set<nat> { set i | 0 <= i < |todos| && !todos[i].done }

  predicate Copy(row: Row, view: TodoView)
  {
    && view.id == row.id && view.body == row.todo.body
    && view.done == row.todo.done && view.createdAt == row.todo.createdAt
  }

  lemma DoneSnoc(todos: seq<TodoView>, view: TodoView)
    ensures |DoneViews(todos + [view])| == |DoneViews(todos)| + if view.done then 1 else 0
    ensures |OpenViews(todos + [view])| == |OpenViews(todos)| + if view.done then 0 else 1
  {
    assert DoneViews(todos + [view]) == DoneViews(todos) + if view.done then {|todos|} else {};
    assert OpenViews(todos + [view]) == OpenViews(todos) + if view.done then {} else {|todos|};
  }

  lemma {:induction false} DoneAreDone(rows: seq<Row>, todos: seq<TodoView>)
    requires |todos| == |rows| && forall i :: 0 <= i < |rows| ==> Copy(rows[i], todos[i])
    ensures DoneRows(rows) == |DoneViews(todos)| && |OpenViews(todos)| == |todos| - |DoneViews(todos)|
    decreases |rows|
  {
    if rows == [] {
      assert DoneViews(todos) == OpenViews(todos) == {};
    } else {
      var last := |rows| - 1;
      DoneAreDone(rows[..last], todos[..last]);
      hide DoneViews, OpenViews;
      DoneSnoc(todos[..last], todos[last]);
      assert todos == todos[..last] + [todos[last]];
      assert Copy(rows[last], todos[last]);
    }
  }

  lemma SameIds(rows: seq<Row>, todos: seq<TodoView>)
    requires |todos| == |rows| && forall i :: 0 <= i < |rows| ==> Copy(rows[i], todos[i])
    ensures ViewIds(todos) == Ids(rows)
  {
    forall id | id in Ids(rows) ensures id in ViewIds(todos) {
      var i :| 0 <= i < |rows| && rows[i].id == id;
      assert Copy(rows[i], todos[i]) && todos[i].id == id;
    }
  }

  lemma EntryIsRow(table: map<string, Todo>, rows: seq<Row>, view: TodoView, i: nat)
    requires IsListing(table, rows) && i < |rows| && Copy(rows[i], view)
    ensures view.id in table && view.body == table[view.id].body
    ensures view.done == table[view.id].done && view.createdAt == table[view.id].createdAt
  {
  }

  lemma EntriesInOrder(table: map<string, Todo>, rows: seq<Row>, a: TodoView, b: TodoView, i: nat, j: nat)
    requires IsListing(table, rows) && i < j < |rows| && Copy(rows[i], a) && Copy(rows[j], b)
    ensures a.id != b.id && a.createdAt >= b.createdAt
  {
  }

  lemma ListingIsPage(table: map<string, Todo>, rows: seq<Row>, todos: seq<TodoView>)
    requires IsListing(table, rows) && |todos| == |rows| && forall i :: 0 <= i < |rows| ==> Copy(rows[i], todos[i])
    ensures ViewIds(todos) == table.Keys && DoneRows(rows) == |DoneViews(todos)|
    ensures |OpenViews(todos)| == |todos| - |DoneViews(todos)|
    ensures forall i :: 0 <= i < |todos| ==>
              && todos[i].id in table && todos[i].body == table[todos[i].id].body
              && todos[i].done == table[todos[i].id].done && todos[i].createdAt == table[todos[i].id].createdAt
    ensures forall i, j :: 0 <= i < j < |todos| ==>
              todos[i].id != todos[j].id && todos[i].createdAt >= todos[j].createdAt
  {
    DoneAreDone(rows, todos);
    SameIds(rows, todos);
    assert Ids(rows) == table.Keys;
    hide IsListing, DoneRows, DoneViews, OpenViews, ViewIds, Ids, Copy;
    forall i | 0 <= i < |todos|
      ensures todos[i].id in table && todos[i].body == table[todos[i].id].body
      ensures todos[i].done == table[todos[i].id].done && todos[i].createdAt == table[todos[i].id].createdAt
    {
      EntryIsRow(table, rows, todos[i], i);
    }
    forall i, j | 0 <= i < j < |todos|
      ensures todos[i].id != todos[j].id && todos[i].createdAt >= todos[j].createdAt
    {
      EntriesInOrder(table, rows, todos[i], todos[j], i, j);
    }
  }

  /**
   `viewModel` on the rows its two queries returned: the page lists every row of the table
   once, with its own body, mark and time, newest first, and the events as they were read. Its
   counts, also that of the open todos, are those of its own entries and those `CountTodos`
   would give on the same table.
   */
  method BuildViewModel(ghost table: map<string, Todo>, rows: seq<Row>, events: seq<AppEvent>) returns (vm: HomeView)
    requires IsListing(table, rows)
    ensures (set i | 0 <= i < |vm.todos| :: vm.todos[i].id) == table.Keys
    ensures forall i :: 0 <= i < |vm.todos| ==>
              var view := vm.todos[i];
              && view.id in table && view.body == table[view.id].body
              && view.done == table[view.id].done && view.createdAt == table[view.id].createdAt
    ensures forall i, j :: 0 <= i < j < |vm.todos| ==>
              vm.todos[i].id != vm.todos[j].id && vm.todos[i].createdAt >= vm.todos[j].createdAt
    ensures vm.events == events
    ensures vm.stats.total == |vm.todos| && vm.stats.done == |set i | 0 <= i < |vm.todos| && vm.todos[i].done|
    ensures vm.stats == Stats(CountTodos(table).total, CountTodos(table).done)
    ensures Open(vm.stats) == |set i | 0 <= i < |vm.todos| && !vm.todos[i].done|
  {
    hide IsListing;
    var total, done := |rows|, 0;
    var todos: seq<TodoView> := [];
    for i := 0 to |rows|
      invariant |todos| == i && forall j :: 0 <= j < i ==> Copy(rows[j], todos[j])
      invariant done == DoneRows(rows[..i]) && done <= i
    {
      assert rows[..i + 1][..i] == rows[..i];
      if rows[i].todo.done {
        done := done + 1;
      }
      todos := todos + [TodoView(rows[i].id, rows[i].todo.body, rows[i].todo.done, rows[i].todo.createdAt)];
    }
    assert rows[..|rows|] == rows;
    var shown: seq<AppEvent> := [];
    for i := 0 to |events|
      invariant shown == events[..i]
    {
      shown := shown + [events[i]];
    }
    ListingCounts(table, rows);
    ListingIsPage(table, rows, todos);
    vm := HomeView(todos, shown, Stats(total, done));
  }
}
