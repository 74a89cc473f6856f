/** The rows of internal/db/migrations and the reads of internal/db/todos.sql.go. */
module Tables {
  datatype Todo = Todo(body: string, done: bool, createdAt: int)

  datatype AppEvent = AppEvent(kind: string, body: string)

  /** One committed state: the two tables and the jobs ever queued. */
  datatype Tables = Tables(todos: map<string, Todo>, events: map<nat, AppEvent>, jobs: set<nat>)

  // ---- ListEvents ----------------------------------------------------------------------

  /** `ORDER BY id DESC LIMIT limit` over the ids below a bound. */
  function NewestIds(events: map<nat, AppEvent>, below: nat, limit: nat): seq<nat>
    decreases below
  {
    if below == 0 || limit == 0 then []
    else if below - 1 in events then [below - 1] + NewestIds(events, below - 1, limit - 1)
    else NewestIds(events, below - 1, limit)
  }

  ghost predicate Descending(ids: seq<nat>)
  {
    forall i, j :: 0 <= i < j < |ids| ==> ids[i] > ids[j]
  }

  /** The listed ids are ids of the table, newest first. */
  lemma {:induction false} ListedIds(events: map<nat, AppEvent>, below: nat, limit: nat)
    ensures var ids := NewestIds(events, below, limit);
            && |ids| <= limit && Descending(ids)
            && forall i :: 0 <= i < |ids| ==> ids[i] < below && ids[i] in events
    decreases below
  {
    if below > 0 && limit > 0 {
      ListedIds(events, below - 1, if below - 1 in events then limit - 1 else limit);
    }
  }

  /** Nothing is left out but what is older than a full list. */
  lemma {:induction false} LeftOutIsOlder(events: map<nat, AppEvent>, below: nat, limit: nat, e: nat)
    requires e in events && e < below && e !in NewestIds(events, below, limit)
    ensures var ids := NewestIds(events, below, limit);
            |ids| == limit && forall i :: 0 <= i < |ids| ==> e < ids[i]
    decreases below
  {
    if limit > 0 {
      var rest := NewestIds(events, below - 1, if below - 1 in events then limit - 1 else limit);
      if below - 1 in events {
        assert NewestIds(events, below, limit) == [below - 1] + rest;
        assert ([below - 1] + rest)[0] == below - 1 && forall x :: x in rest ==> x in [below - 1] + rest;
        hide NewestIds;
        LeftOutIsOlder(events, below - 1, limit - 1, e);
      } else {
        LeftOutIsOlder(events, below - 1, limit, e);
      }
    }
  }

  /** The listed ids are descending ids of the table, and whatever is left out is older. */
  lemma {:induction false} NewestAreNewest(events: map<nat, AppEvent>, below: nat, limit: nat)
    ensures var ids := NewestIds(events, below, limit);
            && |ids| <= limit && Descending(ids)
            && (forall i :: 0 <= i < |ids| ==> ids[i] < below && ids[i] in events)
            && (forall e :: e in events && e < below && e !in ids ==>
                  |ids| == limit && forall i :: 0 <= i < |ids| ==> e < ids[i])
  {
    hide NewestIds;
    var ids := NewestIds(events, below, limit);
    ListedIds(events, below, limit);
    forall e | e in events && e < below && e !in ids
      ensures |ids| == limit && forall i :: 0 <= i < |ids| ==> e < ids[i]
    {
      LeftOutIsOlder(events, below, limit, e);
    }
  }

  ghost function Top(ids: set<nat>): (top: nat)
    ensures forall id: nat :: id in ids ==> id < top
  {
    if ids == {} then 0
    else
      var id :| id in ids;
      var rest := Top(ids - {id});
      assert forall other :: other in ids ==> other == id || other in ids - {id};
      if rest > id then rest else id + 1
  }

  ghost function ListEvents(events: map<nat, AppEvent>, limit: nat): seq<AppEvent>
  {
    NewestAreNewest(events, Top(events.Keys), limit);
    var ids := NewestIds(events, Top(events.Keys), limit);
    seq(|ids|, i requires 0 <= i < |ids| => events[ids[i]])
  }

  /** `ids` are the newest ids of the table, and `rows` their rows in the same order. */
  ghost predicate NewestAt(events: map<nat, AppEvent>, limit: nat, rows: seq<AppEvent>, ids: seq<nat>)
  {
    && |ids| == |rows| <= limit && Descending(ids)
    && (forall i :: 0 <= i < |ids| ==> ids[i] in events && rows[i] == events[ids[i]])
    && (forall e :: e in events && e !in ids ==> |ids| == limit && forall i :: 0 <= i < |ids| ==> e < ids[i])
  }

  /** The rows of the newest events, newest first: all of them, or as many as the limit allows. */
  ghost predicate NewestRows(events: map<nat, AppEvent>, limit: nat, rows: seq<AppEvent>)
  {
    exists ids :: NewestAt(events, limit, rows, ids)
  }

  lemma ListedRows(events: map<nat, AppEvent>, limit: nat)
    ensures NewestRows(events, limit, ListEvents(events, limit))
  {
    var ids := NewestIds(events, Top(events.Keys), limit);
    NewestAreNewest(events, Top(events.Keys), limit);
    hide NewestIds, Top;
    assert NewestAt(events, limit, ListEvents(events, limit), ids);
  }

  lemma NotListed(ids: seq<nat>, k: nat, e: nat)
    requires Descending(ids) && k <= |ids| && (k > 0 ==> e < ids[k - 1]) && (k < |ids| ==> ids[k] < e)
    ensures e !in ids
  {
  }

  /** Of two lists of newest ids neither ends or goes down before the other. */
  lemma NoGap(events: map<nat, AppEvent>, limit: nat, rows: seq<AppEvent>, ids: seq<nat>, k: nat, e: nat)
    requires NewestAt(events, limit, rows, ids) && k <= |ids| && k < limit && e in events
    requires k > 0 ==> e < ids[k - 1]
    ensures k < |ids| && e <= ids[k]
  {
    if k == |ids| || ids[k] < e {
      assert Descending(ids);
      NotListed(ids, k, e);
      assert false;
    }
  }

  lemma Steps(events: map<nat, AppEvent>, limit: nat, rows: seq<AppEvent>, ids: seq<nat>, k: nat)
    requires NewestAt(events, limit, rows, ids) && k < |ids|
    ensures k < limit && ids[k] in events && (k > 0 ==> ids[k] < ids[k - 1])
  {
  }

  lemma NextSame(events: map<nat, AppEvent>, limit: nat, a: seq<AppEvent>, b: seq<AppEvent>,
                 x: seq<nat>, y: seq<nat>, k: nat)
    requires NewestAt(events, limit, a, x) && NewestAt(events, limit, b, y)
    requires k < |x| && k <= |y| && (k > 0 ==> x[k - 1] == y[k - 1])
    ensures k < |y| && x[k] == y[k]
  {
    Steps(events, limit, a, x, k);
    NoGap(events, limit, b, y, k, x[k]);
    Steps(events, limit, b, y, k);
    NoGap(events, limit, a, x, k, y[k]);
    hide NewestAt;
  }

  lemma {:induction false} SameIds(events: map<nat, AppEvent>, limit: nat, a: seq<AppEvent>, b: seq<AppEvent>,
                                   x: seq<nat>, y: seq<nat>, k: nat)
    requires NewestAt(events, limit, a, x) && NewestAt(events, limit, b, y) && k < |x|
    ensures k < |y| && x[k] == y[k]
  {
    hide NewestAt;
    if k > 0 {
      SameIds(events, limit, a, b, x, y, k - 1);
    }
    NextSame(events, limit, a, b, x, y, k);
  }

  /** No two lists of rows are both the newest ones. */
  lemma NewestRowsUnique(events: map<nat, AppEvent>, limit: nat, a: seq<AppEvent>, b: seq<AppEvent>)
    requires NewestRows(events, limit, a) && NewestRows(events, limit, b)
    ensures a == b
  {
    var x :| NewestAt(events, limit, a, x);
    var y :| NewestAt(events, limit, b, y);
    IdsGiveRows(events, limit, a, x);
    IdsGiveRows(events, limit, b, y);
    hide NewestAt, NewestRows;
    forall k: nat | k < |x| ensures k < |y| && x[k] == y[k] {
      SameIds(events, limit, a, b, x, y, k);
    }
    assert x == y by {
      if |x| < |y| { SameIds(events, limit, b, a, y, x, |x|); }
      if |y| < |x| { SameIds(events, limit, a, b, x, y, |y|); }
    }
  }

  lemma IdsGiveRows(events: map<nat, AppEvent>, limit: nat, rows: seq<AppEvent>, ids: seq<nat>)
    requires NewestAt(events, limit, rows, ids)
    ensures forall i :: 0 <= i < |ids| ==> ids[i] in events
    ensures rows == seq(|ids|, i requires 0 <= i < |ids| && ids[i] in events => events[ids[i]])
  {
  }

  // ---- ListTodos and CountTodos --------------------------------------------------------

  datatype Row = Row(id: string, todo: Todo)

  function Ids(rows: seq<Row>): set<string>
  {
    set i | 0 <= i < |rows| :: rows[i].id
  }

  lemma IdsSnoc(rows: seq<Row>, row: Row)
    ensures Ids(rows + [row]) == Ids(rows) + {row.id}
  {
    forall id | id in Ids(rows) + {row.id} ensures id in Ids(rows + [row]) {
      if id == row.id {
        assert (rows + [row])[|rows|].id == id;
      } else {
        var i :| 0 <= i < |rows| && rows[i].id == id;
        assert (rows + [row])[i].id == id;
      }
    }
  }

  /** A result of `ORDER BY created_at DESC`: every row once, ties in any order. */
  ghost predicate IsListing(todos: map<string, Todo>, rows: seq<Row>)
  {
    && Ids(rows) == todos.Keys
    && (forall i :: 0 <= i < |rows| ==> rows[i].id in todos && todos[rows[i].id] == rows[i].todo)
    && Distinct(rows) && NewestFirst(rows)
  }

  ghost predicate Distinct(rows: seq<Row>) { forall i, j :: 0 <= i < j < |rows| ==> rows[i].id != rows[j].id }

  ghost predicate NewestFirst(rows: seq<Row>)
  {
    forall i, j :: 0 <= i < j < |rows| ==> rows[i].todo.createdAt >= rows[j].todo.createdAt
  }

  datatype Counts = Counts(total: nat, done: nat)

  function DoneIds(todos: map<string, Todo>): set<string>
  {
    set id | id in todos && todos[id].done
  }

  lemma SubsetSize(part: set<string>, all: set<string>)
    requires part <= all
    ensures |part| <= |all|
  {
    assert part + (all - part) == all;
  }

  /** `count(*)` and `count(*) FILTER (WHERE done)`. */
  function CountTodos(todos: map<string, Todo>): (counts: Counts)
    ensures counts.done <= counts.total
  {
    SubsetSize(DoneIds(todos), todos.Keys);
    Counts(|todos|, |DoneIds(todos)|)
  }
}
