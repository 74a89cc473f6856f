/**
 How the committed tables and the log that the streams read belong together, for one process
 and for many.
 */
module CommitLog {
  import opened Tables
  import A = AuditLog

  /** Rows of the events table are never changed or removed. */
  ghost predicate Kept(older: map<nat, AppEvent>, newer: map<nat, AppEvent>)
  {
    forall e :: e in older ==> e in newer && newer[e] == older[e]
  }

  /** The streams read the committed tables, and earlier ones held no other events. */
  ghost predicate LogOk(log: seq<Tables>, tables: Tables)
  {
    && log != [] && log[|log| - 1] == tables
    && forall k :: 0 <= k < |log| ==> Kept(log[k].events, tables.events)
  }

  lemma CommitAddsEvent(db: A.Db, i: nat)
    requires A.DbInv(db) && A.DbEnabled(db, A.Commit(i))
    ensures Kept(db.tables.events, A.DbNext(db, A.Commit(i)).tables.events)
  {
    assert A.TxOk(db, db.txs[i]);
    A.CommittedEvents(db, i);
    hide A.DbNext, A.DbInv;
  }

  lemma LogStarts(tables: Tables)
    ensures LogOk([tables], tables)
  {
  }

  lemma LogGrows(log: seq<Tables>, before: Tables, after: Tables)
    requires LogOk(log, before) && Kept(before.events, after.events)
    ensures LogOk(log + [after], after)
  {
    forall k | 0 <= k < |log| ensures Kept((log + [after])[k].events, after.events) {
      assert Kept(log[k].events, before.events);
    }
  }

  /** The one event of a request that has committed. */
  ghost predicate IsAudited(db: A.Db, e: nat, row: AppEvent)
  {
    && e in db.owner && db.owner[e] < |db.txs|
    && A.Done(db.txs[db.owner[e]]) && db.txs[db.owner[e]].event == e && row == A.EventOf(db.txs[db.owner[e]])
  }

  lemma OldEventIsAudited(db: A.Db, log: seq<Tables>, k: nat, e: nat)
    requires A.DbInv(db) && LogOk(log, db.tables) && k < |log|
    ensures e in log[k].events && e != 1 ==> IsAudited(db, e, log[k].events[e])
  {
    assert A.OwnersOk(db);
    hide A.DbInv, A.EventOf;
    assert Kept(log[k].events, db.tables.events);
  }

  /** The row of some request that has committed. */
  ghost predicate FromRequest(db: A.Db, row: AppEvent) { exists e :: IsAudited(db, e, row) }

  lemma FirstEvent(db: A.Db)
    requires A.DbInv(db)
    ensures 1 in db.tables.events
  {
  }

  lemma RowIsAudited(db: A.Db, log: seq<Tables>, k: nat, rows: seq<AppEvent>, ids: seq<nat>, i: nat)
    requires A.DbInv(db) && LogOk(log, db.tables) && k < |log|
    requires NewestAt(log[k].events, 10, rows, ids) && i < |rows|
    ensures 1 in db.tables.events
    ensures rows[i] == db.tables.events[1] || FromRequest(db, rows[i])
  {
    OldEventIsAudited(db, log, k, ids[i]);
    FirstEvent(db);
    assert Kept(log[k].events, db.tables.events);
    hide A.DbInv, IsAudited;
    assert IsAudited(db, ids[i], rows[i]) || ids[i] == 1;
  }

  lemma ListedAreAudited(db: A.Db, log: seq<Tables>, k: nat)
    requires A.DbInv(db) && LogOk(log, db.tables) && k < |log|
    ensures 1 in db.tables.events
    ensures forall row :: row in ListEvents(log[k].events, 10) ==>
              row == db.tables.events[1] || FromRequest(db, row)
  {
    var rows := ListEvents(log[k].events, 10);
    ListedRows(log[k].events, 10);
    var ids :| NewestAt(log[k].events, 10, rows, ids);
    hide A.DbInv, ListEvents, LogOk, NewestAt, NewestRows, FromRequest;
    FirstEvent(db);
    forall i: nat | i < |rows| ensures rows[i] == db.tables.events[1] || FromRequest(db, rows[i]) {
      RowIsAudited(db, log, k, rows, ids, i);
    }
  }

  ghost function Newer(events: map<nat, AppEvent>, e: nat): set<nat>
  {
    set k | k in events && k > e
  }

  lemma {:induction false} DescendingMany(ids: seq<nat>, all: set<nat>)
    requires Descending(ids) && forall i :: 0 <= i < |ids| ==> ids[i] in all
    ensures |ids| <= |all|
  {
    if ids != [] {
      var rest := ids[1..];
      forall i | 0 <= i < |rest| ensures rest[i] in all - {ids[0]} {
        assert rest[i] == ids[i + 1];
      }
      DescendingMany(rest, all - {ids[0]});
    }
  }

  /** A stored event with fewer than `limit` newer ones is in the listing. */
  lemma NewestListed(events: map<nat, AppEvent>, e: nat, limit: nat)
    requires e in events && |Newer(events, e)| < limit
    ensures events[e] in ListEvents(events, limit)
  {
    var below := Top(events.Keys);
    var ids := NewestIds(events, below, limit);
    NewestAreNewest(events, below, limit);
    if e !in ids {
      forall i | 0 <= i < |ids| ensures ids[i] in Newer(events, e) {
      }
      DescendingMany(ids, Newer(events, e));
      assert false;
    }
    var i :| 0 <= i < |ids| && ids[i] == e;
    assert ListEvents(events, limit)[i] == events[e];
  }

  /** What the streams read last is what the request left. */
  lemma StoredIsLast(db: A.Db, log: seq<Tables>, i: nat)
    requires A.DbInv(db) && LogOk(log, db.tables)
    requires i < |db.txs| && A.Done(db.txs[i]) && |Newer(db.tables.events, db.txs[i].event)| < 10
    ensures log[|log| - 1].todos == db.tables.todos
    ensures A.EventOf(db.txs[i]) in ListEvents(log[|log| - 1].events, 10)
  {
    assert A.OwnersOk(db);
    hide A.DbInv, A.EventOf, Newer, ListEvents;
    NewestListed(db.tables.events, db.txs[i].event, 10);
  }
}
