/**
 The audit trail of one todo. Event ids are taken before the commit, and other transactions
 interleave and roll back, yet sorted by id the committed events of a todo tell its history.
 */
module AuditOrder {
  import opened Options
  import opened Effects
  import opened AuditLog

  // ---- Histories -----------------------------------------------------------------------

  /** A todo before it exists, while it does, and after it was deleted. */
  datatype Stand = Unborn | There(done: bool) | Gone

  function Move(stand: Stand, action: Action): Option<Stand>
  {
    match (stand, action)
    case (Unborn, Created) => Some(There(false))
    case (There(false), MarkedDone) => Some(There(true))
    case (There(true), MarkedOpen) => Some(There(false))
    case (There(_), Deleted) => Some(Gone)
    case _ => None
  }

  function Follow(from: Stand, actions: seq<Action>): Option<Stand>
  {
    if actions == [] then Some(from)
    else match Follow(from, actions[..|actions| - 1])
      case None => None
      case Some(stand) => Move(stand, actions[|actions| - 1])
  }

  lemma FollowOne(from: Stand, actions: seq<Action>, action: Action)
    ensures Follow(from, actions + [action]) ==
            match Follow(from, actions) case None => None case Some(stand) => Move(stand, action)
  {
  }

  function Cycles(k: nat): seq<Action>
  {
    if k == 0 then [] else Cycles(k - 1) + [MarkedDone, MarkedOpen]
  }

  /** created, (marked done, marked open)^k, perhaps marked done, perhaps deleted. */
  function History(k: nat, done: bool, deleted: bool): seq<Action>
  {
    [Created] + Cycles(k) + (if done then [MarkedDone] else []) + (if deleted then [Deleted] else [])
  }

  lemma FollowNone(k: nat)
    ensures Follow(Unborn, []) == Some(Unborn) && Cycles(0) == []
    ensures k > 0 ==> Cycles(k) == Cycles(k - 1) + [MarkedDone, MarkedOpen]
  {
  }

  /** Every such history can be followed, and ends where its last mark says. */
  lemma {:induction false} HistoryFollows(k: nat, done: bool, deleted: bool)
    ensures Follow(Unborn, History(k, done, deleted)) == Some(if deleted then Gone else There(done))
    decreases k, done, deleted
  {
    hide Follow, Cycles;
    FollowNone(k);
    if deleted {
      HistoryFollows(k, done, false);
      FollowOne(Unborn, History(k, done, false), Deleted);
      assert History(k, done, false) + [Deleted] == History(k, done, true);
    } else if done {
      HistoryFollows(k, false, false);
      FollowOne(Unborn, History(k, false, false), MarkedDone);
      assert History(k, false, false) + [MarkedDone] == History(k, true, false);
    } else if k > 0 {
      HistoryFollows(k - 1, true, false);
      FollowOne(Unborn, History(k - 1, true, false), MarkedOpen);
      assert History(k - 1, true, false) + [MarkedOpen] == History(k, false, false);
    } else {
      FollowOne(Unborn, [], Created);
      assert [] + [Created] == History(0, false, false);
    }
  }

  ghost predicate IsHistory(actions: seq<Action>, stand: Stand)
  {
    match stand
    case Unborn => actions == []
    case There(done) => exists k: nat :: actions == History(k, done, false)
    case Gone => exists k: nat, done :: actions == History(k, done, true)
  }

  /** And nothing else can be followed. */
  lemma {:induction false} FollowedIsHistory(actions: seq<Action>)
    requires Follow(Unborn, actions).Some?
    ensures IsHistory(actions, Follow(Unborn, actions).value)
    decreases |actions|
  {
    if actions != [] {
      var init, last := actions[..|actions| - 1], actions[|actions| - 1];
      assert actions == init + [last];
      FollowedIsHistory(init);
      match Follow(Unborn, init).value {
        case Unborn =>
          assert actions == History(0, false, false);
        case There(done) =>
          var k: nat :| init == History(k, done, false);
          if last.Deleted? {
            assert actions == History(k, done, true);
          } else if last.MarkedDone? {
            assert actions == History(k, true, false);
          } else {
            assert done && History(k + 1, false, false) == History(k, true, false) + [MarkedOpen];
          }
      }
    }
  }

  // ---- The trail of a todo in the events table -----------------------------------------

  predicate Concerns(tx: Tx, id: string)
  {
    (tx.request.Create? || tx.request.Toggle? || tx.request.Delete?) && tx.subject == id
  }

  function ActionOf(tx: Tx): Action
    requires tx.request.Create? || tx.request.Toggle? || tx.request.Delete?
  {
    match tx.request
    case Create(_) => Created
    case Toggle(_) => if tx.row.done then MarkedDone else MarkedOpen
    case Delete(_) => Deleted
  }

  predicate EventAbout(s: Db, e: nat, id: string)
  {
    e in s.owner && s.owner[e] < |s.txs| && Concerns(s.txs[s.owner[e]], id)
  }

  /** The committed events about a todo, by event id. */
  function About(s: Db, id: string): map<nat, Action>
  {
    map e | e in s.owner && EventAbout(s, e, id) :: ActionOf(s.txs[s.owner[e]])
  }

  /** The actions of a map from event ids, sorted by id. */
  function Sorted(m: map<nat, Action>, below: nat): seq<Action>
  {
    if below == 0 then []
    else Sorted(m, below - 1) + if below - 1 in m then [m[below - 1]] else []
  }

  /** An event with the highest id so far comes last. */
  lemma {:induction false} SortedInsert(m: map<nat, Action>, e: nat, action: Action, below: nat)
    requires forall k :: k in m ==> k < e
    requires e < below
    ensures Sorted(m[e := action], below) == Sorted(m, below) + [action]
  {
    if below - 1 > e {
      SortedInsert(m, e, action, below - 1);
    } else {
      SortedSame(m, m[e := action], e);
    }
  }

  lemma {:induction false} SortedSame(m: map<nat, Action>, n: map<nat, Action>, below: nat)
    requires forall k :: 0 <= k < below ==> (k in m <==> k in n) && (k in m ==> m[k] == n[k])
    ensures Sorted(m, below) == Sorted(n, below)
  {
    if below > 0 {
      SortedSame(m, n, below - 1);
    }
  }

  function Trail(s: Db, id: string): seq<Action> { Sorted(About(s, id), s.nextEvent) }

  // ---- The invariant -------------------------------------------------------------------

  /** The trail leads from where the row came into being to where it stands in the table. */
  ghost predicate TrailOk(s: Db, id: string)
    requires id in s.used
  {
    var origin := if s.used[id] then Unborn else There(false);
    if id in s.tables.todos
    then Follow(origin, Trail(s, id)) == Some(There(s.tables.todos[id].done))
    else About(s, id) == map[] || Follow(origin, Trail(s, id)) == Some(Gone)
  }

  /** A logged transaction has a higher event id than every committed event about its todo. */
  ghost predicate LogsLast(s: Db, tx: Tx)
  {
    tx.stage.Logged? ==> forall id: string, e: nat :: Concerns(tx, id) && EventAbout(s, e, id) ==> e < tx.event
  }

  /** A row that is not committed yet has no committed events. */
  ghost predicate NewRowsQuiet(s: Db, tx: Tx)
  {
    forall id :: Active(tx) && id in tx.writes.put && id !in s.tables.todos ==> About(s, id) == map[]
  }

  ghost predicate TrailInv(s: Db)
  {
    && (forall id :: id in s.used ==> TrailOk(s, id))
    && (forall id :: id !in s.used ==> About(s, id) == map[])
    && (forall i :: 0 <= i < |s.txs| ==> LogsLast(s, s.txs[i]) && NewRowsQuiet(s, s.txs[i]))
  }

  predicate SameRequest(a: Tx, b: Tx) { a.request == b.request && a.subject == b.subject && a.row == b.row }

  ghost predicate SameOwned(s: Db, t: Db)
  {
    forall e :: e in s.owner ==>
                  s.owner[e] < |s.txs| <= |t.txs| && SameRequest(t.txs[s.owner[e]], s.txs[s.owner[e]])
  }

  lemma AboutFrame(s: Db, t: Db, id: string)
    requires t.owner == s.owner && SameOwned(s, t)
    ensures About(t, id) == About(s, id)
  {
  }

  lemma SameAction(a: Tx, b: Tx, id: string)
    requires SameRequest(a, b)
    ensures Concerns(a, id) <==> Concerns(b, id)
    ensures Concerns(a, id) ==> ActionOf(a) == ActionOf(b)
  {
  }

  lemma EventAboutStays(s: Db, t: Db, id: string, k: nat)
    requires k in s.owner && k in t.owner && t.owner[k] == s.owner[k] && SameOwned(s, t)
    ensures EventAbout(t, k, id) <==> EventAbout(s, k, id)
    ensures EventAbout(s, k, id) ==> ActionOf(t.txs[t.owner[k]]) == ActionOf(s.txs[s.owner[k]])
  {
    SameAction(t.txs[s.owner[k]], s.txs[s.owner[k]], id);
  }

  lemma AboutOne(s: Db, id: string, k: nat)
    ensures k in About(s, id) <==> EventAbout(s, k, id)
    ensures EventAbout(s, k, id) ==> About(s, id)[k] == ActionOf(s.txs[s.owner[k]])
  {
    hide Concerns, ActionOf;
  }

  lemma AboutGrows(s: Db, t: Db, id: string, e: nat, i: nat)
    requires e !in s.owner && t.owner == s.owner[e := i] && i < |t.txs| && SameOwned(s, t)
    ensures About(t, id) == if Concerns(t.txs[i], id) then About(s, id)[e := ActionOf(t.txs[i])] else About(s, id)
  {
    hide SameOwned, Concerns, ActionOf, About;
    assert EventAbout(t, e, id) <==> Concerns(t.txs[i], id);
    forall k: nat
      ensures k != e ==> (k in About(t, id) <==> k in About(s, id))
      ensures k != e && k in About(s, id) ==> About(t, id)[k] == About(s, id)[k]
    {
      AboutOne(s, id, k);
      AboutOne(t, id, k);
      if k in s.owner {
        EventAboutStays(s, t, id, k);
      }
    }
    AboutOne(s, id, e);
    AboutOne(t, id, e);
    hide EventAbout;
  }

  lemma SortedBeyond(m: map<nat, Action>, below: nat)
    requires below !in m
    ensures Sorted(m, below + 1) == Sorted(m, below)
  {
  }

  lemma AboutUnchanged(s: Db, step: DbStep, id: string)
    requires OwnersOk(s) && IdsOk(s) && DbEnabled(s, step) && !step.Commit?
    ensures About(DbNext(s, step), id) == About(s, id)
    ensures Trail(DbNext(s, step), id) == Trail(s, id)
  {
    var t := DbNext(s, step);
    OwnedTxsStay(s, step);
    AboutFrame(s, t, id);
    assert s.nextEvent !in About(s, id);
    SortedBeyond(About(s, id), s.nextEvent);
    assert t.nextEvent == s.nextEvent || t.nextEvent == s.nextEvent + 1;
  }

  /** The transactions behind committed events are over. */
  lemma OwnedTxsStay(s: Db, step: DbStep)
    requires OwnersOk(s) && DbEnabled(s, step)
    ensures SameOwned(s, DbNext(s, step))
    ensures !step.Commit? ==> DbNext(s, step).owner == s.owner
  {
    forall e | e in s.owner
      ensures s.owner[e] < |s.txs| <= |DbNext(s, step).txs|
      ensures SameRequest(DbNext(s, step).txs[s.owner[e]], s.txs[s.owner[e]])
    {
      assert Done(s.txs[s.owner[e]]);
    }
  }

  lemma AboutAfterCommit(s: Db, i: nat, id: string)
    requires OwnersOk(s) && DbEnabled(s, Commit(i)) && TxOk(s, s.txs[i])
    ensures var tx := s.txs[i];
            About(DbNext(s, Commit(i)), id) ==
            if Concerns(tx, id) then About(s, id)[tx.event := ActionOf(tx)] else About(s, id)
  {
    OwnedTxsStay(s, Commit(i));
    assert s.txs[i].event !in s.owner;
    AboutGrows(s, DbNext(s, Commit(i)), id, s.txs[i].event, i);
  }

  /** The trail of the todo a committing transaction is about grows by its action, at the end. */
  lemma OwnTrailGrows(s: Db, i: nat, id: string)
    requires OwnersOk(s) && DbEnabled(s, Commit(i)) && TxOk(s, s.txs[i])
    requires Concerns(s.txs[i], id) && LogsLast(s, s.txs[i])
    ensures Trail(DbNext(s, Commit(i)), id) == Trail(s, id) + [ActionOf(s.txs[i])]
  {
    AboutAfterCommit(s, i, id);
    assert forall e :: e in About(s, id) ==> EventAbout(s, e, id);
    SortedInsert(About(s, id), s.txs[i].event, ActionOf(s.txs[i]), s.nextEvent);
  }

  /** What a commit does to the row it is about. */
  lemma CommittedOwnRow(s: Db, i: nat, id: string)
    requires DbEnabled(s, Commit(i)) && TxOk(s, s.txs[i]) && Concerns(s.txs[i], id)
    ensures var tx, todos := s.txs[i], DbNext(s, Commit(i)).tables.todos;
            && (tx.request.Create? ==>
                  id in todos && id in s.used && s.used[id] && id !in s.tables.todos && !todos[id].done)
            && (tx.request.Toggle? ==>
                  id in s.tables.todos && id in todos && todos[id].done == tx.row.done == !s.tables.todos[id].done)
            && (tx.request.Delete? ==> id in s.tables.todos && id !in todos)
  {
  }

  /** And to all other rows: a seed inserts its own, nothing else moves. */
  lemma CommittedOtherRow(s: Db, i: nat, id: string)
    requires DbEnabled(s, Commit(i)) && TxOk(s, s.txs[i]) && !Concerns(s.txs[i], id)
    ensures var tx, todos := s.txs[i], DbNext(s, Commit(i)).tables.todos;
            if id in tx.writes.put
            then && tx.request.Seed? && id in todos && id in s.used && !s.used[id]
                 && id !in s.tables.todos && !todos[id].done
            else (id in todos <==> id in s.tables.todos) && (id in todos ==> todos[id] == s.tables.todos[id])
  {
  }

  lemma CommittedTodos(s: Db, i: nat)
    requires DbEnabled(s, Commit(i))
    ensures DbNext(s, Commit(i)).used == s.used
    ensures DbNext(s, Commit(i)).tables.todos == (s.tables.todos - s.txs[i].writes.del) + s.txs[i].writes.put
  {
  }

  /** The todo a committing transaction is about: its trail makes one allowed move. */
  lemma CommitKeepsOwnTrail(s: Db, i: nat, id: string)
    requires OwnersOk(s) && DbEnabled(s, Commit(i)) && TxOk(s, s.txs[i]) && Concerns(s.txs[i], id)
    requires LogsLast(s, s.txs[i]) && NewRowsQuiet(s, s.txs[i]) && id in s.used && TrailOk(s, id)
    ensures TrailOk(DbNext(s, Commit(i)), id)
  {
    var tx, t := s.txs[i], DbNext(s, Commit(i));
    CommittedOwnRow(s, i, id);
    CommittedTodos(s, i);
    OwnTrailGrows(s, i, id);
    CreatesFresh(s, i, id);
    FollowOne(if s.used[id] then Unborn else There(false), Trail(s, id), ActionOf(tx));
    hide DbNext, DbEnabled, TxOk, OwnersOk, LogsLast, NewRowsQuiet, Trail, Follow, About;
  }

  lemma CreatesFresh(s: Db, i: nat, id: string)
    requires DbEnabled(s, Commit(i)) && TxOk(s, s.txs[i]) && Concerns(s.txs[i], id) && NewRowsQuiet(s, s.txs[i])
    ensures s.txs[i].request.Create? ==> Follow(Unborn, Trail(s, id)) == Some(Unborn)
    ensures !s.txs[i].request.Create? ==> id in s.tables.todos
  {
    if s.txs[i].request.Create? {
      assert id in s.txs[i].writes.put && About(s, id) == map[];
      SortedEmpty(s.nextEvent);
      FollowNone(0);
    }
  }

  lemma CommitKeepsForeignTrail(s: Db, i: nat, id: string)
    requires OwnersOk(s) && DbEnabled(s, Commit(i)) && TxOk(s, s.txs[i]) && !Concerns(s.txs[i], id)
    requires NewRowsQuiet(s, s.txs[i]) && id in s.used && TrailOk(s, id)
    ensures TrailOk(DbNext(s, Commit(i)), id)
  {
    AboutAfterCommit(s, i, id);
    CommittedTodos(s, i);
    CommittedOtherRow(s, i, id);
    SortedEmpty(s.nextEvent);
    assert DbNext(s, Commit(i)).nextEvent == s.nextEvent;
    hide DbNext, TxOk, OwnersOk;
  }

  lemma {:induction false} SortedEmpty(below: nat)
    ensures Sorted(map[], below) == []
  {
    if below > 0 {
      SortedEmpty(below - 1);
    }
  }

  lemma CommitKeepsOtherTrails(s: Db, i: nat, other: Tx)
    requires OwnersOk(s) && DbEnabled(s, Commit(i)) && TxOk(s, s.txs[i]) && TxOk(s, other)
    requires Exclusive(s.txs[i], other) && LogsLast(s, other) && NewRowsQuiet(s, other)
    ensures LogsLast(DbNext(s, Commit(i)), other) && NewRowsQuiet(DbNext(s, Commit(i)), other)
  {
    var t := DbNext(s, Commit(i));
    forall id | Touches(other, id)
      ensures About(t, id) == About(s, id) && (id in t.tables.todos <==> id in s.tables.todos)
    {
      OthersAbout(s, i, other, id);
    }
    forall id: string, e: nat | other.stage.Logged? && Concerns(other, id) && EventAbout(t, e, id)
      ensures e < other.event
    {
      assert Touches(other, id);
      assert e in About(t, id);
      assert EventAbout(s, e, id);
    }
    forall id | Active(other) && id in other.writes.put && id !in t.tables.todos ensures About(t, id) == map[] {
      assert Touches(other, id);
    }
  }

  lemma OthersAbout(s: Db, i: nat, other: Tx, id: string)
    requires OwnersOk(s) && DbEnabled(s, Commit(i)) && TxOk(s, s.txs[i])
    requires Exclusive(s.txs[i], other) && Touches(other, id)
    ensures About(DbNext(s, Commit(i)), id) == About(s, id)
    ensures id in DbNext(s, Commit(i)).tables.todos <==> id in s.tables.todos
  {
    AboutAfterCommit(s, i, id);
    CommittedTodos(s, i);
    assert !Touches(s.txs[i], id);
  }

  lemma StepMakesNewRow(s: Db, step: DbStep, i: nat, id: string)
    requires DbEnabled(s, step) && !step.Commit? && i < |DbNext(s, step).txs|
    requires Active(DbNext(s, step).txs[i]) && id in DbNext(s, step).txs[i].writes.put
    requires i < |s.txs| ==> TxOk(s, s.txs[i])
    ensures i < |s.txs| && Active(s.txs[i])
    ensures id in s.txs[i].writes.put || id !in s.used || id in s.tables.todos
    ensures DbNext(s, step).tables == s.tables
  {
  }

  lemma StepLogs(s: Db, step: DbStep, i: nat)
    requires DbEnabled(s, step) && !step.Commit? && i < |DbNext(s, step).txs|
    requires DbNext(s, step).txs[i].stage.Logged?
    ensures i < |s.txs|
    ensures if step == Log(i) then DbNext(s, step).txs[i].event == s.nextEvent else DbNext(s, step).txs[i] == s.txs[i]
  {
  }

  lemma OtherStepsKeepTx(s: Db, step: DbStep, i: nat)
    requires OwnersOk(s) && IdsOk(s) && DbEnabled(s, step) && !step.Commit? && i < |DbNext(s, step).txs|
    requires i < |s.txs| ==> TxOk(s, s.txs[i]) && LogsLast(s, s.txs[i]) && NewRowsQuiet(s, s.txs[i])
    requires forall id :: id !in s.used ==> About(s, id) == map[]
    ensures LogsLast(DbNext(s, step), DbNext(s, step).txs[i]) && NewRowsQuiet(DbNext(s, step), DbNext(s, step).txs[i])
  {
    var t := DbNext(s, step);
    var tx := t.txs[i];
    forall id: string, e: nat | tx.stage.Logged? && Concerns(tx, id) && EventAbout(t, e, id) ensures e < tx.event {
      StepLogs(s, step, i);
      AboutUnchanged(s, step, id);
      assert e in About(t, id);
      assert EventAbout(s, e, id);
    }
    forall id | Active(tx) && id in tx.writes.put && id !in t.tables.todos ensures About(t, id) == map[] {
      StepMakesNewRow(s, step, i, id);
      AboutUnchanged(s, step, id);
    }
  }

  lemma OtherStepsKeepTrail(s: Db, step: DbStep, id: string)
    requires OwnersOk(s) && IdsOk(s) && DbEnabled(s, step) && !step.Commit? && id in DbNext(s, step).used
    requires if id in s.used then TrailOk(s, id) else About(s, id) == map[]
    ensures TrailOk(DbNext(s, step), id)
  {
    AboutUnchanged(s, step, id);
  }

  lemma StepKeepsTrails(s: Db, step: DbStep)
    requires DbInv(s) && TrailInv(s) && DbEnabled(s, step)
    ensures TrailInv(DbNext(s, step))
  {
    if step.Commit? {
      var t := DbNext(s, step);
      forall id | id in t.used ensures TrailOk(t, id) {
        if Concerns(s.txs[step.i], id) {
          CommitKeepsOwnTrail(s, step.i, id);
        } else {
          CommitKeepsForeignTrail(s, step.i, id);
        }
      }
      forall id | id !in t.used ensures About(t, id) == map[] {
        AboutAfterCommit(s, step.i, id);
        assert TxOk(s, s.txs[step.i]);
      }
      forall k | 0 <= k < |t.txs| ensures LogsLast(t, t.txs[k]) && NewRowsQuiet(t, t.txs[k]) {
        if k != step.i {
          assert TxOk(s, s.txs[step.i]) && TxOk(s, s.txs[k]) && Exclusive(s.txs[step.i], s.txs[k]) by {
            assert if k < step.i then Exclusive(s.txs[k], s.txs[step.i]) else Exclusive(s.txs[step.i], s.txs[k]);
          }
          CommitKeepsOtherTrails(s, step.i, s.txs[k]);
        }
      }
    } else {
      var t := DbNext(s, step);
      forall id | id in t.used ensures TrailOk(t, id) {
        OtherStepsKeepTrail(s, step, id);
      }
      forall id | id !in t.used ensures About(t, id) == map[] {
        AboutUnchanged(s, step, id);
      }
      forall i | 0 <= i < |t.txs| ensures LogsLast(t, t.txs[i]) && NewRowsQuiet(t, t.txs[i]) {
        OtherStepsKeepTx(s, step, i);
      }
    }
  }

  lemma StartTrails(s: Db)
    requires Start(s)
    ensures TrailInv(s)
  {
    forall id ensures About(s, id) == map[] && Trail(s, id) == [] {
      SortedEmpty(s.nextEvent);
    }
  }

  lemma {:induction false} RunKeepsTrails(s: Db, steps: seq<DbStep>)
    requires DbInv(s) && TrailInv(s) && DbValid(s, steps)
    ensures TrailInv(DbRun(s, steps))
    decreases |steps|
  {
    if steps != [] {
      DbStepKeepsInv(s, steps[0]);
      StepKeepsTrails(s, steps[0]);
      RunKeepsTrails(DbNext(s, steps[0]), steps[1..]);
    }
  }

  /**
   In every reachable state, sorted by event id, the committed events of a todo made by
   `createTodo` are created, then alternating marks, and at most one deleted at the end. The
   row is in the table exactly between created and deleted, and the last mark is its `done`.
   */
  lemma PerTodoAudit(start: Db, steps: seq<DbStep>, id: string)
    requires Start(start) && DbValid(start, steps)
    requires var s := DbRun(start, steps); id in s.used && s.used[id]
    ensures var s := DbRun(start, steps);
            if id in s.tables.todos
            then exists k: nat :: Trail(s, id) == History(k, s.tables.todos[id].done, false)
            else Trail(s, id) == [] || exists k: nat, done :: Trail(s, id) == History(k, done, true)
  {
    StartInv(start);
    StartTrails(start);
    RunKeepsTrails(start, steps);
    var s := DbRun(start, steps);
    assert TrailOk(s, id);
    SortedEmpty(s.nextEvent);
    if About(s, id) != map[] || id in s.tables.todos {
      FollowedIsHistory(Trail(s, id));
    }
  }

  /** The same for the rows of the migration and of seeds, which start open and without an event. */
  lemma SeededTodoAudit(start: Db, steps: seq<DbStep>, id: string)
    requires Start(start) && DbValid(start, steps)
    requires var s := DbRun(start, steps); id in s.used && !s.used[id]
    ensures var s := DbRun(start, steps);
            if id in s.tables.todos
            then exists k: nat :: [Created] + Trail(s, id) == History(k, s.tables.todos[id].done, false)
            else Trail(s, id) == [] || exists k: nat, done :: [Created] + Trail(s, id) == History(k, done, true)
  {
    StartInv(start);
    StartTrails(start);
    RunKeepsTrails(start, steps);
    var s := DbRun(start, steps);
    assert TrailOk(s, id);
    SortedEmpty(s.nextEvent);
    if About(s, id) != map[] || id in s.tables.todos {
      FollowFromThere(Trail(s, id));
      FollowedIsHistory([Created] + Trail(s, id));
    }
  }

  lemma {:induction false} FollowFromThere(actions: seq<Action>)
    ensures Follow(Unborn, [Created] + actions) == Follow(There(false), actions)
    decreases |actions|
  {
    if actions == [] {
      FollowOne(Unborn, [], Created);
      assert [] + [Created] == [Created] + actions;
    } else {
      var init, last := actions[..|actions| - 1], actions[|actions| - 1];
      FollowFromThere(init);
      FollowOne(Unborn, [Created] + init, last);
      assert [Created] + init + [last] == [Created] + actions;
    }
  }

  /** The trail is read off the stored rows: each of its events decodes to its action. */
  lemma TrailIsStored(s: Db, id: string, e: nat)
    requires DbInv(s) && e in About(s, id)
    ensures e in s.tables.events
    ensures DecodeTodo(s.tables.events[e]) == Some((About(s, id)[e], s.txs[s.owner[e]].row.body))
  {
    var tx := s.txs[s.owner[e]];
    TodoEventDecodes(ActionOf(tx), tx.row.body);
  }
}
