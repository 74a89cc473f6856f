/**
 The seed as an interleaved transaction: what it puts in whatever happens around it, and that
 a seed which runs alone leaves what its handler promises.
 */
module SeedRuns {
  import opened Tables
  import opened Effects
  import opened AuditLog
  import opened Handlers
  import opened Seeding

  // ---- Alone ---------------------------------------------------------------------------

  /** One insert for each id, the event and the commit. */
  function SeedRest(i: nat, ids: seq<string>, now: int): seq<DbStep>
  {
    if ids == [] then [Log(i), Commit(i)] else [SeedRow(i, ids[0], now)] + SeedRest(i, ids[1..], now)
  }

  /** The first `n` items are put, the others are still missing; nothing else is written. */
  ghost predicate HasPut(s: Db, i: nat, missing: seq<string>, ids: seq<string>, now: int, n: nat)
  {
    && n <= |missing| == |ids| && i < |s.txs|
    && s.txs[i].request == Seed && s.txs[i].stage == Seeding(missing[n..]) && s.txs[i].count == n
    && s.txs[i].writes == NOTHING.(put := s.txs[i].writes.put)
    && s.tables.todos + s.txs[i].writes.put == InsertAll(s.tables.todos, missing[..n], ids, now)
    && forall k :: n <= k < |ids| ==> ids[k] !in s.used
  }

  lemma PutOne(s: Db, i: nat, missing: seq<string>, ids: seq<string>, now: int, n: nat)
    requires HasPut(s, i, missing, ids, now, n) && n < |ids| && FreshIds(s.tables.todos, ids)
    ensures DbEnabled(s, SeedRow(i, ids[n], now))
    ensures var t := DbNext(s, SeedRow(i, ids[n], now));
            t.tables == s.tables && t.nextEvent == s.nextEvent && HasPut(t, i, missing, ids, now, n + 1)
  {
    assert missing[n..][0] == missing[n] && missing[n..][1..] == missing[n + 1..];
    PutNextRow(s.tables.todos, s.txs[i].writes.put, missing, ids, now, n);
    hide InsertAll, B.SqlTrim;
  }

  lemma FinishAlone(s: Db, i: nat, missing: seq<string>, ids: seq<string>, now: int)
    requires HasPut(s, i, missing, ids, now, |missing|)
    requires missing == Missing(SHOWCASE_SEED_ITEMS, Bodies(s.tables.todos))
    ensures DbValid(s, [Log(i), Commit(i)])
    ensures DbRun(s, [Log(i), Commit(i)]).tables == AfterSeed(s.tables, ids, now, s.nextEvent)
  {
    hide SHOWCASE_SEED_ITEMS, Missing, InsertAll, SeedEvent, Bodies, Apply;
    var n := |missing|;
    assert missing[n..] == [] && missing[..n] == missing;
    var a := DbNext(s, Log(i));
    assert a.txs[i].writes == Writes(s.txs[i].writes.put, {}, map[s.nextEvent := SeedEvent(n)], {});
    SeedWrites(s.tables, s.txs[i].writes.put, ids, now, s.nextEvent);
    assert [Log(i), Commit(i)][1..] == [Commit(i)] && [Commit(i)][1..] == [];
    assert DbRun(DbNext(a, Commit(i)), []) == DbNext(a, Commit(i));
    assert DbRun(a, [Commit(i)]) == DbNext(a, Commit(i));
  }

  lemma {:induction false} RowsAlone(s: Db, i: nat, missing: seq<string>, ids: seq<string>, now: int, n: nat)
    requires HasPut(s, i, missing, ids, now, n) && FreshIds(s.tables.todos, ids)
    requires missing == Missing(SHOWCASE_SEED_ITEMS, Bodies(s.tables.todos))
    ensures DbValid(s, SeedRest(i, ids[n..], now))
    ensures DbRun(s, SeedRest(i, ids[n..], now)).tables == AfterSeed(s.tables, ids, now, s.nextEvent)
    decreases |missing| - n
  {
    hide DbNext, DbEnabled, SHOWCASE_SEED_ITEMS, Missing, Bodies, FreshIds;
    if n == |missing| {
      FinishAlone(s, i, missing, ids, now);
    } else {
      PutOne(s, i, missing, ids, now, n);
      var rest := SeedRest(i, ids[n + 1..], now);
      RowsAlone(DbNext(s, SeedRow(i, ids[n], now)), i, missing, ids, now, n + 1);
      assert ids[n..][0] == ids[n] && ids[n..][1..] == ids[n + 1..];
      assert ([SeedRow(i, ids[n], now)] + rest)[1..] == rest;
    }
  }

  lemma SeedBegins(s: Db, ids: seq<string>, id: string, now: int)
    requires forall k :: 0 <= k < |ids| ==> ids[k] !in s.used
    requires |ids| == |Missing(SHOWCASE_SEED_ITEMS, Bodies(s.tables.todos))|
    ensures DbEnabled(s, Begin(Seed))
    ensures var a := DbNext(s, Begin(Seed));
            && DbEnabled(a, Change(|s.txs|, id, now))
            && var b := DbNext(a, Change(|s.txs|, id, now));
            && b.tables == s.tables && b.nextEvent == s.nextEvent
            && HasPut(b, |s.txs|, Missing(SHOWCASE_SEED_ITEMS, Bodies(s.tables.todos)), ids, now, 0)
  {
    hide SHOWCASE_SEED_ITEMS, Missing, Bodies, InsertAll;
    var missing := Missing(SHOWCASE_SEED_ITEMS, Bodies(s.tables.todos));
    assert missing[0..] == missing;
    InsertNone(s.tables.todos, missing[..0], ids, now);
  }

  lemma RunsTwo(s: Db, first: DbStep, second: DbStep, rest: seq<DbStep>)
    requires DbEnabled(s, first) && DbEnabled(DbNext(s, first), second)
    requires DbValid(DbNext(DbNext(s, first), second), rest)
    ensures var steps := [first, second] + rest;
            DbValid(s, steps) && DbRun(s, steps) == DbRun(DbNext(DbNext(s, first), second), rest)
  {
    hide DbNext, DbEnabled;
    var steps := [first, second] + rest;
    assert steps[1..] == [second] + rest && steps[1..][1..] == rest;
    assert DbValid(DbNext(s, first), steps[1..]);
  }

  /** A seed that runs alone, one insert for each missing item, on ids never used before. */
  lemma SeedAlone(s: Db, ids: seq<string>, id: string, now: int)
    requires FreshIds(s.tables.todos, ids) && forall k :: 0 <= k < |ids| ==> ids[k] !in s.used
    requires |ids| == |Missing(SHOWCASE_SEED_ITEMS, Bodies(s.tables.todos))|
    ensures var steps := [Begin(Seed), Change(|s.txs|, id, now)] + SeedRest(|s.txs|, ids, now);
            DbValid(s, steps) && DbRun(s, steps).tables == AfterSeed(s.tables, ids, now, s.nextEvent)
  {
    hide SHOWCASE_SEED_ITEMS, Missing, Bodies, FreshIds, HasPut, SeedRest, AfterSeed, DbNext, DbEnabled;
    var i, missing := |s.txs|, Missing(SHOWCASE_SEED_ITEMS, Bodies(s.tables.todos));
    SeedBegins(s, ids, id, now);
    var b := DbNext(DbNext(s, Begin(Seed)), Change(i, id, now));
    assert ids[0..] == ids;
    RowsAlone(b, i, missing, ids, now, 0);
    RunsTwo(s, Begin(Seed), Change(i, id, now), SeedRest(i, ids, now));
  }

  // ---- Among others --------------------------------------------------------------------

  /** One open row for each wanted body, and no other row. */
  ghost predicate OneRowEach(put: map<string, Todo>, wanted: set<string>)
  {
    && (forall id :: id in put ==> put[id].body in wanted && !put[id].done)
    && (forall a, b :: a in put && b in put && put[a].body == put[b].body ==> a == b)
    && (forall item :: item in wanted ==> exists id :: id in put && put[id].body == item)
  }

  function StillMissing(tx: Tx): seq<string> { if tx.stage.Seeding? then tx.stage.missing else [] }

  ghost predicate NoRepeats(items: seq<string>) { forall i, j :: 0 <= i < j < |items| ==> items[i] != items[j] }

  function Without(wanted: set<string>, missing: seq<string>): set<string>
  {
    set item | item in wanted && item !in missing
  }

  /** A seed on its way has put its wanted rows but for those still missing. */
  ghost predicate SeedOk(tx: Tx, wanted: set<string>)
  {
    && tx.request == Seed && !tx.stage.Begun?
    && (tx.stage.RolledBack? || PutSoFar(tx.writes, tx.count, StillMissing(tx), wanted))
  }

  ghost predicate PutSoFar(writes: Writes, count: nat, missing: seq<string>, wanted: set<string>)
  {
    && NoRepeats(missing) && (forall item :: item in missing ==> item in wanted)
    && count + |missing| == |wanted| && writes.del == {}
    && OneRowEach(writes.put, Without(wanted, missing))
  }

  lemma PutOneMore(put: map<string, Todo>, wanted: set<string>, item: string, id: string, row: Todo)
    requires OneRowEach(put, wanted) && item !in wanted && id !in put && row.body == item && !row.done
    ensures OneRowEach(put[id := row], wanted + {item})
  {
    var after := put[id := row];
    forall x | x in wanted + {item} ensures exists k :: k in after && after[k].body == x {
      if x == item {
        assert id in after && after[id].body == x;
      } else {
        var k :| k in put && put[k].body == x;
        assert k in after && after[k].body == x;
      }
    }
  }

  lemma NextWanted(wanted: set<string>, missing: seq<string>)
    requires missing != [] && NoRepeats(missing) && missing[0] in wanted
    ensures missing[0] !in Without(wanted, missing)
    ensures Without(wanted, missing[1..]) == Without(wanted, missing) + {missing[0]}
    ensures NoRepeats(missing[1..]) && forall item :: item in missing[1..] ==> item in missing
  {
    assert missing == [missing[0]] + missing[1..];
    assert missing[0] !in missing[1..];
  }

  lemma SeedRowPuts(writes: Writes, count: nat, missing: seq<string>, wanted: set<string>, id: string, row: Todo)
    requires PutSoFar(writes, count, missing, wanted) && missing != [] && id !in writes.put
    requires row.body == missing[0] && !row.done
    ensures PutSoFar(writes.(put := writes.put[id := row]), count + 1, missing[1..], wanted)
  {
    assert missing[0] in missing;
    NextWanted(wanted, missing);
    PutOneMore(writes.put, Without(wanted, missing), missing[0], id, row);
    hide OneRowEach, NoRepeats, Without;
  }

  lemma SeedRowKeepsSeed(s: Db, i: nat, id: string, now: int, wanted: set<string>)
    requires DbEnabled(s, SeedRow(i, id, now)) && TxOk(s, s.txs[i]) && SeedOk(s.txs[i], wanted)
    requires forall item :: item in wanted ==> B.SqlTrim(item) == item
    ensures SeedOk(DbNext(s, SeedRow(i, id, now)).txs[i], wanted)
  {
    var tx := s.txs[i];
    var missing := tx.stage.missing;
    assert id !in tx.writes.put;
    assert missing[0] in missing;
    hide TxOk, B.SqlTrim, OneRowEach;
    SeedRowPuts(tx.writes, tx.count, missing, wanted, id, Todo(B.SqlTrim(missing[0]), false, now));
    hide PutSoFar;
  }

  lemma OthersLeaveTx(s: Db, step: DbStep, i: nat)
    requires DbEnabled(s, step) && i < |s.txs| && (step.Begin? || step.i != i)
    ensures i < |DbNext(s, step).txs| && DbNext(s, step).txs[i] == s.txs[i]
  {
    hide Changing, B.SqlTrim;
  }

  lemma OwnStepKeepsSeed(s: Db, step: DbStep, wanted: set<string>)
    requires DbEnabled(s, step) && !step.Begin? && !step.SeedRow?
    requires step.i < |s.txs| && SeedOk(s.txs[step.i], wanted)
    ensures SeedOk(DbNext(s, step).txs[step.i], wanted)
  {
    hide OneRowEach, NoRepeats, Without, Apply;
  }

  lemma StepKeepsSeed(s: Db, step: DbStep, i: nat, wanted: set<string>)
    requires DbInv(s) && DbEnabled(s, step) && i < |s.txs| && SeedOk(s.txs[i], wanted)
    requires forall item :: item in wanted ==> B.SqlTrim(item) == item
    ensures i < |DbNext(s, step).txs| && SeedOk(DbNext(s, step).txs[i], wanted)
  {
    assert TxOk(s, s.txs[i]);
    hide DbInv, TxOk, SeedOk, DbNext, DbEnabled, B.SqlTrim;
    if step.Begin? || step.i != i {
      OthersLeaveTx(s, step, i);
    } else if step.SeedRow? {
      SeedRowKeepsSeed(s, i, step.id, step.now, wanted);
      TxsStay(s, step);
    } else {
      OwnStepKeepsSeed(s, step, wanted);
      TxsStay(s, step);
    }
  }

  lemma TxsStay(s: Db, step: DbStep)
    requires DbEnabled(s, step)
    ensures |s.txs| <= |DbNext(s, step).txs|
  {
  }

  lemma {:induction false} RunKeepsSeed(s: Db, steps: seq<DbStep>, i: nat, wanted: set<string>)
    requires DbInv(s) && DbValid(s, steps) && i < |s.txs| && SeedOk(s.txs[i], wanted)
    requires forall item :: item in wanted ==> B.SqlTrim(item) == item
    ensures i < |DbRun(s, steps).txs| && SeedOk(DbRun(s, steps).txs[i], wanted) && DbInv(DbRun(s, steps))
    decreases |steps|
  {
    hide DbNext, DbEnabled, DbInv, SeedOk, B.SqlTrim;
    if steps != [] {
      DbStepKeepsInv(s, steps[0]);
      StepKeepsSeed(s, steps[0], i, wanted);
      RunKeepsSeed(DbNext(s, steps[0]), steps[1..], i, wanted);
    }
  }

  lemma {:induction false} MissingNoRepeats(items: seq<string>, bodies: set<string>)
    requires NoRepeats(items)
    ensures NoRepeats(Missing(items, bodies))
  {
    if items != [] {
      var rest := Missing(items[1..], bodies);
      MissingNoRepeats(items[1..], bodies);
      MissingMembers(items[1..], bodies);
      forall i | 0 <= i < |rest| ensures rest[i] != items[0] {
        assert rest[i] in rest;
        var k :| 0 <= k < |items[1..]| && items[1..][k] == rest[i];
        assert items[1..][k] == items[k + 1];
      }
      PrependNoRepeats(items[0], rest);
    }
  }

  lemma PrependNoRepeats(item: string, rest: seq<string>)
    requires NoRepeats(rest) && forall i :: 0 <= i < |rest| ==> rest[i] != item
    ensures NoRepeats([item] + rest) && [] + rest == rest
  {
  }

  lemma {:induction false} SetSize(items: seq<string>)
    requires NoRepeats(items)
    ensures |set item | item in items| == |items|
  {
    if items == [] {
      assert (set item | item in items) == {};
    } else {
      var last := |items| - 1;
      SetSize(items[..last]);
      assert items == items[..last] + [items[last]];
      assert items[last] !in items[..last];
      assert (set item | item in items) == (set item | item in items[..last]) + {items[last]};
    }
  }

  lemma SeedItemsDiffer()
    ensures NoRepeats(SHOWCASE_SEED_ITEMS)
  {
    hide B.SqlTrim;
    assert SHOWCASE_SEED_ITEMS[0][2] == 'd' && SHOWCASE_SEED_ITEMS[1][2] == 'n' && SHOWCASE_SEED_ITEMS[2][2] == 'v';
  }

  /** The items that no todo of the table has as its body. */
  function Wanted(todos: map<string, Todo>): set<string>
  {
    set item | item in SHOWCASE_SEED_ITEMS && forall id :: id in todos ==> todos[id].body != item
  }

  lemma WantedMissing(todos: map<string, Todo>)
    ensures var missing := Missing(SHOWCASE_SEED_ITEMS, Bodies(todos));
            PutSoFar(NOTHING, 0, missing, Wanted(todos))
  {
    var missing := Missing(SHOWCASE_SEED_ITEMS, Bodies(todos));
    SeedItemsDiffer();
    hide SHOWCASE_SEED_ITEMS, Missing;
    MissingNoRepeats(SHOWCASE_SEED_ITEMS, Bodies(todos));
    MissingMembers(SHOWCASE_SEED_ITEMS, Bodies(todos));
    SetSize(missing);
    assert (set item | item in missing) == Wanted(todos);
    assert Without(Wanted(todos), missing) == {};
  }

  lemma WantedFits(todos: map<string, Todo>)
    ensures forall item :: item in Wanted(todos) ==> B.SqlTrim(item) == item
  {
    hide SHOWCASE_SEED_ITEMS, B.SqlTrim, B.Storable, B.AllowedAfterSplit;
    forall item | item in Wanted(todos) ensures B.SqlTrim(item) == item {
      SeedItemFits(item);
    }
  }

  lemma SeedStarts(s: Db, i: nat, id: string, now: int)
    requires DbEnabled(s, Change(i, id, now)) && TxOk(s, s.txs[i]) && s.txs[i].request == Seed
    ensures i < |DbNext(s, Change(i, id, now)).txs|
    ensures SeedOk(DbNext(s, Change(i, id, now)).txs[i], Wanted(s.tables.todos))
  {
    WantedMissing(s.tables.todos);
    hide SHOWCASE_SEED_ITEMS, Missing, Bodies, Wanted, PutSoFar, B.SqlTrim;
  }

  /**
   In every run: a seed that has committed put in exactly one open row for each item that no
   todo had as its body when its first statement ran, and no other row, whatever committed
   before, meanwhile and after; and the number in its event is the number of these items.
   */
  lemma CommittedSeed(start: Db, before: seq<DbStep>, i: nat, id: string, now: int, after: seq<DbStep>)
    requires Start(start) && DbValid(start, before)
    requires var s := DbRun(start, before);
             && DbEnabled(s, Change(i, id, now)) && s.txs[i].request == Seed
             && DbValid(DbNext(s, Change(i, id, now)), after)
             && var t := DbRun(DbNext(s, Change(i, id, now)), after);
             && i < |t.txs| && Done(t.txs[i])
    ensures var s := DbRun(start, before);
            var t := DbRun(DbNext(s, Change(i, id, now)), after);
            && OneRowEach(t.txs[i].writes.put, Wanted(s.tables.todos)) && t.txs[i].writes.del == {}
            && t.txs[i].event in t.tables.events
            && DecodeSeed(t.tables.events[t.txs[i].event]) == |Wanted(s.tables.todos)|
  {
    ReachableDb(start, before);
    var s := DbRun(start, before);
    assert TxOk(s, s.txs[i]);
    hide DbInv, DbRun, DbValid, DbNext, DbEnabled, SeedOk, Wanted, Start, B.SqlTrim, TxOk, DecodeSeed;
    SeedStarts(s, i, id, now);
    WantedFits(s.tables.todos);
    var a := DbNext(s, Change(i, id, now));
    DbStepKeepsInv(s, Change(i, id, now));
    RunKeepsSeed(a, after, i, Wanted(s.tables.todos));
    DoneSeed(DbRun(a, after), i, Wanted(s.tables.todos));
  }

  lemma DoneSeed(t: Db, i: nat, wanted: set<string>)
    requires DbInv(t) && i < |t.txs| && SeedOk(t.txs[i], wanted) && Done(t.txs[i])
    ensures OneRowEach(t.txs[i].writes.put, wanted) && t.txs[i].writes.del == {}
    ensures t.txs[i].event in t.tables.events
    ensures DecodeSeed(t.tables.events[t.txs[i].event]) == |wanted|
  {
    hide OneRowEach, SeedEvent, DecodeSeed, TxOk, IdsOk, Exclusive, NoRepeats;
    assert OwnersOk(t);
    hide DbInv;
    assert t.txs[i].event in t.tables.events && t.tables.events[t.txs[i].event] == EventOf(t.txs[i]);
    hide OwnersOk;
    assert Without(wanted, []) == wanted;
    SeedEventDecodes(t.txs[i].count);
  }
}
