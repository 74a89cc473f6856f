/**
 The database and the live updates together: a request commits its transaction, the same
 commit is what its wake-up is published for, and what the streams read is what the
 transactions of module AuditLog have left in the tables.
 */
module WholeSystem {
  import opened CommitLog
  import opened Tables
  import U = LiveUpdate
  import C = LiveConvergence

  /** `served`: the publisher that makes the wake-up of each committed request. */
  datatype Sys = Sys(db: A.Db, app: U.App, served: map<nat, nat>)

  datatype SysStep =
    | Database(tx: A.DbStep)    // a step of a transaction before its commit, or its rollback
    | Serve(i: nat, p: nat)     // the commit of transaction `i`; publisher `p` has its wake-up next
    | Finish(i: nat)            // the publish has returned and the request is answered
    | Live(step: U.AppStep)     // a step of the bus, of a browser or of a stream

  ghost predicate SysStart(s: Sys)
  {
    A.Start(s.db) && U.AppStart(s.app) && s.app.log == [s.db.tables] && s.served == map[]
  }

  /** The commit of a transaction as the live updates see it. */
  ghost function CommitOf(db: A.Db, i: nat, p: nat): U.AppStep
    requires A.DbEnabled(db, A.Commit(i))
  {
    U.Commit(p, A.DbNext(db, A.Commit(i)).tables, A.Reason(db.txs[i].request))
  }

  predicate Rested(s: Sys, i: nat)
  {
    i in s.served && s.served[i] < |s.app.bus.pubs| && s.app.bus.pubs[s.served[i]].phase.Resting?
  }

  ghost predicate SysEnabled(s: Sys, step: SysStep)
  {
    match step
    case Database(step) => !step.Commit? && !step.Publish? && A.DbEnabled(s.db, step)
    case Serve(i, p) => A.DbEnabled(s.db, A.Commit(i)) && U.AppEnabled(s.app, CommitOf(s.db, i, p))
    case Finish(i) => A.DbEnabled(s.db, A.Publish(i)) && Rested(s, i)
    case Live(step) => !step.Commit? && U.AppEnabled(s.app, step)
  }

  ghost function SysNext(s: Sys, step: SysStep): Sys
    requires SysEnabled(s, step)
  {
    match step
    case Database(step) => s.(db := A.DbNext(s.db, step))
    case Serve(i, p) =>
      Sys(A.DbNext(s.db, A.Commit(i)), U.AppNext(s.app, CommitOf(s.db, i, p)), s.served[i := p])
    case Finish(i) => s.(db := A.DbNext(s.db, A.Publish(i)))
    case Live(step) => s.(app := U.AppNext(s.app, step))
  }

  ghost predicate SysValid(s: Sys, steps: seq<SysStep>)
    decreases |steps|
  {
    steps != [] ==> SysEnabled(s, steps[0]) && SysValid(SysNext(s, steps[0]), steps[1..])
  }

  ghost function SysRun(s: Sys, steps: seq<SysStep>): Sys
    requires SysValid(s, steps)
    decreases |steps|
  {
    if steps == [] then s else SysRun(SysNext(s, steps[0]), steps[1..])
  }

  // ---- The invariant -------------------------------------------------------------------

  ghost predicate SysInv(s: Sys) { A.DbInv(s.db) && U.AppInv(s.app) && LogOk(s.app.log, s.db.tables) }

  lemma ServeKeepsInv(s: Sys, i: nat, p: nat)
    requires SysInv(s) && SysEnabled(s, Serve(i, p))
    ensures SysInv(SysNext(s, Serve(i, p)))
  {
    var commit := CommitOf(s.db, i, p);
    U.LogMoves(s.app, commit);
    hide A.DbNext, A.DbEnabled, A.DbInv, U.AppNext, U.AppEnabled, U.AppInv, LogOk, Kept;
    A.DbStepKeepsInv(s.db, A.Commit(i));
    U.AppStepKeepsInv(s.app, commit);
    CommitAddsEvent(s.db, i);
    LogGrows(s.app.log, s.db.tables, commit.tables);
  }

  lemma SysStepKeepsInv(s: Sys, step: SysStep)
    requires SysInv(s) && SysEnabled(s, step)
    ensures SysInv(SysNext(s, step))
  {
    hide A.DbNext, A.DbEnabled, A.DbInv, U.AppNext, U.AppEnabled, U.AppInv, LogOk;
    match step
    case Database(inner) =>
      A.DbStepKeepsInv(s.db, inner);
      A.OnlyCommitsChangeTables(s.db, inner);
    case Serve(i, p) => ServeKeepsInv(s, i, p);
    case Finish(i) =>
      A.DbStepKeepsInv(s.db, A.Publish(i));
      A.OnlyCommitsChangeTables(s.db, A.Publish(i));
    case Live(inner) =>
      U.AppStepKeepsInv(s.app, inner);
      U.LogMoves(s.app, inner);
      assert s.app.log + [] == s.app.log;
  }

  lemma {:induction false} SysRunKeepsInv(s: Sys, steps: seq<SysStep>)
    requires SysInv(s) && SysValid(s, steps)
    ensures SysInv(SysRun(s, steps))
    decreases |steps|
  {
    hide SysNext, SysInv;
    if steps != [] {
      SysStepKeepsInv(s, steps[0]);
      SysRunKeepsInv(SysNext(s, steps[0]), steps[1..]);
    }
  }

  /** The invariants of both halves hold together in every reachable state. */
  lemma ReachableSys(start: Sys, steps: seq<SysStep>)
    requires SysStart(start) && SysValid(start, steps)
    ensures SysInv(SysRun(start, steps))
  {
    StartInv(start);
    SysRunKeepsInv(start, steps);
  }

  lemma StartInv(start: Sys)
    requires SysStart(start)
    ensures SysInv(start)
  {
    hide A.DbInv, U.AppInv, A.Start, U.AppStart, LogOk;
    A.StartInv(start.db);
    C.StartInv(start.app);
    LogStarts(start.db.tables);
  }

  // ---- Nothing is shown that no request committed --------------------------------------

  lemma {:induction false} EventsStay(s: Sys, steps: seq<SysStep>)
    requires SysInv(s) && SysValid(s, steps)
    ensures Kept(s.db.tables.events, SysRun(s, steps).db.tables.events)
    decreases |steps|
  {
    hide A.DbInv, A.DbNext, A.DbEnabled, U.AppInv;
    if steps != [] {
      SysStepKeepsInv(s, steps[0]);
      match steps[0] {
        case Database(step) => A.OnlyCommitsChangeTables(s.db, step);
        case Serve(i, _) => CommitAddsEvent(s.db, i);
        case Finish(i) => A.OnlyCommitsChangeTables(s.db, A.Publish(i));
        case Live(_) =>
      }
      EventsStay(SysNext(s, steps[0]), steps[1..]);
    }
  }

  /**
   At any time of any run, every event row in any snapshot of any stream is that of the
   migration or the one event of a request that has committed.
   */
  lemma ShownEventsAreAudited(start: Sys, steps: seq<SysStep>, c: nat, i: nat)
    requires SysStart(start) && SysValid(start, steps)
    requires var app := SysRun(start, steps).app; c < |app.loops| && i < |app.loops[c].shown|
    ensures 1 in start.db.tables.events
    ensures var s := SysRun(start, steps);
            forall row :: row in s.app.loops[c].shown[i].content.events ==>
              row == start.db.tables.events[1] || FromRequest(s.db, row)
  {
    ReachableSys(start, steps);
    var s := SysRun(start, steps);
    assert U.StreamOk(s.app, c);
    var snap := s.app.loops[c].shown[i];
    assert snap.eventsAt < |s.app.log|;
    hide A.DbInv, U.AppInv, U.StreamOk, A.EventOf, ListEvents, FromRequest;
    StartInv(start);
    EventsStay(start, steps);
    ListedAreAudited(s.db, s.app.log, snap.eventsAt);
  }

  // ---- What a request stored is shown everywhere ---------------------------------------

  function Lives(steps: seq<U.AppStep>): seq<SysStep>
  {
    seq(|steps|, i requires 0 <= i < |steps| => Live(steps[i]))
  }

  /** The work of the streams is work of the whole system, and leaves the database alone. */
  lemma {:induction false} LiftWork(s: Sys, steps: seq<U.AppStep>)
    requires C.AppValid(s.app, steps) && forall i :: 0 <= i < |steps| ==> !steps[i].Commit?
    ensures SysValid(s, Lives(steps))
    ensures SysRun(s, Lives(steps)) == s.(app := C.AppRun(s.app, steps))
    decreases |steps|
  {
    hide U.AppNext, U.AppEnabled;
    if steps != [] {
      var t := SysNext(s, Live(steps[0]));
      LiftWork(t, steps[1..]);
      assert Lives(steps)[1..] == Lives(steps[1..]);
    }
  }

  /**
   Once a request has committed, from any later state of any run, the work that is left,
   without a further commit, leads within the measure to a state in which every live stream
   shows the todos as they are stored, and the event that this request stored, as long as
   fewer than ten newer events are stored.
   */
  lemma RequestReachesBrowsers(start: Sys, steps: seq<SysStep>, i: nat) returns (work: seq<U.AppStep>)
    requires SysStart(start) && SysValid(start, steps)
    requires var db := SysRun(start, steps).db;
             i < |db.txs| && A.Done(db.txs[i]) && |Newer(db.tables.events, db.txs[i].event)| < 10
    ensures var s := SysRun(start, steps);
            && SysValid(s, Lives(work)) && |work| <= C.AppMeasure(s.app)
            && (forall k :: 0 <= k < |work| ==> C.Work(work[k]) && !work[k].Exit?)
            && var t := SysRun(s, Lives(work));
            && t.db == s.db
            && (forall c: nat :: U.Live(s.app, c) ==> U.Live(t.app, c))
            && forall c: nat :: U.Live(t.app, c) ==>
                 && C.HasShown(t.app, c)
                 && C.LastShown(t.app, c).todos == s.db.tables.todos
                 && A.EventOf(s.db.txs[i]) in C.LastShown(t.app, c).events
  {
    ReachableSys(start, steps);
    var s := SysRun(start, steps);
    hide SysInv, Newer, SysRun, SysValid, A.Done, A.EventOf;
    hide C.AppMeasure, C.Work, C.HasShown, C.LastShown, C.Current, U.Live;
    BothInv(s);
    work := C.EventuallyCurrent(s.app);
    WorkIsNoCommit(work);
    LiftWork(s, work);
    StoredIsCurrent(s, C.AppRun(s.app, work), i);
  }

  lemma BothInv(s: Sys)
    requires SysInv(s)
    ensures A.DbInv(s.db) && U.AppInv(s.app) && s.app.log != []
  {
  }

  lemma StoredIsCurrent(s: Sys, app: U.App, i: nat)
    requires SysInv(s) && app.log == s.app.log
    requires i < |s.db.txs| && A.Done(s.db.txs[i]) && |Newer(s.db.tables.events, s.db.txs[i].event)| < 10
    ensures app.log != [] && C.Current(app).todos == s.db.tables.todos
    ensures A.EventOf(s.db.txs[i]) in C.Current(app).events
  {
    hide A.DbInv, U.AppInv, A.EventOf, Newer, ListEvents;
    StoredIsLast(s.db, s.app.log, i);
  }

  lemma WorkIsNoCommit(steps: seq<U.AppStep>)
    requires forall i :: 0 <= i < |steps| ==> C.Work(steps[i])
    ensures forall i :: 0 <= i < |steps| ==> !steps[i].Commit?
  {
  }

  /**
   Whatever the schedule of everything: wherever a run of transactions, bus, browsers and
   streams has come to a state in which no stream and no publisher has anything left to do,
   every live stream shows the todos as they are stored, and the event of every committed
   request with fewer than ten newer ones.
   */
  lemma RequestsShownAtRest(start: Sys, steps: seq<SysStep>, c: nat, i: nat)
    requires SysStart(start) && SysValid(start, steps)
    requires var s := SysRun(start, steps);
             && C.Exhausted(s.app) && U.Live(s.app, c)
             && i < |s.db.txs| && A.Done(s.db.txs[i]) && |Newer(s.db.tables.events, s.db.txs[i].event)| < 10
    ensures var s := SysRun(start, steps);
            && C.HasShown(s.app, c)
            && C.LastShown(s.app, c).todos == s.db.tables.todos
            && A.EventOf(s.db.txs[i]) in C.LastShown(s.app, c).events
  {
    ReachableSys(start, steps);
    var s := SysRun(start, steps);
    hide SysInv, Newer, A.Done, A.EventOf, C.Exhausted, C.HasShown, C.LastShown, C.Current, U.Live, SysRun, SysValid;
    BothInv(s);
    C.ExhaustedMeansCurrent(s.app, c);
    StoredIsCurrent(s, s.app, i);
  }
}
