/**
 The database and the live updates of several processes together: whichever process serves a
 request, its commit is what its wake-up is published for over NATS, and what the streams of
 every process read.
 */
module WholeCluster {
  import opened CommitLog
  import opened Tables
  import N = NatsUpdate
  import NC = NatsConvergence

  /** `served`: the publisher that makes the wake-up of each committed request. */
  datatype Sys = Sys(db: A.Db, cluster: N.Cluster, served: map<nat, nat>)

  datatype SysStep =
    | Database(tx: A.DbStep)    // a step of a transaction before its commit, or its rollback
    | Serve(i: nat, p: nat)     // the commit of transaction `i`; publisher `p` of its process is next
    | Finish(i: nat)            // the publish has returned and the request is answered
    | Live(step: N.NatsStep)    // a step of a process, of the broker, of a browser or of a stream

  ghost predicate SysStart(s: Sys)
  {
    A.Start(s.db) && N.Start(s.cluster) && s.cluster.log == [s.db.tables] && s.served == map[]
  }

  /** The commit of a transaction as the live updates see it. */
  ghost function CommitOf(db: A.Db, i: nat, p: nat): N.NatsStep
    requires A.DbEnabled(db, A.Commit(i))
  {
    N.Commit(p, A.DbNext(db, A.Commit(i)).tables, A.Reason(db.txs[i].request))
  }

  predicate Rested(s: Sys, i: nat)
  {
    && i in s.served && s.served[i] < |s.cluster.publishers|
    && s.cluster.publishers[s.served[i]].due == [] && !s.cluster.publishers[s.served[i]].flushing
  }

  ghost predicate SysEnabled(s: Sys, step: SysStep)
  {
    match step
    case Database(step) => !step.Commit? && !step.Publish? && A.DbEnabled(s.db, step)
    case Serve(i, p) => A.DbEnabled(s.db, A.Commit(i)) && N.NatsEnabled(s.cluster, CommitOf(s.db, i, p))
    case Finish(i) => A.DbEnabled(s.db, A.Publish(i)) && Rested(s, i)
    case Live(step) => !step.Commit? && N.NatsEnabled(s.cluster, step)
  }

  ghost function SysNext(s: Sys, step: SysStep): Sys
    requires SysEnabled(s, step)
  {
    match step
    case Database(step) => s.(db := A.DbNext(s.db, step))
    case Serve(i, p) =>
      Sys(A.DbNext(s.db, A.Commit(i)), N.NatsNext(s.cluster, CommitOf(s.db, i, p)), s.served[i := p])
    case Finish(i) => s.(db := A.DbNext(s.db, A.Publish(i)))
    case Live(step) => s.(cluster := N.NatsNext(s.cluster, step))
  }

  ghost predicate SysValid(s: Sys, steps: seq<SysStep>)
    decreases |steps|
  {
    steps != [] ==> SysEnabled(s, steps[0]) && SysValid(SysNext(s, steps[0]), steps[1..])
  }

  ghost function SysRun(s: Sys, steps: seq<SysStep>): Sys
    requires SysValid(s, steps)
    decreases |steps|
  {
    if steps == [] then s else SysRun(SysNext(s, steps[0]), steps[1..])
  }

  ghost predicate SysInv(s: Sys) { A.DbInv(s.db) && N.NatsInv(s.cluster) && LogOk(s.cluster.log, s.db.tables) }

  lemma ServeKeepsInv(s: Sys, i: nat, p: nat)
    requires SysInv(s) && SysEnabled(s, Serve(i, p))
    ensures SysInv(SysNext(s, Serve(i, p)))
  {
    var commit := CommitOf(s.db, i, p);
    hide A.DbNext, A.DbEnabled, A.DbInv, N.NatsNext, N.NatsEnabled, N.NatsInv, LogOk, Kept;
    N.LogMoves(s.cluster, commit);
    A.DbStepKeepsInv(s.db, A.Commit(i));
    N.NatsStepKeepsInv(s.cluster, commit);
    CommitAddsEvent(s.db, i);
    LogGrows(s.cluster.log, s.db.tables, commit.tables);
  }

  lemma SysStepKeepsInv(s: Sys, step: SysStep)
    requires SysInv(s) && SysEnabled(s, step)
    ensures SysInv(SysNext(s, step))
  {
    hide A.DbNext, A.DbEnabled, A.DbInv, N.NatsNext, N.NatsEnabled, N.NatsInv, LogOk;
    match step
    case Database(inner) =>
      A.DbStepKeepsInv(s.db, inner);
      A.OnlyCommitsChangeTables(s.db, inner);
    case Serve(i, p) => ServeKeepsInv(s, i, p);
    case Finish(i) =>
      A.DbStepKeepsInv(s.db, A.Publish(i));
      A.OnlyCommitsChangeTables(s.db, A.Publish(i));
    case Live(inner) =>
      N.NatsStepKeepsInv(s.cluster, inner);
      N.LogMoves(s.cluster, inner);
      assert s.cluster.log + [] == s.cluster.log;
  }

  lemma {:induction false} SysRunKeepsInv(s: Sys, steps: seq<SysStep>)
    requires SysInv(s) && SysValid(s, steps)
    ensures SysInv(SysRun(s, steps))
    decreases |steps|
  {
    hide SysNext, SysInv;
    if steps != [] {
      SysStepKeepsInv(s, steps[0]);
      SysRunKeepsInv(SysNext(s, steps[0]), steps[1..]);
    }
  }

  lemma StartInv(start: Sys)
    requires SysStart(start)
    ensures SysInv(start)
  {
    hide A.DbInv, N.NatsInv, A.Start, N.Start, LogOk;
    A.StartInv(start.db);
    N.StartInv(start.cluster);
    LogStarts(start.db.tables);
  }

  /** The invariants of both halves hold together in every reachable state. */
  lemma ReachableSys(start: Sys, steps: seq<SysStep>)
    requires SysStart(start) && SysValid(start, steps)
    ensures SysInv(SysRun(start, steps))
  {
    StartInv(start);
    SysRunKeepsInv(start, steps);
  }

  lemma StoredIsShown(s: Sys, cluster: N.Cluster, c: nat, i: nat)
    requires SysInv(s) && cluster.log == s.cluster.log && NC.ShowsLast(cluster, c)
    requires i < |s.db.txs| && A.Done(s.db.txs[i]) && |Newer(s.db.tables.events, s.db.txs[i].event)| < 10
    ensures NC.LastShown(cluster, c).todos == s.db.tables.todos
    ensures A.EventOf(s.db.txs[i]) in NC.LastShown(cluster, c).events
  {
    hide A.DbInv, N.NatsInv, A.EventOf, Newer, ListEvents;
    StoredIsLast(s.db, s.cluster.log, i);
  }

  function Lives(steps: seq<N.NatsStep>): seq<SysStep>
  {
    seq(|steps|, i requires 0 <= i < |steps| => Live(steps[i]))
  }

  /** The work of the processes is work of the whole system, and leaves the database alone. */
  lemma {:induction false} LiftWork(s: Sys, steps: seq<N.NatsStep>)
    requires N.NatsValid(s.cluster, steps) && forall i :: 0 <= i < |steps| ==> NC.NatsWork(steps[i])
    ensures SysValid(s, Lives(steps))
    ensures SysRun(s, Lives(steps)) == s.(cluster := N.NatsRun(s.cluster, steps))
    decreases |steps|
  {
    hide N.NatsNext, N.NatsEnabled;
    if steps != [] {
      var t := SysNext(s, Live(steps[0]));
      LiftWork(t, steps[1..]);
      assert Lives(steps)[1..] == Lives(steps[1..]);
    }
  }

  /**
   Once a request has committed in any process, from any later state of any run, the work that
   is left, without a further commit and with no failure, leads within the measure to a state
   in which every live stream of every process shows the todos as they are stored, and the
   event that this request stored, as long as fewer than ten newer events are stored.
   */
  lemma RequestReachesBrowsers(start: Sys, steps: seq<SysStep>, i: nat) returns (work: seq<N.NatsStep>)
    requires SysStart(start) && SysValid(start, steps)
    requires var db := SysRun(start, steps).db;
             i < |db.txs| && A.Done(db.txs[i]) && |Newer(db.tables.events, db.txs[i].event)| < 10
    ensures var s := SysRun(start, steps);
            && SysValid(s, Lives(work)) && |work| <= NC.NatsMeasure(s.cluster)
            && (forall k :: 0 <= k < |work| ==> NC.SoundWork(work[k]))
            && var t := SysRun(s, Lives(work));
            && t.db == s.db
            && (forall c: nat :: N.Live(s.cluster, c) ==> N.Live(t.cluster, c))
            && forall c: nat :: N.Live(t.cluster, c) ==>
                 && NC.ShowsLast(t.cluster, c)
                 && NC.LastShown(t.cluster, c).todos == s.db.tables.todos
                 && A.EventOf(s.db.txs[i]) in NC.LastShown(t.cluster, c).events
  {
    ReachableSys(start, steps);
    var s := SysRun(start, steps);
    hide SysInv, Newer, SysRun, SysValid, A.Done, A.EventOf;
    hide NC.NatsMeasure, NC.NatsWork, NC.ShowsLast, NC.LastShown, N.Live;
    BothInv(s);
    work := NC.NatsEventuallyCurrent(s.cluster);
    LiftWork(s, work);
    var cluster := N.NatsRun(s.cluster, work);
    forall c: nat | N.Live(cluster, c)
      ensures NC.ShowsLast(cluster, c)
      ensures NC.LastShown(cluster, c).todos == s.db.tables.todos
      ensures A.EventOf(s.db.txs[i]) in NC.LastShown(cluster, c).events
    {
      StoredIsShown(s, cluster, c, i);
    }
  }

  lemma BothInv(s: Sys)
    requires SysInv(s)
    ensures A.DbInv(s.db) && N.NatsInv(s.cluster) && s.cluster.log != []
  {
  }

  /**
   Whatever the schedule of everything: wherever a run of transactions, processes, broker and
   browsers has come to a state in which nobody has anything left to do, every live stream of
   every process shows the todos as they are stored, and the event of every committed request
   with fewer than ten newer ones.
   */
  lemma RequestsShownAtRest(start: Sys, steps: seq<SysStep>, c: nat, i: nat)
    requires SysStart(start) && SysValid(start, steps)
    requires var s := SysRun(start, steps);
             && NC.NatsExhausted(s.cluster) && N.Live(s.cluster, c)
             && i < |s.db.txs| && A.Done(s.db.txs[i]) && |Newer(s.db.tables.events, s.db.txs[i].event)| < 10
    ensures var s := SysRun(start, steps);
            && NC.ShowsLast(s.cluster, c)
            && NC.LastShown(s.cluster, c).todos == s.db.tables.todos
            && A.EventOf(s.db.txs[i]) in NC.LastShown(s.cluster, c).events
  {
    ReachableSys(start, steps);
    var s := SysRun(start, steps);
    hide SysInv, Newer, SysRun, SysValid, A.Done, A.EventOf, NC.NatsExhausted, NC.ShowsLast, NC.LastShown, N.Live;
    BothInv(s);
    NC.ExhaustedShowsLast(s.cluster, c);
    StoredIsShown(s, s.cluster, c, i);
  }

  lemma {:induction false} EventsStay(s: Sys, steps: seq<SysStep>)
    requires SysInv(s) && SysValid(s, steps)
    ensures Kept(s.db.tables.events, SysRun(s, steps).db.tables.events)
    decreases |steps|
  {
    hide A.DbInv, A.DbNext, A.DbEnabled, N.NatsInv;
    if steps != [] {
      SysStepKeepsInv(s, steps[0]);
      match steps[0] {
        case Database(step) => A.OnlyCommitsChangeTables(s.db, step);
        case Serve(i, _) => CommitAddsEvent(s.db, i);
        case Finish(i) => A.OnlyCommitsChangeTables(s.db, A.Publish(i));
        case Live(_) =>
      }
      EventsStay(SysNext(s, steps[0]), steps[1..]);
    }
  }

  /**
   At any time of any run, every event row in any snapshot of any process is that of the
   migration or the one event of a request that has committed.
   */
  lemma ShownEventsAreAudited(start: Sys, steps: seq<SysStep>, c: nat, i: nat)
    requires SysStart(start) && SysValid(start, steps)
    requires var cluster := SysRun(start, steps).cluster; c < |cluster.loops| && i < |cluster.loops[c].shown|
    ensures 1 in start.db.tables.events
    ensures var s := SysRun(start, steps);
            forall row :: row in s.cluster.loops[c].shown[i].content.events ==>
              row == start.db.tables.events[1] || FromRequest(s.db, row)
  {
    ReachableSys(start, steps);
    var s := SysRun(start, steps);
    assert N.StreamOk(s.cluster, c);
    var snap := s.cluster.loops[c].shown[i];
    assert snap.eventsAt < |s.cluster.log|;
    hide A.DbInv, N.NatsInv, N.StreamOk, A.EventOf, ListEvents, FromRequest;
    StartInv(start);
    EventsStay(start, steps);
    ListedAreAudited(s.db, s.cluster.log, snap.eventsAt);
  }
}
