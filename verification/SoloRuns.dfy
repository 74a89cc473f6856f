/**
 The sequential handlers and the interleaved transactions are about the same effects: a
 request that runs alone through module AuditLog leaves the tables that module Handlers
 promises.
 */
module SoloRuns {
  import opened Tables
  import opened Effects
  import opened AuditLog
  import opened Handlers

  /** Begin, first statement, event and commit of a new transaction, with nothing in between. */
  ghost predicate RunsAlone(s: Db, request: Request, id: string, now: int, end: Tables)
  {
    var i := |s.txs|;
    && DbEnabled(s, Begin(request))
    && var a := DbNext(s, Begin(request));
    && DbEnabled(a, Change(i, id, now))
    && var b := DbNext(a, Change(i, id, now));
    && DbEnabled(b, Log(i))
    && var c := DbNext(b, Log(i));
    && DbEnabled(c, Commit(i))
    && DbNext(c, Commit(i)).tables == end
  }

  lemma UnlockedStaysUnlocked(s: Db, request: Request, id: string)
    requires DbEnabled(s, Begin(request)) && !Locked(s, id)
    ensures !Locked(DbNext(s, Begin(request)), id)
  {
  }

  /** An accepted form body, on an id never used before. */
  lemma CreateAlone(s: Db, raw: string, id: string, now: int)
    requires id !in s.used && IdsOk(s)
    requires B.ValidateTodoBody(B.TrimSpace(raw)) == B.NoError && B.Storable(B.TrimSpace(raw))
    ensures var body := B.TrimSpace(raw);
            RunsAlone(s, Create(body), id, now, AfterCreate(s.tables, id, body, now, s.nextEvent))
  {
    B.BodyPipeline(raw);
    hide B.TrimSpace, B.SqlTrim, B.ValidateTodoBody, B.AllowedAfterSplit, B.Storable, TodoEvent, Apply;
    CreateWrites(s.tables, id, B.TrimSpace(raw), now, s.nextEvent);
  }

  /** A row nobody holds a lock on. */
  lemma ToggleAlone(s: Db, id: string)
    requires id in s.tables.todos && !Locked(s, id)
    ensures RunsAlone(s, Toggle(id), id, 0, AfterToggle(s.tables, id, s.nextEvent))
  {
    hide TodoEvent, Apply;
    UnlockedStaysUnlocked(s, Toggle(id), id);
    ToggleWrites(s.tables, id, s.tables.todos[id].(done := !s.tables.todos[id].done), s.nextEvent);
  }

  lemma DeleteAlone(s: Db, id: string)
    requires id in s.tables.todos && !Locked(s, id)
    ensures RunsAlone(s, Delete(id), id, 0, AfterDelete(s.tables, id, s.nextEvent))
  {
    hide TodoEvent, Apply;
    UnlockedStaysUnlocked(s, Delete(id), id);
    DeleteWrites(s.tables, id, s.nextEvent);
  }

  lemma EnqueueAlone(s: Db)
    ensures RunsAlone(s, Enqueue, "", 0, AfterEnqueue(s.tables, s.nextJob, s.nextEvent))
  {
    hide EnqueuedEvent, Apply;
    EnqueueWrites(s.tables, s.nextJob, s.nextEvent);
  }

  lemma PulseAlone(s: Db, bus: string)
    ensures RunsAlone(s, Pulse(bus), "", 0, AfterEvent(s.tables, s.nextEvent, PulseEvent(bus)))
  {
    EventWrites(s.tables, s.nextEvent, PulseEvent(bus));
  }

  /** One attempt of a job that is queued, not finished and not being worked on. */
  lemma ProcessAlone(s: Db, job: nat, report: string)
    requires DbEnabled(s, Begin(Process(job, report)))
    ensures RunsAlone(s, Process(job, report), "", 0, AfterEvent(s.tables, s.nextEvent, ProcessedEvent(job, report)))
  {
    EventWrites(s.tables, s.nextEvent, ProcessedEvent(job, report));
  }
}
