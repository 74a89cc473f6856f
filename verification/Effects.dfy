/** What each request writes, and how its event row can be read back. */
module Effects {
  import opened Options
  import opened Text
  import opened Tables

  /** The uncommitted changes of one transaction. */
  datatype Writes = Writes(put: map<string, Todo>, del: set<string>, events: map<nat, AppEvent>, jobs: set<nat>)

  const NOTHING := Writes(map[], {}, map[], {})

  function Apply(tables: Tables, w: Writes): Tables
  {
    Tables((tables.todos - w.del) + w.put, tables.events + w.events, tables.jobs + w.jobs)
  }

  // ---- Event rows ----------------------------------------------------------------------

  datatype Action = Created | MarkedDone | MarkedOpen | Deleted

  function Label(action: Action): string
  {
    match action
    case Created => "created: "
    case MarkedDone => "marked done: "
    case MarkedOpen => "marked open: "
    case Deleted => "deleted: "
  }

  function TodoEvent(action: Action, body: string): AppEvent { AppEvent("todo", Label(action) + body) }

  function DecodeTodo(e: AppEvent): Option<(Action, string)>
  {
    if e.kind != "todo" then None
    else if "created: " <= e.body then Some((Created, e.body[9..]))
    else if "marked done: " <= e.body then Some((MarkedDone, e.body[13..]))
    else if "marked open: " <= e.body then Some((MarkedOpen, e.body[13..]))
    else if "deleted: " <= e.body then Some((Deleted, e.body[9..]))
    else None
  }

  function SeedEvent(count: nat): AppEvent
  {
    AppEvent("seed", if count > 0 then "seeded " + Decimal(count) + " app-building steps"
                     else "showcase seed already present")
  }

  function Number(s: string): nat { if AllDigits(s) then Value(s) else 0 }

  /** The N of "seeded N app-building steps", and 0 for any other event. */
  function DecodeSeed(e: AppEvent): nat
  {
    if e.kind == "seed" && "seeded " <= e.body then Number(Cut(e.body[7..], ' ').0) else 0
  }

  function EnqueuedEvent(job: nat): AppEvent { AppEvent("river", "enqueued snapshot job " + Decimal(job)) }

  /** The job that an "enqueued" event names. */
  function DecodeEnqueued(e: AppEvent): Option<nat>
  {
    if e.kind == "river" && "enqueued snapshot job " <= e.body && AllDigits(e.body[22..]) then
      Some(Value(e.body[22..]))
    else None
  }

  function ProcessedEvent(job: nat, report: string): AppEvent
  {
    AppEvent("river", "River job " + Decimal(job) + " processed at " + report)
  }

  function ReportWords(time: string, total: string, open: string, done: string, reason: string): seq<string>
  {
    [time + ":", total, "total,", open, "open,", done, "done.", "Reason:", reason]
  }

  /** The time, the counts and the reason at the end of a "processed" event. */
  function Report(time: string, stats: Counts, reason: string): string
    requires stats.done <= stats.total
  {
    var total, open, done := Decimal(stats.total), Decimal(stats.total - stats.done), Decimal(stats.done);
    Join(ReportWords(time, total, open, done, reason), ' ')
  }

  /** The job and the report of a "processed" event. */
  function DecodeProcessed(e: AppEvent): Option<(nat, string)>
  {
    if e.kind == "river" && "River job " <= e.body then
      var (digits, rest, _) := Cut(e.body[10..], ' ');
      if AllDigits(digits) && "processed at " <= rest then Some((Value(digits), rest[13..])) else None
    else None
  }

  /** What is left of a text after its first `n` words. */
  function AfterWords(s: string, n: nat): string
    decreases n
  {
    if n == 0 then s else AfterWords(Cut(s, ' ').1, n - 1)
  }

  function Word(s: string, n: nat): string { Cut(AfterWords(s, n), ' ').0 }

  function PulseEvent(bus: string): AppEvent { AppEvent("pulse", "manual pulse over " + bus + " bus") }

  /** The bus that a pulse event names. */
  function DecodePulse(e: AppEvent): Option<string>
  {
    if e.kind == "pulse" && "manual pulse over " <= e.body && |e.body| >= 22 && e.body[|e.body| - 4..] == " bus" then
      Some(e.body[18..|e.body| - 4])
    else None
  }

  /** The change in the number of todos that an event row announces. */
  function Delta(e: AppEvent): int
  {
    match DecodeTodo(e)
    case Some((Created, _)) => 1
    case Some((Deleted, _)) => -1
    case _ => DecodeSeed(e)
  }

  /** An event body decodes into exactly the action and the todo body it was made of. */
  lemma TodoEventDecodes(action: Action, body: string)
    ensures DecodeTodo(TodoEvent(action, body)) == Some((action, body))
  {
    var s := Label(action) + body;
    assert s[0] == Label(action)[0] && (|Label(action)| > 10 ==> s[7] == Label(action)[7]);
    assert s[|Label(action)|..] == body;
    assert "marked done: "[7] == 'd' && "marked open: "[7] == 'o';
  }

  lemma TodoEventUnique(a: Action, body: string, b: Action, other: string)
    requires TodoEvent(a, body) == TodoEvent(b, other)
    ensures a == b && body == other
  {
    TodoEventDecodes(a, body);
    TodoEventDecodes(b, other);
  }

  lemma SeededDecodes(count: nat)
    requires count > 0
    ensures DecodeTodo(SeedEvent(count)).None? && DecodeSeed(SeedEvent(count)) == count
  {
    hide Decimal, Value, Cut;
    var digits := Decimal(count);
    var rest := "app-building steps";
    var body := "seeded " + digits + " app-building steps";
    assert body[7..] == digits + [' '] + rest;
    CutAt(digits, ' ', rest);
    DecimalValue(count);
  }

  lemma SeedEventDecodes(count: nat)
    ensures DecodeTodo(SeedEvent(count)).None? && DecodeSeed(SeedEvent(count)) == count
  {
    if count > 0 {
      SeededDecodes(count);
    } else {
      assert "showcase seed already present"[1] == 'h' && "seeded "[1] == 'e';
    }
  }

  /** An "enqueued" event names its job. */
  lemma EnqueuedDecodes(job: nat)
    ensures DecodeEnqueued(EnqueuedEvent(job)) == Some(job)
  {
    assert EnqueuedEvent(job).body[22..] == Decimal(job);
    DecimalValue(job);
  }

  /** No other event reads as an "enqueued" or a "processed" one. */
  lemma OtherKindsNameNoJob(e: AppEvent)
    requires e.kind != "river"
    ensures DecodeEnqueued(e).None? && DecodeProcessed(e).None?
  {
  }

  lemma JobEventsDiffer(job: nat, report: string)
    ensures DecodeEnqueued(ProcessedEvent(job, report)).None? && DecodeProcessed(EnqueuedEvent(job)).None?
  {
    assert ProcessedEvent(job, report).body[0] == 'R' && "enqueued snapshot job "[0] == 'e';
    assert EnqueuedEvent(job).body[0] == 'e' && "River job "[0] == 'R';
  }

  lemma PulseDecodes(bus: string)
    ensures DecodePulse(PulseEvent(bus)) == Some(bus)
  {
    var body := "manual pulse over " + bus + " bus";
    assert body[|body| - 4..] == " bus" && body[18..|body| - 4] == bus;
  }

  lemma ProcessedDecodes(job: nat, report: string)
    ensures DecodeProcessed(ProcessedEvent(job, report)) == Some((job, report))
  {
    hide Decimal, Value, Cut;
    var digits, rest := Decimal(job), "processed at " + report;
    var body := "River job " + digits + " processed at " + report;
    assert body[10..] == digits + [' '] + rest;
    CutAt(digits, ' ', rest);
    DecimalValue(job);
    assert rest[13..] == report;
  }

  /** The words of a joined text, and what is left after some of them. */
  lemma {:induction false} JoinedWords(words: seq<string>, n: nat)
    requires n < |words| && forall i :: 0 <= i < |words| - 1 ==> Free(words[i], ' ')
    ensures AfterWords(Join(words, ' '), n) == Join(words[n..], ' ')
    ensures n < |words| - 1 ==> Word(Join(words, ' '), n) == words[n]
    decreases n
  {
    if |words| > 1 {
      CutAt(words[0], ' ', Join(words[1..], ' '));
      if n > 0 {
        JoinedWords(words[1..], n - 1);
        assert words[1..][n - 1..] == words[n..];
      }
    }
    if n == 0 {
      assert words[0..] == words;
    }
  }

  lemma DecimalNumber(n: nat)
    ensures Free(Decimal(n), ' ') && Number(Decimal(n)) == n
  {
    DecimalValue(n);
  }

  /** The counts and the reason stand in a report as they were; a time has no spaces in it. */
  lemma ReportReads(time: string, stats: Counts, reason: string)
    requires stats.done <= stats.total && Free(time, ' ')
    ensures var report := Report(time, stats, reason);
            && Number(Word(report, 1)) == stats.total
            && Number(Word(report, 3)) == stats.total - stats.done
            && Number(Word(report, 5)) == stats.done
            && Word(report, 0) == time + ":" && AfterWords(report, 8) == reason
  {
    hide Decimal, Number, Value, Join, AfterWords, Word, Free, ReportWords;
    var a, b, c := Decimal(stats.total), Decimal(stats.total - stats.done), Decimal(stats.done);
    var words := ReportWords(time, a, b, c, reason);
    DecimalNumber(stats.total);
    DecimalNumber(stats.total - stats.done);
    DecimalNumber(stats.done);
    PlainWords(time, a, b, c, reason);
    JoinedNine(words);
  }

  lemma JoinedNine(words: seq<string>)
    requires |words| == 9 && forall i :: 0 <= i < 8 ==> Free(words[i], ' ')
    ensures forall i :: 0 <= i < 8 ==> Word(Join(words, ' '), i) == words[i]
    ensures AfterWords(Join(words, ' '), 8) == words[8]
  {
    hide Free, Join, Word, AfterWords;
    forall i | 0 <= i < 8 ensures Word(Join(words, ' '), i) == words[i] {
      JoinedWords(words, i);
    }
    JoinedWords(words, 8);
    JoinOne(words[8..]);
  }

  lemma PlainWords(time: string, total: string, open: string, done: string, reason: string)
    requires Free(time, ' ') && Free(total, ' ') && Free(open, ' ') && Free(done, ' ')
    ensures var words := ReportWords(time, total, open, done, reason);
            && |words| == 9 && words[0] == time + ":"
            && words[1] == total && words[3] == open && words[5] == done && words[8] == reason
            && forall i :: 0 <= i < 8 ==> Free(words[i], ' ')
  {
    assert Free(time + ":", ' ') && Free("total,", ' ') && Free("open,", ' ') && Free("done.", ' ');
    assert Free("Reason:", ' ');
    hide Free;
  }

  lemma JoinOne(words: seq<string>)
    requires |words| == 1
    ensures Join(words, ' ') == words[0]
  {
  }

  lemma OtherEventsChangeNothing(job: nat, report: string, bus: string)
    ensures Delta(EnqueuedEvent(job)) == 0 && Delta(ProcessedEvent(job, report)) == 0 && Delta(PulseEvent(bus)) == 0
  {
  }
}
