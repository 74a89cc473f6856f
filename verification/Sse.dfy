/**
 What `GET /stream` writes: `writeSSE`, `writeSnapshotEvent` and the loop of `runStream`
 (internal/server/app.go), over a connection that may fail in the middle of any write.
 */
module Sse {
  import opened Text

  const SNAPSHOT := "snapshot"
  const HEARTBEAT := ": heartbeat" + "\n\n"

  /** The two replacement passes of `writeSSE`. */
  function Normalize(data: string): string
  {
    ReplaceAll(ReplaceAll(data, "\r\n", "\n"), "\r", "\n")
  }

  /** One left-to-right pass over CRLF, lone CR and LF line ends. */
  function OnePass(s: string): string
  {
    if s == "" then ""
    else if s[0] == CR then "\n" + OnePass(if |s| > 1 && s[1] == LF then s[2..] else s[1..])
    else [s[0]] + OnePass(s[1..])
  }

  /** The two passes are the single pass, also where the first one makes a new CRLF. */
  lemma {:induction false} NormalizeIsOnePass(s: string)
    ensures Normalize(s) == OnePass(s)
    ensures Free(Normalize(s), CR)
  {
    if s != "" {
      var first := ReplaceAll(s, "\r\n", "\n");
      if s[0] == CR && |s| > 1 && s[1] == LF {
        assert "\r\n" <= s;
        NormalizeIsOnePass(s[2..]);
        assert first[1..] == ReplaceAll(s[2..], "\r\n", "\n");
      } else {
        NormalizeIsOnePass(s[1..]);
        assert !("\r\n" <= s);
        assert first[1..] == ReplaceAll(s[1..], "\r\n", "\n");
      }
      assert "\r" <= first <==> first[0] == CR;
    }
  }

  function DataLines(lines: seq<string>): string
  {
    if lines == [] then "" else "data: " + lines[0] + "\n" + DataLines(lines[1..])
  }

  /** The bytes of one complete event. */
  function Frame(event: string, data: string): string
  {
    "event: " + event + "\n" + DataLines(Split(Normalize(data), LF)) + "\n"
  }

  /** What a stream sends: full snapshots and keep-alive comments. */
  datatype Chunk = Snapshot(html: string) | Heartbeat

  function ChunkText(c: Chunk): string
  {
    match c
    case Snapshot(html) => Frame(SNAPSHOT, html)
    case Heartbeat => HEARTBEAT
  }

  function Output(chunks: seq<Chunk>): string
  {
    if chunks == [] then "" else ChunkText(chunks[0]) + Output(chunks[1..])
  }

  /** What a writer has taken so far and how much more it takes before its connection breaks. */
  datatype Sink = Endless(out: string) | Bounded(out: string, left: nat)

  predicate Fits(k: Sink, s: string) { k.Endless? || |s| <= k.left }

  /** A write is taken whole while it fits and cut short where the connection breaks. */
  function Put(k: Sink, s: string): Sink
  {
    if k.Endless? then Endless(k.out + s)
    else if Fits(k, s) then Bounded(k.out + s, k.left - |s|)
    else Bounded(k.out + s[..k.left], 0)
  }

  /** Writing on only after a write that fitted leaves what one write of the whole would leave. */
  lemma PutConcat(k: Sink, s: string, t: string)
    ensures Put(k, s + t) == if Fits(k, s) then Put(Put(k, s), t) else Put(k, s)
    ensures Fits(k, s + t) <==> Fits(k, s) && Fits(Put(k, s), t)
  {
  }

  /** An `io.Writer` whose writes succeed while they fit and are cut short otherwise. */
  class Writer {
    var sink: Sink

    constructor (sink: Sink)
      ensures this.sink == sink
    {
      this.sink := sink;
    }

    method Write(s: string) returns (ok: bool)
      modifies this
      ensures ok == Fits(old(sink), s)
      ensures sink == Put(old(sink), s)
    {
      ok := Fits(sink, s);
      sink := Put(sink, s);
    }
  }

  method WriteSSE(w: Writer, event: string, data: string) returns (ok: bool)
    modifies w
    ensures ok == Fits(old(w.sink), Frame(event, data))
    ensures w.sink == Put(old(w.sink), Frame(event, data))
  {
    var head := "event: " + event + "\n";
    var normalized := ReplaceAll(data, "\r\n", "\n");
    normalized := ReplaceAll(normalized, "\r", "\n");
    var lines := Split(normalized, LF);
    assert Frame(event, data) == head + (DataLines(lines) + "\n");
    PutConcat(w.sink, head, DataLines(lines) + "\n");
    ok := w.Write(head);
    if !ok { return; }
    for i := 0 to |lines|
      invariant ok && Put(w.sink, DataLines(lines[i..]) + "\n") == Put(old(w.sink), Frame(event, data))
      invariant Fits(w.sink, DataLines(lines[i..]) + "\n") <==> Fits(old(w.sink), Frame(event, data))
    {
      var line := "data: " + lines[i] + "\n";
      NextLine(lines, i, line);
      PutConcat(w.sink, line, DataLines(lines[i + 1..]) + "\n");
      ok := w.Write(line);
      if !ok { return; }
    }
    assert DataLines(lines[|lines|..]) + "\n" == "\n";
    ok := w.Write("\n");
  }

  lemma NextLine(lines: seq<string>, i: nat, line: string)
    requires i < |lines| && line == "data: " + lines[i] + "\n"
    ensures DataLines(lines[i..]) + "\n" == line + (DataLines(lines[i + 1..]) + "\n")
  {
  }

  // ---- Rendering -----------------------------------------------------------------------

  /** What a render writes, piece by piece, and whether it got to its end. */
  datatype Render = Render(pieces: seq<string>, ok: bool)

  function Concat(pieces: seq<string>): string
  {
    if pieces == [] then "" else pieces[0] + Concat(pieces[1..])
  }

  lemma ConcatFirst(pieces: seq<string>)
    ensures Concat(pieces) == if pieces == [] then "" else pieces[0] + Concat(pieces[1..])
  {
  }

  /** The pieces of a render stand one after the other. */
  lemma {:induction false} ConcatAppend(a: seq<string>, b: seq<string>)
    ensures Concat(a + b) == Concat(a) + Concat(b)
  {
    hide Concat;
    ConcatFirst(a);
    if a == [] {
      assert a + b == b;
    } else {
      ConcatFirst(a + b);
      ConcatAppend(a[1..], b);
      assert (a + b)[0] == a[0] && (a + b)[1..] == a[1..] + b;
      assert a[0] + (Concat(a[1..]) + Concat(b)) == (a[0] + Concat(a[1..])) + Concat(b);
    }
  }

  lemma ConcatOne(piece: string)
    ensures Concat([piece]) == piece
  {
    assert [piece][1..] == [];
  }

  lemma ConcatThree(pieces: seq<string>)
    requires |pieces| == 3
    ensures Concat(pieces) == pieces[0] + pieces[1] + pieces[2]
  {
    assert pieces == [pieces[0]] + [pieces[1]] + [pieces[2]];
    ConcatAppend([pieces[0]] + [pieces[1]], [pieces[2]]);
    ConcatAppend([pieces[0]], [pieces[1]]);
    ConcatOne(pieces[0]);
    ConcatOne(pieces[1]);
    ConcatOne(pieces[2]);
    hide Concat;
  }

  function Html(render: Render): string { Concat(render.pieces) }

  /** `renderSnapshot`: what was written before a failure stays written. */
  method RenderSnapshot(w: Writer, render: Render) returns (ok: bool)
    modifies w
    ensures ok <==> render.ok && Fits(old(w.sink), Html(render))
    ensures w.sink == Put(old(w.sink), Html(render))
  {
    var pieces := render.pieces;
    for i := 0 to |pieces|
      invariant Put(w.sink, Concat(pieces[i..])) == Put(old(w.sink), Html(render))
      invariant Fits(w.sink, Concat(pieces[i..])) <==> Fits(old(w.sink), Html(render))
    {
      assert pieces[i..][1..] == pieces[i + 1..];
      PutConcat(w.sink, pieces[i], Concat(pieces[i + 1..]));
      ok := w.Write(pieces[i]);
      if !ok { return false; }
    }
    PutNothing(w.sink);
    return render.ok;
  }

  lemma PutNothing(k: Sink)
    ensures Put(k, "") == k && Fits(k, "")
  {
  }

  /** Renders into a buffer of its own first: however far a failed render got, nothing of it is sent. */
  method WriteSnapshotEvent(w: Writer, render: Render) returns (ok: bool)
    modifies w
    ensures !render.ok ==> !ok && w.sink == old(w.sink)
    ensures render.ok ==> ok == Fits(old(w.sink), Frame(SNAPSHOT, Html(render)))
    ensures render.ok ==> w.sink == Put(old(w.sink), Frame(SNAPSHOT, Html(render)))
  {
    var buffer := new Writer(Endless(""));
    ok := RenderSnapshot(buffer, render);
    if !ok { return; }
    assert "" + Html(render) == Html(render);
    ok := WriteSSE(w, SNAPSHOT, buffer.sink.out);
  }

  // ---- The stream ----------------------------------------------------------------------

  /** One outcome of the `select` of `runStream`; a wake-up carries its render. */
  datatype Choice = StreamShutdown | ContextDone | EventsClosed | Wake(render: Render) | Tick

  /** The chunks a run of choices asks the stream to send, up to the choice that ends the loop. */
  function Chunks(script: seq<Choice>): seq<Chunk>
  {
    if script == [] then []
    else match script[0]
      case Wake(Render(pieces, true)) => [Snapshot(Concat(pieces))] + Chunks(script[1..])
      case Tick => [Heartbeat] + Chunks(script[1..])
      case _ => []
  }

  /** A wake-up whose render succeeds and a tick keep the stream going; everything else ends it. */
  predicate GoesOn(choice: Choice) { choice.Tick? || (choice.Wake? && choice.render.ok) }

  /** Each choice until the stream ends sends one chunk, and nothing is sent after that. */
  lemma {:induction false} ChunksFollow(script: seq<Choice>, n: nat)
    requires n <= |script| && (n < |script| ==> !GoesOn(script[n]))
    requires forall i :: 0 <= i < n ==> GoesOn(script[i])
    ensures |Chunks(script)| == n
    ensures forall i :: 0 <= i < n ==>
              && (script[i].Tick? ==> Chunks(script)[i] == Heartbeat)
              && (script[i].Wake? ==> Chunks(script)[i] == Snapshot(Html(script[i].render)))
    decreases |script|
  {
    if n > 0 {
      ChunksFollow(script[1..], n - 1);
      assert GoesOn(script[0]);
      var first := if script[0].Wake? then Snapshot(Html(script[0].render)) else Heartbeat;
      assert Chunks(script) == [first] + Chunks(script[1..]);
    }
  }

  method RunStream(w: Writer, script: seq<Choice>)
    modifies w
    ensures w.sink == Put(old(w.sink), Output(Chunks(script)))
  {
    hide Frame, Output, Chunks, HEARTBEAT, Put, Fits, Concat;
    assert script[0..] == script;
    var i := 0;
    while i < |script|
      invariant 0 <= i <= |script|
      invariant Put(w.sink, Output(Chunks(script[i..]))) == Put(old(w.sink), Output(Chunks(script)))
    {
      NextChoice(w.sink, script, i);
      match script[i] {
        case StreamShutdown => return;
        case ContextDone => return;
        case EventsClosed => return;
        case Wake(render) =>
          var ok := WriteSnapshotEvent(w, render);
          if !ok { return; }
        case Tick =>
          var ok := w.Write(HEARTBEAT);
          if !ok { return; }
      }
      i := i + 1;
    }
    NoChoice(w.sink, script[i..]);
  }

  lemma NoChoice(k: Sink, script: seq<Choice>)
    requires script == []
    ensures Put(k, Output(Chunks(script))) == k
  {
  }

  lemma NextChoice(k: Sink, script: seq<Choice>, i: nat)
    requires i < |script|
    ensures Put(k, "") == k
    ensures match script[i]
            case Wake(Render(pieces, true)) =>
              Put(k, Output(Chunks(script[i..]))) == Written(k, Frame(SNAPSHOT, Concat(pieces)), script[i + 1..])
            case Tick => Put(k, Output(Chunks(script[i..]))) == Written(k, HEARTBEAT, script[i + 1..])
            case _ => Output(Chunks(script[i..])) == ""
  {
    var rest := script[i + 1..];
    assert script[i..][1..] == rest;
    match script[i]
    case Wake(Render(pieces, true)) =>
      var html := Concat(pieces);
      assert ([Snapshot(html)] + Chunks(rest))[1..] == Chunks(rest);
      PutConcat(k, Frame(SNAPSHOT, html), Output(Chunks(rest)));
    case Tick =>
      assert ([Heartbeat] + Chunks(rest))[1..] == Chunks(rest);
      PutConcat(k, HEARTBEAT, Output(Chunks(rest)));
    case _ =>
  }

  ghost function Written(k: Sink, text: string, rest: seq<Choice>): Sink
  {
    if Fits(k, text) then Put(Put(k, text), Output(Chunks(rest))) else Put(k, text)
  }

  /** What the handler `stream` answers. */
  datatype Response = Unsupported | Unavailable | ServerError | EventStream

  /**
   The connection must be able to flush and the subscription must succeed. The initial
   snapshot goes through a buffer and one write; a failed render opens no stream.
   */
  method Stream(w: Writer, flusher: bool, subscribed: bool, initial: Render, script: seq<Choice>) returns (r: Response)
    modifies w
    ensures r == if !flusher then Unsupported else if !subscribed then Unavailable
                 else if !initial.ok then ServerError else EventStream
    ensures !r.EventStream? ==> w.sink == old(w.sink)
    ensures r.EventStream? ==>
              w.sink == Put(old(w.sink), Output([Snapshot(Html(initial))] + Chunks(script)))
  {
    if !flusher { return Unsupported; }
    if !subscribed { return Unavailable; }
    var buffer := new Writer(Endless(""));
    var ok := WriteSnapshotEvent(buffer, initial);
    if !ok { return ServerError; }
    var frame := buffer.sink.out;
    assert frame == Frame(SNAPSHOT, Html(initial));
    assert ([Snapshot(Html(initial))] + Chunks(script))[1..] == Chunks(script);
    PutConcat(w.sink, frame, Output(Chunks(script)));
    ok := w.Write(frame);
    if ok { RunStream(w, script); }
    return EventStream;
  }
}
