/**
 The reader at the other end of `GET /stream`: an event stream parser as sections 9.2.5
 and 9.2.6 of the WHATWG HTML Living Standard describe it, and what it makes of the
 server's output.
 */
module EventSource {
  import opened Text
  import opened Sse

  datatype Message = Message(kind: string, data: string, lastEventId: string)

  /** The buffers of section 9.2.6, the line being read, and the events dispatched so far. */
  datatype Parser = Parser(line: string, skipLF: bool, eventType: string, data: string,
                           idBuffer: string, reconnection: string, dispatched: seq<Message>)

  const INITIAL := Parser("", false, "", "", "", "", [])

  function ProcessField(p: Parser, name: string, value: string): Parser
  {
    if name == "event" then p.(eventType := value)
    else if name == "data" then p.(data := p.data + value + "\n")
    else if name == "id" then (if '\0' in value then p else p.(idBuffer := value))
    else if name == "retry" then (if AllDigits(value) then p.(reconnection := value) else p)
    else p
  }

  /** Dispatching with an empty data buffer only clears the event type. */
  function Dispatch(p: Parser): Parser
  {
    var cleared := p.(eventType := "", data := "");
    if p.data == "" then cleared
    else
      var data := if p.data[|p.data| - 1] == LF then p.data[..|p.data| - 1] else p.data;
      var kind := if p.eventType == "" then "message" else p.eventType;
      cleared.(dispatched := p.dispatched + [Message(kind, data, p.idBuffer)])
  }

  function ProcessLine(p: Parser, line: string): Parser
  {
    if line == "" then Dispatch(p)
    else if line[0] == ':' then p
    else
      var (name, value, found) := Cut(line, ':');
      if !found then ProcessField(p, line, "")
      else ProcessField(p, name, if value != "" && value[0] == ' ' then value[1..] else value)
  }

  /** A line ends at CRLF, at a lone LF or at a lone CR. */
  function Step(p: Parser, c: char): Parser
  {
    if c == LF && p.skipLF then p.(skipLF := false)
    else if c == LF || c == CR then ProcessLine(p.(line := "", skipLF := c == CR), p.line)
    else p.(line := p.line + [c], skipLF := false)
  }

  function Feed(p: Parser, s: string): Parser
    decreases |s|
  {
    if s == "" then p else Feed(Step(p, s[0]), s[1..])
  }

  /** The events a whole stream dispatches; what is pending at its end is dropped. */
  function Dispatched(s: string): seq<Message>
  {
    Feed(INITIAL, if s != "" && s[0] == '\U{FEFF}' then s[1..] else s).dispatched
  }

  /** Reading can pause anywhere. */
  lemma {:induction false} FeedConcat(p: Parser, s: string, t: string)
    ensures Feed(p, s + t) == Feed(Feed(p, s), t)
    decreases |s|
  {
    if s == "" {
      assert s + t == t;
    } else {
      assert (s + t)[1..] == s[1..] + t;
      FeedConcat(Step(p, s[0]), s[1..], t);
    }
  }

  /** Reading more never takes a dispatched event back. */
  lemma {:induction false} FeedMonotone(p: Parser, s: string)
    ensures p.dispatched <= Feed(p, s).dispatched
    decreases |s|
  {
    if s != "" {
      FeedMonotone(Step(p, s[0]), s[1..]);
    }
  }

  /** Between two events: nothing buffered but the last event id and the reconnection time. */
  predicate AtRest(p: Parser) { p.line == "" && !p.skipLF && p.eventType == "" && p.data == "" }

  predicate OneLine(s: string) { CR !in s && LF !in s }

  lemma {:induction false} FeedPlain(p: Parser, s: string)
    requires OneLine(s) && !p.skipLF
    ensures Feed(p, s) == p.(line := p.line + s)
    decreases |s|
  {
    if s != "" {
      FeedPlain(Step(p, s[0]), s[1..]);
      assert p.line + [s[0]] + s[1..] == p.line + s;
    } else {
      assert p.line + s == p.line;
    }
  }

  lemma FeedLine(p: Parser, line: string, rest: string)
    requires OneLine(line) && p.line == "" && !p.skipLF
    ensures Feed(p, line + "\n" + rest) == Feed(ProcessLine(p, line), rest)
  {
    assert line + "\n" + rest == line + ("\n" + rest);
    FeedConcat(p, line, "\n" + rest);
    FeedPlain(p, line);
    assert ("\n" + rest)[1..] == rest;
    assert "" + line == line;
  }

  /** A data line adds its text verbatim: leading spaces and colons survive. */
  lemma DataLine(p: Parser, text: string)
    requires OneLine(text)
    ensures ProcessLine(p, "data: " + text) == p.(data := p.data + text + "\n")
  {
    var rest := " " + text;
    assert "data: " + text == "data" + [':'] + rest;
    CutAt("data", ':', rest);
    assert rest[1..] == text;
  }

  lemma EventLine(p: Parser, event: string)
    ensures ProcessLine(p, "event: " + event) == p.(eventType := event)
  {
    var rest := " " + event;
    assert "event: " + event == "event" + [':'] + rest;
    CutAt("event", ':', rest);
    assert rest[1..] == event;
  }

  function Terminated(lines: seq<string>): string
  {
    if lines == [] then "" else lines[0] + "\n" + Terminated(lines[1..])
  }

  lemma {:induction false} TerminatedJoin(lines: seq<string>)
    requires lines != []
    ensures Terminated(lines) == Join(lines, LF) + "\n"
  {
    if |lines| > 1 {
      TerminatedJoin(lines[1..]);
    }
  }

  lemma {:induction false} FeedDataLines(p: Parser, lines: seq<string>)
    requires forall i :: 0 <= i < |lines| ==> OneLine(lines[i])
    requires p.line == "" && !p.skipLF
    ensures Feed(p, DataLines(lines)) == p.(data := p.data + Terminated(lines))
    decreases |lines|
  {
    if lines == [] {
      assert p.data + "" == p.data;
    } else {
      var line := "data: " + lines[0];
      assert OneLine(line);
      FeedLine(p, line, DataLines(lines[1..]));
      DataLine(p, lines[0]);
      FeedDataLines(ProcessLine(p, line), lines[1..]);
      assert p.data + lines[0] + "\n" + Terminated(lines[1..]) == p.data + Terminated(lines);
    }
  }

  /** Everything of a frame but its last character only fills the buffers. */
  lemma FeedOpenFrame(p: Parser, event: string, data: string)
    requires AtRest(p) && OneLine(event)
    ensures Frame(event, data)[..|Frame(event, data)| - 1] + "\n" == Frame(event, data)
    ensures Feed(p, Frame(event, data)[..|Frame(event, data)| - 1])
            == p.(eventType := event, data := OnePass(data) + "\n")
  {
    var normalized := Normalize(data);
    var lines := Split(normalized, LF);
    var head := "event: " + event;
    var open := head + "\n" + DataLines(lines);
    assert open + "\n" == Frame(event, data) && |open| == |Frame(event, data)| - 1;
    assert Frame(event, data)[..|open|] == open;
    hide Feed, Step, ProcessLine, Frame, DataLines, Terminated, Normalize, OnePass, Split, Join;
    NormalizeIsOnePass(data);
    SplitJoin(normalized, LF);
    PartsFree(normalized, LF, CR);
    LinesFree(lines);
    FeedLine(p, head, DataLines(lines));
    EventLine(p, event);
    FeedDataLines(p.(eventType := event), lines);
    TerminatedJoin(lines);
    assert "" + Terminated(lines) == Terminated(lines);
  }

  lemma LinesFree(lines: seq<string>)
    requires forall i :: 0 <= i < |lines| ==> Free(lines[i], CR) && Free(lines[i], LF)
    ensures forall i :: 0 <= i < |lines| ==> OneLine(lines[i])
  {
  }

  lemma {:induction false} PartsFree(s: string, sep: char, c: char)
    requires Free(s, c)
    ensures forall i :: 0 <= i < |Split(s, sep)| ==> Free(Split(s, sep)[i], c)
  {
    if s != "" {
      PartsFree(s[1..], sep, c);
    }
  }

  /** A frame dispatches one event with the normalised payload, also when that is empty. */
  lemma FrameDispatches(p: Parser, event: string, data: string)
    requires AtRest(p) && OneLine(event)
    ensures Feed(p, Frame(event, data))
            == p.(dispatched := p.dispatched
                                + [Message(if event == "" then "message" else event, OnePass(data), p.idBuffer)])
  {
    FeedOpenFrame(p, event, data);
    var open := Frame(event, data)[..|Frame(event, data)| - 1];
    FeedConcat(p, open, "\n");
    var full := OnePass(data) + "\n";
    assert full[..|full| - 1] == OnePass(data);
    assert Feed(Feed(p, open), "\n") == Step(Feed(p, open), LF);
  }

  lemma LineKeepsSkip(p: Parser, line: string)
    ensures ProcessLine(p.(skipLF := true), line) == ProcessLine(p, line).(skipLF := true)
    ensures ProcessLine(p, line).skipLF == p.skipLF
  {
  }

  /** A CR ends a line as an LF does, and only has a following LF skipped. */
  lemma LineEnds(p: Parser)
    requires !p.skipLF
    ensures !Step(p, LF).skipLF
    ensures Step(p, CR) == Step(p, LF).(skipLF := true) && Step(Step(p, CR), LF) == Step(p, LF)
  {
    LineKeepsSkip(p.(line := "", skipLF := false), p.line);
    hide ProcessLine;
  }

  lemma SkipsOnlyLF(p: Parser, c: char)
    requires c != LF
    ensures Step(p.(skipLF := true), c) == Step(p, c)
  {
    hide ProcessLine;
  }

  /** Normalising its line ends changes nothing about how the parser reads a text. */
  lemma {:induction false} NormalizedReadsAlike(p: Parser, s: string)
    requires !p.skipLF
    ensures Feed(p, OnePass(s)) == Feed(p, s).(skipLF := false)
    decreases |s|
  {
    hide Step;
    if s == "" {
    } else if s[0] == CR {
      var q := Step(p, LF);
      LineEnds(p);
      var rest := if |s| > 1 && s[1] == LF then s[2..] else s[1..];
      assert ("\n" + OnePass(rest))[1..] == OnePass(rest);
      NormalizedReadsAlike(q, rest);
      if |s| > 1 && s[1] == LF {
        assert s[1..][1..] == rest;
      } else if |s| > 1 {
        SkipsOnlyLF(q, s[1]);
      }
    } else {
      NoSkipAfter(p, s[0]);
      assert ([s[0]] + OnePass(s[1..]))[1..] == OnePass(s[1..]);
      NormalizedReadsAlike(Step(p, s[0]), s[1..]);
    }
  }

  lemma NoSkipAfter(p: Parser, c: char)
    requires c != CR && !p.skipLF
    ensures !Step(p, c).skipLF
  {
    if c == LF { LineEnds(p); }
    hide ProcessLine;
  }

  predicate IsComment(text: string)
  {
    && |text| > 2 && text[0] == ':' && OneLine(text[..|text| - 2])
    && text[|text| - 2] == LF && text[|text| - 1] == LF
  }

  lemma CommentDispatchesNothing(p: Parser, text: string)
    requires AtRest(p) && IsComment(text)
    ensures Feed(p, text) == p
  {
    var comment, end := text[..|text| - 2], "\n";
    assert text == comment + "\n" + end;
    FeedLine(p, comment, end);
    assert Feed(p, end) == Step(p, LF);
  }

  /** The keep-alive of `runStream` is a comment, so it dispatches nothing. */
  lemma HeartbeatIsComment(c: Chunk)
    requires c.Heartbeat?
    ensures IsComment(ChunkText(c))
  {
  }

  /** The events one chunk stands for. */
  function Heard(c: Chunk, id: string): seq<Message>
  {
    if c.Snapshot? then [Message(SNAPSHOT, OnePass(c.html), id)] else []
  }

  /** The events a sequence of chunks stands for. */
  function Messages(chunks: seq<Chunk>, id: string): seq<Message>
  {
    if chunks == [] then [] else Heard(chunks[0], id) + Messages(chunks[1..], id)
  }

  lemma OneMessage(c: Chunk, id: string)
    ensures Messages([c], id) == Heard(c, id)
  {
    assert [c][1..] == [];
    hide Heard;
  }

  lemma FeedChunk(p: Parser, c: Chunk)
    requires AtRest(p)
    ensures Feed(p, ChunkText(c)) == p.(dispatched := p.dispatched + Messages([c], p.idBuffer))
  {
    OneMessage(c, p.idBuffer);
    hide Messages, Feed, Step, ProcessLine, OnePass, Frame;
    match c
    case Snapshot(html) => FrameDispatches(p, SNAPSHOT, html);
    case Heartbeat =>
      HeartbeatIsComment(c);
      CommentDispatchesNothing(p, ChunkText(c));
  }

  lemma OpenChunkSilent(p: Parser, c: Chunk)
    requires AtRest(p)
    ensures |ChunkText(c)| > 0
    ensures Feed(p, ChunkText(c)[..|ChunkText(c)| - 1]).dispatched == p.dispatched
  {
    if c.Snapshot? {
      FeedOpenFrame(p, SNAPSHOT, c.html);
    } else {
      HeartbeatIsComment(c);
      OpenCommentSilent(p, ChunkText(c));
    }
  }

  lemma OpenCommentSilent(p: Parser, text: string)
    requires AtRest(p) && IsComment(text)
    ensures Feed(p, text[..|text| - 1]).dispatched == p.dispatched
  {
    var open, end := text[..|text| - 1], text[|text| - 1..];
    CommentDispatchesNothing(p, text);
    assert text == open + end;
    FeedConcat(p, open, end);
    FeedMonotone(p, open);
    FeedMonotone(Feed(p, open), end);
  }

  /** Any proper prefix of a chunk dispatches nothing: no partial snapshot is ever seen. */
  lemma PartialChunkSilent(p: Parser, c: Chunk, k: nat)
    requires AtRest(p) && k < |ChunkText(c)|
    ensures Feed(p, ChunkText(c)[..k]).dispatched == p.dispatched
  {
    var text := ChunkText(c);
    var open := text[..|text| - 1];
    assert open == text[..k] + text[k..|text| - 1];
    FeedConcat(p, text[..k], text[k..|text| - 1]);
    FeedMonotone(p, text[..k]);
    FeedMonotone(Feed(p, text[..k]), text[k..|text| - 1]);
    OpenChunkSilent(p, c);
  }

  /** How many chunks lie completely within the first `k` characters of the output. */
  function Complete(chunks: seq<Chunk>, k: nat): (n: nat)
    ensures n <= |chunks|
  {
    if chunks == [] || k < |ChunkText(chunks[0])| then 0
    else 1 + Complete(chunks[1..], k - |ChunkText(chunks[0])|)
  }

  /** Cut the output anywhere: exactly the snapshots that were written in full are dispatched. */
  lemma {:induction false} CutStream(p: Parser, chunks: seq<Chunk>, k: nat)
    requires AtRest(p) && k <= |Output(chunks)|
    ensures Feed(p, Output(chunks)[..k]).dispatched
            == p.dispatched + Messages(chunks[..Complete(chunks, k)], p.idBuffer)
    decreases |chunks|
  {
    hide Step, ProcessLine, Frame, ChunkText, Feed, Output, Messages;
    if chunks == [] {
      NothingCut(p, k);
    } else {
      var c, rest := chunks[0], chunks[1..];
      assert chunks == [c] + rest;
      CutOutput(c, rest, k);
      if k < |ChunkText(c)| {
        PartialChunkSilent(p, c, k);
        NoMessages(chunks[..0], p.idBuffer);
      } else {
        var j := k - |ChunkText(c)|;
        var q := p.(dispatched := p.dispatched + Messages([c], p.idBuffer));
        FeedConcat(p, ChunkText(c), Output(rest)[..j]);
        FeedChunk(p, c);
        CutStream(q, rest, j);
        OneMore(p, c, rest, Complete(rest, j));
      }
    }
  }

  lemma NothingCut(p: Parser, k: nat)
    requires k <= |Output([])|
    ensures Feed(p, Output([])[..k]) == p
    ensures Messages([], p.idBuffer) == []
  {
  }

  lemma NoMessages(chunks: seq<Chunk>, id: string)
    requires chunks == []
    ensures Messages(chunks, id) == []
  {
  }

  lemma OneMore(p: Parser, c: Chunk, rest: seq<Chunk>, n: nat)
    requires n <= |rest|
    ensures p.dispatched + Messages([c], p.idBuffer) + Messages(rest[..n], p.idBuffer)
            == p.dispatched + Messages(([c] + rest)[..n + 1], p.idBuffer)
  {
    assert ([c] + rest)[..n + 1] == [c] + rest[..n];
    MessagesAppend([c], rest[..n], p.idBuffer);
    hide Messages;
  }

  lemma CutOutput(c: Chunk, rest: seq<Chunk>, k: nat)
    requires k <= |Output([c] + rest)|
    ensures Output([c] + rest) == ChunkText(c) + Output(rest)
    ensures Output([c] + rest)[..k] == if k < |ChunkText(c)| then ChunkText(c)[..k]
                                       else ChunkText(c) + Output(rest)[..k - |ChunkText(c)|]
  {
  }

  /** The output never starts with a byte order mark, so none is taken off. */
  lemma NoByteOrderMark(chunks: seq<Chunk>, k: nat)
    requires k <= |Output(chunks)|
    ensures Dispatched(Output(chunks)[..k]) == Feed(INITIAL, Output(chunks)[..k]).dispatched
  {
  }

  lemma {:induction false} CompleteAll(chunks: seq<Chunk>)
    ensures Complete(chunks, |Output(chunks)|) == |chunks|
  {
    if chunks != [] {
      CompleteAll(chunks[1..]);
    }
  }

  /** The whole stream, for any interleaving of snapshots and heartbeats. */
  lemma StreamRoundTrip(chunks: seq<Chunk>)
    ensures Dispatched(Output(chunks)) == Messages(chunks, "")
  {
    TruncatedStream(chunks, |Output(chunks)|);
    CompleteAll(chunks);
    assert Output(chunks)[..|Output(chunks)|] == Output(chunks);
    assert chunks[..|chunks|] == chunks;
  }

  /** A stream whose connection broke after `k` characters. */
  lemma TruncatedStream(chunks: seq<Chunk>, k: nat)
    requires k <= |Output(chunks)|
    ensures Dispatched(Output(chunks)[..k]) == Messages(chunks[..Complete(chunks, k)], "")
    ensures Dispatched(Output(chunks)[..k]) <= Messages(chunks, "")
  {
    var n := Complete(chunks, k);
    var all, sent := Messages(chunks, ""), Messages(chunks[..n], "");
    assert Dispatched(Output(chunks)[..k]) == sent by {
      NoByteOrderMark(chunks, k);
      CutStream(INITIAL, chunks, k);
    }
    assert sent <= all by {
      assert chunks == chunks[..n] + chunks[n..];
      MessagesAppend(chunks[..n], chunks[n..], "");
    }
  }

  lemma MessagesCons(c: Chunk, rest: seq<Chunk>, id: string)
    ensures Messages([c] + rest, id) == Heard(c, id) + Messages(rest, id)
  {
    assert ([c] + rest)[1..] == rest;
    hide Heard;
  }

  lemma {:induction false} MessagesAppend(a: seq<Chunk>, b: seq<Chunk>, id: string)
    ensures Messages(a + b, id) == Messages(a, id) + Messages(b, id)
  {
    hide Heard, Messages;
    if a == [] {
      NoMessages(a, id);
      assert a + b == b;
    } else {
      var c, rest := a[0], a[1..];
      MessagesAppend(rest, b, id);
      MessagesCons(c, rest, id);
      MessagesCons(c, rest + b, id);
      assert a == [c] + rest && a + b == [c] + (rest + b);
    }
  }

  lemma FirstSeen(html: string, rest: seq<Chunk>, n: nat)
    requires n <= 1 + |rest|
    ensures var seen := Messages(([Snapshot(html)] + rest)[..n], "");
            if n == 0 then seen == [] else seen != [] && seen[0] == Message("snapshot", OnePass(html), "")
  {
    hide OnePass;
    if n > 0 {
      assert ([Snapshot(html)] + rest)[..n] == [Snapshot(html)] + rest[..n - 1];
      MessagesCons(Snapshot(html), rest[..n - 1], "");
    }
  }

  /**
   End to end: whatever the renders, the order of wake-ups and heartbeats and the point at
   which the connection breaks, the browser sees the snapshots that were written in full,
   in order, from the initial one on, and nothing else. The first shows the panels one after
   the other, as a "snapshot" event, once its last character has arrived.
   */
  method StreamSeen(left: nat, flusher: bool, subscribed: bool, initial: Render, script: seq<Choice>)
    returns (seen: seq<Message>)
    ensures flusher && subscribed && initial.ok ==>
              var chunks := [Snapshot(Html(initial))] + Chunks(script);
              var k := if left < |Output(chunks)| then left else |Output(chunks)|;
              seen == Messages(chunks[..Complete(chunks, k)], "")
    ensures flusher && subscribed && initial.ok && |initial.pieces| == 3 ==>
              var html := initial.pieces[0] + initial.pieces[1] + initial.pieces[2];
              && (seen != [] ==> seen[0] == Message("snapshot", OnePass(html), ""))
              && (left >= |Frame("snapshot", html)| ==> seen != [])
    ensures !(flusher && subscribed && initial.ok) ==> seen == []
  {
    var w := new Writer(Bounded("", left));
    var r := Stream(w, flusher, subscribed, initial, script);
    if r.EventStream? {
      var chunks := [Snapshot(Html(initial))] + Chunks(script);
      var k := if left < |Output(chunks)| then left else |Output(chunks)|;
      assert w.sink.out == Output(chunks)[..k];
      TruncatedStream(chunks, k);
      FirstSeen(Html(initial), Chunks(script), Complete(chunks, k));
      if |initial.pieces| == 3 {
        ConcatThree(initial.pieces);
      }
    }
    seen := Dispatched(w.sink.out);
  }
}
