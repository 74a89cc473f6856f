/**
 When the reader of the forwarding headers and the standards agree, for every list of
 elements printed after section 4 of RFC 7239, quoted separators and escapes included.
 */
module HeaderAgreement {
  import opened Text
  import opened Forwarded
  import opened TornValues

  // A cut and a split go through a joined list part by part.

  lemma SomePartConcat(a: seq<string>, b: seq<string>)
    ensures SomePart(a + b) <==> SomePart(a) || SomePart(b)
  {
    hide PartIsHTTPS;
    if SomePart(a) {
      var i :| 0 <= i < |a| && PartIsHTTPS(a[i]);
      assert PartIsHTTPS((a + b)[i]);
    } else if SomePart(b) {
      var i :| 0 <= i < |b| && PartIsHTTPS(b[i]);
      assert PartIsHTTPS((a + b)[|a| + i]);
    }
  }

  /** Some part is read as https, and no part before it holds a comma. */
  ghost predicate SomeReached(parts: seq<string>)
  {
    parts != [] && (ReadsHTTPS(parts[0]) || (Free(parts[0], ',') && SomeReached(parts[1..])))
  }

  lemma {:induction false} JoinedReads(parts: seq<string>)
    requires parts != []
    ensures ReadsHTTPS(Join(parts, ';')) <==> SomeReached(parts)
  {
    hide PartIsHTTPS, Split, Cut, SomePart;
    var part, rest := parts[0], Join(parts[1..], ';');
    if |parts| > 1 {
      assert Join(parts, ';') == part + ([';'] + rest);
      if Free(part, ',') {
        CutLate(part + [';'], ',', rest);
        assert part + [';'] + rest == part + ([';'] + rest);
        CutFree(part, ',');
        SplitConcat(part, ';', Cut(rest, ',').0);
        SomePartConcat(Split(part, ';'), Split(Cut(rest, ',').0, ';'));
        JoinedReads(parts[1..]);
      } else {
        CutEarly(part, ',', [';'] + rest);
      }
    }
  }

  // Trimming a whole element touches only the outer ends of its first and last parameter,
  // which are trimmed anyway.

  lemma {:induction false} TrimSnoc(s: string, c: char, cut: char -> bool)
    requires cut(c)
    ensures Trim(s + [c], cut) == Trim(s, cut)
  {
    if s == "" {
      assert s + [c] == [c];
      assert [c][1..] == "";
    } else if cut(s[0]) {
      assert (s + [c])[1..] == s[1..] + [c];
      TrimSnoc(s[1..], c, cut);
    } else {
      assert (s + [c])[..|s|] == s;
    }
  }

  lemma PartTrimmed(part: string, c: char)
    requires B.IsSpace(c)
    ensures PartIsHTTPS([c] + part) == PartIsHTTPS(part)
    ensures PartIsHTTPS(part + [c]) == PartIsHTTPS(part)
  {
    assert ([c] + part)[1..] == part;
    TrimSnoc(part, c, B.IsSpace);
  }

  lemma SomePartChange(a: seq<string>, b: seq<string>)
    requires |a| == |b| && forall i :: 0 <= i < |a| ==> PartIsHTTPS(a[i]) == PartIsHTTPS(b[i])
    ensures SomePart(a) == SomePart(b)
  {
  }

  lemma SpaceBefore(c: char, s: string)
    requires B.IsSpace(c)
    ensures SomePart(Split([c] + s, ';')) == SomePart(Split(s, ';'))
  {
    hide PartIsHTTPS, Split;
    var rest := Split(s, ';');
    SplitOne(c, s, ';');
    PartTrimmed(rest[0], c);
    hide B.IsSpace;
    SomePartChange([[c] + rest[0]] + rest[1..], rest);
  }

  lemma SpaceAfter(s: string, c: char)
    requires B.IsSpace(c)
    ensures SomePart(Split(s + [c], ';')) == SomePart(Split(s, ';'))
  {
    hide PartIsHTTPS, Split;
    var parts := Split(s, ';');
    SplitSnoc(s, ';', c);
    PartTrimmed(parts[|parts| - 1], c);
    hide B.IsSpace;
    SomePartChange(parts[..|parts| - 1] + [parts[|parts| - 1] + [c]], parts);
  }

  lemma {:induction false} TrimLeftParts(s: string)
    ensures SomePart(Split(TrimLeft(s, B.IsSpace), ';')) == SomePart(Split(s, ';'))
    decreases |s|
  {
    hide Split, SomePart, B.IsSpace;
    if s != "" && B.IsSpace(s[0]) {
      TrimLeftParts(s[1..]);
      SpaceBefore(s[0], s[1..]);
      assert [s[0]] + s[1..] == s;
    }
  }

  lemma {:induction false} TrimRightParts(s: string)
    ensures SomePart(Split(TrimRight(s, B.IsSpace), ';')) == SomePart(Split(s, ';'))
    decreases |s|
  {
    hide Split, SomePart, B.IsSpace;
    if s != "" && B.IsSpace(s[|s| - 1]) {
      var init, c := s[..|s| - 1], s[|s| - 1];
      TrimRightParts(init);
      SpaceAfter(init, c);
      assert init + [c] == s;
    }
  }

  /** Outer white space makes no difference to the reader. */
  lemma TrimmedReads(value: string)
    ensures ProtoIsHTTPS(value) <==> ReadsHTTPS(value)
  {
    var text := Cut(value, ',').0;
    TrimLeftParts(text);
    TrimRightParts(TrimLeft(text, B.IsSpace));
  }

  lemma FirstPart(parts: seq<string>)
    requires parts != []
    ensures Cut(Join(parts, ','), ',').0 == Cut(parts[0], ',').0
  {
    if |parts| > 1 {
      var rest := Join(parts[1..], ',');
      assert Join(parts, ',') == parts[0] + [','] + rest == parts[0] + ([','] + rest);
      if Free(parts[0], ',') {
        CutAt(parts[0], ',', rest);
        CutFree(parts[0], ',');
      } else {
        CutEarly(parts[0], ',', [','] + rest);
      }
    }
  }

  predicate AllOk(slots: seq<Slot>) { forall j :: 0 <= j < |slots| ==> SlotOk(slots[j]) }

  /** A declaration of https that stands before any quoted comma and has no escapes. */
  predicate Seen(slots: seq<Slot>)
  {
    exists j :: 0 <= j < |slots| && Reached(slots, j) && SaysHTTPS(slots[j]) && !Escaped(slots[j])
  }

  /** A quoted value before or at the first quoted comma that comes apart into what looks like one. */
  ghost predicate Faked(slots: seq<Slot>)
  {
    exists j :: 0 <= j < |slots| && Reached(slots, j) && Misread(slots[j])
  }

  lemma ReachedNext(slots: seq<Slot>, j: nat)
    requires slots != [] && j < |slots| - 1
    ensures Reached(slots, j + 1) <==> !HasComma(slots[0]) && Reached(slots[1..], j)
  {
    var rest := slots[1..];
    if !HasComma(slots[0]) && Reached(rest, j) {
      forall i | 0 <= i < j + 1 ensures !HasComma(slots[i]) {
        assert i > 0 ==> slots[i] == rest[i - 1];
      }
    } else if Reached(slots, j + 1) {
      forall i | 0 <= i < j ensures !HasComma(rest[i]) {
        assert rest[i] == slots[i + 1];
      }
    }
  }

  /** The first parameter, or one of the rest if no comma comes first. */
  lemma SeenNext(slots: seq<Slot>)
    requires slots != []
    ensures Seen(slots) <==> (SaysHTTPS(slots[0]) && !Escaped(slots[0])) || (!HasComma(slots[0]) && Seen(slots[1..]))
    ensures Faked(slots) <==> Misread(slots[0]) || (!HasComma(slots[0]) && Faked(slots[1..]))
  {
    hide SaysHTTPS, Escaped, Misread, Reached, HasComma;
    var rest := slots[1..];
    ReachedFirst(slots);
    forall j: nat | j < |rest|
      ensures slots[j + 1] == rest[j] && (Reached(slots, j + 1) <==> !HasComma(slots[0]) && Reached(rest, j))
    {
      ReachedNext(slots, j);
    }
    assert forall j :: 0 < j < |slots| ==> slots[j] == rest[j - 1];
  }

  lemma ReachedFirst(slots: seq<Slot>)
    requires slots != []
    ensures Reached(slots, 0)
  {
  }

  lemma {:induction false} SlotsReached(slots: seq<Slot>)
    requires AllOk(slots)
    ensures SomeReached(PrintSlots(slots)) <==> Seen(slots) || Faked(slots)
  {
    hide SlotOk, ReadsHTTPS, SaysHTTPS, Escaped, PrintSlot, Misread, Reached;
    if slots != [] {
      assert PrintSlots(slots)[1..] == PrintSlots(slots[1..]);
      SlotReads(slots[0]);
      SlotFree(slots[0], ',');
      SlotsReached(slots[1..]);
      SeenNext(slots);
      hide Seen, Faked;
    }
  }

  /**
   What the reader makes of any printed list. Only the first element matters, and in it a
   declaration that can be seen or one that is faked.
   */
  lemma ForwardedReading(elements: seq<seq<Slot>>)
    requires AllOk(First(elements))
    ensures ProtoIsHTTPS(PrintForwarded(elements)) <==> Seen(First(elements)) || Faked(First(elements))
  {
    hide SlotOk, SaysHTTPS, Escaped, PrintSlot, Misread, Reached;
    var first := First(elements);
    var printed, parts := PrintElements(elements), PrintSlots(first);
    TrimmedReads(PrintForwarded(elements));
    assert ReadsHTTPS(PrintForwarded(elements)) == ReadsHTTPS(PrintElement(first)) by {
      if elements != [] {
        FirstPart(printed);
      }
    }
    SlotsReached(first);
    if first == [] {
      EmptyReads();
    } else {
      JoinedReads(parts);
    }
  }

  lemma EmptyReads()
    ensures !ReadsHTTPS("")
  {
    SlotReads(Empty(""));
  }

  /** Every declaration of https stands after a quoted comma or has an escape in it. */
  predicate Hidden(slots: seq<Slot>)
  {
    forall j :: 0 <= j < |slots| && SaysHTTPS(slots[j]) ==>
      Escaped(slots[j]) || exists i :: 0 <= i < j && HasComma(slots[i])
  }

  /**
   The reader and RFC 7239 disagree in two ways only: what is declared is hidden and nothing
   fakes it, or something fakes what is not declared.
   */
  lemma ForwardedAgreement(elements: seq<seq<Slot>>)
    requires AllOk(First(elements))
    ensures var first, https := First(elements), ProtoIsHTTPS(PrintForwarded(elements));
            && (!https && Declares(first) <==> Declares(first) && Hidden(first) && !Faked(first))
            && (https && !Declares(first) <==> !Declares(first) && Faked(first))
  {
    hide SlotOk, ProtoIsHTTPS, PrintForwarded, Misread, Escaped, SaysHTTPS, HasComma;
    ForwardedReading(elements);
  }

  /** No quoted value holds an escape, a comma or a semicolon. */
  predicate Plain(slots: seq<Slot>)
  {
    forall j :: 0 <= j < |slots| ==> SlotOk(slots[j]) && !Escaped(slots[j]) && !Separated(slots[j])
  }

  /** With a plain first element, and anything after it, the reader says what the RFC does. */
  lemma PlainAgreement(elements: seq<seq<Slot>>)
    requires Plain(First(elements))
    ensures ProtoIsHTTPS(PrintForwarded(elements)) <==> Declares(First(elements))
  {
    hide SlotOk, ProtoIsHTTPS, PrintForwarded, SaysHTTPS, Escaped;
    ForwardedReading(elements);
    var first := First(elements);
    assert forall j: nat :: j < |first| ==> Reached(first, j);
  }

  // ---- Headers on which they disagree --------------------------------------------------

  function Quoted(name: string, value: string): Slot { Pair("", name, "", "", value, true, "") }

  const PLAIN_HTTPS := Pair("", "proto", "", "", "https", false, "")

  lemma PlainSays()
    ensures SlotOk(PLAIN_HTTPS) && SaysHTTPS(PLAIN_HTTPS) && !Escaped(PLAIN_HTTPS) && !Separated(PLAIN_HTTPS)
    ensures PrintSlot(PLAIN_HTTPS) == "proto=https"
  {
  }

  lemma {:induction false} PlainText(s: string)
    requires forall i :: 0 <= i < |s| ==> IsText(s[i]) && s[i] != '"' && s[i] != '\\'
    ensures IsQuotedText(s) && Unescape(s) == s
  {
    if s != "" {
      PlainText(s[1..]);
      assert s == [s[0]] + s[1..];
    }
  }

  /** A quoted parameter, printed and judged. */
  lemma QuotedOk(name: string, value: string)
    requires IsToken(name) && IsQuotedText(value)
    ensures SlotOk(Quoted(name, value))
    ensures PrintSlot(Quoted(name, value)) == name + "=\"" + value + "\""
    ensures SaysHTTPS(Quoted(name, value)) <==> Lower(name) == "proto" && Lower(Unescape(value)) == "https"
  {
    hide IsToken, IsQuotedText, Unescape, Lower;
    assert "" + (name + "" + "=" + ("" + ("\"" + value + "\""))) + "" == name + "=\"" + value + "\"";
  }

  lemma PrintOne(slot: Slot)
    ensures PrintForwarded([[slot]]) == PrintSlot(slot)
  {
    hide PrintSlot;
    assert PrintSlots([slot]) == [PrintSlot(slot)];
    assert PrintElements([[slot]]) == [PrintElement([slot])];
  }

  lemma PrintTwo(a: Slot, b: Slot)
    ensures PrintForwarded([[a, b]]) == PrintSlot(a) + [';'] + PrintSlot(b)
  {
    hide PrintSlot;
    assert PrintSlots([a, b]) == [PrintSlot(a), PrintSlot(b)];
    assert [PrintSlot(a), PrintSlot(b)][1..] == [PrintSlot(b)];
    assert Join([PrintSlot(b)], ';') == PrintSlot(b);
    assert PrintElements([[a, b]]) == [PrintElement([a, b])];
  }

  lemma NotProto(name: string)
    requires |name| != 5
    ensures Lower(name) != "proto"
  {
  }

  /** A quoted comma hides the declaration after it. */
  lemma CommaHides()
    ensures var first := [Quoted("for", "a,b"), PLAIN_HTTPS];
            && AllOk(first) && Declares(first)
            && PrintForwarded([first]) == "for=\"a,b\";proto=https"
            && !ProtoIsHTTPS(PrintForwarded([first]))
  {
    hide SlotOk, PrintSlot, SaysHTTPS, Misread, Escaped, HasComma, ProtoIsHTTPS, PrintForwarded, Quoted, PLAIN_HTTPS;
    var address := Quoted("for", "a,b");
    var first := [address, PLAIN_HTTPS];
    CommaSlot();
    PlainSays();
    assert first[0] == address && first[1] == PLAIN_HTTPS;
    assert !Reached(first, 1);
    PrintTwo(address, PLAIN_HTTPS);
    ForwardedReading([first]);
  }

  lemma CommaSlot()
    ensures var address := Quoted("for", "a,b");
            && SlotOk(address) && HasComma(address) && !SaysHTTPS(address) && !Misread(address)
            && PrintSlot(address) + [';'] + "proto=https" == "for=\"a,b\";proto=https"
  {
    hide IsQuotedText, Unescape, Split, Cut, Lower, SlotOk, PrintSlot, SaysHTTPS, IsToken;
    PlainText("a,b");
    ForIsToken();
    QuotedOk("for", "a,b");
    NotProto("for");
    assert "a,b" == "a" + [','] + "b" && "a,b"[1] == ',';
    CutAt("a", ',', "b");
    SplitFree("a", ';');
  }

  /** A quoted semicolon can fake a declaration. */
  lemma SemicolonFakes()
    ensures var first := [Quoted("for", "a;proto=https")];
            && AllOk(first) && !Declares(first)
            && PrintForwarded([first]) == "for=\"a;proto=https\""
            && ProtoIsHTTPS(PrintForwarded([first]))
  {
    hide SlotOk, PrintSlot, SaysHTTPS, Misread, Escaped, HasComma, ProtoIsHTTPS, PrintForwarded, Quoted;
    var address := Quoted("for", "a;proto=https");
    FakingSlot();
    PrintOne(address);
    assert Reached([address], 0) && [address][0] == address;
    ForwardedReading([[address]]);
    assert Faked([address]);
  }

  lemma FakingSlot()
    ensures var address := Quoted("for", "a;proto=https");
            && SlotOk(address) && !SaysHTTPS(address) && Misread(address)
            && PrintSlot(address) == "for=\"a;proto=https\""
  {
    hide IsQuotedText, Unescape, Lower, SlotOk, PrintSlot, SaysHTTPS, PLAIN_HTTPS, Misread, IsToken;
    FakingText();
    ForIsToken();
    QuotedOk("for", "a;proto=https");
    NotProto("for");
    PlainSays();
    PlainUnquoted();
    TornOff("for", "a", PLAIN_HTTPS);
  }

  lemma FakingText()
    ensures IsQuotedText("a;proto=https") && "a" + [';'] + "proto=https" == "a;proto=https"
  {
    hide IsQuotedText;
    PlainText("a;proto=https");
  }

  lemma ForIsToken()
    ensures IsToken("for")
  {
  }

  lemma PlainUnquoted()
    ensures PLAIN_HTTPS.Pair? && !PLAIN_HTTPS.quoted && PLAIN_HTTPS.after == ""
  {
  }

  /** Whatever parameter it is in: an unquoted declaration after a quoted semicolon fakes https. */
  lemma TornOff(name: string, head: string, p: Slot)
    requires SlotOk(p) && SaysHTTPS(p) && !p.quoted && p.after == "" && Free(head, ';') && Free(head, ',')
    ensures Misread(Quoted(name, head + [';'] + PrintSlot(p)))
  {
    var text := PrintSlot(p);
    var value := head + [';'] + text;
    TokenUnseparated(p);
    SlotFree(p, ',');
    SlotFree(p, ';');
    IsDeclared(p, true);
    hide SlotOk, PrintSlot, Split, Cut, SaysHTTPS, LooksDeclared, Misread;
    assert value[|head|] == ';';
    assert Free(value, ',');
    CutFree(value, ',');
    SplitAt(head, ';', text);
    SplitFree(text, ';');
    assert Pieces(value) == [head, text];
    hide Pieces;
    SecondDeclares(Quoted(name, value));
  }

  lemma SecondDeclares(slot: Slot)
    requires Separated(slot) && !HasComma(slot)
    requires |Pieces(slot.value)| == 2 && LooksDeclared(Pieces(slot.value)[1], true)
    ensures Misread(slot)
  {
    hide Pieces, LooksDeclared, FirstDeclares;
    assert LaterDeclares(Pieces(slot.value), 1, false);
  }

  lemma TokenUnseparated(p: Slot)
    requires SlotOk(p) && p.Pair? && !p.quoted
    ensures ',' !in p.value && ';' !in p.value
  {
  }

  /** An escape hides the value it stands in. */
  lemma EscapeHides()
    ensures var first := [Quoted("proto", "\\https")];
            && AllOk(first) && Declares(first)
            && PrintForwarded([first]) == "proto=\"\\https\""
            && !ProtoIsHTTPS(PrintForwarded([first]))
  {
    hide SlotOk, PrintSlot, SaysHTTPS, Misread, Escaped, HasComma, ProtoIsHTTPS, PrintForwarded, Quoted;
    var proto := Quoted("proto", "\\https");
    EscapedSlot();
    assert [proto][0] == proto;
    PrintOne(proto);
    ForwardedReading([[proto]]);
  }

  lemma EscapedSlot()
    ensures var proto := Quoted("proto", "\\https");
            && SlotOk(proto) && SaysHTTPS(proto) && Escaped(proto) && !Misread(proto)
            && PrintSlot(proto) == "proto=\"\\https\""
  {
    hide IsQuotedText, Unescape, SlotOk, PrintSlot, SaysHTTPS, Lower, IsToken, Misread, Separated, Escaped;
    PlainText("ttps");
    EscapeOne('h', "ttps");
    assert ['\\', 'h'] + "ttps" == "\\https" && ['h'] + "ttps" == "https";
    ProtoIsToken();
    QuotedOk("proto", "\\https");
    LowerWords();
    EscapedApart("\\https");
  }

  lemma EscapedApart(value: string)
    requires value == "\\https"
    ensures Escaped(Quoted("proto", value)) && !Misread(Quoted("proto", value))
  {
    hide Pieces, FirstDeclares, LaterDeclares;
    assert value[0] == '\\';
  }

  lemma ProtoIsToken()
    ensures IsToken("proto")
  {
  }

  lemma LowerWords()
    ensures Lower("proto") == "proto" && Lower("https") == "https"
  {
  }

  lemma EscapeOne(c: char, s: string)
    requires IsText(c) && IsQuotedText(s)
    ensures IsQuotedText(['\\', c] + s) && Unescape(['\\', c] + s) == [c] + Unescape(s)
  {
    assert (['\\', c] + s)[2..] == s;
  }

  // ---- Both headers --------------------------------------------------------------------

  /** An `X-Forwarded-Proto` entry with the whitespace around it. */
  datatype Entry = Entry(before: string, proto: string, after: string)

  predicate EntryOk(entry: Entry) { IsSpacing(entry.before) && IsToken(entry.proto) && IsSpacing(entry.after) }

  function PrintEntries(entries: seq<Entry>): seq<string>
  {
    seq(|entries|, i requires 0 <= i < |entries| => entries[i].before + entries[i].proto + entries[i].after)
  }

  lemma EntryFree(entry: Entry)
    requires EntryOk(entry)
    ensures Free(entry.before + entry.proto + entry.after, ',') && Trimmed(entry.proto, B.IsSpace)
    ensures forall i :: 0 <= i < |entry.proto| ==> entry.proto[i] <= '~'
    ensures forall i :: 0 <= i < |entry.before| ==> B.IsSpace(entry.before[i])
    ensures forall i :: 0 <= i < |entry.after| ==> B.IsSpace(entry.after[i])
  {
    FreeMiddle(entry.before, entry.proto, entry.after, ',');
  }

  /** Of the protocols that proxies appended, only the first, the client's own, decides. */
  lemma FirstProtoDecides(entries: seq<Entry>)
    requires entries != [] ==> EntryOk(entries[0])
    ensures EqualFold(FirstForwardedValue(Join(PrintEntries(entries), ',')), "https") <==>
              entries != [] && Lower(entries[0].proto) == "https"
  {
    if entries != [] {
      var entry := entries[0];
      FirstPart(PrintEntries(entries));
      hide Cut, Trim, Join, EqualFold, Lower;
      EntryFree(entry);
      CutFree(entry.before + entry.proto + entry.after, ',');
      TrimPadded(entry.before, entry.proto, entry.after, B.IsSpace);
      FoldIsLower(entry.proto, "https");
    }
  }

  /**
   What the request is taken for, on headers as proxies print them: https exactly if the
   connection is TLS, the first `X-Forwarded-Proto` entry is https, or the first `Forwarded`
   element has a `proto` of https, whatever later proxies append to either header.
   */
  lemma HeadersAgreement(tls: bool, entries: seq<Entry>, elements: seq<seq<Slot>>)
    requires entries != [] ==> EntryOk(entries[0])
    requires Plain(First(elements))
    ensures Secure(tls, Join(PrintEntries(entries), ','), PrintForwarded(elements)) <==>
              || tls
              || (entries != [] && Lower(entries[0].proto) == "https")
              || (elements != [] && exists j :: 0 <= j < |elements[0]| && SaysHTTPS(elements[0][j]))
  {
    FirstProtoDecides(entries);
    PlainAgreement(elements);
  }
}
