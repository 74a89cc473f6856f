/**
 What the reader of `Forwarded` makes of a quoted value that holds one of its separators. It
 looks for commas and semicolons without regard to the quotes, so it sees the value in pieces.
 */
module TornValues {
  import opened Text
  import opened Forwarded

  /** The text is how an unquoted declaration of https is printed; `closed`: with no space after it. */
  ghost predicate LooksDeclared(text: string, closed: bool)
  {
    exists p: Slot :: SlotOk(p) && SaysHTTPS(p) && !p.quoted && (closed ==> p.after == "") && text == PrintSlot(p)
  }

  /** What the reader gets to see of a value: the pieces before the first comma. */
  function Pieces(value: string): seq<string> { Split(Cut(value, ',').0, ';') }

  /**
   A torn value is taken for https if it starts with `https` under the name `proto`, or if a
   later piece looks like a declaration of its own. Space before the closing quote spoils that.
   */
  ghost predicate Misread(slot: Slot)
  {
    Separated(slot) &&
    var pieces := Pieces(slot.value);
    || FirstDeclares(slot.name, pieces[0])
    || exists i :: 1 <= i < |pieces| && LaterDeclares(pieces, i, HasComma(slot))
  }

  /** Space after the text, where the value was torn off, does not count. */
  predicate FirstDeclares(name: string, piece: string)
  {
    Lower(name) == "proto" && Lower(TrimRight(piece, IsOWS)) == "https"
  }

  /** The last piece ends at the closing quote, unless a comma comes first. */
  ghost predicate LaterDeclares(pieces: seq<string>, i: nat, comma: bool)
    requires i < |pieces|
  {
    LooksDeclared(pieces[i], i == |pieces| - 1 && !comma)
  }

  predicate AllText(s: string) { forall i :: 0 <= i < |s| ==> IsText(s[i]) }

  // ---- Quotes inside a value -----------------------------------------------------------

  /** ASCII text in which every quote follows a backslash; `escaped`: one stands before the text. */
  predicate Guarded(s: string, escaped: bool)
  {
    forall k: nat :: k < |s| ==> GuardedAt(s, k, escaped)
  }

  predicate GuardedAt(s: string, k: nat, escaped: bool)
    requires k < |s|
  {
    IsText(s[k]) && (s[k] == '"' ==> if k == 0 then escaped else s[k - 1] == '\\')
  }

  lemma {:induction false} QuotedGuarded(s: string)
    requires IsQuotedText(s)
    ensures Guarded(s, false)
  {
    if s != "" {
      var n := if s[0] == '\\' then 2 else 1;
      QuotedGuarded(s[n..]);
      forall k: nat | n <= k < |s| ensures GuardedAt(s, k, false) {
        assert GuardedAt(s[n..], k - n, false);
      }
    }
  }

  lemma {:induction false} CutPrefix(s: string, sep: char)
    ensures Cut(s, sep).0 <= s
  {
    if s != "" && s[0] != sep {
      CutPrefix(s[1..], sep);
      assert s == [s[0]] + s[1..];
    }
  }

  lemma GuardedTail(s: string, escaped: bool)
    requires s != "" && Guarded(s, escaped)
    ensures IsText(s[0]) && (s[0] == '"' ==> escaped) && Guarded(s[1..], s[0] == '\\')
  {
    assert GuardedAt(s, 0, escaped);
    var rest, after := s[1..], s[0] == '\\';
    forall k: nat | k < |rest| ensures GuardedAt(rest, k, after) {
      assert GuardedAt(s, k + 1, escaped);
    }
  }

  lemma GuardedCons(c: char, s: string, escaped: bool)
    requires IsText(c) && (c == '"' ==> escaped) && Guarded(s, c == '\\')
    ensures Guarded([c] + s, escaped)
  {
    forall k: nat | k < |[c] + s| ensures GuardedAt([c] + s, k, escaped) {
      if k > 0 {
        assert GuardedAt(s, k - 1, c == '\\');
      }
    }
  }

  lemma GuardedPrefix(r: string, s: string, escaped: bool)
    requires r <= s && Guarded(s, escaped)
    ensures Guarded(r, escaped) && AllText(r)
  {
    forall k: nat | k < |r| ensures GuardedAt(r, k, escaped) {
      assert GuardedAt(s, k, escaped);
    }
    forall i: nat | i < |r| ensures IsText(r[i]) {
      assert GuardedAt(r, i, escaped);
    }
  }

  lemma {:induction false} SplitGuarded(s: string, escaped: bool)
    requires Guarded(s, escaped)
    ensures var pieces := Split(s, ';');
            Guarded(pieces[0], escaped) && forall i :: 1 <= i < |pieces| ==> Guarded(pieces[i], false)
  {
    if s == "" {
      SplitFree(s, ';');
    } else {
      var c, rest := s[0], Split(s[1..], ';');
      GuardedTail(s, escaped);
      SplitGuarded(s[1..], c == '\\');
      SplitOne(c, s[1..], ';');
      assert [c] + s[1..] == s;
      if c == ';' {
        GuardedNothing(escaped);
      } else {
        GuardedCons(c, rest[0], escaped);
      }
      hide Guarded, Split;
    }
  }

  lemma GuardedNothing(escaped: bool)
    ensures Guarded("", escaped)
  {
  }

  lemma PiecesGuarded(value: string)
    requires IsQuotedText(value)
    ensures forall i :: 0 <= i < |Pieces(value)| ==> Guarded(Pieces(value)[i], false)
  {
    QuotedGuarded(value);
    CutPrefix(value, ',');
    GuardedPrefix(Cut(value, ',').0, value, false);
    SplitGuarded(Cut(value, ',').0, false);
  }

  /** A quote needs a backslash before it. */
  lemma NoQuote(s: string, x: string, v: string, y: string)
    requires s == x + v + y && Guarded(s, false) && '\\' !in v
    requires x != "" ==> x[|x| - 1] != '\\'
    ensures '"' !in v
  {
    forall k | 0 <= k < |v| ensures v[k] != '"' {
      assert GuardedAt(s, |x| + k, false) && s[|x| + k] == v[k];
      if k > 0 {
        assert s[|x| + k - 1] == v[k - 1];
      } else if x != "" {
        assert s[|x| - 1] == x[|x| - 1];
      }
    }
  }

  // ---- Padding -------------------------------------------------------------------------

  predicate AllSpace(s: string) { forall i :: 0 <= i < |s| ==> B.IsSpace(s[i]) }

  lemma {:induction false} TrimLeftRest(s: string, cut: char -> bool) returns (n: nat)
    ensures n <= |s| && TrimLeft(s, cut) == s[n..] && forall i :: 0 <= i < n ==> cut(s[i])
    decreases |s|
  {
    n := 0;
    if s != "" && cut(s[0]) {
      var m := TrimLeftRest(s[1..], cut);
      n := m + 1;
      assert s[1..][m..] == s[n..];
      assert forall i :: 1 <= i < n ==> s[i] == s[1..][i - 1];
    }
  }

  lemma {:induction false} TrimRightRest(s: string, cut: char -> bool) returns (n: nat)
    ensures n <= |s| && TrimRight(s, cut) == s[..n] && forall i :: n <= i < |s| ==> cut(s[i])
    decreases |s|
  {
    n := |s|;
    if s != "" && cut(s[n - 1]) {
      var init := s[..|s| - 1];
      n := TrimRightRest(init, cut);
      assert init[..n] == s[..n];
      assert forall i :: n <= i < |init| ==> s[i] == init[i];
    }
  }

  lemma Padding(s: string) returns (left: string, right: string)
    ensures s == left + B.TrimSpace(s) + right && AllSpace(left) && AllSpace(right)
  {
    var n := TrimLeftRest(s, B.IsSpace);
    var m := TrimRightRest(s[n..], B.IsSpace);
    left, right := s[..n], s[n..][m..];
    assert s[n..] == s[n..][..m] + right;
  }

  lemma {:induction false} CutJoin(s: string, sep: char)
    ensures Cut(s, sep).2 ==> s == Cut(s, sep).0 + [sep] + Cut(s, sep).1
  {
    if s != "" && s[0] != sep {
      CutJoin(s[1..], sep);
      assert s == [s[0]] + s[1..];
    }
  }

  /** In ASCII text the only white space is that which the grammar allows. */
  lemma AsciiSpacing(s: string)
    requires AllSpace(s) && forall i :: 0 <= i < |s| ==> IsText(s[i])
    ensures IsSpacing(s)
  {
  }

  // ---- One piece -----------------------------------------------------------------------

  /** Any text the reader takes for https is made like a parameter. */
  lemma Parse(text: string) returns (p: Slot)
    requires PartIsHTTPS(text)
    ensures p.Pair? && !p.quoted && text == PrintSlot(p)
    ensures AllSpace(p.before) && AllSpace(p.left) && AllSpace(p.right) && AllSpace(p.after)
    ensures EqualFold(p.name, "proto") && EqualFold(Trim(p.value, IsQuote), "https")
    ensures Trimmed(p.value, B.IsSpace)
  {
    var core := B.TrimSpace(text);
    var (key, raw, ok) := Cut(core, '=');
    var b, e := Padding(text);
    var c, l := Padding(key);
    var r, f := Padding(raw);
    CutJoin(core, '=');
    TrimTrims(raw, B.IsSpace);
    assert Trimmed(B.TrimSpace(raw), B.IsSpace);
    hide Cut, B.TrimSpace, Trim, EqualFold, Trimmed;
    p := Pair(b + c, B.TrimSpace(key), l, r, B.TrimSpace(raw), false, f + e);
    Nested(b, c, p.name, l, r, p.value, f, e);
  }

  lemma Nested(b: string, c: string, name: string, l: string, r: string, v: string, f: string, e: string)
    ensures b + ((c + name + l) + ['='] + (r + v + f)) + e == (b + c) + (name + l + "=" + (r + v)) + (f + e)
  {
  }

  lemma LettersAreToken(s: string, word: string)
    requires Lower(s) == word && word != "" && forall i :: 0 <= i < |word| ==> 'a' <= word[i] <= 'z'
    ensures IsToken(s)
  {
    forall i | 0 <= i < |s| ensures IsTokenChar(s[i]) {
      assert Lower(s)[i] == LowerChar(s[i]);
    }
  }

  /** What stands before the value. */
  function Front(p: Slot): string
    requires p.Pair?
  {
    p.before + (p.name + p.left + "=" + p.right)
  }

  lemma FrontEnd(p: Slot)
    requires p.Pair? && AllSpace(p.right)
    ensures Front(p) != "" && Front(p)[|Front(p)| - 1] != '\\'
    ensures !p.quoted ==> PrintSlot(p) == Front(p) + p.value + p.after
  {
    if p.right == "" {
      assert Front(p) == (p.before + p.name + p.left) + "=";
    } else {
      assert Front(p)[|Front(p)| - 1] == p.right[|p.right| - 1];
    }
  }

  /** A parsed parameter in ASCII text, with a value free of quotes, is a declaration of https. */
  lemma ParsedDeclares(p: Slot)
    requires p.Pair? && !p.quoted
    requires AllSpace(p.before) && AllSpace(p.left) && AllSpace(p.right) && AllSpace(p.after)
    requires AllText(PrintSlot(p))
    requires EqualFold(p.name, "proto") && EqualFold(p.value, "https")
    ensures SlotOk(p) && SaysHTTPS(p)
  {
    PartsAreText(p);
    hide PrintSlot;
    AsciiSpacing(p.before);
    AsciiSpacing(p.left);
    AsciiSpacing(p.right);
    AsciiSpacing(p.after);
    FoldIsLower(p.name, "proto");
    FoldIsLower(p.value, "https");
    LettersAreToken(p.name, "proto");
    LettersAreToken(p.value, "https");
  }

  lemma TextParts(a: string, b: string)
    requires AllText(a + b)
    ensures AllText(a) && AllText(b)
  {
    forall i | 0 <= i < |a| ensures IsText(a[i]) { assert (a + b)[i] == a[i]; }
    forall i | 0 <= i < |b| ensures IsText(b[i]) { assert (a + b)[|a| + i] == b[i]; }
  }

  lemma PartsAreText(p: Slot)
    requires p.Pair? && !p.quoted && AllText(PrintSlot(p))
    ensures AllText(p.before) && AllText(p.name) && AllText(p.left)
    ensures AllText(p.right) && AllText(p.value) && AllText(p.after)
  {
    var core := p.name + p.left + "=" + (p.right + p.value);
    hide AllText;
    TextParts(p.before + core, p.after);
    TextParts(p.before, core);
    TextParts(p.name + p.left + "=", p.right + p.value);
    TextParts(p.name + p.left, "=");
    TextParts(p.name, p.left);
    TextParts(p.right, p.value);
  }

  /** A piece between two semicolons is read as a parameter of its own. */
  lemma MiddlePiece(q: string)
    requires Guarded(q, false)
    ensures PartIsHTTPS(q) <==> LooksDeclared(q, false)
  {
    hide PartIsHTTPS, EqualFold, Trim, LooksDeclared, AllText;
    if PartIsHTTPS(q) {
      var p := Parse(q);
      if '\\' in p.value { BackslashStays(p.value); }
      FrontEnd(p);
      hide PrintSlot;
      NoQuote(q, Front(p), p.value, p.after);
      GuardedPrefix(q, q, false);
      QuoteDropped(p.value);
      hide Front, Guarded;
      ParsedDeclares(p);
      IsDeclared(p, false);
    } else if LooksDeclared(q, false) {
      var p := Declaration(q, false);
      TokenUnescaped(p);
      PairAgrees(p);
    }
  }

  lemma QuoteDropped(v: string)
    requires '"' !in v
    ensures Trim(v, IsQuote) == v && Trim(v + "\"", IsQuote) == v
  {
    TrimFixed(v, IsQuote);
    TrimPadded("", v, "\"", IsQuote);
    assert "" + v + "\"" == v + "\"";
  }

  lemma Declaration(q: string, closed: bool) returns (p: Slot)
    requires LooksDeclared(q, closed)
    ensures SlotOk(p) && SaysHTTPS(p) && !p.quoted && (closed ==> p.after == "") && q == PrintSlot(p)
  {
    p :| SlotOk(p) && SaysHTTPS(p) && !p.quoted && (closed ==> p.after == "") && q == PrintSlot(p);
  }

  lemma IsDeclared(p: Slot, closed: bool)
    requires SlotOk(p) && SaysHTTPS(p) && !p.quoted && (closed ==> p.after == "")
    ensures LooksDeclared(PrintSlot(p), closed)
  {
  }

  lemma TokenUnescaped(p: Slot)
    requires SlotOk(p) && p.Pair? && !p.quoted
    ensures !Escaped(p) && '"' !in p.value
  {
  }

  /** White space at the end of a text is only there once. */
  lemma SameEnd(a: string, x: string, b: string, y: string)
    requires a + x == b + y && AllSpace(x) && AllSpace(y) && a != "" && b != ""
    requires !B.IsSpace(a[|a| - 1]) && !B.IsSpace(b[|b| - 1])
    ensures a == b
  {
    TrimRightPadded(a, x, B.IsSpace);
    TrimRightPadded(b, y, B.IsSpace);
  }

  /** The last piece comes with the closing quote, which the reader drops. */
  lemma LastPiece(q: string, after: string)
    requires Guarded(q, false) && IsSpacing(after)
    ensures PartIsHTTPS(q + "\"" + after) <==> LooksDeclared(q, true)
  {
    hide PartIsHTTPS, LooksDeclared;
    if PartIsHTTPS(q + "\"" + after) {
      LastParsed(q, after);
    } else if LooksDeclared(q, true) {
      var p := Declaration(q, true);
      LastRead(p, after);
    }
  }

  lemma LastParsed(q: string, after: string)
    requires Guarded(q, false) && IsSpacing(after)
    requires PartIsHTTPS(q + "\"" + after)
    ensures LooksDeclared(q, true)
  {
    hide PartIsHTTPS, EqualFold, Trim, LooksDeclared, AllText;
    var p := Parse(q + "\"" + after);
    if '\\' in p.value { BackslashStays(p.value); }
    FrontEnd(p);
    ValueThere(p);
    hide PrintSlot, Guarded;
    var v := LastValue(q, after, p);
    FrontEnd(p);
    hide Front, Trimmed, IsSpacing, AllSpace;
    LastDeclares(q, p, v);
  }

  lemma LastDeclares(q: string, p: Slot, v: string)
    requires p.Pair? && !p.quoted && p.value == v + "\"" && '\\' !in p.value
    requires Guarded(q, false) && q == Front(p) + v + ""
    requires AllSpace(p.before) && AllSpace(p.left) && AllSpace(p.right)
    requires EqualFold(p.name, "proto") && EqualFold(Trim(p.value, IsQuote), "https")
    ensures LooksDeclared(q, true)
  {
    assert p.value[..|v|] == v;
    FrontEnd(p);
    hide Guarded, EqualFold, Trim, LooksDeclared, AllText, Front, PrintSlot;
    NoQuote(q, Front(p), v, "");
    QuoteDropped(v);
    SameFront(p, v);
    assert Front(p) + v + "" == Front(p) + v;
    GuardedPrefix(q, q, false);
    ParsedDeclares(p.(value := v, after := ""));
    IsDeclared(p.(value := v, after := ""), true);
  }

  lemma SameFront(p: Slot, v: string)
    requires p.Pair? && !p.quoted
    ensures PrintSlot(p.(value := v, after := "")) == Front(p) + v
  {
    assert p.before + (p.name + p.left + "=" + (p.right + v)) + "" == Front(p) + v;
  }

  /** The value ends in the closing quote, and what is before that is the end of the piece. */
  lemma LastValue(q: string, after: string, p: Slot) returns (v: string)
    requires p.Pair? && p.value != "" && Trimmed(p.value, B.IsSpace) && AllSpace(p.after) && IsSpacing(after)
    requires Front(p) + p.value + p.after == q + "\"" + after
    ensures p.value == v + "\"" && q == Front(p) + v + ""
  {
    hide Front;
    var whole := Front(p) + p.value;
    assert whole[|whole| - 1] == p.value[|p.value| - 1];
    SameEnd(whole, p.after, q + "\"", after);
    v := p.value[..|p.value| - 1];
    assert q == whole[..|whole| - 1] == Front(p) + v;
  }

  lemma ValueThere(p: Slot)
    requires p.Pair? && EqualFold(Trim(p.value, IsQuote), "https")
    ensures p.value != ""
  {
  }

  lemma LastRead(p: Slot, after: string)
    requires SlotOk(p) && SaysHTTPS(p) && !p.quoted && p.after == "" && IsSpacing(after)
    ensures PartIsHTTPS(PrintSlot(p) + "\"" + after)
  {
    TokenUnescaped(p);
    PlainValue(p);
    NameIsText(p);
    FoldIsLower(p.name, "proto");
    FoldIsLower(p.value, "https");
    QuoteEnds(p.value);
    assert PrintSlot(p) + "\"" + after
        == p.before + (p.name + p.left + "=" + (p.right + (p.value + "\""))) + after;
    hide PartIsHTTPS, PrintSlot, EqualFold, Lower, Trim;
    PartMade(p.before, p.name, p.left, p.right, p.value + "\"", after);
  }

  lemma NameIsText(p: Slot)
    requires SlotOk(p) && p.Pair? && !p.quoted
    ensures forall i :: 0 <= i < |p.name| ==> p.name[i] <= '~'
    ensures p.value != "" && !B.IsSpace(p.value[0])
  {
  }

  lemma QuoteEnds(v: string)
    requires '"' !in v && v != "" && !B.IsSpace(v[0])
    ensures Trim(v + "\"", IsQuote) == v && Trimmed(v + "\"", B.IsSpace)
  {
    TrimPadded("", v, "\"", IsQuote);
    assert "" + v + "\"" == v + "\"";
  }

  /** What stands before a quoted value, with its opening quote. */
  function Head(slot: Slot): string
    requires slot.Pair?
  {
    Front(slot) + "\""
  }

  /** The first piece stands under the name of the parameter. */
  lemma FirstPiece(slot: Slot, q: string)
    requires SlotOk(slot) && slot.Pair? && Guarded(q, false)
    ensures PartIsHTTPS(Head(slot) + q) <==> FirstDeclares(slot.name, q)
  {
    hide PartIsHTTPS, TrimRight, EqualFold, Lower, IsToken, Trim, Guarded, IsSpacing;
    var r := TrimRight(q, IsOWS);
    var n := TrimRightRest(q, IsOWS);
    TrimRightShape(q, IsOWS);
    EndsInText(q, r);
    TokenFolds(slot.name);
    PieceMade(slot, r, q[n..]);
    assert q == r + q[n..];
    OpenValue(r);
  }

  lemma PieceMade(slot: Slot, r: string, w: string)
    requires SlotOk(slot) && slot.Pair? && Trimmed("\"" + r, B.IsSpace)
    requires forall i :: 0 <= i < |w| ==> IsOWS(w[i])
    ensures PartIsHTTPS(Head(slot) + (r + w)) <==>
              EqualFold(slot.name, "proto") && EqualFold(Trim("\"" + r, IsQuote), "https")
  {
    hide PartIsHTTPS, EqualFold, IsToken, Trim, Trimmed;
    assert Head(slot) + (r + w)
        == slot.before + (slot.name + slot.left + "=" + (slot.right + ("\"" + r))) + w;
    PartMade(slot.before, slot.name, slot.left, slot.right, "\"" + r, w);
  }

  lemma TokenFolds(name: string)
    requires IsToken(name)
    ensures EqualFold(name, "proto") <==> Lower(name) == "proto"
  {
    FoldIsLower(name, "proto");
    hide EqualFold, Lower;
  }

  lemma EndsInText(q: string, r: string)
    requires Guarded(q, false) && r <= q && (r != "" ==> !IsOWS(r[|r| - 1]))
    ensures Trimmed("\"" + r, B.IsSpace) && Guarded(r, false)
  {
    GuardedPrefix(r, q, false);
  }

  lemma OpenValue(r: string)
    requires Guarded(r, false)
    ensures EqualFold(Trim("\"" + r, IsQuote), "https") <==> Lower(r) == "https"
  {
    hide EqualFold, Lower, Trim;
    GuardedPrefix(r, r, false);
    FoldIsLower(r, "https");
    if '\\' in r {
      var i :| 0 <= i < |r| && r[i] == '\\';
      assert ("\"" + r)[i + 1] == '\\';
      BackslashStays("\"" + r);
      NoBackslash(r);
    } else {
      assert r == "" + r + "";
      NoQuote(r, "", r, "");
      TrimPadded("\"", r, "", IsQuote);
      assert "\"" + r + "" == "\"" + r;
    }
  }

  // ---- All pieces ----------------------------------------------------------------------

  lemma {:induction false} SplitPrefix(h: string, s: string, sep: char)
    requires Free(h, sep)
    ensures Split(h + s, sep) == [h + Split(s, sep)[0]] + Split(s, sep)[1..]
  {
    hide Split;
    if h == "" {
      assert h + s == s && h + Split(s, sep)[0] == Split(s, sep)[0];
    } else {
      SplitPrefix(h[1..], s, sep);
      SplitOne(h[0], h[1..] + s, sep);
      assert [h[0]] + (h[1..] + s) == h + s;
      assert [h[0]] + (h[1..] + Split(s, sep)[0]) == h + Split(s, sep)[0];
    }
  }

  lemma {:induction false} SplitSuffix(s: string, t: string, sep: char)
    requires Free(t, sep)
    ensures var parts := Split(s, sep);
            Split(s + t, sep) == parts[..|parts| - 1] + [parts[|parts| - 1] + t]
    decreases |t|
  {
    hide Split;
    if t == "" {
      assert s + t == s;
      var parts := Split(s, sep);
      assert parts[|parts| - 1] + t == parts[|parts| - 1];
    } else {
      var init, c := t[..|t| - 1], t[|t| - 1];
      SplitSuffix(s, init, sep);
      SplitSnoc(s + init, sep, c);
      assert s + init + [c] == s + t && init + [c] == t;
      var parts := Split(s, sep);
      assert parts[|parts| - 1] + init + [c] == parts[|parts| - 1] + t;
    }
  }

  /** Where the value ends: nowhere the reader looks if a comma comes first. */
  function End(slot: Slot): string
    requires slot.Pair?
  {
    if HasComma(slot) then "" else "\"" + slot.after
  }

  /** What the reader has before it up to the first comma. */
  lemma VisibleText(slot: Slot)
    requires SlotOk(slot) && Separated(slot)
    ensures slot.quoted
    ensures Free(Head(slot), ';') && Free(End(slot), ';')
    ensures Cut(PrintSlot(slot), ',').0 == Head(slot) + Cut(slot.value, ',').0 + End(slot)
  {
    var head, tail := Head(slot), "\"" + slot.after;
    FrontFree(slot, ';');
    FrontFree(slot, ',');
    EndFree(slot, ';');
    EndFree(slot, ',');
    QuotedPrint(slot);
    hide Cut, PrintSlot, SlotOk, Head;
    CutQuoted(head, slot.value, tail);
  }

  lemma CutQuoted(head: string, value: string, tail: string)
    requires Free(head, ',') && Free(tail, ',')
    ensures Cut(head + (value + tail), ',').0 ==
            head + Cut(value, ',').0 + if ',' in value then "" else tail
  {
    hide Cut;
    CutLate(head, ',', value + tail);
    if ',' in value {
      CutEarly(value, ',', tail);
      assert head + Cut(value, ',').0 + "" == head + Cut(value, ',').0;
    } else {
      assert Free(value + tail, ',');
      CutFree(value, ',');
      CutFree(value + tail, ',');
      assert head + (value + tail) == head + value + tail;
    }
  }

  lemma QuotedPrint(slot: Slot)
    requires SlotOk(slot) && Separated(slot)
    ensures slot.quoted && PrintSlot(slot) == Head(slot) + (slot.value + ("\"" + slot.after))
  {
  }

  lemma EndFree(slot: Slot, c: char)
    requires SlotOk(slot) && slot.Pair? && (c == ';' || c == ',')
    ensures Free("\"" + slot.after, c) && Free(End(slot), c)
  {
  }

  lemma FrontFree(slot: Slot, c: char)
    requires SlotOk(slot) && slot.Pair? && (c == ';' || c == ',')
    ensures Free(Head(slot), c)
  {
    PiecesFree(slot, c);
    hide SlotOk, PrintValue;
  }

  /** The parts the reader looks at are the pieces, the first after its name, the last with the end. */
  lemma TornParts(slot: Slot)
    requires SlotOk(slot) && Separated(slot)
    ensures var pieces := Pieces(slot.value);
            var torn := [Head(slot) + pieces[0]] + pieces[1..];
            && |torn| == |pieces|
            && Split(Cut(PrintSlot(slot), ',').0, ';') == torn[..|torn| - 1] + [torn[|torn| - 1] + End(slot)]
  {
    VisibleText(slot);
    hide Split, Cut, PrintSlot, SlotOk, Separated;
    SplitPrefix(Head(slot), Cut(slot.value, ',').0, ';');
    SplitSuffix(Head(slot) + Cut(slot.value, ',').0, End(slot), ';');
  }

  /** A value without a comma that holds a separator comes in two pieces at least. */
  lemma TwoPieces(slot: Slot)
    requires SlotOk(slot) && Separated(slot)
    ensures |Pieces(slot.value)| == 1 ==> HasComma(slot)
  {
    if !HasComma(slot) {
      CutFree(slot.value, ',');
      SplitJoin(slot.value, ';');
    }
  }

  predicate LaterRead(pieces: seq<string>, i: nat, end: string)
    requires i < |pieces|
  {
    PartIsHTTPS(if i == |pieces| - 1 then pieces[i] + end else pieces[i])
  }

  /** The reader looks at one piece after the other. */
  lemma TornReads(slot: Slot)
    requires SlotOk(slot) && Separated(slot)
    ensures var pieces := Pieces(slot.value);
            ReadsHTTPS(PrintSlot(slot)) <==>
              || PartIsHTTPS(Head(slot) + pieces[0])
              || exists i :: 1 <= i < |pieces| && LaterRead(pieces, i, End(slot))
  {
    TornParts(slot);
    TwoPieces(slot);
    if HasComma(slot) { NoEnd(slot); }
    hide Split, Cut, Pieces, PrintSlot, PartIsHTTPS, Head, End, SlotOk, LaterRead, SomePart;
    ReadPieces(Head(slot), Pieces(slot.value), End(slot));
  }

  /** The pieces after the first, read and looked at. */
  lemma LaterPieces(slot: Slot)
    requires SlotOk(slot) && Separated(slot)
    ensures var pieces := Pieces(slot.value);
            (exists i :: 1 <= i < |pieces| && LaterRead(pieces, i, End(slot)))
            <==> exists i :: 1 <= i < |pieces| && LaterDeclares(pieces, i, HasComma(slot))
  {
    var pieces := Pieces(slot.value);
    QuotedPrint(slot);
    PiecesGuarded(slot.value);
    SpacedAfter(slot);
    hide SlotOk, Separated, HasComma, Pieces, PartIsHTTPS, Guarded, LaterDeclares, LaterRead;
    hide End, IsSpacing, PrintSlot, Head;
    forall i: nat | 1 <= i < |pieces|
      ensures LaterRead(pieces, i, End(slot)) <==> LaterDeclares(pieces, i, HasComma(slot))
    {
      LaterPiece(slot, pieces, i);
    }
  }

  lemma SpacedAfter(slot: Slot)
    requires SlotOk(slot) && slot.Pair?
    ensures IsSpacing(slot.after)
  {
  }

  /** Exactly what of a value with separators is taken for https. */
  lemma MisreadExact(slot: Slot)
    requires SlotOk(slot) && Separated(slot)
    ensures ReadsHTTPS(PrintSlot(slot)) <==> Misread(slot)
  {
    TornReads(slot);
    LaterPieces(slot);
    QuotedPrint(slot);
    PiecesGuarded(slot.value);
    hide SlotOk, Separated, Pieces, PrintSlot, PartIsHTTPS, Guarded, LaterDeclares, FirstDeclares;
    hide Head, End, LaterRead, ReadsHTTPS;
    FirstPiece(slot, Pieces(slot.value)[0]);
  }

  lemma NoEnd(slot: Slot)
    requires HasComma(slot)
    ensures End(slot) == ""
  {
  }

  /** The first part, the parts between, and the last part. */
  lemma ReadPieces(head: string, pieces: seq<string>, end: string)
    requires pieces != [] && (|pieces| == 1 ==> end == "")
    ensures var torn := [head + pieces[0]] + pieces[1..];
            SomePart(torn[..|torn| - 1] + [torn[|torn| - 1] + end]) <==>
              || PartIsHTTPS(head + pieces[0])
              || exists i :: 1 <= i < |pieces| && LaterRead(pieces, i, end)
  {
    hide PartIsHTTPS;
    var torn := [head + pieces[0]] + pieces[1..];
    var parts := torn[..|torn| - 1] + [torn[|torn| - 1] + end];
    assert |pieces| == 1 ==> head + pieces[0] + end == head + pieces[0];
    assert parts[0] == head + pieces[0];
    forall i: nat | 1 <= i < |pieces| ensures PartIsHTTPS(parts[i]) <==> LaterRead(pieces, i, end) {
      assert parts[i] == if i == |pieces| - 1 then pieces[i] + end else pieces[i];
    }
  }

  lemma LaterPiece(slot: Slot, pieces: seq<string>, i: nat)
    requires slot.Pair? && i < |pieces| && Guarded(pieces[i], false) && IsSpacing(slot.after)
    ensures LaterRead(pieces, i, End(slot)) <==> LaterDeclares(pieces, i, HasComma(slot))
  {
    hide PartIsHTTPS, LooksDeclared, Guarded, IsSpacing;
    var q := pieces[i];
    if i == |pieces| - 1 && !HasComma(slot) {
      LastPiece(q, slot.after);
      assert q + ("\"" + slot.after) == q + "\"" + slot.after;
    } else {
      MiddlePiece(q);
      assert q + "" == q;
    }
  }

  /** One reached parameter: read as it is meant when nothing in it is escaped or a separator. */
  lemma SlotReads(slot: Slot)
    requires SlotOk(slot)
    ensures ReadsHTTPS(PrintSlot(slot)) <==> (SaysHTTPS(slot) && !Escaped(slot)) || Misread(slot)
  {
    hide Split, Cut, PartIsHTTPS, PrintSlot, SlotOk, Pieces, LaterDeclares;
    if Separated(slot) {
      MisreadExact(slot);
      if SaysHTTPS(slot) && !Escaped(slot) {
        PlainValue(slot);
        SeparatorsStay(slot.value);
      }
    } else {
      hide SaysHTTPS;
      SlotFree(slot, ',');
      SlotFree(slot, ';');
      CutFree(PrintSlot(slot), ',');
      SplitFree(PrintSlot(slot), ';');
      SlotAgrees(slot);
      assert [PrintSlot(slot)][0] == PrintSlot(slot);
    }
  }

  lemma SeparatorsStay(s: string)
    requires Lower(s) == "https"
    ensures ',' !in s && ';' !in s
  {
    forall i | 0 <= i < |s| ensures s[i] != ',' && s[i] != ';' {
      assert Lower(s)[i] == LowerChar(s[i]);
      assert Lower(s)[i] in {'h', 't', 'p', 's'};
    }
  }
}
