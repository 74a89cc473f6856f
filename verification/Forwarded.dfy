/**
 How the server reads forwarding headers (internal/server/security.go), against a printer
 for the `Forwarded` field of section 4 of RFC 7239.
 */
module Forwarded {
  import opened Text
  import B = TodoBody

  // ---- The reader ----------------------------------------------------------------------

  /** The simple folds of a lower-case ASCII letter; other characters fold to themselves. */
  predicate FoldsTo(c: char, lower: char)
  {
    || c == lower
    || ('a' <= lower <= 'z' && c == ((lower as int) - 32) as char)
    || (lower == 's' && c == '\U{17F}') || (lower == 'k' && c == '\U{212A}')
  }

  /** `strings.EqualFold` against a lower-case ASCII word. */
  predicate EqualFold(s: string, word: string)
  {
    |s| == |word| && forall i :: 0 <= i < |s| ==> FoldsTo(s[i], word[i])
  }

  predicate IsQuote(c: char) { c == '"' }

  function FirstForwardedValue(value: string): string { B.TrimSpace(Cut(value, ',').0) }

  /** One parameter of an element: a key `proto` whose value is https. */
  predicate PartIsHTTPS(part: string)
  {
    var (key, raw, ok) := Cut(B.TrimSpace(part), '=');
    && ok && EqualFold(B.TrimSpace(key), "proto")
    && EqualFold(Trim(B.TrimSpace(raw), IsQuote), "https")
  }

  predicate SomePart(parts: seq<string>) { exists i :: 0 <= i < |parts| && PartIsHTTPS(parts[i]) }

  predicate ProtoIsHTTPS(value: string) { SomePart(Split(FirstForwardedValue(value), ';')) }

  /** The loop of `forwardedProtoIsHTTPS`. */
  method ForwardedProtoIsHTTPS(value: string) returns (https: bool)
    ensures https == ProtoIsHTTPS(value)
  {
    var parts := Split(FirstForwardedValue(value), ';');
    hide FirstForwardedValue, Split, EqualFold, B.TrimSpace, Trim, Cut;
    for i := 0 to |parts|
      invariant !SomePart(parts[..i])
    {
      var (key, raw, ok) := Cut(B.TrimSpace(parts[i]), '=');
      if !ok || !EqualFold(B.TrimSpace(key), "proto") { continue; }
      var proto := Trim(B.TrimSpace(raw), IsQuote);
      if EqualFold(proto, "https") {
        assert PartIsHTTPS(parts[i]);
        return true;
      }
    }
    assert parts[..|parts|] == parts;
    return false;
  }

  /** The connection itself, or either header, says https. */
  predicate Secure(tls: bool, forwardedProto: string, forwarded: string)
  {
    tls || EqualFold(FirstForwardedValue(forwardedProto), "https") || ProtoIsHTTPS(forwarded)
  }

  /** What it answers for headers as proxies print them: lemma HeadersAgreement. */
  method RequestIsHTTPS(tls: bool, forwardedProto: string, forwarded: string) returns (https: bool)
    ensures https == Secure(tls, forwardedProto, forwarded)
  {
    if tls { return true; }
    if EqualFold(FirstForwardedValue(forwardedProto), "https") { return true; }
    https := ForwardedProtoIsHTTPS(forwarded);
  }

  // ---- The printer ---------------------------------------------------------------------

  predicate IsOWS(c: char) { c == ' ' || c == '\t' }

  /** `tchar` of section 3.2.6 of RFC 7230. */
  predicate IsTokenChar(c: char)
  {
    || c == '!' || '#' <= c <= '\'' || c == '*' || c == '+' || c == '-' || c == '.'
    || '0' <= c <= '9' || 'A' <= c <= 'Z' || '^' <= c <= 'z' || c == '|' || c == '~'
  }

  predicate IsToken(s: string) { s != "" && forall i :: 0 <= i < |s| ==> IsTokenChar(s[i]) }

  predicate IsText(c: char) { c == '\t' || ' ' <= c <= '~' }

  /** What stands between the quotes: ASCII text in which a backslash escapes one character. */
  predicate IsQuotedText(s: string)
  {
    s != "" ==>
      if s[0] == '\\' then |s| > 1 && IsText(s[1]) && IsQuotedText(s[2..])
      else IsText(s[0]) && s[0] != '"' && IsQuotedText(s[1..])
  }

  /** The text that a quoted string stands for. */
  function Unescape(s: string): string
  {
    if s == "" then ""
    else if s[0] == '\\' && |s| > 1 then [s[1]] + Unescape(s[2..])
    else [s[0]] + Unescape(s[1..])
  }

  predicate IsSpacing(s: string) { forall i :: 0 <= i < |s| ==> IsOWS(s[i]) }

  /** A parameter with the optional whitespace around its parts, or an empty place in the list. */
  datatype Slot =
    | Empty(before: string)
    | Pair(before: string, name: string, left: string, right: string, value: string, quoted: bool, after: string)

  predicate SlotOk(slot: Slot)
  {
    IsSpacing(slot.before) &&
    match slot
    case Empty(_) => true
    case Pair(_, name, left, right, value, quoted, after) =>
      && IsToken(name) && IsSpacing(left) && IsSpacing(right) && IsSpacing(after)
      && if quoted then IsQuotedText(value) else IsToken(value)
  }

  function PrintValue(slot: Slot): string
    requires slot.Pair?
  {
    if slot.quoted then "\"" + slot.value + "\"" else slot.value
  }

  function PrintSlot(slot: Slot): string
  {
    match slot
    case Empty(before) => before
    case Pair(before, name, left, right, _, _, after) =>
      before + (name + left + "=" + (right + PrintValue(slot))) + after
  }

  function PrintSlots(slots: seq<Slot>): seq<string>
  {
    seq(|slots|, i requires 0 <= i < |slots| => PrintSlot(slots[i]))
  }

  function PrintElement(slots: seq<Slot>): string { Join(PrintSlots(slots), ';') }

  function PrintElements(elements: seq<seq<Slot>>): seq<string>
  {
    seq(|elements|, i requires 0 <= i < |elements| => PrintElement(elements[i]))
  }

  function PrintForwarded(elements: seq<seq<Slot>>): string { Join(PrintElements(elements), ',') }

  function LowerChar(c: char): char { if 'A' <= c <= 'Z' then ((c as int) + 32) as char else c }

  function Lower(s: string): string { seq(|s|, i requires 0 <= i < |s| => LowerChar(s[i])) }

  function Meaning(slot: Slot): string
    requires slot.Pair?
  {
    if slot.quoted then Unescape(slot.value) else slot.value
  }

  /** The parameter means that the client's own protocol was https. */
  predicate SaysHTTPS(slot: Slot) { slot.Pair? && Lower(slot.name) == "proto" && Lower(Meaning(slot)) == "https" }

  predicate Declares(slots: seq<Slot>) { exists j :: 0 <= j < |slots| && SaysHTTPS(slots[j]) }

  function First(elements: seq<seq<Slot>>): seq<Slot> { if elements == [] then [] else elements[0] }

  // ---- Where the reader goes its own way -----------------------------------------------

  predicate Escaped(slot: Slot) { slot.Pair? && '\\' in slot.value }

  predicate HasComma(slot: Slot) { slot.Pair? && ',' in slot.value }

  predicate Separated(slot: Slot) { HasComma(slot) || (slot.Pair? && ';' in slot.value) }

  /** The reader stops at the first comma, quoted or not. */
  predicate Reached(slots: seq<Slot>, j: nat)
  {
    j < |slots| && forall i :: 0 <= i < j ==> !HasComma(slots[i])
  }

  predicate ReadsHTTPS(text: string) { SomePart(Split(Cut(text, ',').0, ';')) }

  // ---- One parameter -----------------------------------------------------------------------

  lemma FoldIsLower(s: string, word: string)
    requires forall i :: 0 <= i < |s| ==> s[i] <= '~'
    requires forall i :: 0 <= i < |word| ==> 'a' <= word[i] <= 'z'
    ensures EqualFold(s, word) <==> Lower(s) == word
  {
  }

  /** What the reader makes of a name, an equal sign and any text after it. */
  lemma PartMade(before: string, name: string, left: string, right: string, core: string, after: string)
    requires IsToken(name) && core != "" && Trimmed(core, B.IsSpace)
    requires IsSpacing(before) && IsSpacing(left) && IsSpacing(right) && IsSpacing(after)
    ensures PartIsHTTPS(before + (name + left + "=" + (right + core)) + after) <==>
              EqualFold(name, "proto") && EqualFold(Trim(core, IsQuote), "https")
  {
    var whole := name + left + "=" + (right + core);
    assert whole == (name + left) + ['='] + (right + core);
    assert whole[0] == name[0] && whole[|whole| - 1] == core[|core| - 1];
    assert Free(name + left, '=');
    assert "" + name + left == name + left && right + core + "" == right + core;
    hide Trim, Cut, EqualFold;
    TrimPadded(before, whole, after, B.IsSpace);
    CutAt(name + left, '=', right + core);
    TrimPadded("", name, left, B.IsSpace);
    TrimPadded(right, core, "", B.IsSpace);
  }

  lemma {:induction false} QuotedTextShape(s: string)
    requires IsQuotedText(s)
    ensures forall i :: 0 <= i < |s| ==> s[i] <= '~'
    ensures '\\' !in s ==> '"' !in s && Unescape(s) == s
  {
    if s != "" && s[0] == '\\' {
      QuotedTextShape(s[2..]);
      assert s == s[..2] + s[2..];
    } else if s != "" {
      QuotedTextShape(s[1..]);
      assert s == [s[0]] + s[1..];
    }
  }

  lemma {:induction false} TrimKeeps(s: string, c: char, cut: char -> bool)
    requires c in s && !cut(c)
    ensures c in TrimLeft(s, cut) && c in TrimRight(s, cut)
    decreases |s|
  {
    if cut(s[0]) {
      assert c in s[1..];
      TrimKeeps(s[1..], c, cut);
    }
    if cut(s[|s| - 1]) {
      assert c in s[..|s| - 1];
      TrimKeeps(s[..|s| - 1], c, cut);
    }
  }

  /** The reader takes a value without escapes for what it is, and never takes one with escapes for https. */
  lemma ValueAgrees(slot: Slot)
    requires SlotOk(slot) && slot.Pair?
    ensures EqualFold(Trim(PrintValue(slot), IsQuote), "https") <==> Lower(Meaning(slot)) == "https" && !Escaped(slot)
  {
    if Escaped(slot) {
      EscapeStays(slot);
    } else {
      PlainValue(slot);
      hide Trim, EqualFold, Lower, Unescape, IsQuotedText;
      QuotesGo(slot);
      FoldIsLower(slot.value, "https");
    }
  }

  lemma EscapeStays(slot: Slot)
    requires Escaped(slot)
    ensures !EqualFold(Trim(PrintValue(slot), IsQuote), "https")
  {
    var i :| 0 <= i < |slot.value| && slot.value[i] == '\\';
    assert PrintValue(slot)[if slot.quoted then i + 1 else i] == '\\';
    BackslashStays(PrintValue(slot));
  }

  lemma BackslashStays(text: string)
    requires '\\' in text
    ensures !EqualFold(Trim(text, IsQuote), "https")
  {
    TrimKeeps(text, '\\', IsQuote);
    TrimKeeps(TrimLeft(text, IsQuote), '\\', IsQuote);
    NoBackslash(Trim(text, IsQuote));
  }

  lemma NoBackslash(s: string)
    requires '\\' in s
    ensures !EqualFold(s, "https")
  {
  }

  lemma PlainValue(slot: Slot)
    requires SlotOk(slot) && slot.Pair? && !Escaped(slot)
    ensures Meaning(slot) == slot.value && (slot.quoted ==> '"' !in slot.value)
    ensures forall i :: 0 <= i < |slot.value| ==> slot.value[i] <= '~'
  {
    if slot.quoted {
      QuotedTextShape(slot.value);
    }
  }

  lemma QuotesGo(slot: Slot)
    requires SlotOk(slot) && slot.Pair? && !Escaped(slot) && (slot.quoted ==> '"' !in slot.value)
    ensures Trim(PrintValue(slot), IsQuote) == slot.value
  {
    if slot.quoted {
      assert Trimmed(slot.value, IsQuote);
      TrimPadded("\"", slot.value, "\"", IsQuote);
    } else {
      TrimFixed(slot.value, IsQuote);
    }
  }

  /** What the reader makes of one printed parameter. */
  lemma PairAgrees(slot: Slot)
    requires SlotOk(slot) && slot.Pair?
    ensures PartIsHTTPS(PrintSlot(slot)) <==> SaysHTTPS(slot) && !Escaped(slot)
  {
    assert PrintValue(slot) != "" && Trimmed(PrintValue(slot), B.IsSpace);
    hide PartIsHTTPS, Trim, EqualFold, Lower, PrintValue, Meaning, Escaped;
    PartMade(slot.before, slot.name, slot.left, slot.right, PrintValue(slot), slot.after);
    FoldIsLower(slot.name, "proto");
    ValueAgrees(slot);
  }

  lemma SlotAgrees(slot: Slot)
    requires SlotOk(slot)
    ensures PartIsHTTPS(PrintSlot(slot)) <==> SaysHTTPS(slot) && !Escaped(slot)
  {
    if slot.Empty? {
      TrimPadded(slot.before, "", "", B.IsSpace);
      assert slot.before + "" + "" == slot.before;
    } else {
      PairAgrees(slot);
    }
  }

  lemma PiecesFree(slot: Slot, c: char)
    requires SlotOk(slot) && slot.Pair? && (c == ';' || c == ',')
    ensures Free(slot.before, c) && Free(slot.name, c) && Free(slot.left, c) && Free(slot.right, c)
    ensures Free(PrintValue(slot), c) <==> c !in slot.value
    ensures Free(slot.after, c)
  {
    if c in slot.value {
      var i :| 0 <= i < |slot.value| && slot.value[i] == c;
      assert PrintValue(slot)[if slot.quoted then i + 1 else i] == c;
    }
  }

  /** A separator in a printed parameter stands in its quoted value. */
  lemma SlotFree(slot: Slot, c: char)
    requires SlotOk(slot) && (c == ';' || c == ',')
    ensures Free(PrintSlot(slot), c) <==> !(slot.Pair? && c in slot.value)
  {
    if slot.Pair? {
      PiecesFree(slot, c);
      hide SlotOk, PrintValue;
      var left, right := slot.before + (slot.name + slot.left + "=" + slot.right), slot.after;
      assert PrintSlot(slot) == left + PrintValue(slot) + right;
      FreeMiddle(left, PrintValue(slot), right, c);
    }
  }

  lemma FreeMiddle(left: string, middle: string, right: string, c: char)
    requires Free(left, c) && Free(right, c)
    ensures Free(left + middle + right, c) <==> Free(middle, c)
  {
    forall i | 0 <= i < |middle| ensures (left + middle + right)[|left| + i] == middle[i] {
    }
  }
}
