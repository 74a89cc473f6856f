/**
 The string operations of Go's `strings` package that the server uses, as functions on
 sequences of characters.
 */
module Text {

  const CR := '\r'
  const LF := '\n'

  /** `strings.ReplaceAll` for a non-empty pattern: leftmost, non-overlapping. */
  function ReplaceAll(s: string, pattern: string, replacement: string): string
    requires pattern != ""
    decreases |s|
  {
    if s == "" then ""
    else if pattern <= s then replacement + ReplaceAll(s[|pattern|..], pattern, replacement)
    else [s[0]] + ReplaceAll(s[1..], pattern, replacement)
  }

  /** `strings.Split` on a one-character separator. */
  function Split(s: string, sep: char): (parts: seq<string>)
    ensures parts != []
  {
    if s == "" then [""]
    else
      var rest := Split(s[1..], sep);
      if s[0] == sep then [""] + rest else [[s[0]] + rest[0]] + rest[1..]
  }

  function Join(parts: seq<string>, sep: char): string
  {
    if parts == [] then ""
    else if |parts| == 1 then parts[0]
    else parts[0] + [sep] + Join(parts[1..], sep)
  }

  ghost predicate Free(s: string, c: char) { forall i :: 0 <= i < |s| ==> s[i] != c }

  /** Splitting and joining again gives the string back, and no part holds the separator. */
  lemma {:induction false} SplitJoin(s: string, sep: char)
    ensures Join(Split(s, sep), sep) == s
    ensures forall i :: 0 <= i < |Split(s, sep)| ==> Free(Split(s, sep)[i], sep)
  {
    if s != "" {
      SplitJoin(s[1..], sep);
      var rest := Split(s[1..], sep);
      if s[0] == sep {
        assert Join([""] + rest, sep) == "" + [sep] + Join(rest, sep);
      } else if |rest| > 1 {
        assert ([[s[0]] + rest[0]] + rest[1..])[1..] == rest[1..];
      }
    }
  }

  /** A string without the separator splits into itself. */
  lemma {:induction false} SplitFree(s: string, sep: char)
    requires Free(s, sep)
    ensures Split(s, sep) == [s]
  {
    if s != "" {
      SplitFree(s[1..], sep);
      assert [s[0]] + s[1..] == s;
    }
  }

  /** Splitting undoes joining when no part holds the separator. */
  lemma {:induction false} SplitAt(s: string, sep: char, t: string)
    requires Free(s, sep)
    ensures Split(s + [sep] + t, sep) == [s] + Split(t, sep)
  {
    if s == "" {
      assert (s + [sep] + t)[1..] == t;
    } else {
      SplitAt(s[1..], sep, t);
      assert (s + [sep] + t)[1..] == s[1..] + [sep] + t;
      assert [s[0]] + s[1..] == s;
    }
  }

  /** `strings.Cut`: what stands before and after the first separator. */
  function Cut(s: string, sep: char): (r: (string, string, bool))
  {
    if s == "" then ("", "", false)
    else if s[0] == sep then ("", s[1..], true)
    else
      var (before, after, found) := Cut(s[1..], sep);
      ([s[0]] + before, after, found)
  }

  lemma {:induction false} CutAt(s: string, sep: char, t: string)
    requires Free(s, sep)
    ensures Cut(s + [sep] + t, sep) == (s, t, true)
  {
    if s == "" {
      assert (s + [sep] + t)[1..] == t;
    } else {
      CutAt(s[1..], sep, t);
      assert (s + [sep] + t)[1..] == s[1..] + [sep] + t;
      assert [s[0]] + s[1..] == s;
    }
  }

  lemma {:induction false} CutFree(s: string, sep: char)
    requires Free(s, sep)
    ensures Cut(s, sep) == (s, "", false)
  {
    if s != "" {
      CutFree(s[1..], sep);
      assert [s[0]] + s[1..] == s;
    }
  }

  lemma {:induction false} CutEarly(s: string, sep: char, t: string)
    requires !Free(s, sep)
    ensures Cut(s + t, sep).0 == Cut(s, sep).0
  {
    assert (s + t)[1..] == s[1..] + t;
    if s[0] != sep {
      CutEarly(s[1..], sep, t);
    }
  }

  lemma {:induction false} CutLate(s: string, sep: char, t: string)
    requires Free(s, sep)
    ensures Cut(s + t, sep).0 == s + Cut(t, sep).0
  {
    if s == "" {
      assert s + t == t;
    } else {
      assert (s + t)[1..] == s[1..] + t;
      CutLate(s[1..], sep, t);
      assert [s[0]] + (s[1..] + Cut(t, sep).0) == s + Cut(t, sep).0;
    }
  }

  lemma SplitOne(c: char, s: string, sep: char)
    ensures Split([c] + s, sep) == if c == sep then [""] + Split(s, sep)
                                   else [[c] + Split(s, sep)[0]] + Split(s, sep)[1..]
  {
    assert ([c] + s)[1..] == s;
  }

  lemma {:induction false} SplitConcat(s: string, sep: char, t: string)
    ensures Split(s + [sep] + t, sep) == Split(s, sep) + Split(t, sep)
  {
    hide Split;
    if s == "" {
      SplitFree(s, sep);
      SplitAt(s, sep, t);
    } else {
      var rest := s[1..] + [sep] + t;
      SplitConcat(s[1..], sep, t);
      SplitOne(s[0], s[1..], sep);
      SplitOne(s[0], rest, sep);
      assert [s[0]] + s[1..] == s && [s[0]] + rest == s + [sep] + t;
      Regroup([s[0]], Split(s[1..], sep), Split(t, sep));
    }
  }

  lemma Regroup(x: string, a: seq<string>, b: seq<string>)
    requires a != []
    ensures [""] + (a + b) == ([""] + a) + b
    ensures [x + (a + b)[0]] + (a + b)[1..] == ([x + a[0]] + a[1..]) + b
  {
    assert (a + b)[0] == a[0] && (a + b)[1..] == a[1..] + b;
  }

  lemma {:induction false} SplitSnoc(s: string, sep: char, c: char)
    requires c != sep
    ensures var parts := Split(s, sep);
            Split(s + [c], sep) == parts[..|parts| - 1] + [parts[|parts| - 1] + [c]]
  {
    hide Split;
    if s == "" {
      SplitFree(s, sep);
      SplitFree(s + [c], sep);
    } else {
      SplitSnoc(s[1..], sep, c);
      SplitOne(s[0], s[1..], sep);
      SplitOne(s[0], s[1..] + [c], sep);
      assert [s[0]] + s[1..] == s && [s[0]] + (s[1..] + [c]) == s + [c];
      SnocRegroup([s[0]], Split(s[1..], sep), [c]);
    }
  }

  lemma SnocRegroup(x: string, a: seq<string>, end: string)
    requires a != []
    ensures var b := a[..|a| - 1] + [a[|a| - 1] + end];
            && [""] + b == ([""] + a)[..|a|] + [([""] + a)[|a|] + end]
            && [x + b[0]] + b[1..] ==
               ([x + a[0]] + a[1..])[..|a| - 1] + [([x + a[0]] + a[1..])[|a| - 1] + end]
  {
    if |a| == 1 {
      assert x + (a[0] + end) == (x + a[0]) + end;
    }
  }

  function TrimLeft(s: string, cut: char -> bool): string
  {
    if s != "" && cut(s[0]) then TrimLeft(s[1..], cut) else s
  }

  function TrimRight(s: string, cut: char -> bool): string
  {
    if s != "" && cut(s[|s| - 1]) then TrimRight(s[..|s| - 1], cut) else s
  }

  /** `strings.TrimFunc`: drops a leading and a trailing run of characters. */
  function Trim(s: string, cut: char -> bool): string { TrimRight(TrimLeft(s, cut), cut) }

  /** Nothing to drop at either end. */
  ghost predicate Trimmed(s: string, cut: char -> bool)
  {
    s != "" ==> !cut(s[0]) && !cut(s[|s| - 1])
  }

  lemma {:induction false} TrimRightShape(s: string, cut: char -> bool)
    ensures TrimRight(s, cut) <= s
    ensures TrimRight(s, cut) != "" ==> !cut(TrimRight(s, cut)[|TrimRight(s, cut)| - 1])
  {
    if s != "" && cut(s[|s| - 1]) {
      TrimRightShape(s[..|s| - 1], cut);
    }
  }

  lemma {:induction false} TrimLeftShape(s: string, cut: char -> bool)
    ensures TrimLeft(s, cut) != "" ==> !cut(TrimLeft(s, cut)[0])
  {
    if s != "" && cut(s[0]) {
      TrimLeftShape(s[1..], cut);
    }
  }

  lemma TrimTrims(s: string, cut: char -> bool)
    ensures Trimmed(Trim(s, cut), cut)
  {
    TrimLeftShape(s, cut);
    TrimRightShape(TrimLeft(s, cut), cut);
  }

  lemma {:induction false} TrimRightPadded(s: string, right: string, cut: char -> bool)
    requires forall i :: 0 <= i < |right| ==> cut(right[i])
    requires s != "" ==> !cut(s[|s| - 1])
    ensures TrimRight(s + right, cut) == s
    decreases |right|
  {
    if right == "" {
      assert s + right == s;
    } else {
      assert (s + right)[..|s + right| - 1] == s + right[..|right| - 1];
      TrimRightPadded(s, right[..|right| - 1], cut);
    }
  }

  lemma {:induction false} TrimLeftSplits(s: string, cut: char -> bool) returns (left: string)
    ensures s == left + TrimLeft(s, cut) && forall i :: 0 <= i < |left| ==> cut(left[i])
  {
    if s != "" && cut(s[0]) {
      var rest := TrimLeftSplits(s[1..], cut);
      left := [s[0]] + rest;
    } else {
      left := "";
    }
  }

  lemma {:induction false} TrimRightSplits(s: string, cut: char -> bool) returns (right: string)
    ensures s == TrimRight(s, cut) + right && forall i :: 0 <= i < |right| ==> cut(right[i])
  {
    if s != "" && cut(s[|s| - 1]) {
      var rest := TrimRightSplits(s[..|s| - 1], cut);
      right := rest + [s[|s| - 1]];
    } else {
      right := "";
    }
  }

  /** Only characters that are to be dropped are dropped. */
  lemma TrimSplits(s: string, cut: char -> bool) returns (left: string, right: string)
    ensures s == left + Trim(s, cut) + right
    ensures forall i :: 0 <= i < |left| ==> cut(left[i])
    ensures forall i :: 0 <= i < |right| ==> cut(right[i])
  {
    left := TrimLeftSplits(s, cut);
    right := TrimRightSplits(TrimLeft(s, cut), cut);
  }

  lemma TrimFixed(s: string, cut: char -> bool)
    requires Trimmed(s, cut)
    ensures Trim(s, cut) == s
  {
  }

  /** Trimming leaves nothing exactly of a string that is all padding. */
  lemma {:induction false} TrimmedAway(s: string, cut: char -> bool)
    ensures Trim(s, cut) == "" <==> forall i :: 0 <= i < |s| ==> cut(s[i])
    decreases |s|
  {
    if s != "" && cut(s[0]) {
      TrimmedAway(s[1..], cut);
      assert forall i :: 1 <= i < |s| ==> s[i] == s[1..][i - 1];
    } else if s != "" {
      TrimRightKeeps(s, cut);
    }
  }

  lemma {:induction false} TrimRightKeeps(s: string, cut: char -> bool)
    requires s != "" && !cut(s[0])
    ensures TrimRight(s, cut) != ""
    decreases |s|
  {
    if cut(s[|s| - 1]) {
      TrimRightKeeps(s[..|s| - 1], cut);
    }
  }

  /** Padding made of dropped characters disappears around a trimmed core. */
  lemma {:induction false} TrimPadded(left: string, core: string, right: string, cut: char -> bool)
    requires forall i :: 0 <= i < |left| ==> cut(left[i])
    requires forall i :: 0 <= i < |right| ==> cut(right[i])
    requires Trimmed(core, cut)
    ensures Trim(left + core + right, cut) == core
    decreases |left| + |right|, |right|
  {
    if left != "" {
      assert (left + core + right)[1..] == left[1..] + core + right;
      TrimPadded(left[1..], core, right, cut);
    } else if right != "" {
      if core == "" {
        assert left + core + right == right + core + left;
        TrimPadded(right, core, left, cut);
      } else {
        var s := core + right;
        assert left + core + right == s;
        assert s[..|s| - 1] == left + core + right[..|right| - 1];
        TrimPadded(left, core, right[..|right| - 1], cut);
      }
    } else {
      assert left + core + right == core;
    }
  }

  /** The decimal form of a number, as `%d` prints it. */
  function Decimal(n: nat): (s: string)
    ensures s != "" && forall i :: 0 <= i < |s| ==> '0' <= s[i] <= '9'
  {
    var digit := ['0' + (n % 10) as char];
    if n < 10 then digit else Decimal(n / 10) + digit
  }

  predicate AllDigits(s: string) { s != "" && forall i :: 0 <= i < |s| ==> '0' <= s[i] <= '9' }

  /** Reads a run of decimal digits back. */
  function Value(s: string): nat
    requires forall i :: 0 <= i < |s| ==> '0' <= s[i] <= '9'
  {
    if s == "" then 0 else 10 * Value(s[..|s| - 1]) + (s[|s| - 1] - '0') as nat
  }

  lemma {:induction false} DecimalValue(n: nat)
    ensures Value(Decimal(n)) == n
  {
    if n >= 10 {
      DecimalValue(n / 10);
      assert Decimal(n)[..|Decimal(n)| - 1] == Decimal(n / 10);
    }
  }
}
