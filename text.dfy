/** Python string operations the tool relies on, restricted to ASCII:
    whitespace and word characters, `str.strip`, `" ".join`, `str.split()`,
    the `in` substring test, `str(int)`, `str.replace` of one character, and
    the line iteration of a text file. */
module Text {
  import opened Common

  /** `str.isspace()` and the regular-expression class `\s` on ASCII:
      tab, line feed, vertical tab, form feed, carriage return, the four
      information separators 0x1C-0x1F, and space. */
  predicate IsSpace(c: char) {
    9 <= c as int <= 13 || 28 <= c as int <= 32
  }

  /** The regular-expression class `\w` on ASCII. */
  predicate IsWordChar(c: char) {
    'a' <= c <= 'z' || 'A' <= c <= 'Z' || '0' <= c <= '9' || c == '_'
  }

  predicate NoSpace(s: string) {
    forall i :: 0 <= i < |s| ==> !IsSpace(s[i])
  }

  predicate AllSpace(s: string) {
    forall i :: 0 <= i < |s| ==> IsSpace(s[i])
  }

  /** Neither end of `s` is whitespace. */
  predicate IsStripped(s: string) {
    s == [] || (!IsSpace(s[0]) && !IsSpace(s[|s| - 1]))
  }

  // ---------------------------------------------------------------- strip

  /** `str.lstrip()`: drops the leading whitespace and nothing else. */
  function TrimStart(s: string): (r: string)
    ensures |r| <= |s| && r == s[|s| - |r|..]
    ensures AllSpace(s[..|s| - |r|])
    ensures r == [] || !IsSpace(r[0])
    decreases |s|
  {
    if s != [] && IsSpace(s[0]) then
      var r := TrimStart(s[1..]);
      assert s[|s| - |r|..] == s[1..][|s| - 1 - |r|..];
      assert s[..|s| - |r|] == [s[0]] + s[1..][..|s| - 1 - |r|];
      r
    else s
  }

  /** `str.rstrip()`: drops the trailing whitespace and nothing else. */
  function TrimEnd(s: string): (r: string)
    ensures |r| <= |s| && r == s[..|r|]
    ensures AllSpace(s[|r|..])
    ensures r == [] || !IsSpace(r[|r| - 1])
    decreases |s|
  {
    if s != [] && IsSpace(s[|s| - 1]) then
      var p := s[..|s| - 1];
      var r := TrimEnd(p);
      assert s[..|r|] == p[..|r|];
      assert s[|r|..] == p[|r|..] + [s[|s| - 1]];
      r
    else s
  }

  /** `r` is a contiguous part of `s` with only whitespace on either side. */
  ghost predicate SpacedPiece(r: string, s: string) {
    exists i :: 0 <= i <= |s| - |r| && r == s[i..i + |r|] && AllSpace(s[..i]) && AllSpace(s[i + |r|..])
  }

  /** `str.strip()`: the result is a contiguous part of `s`, everything cut
      off on either side is whitespace, and neither end of the result is. */
  function Strip(s: string): (r: string)
    ensures IsStripped(r)
    ensures SpacedPiece(r, s)
  {
    var t := TrimStart(s);
    var r := TrimEnd(t);
    TrimmedPiece(s, t, r);
    r
  }

  /** A prefix `r` of a suffix `t` of `s`, with whitespace cut off on both
      sides, is a stripped piece of `s` with whitespace around it. */
  lemma TrimmedPiece(s: string, t: string, r: string)
    requires |t| <= |s| && t == s[|s| - |t|..] && AllSpace(s[..|s| - |t|])
    requires t == [] || !IsSpace(t[0])
    requires |r| <= |t| && r == t[..|r|] && AllSpace(t[|r|..])
    requires r == [] || !IsSpace(r[|r| - 1])
    ensures IsStripped(r)
    ensures SpacedPiece(r, s)
  {
    var i := |s| - |t|;
    assert s[i + |r|..] == t[|r|..];
    assert r == s[i..i + |r|];
    assert r != [] ==> r[0] == t[0];
  }

  /** Stripping twice is stripping once. */
  lemma StripIdempotent(s: string)
    ensures Strip(Strip(s)) == Strip(s)
  {
    var r := Strip(s);
    assert TrimStart(r) == r;
  }

  /** A text with no whitespace at all is its own strip. */
  lemma StripNoSpace(s: string)
    requires NoSpace(s)
    ensures Strip(s) == s
  {
    assert TrimStart(s) == s;
    assert TrimEnd(s) == s;
  }

  // ---------------------------------------------------------- join, split

  /** `sep.join(xs)` for a one-character separator. */
  function JoinWith(xs: seq<string>, sep: char): (r: string)
    ensures xs == [] ==> r == []
    ensures |xs| == 1 ==> r == xs[0]
  {
    if xs == [] then []
    else if |xs| == 1 then xs[0]
    else xs[0] + [sep] + JoinWith(xs[1..], sep)
  }

  /** `" ".join(xs)`. */
  function JoinSpace(xs: seq<string>): string {
    JoinWith(xs, ' ')
  }

  /** A word fit to survive `" ".join` followed by `str.split()`. */
  predicate IsToken(w: string) {
    w != [] && NoSpace(w)
  }

  /** The longest prefix of `s` that holds no whitespace. */
  function TakeWord(s: string): (r: string)
    ensures |r| <= |s| && r == s[..|r|]
    ensures NoSpace(r)
    ensures |r| < |s| ==> IsSpace(s[|r|])
    decreases |s|
  {
    if s == [] || IsSpace(s[0]) then [] else [s[0]] + TakeWord(s[1..])
  }

  /** `str.split()` with no separator: the maximal runs of non-whitespace
      characters, in order. */
  function SplitWhitespace(s: string): (r: seq<string>)
    ensures forall i :: 0 <= i < |r| ==> IsToken(r[i])
    decreases |s|
  {
    var t := TrimStart(s);
    if t == [] then []
    else
      var w := TakeWord(t);
      [w] + SplitWhitespace(t[|w|..])
  }

  lemma {:induction false} TakeWordOfJoin(w: string, rest: string)
    requires NoSpace(w)
    requires rest == [] || IsSpace(rest[0])
    ensures TakeWord(w + rest) == w
    decreases |w|
  {
    if w != [] {
      assert (w + rest)[1..] == w[1..] + rest;
      TakeWordOfJoin(w[1..], rest);
    }
  }

  /** `str.split()` undoes `" ".join` on tokens: saving a list of arguments
      joined by single spaces and splitting it again gives the list back. */
  lemma SplitJoinSpace(xs: seq<string>)
    requires forall i :: 0 <= i < |xs| ==> IsToken(xs[i])
    ensures SplitWhitespace(JoinSpace(xs)) == xs
  {
    SplitJoinSpaceThen(xs, []);
    assert JoinSpace(xs) + [] == JoinSpace(xs);
  }

  /** A word followed by whitespace or nothing is the first word of the split. */
  lemma {:induction false} SplitWordThen(w: string, rest: string)
    requires IsToken(w)
    requires rest == [] || IsSpace(rest[0])
    ensures SplitWhitespace(w + rest) == [w] + SplitWhitespace(rest)
  {
    var s := w + rest;
    assert s[0] == w[0];
    assert TrimStart(s) == s;
    TakeWordOfJoin(w, rest);
    assert s[|w|..] == rest;
  }

  /** Leading whitespace adds no word. */
  lemma {:induction false} SplitAfterSpace(pre: string, s: string)
    requires AllSpace(pre)
    ensures SplitWhitespace(pre + s) == SplitWhitespace(s)
    decreases |pre|
  {
    if pre == [] {
      assert pre + s == s;
    } else {
      assert (pre + s)[1..] == pre[1..] + s;
      assert TrimStart(pre + s) == TrimStart(pre[1..] + s);
      SplitAfterSpace(pre[1..], s);
    }
  }

  /** The text of a join of two or more words, followed by `tail`, is its
      first word, a space, and the rest. */
  lemma JoinSpaceUncons(xs: seq<string>, tail: string)
    requires |xs| >= 2
    ensures JoinSpace(xs) + tail == xs[0] + ([' '] + (JoinSpace(xs[1..]) + tail))
  {
    var w, rest := xs[0], JoinSpace(xs[1..]);
    assert JoinSpace(xs) == w + [' '] + rest;
    AppendAssoc(w + [' '], rest, tail);
    AppendAssoc(w, [' '], rest + tail);
  }

  /** One more token in front of a join whose split is known. */
  lemma {:induction false} SplitJoinSpaceCons(xs: seq<string>, tail: string)
    requires |xs| >= 2 && IsToken(xs[0])
    requires SplitWhitespace(JoinSpace(xs[1..]) + tail) == xs[1..]
    ensures SplitWhitespace(JoinSpace(xs) + tail) == xs
  {
    var more := JoinSpace(xs[1..]) + tail;
    var after := [' '] + more;
    JoinSpaceUncons(xs, tail);
    assert after[0] == ' ';
    calc {
      SplitWhitespace(JoinSpace(xs) + tail);
      SplitWhitespace(xs[0] + after);
      { SplitWordThen(xs[0], after); }
      [xs[0]] + SplitWhitespace(after);
      { SplitAfterSpace([' '], more); }
      [xs[0]] + xs[1..];
      xs;
    }
  }

  /** Whitespace alone splits into no words. */
  lemma {:induction false} SplitAllSpace(s: string)
    requires AllSpace(s)
    ensures SplitWhitespace(s) == []
  {
    assert TrimStart(s) == [];
  }

  /** One token and trailing whitespace split into that token. */
  lemma {:induction false} SplitJoinSpaceOne(xs: seq<string>, tail: string)
    requires |xs| == 1 && IsToken(xs[0]) && AllSpace(tail)
    ensures SplitWhitespace(JoinSpace(xs) + tail) == xs
  {
    var w := xs[0];
    assert xs == [w] && [w] + [] == [w];
    assert JoinSpace(xs) + tail == w + tail;
    SplitWordThen(w, tail);
    SplitAllSpace(tail);
  }

  /** Whitespace after the joined tokens adds no word. */
  lemma {:induction false} SplitJoinSpaceThen(xs: seq<string>, tail: string)
    requires forall i :: 0 <= i < |xs| ==> IsToken(xs[i])
    requires AllSpace(tail)
    ensures SplitWhitespace(JoinSpace(xs) + tail) == xs
    decreases |xs|
  {
    if xs == [] {
      assert JoinSpace(xs) + tail == tail;
      SplitAllSpace(tail);
    } else if |xs| == 1 {
      SplitJoinSpaceOne(xs, tail);
    } else {
      SplitJoinSpaceThen(xs[1..], tail);
      SplitJoinSpaceCons(xs, tail);
    }
  }

  /** `" ".join` of two non-empty lists is the two joins around one space. */
  lemma {:induction false} JoinSpaceAppend(a: seq<string>, b: seq<string>)
    requires a != [] && b != []
    ensures JoinSpace(a + b) == JoinSpace(a) + " " + JoinSpace(b)
    decreases |a|
  {
    if |a| == 1 {
      assert (a + b)[1..] == b;
    } else {
      assert (a + b)[1..] == a[1..] + b;
      JoinSpaceAppend(a[1..], b);
    }
  }

  /** One more word after `" ".join`, written as the text appended. */
  lemma JoinSpaceSnoc(ws: seq<string>, w: string, spaced: string)
    requires ws != [] && spaced == [' '] + w
    ensures JoinSpace(ws + [w]) == JoinSpace(ws) + spaced
  {
    JoinSpaceAppend(ws, [w]);
    assert JoinSpace(ws) + " " + w == JoinSpace(ws) + ([' '] + w);
  }

  /** An option and its value after `" ".join`, written as the text appended. */
  lemma JoinSpaceSnocPair(ws: seq<string>, flag: string, value: string, spaced: string)
    requires ws != [] && spaced == [' '] + flag + [' ']
    ensures JoinSpace(ws + [flag, value]) == JoinSpace(ws) + spaced + value
  {
    JoinSpaceAppend(ws, [flag, value]);
    assert JoinSpace([flag, value]) == flag + [' '] + value;
    assert JoinSpace(ws) + " " + (flag + [' '] + value) == JoinSpace(ws) + ([' '] + flag + [' ']) + value;
  }

  lemma NoSpaceConcat(a: string, b: string)
    requires NoSpace(a) && NoSpace(b)
    ensures NoSpace(a + b)
  {
  }

  lemma JoinStartsWithFirst(xs: seq<string>)
    requires xs != [] && IsToken(xs[0])
    ensures JoinSpace(xs) != [] && JoinSpace(xs)[0] == xs[0][0]
  {
  }

  /** `str.split(sep)`: the pieces between occurrences of `sep`, empty pieces
      included; never an empty list. */
  function SplitOn(s: string, sep: char): (r: seq<string>)
    ensures |r| >= 1
    decreases |s|
  {
    if s == [] then [[]]
    else
      var rest := SplitOn(s[1..], sep);
      if s[0] == sep then [[]] + rest else [[s[0]] + rest[0]] + rest[1..]
  }

  lemma {:induction false} SplitOnFree(a: string, sep: char)
    requires sep !in a
    ensures SplitOn(a, sep) == [a]
    decreases |a|
  {
    if a != [] {
      SplitOnFree(a[1..], sep);
      assert [a[0]] + a[1..] == a;
    }
  }

  lemma {:induction false} SplitOnAfterPiece(a: string, sep: char, b: string)
    requires sep !in a
    ensures SplitOn(a + [sep] + b, sep) == [a] + SplitOn(b, sep)
    decreases |a|
  {
    if a == [] {
      assert a + [sep] + b == [sep] + b;
      assert ([sep] + b)[1..] == b;
    } else {
      assert (a + [sep] + b)[1..] == a[1..] + [sep] + b;
      SplitOnAfterPiece(a[1..], sep, b);
      assert [a[0]] + a[1..] == a;
    }
  }

  // ---------------------------------------------------------- substrings

  /** `sub in s` for strings. */
  ghost predicate IsInfix(sub: string, s: string) {
    exists i :: InfixAt(sub, s, i)
  }

  /** `sub` occurs in `s` starting at position `i`. */
  predicate InfixAt(sub: string, s: string, i: int) {
    0 <= i <= |s| - |sub| && s[i..i + |sub|] == sub
  }

  /** Searches `s` for `sub` from the left. */
  function HasInfix(s: string, sub: string): (r: bool)
    ensures r <==> IsInfix(sub, s)
    decreases |s|
  {
    if |s| < |sub| then false
    else if s[..|sub|] == sub then
      assert InfixAt(sub, s, 0);
      true
    else
      var r := HasInfix(s[1..], sub);
      assert r ==> IsInfix(sub, s) by {
        if r {
          var i :| InfixAt(sub, s[1..], i);
          assert s[i + 1..i + 1 + |sub|] == s[1..][i..i + |sub|];
          assert InfixAt(sub, s, i + 1);
        }
      }
      assert IsInfix(sub, s) ==> r by {
        if IsInfix(sub, s) {
          var i :| InfixAt(sub, s, i);
          assert i != 0;
          assert s[1..][i - 1..i - 1 + |sub|] == s[i..i + |sub|];
          assert InfixAt(sub, s[1..], i - 1);
        }
      }
      r
  }

  // -------------------------------------------------------------- numbers

  function DigitChar(d: nat): (c: char)
    requires d < 10
    ensures '0' <= c <= '9'
  {
    "0123456789"[d]
  }

  /** `str(n)` for a natural number: its decimal digits, most significant first. */
  function NatToString(n: nat): (r: string)
    ensures r != []
    ensures forall i :: 0 <= i < |r| ==> '0' <= r[i] <= '9'
    decreases n
  {
    if n < 10 then [DigitChar(n)] else NatToString(n / 10) + [DigitChar(n % 10)]
  }

  /** The value of a string of decimal digits. */
  function DecimalValue(s: string): nat
    requires forall i :: 0 <= i < |s| ==> '0' <= s[i] <= '9'
    decreases |s|
  {
    if s == [] then 0
    else 10 * DecimalValue(s[..|s| - 1]) + (s[|s| - 1] as int - '0' as int)
  }

  /** Reading the decimal digits back gives the number: the counters printed
      into command lines (`-d=`, `-D=`) determine their values. */
  lemma {:induction false} DecimalValueOfNat(n: nat)
    ensures DecimalValue(NatToString(n)) == n
    decreases n
  {
    if n >= 10 {
      var s := NatToString(n);
      assert s[..|s| - 1] == NatToString(n / 10);
      DecimalValueOfNat(n / 10);
    }
  }

  /** `str(i)` for any integer. */
  function IntToString(i: int): (r: string)
    ensures IsToken(r)
    ensures i >= 0 ==> r == NatToString(i)
    ensures i < 0 ==> r == "-" + NatToString(-i)
  {
    if i < 0 then "-" + NatToString(-i) else NatToString(i)
  }

  /** `s.replace(a, b)` for one-character texts. */
  function ReplaceChar(s: string, a: char, b: char): (r: string)
    ensures |r| == |s|
    ensures forall i :: 0 <= i < |s| ==> r[i] == (if s[i] == a then b else s[i])
    ensures a != b ==> a !in r
  {
    seq(|s|, i requires 0 <= i < |s| => if s[i] == a then b else s[i])
  }

  // ---------------------------------------------------------------- lines

  /** Iterating over a text file opened with `open()`: each line keeps its
      terminating line feed, the last one may have none, an empty file has
      no lines. */
  function SplitLines(s: string): (r: seq<string>)
    ensures forall i :: 0 <= i < |r| ==> r[i] != []
    decreases |s|
  {
    if s == [] then []
    else
      var w := LineOf(s);
      [w] + SplitLines(s[|w|..])
  }

  /** A character absent from a text is absent from each of its lines. */
  lemma {:induction false} SplitLinesLeaveOut(s: string, c: char)
    requires c !in s
    ensures forall i :: 0 <= i < |SplitLines(s)| ==> c !in SplitLines(s)[i]
    decreases |s|
  {
    if s != [] {
      var w := LineOf(s);
      assert forall k :: 0 <= k < |w| ==> w[k] == s[k];
      SplitLinesLeaveOut(s[|w|..], c);
      assert SplitLines(s) == [w] + SplitLines(s[|w|..]);
    }
  }

  /** The first line of a non-empty text, line feed included. */
  function LineOf(s: string): (r: string)
    requires s != []
    ensures 0 < |r| <= |s| && r == s[..|r|]
    ensures forall i :: 0 <= i < |r| - 1 ==> r[i] != '\n'
    ensures |r| < |s| ==> r[|r| - 1] == '\n'
    decreases |s|
  {
    if s[0] == '\n' || |s| == 1 then [s[0]]
    else [s[0]] + LineOf(s[1..])
  }

  /** Reading in text mode with universal newlines: a carriage return with a
      line feed after it, or a lone one, becomes one line feed. */
  function TranslateNewlines(s: string): (r: string)
    ensures '\r' !in r
    ensures '\r' !in s ==> r == s
    decreases |s|
  {
    if s == [] then []
    else if s[0] == '\r' then "\n" + TranslateNewlines(if |s| > 1 && s[1] == '\n' then s[2..] else s[1..])
    else
      assert '\r' !in s ==> '\r' !in s[1..] by {
        if '\r' in s[1..] {
          var k :| 0 <= k < |s[1..]| && s[1..][k] == '\r';
          assert s[k + 1] == '\r';
        }
      }
      [s[0]] + TranslateNewlines(s[1..])
  }

  /** A text without carriage returns passes through unchanged ahead of the rest. */
  lemma {:induction false} TranslateAfterPlain(a: string, b: string)
    requires '\r' !in a
    ensures TranslateNewlines(a + b) == a + TranslateNewlines(b)
    decreases |a|
  {
    if a == [] {
      assert a + b == b;
    } else {
      var c, t := a[0], a[1..];
      assert c in a;
      assert (a + b)[0] == c && (a + b)[1..] == t + b;
      TranslateAfterPlain(t, b);
      calc {
        TranslateNewlines(a + b);
        [c] + TranslateNewlines(t + b);
        [c] + (t + TranslateNewlines(b));
        { AppendAssoc([c], t, TranslateNewlines(b)); assert [c] + t == a; }
        a + TranslateNewlines(b);
      }
    }
  }

  /** A carriage return ends a line: with a line feed after it the two become
      one line feed, and alone it becomes one too. */
  lemma CarriageReturnEndsLine(a: string, b: string)
    requires '\r' !in a && '\r' !in b
    ensures TranslateNewlines(a + "\r\n" + b) == a + "\n" + b
    ensures b == [] || b[0] != '\n' ==> TranslateNewlines(a + "\r" + b) == a + "\n" + b
  {
    assert TranslateNewlines(a + "\r\n" + b) == a + "\n" + b by {
      var crlf := "\r\n" + b;
      assert a + "\r\n" + b == a + crlf;
      TranslateAfterPlain(a, crlf);
      assert crlf[0] == '\r' && crlf[1] == '\n' && crlf[2..] == b;
      assert TranslateNewlines(crlf) == "\n" + b;
      AppendAssoc(a, "\n", b);
    }
    if b == [] || b[0] != '\n' {
      assert TranslateNewlines(a + "\r" + b) == a + "\n" + b by {
        var cr := "\r" + b;
        assert a + "\r" + b == a + cr;
        TranslateAfterPlain(a, cr);
        assert cr[0] == '\r' && cr[1..] == b;
        assert TranslateNewlines(cr) == "\n" + b;
        AppendAssoc(a, "\n", b);
      }
    }
  }

  function Concat(lines: seq<string>): string {
    if lines == [] then [] else lines[0] + Concat(lines[1..])
  }

  lemma ConcatCons(w: string, rest: seq<string>)
    ensures Concat([w] + rest) == w + Concat(rest)
  {
    assert ([w] + rest)[1..] == rest;
  }

  /** Splitting a text into lines loses nothing: the lines put back together
      are the text. */
  lemma {:induction false} SplitLinesConcat(s: string)
    ensures Concat(SplitLines(s)) == s
    decreases |s|
  {
    if s != [] {
      var w := LineOf(s);
      var tail := s[|w|..];
      SplitLinesConcat(tail);
      ConcatCons(w, SplitLines(tail));
      assert w + tail == s;
    }
  }
}
