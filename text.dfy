/** The parts of Rust's `str` API that the command handlers use to take
    apart command-line output, with the semantics of the Rust standard
    library: `trim`, `split(char)`, `split_whitespace`, `lines`,
    `contains`, `starts_with`/`strip_prefix`, `replace`, ASCII case
    mapping and `u8::from_str`, plus `{}` formatting of unsigned integers. */
module Text {
  import opened Base

  /** `char::is_whitespace`: the Unicode White_Space property. */
  predicate IsWhitespace(c: char) {
    c == ' ' || ('\t' <= c <= '\r') || c == '\U{85}' || c == '\U{A0}' || c == '\U{1680}'
    || ('\U{2000}' <= c <= '\U{200A}') || c == '\U{2028}' || c == '\U{2029}'
    || c == '\U{202F}' || c == '\U{205F}' || c == '\U{3000}'
  }

  predicate NoWhitespace(s: string) {
    forall i :: 0 <= i < |s| ==> !IsWhitespace(s[i])
  }

  /** Nothing but white space (or nothing at all). */
  predicate Blank(s: string) {
    forall i :: 0 <= i < |s| ==> IsWhitespace(s[i])
  }

  /** `char::is_ascii_digit`. */
  predicate IsAsciiDigit(c: char) {
    '0' <= c <= '9'
  }

  predicate AllDigits(s: string) {
    forall i :: 0 <= i < |s| ==> IsAsciiDigit(s[i])
  }

  // ---------------------------------------------------------------- trimming

  /** `str::trim_start`. */
  function TrimStart(s: string): (r: string)
    ensures |r| <= |s| && r == s[|s| - |r|..]
    ensures r != [] ==> !IsWhitespace(r[0])
    ensures forall i :: 0 <= i < |s| - |r| ==> IsWhitespace(s[i])
  {
    if s != [] && IsWhitespace(s[0]) then TrimStart(s[1..]) else s
  }

  /** `str::trim_end`. */
  function TrimEnd(s: string): (r: string)
    ensures |r| <= |s| && r == s[..|r|]
    ensures r != [] ==> !IsWhitespace(r[|r| - 1])
    ensures forall i :: |r| <= i < |s| ==> IsWhitespace(s[i])
  {
    if s != [] && IsWhitespace(s[|s| - 1]) then TrimEnd(s[..|s| - 1]) else s
  }

  /** `str::trim`: the text between the leading and the trailing white
      space; empty exactly when the input is all white space. */
  function Trim(s: string): (r: string)
    ensures r != [] ==> !IsWhitespace(r[0]) && !IsWhitespace(r[|r| - 1])
    ensures r == [] <==> Blank(s)
    ensures forall c :: c in r ==> c in s
  {
    var t := TrimStart(s);
    var r := TrimEnd(t);
    assert r != [] ==> r[0] == t[0];
    assert forall c :: c in r ==> c in t;
    assert t == [] <==> Blank(s) by {
      if t != [] {
        assert !IsWhitespace(s[|s| - |t|]);
      }
    }
    r
  }

  /** Non-empty, with no white space at either end: what a non-empty
      `trim` gives. */
  predicate Trimmed(s: string) {
    s != [] && !IsWhitespace(s[0]) && !IsWhitespace(s[|s| - 1])
  }

  /** A word without white space is its own trim. */
  lemma TrimWord(w: string)
    requires w != [] && NoWhitespace(w)
    ensures Trim(w) == w
  {
    assert !IsWhitespace(w[0]) && !IsWhitespace(w[|w| - 1]);
  }

  /** `str::trim_end_matches(c)` for a single character. */
  function TrimEndMatches(s: string, c: char): (r: string)
    ensures |r| <= |s| && r == s[..|r|]
    ensures r != [] ==> r[|r| - 1] != c
    ensures forall i :: |r| <= i < |s| ==> s[i] == c
  {
    if s != [] && s[|s| - 1] == c then TrimEndMatches(s[..|s| - 1], c) else s
  }

  // --------------------------------------------------------------- splitting

  /** `str::split(sep)`: always at least one piece. */
  function SplitOn(s: string, sep: char): (parts: seq<string>)
    ensures |parts| >= 1
  {
    if s == [] then [[]]
    else
      var rest := SplitOn(s[1..], sep);
      if s[0] == sep then [[]] + rest
      else [[s[0]] + rest[0]] + rest[1..]
  }

  /** No piece holds the separator. */
  lemma {:induction false} SplitOnNoSep(s: string, sep: char)
    ensures forall i :: 0 <= i < |SplitOn(s, sep)| ==> sep !in SplitOn(s, sep)[i]
  {
    if s != [] {
      SplitOnNoSep(s[1..], sep);
      var rest := SplitOn(s[1..], sep);
      if s[0] != sep {
        assert forall c :: c in [s[0]] + rest[0] ==> c == s[0] || c in rest[0];
      }
    }
  }

  lemma FirstFieldHasNoSep(s: string, sep: char)
    ensures sep !in SplitOn(s, sep)[0]
  {
    SplitOnNoSep(s, sep);
  }

  /** Text without the separator is one piece, and only such text is. */
  lemma {:induction false} SplitOnSingle(s: string, sep: char)
    ensures |SplitOn(s, sep)| == 1 <==> sep !in s
    ensures sep !in s ==> SplitOn(s, sep) == [s]
  {
    if s != [] {
      SplitOnSingle(s[1..], sep);
      assert s == [s[0]] + s[1..];
    }
  }

  /** `pieces.join(sep)`. */
  function JoinOn(parts: seq<string>, sep: char): string
    requires |parts| >= 1
  {
    if |parts| == 1 then parts[0] else parts[0] + [sep] + JoinOn(parts[1..], sep)
  }

  /** Splitting and joining on the same separator gives back the text. */
  lemma {:induction false} SplitJoin(s: string, sep: char)
    ensures JoinOn(SplitOn(s, sep), sep) == s
  {
    if s != [] {
      SplitJoin(s[1..], sep);
      var rest := SplitOn(s[1..], sep);
      if s[0] == sep {
        JoinLeadingEmpty(rest, sep);
      } else {
        JoinExtendFirst(s[0], rest, sep);
      }
      assert s == [s[0]] + s[1..];
    }
  }

  /** An empty first piece joins to a leading separator. */
  lemma JoinLeadingEmpty(parts: seq<string>, sep: char)
    requires |parts| >= 1
    ensures JoinOn([[]] + parts, sep) == [sep] + JoinOn(parts, sep)
  {
    assert ([[]] + parts)[1..] == parts;
  }

  /** A character put in front of the first piece comes first in the join. */
  lemma JoinExtendFirst(h: char, parts: seq<string>, sep: char)
    requires |parts| >= 1
    ensures JoinOn([[h] + parts[0]] + parts[1..], sep) == [h] + JoinOn(parts, sep)
  {
    var extended := [[h] + parts[0]] + parts[1..];
    if |parts| > 1 {
      assert extended[1..] == parts[1..];
    }
  }

  /** A separator between two texts separates their pieces. */
  lemma {:induction false} SplitAppend(x: string, y: string, sep: char)
    ensures SplitOn(x + [sep] + y, sep) == SplitOn(x, sep) + SplitOn(y, sep)
  {
    var s := x + [sep] + y;
    if x == [] {
      assert s[1..] == y;
    } else {
      var x' := x[1..];
      assert s[1..] == x' + [sep] + y;
      SplitAppend(x', y, sep);
      SplitAppendStep(x, y, sep);
    }
  }

  lemma SplitAppendStep(x: string, y: string, sep: char)
    requires x != []
    requires SplitOn(x[1..] + [sep] + y, sep) == SplitOn(x[1..], sep) + SplitOn(y, sep)
    ensures SplitOn(x + [sep] + y, sep) == SplitOn(x, sep) + SplitOn(y, sep)
  {
    var t := x[1..] + [sep] + y;
    assert x + [sep] + y == [x[0]] + t;
    assert x == [x[0]] + x[1..];
    SplitOnCons(x[0], t, sep);
    SplitOnCons(x[0], x[1..], sep);
    if x[0] != sep {
      ExtendFirst(x[0], SplitOn(x[1..], sep), SplitOn(y, sep));
    } else {
      PrependOne([], SplitOn(x[1..], sep), SplitOn(y, sep));
    }
  }

  /** One character in front: a separator starts a new piece, anything
      else extends the first one. */
  lemma SplitOnCons(c: char, t: string, sep: char)
    ensures SplitOn([c] + t, sep) == if c == sep then [[]] + SplitOn(t, sep)
                                     else [[c] + SplitOn(t, sep)[0]] + SplitOn(t, sep)[1..]
  {
    assert ([c] + t)[1..] == t;
  }

  /** Extending the first piece commutes with appending more pieces. */
  lemma ExtendFirst<T>(h: T, front: seq<seq<T>>, back: seq<seq<T>>)
    requires front != []
    ensures [[h] + (front + back)[0]] + (front + back)[1..] == ([[h] + front[0]] + front[1..]) + back
  {
    assert (front + back)[1..] == front[1..] + back;
  }

  /** Prepending a piece commutes with appending more pieces. */
  lemma PrependOne<T>(h: T, front: seq<T>, back: seq<T>)
    ensures [h] + (front + back) == ([h] + front) + back
  {
  }

  /** The position of the last `c` in `s` (`rfind`). */
  function LastIndex(s: string, c: char): (r: Option<nat>)
    ensures r.Some? ==> r.value < |s| && s[r.value] == c && c !in s[r.value + 1..]
    ensures r.None? ==> c !in s
  {
    if s == [] then None
    else if s[|s| - 1] == c then Some(|s| - 1)
    else
      var r := LastIndex(s[..|s| - 1], c);
      assert r.Some? ==> s[r.value + 1..] == s[..|s| - 1][r.value + 1..] + [s[|s| - 1]];
      assert r.None? ==> s == s[..|s| - 1] + [s[|s| - 1]];
      r
  }

  /** `s.split(sep).nth(1)`: the text between the first and the second
      separator (or the end). */
  function SecondField(s: string, sep: char): (r: Option<string>)
    ensures r.Some? <==> sep in s
    ensures r.Some? ==> sep !in r.value
    ensures r.Some? ==> exists a :: LeadingFields(s, sep, a, r.value)
  {
    SplitOnSingle(s, sep);
    SplitOnNoSep(s, sep);
    var parts := SplitOn(s, sep);
    if |parts| >= 2 then
      SplitFirstTwo(s, sep);
      Some(parts[1])
    else None
  }

  /** The first two `sep`-separated fields of `t` are `a` and `b`. */
  predicate LeadingFields(t: string, sep: char, a: string, b: string) {
    sep !in a && sep !in b && (t == a + [sep] + b || a + [sep] + b + [sep] <= t)
  }

  lemma SplitFirstTwo(s: string, sep: char)
    requires sep in s
    ensures var p := SplitOn(s, sep); |p| >= 2 && LeadingFields(s, sep, p[0], p[1])
  {
    var p := SplitOn(s, sep);
    SplitOnSingle(s, sep);
    SplitOnNoSep(s, sep);
    SplitJoin(s, sep);
    var q := p[1..];
    assert s == p[0] + [sep] + JoinOn(q, sep);
    if |q| > 1 {
      var rest := JoinOn(q[1..], sep);
      assert JoinOn(q, sep) == q[0] + [sep] + rest;
      var head := p[0] + [sep] + p[1] + [sep];
      assert s == head + rest;
      assert head <= s;
    }
  }

  /** The first two `sep`-separated fields, when there are at least two. */
  function FirstTwoFields(s: string, sep: char): (r: Option<(string, string)>)
    ensures r.Some? <==> sep in s
    ensures r.Some? ==> LeadingFields(s, sep, r.value.0, r.value.1)
  {
    SplitOnSingle(s, sep);
    var parts := SplitOn(s, sep);
    if |parts| >= 2 then
      SplitFirstTwo(s, sep);
      Some((parts[0], parts[1]))
    else None
  }

  /** `str::split_whitespace`: the maximal runs of non-white-space
      characters, in order; the first token is the leading run. */
  function SplitWhitespace(s: string): (tokens: seq<string>)
    ensures forall i :: 0 <= i < |tokens| ==> tokens[i] != [] && NoWhitespace(tokens[i])
    ensures s != [] && !IsWhitespace(s[0]) ==>
              tokens != [] && tokens[0] <= s && (|tokens[0]| == |s| || IsWhitespace(s[|tokens[0]|]))
    ensures tokens == [] <==> forall i :: 0 <= i < |s| ==> IsWhitespace(s[i])
  {
    if s == [] then []
    else
      var rest := SplitWhitespace(s[1..]);
      if IsWhitespace(s[0]) then rest
      else if |s| > 1 && !IsWhitespace(s[1]) then [[s[0]] + rest[0]] + rest[1..]
      else [[s[0]]] + rest
  }

  // ------------------------------------------------------------------- lines

  /** Drops the `\r` of a `\r\n` line ending. */
  function StripCr(p: string): (r: string)
    ensures |r| <= |p| && r == p[..|r|]
  {
    if p != [] && p[|p| - 1] == '\r' then p[..|p| - 1] else p
  }

  /** `str::lines`: the text split at `\n`, a `\r` before the `\n` removed,
      and no final empty line after a trailing `\n`. */
  function Lines(s: string): (lines: seq<string>)
    ensures forall i :: 0 <= i < |lines| ==> '\n' !in lines[i]
  {
    var pieces := SplitOn(s, '\n');
    SplitOnNoSep(s, '\n');
    var last := pieces[|pieces| - 1];
    var terminated := StripEachCr(pieces[..|pieces| - 1]);
    assert forall i :: 0 <= i < |terminated| ==> '\n' !in terminated[i] by {
      forall i | 0 <= i < |terminated| ensures '\n' !in terminated[i] {
        assert '\n' !in pieces[i];
        assert forall c :: c in terminated[i] ==> c in pieces[i];
      }
    }
    terminated + (if last == [] then [] else [last])
  }

  /** Every piece with its trailing `\r` removed. */
  function StripEachCr(pieces: seq<string>): (r: seq<string>)
    ensures |r| == |pieces|
    ensures forall i :: 0 <= i < |pieces| ==> r[i] == StripCr(pieces[i])
  {
    seq(|pieces|, i requires 0 <= i < |pieces| => StripCr(pieces[i]))
  }

  /** The text before the first `\n` is the first line. */
  lemma LinesCons(h: string, rest: string)
    requires '\n' !in h
    ensures Lines(h + "\n" + rest) == [StripCr(h)] + Lines(rest)
  {
    var s := h + "\n" + rest;
    assert s == h + ['\n'] + rest;
    SplitAppend(h, rest, '\n');
    var tail := SplitOn(rest, '\n');
    var pieces := SplitOn(s, '\n');
    SplitOnSingle(h, '\n');
    assert pieces == [h] + tail;
    assert pieces[..|pieces| - 1] == [h] + tail[..|tail| - 1];
    assert StripEachCr([h] + tail[..|tail| - 1]) == [StripCr(h)] + StripEachCr(tail[..|tail| - 1]);
    assert pieces[|pieces| - 1] == tail[|tail| - 1];
  }

  // --------------------------------------------------------- search, replace

  /** `str::contains` for a string pattern. */
  predicate Contains(s: string, sub: string) {
    sub <= s || (s != [] && Contains(s[1..], sub))
  }

  lemma {:induction false} ContainsInfix(a: string, b: string, c: string)
    ensures Contains(a + b + c, b)
  {
    if a != [] {
      assert (a + b + c)[1..] == a[1..] + b + c;
      ContainsInfix(a[1..], b, c);
    }
  }

  /** `s.strip_prefix(p)`. */
  function StripPrefix(s: string, p: string): (r: Option<string>)
    ensures r.Some? <==> p <= s
    ensures r.Some? ==> s == p + r.value
  {
    if p <= s then Some(s[|p|..]) else None
  }

  /** `s.replace(pat, "")`: every non-overlapping occurrence of `pat`,
      scanning from the left, removed. */
  function RemoveAll(s: string, pat: string): (r: string)
    requires pat != []
    ensures |r| <= |s|
  {
    if |s| < |pat| then s
    else if pat <= s then RemoveAll(s[|pat|..], pat)
    else [s[0]] + RemoveAll(s[1..], pat)
  }

  /** A leading occurrence of the pattern is removed like the others. */
  lemma RemoveAllLeading(pat: string, rest: string)
    requires pat != []
    ensures RemoveAll(pat + rest, pat) == RemoveAll(rest, pat)
  {
    assert (pat + rest)[|pat|..] == rest;
  }

  /** Text without the pattern is left as it is. */
  lemma {:induction false} RemoveAllAbsent(s: string, pat: string)
    requires pat != [] && !Contains(s, pat)
    ensures RemoveAll(s, pat) == s
  {
    if |s| >= |pat| {
      RemoveAllAbsent(s[1..], pat);
    }
  }

  // ------------------------------------------------------------ case mapping

  function LowerChar(c: char): char {
    if 'A' <= c <= 'Z' then (c as int + 32) as char else c
  }

  function UpperChar(c: char): (r: char)
    ensures 'a' <= r <= 'z' ==> false
  {
    if 'a' <= c <= 'z' then (c as int - 32) as char else c
  }

  /** `str::to_lowercase` restricted to ASCII letters. */
  function ToLower(s: string): (r: string)
    ensures |r| == |s|
    ensures forall i :: 0 <= i < |s| ==> r[i] == LowerChar(s[i])
  {
    seq(|s|, i requires 0 <= i < |s| => LowerChar(s[i]))
  }

  /** `str::to_uppercase` restricted to ASCII letters. */
  function ToUpper(s: string): (r: string)
    ensures |r| == |s|
    ensures forall i :: 0 <= i < |s| ==> r[i] == UpperChar(s[i])
  {
    seq(|s|, i requires 0 <= i < |s| => UpperChar(s[i]))
  }

  /** `str::replace(from, to)` for single characters. */
  function ReplaceChar(s: string, from: char, to: char): (r: string)
    ensures |r| == |s|
    ensures forall i :: 0 <= i < |s| ==> r[i] == if s[i] == from then to else s[i]
  {
    seq(|s|, i requires 0 <= i < |s| => if s[i] == from then to else s[i])
  }

  // ------------------------------------------------------- decimal numbers

  function DigitValue(c: char): nat
    requires IsAsciiDigit(c)
  {
    c as int - '0' as int
  }

  function DigitChar(d: nat): (c: char)
    requires d < 10
    ensures IsAsciiDigit(c) && DigitValue(c) == d
  {
    ('0' as int + d) as char
  }

  /** The number a string of decimal digits denotes (leading zeros allowed). */
  function DigitsValue(s: string): nat
    requires AllDigits(s)
  {
    if s == [] then 0 else DigitsValue(s[..|s| - 1]) * 10 + DigitValue(s[|s| - 1])
  }

  /** `format!("{}", n)` for an unsigned integer: the shortest decimal
      numeral of `n`, which denotes `n`. */
  function Decimal(n: nat): (r: string)
    ensures r != [] && AllDigits(r) && DigitsValue(r) == n
    ensures r[0] == '0' ==> n == 0
  {
    if n < 10 then [DigitChar(n)]
    else
      var front := Decimal(n / 10);
      var r := front + [DigitChar(n % 10)];
      assert r[..|r| - 1] == front;
      r
  }

  /** The digits of an unsigned numeral: a leading `+` is accepted. */
  function UnsignedDigits(s: string): string {
    if s != [] && s[0] == '+' then s[1..] else s
  }

  /** `str::parse::<u8>()`: an optional `+`, then one or more ASCII
      digits whose value fits in eight bits. */
  function ParseU8(s: string): (r: Option<U8>)
    ensures r.Some? ==> var digits := UnsignedDigits(s); digits != [] && AllDigits(digits) && DigitsValue(digits) == r.value
    ensures r.None? ==> var digits := UnsignedDigits(s); digits == [] || !AllDigits(digits) || DigitsValue(digits) >= 256
  {
    var digits := UnsignedDigits(s);
    if digits != [] && AllDigits(digits) && DigitsValue(digits) < 256 then Some(DigitsValue(digits)) else None
  }

  /** Parsing the numeral of `n` gives back `n` exactly when `n` fits in a
      `u8`. */
  lemma ParseU8Decimal(n: nat)
    ensures ParseU8(Decimal(n)) == if n < 256 then Some(n) else None
  {
    var d := Decimal(n);
    assert d[0] != '+';
  }
}
