/**
 * The pieces of Go's `strings` and `fmt` packages the client relies on:
 * `strings.Split`/`strings.Join` with the separator ".", the `%d` verb for
 * integers and the `%q` verb for strings.
 */
module Strings {

  /** The number of "." characters in `s`. */
  function Dots(s: string): nat
  {
    if s == [] then 0 else (if s[0] == '.' then 1 else 0) + Dots(s[1..])
  }

  lemma {:induction false} DotsAppend(a: string, b: string)
    ensures Dots(a + b) == Dots(a) + Dots(b)
  {
    if a == [] {
      assert a + b == b;
    } else {
      assert (a + b)[1..] == a[1..] + b;
      DotsAppend(a[1..], b);
    }
  }

  lemma {:induction false} NoDotsMeansZero(s: string)
    ensures '.' !in s <==> Dots(s) == 0
  {
    if s != [] {
      NoDotsMeansZero(s[1..]);
      assert s == [s[0]] + s[1..];
    }
  }

  /** The position of the first "." in `s`. */
  function FirstDot(s: string): (i: nat)
    requires '.' in s
    ensures i < |s| && s[i] == '.' && '.' !in s[..i]
  {
    if s[0] == '.' then 0
    else
      assert '.' in s[1..] by { assert s == [s[0]] + s[1..]; }
      var j := FirstDot(s[1..]);
      assert s[..j + 1] == [s[0]] + s[1..][..j];
      j + 1
  }

  /**
   * `strings.Split(s, ".")`: the maximal dot-free pieces of `s`, in order.
   * A string without "." is its own single piece (the empty string included),
   * and every "." adds one piece.
   */
  function Split(s: string): (parts: seq<string>)
    ensures |parts| >= 1
    ensures forall i :: 0 <= i < |parts| ==> '.' !in parts[i]
    ensures |parts| == 1 <==> '.' !in s
    decreases |s|
  {
    if '.' !in s then [s]
    else
      var i := FirstDot(s);
      [s[..i]] + Split(s[i + 1..])
  }

  /** `strings.Join(parts, ".")`. */
  function Join(parts: seq<string>): (r: string)
    ensures parts == [] ==> r == ""
    ensures |parts| > 0 ==> parts[0] <= r
    decreases |parts|
  {
    if |parts| == 0 then ""
    else if |parts| == 1 then parts[0]
    else parts[0] + "." + Join(parts[1..])
  }

  /** Joining two non-empty lists of pieces puts exactly one "." between them. */
  lemma {:induction false} JoinAppend(a: seq<string>, b: seq<string>)
    requires |a| > 0 && |b| > 0
    ensures Join(a + b) == Join(a) + "." + Join(b)
  {
    if |a| == 1 {
      assert (a + b)[1..] == b;
    } else {
      assert (a + b)[1..] == a[1..] + b;
      JoinAppend(a[1..], b);
    }
  }

  /** Splitting and rejoining on "." gives back the original string. */
  lemma {:induction false} JoinSplit(s: string)
    ensures Join(Split(s)) == s
    decreases |s|
  {
    if '.' in s {
      var i := FirstDot(s);
      var head, tail := s[..i], s[i + 1..];
      SplitAtFirstDot(s);
      JoinSplit(tail);
      JoinCons(head, Split(tail));
      CutAt(s, i);
    }
  }

  lemma SplitAtFirstDot(s: string)
    requires '.' in s
    ensures var i := FirstDot(s); Split(s) == [s[..i]] + Split(s[i + 1..])
  {
  }

  lemma CutAt(s: string, i: nat)
    requires i < |s| && s[i] == '.'
    ensures s == s[..i] + "." + s[i + 1..]
  {
  }

  /** Joining a piece in front of a non-empty list adds it and one ".". */
  lemma JoinCons(head: string, rest: seq<string>)
    requires |rest| > 0
    ensures Join([head] + rest) == head + "." + Join(rest)
  {
    assert ([head] + rest)[1..] == rest;
  }

  /** A "." placed after a dot-free prefix is the first one. */
  lemma SplitDotJoin(p: string, s: string)
    requires '.' !in p
    ensures Split(p + "." + s) == [p] + Split(s)
  {
    var t := p + "." + s;
    assert t[|p|] == '.';
    var i := FirstDot(t);
    assert i == |p|;
    assert t[..i] == p && t[i + 1..] == s;
  }

  /** Joining dot-free pieces and splitting again gives back the pieces. */
  lemma {:induction false} SplitJoin(parts: seq<string>)
    requires |parts| > 0
    requires forall i :: 0 <= i < |parts| ==> '.' !in parts[i]
    ensures Split(Join(parts)) == parts
  {
    if |parts| > 1 {
      SplitJoin(parts[1..]);
      SplitDotJoin(parts[0], Join(parts[1..]));
    }
  }

  /** The dot count of a joined list: the pieces' own dots plus one per separator. */
  lemma {:induction false} DotsJoin(parts: seq<string>)
    requires |parts| > 0
    requires forall i :: 0 <= i < |parts| ==> '.' !in parts[i]
    ensures Dots(Join(parts)) == |parts| - 1
  {
    NoDotsMeansZero(parts[0]);
    if |parts| > 1 {
      DotsJoin(parts[1..]);
      DotsAppend(parts[0] + ".", Join(parts[1..]));
      DotsAppend(parts[0], ".");
    }
  }

  // ---- the %d verb ----

  function DigitChar(d: nat): char
    requires d < 10
  {
    "0123456789"[d]
  }

  function DigitValue(c: char): nat
  {
    if '0' <= c <= '9' then (c as int - '0' as int) as nat else 0
  }

  predicate IsDigit(c: char) { '0' <= c <= '9' }

  /** The decimal digits of `n`, most significant first, with no leading zero. */
  function NatDigits(n: nat): (s: string)
    ensures |s| > 0
    ensures forall i :: 0 <= i < |s| ==> IsDigit(s[i])
    ensures |s| > 1 ==> s[0] != '0'
  {
    if n < 10 then [DigitChar(n)] else NatDigits(n / 10) + [DigitChar(n % 10)]
  }

  /** The value of a string of decimal digits (the reference reading of `NatDigits`). */
  function DigitsValue(s: string): nat
  {
    if s == [] then 0 else DigitsValue(s[..|s| - 1]) * 10 + DigitValue(s[|s| - 1])
  }

  lemma {:induction false} DigitsRoundTrip(n: nat)
    ensures DigitsValue(NatDigits(n)) == n
  {
    var s := NatDigits(n);
    if n < 10 {
      assert s[..|s| - 1] == [];
    } else {
      DigitsRoundTrip(n / 10);
      assert s[..|s| - 1] == NatDigits(n / 10);
    }
  }

  /** `fmt.Sprintf("%d", n)`: a minus sign for negative values, then the digits. */
  function Decimal(n: int): (s: string)
    ensures |s| > 0 && ':' !in s
    ensures n >= 0 <==> IsDigit(s[0])
  {
    if n >= 0 then NatDigits(n) else "-" + NatDigits(-n)
  }

  /** Distinct natural numbers have distinct digit strings. */
  lemma NatDigitsInjective(a: nat, b: nat)
    requires NatDigits(a) == NatDigits(b)
    ensures a == b
  {
    DigitsRoundTrip(a);
    DigitsRoundTrip(b);
  }

  /** Reading the `%d` text back gives the number: different numbers print differently. */
  lemma DecimalInjective(m: int, n: int)
    requires Decimal(m) == Decimal(n)
    ensures m == n
  {
    if m >= 0 {
      NatDigitsInjective(m, n);
    } else {
      assert Decimal(m)[1..] == Decimal(n)[1..];
      NatDigitsInjective(-m, -n);
    }
  }

  // ---- the %q verb ----

  /** The body of a Go double-quoted literal: backslash and double quote are escaped. */
  function Escape(s: string): (e: string)
    ensures |e| >= |s|
  {
    if s == [] then ""
    else (if s[0] == '"' || s[0] == '\\' then ['\\', s[0]] else [s[0]]) + Escape(s[1..])
  }

  /** `fmt.Sprintf("%q", s)`. */
  function Quote(s: string): (q: string)
    ensures |q| >= 2 && q[0] == '"' && q[|q| - 1] == '"'
  {
    "\"" + Escape(s) + "\""
  }

  /** Undo `Escape`: a backslash stands for the character after it. */
  function Unescape(e: string): string
    decreases |e|
  {
    if e == [] then ""
    else if e[0] == '\\' && |e| >= 2 then [e[1]] + Unescape(e[2..])
    else [e[0]] + Unescape(e[1..])
  }

  /** Strip the quotes of a quoted string and undo its escapes. */
  function Unquote(q: string): string
    requires |q| >= 2
  {
    Unescape(q[1..|q| - 1])
  }

  /** Escaping loses nothing: unescaping gives the string back. */
  lemma {:induction false} UnescapeEscape(s: string)
    ensures Unescape(Escape(s)) == s
    decreases |s|
  {
    if s != [] {
      var head := if s[0] == '"' || s[0] == '\\' then ['\\', s[0]] else [s[0]];
      var rest := Escape(s[1..]);
      assert Escape(s) == head + rest;
      UnescapeEscape(s[1..]);
      if |head| == 2 {
        assert (head + rest)[2..] == rest;
      } else {
        assert (head + rest)[1..] == rest;
      }
      assert s == [s[0]] + s[1..];
    }
  }

  /** `%q` is reversible: unquoting a quoted string gives it back. */
  lemma UnquoteQuote(s: string)
    ensures Unquote(Quote(s)) == s
  {
    var q := Quote(s);
    assert q[1..|q| - 1] == Escape(s);
    UnescapeEscape(s);
  }

  /** A string with no quote or backslash is quoted verbatim. */
  lemma {:induction false} EscapePlain(s: string)
    requires forall i :: 0 <= i < |s| ==> s[i] != '"' && s[i] != '\\'
    ensures Escape(s) == s
  {
    if s != [] {
      EscapePlain(s[1..]);
      assert s == [s[0]] + s[1..];
    }
  }

  /** A string with no quote or backslash is quoted by adding the two quotes. */
  lemma QuotePlain(s: string)
    requires forall i :: 0 <= i < |s| ==> s[i] != '"' && s[i] != '\\'
    ensures Quote(s) == "\"" + s + "\""
  {
    EscapePlain(s);
  }
}
