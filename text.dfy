/** String operations the application borrows from the JavaScript runtime:
    `Number.prototype.toString`, `Array.prototype.join`, `String.prototype.startsWith`
    and `String.prototype.trim`, together with the inverses used to state their
    properties. */
module Text {

  predicate IsDigit(c: char) {
    '0' <= c <= '9'
  }

  predicate AllDigits(s: string) {
    forall i :: 0 <= i < |s| ==> IsDigit(s[i])
  }

  function DigitChar(d: nat): (c: char)
    requires d < 10
    ensures IsDigit(c)
  {
    ('0' as int + d) as char
  }

  /** Decimal rendering of a non-negative number, as `n.toString()` gives it. */
  function NatToString(n: nat): (s: string)
    ensures |s| > 0
    ensures AllDigits(s)
    decreases n
  {
    if n < 10 then [DigitChar(n)] else NatToString(n / 10) + [DigitChar(n % 10)]
  }

  /** Reads a string of decimal digits back as a number. */
  function ParseDecimal(s: string): nat
    requires AllDigits(s)
  {
    if s == [] then 0 else 10 * ParseDecimal(s[..|s| - 1]) + (s[|s| - 1] as int - '0' as int)
  }

  lemma {:induction false} ParseNatToString(n: nat)
    ensures ParseDecimal(NatToString(n)) == n
  {
    if n >= 10 {
      var s := NatToString(n);
      assert s[..|s| - 1] == NatToString(n / 10);
      ParseNatToString(n / 10);
    }
  }

  /** Distinct numbers have distinct decimal renderings. */
  lemma NatToStringInjective(a: nat, b: nat)
    ensures NatToString(a) == NatToString(b) ==> a == b
  {
    ParseNatToString(a);
    ParseNatToString(b);
  }

  /** `xs.join(sep)`: the empty list gives the empty string. */
  function Join(xs: seq<string>, sep: string): string
    decreases |xs|
  {
    if xs == [] then "" else if |xs| == 1 then xs[0] else xs[0] + sep + Join(xs[1..], sep)
  }

  /** `s.split(sep)` for a non-empty separator: the pieces between occurrences. */
  function Split(s: string, sep: string): (parts: seq<string>)
    requires |sep| > 0
    ensures |parts| > 0
    decreases |s|
  {
    if |s| < |sep| then [s]
    else if s[..|sep|] == sep then [""] + Split(s[|sep|..], sep)
    else
      var rest := Split(s[1..], sep);
      [[s[0]] + rest[0]] + rest[1..]
  }

  /** True when the character `c` occurs nowhere in `s`. */
  predicate Avoids(s: string, c: char) {
    forall i :: 0 <= i < |s| ==> s[i] != c
  }

  /** True when no string of `xs` contains the character `c`. */
  predicate AllAvoid(xs: seq<string>, c: char) {
    forall k :: 0 <= k < |xs| ==> Avoids(xs[k], c)
  }

  /** A leading piece without the separator's first character glues onto the first part. */
  lemma {:induction false} SplitGlue(x: string, rest: string, sep: string)
    requires |sep| > 0
    requires Avoids(x, sep[0])
    ensures Split(x + rest, sep) == [x + Split(rest, sep)[0]] + Split(rest, sep)[1..]
    decreases |x|
  {
    var q := Split(rest, sep);
    if x == [] {
      assert x + rest == rest;
      assert x + q[0] == q[0];
      assert [q[0]] + q[1..] == q;
    } else {
      var s := x + rest;
      if |s| < |sep| {
        assert q == [rest];
      } else {
        assert s[..|sep|][0] == x[0] != sep[0];
        assert s[1..] == x[1..] + rest;
        SplitGlue(x[1..], rest, sep);
        assert [x[0]] + (x[1..] + q[0]) == x + q[0];
      }
    }
  }

  /** Splitting a joined list restores it, when no element contains the separator's
      first character. */
  lemma {:induction false} SplitJoin(xs: seq<string>, sep: string)
    requires |sep| > 0 && xs != []
    requires AllAvoid(xs, sep[0])
    ensures Split(Join(xs, sep), sep) == xs
    decreases |xs|
  {
    if |xs| == 1 {
      SplitGlue(xs[0], "", sep);
      assert xs[0] + "" == xs[0];
    } else {
      var tail := Join(xs[1..], sep);
      assert AllAvoid(xs[1..], sep[0]) by {
        forall k | 0 <= k < |xs[1..]| ensures Avoids(xs[1..][k], sep[0]) {
          assert xs[1..][k] == xs[k + 1];
        }
      }
      SplitJoin(xs[1..], sep);
      var rest := sep + tail;
      assert rest[..|sep|] == sep && rest[|sep|..] == tail;
      assert Split(rest, sep) == [""] + xs[1..];
      assert Avoids(xs[0], sep[0]);
      SplitGlue(xs[0], rest, sep);
      assert xs[0] + sep + tail == xs[0] + rest;
      var parts := Split(rest, sep);
      assert parts[0] == "" && parts[1..] == xs[1..];
      assert xs[0] + parts[0] == xs[0];
      assert [xs[0]] + xs[1..] == xs;
    }
  }

  /** A character absent from all parts and from the separator is absent from the join. */
  lemma {:induction false} JoinAvoids(xs: seq<string>, sep: string, c: char)
    requires AllAvoid(xs, c) && Avoids(sep, c)
    ensures Avoids(Join(xs, sep), c)
    decreases |xs|
  {
    if |xs| > 1 {
      assert AllAvoid(xs[1..], c) by {
        forall k | 0 <= k < |xs[1..]| ensures Avoids(xs[1..][k], c) {
          assert xs[1..][k] == xs[k + 1];
        }
      }
      JoinAvoids(xs[1..], sep, c);
      assert Avoids(xs[0], c);
    } else if |xs| == 1 {
      assert Avoids(xs[0], c);
    }
  }

  /** `s.startsWith(prefix)`. */
  predicate StartsWith(s: string, prefix: string) {
    |prefix| <= |s| && s[..|prefix|] == prefix
  }

  /** The characters `String.prototype.trim` strips: the ECMAScript WhiteSpace and
      LineTerminator code points. */
  predicate IsWhitespace(c: char) {
    c == '\t' || c == '\n' || c == '\U{000B}' || c == '\U{000C}' || c == '\r' || c == ' '
    || c == '\U{00A0}' || c == '\U{1680}' || ('\U{2000}' <= c <= '\U{200A}')
    || c == '\U{2028}' || c == '\U{2029}' || c == '\U{202F}' || c == '\U{205F}'
    || c == '\U{3000}' || c == '\U{FEFF}'
  }

  function TrimStart(s: string): (r: string)
    ensures |r| <= |s|
  {
    if s != [] && IsWhitespace(s[0]) then TrimStart(s[1..]) else s
  }

  function TrimEnd(s: string): (r: string)
    ensures |r| <= |s|
  {
    if s != [] && IsWhitespace(s[|s| - 1]) then TrimEnd(s[..|s| - 1]) else s
  }

  /** `s.trim()`. */
  function Trim(s: string): string {
    TrimStart(TrimEnd(s))
  }

  predicate AllWhitespace(s: string) {
    forall i :: 0 <= i < |s| ==> IsWhitespace(s[i])
  }

  lemma {:induction false} TrimStartEmpty(s: string)
    ensures TrimStart(s) == "" <==> AllWhitespace(s)
  {
    if s != [] && IsWhitespace(s[0]) {
      TrimStartEmpty(s[1..]);
      assert AllWhitespace(s) <==> AllWhitespace(s[1..]) by {
        if AllWhitespace(s[1..]) {
          forall i | 0 <= i < |s| ensures IsWhitespace(s[i]) {
            if i > 0 { assert s[i] == s[1..][i - 1]; }
          }
        }
      }
    }
  }

  lemma {:induction false} TrimEndEmpty(s: string)
    ensures TrimEnd(s) == "" <==> AllWhitespace(s)
  {
    if s != [] && IsWhitespace(s[|s| - 1]) {
      var init := s[..|s| - 1];
      TrimEndEmpty(init);
      assert AllWhitespace(s) <==> AllWhitespace(init) by {
        if AllWhitespace(init) {
          forall i | 0 <= i < |s| ensures IsWhitespace(s[i]) {
            if i < |s| - 1 { assert s[i] == init[i]; }
          }
        }
      }
    }
  }

  lemma {:induction false} TrimEndKeepsNonWhitespace(s: string)
    ensures AllWhitespace(TrimEnd(s)) ==> AllWhitespace(s)
  {
    if s != [] && IsWhitespace(s[|s| - 1]) {
      var init := s[..|s| - 1];
      TrimEndKeepsNonWhitespace(init);
      if AllWhitespace(TrimEnd(s)) {
        forall i | 0 <= i < |s| ensures IsWhitespace(s[i]) {
          if i < |s| - 1 { assert s[i] == init[i]; }
        }
      }
    }
  }

  /** A string trims to nothing exactly when every character of it is whitespace. */
  lemma TrimEmptyIff(s: string)
    ensures Trim(s) == "" <==> AllWhitespace(s)
  {
    TrimEndEmpty(s);
    TrimStartEmpty(TrimEnd(s));
    TrimEndKeepsNonWhitespace(s);
    if AllWhitespace(s) {
      assert TrimEnd(s) == "";
    }
  }
}
