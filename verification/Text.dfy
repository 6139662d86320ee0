/** Decimal rendering, separator-joined lists and the separator lemmas that make both decodable. */
module Text {
  const DIGITS := "0123456789"
  const NUL := '\0'

  /** strconv.Itoa on a non-negative number. */
  function Digits(n: nat): (s: string)
    ensures |s| > 0
    ensures forall i :: 0 <= i < |s| ==> '0' <= s[i] <= '9'
  {
    if n < 10 then [DIGITS[n]] else Digits(n / 10) + [DIGITS[n % 10]]
  }

  /** strconv.Itoa. */
  function Itoa(n: int): (s: string) {
    if n < 0 then "-" + Digits(-n) else Digits(n)
  }

  /** The number a run of decimal digits denotes. */
  function Value(s: string): int {
    if s == "" then 0 else 10 * Value(s[..|s| - 1]) + (s[|s| - 1] as int - '0' as int)
  }

  /** The reader that undoes Itoa. */
  function Atoi(s: string): int {
    if s != "" && s[0] == '-' then -Value(s[1..]) else Value(s)
  }

  lemma {:induction false} ValueOfDigits(n: nat)
    ensures Value(Digits(n)) == n
  {
    if n >= 10 {
      ValueOfDigits(n / 10);
      assert Digits(n)[..|Digits(n)| - 1] == Digits(n / 10);
    } else {
      assert Digits(n)[..0] == "";
    }
  }

  /** No leading zeros. */
  lemma {:induction false} DigitsArePlain(n: nat)
    ensures n > 0 ==> Digits(n)[0] != '0'
    ensures n == 0 ==> Digits(n) == "0"
  {
    if n >= 10 {
      DigitsArePlain(n / 10);
    }
  }

  lemma AtoiUndoesItoa(n: int)
    ensures Atoi(Itoa(n)) == n
  {
    var d := Digits(if n < 0 then -n else n);
    ValueOfDigits(if n < 0 then -n else n);
    if n < 0 {
      assert Itoa(n) == "-" + d && ("-" + d)[1..] == d;
    } else {
      assert Itoa(n) == d && '0' <= d[0];
    }
  }

  predicate Ascii(s: string) {
    forall i :: 0 <= i < |s| ==> s[i] as int < 128
  }

  lemma ItoaIsAscii(n: int)
    ensures Ascii(Itoa(n))
  {
    var d := Digits(if n < 0 then -n else n);
    assert forall i :: 0 <= i < |d| ==> d[i] <= '9';
  }

  predicate Free(c: char, s: string) { c !in s }

  /** Two strings that agree before their first separator agree after it as well. */
  lemma SplitFirst(c: char, a: string, x: string, b: string, y: string)
    requires Free(c, a) && Free(c, b)
    requires a + [c] + x == b + [c] + y
    ensures a == b && x == y
  {
    var l, r := a + [c] + x, b + [c] + y;
    assert l[|a|] == c && r[|b|] == c;
    assert |a| == |b|;
    assert a == l[..|a|] && b == r[..|b|];
    assert x == l[|a| + 1..] && y == r[|b| + 1..];
  }

  /** The same for the last separator. */
  lemma SplitLast(c: char, a: string, x: string, b: string, y: string)
    requires Free(c, x) && Free(c, y)
    requires a + [c] + x == b + [c] + y
    ensures a == b && x == y
  {
    var l, r := a + [c] + x, b + [c] + y;
    assert l[|a|] == c && r[|b|] == c;
    assert |a| == |b|;
    assert a == l[..|a|] && b == r[..|b|];
    assert x == l[|a| + 1..] && y == r[|b| + 1..];
  }

  /** strings.Join with a one-character separator. */
  function Join(parts: seq<string>, sep: char): string {
    if |parts| == 0 then ""
    else if |parts| == 1 then parts[0]
    else parts[0] + [sep] + Join(parts[1..], sep)
  }

  /** Joining loses nothing on lists of one length whose parts avoid the separator. */
  lemma {:induction false} JoinInjective(a: seq<string>, b: seq<string>, sep: char)
    requires |a| == |b|
    requires forall i :: 0 <= i < |a| ==> Free(sep, a[i]) && Free(sep, b[i])
    requires Join(a, sep) == Join(b, sep)
    ensures a == b
  {
    if |a| > 1 {
      SplitFirst(sep, a[0], Join(a[1..], sep), b[0], Join(b[1..], sep));
      JoinInjective(a[1..], b[1..], sep);
      assert a == [a[0]] + a[1..] && b == [b[0]] + b[1..];
    }
  }

  /** `b` is `a` followed by a separator and anything. */
  predicate Extends(sep: char, a: string, b: string) {
    a + [sep] <= b
  }

  lemma FreeIsNoExtension(sep: char, a: string, b: string)
    requires Free(sep, b)
    ensures !Extends(sep, a, b)
  {
    assert (a + [sep])[|a|] == sep;
  }

  /** Of two strings that agree across a separator, the shorter head is the longer one or is extended by it. */
  lemma HeadsAgree(sep: char, x: string, u: string, y: string, v: string)
    requires x + [sep] + u == y + [sep] + v && |x| <= |y|
    ensures x == y || Extends(sep, x, y)
  {
    var l, r := x + [sep] + u, y + [sep] + v;
    assert x == l[..|x|] && y[..|x|] == r[..|x|];
    if |x| < |y| {
      assert y[|x|] == r[|x|] == l[|x|] == sep;
      assert y[..|x| + 1] == x + [sep];
    }
  }

  /** Two joined lists of one length differ when their heads differ and neither head extends the other. */
  lemma JoinHead(a: seq<string>, b: seq<string>, sep: char)
    requires |a| == |b| > 0 && a[0] != b[0]
    requires !Extends(sep, a[0], b[0]) && !Extends(sep, b[0], a[0])
    ensures Join(a, sep) != Join(b, sep)
  {
    if |a| > 1 && Join(a, sep) == Join(b, sep) {
      if |a[0]| <= |b[0]| {
        HeadsAgree(sep, a[0], Join(a[1..], sep), b[0], Join(b[1..], sep));
      } else {
        HeadsAgree(sep, b[0], Join(b[1..], sep), a[0], Join(a[1..], sep));
      }
    }
  }
}
