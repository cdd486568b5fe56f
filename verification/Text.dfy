/** Strings as the spend engine uses them: bar-delimited fields, decimal
    numbers, splitting, and the code-point order SQLite compares TEXT by. */
module Text {

  datatype Option<+T> = None | Some(value: T)

  predicate NoBar(s: string) {
    '|' !in s
  }

  // Two delimited strings agree only if their first fields and rests agree.
  lemma BarSplit(a: string, x: string, b: string, y: string)
    requires NoBar(a) && NoBar(b)
    requires a + "|" + x == b + "|" + y
    ensures a == b && x == y
  {
    var s := a + "|" + x;
    assert s[|a|] == '|' && s[|b|] == '|';
    assert forall i :: 0 <= i < |a| ==> s[i] == a[i];
    assert forall i :: 0 <= i < |b| ==> s[i] == b[i];
    assert |a| == |b|;
    assert a == s[..|a|] == b;
    assert x == s[|a| + 1..] == y;
  }

  // A common suffix length cuts two equal concatenations at the same place.
  lemma SuffixSplit(a: string, x: string, b: string, y: string)
    requires |x| == |y|
    requires a + "|" + x == b + "|" + y
    ensures a == b && x == y
  {
    var s := a + "|" + x;
    assert |a| == |b|;
    assert a == s[..|a|] == b;
    assert x == s[|a| + 1..] == y;
  }

  // ---- decimal numbers ----

  predicate IsDigit(c: char) {
    '0' <= c <= '9'
  }

  function Digit(d: nat): (c: char)
    requires d < 10
    ensures IsDigit(c)
  {
    ('0' as int + d) as char
  }

  function DigitValue(c: char): nat
    requires IsDigit(c)
  {
    c as int - '0' as int
  }

  predicate AllDigits(s: string) {
    forall i :: 0 <= i < |s| ==> IsDigit(s[i])
  }

  function Dec(n: nat): (s: string)
    ensures |s| > 0 && AllDigits(s)
  {
    if n < 10 then [Digit(n)] else Dec(n / 10) + [Digit(n % 10)]
  }

  function DecInt(n: int): (s: string)
    ensures |s| > 0 && NoBar(s)
  {
    if n < 0 then "-" + Dec(-n) else Dec(n)
  }

  function ParseNat(s: string): nat
    requires AllDigits(s)
  {
    if s == "" then 0 else ParseNat(s[..|s| - 1]) * 10 + DigitValue(s[|s| - 1])
  }

  lemma {:induction false} ParseDec(n: nat)
    ensures ParseNat(Dec(n)) == n
  {
    if n >= 10 {
      ParseDec(n / 10);
      var s := Dec(n);
      assert s[..|s| - 1] == Dec(n / 10);
    }
  }

  lemma DecIntInjective(a: int, b: int)
    requires DecInt(a) == DecInt(b)
    ensures a == b
  {
    ParseDec(if a < 0 then -a else a);
    ParseDec(if b < 0 then -b else b);
    assert DecInt(a)[0] == '-' <==> a < 0;
    assert DecInt(b)[0] == '-' <==> b < 0;
    if a < 0 {
      assert Dec(-a) == DecInt(a)[1..] == Dec(-b);
    }
  }

  // ---- splitting on the bar, as str.split does ----

  function Split(s: string): (parts: seq<string>)
    ensures |parts| > 0
  {
    if s == "" then [""]
    else if s[0] == '|' then [""] + Split(s[1..])
    else var rest := Split(s[1..]); [[s[0]] + rest[0]] + rest[1..]
  }

  lemma {:induction false} SplitNoBar(a: string)
    requires NoBar(a)
    ensures Split(a) == [a]
  {
    if a != "" {
      SplitNoBar(a[1..]);
      assert a == [a[0]] + a[1..];
    }
  }

  lemma {:induction false} SplitFirst(a: string, x: string)
    requires NoBar(a)
    ensures Split(a + "|" + x) == [a] + Split(x)
  {
    var s := a + "|" + x;
    if a == "" {
      assert s[1..] == x;
    } else {
      SplitFirst(a[1..], x);
      assert s[1..] == a[1..] + "|" + x;
      assert a == [a[0]] + a[1..];
    }
  }

  // ---- code-point order ----

  predicate Less(a: string, b: string) {
    b != "" && (a == "" || a[0] < b[0] || (a[0] == b[0] && Less(a[1..], b[1..])))
  }

  lemma {:induction false} LessIrreflexive(a: string)
    ensures !Less(a, a)
  {
    if a != "" { LessIrreflexive(a[1..]); }
  }

  lemma {:induction false} LessTotal(a: string, b: string)
    ensures Less(a, b) || a == b || Less(b, a)
  {
    if a != "" && b != "" && a[0] == b[0] {
      LessTotal(a[1..], b[1..]);
      assert a == [a[0]] + a[1..] && b == [b[0]] + b[1..];
    }
  }

  lemma {:induction false} LessTransitive(a: string, b: string, c: string)
    requires Less(a, b) && Less(b, c)
    ensures Less(a, c)
  {
    if a != "" && a[0] == b[0] && b[0] == c[0] {
      LessTransitive(a[1..], b[1..], c[1..]);
    }
  }

  lemma LessAsymmetric(a: string, b: string)
    requires Less(a, b)
    ensures !Less(b, a)
  {
    if Less(b, a) {
      LessTransitive(a, b, a);
      LessIrreflexive(a);
    }
  }

  // Fields of equal width: the first that differs decides.
  lemma {:induction false} LessByPrefix(p: string, x: string, q: string, y: string)
    requires |p| == |q| && Less(p, q)
    ensures Less(p + x, q + y)
  {
    if p != "" && p[0] == q[0] {
      LessByPrefix(p[1..], x, q[1..], y);
      assert (p + x)[1..] == p[1..] + x && (q + y)[1..] == q[1..] + y;
    }
  }

  lemma {:induction false} LessBySuffix(p: string, x: string, y: string)
    requires Less(x, y)
    ensures Less(p + x, p + y)
  {
    if p == "" {
      assert p + x == x && p + y == y;
    } else {
      LessBySuffix(p[1..], x, y);
      assert (p + x)[1..] == p[1..] + x && (p + y)[1..] == p[1..] + y;
    }
  }
}
