/** Decimal printing as Go's `fmt` and `time` packages do it, with the inverses that make
    printed keys unambiguous. */
module Printing {

  function Digit(d: nat): char
    requires d < 10
  {
    '0' + d as char
  }

  function Digits(n: nat): string {
    if n < 10 then [Digit(n)] else Digits(n / 10) + [Digit(n % 10)]
  }

  /** `%d`. */
  function Dec(n: int): string {
    if n < 0 then "-" + Digits(-n) else Digits(n)
  }

  function Zeros(n: nat): string {
    if n == 0 then "" else "0" + Zeros(n - 1)
  }

  /** Zero-padded to at least `width` digits. */
  function Padded(n: nat, width: nat): string {
    var s := Digits(n);
    if |s| >= width then s else Zeros(width - |s|) + s
  }

  predicate AllDigits(s: string) {
    forall i :: 0 <= i < |s| ==> '0' <= s[i] <= '9'
  }

  /** Reads a string of digits back. */
  function Value(s: string): nat
    requires AllDigits(s)
  {
    if s == "" then 0 else 10 * Value(s[..|s| - 1]) + (s[|s| - 1] - '0') as nat
  }

  lemma {:induction false} DigitsRoundTrip(n: nat)
    ensures AllDigits(Digits(n)) && Digits(n) != "" && Value(Digits(n)) == n
  {
    if n >= 10 {
      DigitsRoundTrip(n / 10);
      assert Digits(n)[..|Digits(n)| - 1] == Digits(n / 10);
    } else {
      assert Digits(n)[..0] == "";
    }
  }

  /** Distinct integers print differently. */
  lemma DecInjective(a: int, b: int)
    requires Dec(a) == Dec(b)
    ensures a == b
  {
    DigitsRoundTrip(if a < 0 then -a else a);
    DigitsRoundTrip(if b < 0 then -b else b);
    if a < 0 {
      assert Dec(a)[1..] == Digits(-a);
      assert Dec(a)[0] == '-';
    }
    if b < 0 {
      assert Dec(b)[1..] == Digits(-b);
      assert Dec(b)[0] == '-';
    }
  }

  /** For instance. */
  lemma DecText()
    ensures Dec(0) == "0" && Dec(7) == "7" && Dec(42) == "42" && Dec(-42) == "-42"
  {
    assert Digits(4) == "4" && Digits(42) == "42";
  }

  lemma DecHasNoColon(n: int)
    ensures ':' !in Dec(n)
  {
    DigitsRoundTrip(if n < 0 then -n else n);
  }

  lemma {:induction false} OneLeadingZero(s: string)
    requires AllDigits(s)
    ensures AllDigits("0" + s) && Value("0" + s) == Value(s)
  {
    if s == "" {
      assert ("0" + s)[..0] == "";
    } else {
      var n := |s| - 1;
      OneLeadingZero(s[..n]);
      assert ("0" + s)[..|s|] == "0" + s[..n];
    }
  }

  lemma {:induction false} LeadingZeros(k: nat, s: string)
    requires AllDigits(s)
    ensures AllDigits(Zeros(k) + s) && Value(Zeros(k) + s) == Value(s) && |Zeros(k)| == k
  {
    if k == 0 {
      assert Zeros(0) + s == s;
    } else {
      LeadingZeros(k - 1, s);
      assert Zeros(k) + s == "0" + (Zeros(k - 1) + s);
      OneLeadingZero(Zeros(k - 1) + s);
    }
  }

  lemma PaddedRoundTrip(n: nat, width: nat)
    ensures AllDigits(Padded(n, width)) && |Padded(n, width)| >= width && Value(Padded(n, width)) == n
  {
    DigitsRoundTrip(n);
    var s := Digits(n);
    if |s| < width {
      LeadingZeros(width - |s|, s);
    }
  }

  lemma TwoDigits(n: nat)
    requires n < 100
    ensures |Padded(n, 2)| == 2
  {
    if n < 10 {
      assert Zeros(1) == "0";
    } else {
      assert Digits(n) == Digits(n / 10) + [Digit(n % 10)];
      assert n / 10 < 10;
      assert Digits(n / 10) == [Digit(n / 10)];
    }
  }

  /** Fields without the separator can be read back from in front of it. */
  lemma SplitAt(c: char, a: string, x: string, b: string, y: string)
    requires c !in a && c !in b && a + [c] + x == b + [c] + y
    ensures a == b && x == y
  {
    var s := a + [c] + x;
    assert s[|a|] == c && s[|b|] == c;
    assert |a| == |b|;
    assert s[..|a|] == a && s[..|b|] == b;
    assert s[|a| + 1..] == x && s[|b| + 1..] == y;
  }

  /** A record of three fields without colons and a rest, each introduced by its tag. */
  function Record(prefix: string, t1: string, t2: string, t3: string, f: (string, string, string, string)): string {
    prefix + (f.0 + ":" + (t1 + (f.1 + ":" + (t2 + (f.2 + ":" + (t3 + f.3))))))
  }

  lemma DropPrefix(p: string, x: string, y: string)
    requires p + x == p + y
    ensures x == y
  {
    assert (p + x)[|p|..] == x && (p + y)[|p|..] == y;
  }

  /** Such a record can be read back field by field. */
  lemma RecordInjective(prefix: string, t1: string, t2: string, t3: string,
                        f: (string, string, string, string), g: (string, string, string, string))
    requires ':' !in f.0 && ':' !in f.1 && ':' !in f.2 && ':' !in g.0 && ':' !in g.1 && ':' !in g.2
    requires Record(prefix, t1, t2, t3, f) == Record(prefix, t1, t2, t3, g)
    ensures f == g
  {
    var (f3, g3) := (t3 + f.3, t3 + g.3);
    var (f2, g2) := (t2 + (f.2 + ":" + f3), t2 + (g.2 + ":" + g3));
    var (f1, g1) := (t1 + (f.1 + ":" + f2), t1 + (g.1 + ":" + g2));
    DropPrefix(prefix, f.0 + ":" + f1, g.0 + ":" + g1);
    SplitAt(':', f.0, f1, g.0, g1);
    DropPrefix(t1, f.1 + ":" + f2, g.1 + ":" + g2);
    SplitAt(':', f.1, f2, g.1, g2);
    DropPrefix(t2, f.2 + ":" + f3, g.2 + ":" + g3);
    SplitAt(':', f.2, f3, g.2, g3);
    DropPrefix(t3, f.3, g.3);
  }
}
