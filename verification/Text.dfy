/** Decimal numerals, code-point string order and `str.split`, as the bridge uses them. */
module Text {
  // ---------------------------------------------------------------- numerals

  function Digit(d: nat): (c: char)
    requires d < 10
  {
    ['0', '1', '2', '3', '4', '5', '6', '7', '8', '9'][d]
  }

  predicate IsDigit(c: char) {
    '0' <= c <= '9'
  }

  /** `str(n)` for a natural number. */
  function Digits(n: nat): (s: string)
    ensures s != "" && forall c | c in s :: IsDigit(c)
  {
    if n < 10 then [Digit(n)] else Digits(n / 10) + [Digit(n % 10)]
  }

  function DigitValue(c: char): nat
    requires IsDigit(c)
  {
    (c as int) - ('0' as int)
  }

  /** `int(text)` on a plain ASCII numeral. */
  function Value(s: string): nat
    requires forall c | c in s :: IsDigit(c)
  {
    if s == "" then 0 else 10 * Value(s[..|s| - 1]) + DigitValue(s[|s| - 1])
  }

  lemma {:induction false} ValueOfDigits(n: nat)
    ensures Value(Digits(n)) == n
  {
    if n < 10 {
      assert Digits(n)[..0] == "";
      assert Digits(n) == [Digit(n)];
    } else {
      ValueOfDigits(n / 10);
      assert Digits(n)[..|Digits(n)| - 1] == Digits(n / 10);
    }
  }

  lemma DigitsInjective(a: nat, b: nat)
    requires Digits(a) == Digits(b)
    ensures a == b
  {
    ValueOfDigits(a);
    ValueOfDigits(b);
  }

  function Pow10(w: nat): (p: nat)
    ensures p > 0
  {
    if w == 0 then 1 else 10 * Pow10(w - 1)
  }

  function Zeros(n: nat): (s: string)
    ensures |s| == n
  {
    if n == 0 then "" else "0" + Zeros(n - 1)
  }

  /** `f"{n:0{w}d}"`: zero padded to at least `w` characters, never truncated. */
  function Padded(n: nat, w: nat): (s: string)
    ensures |s| >= w && s != ""
  {
    if |Digits(n)| < w then Zeros(w - |Digits(n)|) + Digits(n) else Digits(n)
  }

  /** The last `w` decimal places of `n`, a rendering whose length does not depend on `n`. */
  function Places(n: nat, w: nat): (s: string)
    ensures |s| == w
  {
    if w == 0 then "" else Places(n / 10, w - 1) + [Digit(n % 10)]
  }

  lemma {:induction false} PlacesOfZero(w: nat)
    ensures Places(0, w) == Zeros(w)
    ensures w > 0 ==> Zeros(w) == Zeros(w - 1) + "0"
  {
    if w > 0 {
      PlacesOfZero(w - 1);
      if w > 1 {
        assert Zeros(w) == "0" + (Zeros(w - 2) + "0") == ("0" + Zeros(w - 2)) + "0";
      }
    }
  }

  lemma {:induction false} PaddedIsPlaces(n: nat, w: nat)
    requires n < Pow10(w) && w > 0
    ensures |Digits(n)| <= w && Padded(n, w) == Places(n, w)
  {
    if n < 10 {
      PlacesOfZero(w - 1);
      PlacesOfZero(w);
      assert n / 10 == 0;
    } else {
      PaddedIsPlaces(n / 10, w - 1);
      var k := w - |Digits(n)|;
      assert Places(n, w) == Padded(n / 10, w - 1) + [Digit(n % 10)];
      if k > 0 {
        assert Zeros(k) + Digits(n) == Zeros(k) + Digits(n / 10) + [Digit(n % 10)];
      }
    }
  }

  // ---------------------------------------------------------------- string order

  /** Python's `<` on strings: compare code points, a proper prefix comes first. */
  predicate LexLess(a: string, b: string) {
    b != "" && (a == "" || a[0] < b[0] || (a[0] == b[0] && LexLess(a[1..], b[1..])))
  }

  lemma {:induction false} LexTrichotomy(a: string, b: string)
    ensures LexLess(a, b) || LexLess(b, a) || a == b
    ensures !(LexLess(a, b) && LexLess(b, a))
    ensures a == b ==> !LexLess(a, b)
    decreases |a| + |b|
  {
    if a != "" && b != "" && a[0] == b[0] {
      LexTrichotomy(a[1..], b[1..]);
      assert a == [a[0]] + a[1..] && b == [b[0]] + b[1..];
    }
  }

  lemma {:induction false} LexTransitive(a: string, b: string, c: string)
    requires LexLess(a, b) && LexLess(b, c)
    ensures LexLess(a, c)
    decreases |a|
  {
    if a != "" && a[0] == b[0] == c[0] {
      LexTransitive(a[1..], b[1..], c[1..]);
    }
  }

  /** A difference inside equally long prefixes decides the order, whatever follows. */
  lemma {:induction false} LexPrefix(p: string, q: string, x: string, y: string)
    requires |p| == |q| && LexLess(p, q)
    ensures LexLess(p + x, q + y)
    decreases |p|
  {
    if p[0] == q[0] {
      LexPrefix(p[1..], q[1..], x, y);
      assert (p + x)[1..] == p[1..] + x && (q + y)[1..] == q[1..] + y;
    }
  }

  lemma {:induction false} LexSameHead(p: string, x: string, y: string)
    ensures LexLess(p + x, p + y) == LexLess(x, y)
  {
    if p == "" {
      assert p + x == x && p + y == y;
    } else {
      LexSameHead(p[1..], x, y);
      assert (p + x)[1..] == p[1..] + x && (p + y)[1..] == p[1..] + y;
    }
  }

  lemma {:induction false} PlacesOrder(a: nat, b: nat, w: nat)
    requires a < b < Pow10(w)
    ensures LexLess(Places(a, w), Places(b, w))
    decreases w
  {
    var p, q := Places(a / 10, w - 1), Places(b / 10, w - 1);
    if a / 10 < b / 10 {
      PlacesOrder(a / 10, b / 10, w - 1);
      LexPrefix(p, q, [Digit(a % 10)], [Digit(b % 10)]);
    } else {
      assert a % 10 < b % 10;
      LexSameHead(p, [Digit(a % 10)], [Digit(b % 10)]);
    }
  }

  // ---------------------------------------------------------------- split

  /** `s.split(sep, n)`: at most `n` cuts, at the first separators. */
  function Split(s: string, sep: char, n: nat): (parts: seq<string>)
    ensures parts != []
    decreases n
  {
    if n == 0 || sep !in s then [s]
    else var i := IndexOf(s, sep); [s[..i]] + Split(s[i + 1..], sep, n - 1)
  }

  function IndexOf(s: string, c: char): (i: nat)
    requires c in s
    ensures i < |s| && s[i] == c && c !in s[..i]
  {
    if s[0] == c then 0 else 1 + IndexOf(s[1..], c)
  }

  lemma {:induction false} FirstOccurrence(s: string, c: char, k: nat)
    requires k < |s| && s[k] == c && c !in s[..k]
    ensures c in s && IndexOf(s, c) == k
    decreases k
  {
    if k > 0 {
      assert s[0] == s[..k][0];
      assert s[1..][..k - 1] == s[..k][1..];
      FirstOccurrence(s[1..], c, k - 1);
    }
  }

  lemma SplitHead(x: string, rest: string, sep: char, n: nat)
    requires sep !in x && n > 0
    ensures Split(x + [sep] + rest, sep, n) == [x] + Split(rest, sep, n - 1)
  {
    var s := x + [sep] + rest;
    assert s[..|x|] == x && s[|x|] == sep && s[|x| + 1..] == rest;
    FirstOccurrence(s, sep, |x|);
  }

  lemma SplitTwo(c: string, d: string, sep: char)
    requires sep !in c
    ensures Split(c + [sep] + d, sep, 1) == [c, d]
  {
    SplitHead(c, d, sep, 1);
  }

  lemma SplitFour(a: string, b: string, c: string, d: string, sep: char)
    requires sep !in a && sep !in b && sep !in c
    ensures Split(a + [sep] + (b + [sep] + (c + [sep] + d)), sep, 3) == [a, b, c, d]
  {
    SplitTwo(c, d, sep);
    SplitHead(b, c + [sep] + d, sep, 2);
    SplitHead(a, b + [sep] + (c + [sep] + d), sep, 3);
  }
}
