/** The parts of Go's language and standard library that the controller leans on:
    int32 wrap-around, strconv.FormatInt and strconv.Atoi, string comparison,
    strings.Split, strings.Join and strings.Contains. Go strings are byte strings;
    they are modelled as sequences of characters compared by code. */
module GoPrimitives {

  datatype Option<+T> = None | Some(value: T)

  // ----- int32 -----

  const TWO31 := 0x8000_0000
  const TWO32 := 0x1_0000_0000

  predicate Fits32(x: int) {
    -TWO31 <= x < TWO31
  }

  /** Conversion to int32, and the result of int32 arithmetic whose exact value is x: the number in
      range that differs from x by a multiple of 2^32. */
  function Wrap32(x: int): (r: int)
    ensures Fits32(r)
    decreases if Fits32(x) then 0 else if x < 0 then -x else x + 1
  {
    if x < -TWO31 then Wrap32(x + TWO32)
    else if x >= TWO31 then Wrap32(x - TWO32)
    else x
  }

  lemma {:induction false} WrapIsRemainder(x: int)
    ensures Wrap32(x) == (x + TWO31) % TWO32 - TWO31
    decreases if Fits32(x) then 0 else if x < 0 then -x else x + 1
  {
    if x < -TWO31 {
      WrapIsRemainder(x + TWO32);
    } else if x >= TWO31 {
      WrapIsRemainder(x - TWO32);
    }
  }

  lemma {:induction false} WrapFirst(x: int, y: int)
    ensures Wrap32(Wrap32(x) + y) == Wrap32(x + y)
    ensures Wrap32(y - Wrap32(x)) == Wrap32(y - x)
    decreases if Fits32(x) then 0 else if x < 0 then -x else x + 1
  {
    if x < -TWO31 {
      WrapFirst(x + TWO32, y);
      WrapPeriod(x + y);
      WrapPeriod(y - x - TWO32);
    } else if x >= TWO31 {
      WrapFirst(x - TWO32, y);
      WrapPeriod(x + y - TWO32);
      WrapPeriod(y - x);
    }
  }

  lemma WrapPeriod(x: int)
    ensures Wrap32(x + TWO32) == Wrap32(x)
  {
  }

  /** Wrapping early or late gives the same int32, and values in range are untouched. */
  lemma WrapLaws(x: int, y: int)
    ensures Wrap32(Wrap32(x) + y) == Wrap32(x + y)
    ensures Wrap32(y - Wrap32(x)) == Wrap32(y - x)
    ensures Fits32(x) ==> Wrap32(x) == x
    ensures Fits32(Wrap32(x))
  {
    WrapFirst(x, y);
  }

  lemma WrapSum(x: int, y: int, u: int, v: int)
    requires Wrap32(x) == Wrap32(y) && Wrap32(u) == Wrap32(v)
    ensures Wrap32(x + u) == Wrap32(y + v)
  {
    WrapLaws(x, u);
    WrapLaws(y, u);
    WrapLaws(u, y);
    WrapLaws(v, y);
  }

  /** What an int32 addition did, seen as a difference. */
  lemma WrapDifference(r: int, x: int)
    ensures Wrap32(Wrap32(r + x) - r) == Wrap32(x)
  {
    WrapLaws(r + x, -r);
  }

  lemma WrapOpposite(x: int)
    ensures Wrap32(-x) == 0 <==> Wrap32(x) == 0
  {
    WrapLaws(x, 0);
    WrapLaws(-x, 0);
  }

  // ----- decimal text -----

  predicate IsDigit(c: char) {
    '0' <= c <= '9'
  }

  predicate AllDigits(s: string) {
    forall i | 0 <= i < |s| :: IsDigit(s[i])
  }

  function DigitChar(d: nat): char
    requires d < 10
  {
    ('0' as int + d) as char
  }

  function FormatNat(n: nat): string {
    if n < 10 then [DigitChar(n)] else FormatNat(n / 10) + [DigitChar(n % 10)]
  }

  /** strconv.FormatInt(n, 10). */
  function FormatInt(n: int): string {
    if n < 0 then "-" + FormatNat(-n) else FormatNat(n)
  }

  /** One more digit at the end, and a dash in front of negative numbers. */
  lemma DecimalText(n: nat, d: nat)
    requires d < 10
    ensures FormatInt(d) == ["0123456789"[d]]
    ensures n > 0 ==> FormatInt(10 * n + d) == FormatInt(n) + ["0123456789"[d]]
    ensures n > 0 ==> FormatInt(0 - n) == "-" + FormatInt(n)
  {
    assert (10 * n + d) / 10 == n && (10 * n + d) % 10 == d;
    assert DigitChar(d) == "0123456789"[d];
  }

  function DigitsValue(s: string): nat
    requires AllDigits(s)
  {
    if s == [] then 0
    else 10 * DigitsValue(s[..|s| - 1]) + (s[|s| - 1] as int - '0' as int)
  }

  predicate Fits64(x: int) {
    -0x8000_0000_0000_0000 <= x < 0x8000_0000_0000_0000
  }

  /** strconv.Atoi: an optional sign, at least one digit, nothing else, in range of int. */
  function Atoi(s: string): Option<int> {
    var signed := s != [] && (s[0] == '-' || s[0] == '+');
    var digits := if signed then s[1..] else s;
    if digits == [] || !AllDigits(digits) then None
    else
      var v := if signed && s[0] == '-' then 0 - DigitsValue(digits) else DigitsValue(digits);
      if Fits64(v) then Some(v) else None
  }

  lemma {:induction false} FormatNatValue(n: nat)
    ensures FormatNat(n) != [] && AllDigits(FormatNat(n))
    ensures DigitsValue(FormatNat(n)) == n
  {
    if n < 10 {
      assert FormatNat(n)[..0] == [];
    } else {
      FormatNatValue(n / 10);
      assert FormatNat(n)[..|FormatNat(n)| - 1] == FormatNat(n / 10);
    }
  }

  /** Every claim the controller writes reads back as the number it stands for. */
  lemma AtoiInvertsFormatInt(n: int)
    requires Fits64(n)
    ensures Atoi(FormatInt(n)) == Some(n)
  {
    FormatNatValue(if n < 0 then -n else n);
    assert n < 0 ==> FormatInt(n)[1..] == FormatNat(-n);
  }

  lemma FormatIntInjective(x: int, y: int)
    requires Fits64(x) && Fits64(y) && FormatInt(x) == FormatInt(y)
    ensures x == y
  {
    AtoiInvertsFormatInt(x);
    AtoiInvertsFormatInt(y);
  }

  // ----- string comparison -----

  /** Go's `a < b` on strings: the first difference decides, a proper prefix is smaller. */
  predicate StrLess(a: string, b: string) {
    b != [] && (a == [] || a[0] < b[0] || (a[0] == b[0] && StrLess(a[1..], b[1..])))
  }

  /** a and b agree before position i, where a ends or has the smaller character. */
  predicate SmallerAt(a: string, b: string, i: nat) {
    i <= |a| && i < |b| && a[..i] == b[..i] && (i == |a| || a[i] < b[i])
  }

  lemma {:induction false} StrLessIff(a: string, b: string)
    ensures StrLess(a, b) <==> exists i: nat :: SmallerAt(a, b, i)
  {
    if a == [] || b == [] || a[0] != b[0] {
      SmallerAtStart(a, b);
    } else {
      StrLessIff(a[1..], b[1..]);
      if i: nat :| SmallerAt(a[1..], b[1..], i) {
        assert a[..i + 1] == [a[0]] + a[1..][..i] && b[..i + 1] == [b[0]] + b[1..][..i];
        assert SmallerAt(a, b, i + 1);
      }
      if i: nat :| SmallerAt(a, b, i) {
        assert i > 0;
        assert a[1..][..i - 1] == a[..i][1..] && b[1..][..i - 1] == b[..i][1..];
        assert SmallerAt(a[1..], b[1..], i - 1);
      }
    }
  }

  lemma SmallerAtStart(a: string, b: string)
    requires a == [] || b == [] || a[0] != b[0]
    ensures StrLess(a, b) <==> exists i: nat :: SmallerAt(a, b, i)
  {
    if StrLess(a, b) {
      assert SmallerAt(a, b, 0);
    }
    if i: nat :| SmallerAt(a, b, i) {
      assert i == 0;
    }
  }

  function Pow10(k: nat): nat
    ensures Pow10(k) > 0
  {
    if k == 0 then 1 else 10 * Pow10(k - 1)
  }

  function Min(a: int, b: int): int {
    if a < b then a else b
  }

  lemma {:induction false} StrLessExtends(a: string, b: string, x: char, y: char)
    requires |a| == |b|
    ensures StrLess(a + [x], b + [y]) <==> StrLess(a, b) || (a == b && x < y)
  {
    if a == [] {
      assert StrLess([x], [y]) <==> x < y;
    } else {
      assert (a + [x])[1..] == a[1..] + [x] && (b + [y])[1..] == b[1..] + [y];
      StrLessExtends(a[1..], b[1..], x, y);
      assert a == [a[0]] + a[1..] && b == [b[0]] + b[1..];
    }
  }

  lemma {:induction false} EqualLengthOrder(a: string, b: string)
    requires |a| == |b| && AllDigits(a) && AllDigits(b)
    ensures StrLess(a, b) <==> DigitsValue(a) < DigitsValue(b)
    ensures a == b <==> DigitsValue(a) == DigitsValue(b)
  {
    if a != [] {
      var k := |a| - 1;
      EqualLengthOrder(a[..k], b[..k]);
      StrLessExtends(a[..k], b[..k], a[k], b[k]);
      assert a == a[..k] + [a[k]] && b == b[..k] + [b[k]];
      assert IsDigit(a[k]) && IsDigit(b[k]);
    }
  }

  lemma {:induction false} StrLessPrefix(a: string, b: string)
    ensures |a| < |b| ==> (StrLess(a, b) <==> StrLess(a, b[..|a|]) || a == b[..|a|])
    ensures |a| > |b| ==> (StrLess(a, b) <==> StrLess(a[..|b|], b))
  {
    if a != [] && b != [] {
      StrLessPrefix(a[1..], b[1..]);
      if |a| < |b| {
        assert b[..|a|][1..] == b[1..][..|a| - 1];
        assert a == [a[0]] + a[1..] && b[..|a|] == [b[0]] + b[1..][..|a| - 1];
      } else if |a| > |b| {
        assert a[..|b|][1..] == a[1..][..|b| - 1];
      }
    }
  }

  lemma {:induction false} PrefixValue(s: string, k: nat)
    requires k <= |s| && AllDigits(s)
    ensures AllDigits(s[..k])
    ensures DigitsValue(s[..k]) == DigitsValue(s) / Pow10(|s| - k)
    decreases |s| - k
  {
    if k == |s| {
      assert s[..k] == s;
    } else {
      PrefixValue(s, k + 1);
      assert s[..k + 1][..k] == s[..k];
      var p := Pow10(|s| - k - 1);
      DivTwice(DigitsValue(s), p);
      assert IsDigit(s[k]);
    }
  }

  lemma DivTwice(v: nat, p: nat)
    requires p > 0
    ensures v / (10 * p) == v / p / 10
  {
    var q, r := v / p, v % p;
    Recombine(v, p, q, r, q / 10, q % 10);
    MulAtMost(p, q % 10, 9);
    QuotientIs(v, 10 * p, q / 10, p * (q % 10) + r);
  }

  lemma Recombine(v: nat, p: nat, q: nat, r: nat, tens: nat, ones: nat)
    requires v == p * q + r && q == 10 * tens + ones
    ensures v == (10 * p) * tens + (p * ones + r)
  {
    calc {
      p * q;
      p * (10 * tens + ones);
      p * (10 * tens) + p * ones;
      (10 * p) * tens + p * ones;
    }
  }

  lemma MulAtMost(p: nat, a: nat, b: nat)
    requires a <= b
    ensures p * a <= p * b
  {
  }

  lemma QuotientIs(v: nat, d: nat, q: nat, r: nat)
    requires d > 0 && v == d * q + r && r < d
    ensures v / d == q
  {
    var q2 := v / d;
    assert v == d * q2 + v % d;
    if q2 < q {
      MulAtMost(d, q2 + 1, q);
    } else if q2 > q {
      MulAtMost(d, q + 1, q2);
    }
  }

  /** What the shrink test really compares: the two numbers cut to the shorter length,
      with the shorter text winning a tie. */
  lemma DecimalTextOrder(x: nat, y: nat)
    ensures var a, b := FormatInt(x), FormatInt(y);
            var k := Min(|a|, |b|);
            var x', y' := x / Pow10(|a| - k), y / Pow10(|b| - k);
            StrLess(a, b) <==> x' < y' || (x' == y' && |a| < |b|)
  {
    FormatNatValue(x);
    FormatNatValue(y);
    DigitsTextOrder(FormatInt(x), FormatInt(y));
  }

  lemma DigitsTextOrder(a: string, b: string)
    requires AllDigits(a) && AllDigits(b)
    ensures var k := Min(|a|, |b|);
            var x', y' := DigitsValue(a) / Pow10(|a| - k), DigitsValue(b) / Pow10(|b| - k);
            StrLess(a, b) <==> x' < y' || (x' == y' && |a| < |b|)
  {
    var k := Min(|a|, |b|);
    PrefixValue(a, k);
    PrefixValue(b, k);
    PrefixOrder(a, b, k);
  }

  lemma PrefixOrder(a: string, b: string, k: nat)
    requires AllDigits(a) && AllDigits(b) && k == Min(|a|, |b|)
    ensures AllDigits(a[..k]) && AllDigits(b[..k])
    ensures StrLess(a, b) <==>
            DigitsValue(a[..k]) < DigitsValue(b[..k]) || (DigitsValue(a[..k]) == DigitsValue(b[..k]) && |a| < |b|)
  {
    EqualLengthOrder(a[..k], b[..k]);
    StrLessPrefix(a, b);
    assert |a| <= |b| ==> a[..k] == a;
    assert |b| <= |a| ==> b[..k] == b;
  }

  /** With as many digits on both sides the text order is the numeric order,
      and an absent claim (the empty text) is never larger than a demand. */
  lemma ShrinkTestAgreesAtEqualLength(x: nat, y: nat)
    ensures |FormatInt(x)| == |FormatInt(y)| ==> (StrLess(FormatInt(x), FormatInt(y)) <==> x < y)
    ensures !StrLess(FormatInt(x), "")
  {
    DecimalTextOrder(x, y);
  }

  /** More digits, larger number. */
  lemma LongerIsLarger(x: nat, y: nat)
    requires |FormatInt(x)| < |FormatInt(y)|
    ensures x < y
  {
    FormatNatBounds(x);
    FormatNatBounds(y);
    Pow10Grows(|FormatInt(x)|, |FormatInt(y)| - 1);
  }

  lemma {:induction false} FormatNatBounds(n: nat)
    ensures |FormatNat(n)| > 0 && n < Pow10(|FormatNat(n)|)
    ensures n > 0 ==> Pow10(|FormatNat(n)| - 1) <= n
  {
    if n >= 10 {
      FormatNatBounds(n / 10);
    }
  }

  lemma {:induction false} Pow10Grows(a: nat, b: nat)
    requires a <= b
    ensures Pow10(a) <= Pow10(b)
  {
    if a < b {
      Pow10Grows(a, b - 1);
    }
  }

  /** The text order is the numeric order if and only if both texts have as many digits, or the shorter number
      is at most the number made of as many leading digits of the longer one. */
  lemma TextOrderAgreesIff(x: nat, y: nat)
    ensures var a, b := FormatInt(x), FormatInt(y);
            (StrLess(a, b) <==> x < y)
            <==>
                (if |a| < |b| then x <= y / Pow10(|b| - |a|) else if |b| < |a| then y <= x / Pow10(|a| - |b|) else true)
  {
    var a, b := FormatInt(x), FormatInt(y);
    if |a| < |b| {
      ShorterFirst(x, y);
      LongerIsLarger(x, y);
    } else if |b| < |a| {
      ShorterSecond(x, y);
      LongerIsLarger(y, x);
    } else {
      ShrinkTestAgreesAtEqualLength(x, y);
    }
  }

  lemma ShorterFirst(x: nat, y: nat)
    requires |FormatInt(x)| < |FormatInt(y)|
    ensures StrLess(FormatInt(x), FormatInt(y)) <==> x <= y / Pow10(|FormatInt(y)| - |FormatInt(x)|)
  {
    DecimalTextOrder(x, y);
    assert x / Pow10(0) == x;
  }

  lemma ShorterSecond(x: nat, y: nat)
    requires |FormatInt(y)| < |FormatInt(x)|
    ensures StrLess(FormatInt(x), FormatInt(y)) <==> x / Pow10(|FormatInt(x)| - |FormatInt(y)|) < y
  {
    DecimalTextOrder(x, y);
    assert y / Pow10(0) == y;
  }

  /** Lowering a demand from 10 to 9 is not seen as shrinking; raising it from 9 to 10 is. */
  lemma ShrinkTestDisagrees()
    ensures !StrLess(FormatInt(9), FormatInt(10)) && StrLess(FormatInt(10), FormatInt(9))
  {
    assert FormatInt(9) == "9" && FormatInt(10) == "10";
  }

  // ----- strings.Split, Join, Contains -----

  /** strings.Split with a one-character separator; never empty. */
  function Split(s: string, sep: char): (parts: seq<string>)
    ensures |parts| > 0
  {
    if s == [] then [""]
    else
      var rest := Split(s[1..], sep);
      if s[0] == sep then [""] + rest else [[s[0]] + rest[0]] + rest[1..]
  }

  /** strings.Join with a one-character separator. */
  function Join(parts: seq<string>, sep: char): string
    requires |parts| > 0
  {
    if |parts| == 1 then parts[0] else parts[0] + [sep] + Join(parts[1..], sep)
  }

  lemma JoinEmptyFirst(parts: seq<string>, sep: char)
    requires |parts| > 0
    ensures Join([""] + parts, sep) == [sep] + Join(parts, sep)
  {
    assert ([""] + parts)[1..] == parts;
  }

  lemma JoinLongerFirst(c: char, parts: seq<string>, sep: char)
    requires |parts| > 0
    ensures Join([[c] + parts[0]] + parts[1..], sep) == [c] + Join(parts, sep)
  {
    var longer := [[c] + parts[0]] + parts[1..];
    assert longer[1..] == parts[1..];
    if |parts| > 1 {
      assert [c] + parts[0] + [sep] + Join(parts[1..], sep) == [c] + (parts[0] + [sep] + Join(parts[1..], sep));
    }
  }

  lemma {:induction false} JoinInvertsSplit(s: string, sep: char)
    ensures Join(Split(s, sep), sep) == s
  {
    if s != [] {
      JoinInvertsSplit(s[1..], sep);
      JoinEmptyFirst(Split(s[1..], sep), sep);
      JoinLongerFirst(s[0], Split(s[1..], sep), sep);
      assert s == [s[0]] + s[1..];
    }
  }

  lemma {:induction false} SplitPlain(w: string, sep: char)
    requires sep !in w
    ensures Split(w, sep) == [w]
  {
    if w != [] {
      assert w[0] in w && forall c | c in w[1..] :: c in w;
      SplitPlain(w[1..], sep);
      assert [w[0]] + w[1..] == w;
    }
  }

  lemma {:induction false} SplitAfterWord(w: string, sep: char, tail: string)
    requires sep !in w
    ensures Split(w + [sep] + tail, sep) == [w] + Split(tail, sep)
  {
    var s := w + [sep] + tail;
    if w == [] {
      assert s[1..] == tail;
    } else {
      assert w[0] in w && forall c | c in w[1..] :: c in w;
      SplitAfterWord(w[1..], sep, tail);
      assert s[1..] == w[1..] + [sep] + tail;
      assert [w[0]] + w[1..] == w;
      assert ([w[1..]] + Split(tail, sep))[1..] == Split(tail, sep);
    }
  }

  lemma {:induction false} SplitInvertsJoin(parts: seq<string>, sep: char)
    requires |parts| > 0
    requires forall i | 0 <= i < |parts| :: sep !in parts[i]
    ensures Split(Join(parts, sep), sep) == parts
  {
    if |parts| == 1 {
      SplitPlain(parts[0], sep);
    } else {
      SplitInvertsJoin(parts[1..], sep);
      SplitAfterWord(parts[0], sep, Join(parts[1..], sep));
      assert [parts[0]] + parts[1..] == parts;
    }
  }

  predicate OccursAt(s: string, sub: string, i: nat) {
    i + |sub| <= |s| && s[i..i + |sub|] == sub
  }

  /** strings.Contains. */
  predicate Contains(s: string, sub: string) {
    exists i: nat | i <= |s| :: OccursAt(s, sub, i)
  }

  /** A text contains another if and only if it is that one with something before and after. */
  lemma ContainsIff(s: string, sub: string)
    ensures Contains(s, sub) <==> exists a: string, b: string :: s == a + sub + b
  {
    if Contains(s, sub) {
      var i: nat :| i <= |s| && OccursAt(s, sub, i);
      assert s == s[..i] + sub + s[i + |sub|..];
    }
    if a: string, b: string :| s == a + sub + b {
      assert OccursAt(s, sub, |a|);
    }
  }
}
