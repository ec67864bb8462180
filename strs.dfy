/**
 * The JavaScript value operations the scripts rely on: relational comparison of
 * strings (code unit by code unit), truthiness of optional strings, the
 * decimal rendering of small non-negative integers, and the insertion order
 * of a `Set` or of an object's keys.
 */
module Strs {
  import opened Wrappers

  /** `a < b` on JavaScript strings: lexicographic, a proper prefix is smaller. */
  predicate LexLess(a: string, b: string)
    decreases |a|
  {
    if a == [] then b != []
    else if b == [] then false
    else if a[0] != b[0] then a[0] < b[0]
    else LexLess(a[1..], b[1..])
  }

  /** `a <= b` on JavaScript strings, which the language defines as `!(b < a)`. */
  predicate LexLe(a: string, b: string) {
    !LexLess(b, a)
  }

  lemma {:induction false} LexLessIrreflexive(a: string)
    ensures !LexLess(a, a)
    decreases |a|
  {
    if a != [] {
      LexLessIrreflexive(a[1..]);
    }
  }

  lemma {:induction false} LexLessAsymmetric(a: string, b: string)
    ensures !(LexLess(a, b) && LexLess(b, a))
    decreases |a|
  {
    if a != [] && b != [] && a[0] == b[0] {
      LexLessAsymmetric(a[1..], b[1..]);
    }
  }

  /** Two different strings are always ordered one way or the other. */
  lemma {:induction false} LexLessTotal(a: string, b: string)
    ensures a == b || LexLess(a, b) || LexLess(b, a)
    decreases |a|
  {
    if a != [] && b != [] && a[0] == b[0] {
      LexLessTotal(a[1..], b[1..]);
      if a[1..] == b[1..] {
        assert a == [a[0]] + a[1..] && b == [b[0]] + b[1..];
      }
    }
  }

  lemma {:induction false} LexLessTransitive(a: string, b: string, c: string)
    requires LexLess(a, b) && LexLess(b, c)
    ensures LexLess(a, c)
    decreases |a|
  {
    if a != [] && a[0] == b[0] && b[0] == c[0] {
      LexLessTransitive(a[1..], b[1..], c[1..]);
    }
  }

  /** `<=` is antisymmetric, so it is a total order on strings. */
  lemma LexLeAntisymmetric(a: string, b: string)
    requires LexLe(a, b) && LexLe(b, a)
    ensures a == b
  {
    LexLessTotal(a, b);
  }

  lemma LexLeTransitive(a: string, b: string, c: string)
    requires LexLe(a, b) && LexLe(b, c)
    ensures LexLe(a, c)
  {
    LexLessTotal(a, b);
    LexLessTotal(b, c);
    if LexLess(c, a) {
      if a == b {
      } else if b == c {
      } else {
        LexLessTransitive(a, b, c);
        LexLessAsymmetric(a, c);
      }
    }
  }

  lemma LexLessLe(a: string, b: string)
    requires LexLess(a, b)
    ensures LexLe(a, b) && a != b
  {
    LexLessAsymmetric(a, b);
    if a == b { LexLessIrreflexive(a); }
  }

  lemma LexNotLessIsLe(a: string, b: string)
    requires !LexLess(a, b)
    ensures LexLe(b, a)
  {
  }

  /** Comparing equal-length heads first: the head decides unless the heads are equal. */
  lemma {:induction false} LexLessConcat(a: string, b: string, c: string, d: string)
    requires |a| == |b|
    ensures LexLess(a + c, b + d) <==> LexLess(a, b) || (a == b && LexLess(c, d))
    decreases |a|
  {
    if a == [] {
      assert a + c == c && b + d == d;
    } else {
      assert (a + c)[0] == a[0] && (b + d)[0] == b[0];
      assert (a + c)[1..] == a[1..] + c && (b + d)[1..] == b[1..] + d;
      LexLessConcat(a[1..], b[1..], c, d);
      if a[0] == b[0] && a[1..] == b[1..] {
        assert a == [a[0]] + a[1..] && b == [b[0]] + b[1..];
      }
    }
  }

  /** JavaScript truthiness of an optional string: present and non-empty. */
  predicate Truthy(s: Option<string>) {
    s.Some? && s.value != ""
  }

  /** `s || ''`. */
  function OrEmpty(s: Option<string>): (r: string)
    ensures r != "" <==> Truthy(s)
  {
    if s.Some? then s.value else ""
  }

  /** `s || null`: the empty string becomes absent. */
  function Normalize(s: Option<string>): (r: Option<string>)
    ensures Truthy(r) <==> Truthy(s)
    ensures r.Some? ==> r == s && r.value != ""
  {
    if Truthy(s) then s else None
  }

  predicate StartsWith(s: string, prefix: string) {
    |prefix| <= |s| && s[..|prefix|] == prefix
  }

  predicate IsDigit(c: char) { '0' <= c <= '9' }

  predicate AllDigits(s: string) {
    forall i :: 0 <= i < |s| ==> IsDigit(s[i])
  }

  function DigitChar(n: int): (c: char)
    requires 0 <= n < 10
    ensures IsDigit(c)
  {
    ['0', '1', '2', '3', '4', '5', '6', '7', '8', '9'][n]
  }

  function DigitValue(c: char): (n: int)
    requires IsDigit(c)
    ensures 0 <= n < 10 && DigitChar(n) == c
  {
    c as int - '0' as int
  }

  /** Decimal value of a string of digits. */
  function ParseDigits(s: string): (n: int)
    requires AllDigits(s)
    ensures n >= 0
  {
    if s == [] then 0 else 10 * ParseDigits(s[..|s| - 1]) + DigitValue(s[|s| - 1])
  }

  function Pow10(w: nat): (p: nat)
    ensures p >= 1
  {
    if w == 0 then 1 else 10 * Pow10(w - 1)
  }

  /** The n characters of s starting at position i are all digits. */
  predicate DigitsAt(s: string, i: nat, n: nat)
    requires i + n <= |s|
  {
    n == 0 || (IsDigit(s[i + n - 1]) && DigitsAt(s, i, n - 1))
  }

  /** Decimal value of the n digits of s starting at position i. */
  function ValueAt(s: string, i: nat, n: nat): (v: int)
    requires i + n <= |s| && DigitsAt(s, i, n)
    ensures 0 <= v < Pow10(n)
  {
    if n == 0 then 0 else 10 * ValueAt(s, i, n - 1) + DigitValue(s[i + n - 1])
  }

  /** Reading digits in place agrees with reading the cut-out field. */
  lemma {:induction false} DigitsAtSlice(s: string, i: nat, n: nat)
    requires i + n <= |s|
    ensures DigitsAt(s, i, n) <==> AllDigits(s[i..i + n])
    ensures DigitsAt(s, i, n) ==> ValueAt(s, i, n) == ParseDigits(s[i..i + n])
  {
    if n > 0 {
      DigitsAtSlice(s, i, n - 1);
      assert s[i..i + n][..n - 1] == s[i..i + n - 1];
    }
  }

  /** A digit field read in place prints back, padded to its width, as itself. */
  lemma PrintField(s: string, i: nat, n: nat)
    requires i + n <= |s| && DigitsAt(s, i, n)
    ensures Pad(ValueAt(s, i, n), n) == s[i..i + n]
  {
    DigitsAtSlice(s, i, n);
    PadParse(s[i..i + n]);
  }

  /** `String(n).padStart(w, '0')` for 0 <= n < 10^w. */
  function Pad(n: int, w: nat): (s: string)
    requires 0 <= n < Pow10(w)
    ensures |s| == w && AllDigits(s)
  {
    if w == 0 then [] else
      var s := Pad(n / 10, w - 1) + [DigitChar(n % 10)];
      assert s[..|s| - 1] == Pad(n / 10, w - 1);
      s
  }

  lemma {:induction false} ParsePad(n: int, w: nat)
    requires 0 <= n < Pow10(w)
    ensures ParseDigits(Pad(n, w)) == n
  {
    if w > 0 {
      var s := Pad(n, w);
      assert s[..|s| - 1] == Pad(n / 10, w - 1);
      ParsePad(n / 10, w - 1);
    }
  }

  lemma {:induction false} PadParse(s: string)
    requires AllDigits(s)
    ensures ParseDigits(s) < Pow10(|s|) && Pad(ParseDigits(s), |s|) == s
  {
    if s != [] {
      var init := s[..|s| - 1];
      PadParse(init);
      assert s == init + [s[|s| - 1]];
    }
  }

  /** Fixed-width digit strings compare as strings exactly as their values compare. */
  lemma {:induction false} PadOrder(a: int, b: int, w: nat)
    requires 0 <= a < Pow10(w) && 0 <= b < Pow10(w)
    ensures LexLess(Pad(a, w), Pad(b, w)) <==> a < b
  {
    if w > 0 {
      DropDigit(a, w);
      DropDigit(b, w);
      PadOrder(a / 10, b / 10, w - 1);
      LexLessConcat(Pad(a / 10, w - 1), Pad(b / 10, w - 1), [DigitChar(a % 10)], [DigitChar(b % 10)]);
      if Pad(a / 10, w - 1) == Pad(b / 10, w - 1) {
        PadInjective(a / 10, b / 10, w - 1);
      }
      DigitOrder(a, b);
    }
  }

  /** Dropping the last digit of a w-digit number leaves a (w - 1)-digit number. */
  lemma DropDigit(a: int, w: nat)
    requires w > 0 && 0 <= a < Pow10(w)
    ensures 0 <= a / 10 < Pow10(w - 1)
    ensures Pad(a, w) == Pad(a / 10, w - 1) + [DigitChar(a % 10)]
  {
  }

  /** Numbers compare by their leading digits first, then by the last digit. */
  lemma DigitOrder(a: int, b: int)
    requires 0 <= a && 0 <= b
    ensures a < b <==> a / 10 < b / 10 || (a / 10 == b / 10 && a % 10 < b % 10)
    ensures LexLess([DigitChar(a % 10)], [DigitChar(b % 10)]) <==> a % 10 < b % 10
  {
  }

  lemma PadInjective(a: int, b: int, w: nat)
    requires 0 <= a < Pow10(w) && 0 <= b < Pow10(w)
    requires Pad(a, w) == Pad(b, w)
    ensures a == b
  {
    ParsePad(a, w);
    ParsePad(b, w);
  }

  /** `String(n)` for a non-negative integer: decimal digits without leading zeros. */
  function Decimal(n: nat): (s: string)
    ensures |s| >= 1 && AllDigits(s)
    ensures |s| > 1 ==> s[0] != '0'
  {
    if n < 10 then [DigitChar(n)] else
      var s := Decimal(n / 10) + [DigitChar(n % 10)];
      assert s[..|s| - 1] == Decimal(n / 10);
      s
  }

  lemma {:induction false} ParseDecimal(n: nat)
    ensures ParseDigits(Decimal(n)) == n
  {
    if n >= 10 {
      var s := Decimal(n);
      assert s[..|s| - 1] == Decimal(n / 10);
      ParseDecimal(n / 10);
    }
  }

  /** Distinct numbers render differently. */
  lemma DecimalInjective(a: nat, b: nat)
    requires Decimal(a) == Decimal(b)
    ensures a == b
  {
    ParseDecimal(a);
    ParseDecimal(b);
  }

  /** `parts.join(sep)`. */
  function Join(parts: seq<string>, sep: string): (s: string)
    ensures parts == [] ==> s == ""
    ensures |parts| == 1 ==> s == parts[0]
  {
    if parts == [] then "" else if |parts| == 1 then parts[0] else parts[0] + sep + Join(parts[1..], sep)
  }

  /** Joining one more part appends the separator and the part: `join` puts `sep` between neighbours only. */
  lemma {:induction false} JoinSnoc(parts: seq<string>, x: string, sep: string)
    requires parts != []
    ensures Join(parts + [x], sep) == Join(parts, sep) + sep + x
  {
    if |parts| == 1 {
      assert parts + [x] == [parts[0], x];
      assert (parts + [x])[1..] == [x];
    } else {
      assert (parts + [x])[1..] == parts[1..] + [x];
      JoinSnoc(parts[1..], x, sep);
    }
  }

  /** The elements in order of first occurrence (the keys of an object or the members of a `Set`). */
  function Dedup<T(==)>(xs: seq<T>): seq<T> {
    if xs == [] then []
    else
      var init := xs[..|xs| - 1];
      Dedup(init) + (if xs[|xs| - 1] in init then [] else [xs[|xs| - 1]])
  }

  /** Every element is kept once. */
  lemma {:induction false} DedupSpec<T>(xs: seq<T>)
    ensures forall x :: x in Dedup(xs) <==> x in xs
    ensures forall i, j :: 0 <= i < j < |Dedup(xs)| ==> Dedup(xs)[i] != Dedup(xs)[j]
  {
    if xs != [] {
      var init := xs[..|xs| - 1];
      DedupSpec(init);
      assert forall x :: x in xs <==> x in init || x == xs[|xs| - 1];
    }
  }

  /** Adding an element to the end adds it to the first occurrences unless it is already there. */
  lemma DedupSnoc<T>(xs: seq<T>, x: T)
    ensures Dedup(xs + [x]) == Dedup(xs) + (if x in Dedup(xs) then [] else [x])
  {
    assert (xs + [x])[..|xs|] == xs;
    DedupSpec(xs);
  }
}
