/** Strings as the source uses them: code-point order, joining on a separator, and decimal numerals. */
module Text {
  import opened Prelude
  import opened Sorting

  /** Python's `<=` on `str`: the first differing code point decides, a prefix comes first. */
  predicate LexLe(a: string, b: string) {
    a == [] || (b != [] && (a[0] < b[0] || (a[0] == b[0] && LexLe(a[1..], b[1..]))))
  }

  /** Either a prefix, or smaller at the first position where the two differ. */
  lemma {:induction false} LexLeIs(a: string, b: string)
    ensures LexLe(a, b) <==> a <= b || exists k :: 0 <= k < |a| && k < |b| && a[..k] == b[..k] && a[k] < b[k]
  {
    if a != [] && b != [] {
      if a[0] == b[0] {
        LexLeIs(a[1..], b[1..]);
        DiffersLater(a, b);
      } else {
        assert a[..0] == b[..0];
        assert forall k :: 0 < k < |a| && k < |b| ==> a[..k][0] == a[0] && b[..k][0] == b[0];
      }
    }
  }

  /** Beyond a common first character the same relation holds. */
  lemma DiffersLater(a: string, b: string)
    requires a != [] && b != [] && a[0] == b[0]
    ensures var x, y := a[1..], b[1..];
      (x <= y <==> a <= b) &&
      ((exists k :: 0 <= k < |x| && k < |y| && x[..k] == y[..k] && x[k] < y[k]) <==>
       (exists k :: 0 <= k < |a| && k < |b| && a[..k] == b[..k] && a[k] < b[k]))
  {
    var x, y := a[1..], b[1..];
    assert a == [a[0]] + x && b == [b[0]] + y;
    if k :| 0 <= k < |x| && k < |y| && x[..k] == y[..k] && x[k] < y[k] {
      assert a[..k + 1] == [a[0]] + x[..k] && b[..k + 1] == [b[0]] + y[..k];
      assert a[k + 1] < b[k + 1];
    }
    if k :| 0 <= k < |a| && k < |b| && a[..k] == b[..k] && a[k] < b[k] {
      assert k > 0;
      assert x[..k - 1] == a[..k][1..] && y[..k - 1] == b[..k][1..];
      assert x[k - 1] < y[k - 1];
    }
  }

  lemma {:induction false} LexTotal(a: string, b: string)
    ensures LexLe(a, b) || LexLe(b, a)
    ensures LexLe(a, b) && LexLe(b, a) ==> a == b
  {
    if a != [] && b != [] && a[0] == b[0] {
      LexTotal(a[1..], b[1..]);
      assert a == [a[0]] + a[1..] && b == [b[0]] + b[1..];
    }
  }

  lemma {:induction false} LexTransitive(a: string, b: string, c: string)
    requires LexLe(a, b) && LexLe(b, c)
    ensures LexLe(a, c)
  {
    if a != [] && a[0] == b[0] && b[0] == c[0] {
      LexTransitive(a[1..], b[1..], c[1..]);
    }
  }

  lemma LexIsTotalPreorder()
    ensures TotalPreorder(LexLe)
  {
    forall a, b ensures LexLe(a, b) || LexLe(b, a) { LexTotal(a, b); }
    forall a, b, c | LexLe(a, b) && LexLe(b, c) ensures LexLe(a, c) { LexTransitive(a, b, c); }
  }

  lemma LexIsStrict(s: seq<string>)
    ensures Strict(LexLe, s)
  {
    forall a, b | a in s && b in s && LexLe(a, b) && LexLe(b, a) ensures a == b { LexTotal(a, b); }
  }

  predicate Free(c: char, s: string) {
    c !in s
  }

  /** Offset of the first `c`, or the length of `s` when there is none. */
  function Find(c: char, s: string): (i: nat)
    ensures i <= |s|
    ensures i < |s| ==> s[i] == c
    ensures Free(c, s[..i])
  {
    if s == [] || s[0] == c then 0 else
      var k := Find(c, s[1..]);
      assert s[..1 + k] == [s[0]] + s[1..][..k];
      1 + k
  }

  lemma {:induction false} FindAfter(c: char, a: string, x: string)
    requires Free(c, a)
    ensures Find(c, a + [c] + x) == |a|
  {
    var s := a + [c] + x;
    if a != [] {
      assert s[1..] == a[1..] + [c] + x;
      assert a[0] in a;
      FindAfter(c, a[1..], x);
    }
  }

  /** Python's `sep.join(parts)` for a one-character separator. */
  function Join(sep: char, parts: seq<string>): string {
    if parts == [] then []
    else if |parts| == 1 then parts[0]
    else parts[0] + [sep] + Join(sep, parts[1..])
  }

  lemma PrefixUpTo(sep: char, a: string, x: string, b: string, y: string)
    requires Free(sep, a) && Free(sep, b) && a + [sep] + x == b + [sep] + y
    ensures a == b && x == y
  {
    var s := a + [sep] + x;
    FindAfter(sep, a, x);
    FindAfter(sep, b, y);
    assert s[..|a|] == a && s[|a| + 1..] == x;
  }

  lemma JoinShowsSeparator(sep: char, a: seq<string>)
    requires a != [] && forall p :: p in a ==> Free(sep, p)
    ensures Free(sep, Join(sep, a)) <==> |a| == 1
  {
    if |a| > 1 {
      assert Join(sep, a)[|a[0]|] == sep;
    }
  }

  /** Joining separator-free parts loses nothing except the difference between `[]` and `[""]`. */
  lemma {:induction false} JoinInjective(sep: char, a: seq<string>, b: seq<string>)
    requires forall p :: p in a ==> Free(sep, p)
    requires forall p :: p in b ==> Free(sep, p)
    requires a != [] && b != [] && Join(sep, a) == Join(sep, b)
    ensures a == b
  {
    JoinShowsSeparator(sep, a);
    JoinShowsSeparator(sep, b);
    if |a| > 1 {
      PrefixUpTo(sep, a[0], Join(sep, a[1..]), b[0], Join(sep, b[1..]));
      JoinInjective(sep, a[1..], b[1..]);
      assert a == [a[0]] + a[1..] && b == [b[0]] + b[1..];
    }
  }

  lemma {:induction false} JoinEmpty(sep: char, a: seq<string>)
    ensures Join(sep, a) == [] <==> a == [] || a == [""]
  {
    if |a| >= 2 {
      assert |Join(sep, a)| >= 1;
    }
  }

  // ---- decimal numerals ----

  predicate IsDigit(c: char) {
    '0' <= c <= '9'
  }

  function DigitChar(d: nat): (c: char)
    requires d < 10
    ensures IsDigit(c)
  {
    '0' + d as char
  }

  /** `"%d"` of a non-negative integer. */
  function Decimal(n: nat): string {
    if n < 10 then [DigitChar(n)] else Decimal(n / 10) + [DigitChar(n % 10)]
  }

  /** `"%d"` of any integer. */
  function SignedDecimal(n: int): string {
    if n < 0 then "-" + Decimal(-n) else Decimal(n)
  }

  /** `"%03d"` of a non-negative integer. */
  function Padded3(n: nat): string {
    var d := Decimal(n);
    if |d| == 1 then "00" + d else if |d| == 2 then "0" + d else d
  }

  /** The most significant digit comes first, and three places are filled with zeros in front. */
  lemma NumeralsReadLeftToRight()
    ensures Padded3(7) == "007" && Padded3(12) == "012" && Padded3(345) == "345" && Padded3(6789) == "6789"
    ensures SignedDecimal(-12) == "-12"
  {
    assert Decimal(6) == "6" && Decimal(67) == "67" && Decimal(678) == "678" && Decimal(6789) == "6789";
    assert Decimal(3) == "3" && Decimal(34) == "34" && Decimal(345) == "345" && Decimal(12) == "12";
  }

  /** Length of the maximal run of digits at the front: what `^(\d+)` captures. */
  function DigitRun(s: string): nat {
    if s != [] && IsDigit(s[0]) then 1 + DigitRun(s[1..]) else 0
  }

  /** Python's `int(text)` on a string of decimal digits. */
  function Value(s: string): nat
    requires forall c :: c in s ==> IsDigit(c)
  {
    if s == [] then 0 else
      assert IsDigit(s[|s| - 1]);
      10 * Value(s[..|s| - 1]) + (s[|s| - 1] as int - '0' as int)
  }

  lemma {:induction false} DecimalDigits(n: nat)
    ensures Decimal(n) != [] && forall c :: c in Decimal(n) ==> IsDigit(c)
    ensures Value(Decimal(n)) == n
  {
    if n >= 10 {
      DecimalDigits(n / 10);
      var d := Decimal(n);
      assert d[..|d| - 1] == Decimal(n / 10);
    }
  }

  /** Printed integers are free of other characters, and different ones print differently. */
  lemma SignedDecimalInjective(m: int, n: int)
    ensures forall c :: c in SignedDecimal(n) ==> IsDigit(c) || c == '-'
    ensures SignedDecimal(m) == SignedDecimal(n) <==> m == n
  {
    DecimalDigits(if m < 0 then -m else m);
    DecimalDigits(if n < 0 then -n else n);
    var a, b := Decimal(if m < 0 then -m else m), Decimal(if n < 0 then -n else n);
    assert a[0] in a && b[0] in b;
    assert ("-" + a)[1..] == a && ("-" + b)[1..] == b;
  }

  lemma {:induction false} LeadingZero(s: string)
    requires forall c :: c in s ==> IsDigit(c)
    ensures forall c :: c in "0" + s ==> IsDigit(c)
    ensures Value("0" + s) == Value(s)
  {
    var z := "0" + s;
    if s != [] {
      LeadingZero(s[..|s| - 1]);
      assert z[..|z| - 1] == "0" + s[..|s| - 1];
    } else {
      assert z[..0] == [];
    }
  }

  lemma Padded3Value(n: nat)
    ensures |Padded3(n)| >= 3
    ensures forall c :: c in Padded3(n) ==> IsDigit(c)
    ensures Value(Padded3(n)) == n
  {
    DecimalDigits(n);
    var d := Decimal(n);
    LeadingZero(d);
    LeadingZero("0" + d);
    assert "0" + ("0" + d) == "00" + d;
  }

  lemma {:induction false} DigitRunIs(d: string, rest: string)
    requires forall c :: c in d ==> IsDigit(c)
    requires rest == [] || !IsDigit(rest[0])
    ensures DigitRun(d + rest) == |d|
  {
    if d == [] {
      assert d + rest == rest;
    } else {
      assert (d + rest)[1..] == d[1..] + rest;
      DigitRunIs(d[1..], rest);
    }
  }

  lemma {:induction false} DigitRunBound(s: string)
    ensures DigitRun(s) <= |s|
    ensures forall c :: c in s[..DigitRun(s)] ==> IsDigit(c)
  {
    if s != [] && IsDigit(s[0]) {
      DigitRunBound(s[1..]);
      assert s[..DigitRun(s)] == [s[0]] + s[1..][..DigitRun(s[1..])];
    }
  }
}
