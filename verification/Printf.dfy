// Printing numbers into a buffer, and reading them back.
module Numerals {
  import opened Powers

  function Pow(b: nat, e: nat): nat {
    if e == 0 then 1 else b * Pow(b, e - 1)
  }

  lemma {:induction false} PowPositive(b: nat, e: nat)
    requires b > 0
    ensures Pow(b, e) > 0
  {
    if e == 0 {
    } else {
      PowPositive(b, e - 1);
      MulPositive(b, Pow(b, e - 1));
    }
  }

  lemma MulPositive(a: nat, b: nat)
    requires a > 0 && b > 0
    ensures a * b > 0
  {
  }

  /** The remainder of an unsigned division. */
  function Remainder(a: nat, b: nat): nat
    requires b > 0
  {
    a % b
  }

  /** The number that digits stand for, the most significant first. */
  function Value(ds: seq<nat>, base: nat): nat {
    if ds == [] then 0 else Value(ds[..|ds| - 1], base) * base + ds[|ds| - 1]
  }

  /** How numbers are written: digits of the base, at least one, and no leading zero before others. */
  ghost predicate Canonical(ds: seq<nat>, base: nat) {
    && ds != [] && (forall i :: 0 <= i < |ds| ==> ds[i] < base)
    && (|ds| > 1 ==> ds[0] > 0)
  }

  function Digits(n: nat, base: nat): (ds: seq<nat>)
    requires base >= 2
    ensures ds != []
    decreases n
  {
    if n < base then [n]
    else
      Divided(n, base);
      Digits(n / base, base) + [n % base]
  }

  lemma ValuePush(ds: seq<nat>, d: nat, base: nat)
    ensures Value(ds + [d], base) == Value(ds, base) * base + d
  {
    assert (ds + [d])[..|ds|] == ds;
  }

  lemma {:induction false} DigitsCanonical(n: nat, base: nat)
    requires base >= 2
    ensures Canonical(Digits(n, base), base) && Value(Digits(n, base), base) == n
    ensures n > 0 ==> Digits(n, base)[0] > 0
    decreases n, 1
  {
    if n < base {
      assert [n][..0] == [];
    } else {
      Divided(n, base);
      DigitsOf(n / base, n % base, n, base);
    }
  }

  lemma DigitsOf(q: nat, r: nat, n: nat, base: nat)
    requires base >= 2 && n >= base && q == n / base && r == n % base && n == q * base + r && r < base && 0 < q < n
    ensures Canonical(Digits(n, base), base) && Value(Digits(n, base), base) == n
    ensures Digits(n, base)[0] > 0
    decreases n, 0
  {
    DigitsCanonical(q, base);
    ValuePush(Digits(q, base), r, base);
  }

  lemma Divided(n: nat, b: nat)
    requires b > 0
    ensures n == (n / b) * b + n % b && 0 <= n % b < b
    ensures n >= b ==> n / b > 0
    ensures n >= b >= 2 ==> n / b < n
  {
  }

  /** There is only one canonical way to write a number. */
  lemma {:induction false} CanonicalUnique(ds: seq<nat>, n: nat, base: nat)
    requires base >= 2 && Canonical(ds, base) && Value(ds, base) == n
    ensures ds == Digits(n, base)
    decreases |ds|
  {
    var front, last := ds[..|ds| - 1], ds[|ds| - 1];
    if front == [] {
      assert Value(front, base) == 0;
    } else {
      PositiveValue(front, base);
      DivModOf(Value(front, base), last, base);
      CanonicalUnique(front, Value(front, base), base);
      assert ds == front + [last];
    }
  }

  lemma {:induction false} PositiveValue(ds: seq<nat>, base: nat)
    requires base >= 2 && ds != [] && ds[0] > 0
    ensures Value(ds, base) > 0
    decreases |ds|
  {
    if |ds| == 1 {
    } else {
      PositiveValue(ds[..|ds| - 1], base);
      MulPositive(Value(ds[..|ds| - 1], base), base);
    }
  }

  lemma DivModOf(q: nat, r: nat, b: nat)
    requires r < b
    ensures (q * b + r) / b == q && (q * b + r) % b == r
    ensures q > 0 ==> q * b + r >= b
  {
    DivUnique(q * b + r, b, q, r);
    if q > 0 {
      MulMonotone(1, q, b);
    }
  }

  // ---------------------------------------------------------------- digits from the top

  /** The `j` lowest digits of a number, computed from the top. */
  function Fixed(n: nat, base: nat, j: nat): (ds: seq<nat>)
    requires base >= 2
    ensures |ds| == j
    decreases j
  {
    if j == 0 then []
    else
      PowPositive(base, j - 1);
      [n / Pow(base, j - 1)] + Fixed(n % Pow(base, j - 1), base, j - 1)
  }

  /** A digit put in front adds its weight. */
  lemma {:induction false} ValueFront(d: nat, ds: seq<nat>, base: nat)
    ensures Value([d] + ds, base) == d * Pow(base, |ds|) + Value(ds, base)
    decreases |ds|
  {
    var all := [d] + ds;
    if ds == [] {
      assert all[..0] == [];
    } else {
      var front, last := ds[..|ds| - 1], ds[|ds| - 1];
      ValueFront(d, front, base);
      assert all[..|all| - 1] == [d] + front;
      Regroup(d, Pow(base, |front|), Value(front, base), base);
    }
  }

  lemma Regroup(d: nat, p: nat, v: nat, b: nat)
    ensures (d * p + v) * b == d * (b * p) + v * b
  {
    assert (d * p + v) * b == d * p * b + v * b;
    assert d * p * b == d * (p * b) == d * (b * p);
  }

  lemma {:induction false} FixedValue(n: nat, base: nat, j: nat)
    requires base >= 2 && n < Pow(base, j)
    ensures Value(Fixed(n, base, j), base) == n
    ensures forall i :: 0 <= i < j ==> Fixed(n, base, j)[i] < base
    decreases j
  {
    if j == 0 {
    } else {
      var p := Pow(base, j - 1);
      PowPositive(base, j - 1);
      var q, r := n / p, n % p;
      TopDigit(n, p, base);
      FixedValue(r, base, j - 1);
      ValueFront(q, Fixed(r, base, j - 1), base);
    }
  }

  lemma TopDigit(n: nat, p: nat, base: nat)
    requires p > 0 && n < base * p
    ensures 0 <= n / p < base && 0 <= n % p < p && n == (n / p) * p + n % p
  {
    if n / p >= base {
      MulMonotone(base, n / p, p);
    }
  }

  /** With the right number of digits these are the canonical ones. */
  lemma FixedDigits(n: nat, base: nat, k: nat)
    requires base >= 2 && n < Pow(base, k + 1) && (k == 0 || Pow(base, k) <= n)
    ensures Fixed(n, base, k + 1) == Digits(n, base)
  {
    FixedValue(n, base, k + 1);
    PowPositive(base, k);
    if k > 0 {
      AtLeastOne(n, Pow(base, k));
    }
    CanonicalUnique(Fixed(n, base, k + 1), n, base);
  }

  lemma AtLeastOne(n: nat, p: nat)
    requires 0 < p <= n
    ensures n / p >= 1
  {
  }

  // ---------------------------------------------------------------- how many digits

  /** A number below a power of the base has no more digits than the power. */
  lemma {:induction false} DigitCount(n: nat, base: nat, k: nat)
    requires base >= 2 && k > 0 && n < Pow(base, k)
    ensures |Digits(n, base)| <= k
    decreases k
  {
    assert Pow(base, 1) == base * Pow(base, 0);
    if n < base {
    } else {
      Smaller(n, base, Pow(base, k - 1));
      DigitCount(n / base, base, k - 1);
    }
  }

  lemma Smaller(n: nat, b: nat, p: nat)
    requires b > 0 && n < b * p
    ensures n / b < p
  {
    assert n == (n / b) * b + n % b;
    if n / b >= p {
      MulMonotone(p, n / b, b);
    }
  }

  /** Leading digits stand for a smaller number: reading never passes the number it ends with. */
  lemma {:induction false} ValuePrefix(ds: seq<nat>, k: nat, base: nat)
    requires base >= 1 && k <= |ds|
    ensures Value(ds[..k], base) <= Value(ds, base)
    decreases |ds|
  {
    if k == |ds| {
      assert ds[..k] == ds;
    } else {
      var front := ds[..|ds| - 1];
      ValuePrefix(front, k, base);
      assert front[..k] == ds[..k];
      MulMonotone(1, base, Value(front, base));
    }
  }
}

module Printf {
  import opened Powers
  import opened Numerals

  const UINT_MAX: nat := 0xFFFF_FFFF
  const INT_MAX: int := 0x7FFF_FFFF
  const INT_MIN: int := -0x8000_0000

  /** The character of a digit. */
  function DigitChar(d: nat, uc: bool): char
    requires d < 16
  {
    if d < 10 then ('0' as int + d) as char
    else if uc then ('A' as int + d - 10) as char
    else ('a' as int + d - 10) as char
  }

  function Chars(ds: seq<nat>, uc: bool): (cs: seq<char>)
    requires forall i :: 0 <= i < |ds| ==> ds[i] < 16
    ensures |cs| == |ds|
  {
    seq(|ds|, i requires 0 <= i < |ds| => DigitChar(ds[i], uc))
  }

  /** How a number is printed. */
  function Printed(n: nat, base: nat, uc: bool): (cs: seq<char>)
    requires 2 <= base <= 16
    ensures cs != []
  {
    DigitsCanonical(n, base);
    Chars(Digits(n, base), uc)
  }

  // ---------------------------------------------------------------- printing

  /** The first loop: the largest power of the base that is not above the number, or 1. */
  method Divisor(num: nat, base: nat) returns (d: nat, ghost k: nat)
    requires 2 <= base
    ensures d == Pow(base, k) > 0 && num < Pow(base, k + 1)
    ensures num > 0 ==> d <= num
    ensures num == 0 ==> d == 1
    ensures k > 0 ==> d <= num
  {
    d, k := 1, 0;
    while num / d >= base
      invariant d > 0 && d == Pow(base, k)
      invariant d == 1 || d <= num
      invariant k > 0 ==> d <= num
      decreases num - d
    {
      Grown(num, d, base);
      d := d * base;
      k := k + 1;
    }
    BelowNext(num, d, base);
  }

  lemma Grown(num: nat, d: nat, base: nat)
    requires d > 0 && base >= 2 && num / d >= base
    ensures d < d * base <= num
  {
    MulMonotone(base, num / d, d);
    MulMonotone(2, base, d);
    assert num == (num / d) * d + num % d;
  }

  lemma BelowNext(num: nat, d: nat, base: nat)
    requires d > 0 && num / d < base
    ensures num < base * d
  {
    MulMonotone(num / d + 1, base, d);
    assert num == (num / d) * d + num % d;
  }

  /** `ui2a`: the digits go into the buffer from `at` on, then the terminating NUL; nothing else is
      touched. */
  method Ui2a(num: nat, base: nat, uc: bool, bf: array<char>, at: nat) returns (end: nat)
    requires 2 <= base <= 16
    requires at + |Printed(num, base, uc)| < bf.Length
    modifies bf
    ensures end == at + |Printed(num, base, uc)|
    ensures bf[..] == old(bf[..at]) + Printed(num, base, uc) + ['\0'] + old(bf[end + 1..])
  {
    hide Pow, Fixed, Filled, Printed;
    var d;
    ghost var k;
    d, k := Divisor(num, base);
    FixedDigits(num, base, k);
    FixedValue(num, base, k + 1);
    end := PutDigits(num, base, uc, bf, at, d, k);
    EmitEnd(bf[..], old(bf[..]), Printed(num, base, uc), at);
    bf[end] := '\0';
  }

  /** The second loop: a digit for each power of the base, from the divisor down. */
  method PutDigits(num: nat, base: nat, uc: bool, bf: array<char>, at: nat, divisor: nat, ghost k: nat)
    returns (end: nat)
    requires 2 <= base <= 16 && divisor == Pow(base, k) > 0 && num < Pow(base, k + 1) && (k > 0 ==> divisor <= num)
    requires Digits(num, base) == Fixed(num, base, k + 1) && at + |Printed(num, base, uc)| < bf.Length
    modifies bf
    ensures end == at + |Printed(num, base, uc)|
    ensures Filled(bf[..], old(bf[..]), Printed(num, base, uc), at, |Printed(num, base, uc)|)
  {
    ghost var cs := Printed(num, base, uc);
    assert Filled(bf[..], bf[..], cs, at, 0);
    hide Quotient, Remainder, Filled, Pow, Fixed, Digits;
    var n: nat, d: nat := 0, divisor;
    var rest: nat := num;
    while d != 0
      invariant n <= k + 1 == |cs| && (n <= k ==> d > 0) && d == (if n <= k then Pow(base, k - n) else 0)
      invariant rest < Pow(base, k + 1 - n)
      invariant Digits(num, base)[n..] == Fixed(rest, base, k + 1 - n)
      invariant n == 0 ==> rest == num
      invariant Filled(bf[..], old(bf[..]), cs, at, n)
      decreases k + 1 - n
    {
      TakeDigit(num, base, k, n, rest);
      var dgt := Quotient(rest, d);
      rest := Remainder(rest, d);
      d := Quotient(d, base);
      if n > 0 || dgt > 0 || d == 0 {
        Emit(bf[..], old(bf[..]), cs, at, n);
        ghost var before := bf[..];
        bf[at + n] := DigitChar(dgt, uc);
        assert bf[..] == before[at + n := cs[n]];
        n := n + 1;
      }
    }
    end := at + n;
  }

  /** The first `n` characters are in the buffer. */
  ghost predicate Filled(now: seq<char>, was: seq<char>, cs: seq<char>, at: nat, n: nat) {
    && |now| == |was| && n <= |cs| && at + |cs| < |was|
    && now == was[..at] + cs[..n] + was[at + n..]
  }

  /** One round of the second loop: the next digit, and what is left.  The first digit is a zero only
      if it is the last. */
  lemma TakeDigit(num: nat, base: nat, k: nat, n: nat, rest: nat)
    requires 2 <= base <= 16 && n <= k && |Digits(num, base)| == k + 1
    requires rest < Pow(base, k + 1 - n) && Digits(num, base)[n..] == Fixed(rest, base, k + 1 - n)
    requires n == 0 && k > 0 ==> Pow(base, k) <= rest
    ensures var p := Pow(base, k - n);
      && p > 0 && Quotient(rest, p) < base && Remainder(rest, p) < p
      && Quotient(rest, p) == Digits(num, base)[n] && Digits(num, base)[n + 1..] == Fixed(Remainder(rest, p), base, k - n)
      && Quotient(p, base) == (if n < k then Pow(base, k - n - 1) else 0) && (n < k ==> Quotient(p, base) > 0)
      && (n > 0 || Quotient(rest, p) > 0 || Quotient(p, base) == 0)
  {
    var p := Pow(base, k - n);
    PowPositive(base, k - n);
    if n < k {
      PowPositive(base, k - n - 1);
    }
    TopDigit(rest, p, base);
    PowerQuotient(base, k - n);
    assert Digits(num, base)[n + 1..] == Digits(num, base)[n..][1..];
    if n == 0 && k > 0 {
      AtLeastOne(rest, p);
    }
  }

  /** One character more in the buffer, and the NUL at the end. */
  lemma Emit(now: seq<char>, was: seq<char>, cs: seq<char>, at: nat, n: nat)
    requires Filled(now, was, cs, at, n) && n < |cs|
    ensures at + n < |now| && Filled(now[at + n := cs[n]], was, cs, at, n + 1)
  {
  }

  lemma EmitEnd(now: seq<char>, was: seq<char>, cs: seq<char>, at: nat)
    requires Filled(now, was, cs, at, |cs|)
    ensures at + |cs| < |now| && now[at + |cs| := '\0'] == was[..at] + cs + ['\0'] + was[at + |cs| + 1..]
  {
    assert cs[..|cs|] == cs;
  }

  lemma PowerQuotient(base: nat, e: nat)
    requires base >= 2
    ensures Pow(base, e) / base == if e > 0 then Pow(base, e - 1) else 0
  {
    if e > 0 {
      DivModOf(Pow(base, e - 1), 0, base);
    }
  }

  /** How a signed number is printed, in base ten. */
  function PrintedInt(num: int): (cs: seq<char>)
    ensures cs != []
  {
    if num < 0 then ['-'] + Printed(-num, 10, false) else Printed(num, 10, false)
  }

  /** `i2a`.  Negating the smallest number overflows in C; passed on as an unsigned number it is the
      same, with two's complement. */
  method I2a(num: int, bf: array<char>) returns (end: nat)
    requires INT_MIN <= num <= INT_MAX && |PrintedInt(num)| < bf.Length
    modifies bf
    ensures end == |PrintedInt(num)|
    ensures bf[..] == PrintedInt(num) + ['\0'] + old(bf[end + 1..])
  {
    hide Printed;
    if num < 0 {
      bf[0] := '-';
      assert bf[..1] == ['-'] && bf[1..] == old(bf[1..]);
      end := Ui2a(-num, 10, false, bf, 1);
    } else {
      end := Ui2a(num, 10, false, bf, 0);
    }
  }

  /** Twelve characters hold any number this printer is used for, its sign and the NUL. */
  lemma BufferSuffices(num: int)
    ensures INT_MIN <= num <= INT_MAX ==> |PrintedInt(num)| < 12
    ensures 0 <= num <= UINT_MAX ==> |Printed(num, 10, false)| < 11 && |Printed(num, 16, true)| < 9
  {
    Powers10();
    if 0 <= num <= UINT_MAX {
      DigitCount(num, 10, 10);
      DigitCount(num, 16, 8);
    } else if INT_MIN <= num < 0 {
      DigitCount(-num, 10, 10);
    }
  }

  lemma Powers10()
    ensures Pow(10, 10) == 10_000_000_000 && Pow(16, 8) == 0x1_0000_0000
  {
    assert Pow(10, 3) == 1000 && Pow(10, 6) == 1000_000 && Pow(10, 9) == 1000_000_000;
    assert Pow(16, 4) == 0x1_0000;
  }

  // ---------------------------------------------------------------- reading

  /** `a2d`: the digit of a character, or -1. */
  function A2d(ch: char): (d: int)
    ensures -1 <= d < 16
  {
    if '0' <= ch <= '9' then ch as int - '0' as int
    else if 'a' <= ch <= 'f' then ch as int - 'a' as int + 10
    else if 'A' <= ch <= 'F' then ch as int - 'A' as int + 10
    else -1
  }

  const UPPER: string := "0123456789ABCDEF"
  const LOWER: string := "0123456789abcdef"

  /** A digit is printed in the case asked for, and reading undoes printing it. */
  lemma DigitRoundTrip(d: nat, uc: bool)
    requires d < 16
    ensures DigitChar(d, uc) == if uc then UPPER[d] else LOWER[d]
    ensures A2d(DigitChar(d, uc)) == d
  {
  }

  /** Only those characters read as digits. */
  lemma OnlyDigits(ch: char)
    ensures A2d(ch) >= 0 ==> ch == UPPER[A2d(ch)] || ch == LOWER[A2d(ch)]
    ensures A2d(ch) == -1 <==> ch !in UPPER && ch !in LOWER
  {
    if ch in UPPER {
      var i :| 0 <= i < 16 && UPPER[i] == ch;
    }
    if ch in LOWER {
      var i :| 0 <= i < 16 && LOWER[i] == ch;
    }
  }

  /** The characters that `a2i` takes for digits: the source tests against the base itself, so a
      digit equal to the base passes. */
  predicate Reads(ch: char, base: nat) {
    0 <= A2d(ch) <= base
  }

  /** How many characters are read. */
  function Span(cs: seq<char>, base: nat): (n: nat)
    ensures n <= |cs|
    ensures forall i :: 0 <= i < n ==> Reads(cs[i], base)
    ensures n < |cs| ==> !Reads(cs[n], base)
  {
    if cs == [] || !Reads(cs[0], base) then 0
    else
      var n := Span(cs[1..], base);
      assert forall i :: 0 < i < 1 + n ==> cs[i] == cs[1..][i - 1];
      1 + n
  }

  function DigitsRead(cs: seq<char>, base: nat): (ds: seq<nat>)
    requires forall i :: 0 <= i < |cs| ==> Reads(cs[i], base)
    ensures |ds| == |cs|
  {
    seq(|cs|, i requires 0 <= i < |cs| && Reads(cs[i], base) => A2d(cs[i]) as nat)
  }

  lemma ReadOne(cs: seq<char>, n: nat, base: nat)
    requires n < |cs| && A2d(cs[n]) >= 0 && A2d(cs[n]) <= base && n <= Span(cs, base)
    ensures n < Span(cs, base)
    ensures Value(DigitsRead(cs[..n + 1], base), base) == Value(DigitsRead(cs[..n], base), base) * base + A2d(cs[n])
  {
    assert n == Span(cs, base) ==> !Reads(cs[n], base);
    assert DigitsRead(cs[..n + 1], base) == DigitsRead(cs[..n], base) + [A2d(cs[n])];
    ValuePush(DigitsRead(cs[..n], base), A2d(cs[n]), base);
  }

  /** `a2i`: `first` has been read already and `p` is where the next character is.  It stops behind the
      first character that is no digit, and returns that. */
  method A2i(first: char, text: seq<char>, p: nat, base: nat) returns (ch: char, next: nat, num: nat)
    requires p <= |text| && Span([first] + text[p..], base) <= |text| - p
    ensures var cs := [first] + text[p..];
      var n := Span(cs, base);
      && num == Value(DigitsRead(cs[..n], base), base) && ch == cs[n] && next == p + n
  {
    ghost var cs := [first] + text[p..];
    ghost var n := 0;
    assert DigitsRead(cs[..0], base) == [];
    hide DigitsRead, A2d;
    ch, next, num := first, p, 0;
    var digit := A2d(ch);
    while digit >= 0
      invariant n <= Span(cs, base) < |cs| && next == p + n && ch == cs[n] && digit == A2d(ch)
      invariant num == Value(DigitsRead(cs[..n], base), base)
      decreases |cs| - n
    {
      if digit > base {
        break;
      }
      ReadOne(cs, n, base);
      num := num * base + digit;
      ch := text[next];
      next := next + 1;
      n := n + 1;
      digit := A2d(ch);
    }
  }

  // ---------------------------------------------------------------- the round trip

  lemma SpanAtLeast(cs: seq<char>, k: nat, base: nat)
    requires k <= |cs| && forall i :: 0 <= i < k ==> Reads(cs[i], base)
    ensures Span(cs, base) >= k
  {
  }

  /** Reading back what was printed stops at the character behind it exactly when that is no digit and
      not the digit that equals the base; and then it gives the number. */
  lemma RoundTrip(n: nat, base: nat, uc: bool, rest: seq<char>)
    requires 2 <= base <= 16 && rest != []
    ensures var cs := Printed(n, base, uc) + rest;
      && (Span(cs, base) == |Printed(n, base, uc)| <==> A2d(rest[0]) == -1 || A2d(rest[0]) > base)
      && (A2d(rest[0]) == -1 || A2d(rest[0]) > base ==> Value(DigitsRead(cs[..Span(cs, base)], base), base) == n)
  {
    var ds, ps := Digits(n, base), Printed(n, base, uc);
    var cs := ps + rest;
    DigitsCanonical(n, base);
    forall i | 0 <= i < |ds|
      ensures A2d(cs[i]) == ds[i]
    {
      DigitRoundTrip(ds[i], uc);
    }
    var m := Span(cs, base);
    SpanAtLeast(cs, |ps|, base);
    assert cs[|ps|] == rest[0];
    if m == |ps| {
      assert DigitsRead(cs[..m], base) == ds;
    }
  }

  /** These are decimal digits that stand for the number, without a leading zero. */
  ghost predicate Decimal(cs: seq<char>, n: nat) {
    && cs != [] && (forall i :: 0 <= i < |cs| ==> '0' <= cs[i] <= '9' && Reads(cs[i], 10))
    && Value(DigitsRead(cs, 10), 10) == n
    && (|cs| > 1 ==> cs[0] != '0')
  }

  lemma DecimalText(n: nat)
    ensures Decimal(Printed(n, 10, false), n)
  {
    var ds, cs := Digits(n, 10), Printed(n, 10, false);
    DigitsCanonical(n, 10);
    forall i | 0 <= i < |ds|
      ensures '0' <= cs[i] <= '9' && A2d(cs[i]) == ds[i] < 10
    {
      DigitRoundTrip(ds[i], false);
    }
    assert DigitsRead(cs, 10) == ds;
  }

  /** A signed number starts with a sign exactly if it is negative, and the rest is its magnitude. */
  lemma SignedText(num: int)
    ensures var cs := PrintedInt(num);
      && (cs[0] == '-' <==> num < 0)
      && (if num < 0 then Decimal(cs[1..], -num) else Decimal(cs, num))
  {
    DecimalText(if num < 0 then -num else num);
    hide Printed;
  }

  /** So different numbers are printed differently. */
  lemma SignedDistinct(a: int, b: int)
    requires PrintedInt(a) == PrintedInt(b)
    ensures a == b
  {
    SignedText(a);
    SignedText(b);
  }

  /** While the digits of a number are read, what has been read is never above the number, so nothing
      overflows that the number itself does not. */
  lemma NeverAbove(n: nat, base: nat, k: nat)
    requires base >= 2 && k <= |Digits(n, base)|
    ensures Value(Digits(n, base)[..k], base) <= n
  {
    DigitsCanonical(n, base);
    ValuePrefix(Digits(n, base), k, base);
  }

  /** In base ten an `a` is read as one more digit: "12a" gives 130. */
  lemma BaseItselfIsRead()
    ensures Span("12a.", 10) == 3 && Value(DigitsRead("12a", 10), 10) == 130
  {
    assert "12a."[1..] == "2a." && "2a."[1..] == "a." && "a."[1..] == ".";
    var ds := DigitsRead("12a", 10);
    assert ds == [1, 2, 10] && ds[..2] == [1, 2] && [1, 2][..1] == [1] && [1][..0] == [];
  }

  // ---------------------------------------------------------------- padding

  /** The characters before the first NUL. */
  function Text(bf: seq<char>): (n: nat)
    requires '\0' in bf
    ensures n < |bf| && bf[n] == '\0' && '\0' !in bf[..n]
  {
    if bf[0] == '\0' then 0
    else
      assert bf == [bf[0]] + bf[1..];
      var n := Text(bf[1..]);
      assert bf[..n + 1] == [bf[0]] + bf[1..][..n];
      1 + n
  }

  function Fill(n: nat, z: bool): (cs: seq<char>)
    ensures |cs| == n
  {
    seq(n, _ => if z then '0' else ' ')
  }

  /** What is left of the width behind the text; the loop stops early when the text is too long. */
  method Room(n: int, bf: seq<char>) returns (width: int)
    requires '\0' in bf
    ensures width == n - Text(bf) || (width <= 0 && n <= Text(bf))
  {
    ghost var t := Text(bf);
    var p := 0;
    width := n;
    while bf[p] != '\0' && width > 0
      invariant p <= t && width == n - p && (p > 0 ==> width >= 0)
      decreases t - p
    {
      p := p + 1;
      width := width - 1;
    }
  }

  method PutFill(out: seq<char>, width: int, z: bool) returns (r: seq<char>)
    ensures r == out + Fill(if width > 0 then width else 0, z)
  {
    var fc, left := if z then '0' else ' ', width;
    ghost var i := 0;
    r := out;
    while left > 0
      invariant left == width - i && (i > 0 ==> left >= 0) && r == out + Fill(i, z)
    {
      r := r + [fc];
      left := left - 1;
      i := i + 1;
    }
  }

  method PutText(out: seq<char>, bf: seq<char>) returns (r: seq<char>)
    requires '\0' in bf
    ensures r == out + bf[..Text(bf)]
  {
    var p := 0;
    r := out;
    while bf[p] != '\0'
      invariant p <= Text(bf) && r == out + bf[..p]
      decreases Text(bf) - p
    {
      r := r + [bf[p]];
      assert bf[..p + 1] == bf[..p] + [bf[p]];
      p := p + 1;
    }
  }

  /** `putchw`: the text, right-justified in a field of width `n`; it is never cut off. */
  method Putchw(out: seq<char>, n: int, z: bool, bf: seq<char>) returns (r: seq<char>)
    requires '\0' in bf
    ensures var t := Text(bf);
      var pad := if n > t then n - t else 0;
      && |r| == |out| + pad + t && r[..|out|] == out && r[|out| + pad..] == bf[..t]
      && forall i :: |out| <= i < |out| + pad ==> r[i] == if z then '0' else ' '
  {
    var width := Room(n, bf);
    r := PutFill(out, width, z);
    r := PutText(r, bf);
  }
}
