/**
 The pieces of Go's `strings` and `strconv` packages that the controller relies on.
 A Go string is a byte sequence; it is modelled as a sequence of characters, which is
 exact for the ASCII separators looked at here.
 */
module GoStrings {
  import opened Results

  /** Position of the first `c`, or -1. */
  function IndexByte(s: string, c: char): (i: int)
    ensures -1 <= i < |s|
    ensures i == -1 <==> c !in s
    ensures 0 <= i ==> s[i] == c && forall j | 0 <= j < i :: s[j] != c
  {
    if s == [] then -1
    else if s[0] == c then 0
    else
      var rest := IndexByte(s[1..], c);
      assert s == [s[0]] + s[1..];
      if rest == -1 then -1 else
        assert forall j | 1 <= j < |s| :: s[j] == s[1..][j - 1];
        rest + 1
  }

  /** Position of the last `c`, or -1. */
  function LastIndexByte(s: string, c: char): (i: int)
    ensures -1 <= i < |s|
    ensures i == -1 <==> c !in s
    ensures 0 <= i ==> s[i] == c && forall j | i < j < |s| :: s[j] != c
  {
    if s == [] then -1
    else if s[|s| - 1] == c then |s| - 1
    else
      var init := s[..|s| - 1];
      var i := LastIndexByte(init, c);
      assert s == init + [s[|s| - 1]];
      i
  }

  predicate HasPrefix(s: string, prefix: string) {
    |prefix| <= |s| && s[..|prefix|] == prefix
  }

  function TrimPrefix(s: string, prefix: string): string {
    if HasPrefix(s, prefix) then s[|prefix|..] else s
  }

  /** The pieces put back together with the separator between them. */
  function Join(parts: seq<string>, sep: char): string
    requires parts != []
  {
    if |parts| == 1 then parts[0] else parts[0] + [sep] + Join(parts[1..], sep)
  }

  /** strings.Split on a one-byte separator. */
  function Split(s: string, sep: char): (parts: seq<string>)
    ensures parts != []
    ensures forall p <- parts :: sep !in p
    ensures Join(parts, sep) == s
    decreases |s|
  {
    var i := IndexByte(s, sep);
    if i == -1 then [s]
    else
      var rest := Split(s[i + 1..], sep);
      assert ([s[..i]] + rest)[1..] == rest;
      assert s == s[..i] + [sep] + s[i + 1..];
      [s[..i]] + rest
  }

  lemma FirstSeparator(a: string, sep: char, b: string)
    requires sep !in a
    ensures var s := a + [sep] + b; IndexByte(s, sep) == |a| && s[..|a|] == a && s[|a| + 1..] == b
  {
    var s := a + [sep] + b;
    assert s[|a|] == sep;
    assert forall j | 0 <= j < |a| :: s[j] == a[j];
  }

  lemma SplitFirst(a: string, sep: char, b: string)
    requires sep !in a
    ensures Split(a + [sep] + b, sep) == [a] + Split(b, sep)
  {
    FirstSeparator(a, sep, b);
  }

  /** Splitting is the only way to cut a string into separator-free pieces. */
  lemma {:induction false} SplitJoin(parts: seq<string>, sep: char)
    requires parts != []
    requires forall p <- parts :: sep !in p
    ensures Split(Join(parts, sep), sep) == parts
  {
    if |parts| > 1 {
      var first, rest := parts[0], parts[1..];
      SplitFirst(first, sep, Join(rest, sep));
      SplitJoin(rest, sep);
      assert parts == [first] + rest;
    }
  }

  /** A string is a single piece exactly when it does not hold the separator. */
  lemma SplitSingle(s: string, sep: char)
    ensures |Split(s, sep)| == 1 <==> sep !in s
  {
  }

  // ---- strconv ----

  predicate IsDigit(c: char) { '0' <= c <= '9' }

  function DigitChar(d: nat): (c: char)
    requires d < 10
    ensures IsDigit(c) && c as int - '0' as int == d
  {
    ('0' as int + d) as char
  }

  predicate AllDigits(s: string) { forall c <- s :: IsDigit(c) }

  /** Decimal text of a natural number. */
  function NatText(n: nat): (s: string)
    ensures s != [] && AllDigits(s)
  {
    if n < 10 then [DigitChar(n)] else NatText(n / 10) + [DigitChar(n % 10)]
  }

  function DigitsValue(s: string): nat
    requires AllDigits(s)
  {
    if s == [] then 0
    else
      assert s == s[..|s| - 1] + [s[|s| - 1]];
      assert IsDigit(s[|s| - 1]);
      DigitsValue(s[..|s| - 1]) * 10 + (s[|s| - 1] as int - '0' as int)
  }

  lemma {:induction false} NatTextValue(n: nat)
    ensures DigitsValue(NatText(n)) == n
  {
    if n >= 10 {
      NatTextValue(n / 10);
      assert NatText(n)[..|NatText(n)| - 1] == NatText(n / 10);
    }
  }

  /** strconv.Itoa and strconv.FormatInt in base ten. */
  function Itoa(n: int): string {
    if n < 0 then "-" + NatText(-n) else NatText(n)
  }

  function Pow2(n: nat): (p: nat)
    ensures p > 0
  {
    if n == 0 then 1 else 2 * Pow2(n - 1)
  }

  predicate InSignedRange(n: int, bits: nat)
    requires bits > 0
  {
    0 - Pow2(bits - 1) <= n < Pow2(bits - 1)
  }

  /** strconv.ParseInt(s, 10, bits): an optional sign, at least one digit, and a range check. */
  function ParseInt(s: string, bits: nat): Option<int>
    requires bits > 0
  {
    var negative := s != [] && s[0] == '-';
    var digits := if s != [] && (s[0] == '-' || s[0] == '+') then s[1..] else s;
    if digits == [] || !AllDigits(digits) then None
    else
      var n := if negative then 0 - DigitsValue(digits) else DigitsValue(digits);
      if InSignedRange(n, bits) then Some(n) else None
  }

  /** Printing and parsing a port agree exactly on the numbers that fit the width asked for. */
  lemma ParseIntItoa(n: int, bits: nat)
    requires bits > 0
    ensures ParseInt(Itoa(n), bits) == if InSignedRange(n, bits) then Some(n) else None
  {
    var text := NatText(if n < 0 then -n else n);
    NatTextValue(if n < 0 then -n else n);
    assert IsDigit(text[0]);
    if n < 0 {
      assert Itoa(n)[0] == '-' && Itoa(n)[1..] == text;
    } else {
      assert text[0] != '-' && text[0] != '+';
    }
  }

  /** Exactly the texts that parse: digits, with a sign or without, whose value fits. */
  lemma ParseIntExactly(s: string, bits: nat, n: int)
    requires bits > 0
    ensures ParseInt(s, bits) == Some(n) <==>
            && InSignedRange(n, bits)
            && (exists digits | digits != [] && AllDigits(digits) ::
                  || ((s == digits || s == "+" + digits) && n == DigitsValue(digits))
                  || (s == "-" + digits && n == 0 - DigitsValue(digits)))
  {
    var digits := if s != [] && (s[0] == '-' || s[0] == '+') then s[1..] else s;
    assert s != [] && s[0] == '-' ==> s == "-" + digits;
    assert s != [] && s[0] == '+' ==> s == "+" + digits;
    forall d: string | d != [] && AllDigits(d) && (s == d || s == "+" + d || s == "-" + d) ensures d == digits {
      assert IsDigit(d[0]);
      assert ("+" + d)[1..] == d && ("-" + d)[1..] == d;
    }
  }

  lemma PortWidths()
    ensures Pow2(15) == 32768
    ensures Pow2(31) == 2147483648
    ensures Pow2(63) == 9223372036854775808
  {
    assert Pow2(5) == 32;
    assert Pow2(10) == 1024;
    assert Pow2(15) == 32768;
    assert Pow2(20) == 1048576;
    assert Pow2(25) == 33554432;
    assert Pow2(31) == 2147483648;
    assert Pow2(35) == 34359738368;
    assert Pow2(40) == 1099511627776;
    assert Pow2(45) == 35184372088832;
    assert Pow2(50) == 1125899906842624;
    assert Pow2(55) == 36028797018963968;
    assert Pow2(60) == 1152921504606846976;
  }
}
