/** Decimal numbers as text. */
module Decimal {
  import opened Wrappers
  import opened Text

  predicate IsDigit(c: char) { '0' <= c <= '9' }

  function DigitOf(c: char): (d: nat)
    requires IsDigit(c)
    ensures d <= 9
  {
    c as int - '0' as int
  }

  function DigitChar(d: nat): (c: char)
    requires d <= 9
    ensures IsDigit(c) && DigitOf(c) == d
  {
    (d + '0' as int) as char
  }

  /** All digits and not empty. */
  predicate IsNumber(s: string) { s != "" && forall c :: c in s ==> IsDigit(c) }

  function Value(s: string): nat
    requires forall c :: c in s ==> IsDigit(c)
    decreases |s|
  {
    if s == "" then 0 else Value(s[..|s| - 1]) * 10 + DigitOf(s[|s| - 1])
  }

  function Print(n: nat): (s: string)
    ensures IsNumber(s)
    ensures |s| > 1 ==> s[0] != '0'
    ensures n > 0 ==> s[0] != '0'
  {
    if n < 10 then [DigitChar(n)] else Print(n / 10) + [DigitChar(n % 10)]
  }

  lemma {:induction false} ValuePrint(n: nat)
    ensures Value(Print(n)) == n
  {
    if n < 10 {
      assert Print(n)[..0] == "";
    } else {
      ValuePrint(n / 10);
      assert Print(n)[..|Print(n)| - 1] == Print(n / 10);
    }
  }

  ghost predicate Zeros(s: string) { forall c :: c in s ==> c == '0' }

  /** Ten symbols, the first one worth nothing and each next one worth one more, and each place worth ten times
      the next. */
  lemma PrintedDigits(n: nat)
    ensures n < 10 ==> Print(n) == ["0123456789"[n]]
    ensures n >= 10 ==> Print(n) == Print(n / 10) + Print(n % 10)
  {
  }

  /** A numeral without a leading zero is how its value is printed. */
  lemma {:induction false} PrintValue(s: string)
    requires IsNumber(s) && (|s| == 1 || s[0] != '0')
    ensures Print(Value(s)) == s
    decreases |s|
  {
    var front, last := s[..|s| - 1], s[|s| - 1];
    assert last in s && s == front + [last];
    if front != "" {
      assert forall c :: c in front ==> c in s;
      assert Value(s) == Value(front) * 10 + DigitOf(last);
      hide Value;
      PrintValue(front);
      ValueIsPositive(front);
      PrintMore(Value(front), DigitOf(last));
      assert DigitChar(DigitOf(last)) == last;
    } else {
      assert Value(front) == 0 && DigitChar(DigitOf(last)) == last;
    }
  }

  lemma PrintMore(n: nat, d: nat)
    requires n > 0 && d <= 9
    ensures Print(n * 10 + d) == Print(n) + [DigitChar(d)]
  {
    assert (n * 10 + d) / 10 == n && (n * 10 + d) % 10 == d;
  }

  lemma {:induction false} ValueIsPositive(s: string)
    requires IsNumber(s) && s[0] != '0'
    ensures Value(s) > 0
    decreases |s|
  {
    assert s[0] in s;
    if |s| > 1 {
      var front := s[..|s| - 1];
      assert forall c :: c in front ==> c in s;
      assert s[|s| - 1] in s;
      ValueIsPositive(front);
    } else {
      assert Value(s[..0]) == 0;
    }
  }

  lemma {:induction false} ValueOfZeros(zeros: string, s: string)
    requires Zeros(zeros) && forall c :: c in s ==> IsDigit(c)
    ensures (forall c :: c in zeros + s ==> IsDigit(c)) && Value(zeros + s) == Value(s)
    decreases |zeros| + |s|
  {
    var all := zeros + s;
    if s != "" {
      var front := s[..|s| - 1];
      assert s[|s| - 1] in s && forall c :: c in front ==> c in s;
      ValueOfZeros(zeros, front);
      assert all[..|all| - 1] == zeros + front;
    } else if zeros != "" {
      var front := zeros[..|zeros| - 1];
      assert zeros[|zeros| - 1] in zeros && all == zeros && front + "" == front;
      assert forall c :: c in front ==> c in zeros;
      ValueOfZeros(front, "");
    } else {
      assert all == "";
    }
  }

  /** The digits of the number, with any zeros in front. */
  ghost predicate Numeral(s: string, n: nat) { exists zeros :: Zeros(zeros) && s == zeros + Print(n) }

  lemma OneMoreZero(s: string, n: nat)
    requires Numeral(s, n)
    ensures Numeral("0" + s, n)
  {
    hide Print;
    var zeros :| Zeros(zeros) && s == zeros + Print(n);
    assert Zeros("0" + zeros) && "0" + s == ("0" + zeros) + Print(n);
  }

  lemma NoMoreZeros(s: string, n: nat)
    requires s == Print(n)
    ensures Numeral(s, n)
  {
    assert Zeros("") && s == "" + s;
  }

  lemma {:induction false} LeadingZeros(s: string)
    requires IsNumber(s)
    ensures Numeral(s, Value(s))
    decreases |s|
  {
    if |s| > 1 && s[0] == '0' {
      var rest := s[1..];
      assert forall c :: c in rest ==> c in s;
      LeadingZeros(rest);
      ValueOfZeros("0", rest);
      hide Value, Numeral, Print;
      OneMoreZero(rest, Value(rest));
      assert s == "0" + rest;
    } else {
      PrintValue(s);
      hide Value, Numeral;
      NoMoreZeros(s, Value(s));
    }
  }

  /** Exactly the texts that are read as the number. */
  lemma NumeralsOf(s: string, limit: nat, n: nat)
    ensures ParseUint(s, limit) == Some(n) <==> n < limit && Numeral(s, n)
  {
    if ParseUint(s, limit) == Some(n) {
      LeadingZeros(s);
    }
    if Numeral(s, n) {
      var zeros :| Zeros(zeros) && s == zeros + Print(n);
      ValueOfZeros(zeros, Print(n));
      ValuePrint(n);
    }
  }

  /** A number below a limit; signs and white space are not allowed. */
  function ParseUint(s: string, limit: nat): (r: Option<nat>)
    ensures r.Some? ==> r.value < limit
  {
    if IsNumber(s) && Value(s) < limit then Some(Value(s)) else None
  }

  lemma ParsePrintUint(n: nat, limit: nat)
    requires n < limit
    ensures ParseUint(Print(n), limit) == Some(n)
  {
    ValuePrint(n);
  }

  /** A signed 64-bit number. */
  function ParseInt(s: string): (r: Option<int>)
    ensures r.Some? ==> -0x8000_0000_0000_0000 <= r.value < 0x8000_0000_0000_0000
  {
    if s != "" && s[0] == '-' then
      var size := ParseUint(s[1..], 0x8000_0000_0000_0001);
      if size == None then None else Some(0 - size.value)
    else if s != "" && s[0] == '+' then ParseUint(s[1..], 0x8000_0000_0000_0000)
    else ParseUint(s, 0x8000_0000_0000_0000)
  }

  function Size(n: int): nat { if n < 0 then -n else n }

  /** The digits of its size, with any zeros in front, behind a minus sign if the number is negative and perhaps
      a plus sign if it is not; zero may have either sign. */
  ghost predicate Integer(s: string, n: int) {
    || (n >= 0 && Numeral(s, n))
    || (s != "" && s[0] == '+' && n >= 0 && Numeral(s[1..], n))
    || (s != "" && s[0] == '-' && n <= 0 && Numeral(s[1..], Size(n)))
  }

  lemma NumeralStart(s: string, n: nat)
    requires Numeral(s, n)
    ensures s != "" && IsDigit(s[0])
  {
    NumeralsOf(s, n + 1, n);
    assert s[0] in s;
  }

  /** Exactly the texts that are read as the number. */
  lemma IntegersOf(s: string, n: int)
    requires -0x8000_0000_0000_0000 <= n < 0x8000_0000_0000_0000
    ensures ParseInt(s) == Some(n) <==> Integer(s, n)
  {
    var text := if s == "" then "" else s[1..];
    NumeralsOf(text, 0x8000_0000_0000_0001, Size(n));
    NumeralsOf(text, 0x8000_0000_0000_0000, Size(n));
    NumeralsOf(s, 0x8000_0000_0000_0000, Size(n));
    if Numeral(s, Size(n)) {
      NumeralStart(s, Size(n));
    }
    hide ParseUint, Numeral;
  }

  function PrintInt(n: int): string { if n < 0 then "-" + Print(-n) else Print(n) }

  lemma ParsePrintInt(n: int)
    requires -0x8000_0000_0000_0000 <= n < 0x8000_0000_0000_0000
    ensures ParseInt(PrintInt(n)) == Some(n)
  {
    if n < 0 {
      ParsePrintUint(0 - n, 0x8000_0000_0000_0001);
      assert PrintInt(n)[1..] == Print(-n);
    } else {
      ParsePrintUint(n, 0x8000_0000_0000_0000);
      assert IsDigit(Print(n)[0]);
    }
  }

  /** Numbers are trimmed and hold none of the characters that structure a file. */
  lemma PrintIsPlain(n: nat)
    ensures Trimmed(Print(n)) && Without(Print(n), {'\n', '#', ',', '-', '/', '.', '%', ':', ' '})
  {
    assert IsDigit(Print(n)[0]) && IsDigit(Print(n)[|Print(n)| - 1]);
  }

  lemma PrintIntIsPlain(n: int)
    ensures PrintInt(n) != "" && Trimmed(PrintInt(n)) && Without(PrintInt(n), {'\n', '#'})
  {
    if n < 0 {
      PrintIsPlain(-n);
      assert PrintInt(n)[|PrintInt(n)| - 1] == Print(-n)[|Print(-n)| - 1];
      forall c | c in PrintInt(n) ensures c !in {'\n', '#'} {
        assert c == '-' || c in Print(-n);
      }
    } else {
      PrintIsPlain(n);
    }
  }
}
