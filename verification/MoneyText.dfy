/** Canonical money text. The pattern's `\d` accepts every Unicode decimal digit, so digit values come from a table. */
module MoneyText {
  import opened Sequences
  import opened Money

  /** The value of a decimal digit, if the character is one. */
  type DigitTable = char -> Option<nat>

  predicate IsAscii(c: char) { '0' <= c <= '9' }

  /** Decimal digits have values below ten, and the ASCII digits are their own. */
  ghost predicate IsDigitTable(digit: DigitTable) {
    forall c :: (digit(c).Some? ==> digit(c).value < 10) && (IsAscii(c) ==> digit(c) == Some(c as int - '0' as int))
  }

  function DigitChar(n: nat): char
    requires n < 10
  {
    ('0' as int + n) as char
  }

  // ---- Natural numbers ----

  function NatText(n: nat): string {
    if n < 10 then [DigitChar(n)] else NatText(n / 10) + [DigitChar(n % 10)]
  }

  predicate AllDigits(digit: DigitTable, s: string) {
    forall i :: 0 <= i < |s| ==> digit(s[i]).Some?
  }

  function NatValue(digit: DigitTable, s: string): nat
    requires AllDigits(digit, s)
  {
    if s == "" then 0 else 10 * NatValue(digit, s[..|s| - 1]) + digit(s[|s| - 1]).value
  }

  /** `0|[1-9]\d*`. */
  predicate CanonicalDigits(digit: DigitTable, s: string) {
    s == "0" || (s != "" && '1' <= s[0] <= '9' && AllDigits(digit, s))
  }

  lemma DigitCharValue(digit: DigitTable, n: nat)
    requires IsDigitTable(digit) && n < 10
    ensures IsAscii(DigitChar(n)) && digit(DigitChar(n)) == Some(n)
  {
  }

  lemma {:induction false} NatTextCanonical(digit: DigitTable, n: nat)
    requires IsDigitTable(digit)
    ensures AllDigits(digit, NatText(n)) && NatValue(digit, NatText(n)) == n
    ensures CanonicalDigits(digit, NatText(n)) && (n > 0 ==> NatText(n)[0] != '0')
    ensures forall i :: 0 <= i < |NatText(n)| ==> IsAscii(NatText(n)[i])
  {
    if n < 10 {
      DigitCharValue(digit, n);
      assert NatText(n)[..0] == "";
    } else {
      NatTextCanonical(digit, n / 10);
      DigitCharValue(digit, n % 10);
      assert NatText(n)[..|NatText(n)| - 1] == NatText(n / 10);
    }
  }

  lemma {:induction false} CanonicalPositive(digit: DigitTable, s: string)
    requires IsDigitTable(digit) && s != "" && '1' <= s[0] <= '9' && AllDigits(digit, s)
    ensures NatValue(digit, s) > 0
  {
    if |s| > 1 {
      CanonicalPositive(digit, s[..|s| - 1]);
    } else {
      assert s[..0] == "";
    }
  }

  predicate AllAscii(s: string) {
    forall i :: 0 <= i < |s| ==> IsAscii(s[i])
  }

  lemma {:induction false} CanonicalText(digit: DigitTable, s: string)
    requires IsDigitTable(digit) && AllAscii(s) && CanonicalDigits(digit, s)
    ensures AllDigits(digit, s) && NatText(NatValue(digit, s)) == s
  {
    if |s| == 1 {
      assert s[..0] == "" && s == [s[0]];
    } else {
      var init, last := s[..|s| - 1], s[|s| - 1];
      CanonicalText(digit, init);
      CanonicalPositive(digit, init);
      assert s == init + [last];
      assert NatValue(digit, s) / 10 == NatValue(digit, init) && NatValue(digit, s) % 10 == digit(last).value;
    }
  }

  // ---- Money ----

  datatype ParseError = NotMoneyText | BeyondRange | NegativeNotAllowed

  function CentsText(n: nat): string
    requires n < 100
  {
    [DigitChar(n / 10), DigitChar(n % 10)]
  }

  /** `format_money` of a whole number of cents. */
  function FormatMoney(cents: int): string {
    (if cents < 0 then "-" else "") + NatText(Abs(cents) / 100) + "." + CentsText(Abs(cents) % 100)
  }

  function Unsigned(s: string): string {
    if s != "" && s[0] == '-' then s[1..] else s
  }

  /** `-?(0|[1-9]\d*)\.\d{2}` as a whole. */
  predicate MoneyPattern(digit: DigitTable, s: string) {
    var u := Unsigned(s);
    |u| >= 4 && u[|u| - 3] == '.' && CanonicalDigits(digit, u[..|u| - 3]) && AllDigits(digit, u[|u| - 2..])
  }

  function UnsignedCents(digit: DigitTable, u: string): nat
    requires |u| >= 4 && AllDigits(digit, u[..|u| - 3]) && AllDigits(digit, u[|u| - 2..])
  {
    100 * NatValue(digit, u[..|u| - 3]) + NatValue(digit, u[|u| - 2..])
  }

  function ParseMoney(digit: DigitTable, s: string, allowNegative: bool): Result<int, ParseError> {
    if !MoneyPattern(digit, s) || !AllDigits(digit, Unsigned(s)[..|Unsigned(s)| - 3]) then Failure(NotMoneyText)
    else
      var amount: int := UnsignedCents(digit, Unsigned(s));
      if amount > MAX_CENTS then Failure(BeyondRange)
      else if s[0] == '-' && amount > 0 then (if allowNegative then Success(-amount) else Failure(NegativeNotAllowed))
      else Success(amount)
  }

  lemma TwoDigits(digit: DigitTable, s: string)
    requires IsDigitTable(digit) && |s| == 2 && AllDigits(digit, s)
    ensures NatValue(digit, s) == 10 * digit(s[0]).value + digit(s[1]).value && NatValue(digit, s) < 100
  {
    var first := s[..1];
    assert first[..0] == "" && NatValue(digit, first[..0]) == 0;
    assert NatValue(digit, first) == digit(s[0]).value;
  }

  lemma CentsTextValue(digit: DigitTable, n: nat)
    requires IsDigitTable(digit) && n < 100
    ensures AllDigits(digit, CentsText(n)) && NatValue(digit, CentsText(n)) == n && AllAscii(CentsText(n))
  {
    DigitCharValue(digit, n / 10);
    DigitCharValue(digit, n % 10);
    TwoDigits(digit, CentsText(n));
  }

  lemma Parts(whole: string, part: string)
    requires whole != "" && |part| == 2
    ensures var u := whole + "." + part; |u| >= 4 && u[..|u| - 3] == whole && u[|u| - 3] == '.' && u[|u| - 2..] == part
  {
  }

  lemma UnsignedText(digit: DigitTable, cents: int)
    requires IsDigitTable(digit)
    ensures Unsigned(FormatMoney(cents)) == NatText(Abs(cents) / 100) + "." + CentsText(Abs(cents) % 100)
    ensures FormatMoney(cents)[0] == '-' <==> cents < 0
  {
    var whole, part := NatText(Abs(cents) / 100), CentsText(Abs(cents) % 100);
    var s, u := FormatMoney(cents), whole + "." + part;
    NatTextCanonical(digit, Abs(cents) / 100);
    assert s == (if cents < 0 then "-" else "") + u;
    assert u[0] == whole[0] && IsAscii(whole[0]);
    assert cents < 0 ==> s[1..] == u;
  }

  /** Every formatted amount matches the pattern and has its own value. */
  lemma FormattedPattern(digit: DigitTable, cents: int)
    requires IsDigitTable(digit)
    ensures var s := FormatMoney(cents);
      MoneyPattern(digit, s) && AllDigits(digit, Unsigned(s)[..|Unsigned(s)| - 3]) &&
      UnsignedCents(digit, Unsigned(s)) == Abs(cents) && (s[0] == '-' <==> cents < 0)
  {
    var whole, part := NatText(Abs(cents) / 100), CentsText(Abs(cents) % 100);
    var u := whole + "." + part;
    NatTextCanonical(digit, Abs(cents) / 100);
    CentsTextValue(digit, Abs(cents) % 100);
    Parts(whole, part);
    UnsignedText(digit, cents);
    assert UnsignedCents(digit, u) == 100 * (Abs(cents) / 100) + Abs(cents) % 100 == Abs(cents);
  }

  /** Formatting and parsing back gives every in-range amount. */
  lemma ParseOfFormat(digit: DigitTable, cents: int)
    requires IsDigitTable(digit) && Supported(cents)
    ensures ParseMoney(digit, FormatMoney(cents), true) == Success(cents)
  {
    FormattedPattern(digit, cents);
  }

  lemma FormatOfAsciiText(digit: DigitTable, u: string)
    requires IsDigitTable(digit) && |u| >= 4 && u[|u| - 3] == '.' && CanonicalDigits(digit, u[..|u| - 3]) &&
      AllAscii(u[..|u| - 3])
    requires AllDigits(digit, u[|u| - 2..]) && AllAscii(u[|u| - 2..]) && AllDigits(digit, u[..|u| - 3])
    ensures FormatMoney(UnsignedCents(digit, u)) == u
    ensures UnsignedCents(digit, u) > 0 ==> FormatMoney(0 - UnsignedCents(digit, u)) == "-" + u
  {
    var whole, part := u[..|u| - 3], u[|u| - 2..];
    CanonicalText(digit, whole);
    TwoDigits(digit, part);
    var n: int := UnsignedCents(digit, u);
    assert n / 100 == NatValue(digit, whole) && n % 100 == NatValue(digit, part);
    assert CentsText(n % 100) == part by {
      assert part[0] == DigitChar(digit(part[0]).value) && part[1] == DigitChar(digit(part[1]).value);
    }
    assert u == whole + "." + part;
    assert n > 0 ==> FormatMoney(0 - n) == "-" + (whole + "." + part);
  }

  /** Every digit is an ASCII digit. */
  predicate AsciiMoney(s: string) {
    |Unsigned(s)| >= 4 && AllAscii(Unsigned(s)[..|Unsigned(s)| - 3]) && AllAscii(Unsigned(s)[|Unsigned(s)| - 2..])
  }

  lemma FormatParts(digit: DigitTable, cents: int) returns (whole: string, part: string)
    requires IsDigitTable(digit)
    ensures whole == NatText(Abs(cents) / 100) && part == CentsText(Abs(cents) % 100) &&
      Unsigned(FormatMoney(cents)) == whole + "." + part
    ensures AllDigits(digit, whole) && NatValue(digit, whole) == Abs(cents) / 100 && AllAscii(whole) && |whole| >= 1 &&
      |part| == 2
    ensures AllDigits(digit, part) && NatValue(digit, part) == Abs(cents) % 100 && AllAscii(part)
    ensures FormatMoney(cents)[0] == '-' <==> cents < 0
  {
    whole, part := NatText(Abs(cents) / 100), CentsText(Abs(cents) % 100);
    NatTextCanonical(digit, Abs(cents) / 100);
    CentsTextValue(digit, Abs(cents) % 100);
    assert FormatMoney(cents) == (if cents < 0 then "-" else "") + (whole + "." + part);
    assert whole[0] != '-';
  }

  lemma FormatIsAscii(digit: DigitTable, cents: int)
    requires IsDigitTable(digit)
    ensures AsciiMoney(FormatMoney(cents))
  {
    var whole, part := FormatParts(digit, cents);
    var u := whole + "." + part;
    assert u[..|u| - 3] == whole && u[|u| - 2..] == part;
  }

  lemma NeverNegativeZero(digit: DigitTable, cents: int)
    requires IsDigitTable(digit)
    ensures FormatMoney(cents) != "-0.00"
  {
    var whole, part := FormatParts(digit, cents);
    var u := whole + "." + part;
    assert u[..|u| - 3] == whole && u[|u| - 2..] == part;
    ZeroValues(digit);
    assert FormatMoney(cents) == "-0.00" ==> whole == "0" && part == "00" by {
      assert Unsigned("-0.00") == "0.00" && "0.00"[..1] == "0" && "0.00"[2..] == "00";
    }
  }

  lemma ZeroValues(digit: DigitTable)
    requires IsDigitTable(digit)
    ensures NatValue(digit, "0") == 0 && NatValue(digit, "00") == 0
  {
    var zero := "0";
    assert zero[..0] == "" && NatValue(digit, zero[..0]) == 0;
    TwoDigits(digit, "00");
  }

  lemma ZeroText(digit: DigitTable, u: string)
    requires IsDigitTable(digit) && |u| >= 4 && u[|u| - 3] == '.' && CanonicalDigits(digit, u[..|u| - 3]) &&
      AllAscii(u[..|u| - 3])
    requires AllDigits(digit, u[|u| - 2..]) && AllAscii(u[|u| - 2..]) && AllDigits(digit, u[..|u| - 3]) &&
      UnsignedCents(digit, u) == 0
    ensures u == "0.00"
  {
    FormatOfAsciiText(digit, u);
    assert NatText(0) + "." + CentsText(0) == "0.00";
  }

  lemma SignedAmount(digit: DigitTable, s: string)
    requires IsDigitTable(digit) && ParseMoney(digit, s, true).Success?
    ensures s == (if s[0] == '-' then "-" else "") + Unsigned(s)
    ensures ParseMoney(digit, s, true).value == if s[0] == '-' then 0 - UnsignedCents(digit, Unsigned(s))
      else UnsignedCents(digit, Unsigned(s))
  {
  }

  lemma AsciiRoundTrip(digit: DigitTable, s: string)
    requires IsDigitTable(digit) && ParseMoney(digit, s, true).Success? && AsciiMoney(s)
    ensures FormatMoney(ParseMoney(digit, s, true).value) == if s == "-0.00" then "0.00" else s
  {
    var u := Unsigned(s);
    var amount: int := UnsignedCents(digit, u);
    FormatOfAsciiText(digit, u);
    SignedAmount(digit, s);
    ZeroValues(digit);
    assert s == "-0.00" ==> u[..|u| - 3] == "0" && u[|u| - 2..] == "00";
    if s[0] == '-' && amount == 0 {
      ZeroText(digit, u);
    }
  }

  /** An accepted text is what formatting its amount gives back, exactly unless it is "-0.00" or has a digit that is
      not an ASCII digit. */
  lemma FormatOfParse(digit: DigitTable, s: string)
    requires IsDigitTable(digit) && ParseMoney(digit, s, true).Success?
    ensures FormatMoney(ParseMoney(digit, s, true).value) == s <==> AsciiMoney(s) && s != "-0.00"
  {
    FormatIsAscii(digit, ParseMoney(digit, s, true).value);
    NeverNegativeZero(digit, ParseMoney(digit, s, true).value);
    if AsciiMoney(s) {
      AsciiRoundTrip(digit, s);
    }
  }

  /** The accepted text "-0.00" comes back without its sign. */
  lemma NegativeZeroLosesSign(digit: DigitTable)
    requires IsDigitTable(digit)
    ensures ParseMoney(digit, "-0.00", true) == Success(0) && FormatMoney(0) == "0.00"
  {
    var u := "0.00";
    assert Unsigned("-0.00") == u && u[..1] == "0" && u[2..] == "00";
    ZeroValues(digit);
    assert FormatMoney(0) == NatText(0) + "." + CentsText(0);
  }

  /** A digit table in which the Arabic-Indic digit one has its value, as Unicode has it. */
  function ArabicIndicOne(): DigitTable {
    (c: char) => if IsAscii(c) then Some(c as int - '0' as int) else if c == '\U{0661}' then Some(1) else None
  }

  /** An accepted text with a digit that is not ASCII comes back in ASCII. */
  lemma ForeignDigitLost()
    ensures IsDigitTable(ArabicIndicOne())
    ensures ParseMoney(ArabicIndicOne(), "0.0\U{0661}", true) == Success(1) && FormatMoney(1) == "0.01"
  {
    var digit, u := ArabicIndicOne(), "0.0\U{0661}";
    assert Unsigned(u) == u && u[..1] == "0" && u[2..] == "0\U{0661}";
    TwoDigits(digit, u[2..]);
    assert NatValue(digit, "0") == 0 by {
      ZeroValues(digit);
    }
    assert FormatMoney(1) == NatText(0) + "." + CentsText(1);
  }

  /** What becomes of formatted amounts without the permission to be negative, and beyond the range. */
  lemma ParseOutcome(digit: DigitTable, cents: int)
    requires IsDigitTable(digit)
    ensures ParseMoney(digit, FormatMoney(cents), false) ==
      if cents < -999_999_999_999_999_999 || cents > 999_999_999_999_999_999 then Failure(BeyondRange)
      else if cents < 0 then Failure(NegativeNotAllowed)
      else Success(cents)
    ensures ParseMoney(digit, FormatMoney(cents), true) ==
      if cents < -999_999_999_999_999_999 || cents > 999_999_999_999_999_999 then Failure(BeyondRange)
      else Success(cents)
  {
    FormattedPattern(digit, cents);
  }

  /** The notation: an optional minus sign, euros without leading zeros, a point and two digits for the cents. */
  lemma Notation()
    ensures FormatMoney(0) == "0.00" && FormatMoney(7) == "0.07" && FormatMoney(-1205) == "-12.05"
  {
    assert FormatMoney(0) == NatText(0) + "." + CentsText(0);
    assert FormatMoney(7) == NatText(0) + "." + CentsText(7);
    assert NatText(12) == NatText(1) + [DigitChar(2)];
    assert FormatMoney(-1205) == "-" + NatText(12) + "." + CentsText(5);
  }
}
