/** Money in integer cents, ROUND_HALF_UP and the MockPay fee schedule. */
module Money {
  import opened Sequences

  const EUR := "EUR"
  const MAX_CENTS := 999_999_999_999_999_999

  datatype MoneyError = UnsupportedCurrency | OutOfRange | NegativeAmount

  datatype PaymentMethod = Card | Wallet

  /** A fixed part in cents and a rate in thousandths. */
  datatype FeeRule = FeeRule(fixed: int, rate: int)

  function RuleFor(m: PaymentMethod): FeeRule {
    match m
    case Card => FeeRule(20, 18)
    case Wallet => FeeRule(25, 20)
  }

  predicate Supported(cents: int) {
    -MAX_CENTS <= cents <= MAX_CENTS
  }

  function Abs(x: int): nat {
    if x < 0 then -x else x
  }

  /** Thousandths of a cent rounded to cents, ties away from zero, as ROUND_HALF_UP does. */
  function RoundHalfUp(mills: int): int {
    if mills >= 0 then (mills + 500) / 1000 else -((500 - mills) / 1000)
  }

  function RoundEur(mills: int): Result<int, MoneyError> {
    var cents := RoundHalfUp(mills);
    if Supported(cents) then Success(cents) else Failure(OutOfRange)
  }

  /** The schedule before rounding, in thousandths of a cent. */
  function ExactFee(m: PaymentMethod, amount: int): int {
    1000 * RuleFor(m).fixed + amount * RuleFor(m).rate
  }

  function CalculateFee(m: PaymentMethod, amount: int, currency: string): Result<int, MoneyError> {
    if currency != EUR then Failure(UnsupportedCurrency)
    else if !Supported(amount) then Failure(OutOfRange)
    else if amount < 0 then Failure(NegativeAmount)
    else RoundEur(ExactFee(m, amount))
  }

  function ScheduledFee(m: PaymentMethod, amount: int): int {
    RoundHalfUp(ExactFee(m, amount))
  }

  /** Rounding lands on a nearest cent, and of the two nearest it takes the one farther from zero. */
  lemma RoundHalfUpNearest(mills: int, cents: int)
    ensures Abs(1000 * RoundHalfUp(mills) - mills) <= Abs(1000 * cents - mills)
    ensures Abs(1000 * cents - mills) == Abs(1000 * RoundHalfUp(mills) - mills) ==>
      Abs(cents) <= Abs(RoundHalfUp(mills))
    ensures RoundHalfUp(-mills) == -RoundHalfUp(mills)
  {
    var r := RoundHalfUp(mills);
    assert Abs(1000 * r - mills) <= 500;
    if cents >= r + 1 {
      assert 1000 * cents - mills >= 1000 * (r + 1) - mills;
    } else if cents <= r - 1 {
      assert mills - 1000 * cents >= mills - 1000 * (r - 1);
    }
  }

  /** The fee is computable exactly for the amounts the contract admits, and then stays in range. */
  lemma FeeAccepted(m: PaymentMethod, amount: int, currency: string)
    ensures CalculateFee(m, amount, currency).Success? <==> currency == EUR && 0 <= amount <= MAX_CENTS
    ensures CalculateFee(m, amount, currency).Success? ==>
      CalculateFee(m, amount, currency).value == ScheduledFee(m, amount) &&
      RuleFor(m).fixed <= ScheduledFee(m, amount) <= MAX_CENTS
  {
  }

  /** Half-cent accuracy, monotonicity and the one-cent bound on splitting a capture in two. */
  lemma FeeSchedule(m: PaymentMethod, a: nat, b: nat)
    ensures 2 * Abs(1000 * ScheduledFee(m, a) - ExactFee(m, a)) <= 1000
    ensures a <= b ==> ScheduledFee(m, a) <= ScheduledFee(m, b)
    ensures Abs(ScheduledFee(m, a) + ScheduledFee(m, b) - (ScheduledFee(m, a + b) + RuleFor(m).fixed)) <= 1
  {
    var rate := RuleFor(m).rate;
    assert ExactFee(m, a) + ExactFee(m, b) == ExactFee(m, a + b) + 1000 * RuleFor(m).fixed;
  }

  /** The schedule in figures, for every supported amount: 0.20 plus 1.8 percent by card and 0.25 plus 2 percent by
      wallet, to the nearest cent, and up when two cents are equally near. */
  lemma FeeInFigures(a: int)
    requires 0 <= a <= 999_999_999_999_999_999
    ensures var card := CalculateFee(Card, a, "EUR");
      card.Success? && -500 < 1000 * card.value - (20_000 + 18 * a) <= 500
    ensures var wallet := CalculateFee(Wallet, a, "EUR");
      wallet.Success? && -500 < 1000 * wallet.value - (25_000 + 20 * a) <= 500
    ensures CalculateFee(Card, 10_000, "EUR") == Success(200) && CalculateFee(Wallet, 10_000, "EUR") == Success(225)
  {
  }

  /** Every refusal and its reason, in the order of the checks. */
  lemma FeeRefused(m: PaymentMethod, a: int, currency: string)
    ensures CalculateFee(m, a, currency) == Failure(UnsupportedCurrency) <==> currency != "EUR"
    ensures CalculateFee(m, a, currency) == Failure(OutOfRange) <==>
      currency == "EUR" && (a < -999_999_999_999_999_999 || a > 999_999_999_999_999_999)
    ensures CalculateFee(m, a, currency) == Failure(NegativeAmount) <==>
      currency == "EUR" && -999_999_999_999_999_999 <= a < 0
  {
  }
}
