/**
 * The calculators behind a first payment: the deposit's split, what is charged for it, and the level instalments after
 * it.
 */
module Payments {
  import opened DueDates
  import opened Money
  import opened PaystackFee
  import opened Schedule
  import opened Wrappers

  datatype DepositError = InvalidFees | BelowMinimum | AboveMaximum

  datatype Deposit = Deposit(
    schoolFees: int,
    platformFee: int,
    minimumDeposit: int,
    depositPaid: int,
    amountToSchool: int,
    remainingBalance: int)

  function PlatformFee(fee: int): int { Percent(fee, PLATFORM_FEE_RATE) }

  /** Split a deposit between platform and school, refusing one outside its bounds. */
  function CalculateInitialPayment(fee: int, deposit: int): Result<Deposit, DepositError> {
    var platformFee := PlatformFee(fee);
    var minimumDeposit := Percent(fee, FIRST_PAYMENT_DEPOSIT_RATE) + platformFee;
    if fee <= 0 then Err(InvalidFees)
    else if deposit < minimumDeposit then Err(BelowMinimum)
    else if fee + platformFee < deposit then Err(AboveMaximum)
    else
      var amountToSchool := deposit - platformFee;
      Ok(Deposit(fee, platformFee, minimumDeposit, deposit, amountToSchool, fee - amountToSchool))
  }

  /** The balance recomputed from scratch out of the deposit and the instalments. */
  function UpdateRemainingBalance(fee: int, deposit: int, installmentsPaid: int): int {
    Max(fee - (Max(0, deposit - PlatformFee(fee)) + installmentsPaid), 0)
  }

  datatype Installments = Installments(
    totalBalance: int,
    numberOfInstallments: nat,
    installmentAmount: int,
    finalInstallmentAmount: int)

  function CalculateInstallments(balance: int, frequency: Frequency): (quoted: Option<Installments>)
    ensures quoted.None? <==> balance <= 0
  {
    if balance <= 0 then None
    else
      var count := InstallmentCount(frequency);
      var level := balance / count;
      Some(Installments(balance, count, level, balance - level * (count - 1)))
  }

  // ------------------------------------------------------------------ bounds on the split

  lemma RatesOfFee(fee: int)
    requires fee > 0
    ensures 0 <= PlatformFee(fee) && 0 <= Percent(fee, FIRST_PAYMENT_DEPOSIT_RATE) <= fee
    ensures Percent(fee, FIRST_PAYMENT_DEPOSIT_RATE) + PlatformFee(fee) == 0 <==> fee == 1
  {
    RoundBounds(fee as real * PLATFORM_FEE_RATE);
    RoundBounds(fee as real * FIRST_PAYMENT_DEPOSIT_RATE);
  }

  /**
   * A deposit is accepted exactly between the minimum and the whole fee, and then the school's share lies within the
   * fee.
   */
  lemma AcceptedDeposit(fee: int, deposit: int)
    ensures CalculateInitialPayment(fee, deposit).Ok? <==>
      fee > 0 && Percent(fee, FIRST_PAYMENT_DEPOSIT_RATE) <= deposit - PlatformFee(fee) <= fee
    ensures CalculateInitialPayment(fee, deposit).Ok? ==>
      var split := CalculateInitialPayment(fee, deposit).value;
      0 <= split.amountToSchool <= fee && 0 <= split.remainingBalance <= fee && 0 <= split.depositPaid &&
      split.amountToSchool + split.remainingBalance == fee && split.amountToSchool + split.platformFee == deposit
  {
    if fee > 0 { RatesOfFee(fee); }
  }

  /**
   * The platform's fee is a fortieth of the school's and the least deposit a quarter and that, each to the nearest
   * kobo.
   */
  lemma RatesOfDeposit(fee: int, deposit: int)
    requires CalculateInitialPayment(fee, deposit).Ok?
    ensures var split := CalculateInitialPayment(fee, deposit).value;
            split.schoolFees == fee && split.depositPaid == deposit && split.minimumDeposit <= deposit &&
            -20 <= fee - 40 * split.platformFee < 20 &&
            -2 < 4 * (split.minimumDeposit - split.platformFee) - fee <= 2
  {
    RoundBounds(fee as real * PLATFORM_FEE_RATE);
    RoundBounds(fee as real * FIRST_PAYMENT_DEPOSIT_RATE);
  }

  /**
   * A deposit is refused for what is wrong with it: no fee, too little for the minimum, or more than there is to pay.
   */
  lemma RefusedDeposit(fee: int, deposit: int)
    requires CalculateInitialPayment(fee, deposit).Err?
    ensures match CalculateInitialPayment(fee, deposit).error
      case InvalidFees => fee <= 0
      case BelowMinimum => fee > 0 && deposit - PlatformFee(fee) < Percent(fee, FIRST_PAYMENT_DEPOSIT_RATE)
      case AboveMaximum => fee > 0 && deposit - PlatformFee(fee) > fee
  {
  }

  /** The only accepted deposit that leaves nothing to charge is nothing at all, against a fee of one kobo. */
  lemma ZeroDeposit(fee: int, deposit: int)
    requires CalculateInitialPayment(fee, deposit).Ok?
    ensures deposit <= 0 <==> fee == 1 && deposit == 0
  {
    RatesOfFee(fee);
    hide PlatformFee, Percent;
  }

  /**
   * Recomputing from the deposit gives the split's own balance less the instalments, or nothing once they exceed it.
   */
  lemma RecomputedBalance(fee: int, deposit: int, installmentsPaid: int)
    requires CalculateInitialPayment(fee, deposit).Ok? && installmentsPaid >= 0
    ensures UpdateRemainingBalance(fee, deposit, installmentsPaid)
         == Max(0, CalculateInitialPayment(fee, deposit).value.remainingBalance - installmentsPaid)
  {
    AcceptedDeposit(fee, deposit);
    hide PlatformFee, Percent;
  }

  /**
   * The quoted instalments are the schedule's slots: each level one is a step between targets, the last closes the
   * balance.
   */
  lemma InstallmentsAreSlots(balance: int, frequency: Frequency, n: int)
    requires balance > 0 && 1 <= n <= InstallmentCount(frequency)
    ensures var quoted := CalculateInstallments(balance, frequency).value;
            var total := InstallmentCount(frequency);
            CumulativeTarget(balance, total, n) - CumulativeTarget(balance, total, n - 1)
              == (if n < total then quoted.installmentAmount else quoted.finalInstallmentAmount) &&
            quoted.installmentAmount * (total - 1) + quoted.finalInstallmentAmount == balance &&
            0 <= quoted.finalInstallmentAmount - quoted.installmentAmount < total
  {
    var total := InstallmentCount(frequency);
    var level := balance / total;
    Quotient(balance, total);
    assert level * n - level * (n - 1) == level;
    assert level * (total - 1) == level * total - level;
  }

  // ------------------------------------------------------------------ what the parent is charged

  datatype Charge = Charge(
    amountCharged: int,
    paystackFee: int,
    transactionCharge: int,
    split: Deposit)

  /** The least first payment a request may carry: one naira. */
  const LEAST_DEPOSIT_KOBO := 100

  datatype ChargeError = BadDeposit(error: DepositError) | CannotGrossUp(cause: GrossUpError)

  /**
   * Price a first payment. Every accepted deposit of a kobo or more is priced, so every one a request may carry is;
   * the calculator alone would let through nothing at all on a fee of one kobo. Every kobo of the charge is accounted
   * for: the school's share, the platform's fee and the modelled Paystack fee.
   */
  method PriceFirstPayment(fee: int, deposit: int, vat: real) returns (r: Result<Charge, ChargeError>)
    requires IsVatRate(vat)
    ensures CalculateInitialPayment(fee, deposit).Err? ==>
      r == Err(BadDeposit(CalculateInitialPayment(fee, deposit).error))
    ensures CalculateInitialPayment(fee, deposit).Ok? ==>
      (r.Err? <==> fee == 1 && deposit == 0) && (r.Err? ==> r.error == CannotGrossUp(NonPositiveBase))
    ensures deposit >= LEAST_DEPOSIT_KOBO ==> (r.Ok? <==> CalculateInitialPayment(fee, deposit).Ok?)
    ensures r.Ok? ==>
      var charge := r.value;
      charge.split == CalculateInitialPayment(fee, deposit).value &&
      charge.amountCharged - charge.transactionCharge == charge.split.amountToSchool &&
      charge.transactionCharge - charge.paystackFee == charge.split.platformFee &&
      charge.amountCharged - charge.paystackFee == deposit &&
      charge.paystackFee == Fee(charge.amountCharged, vat)
  {
    var calculation := CalculateInitialPayment(fee, deposit);
    if calculation.Err? {
      return Err(BadDeposit(calculation.error));
    }
    var split := calculation.value;
    AcceptedDeposit(fee, deposit);
    ZeroDeposit(fee, deposit);
    hide CalculateInitialPayment, Fee;
    var grossed := GrossUp(split.amountToSchool + split.platformFee, vat, SEARCH_WINDOW_KOBO);
    match grossed {
      case Err(cause) => r := Err(CannotGrossUp(cause));
      case Ok(g) => r := Ok(Charge(g.amountCharged, g.paystackFee, split.platformFee + g.paystackFee, split));
    }
  }
}
