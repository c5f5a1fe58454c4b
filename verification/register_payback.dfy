/**
 * The RegisterPayback handler. The gate checks the signer and the `fund`
 * helper; it also calls the `withdraw` helper but throws its result away,
 * so that helper never blocks the operation. The transition adds `amount`
 * to the payback total and `shares / amount` (u64 division, rounding down)
 * to the per-share rate; a zero amount makes the division panic.
 */
module RegisterPaybackHandler {
  import opened Results
  import opened Words
  import opened Errors
  import opened FundAccount
  import opened AccessControl
  import opened Effects

  datatype Accounts = Accounts(fund: Pubkey, owner: Pubkey, ownerSigned: bool, tokenProgram: Pubkey)

  /** Outcomes of the `fund` and `withdraw` helpers. */
  datatype Checks = Checks(fund: Gate, withdraw: Gate)

  function Gate(a: Accounts, c: Checks): (r: Result<(), Failure>)
    ensures r.Ok? <==> a.ownerSigned && c.fund.Pass?
    ensures !a.ownerSigned ==> r == Err(Reject(Unauthorized))
    ensures a.ownerSigned && c.fund.Deny? ==> r == Err(Fail(c.fund.error))
  {
    if !a.ownerSigned then Err(Reject(Unauthorized))
    else if c.fund.Deny? then Err(Fail(c.fund.error))
    else
      // the `withdraw` helper runs here; its result is discarded
      Ok(())
  }

  /** Payback bookkeeping: total and per-share rate, in that order. */
  function Transition(f: Fund, amount: uint64): (r: Result<Fund, Failure>)
    ensures f.paybackTotal + amount >= U64_LIMIT ==> r == Err(Panic(ArithmeticOverflow))
    ensures f.paybackTotal + amount < U64_LIMIT && amount == 0 ==> r == Err(Panic(DivisionByZero))
    ensures (amount > 0 && f.paybackTotal + amount < U64_LIMIT &&
             f.paybackPerShare + f.shares / amount >= U64_LIMIT) ==> r == Err(Panic(ArithmeticOverflow))
    ensures r.Ok? <==>
      amount > 0 && f.paybackTotal + amount < U64_LIMIT && f.paybackPerShare + f.shares / amount < U64_LIMIT
    ensures r.Ok? ==> r.value.paybackTotal == f.paybackTotal + amount
    ensures r.Ok? ==> r.value.paybackPerShare * amount <= f.paybackPerShare * amount + f.shares
    ensures r.Ok? ==> f.paybackPerShare * amount + f.shares < (r.value.paybackPerShare + 1) * amount
    ensures r.Ok? ==> SameExcept(f, r.value, {PaybackTotal, PaybackPerShare})
  {
    var withTotal :- AddPaybackBal(f, amount);
    if amount == 0 then Err(Panic(DivisionByZero))
    else
      var perShare := withTotal.shares / amount;
      var g :- AddPaybackPerShare(withTotal, perShare);
      assert Get(f, Shares) == Get(withTotal, Shares);
      Ok(g)
  }

  function Handler(f: Fund, amount: uint64, a: Accounts, c: Checks): (r: Result<Step, Failure>)
    ensures Gate(a, c).Err? ==> r == Err(Gate(a, c).error)
    ensures Gate(a, c).Ok? ==> r.Ok? == Transition(f, amount).Ok?
    ensures Gate(a, c).Ok? && Transition(f, amount).Err? ==> r == Err(Transition(f, amount).error)
    ensures r.Ok? ==> Transition(f, amount) == Ok(r.value.fund) && r.value.effects == []
  {
    var _ :- Gate(a, c);
    var g :- Transition(f, amount);
    Ok(Step(g, []))
  }

  /** The discarded `withdraw` helper cannot change the outcome. */
  lemma WithdrawCheckIgnored(f: Fund, amount: uint64, a: Accounts, c: Checks, w: Gate)
    ensures Handler(f, amount, a, c) == Handler(f, amount, a, c.(withdraw := w))
  {
  }

  /** 100 shares and a payback of 1000 add 1000 to the total and nothing to the per-share rate. */
  lemma RoundsDownToZero(f: Fund)
    requires f.shares == 100 && f.paybackTotal == 0 && f.paybackPerShare == 0
    ensures Transition(f, 1000).Ok?
    ensures Transition(f, 1000).value.paybackTotal == 1000
    ensures Transition(f, 1000).value.paybackPerShare == 0
  {
  }
}
