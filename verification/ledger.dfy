/**
 * Properties of runs of several instructions on one fund: what a sequence
 * of successful deposits does to balance and shares, and when the balance
 * stays within the fund's maximum.
 */
module LedgerProperties {
  import opened Results
  import opened Words
  import opened Errors
  import opened FundAccount
  import opened AccessControl
  import InitializeHandler
  import DepositHandler

  /** One deposit request with its accounts and the outcomes of its helper checks. */
  datatype DepositCall = DepositCall(amount: uint64, accounts: DepositHandler.Accounts, checks: DepositHandler.Checks)

  /** Applies deposits in order; the first failure ends the run. */
  function Deposits(f: Fund, calls: seq<DepositCall>): Result<Fund, Failure>
    decreases |calls|
  {
    if |calls| == 0 then Ok(f)
    else
      var step :- DepositHandler.Handler(f, calls[0].amount, calls[0].accounts, calls[0].checks);
      Deposits(step.fund, calls[1..])
  }

  /** The sum of the deposited amounts. */
  function Total(calls: seq<DepositCall>): nat {
    if |calls| == 0 then 0 else calls[0].amount + Total(calls[1..])
  }

  /**
   * A successful run credits the sum of the amounts to the balance, and to
   * the shares of a raise; a FundMe fund's shares do not move. The fund type
   * and the maximum never change.
   */
  lemma {:induction false} DepositsCreditTotal(f: Fund, calls: seq<DepositCall>)
    requires Deposits(f, calls).Ok?
    ensures var g := Deposits(f, calls).value;
      && g.balance == f.balance + Total(calls)
      && (f.fundType.Raise? ==> g.shares == f.shares + Total(calls))
      && (f.fundType.FundMe? ==> g.shares == f.shares)
      && g.fundType == f.fundType && g.maxBalance == f.maxBalance
    decreases |calls|
  {
    if |calls| > 0 {
      var c := calls[0];
      DepositHandler.HandlerCredits(f, c.amount, c.accounts, c.checks);
      var next := DepositHandler.Handler(f, c.amount, c.accounts, c.checks).value.fund;
      assert Get(f, Kind) == Get(next, Kind);
      assert Get(f, MaxBalance) == Get(next, MaxBalance);
      DepositsCreditTotal(next, calls[1..]);
    }
  }

  /** In a raise whose shares equal its balance, successful deposits keep them equal. */
  lemma RaiseSharesTrackBalance(f: Fund, calls: seq<DepositCall>)
    requires f.fundType.Raise? && f.shares == f.balance
    requires Deposits(f, calls).Ok?
    ensures Deposits(f, calls).value.shares == Deposits(f, calls).value.balance
  {
    DepositsCreditTotal(f, calls);
  }

  /**
   * A freshly zeroed record, initialized as a raise and then deposited into,
   * has as many shares as balance, both the sum of the deposits.
   */
  lemma FreshRaiseSharesEqualDeposits(
    p: Platform, owner: Pubkey, authority: Pubkey, maxBalance: uint64, private: bool,
    a: InitializeHandler.Accounts, calls: seq<DepositCall>)
    requires a.stored
    requires InitializeHandler.Handler(p, DefaultFund(), owner, authority, maxBalance, Raise(private), a).Ok?
    requires Deposits(InitializeHandler.Handler(p, DefaultFund(), owner, authority, maxBalance, Raise(private), a).value.fund, calls).Ok?
    ensures var g := Deposits(InitializeHandler.Handler(p, DefaultFund(), owner, authority, maxBalance, Raise(private), a).value.fund, calls).value;
      g.shares == g.balance == Total(calls)
  {
    var f0 := InitializeHandler.Handler(p, DefaultFund(), owner, authority, maxBalance, Raise(private), a).value.fund;
    InitializeHandler.HandlerKeepsUnassignedFields(p, DefaultFund(), owner, authority, maxBalance, Raise(private), a);
    DepositsCreditTotal(f0, calls);
  }

  /**
   * The `check_balance` helper of every deposit in the run admits a deposit
   * only if it fits under the maximum at that point of the run.
   */
  predicate CapacityChecked(f: Fund, calls: seq<DepositCall>)
    decreases |calls|
  {
    |calls| == 0 ||
    (&& (calls[0].checks.balance.Pass? ==> f.balance + calls[0].amount <= f.maxBalance)
     && var r := DepositHandler.Handler(f, calls[0].amount, calls[0].accounts, calls[0].checks);
        r.Ok? ==> CapacityChecked(r.value.fund, calls[1..]))
  }

  /** When the balance helper enforces capacity, a successful run never exceeds the maximum. */
  lemma {:induction false} DepositsStayWithinCapacity(f: Fund, calls: seq<DepositCall>)
    requires f.balance <= f.maxBalance
    requires CapacityChecked(f, calls)
    requires Deposits(f, calls).Ok?
    ensures Deposits(f, calls).value.balance <= Deposits(f, calls).value.maxBalance
    decreases |calls|
  {
    if |calls| > 0 {
      var c := calls[0];
      DepositHandler.HandlerCredits(f, c.amount, c.accounts, c.checks);
      var next := DepositHandler.Handler(f, c.amount, c.accounts, c.checks).value.fund;
      assert Get(f, MaxBalance) == Get(next, MaxBalance);
      DepositsStayWithinCapacity(next, calls[1..]);
    }
  }
}
