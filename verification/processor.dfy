/**
 * The entrypoint's dispatch: decode the instruction data, route each
 * instruction to its handler with its payload, and convert a handler's
 * error into the platform's error.
 *
 * The decoder is the record crate's instruction type's own `unpack`, whose
 * body is not part of this model; it is a parameter. The Withdraw and
 * WhitelistAdd handlers are not part of this model either; their outcome is
 * supplied with the accounts. There is no route to RegisterPayback or
 * PaybackWithdraw.
 */
module Processor {
  import opened Results
  import opened Words
  import opened Errors
  import opened FundAccount
  import opened AccessControl
  import opened Effects
  import InitializeHandler
  import DepositHandler
  import CloseHandler
  import WhitelistDeleteHandler

  /** The instructions the entrypoint decodes. */
  datatype Instruction =
    | Initialize(owner: Pubkey, authority: Pubkey, maxBalance: uint64, fundType: FundType)
    | Deposit(amount: uint64)
    | Withdraw(amount: uint64)
    | Close
    | WhitelistAdd(entry: Pubkey)
    | WhitelistDelete(entry: Pubkey)

  /** The state the handlers can change: the fund record and the whitelist account's data. */
  datatype Ledger = Ledger(fund: Fund, whitelist: seq<uint8>)

  /** A successful instruction: the new state and the calls made into the token program. */
  datatype Outcome = Outcome(ledger: Ledger, effects: seq<Effect>)

  /**
   * Everything about the accounts each handler reads, and the outcome of the
   * handlers that are not modelled.
   */
  datatype Context = Context(
    platform: Platform,
    initialize: InitializeHandler.Accounts,
    deposit: DepositHandler.Accounts,
    depositChecks: DepositHandler.Checks,
    close: CloseHandler.Accounts,
    closeOwner: Gate,
    whitelistDelete: WhitelistDeleteHandler.Checks,
    withdraw: Result<Outcome, Failure>,
    whitelistAdd: Result<Outcome, Failure>)

  /** A handler's result on the record, lifted to the ledger. */
  function OnFund(l: Ledger, r: Result<Step, Failure>): Result<Outcome, Failure> {
    match r
    case Ok(step) => Ok(Outcome(l.(fund := step.fund), step.effects))
    case Err(e) => Err(e)
  }

  /** A handler's result on the whitelist data, lifted to the ledger. */
  function OnWhitelist(l: Ledger, r: Result<seq<uint8>, Failure>): Result<Outcome, Failure> {
    match r
    case Ok(data) => Ok(Outcome(l.(whitelist := data), []))
    case Err(e) => Err(e)
  }

  /**
   * The handler an instruction is routed to. Each instruction reaches its
   * own handler with its payload; a handler's failure is passed on as is,
   * and its success writes only the account that handler owns.
   */
  function Route(l: Ledger, ctx: Context, i: Instruction): (r: Result<Outcome, Failure>)
    ensures i.Withdraw? ==> r == ctx.withdraw
    ensures i.WhitelistAdd? ==> r == ctx.whitelistAdd
    ensures i.Initialize? ==>
      var h := InitializeHandler.Handler(ctx.platform, l.fund, i.owner, i.authority, i.maxBalance, i.fundType, ctx.initialize);
      && (h.Err? ==> r == Err(h.error))
      && (h.Ok? ==> r == Ok(Outcome(Ledger(h.value.fund, l.whitelist), [])))
    ensures i.Deposit? ==>
      var h := DepositHandler.Handler(l.fund, i.amount, ctx.deposit, ctx.depositChecks);
      && (h.Err? ==> r == Err(h.error))
      && (h.Ok? ==> r == Ok(Outcome(Ledger(h.value.fund, l.whitelist), h.value.effects)))
    ensures i.Close? ==>
      var h := CloseHandler.Handler(l.fund, ctx.close, ctx.closeOwner);
      && (h.Err? ==> r == Err(h.error))
      && (h.Ok? ==> r == Ok(Outcome(Ledger(CloseFund(l.fund), l.whitelist), [])))
    ensures i.WhitelistDelete? ==>
      var h := WhitelistDeleteHandler.Handler(l.whitelist, i.entry, ctx.whitelistDelete);
      && (h.Err? ==> r == Err(h.error))
      && (h.Ok? ==> r == Ok(Outcome(Ledger(l.fund, h.value), [])))
  {
    match i
    case Initialize(owner, authority, maxBalance, fundType) =>
      OnFund(l, InitializeHandler.Handler(ctx.platform, l.fund, owner, authority, maxBalance, fundType, ctx.initialize))
    case Deposit(amount) =>
      OnFund(l, DepositHandler.Handler(l.fund, amount, ctx.deposit, ctx.depositChecks))
    case Withdraw(_) => ctx.withdraw
    case Close => OnFund(l, CloseHandler.Handler(l.fund, ctx.close, ctx.closeOwner))
    case WhitelistAdd(_) => ctx.whitelistAdd
    case WhitelistDelete(entry) =>
      OnWhitelist(l, WhitelistDeleteHandler.Handler(l.whitelist, entry, ctx.whitelistDelete))
  }

  /** `process_instruction`. */
  function Process(
    l: Ledger, ctx: Context, data: seq<uint8>,
    unpack: seq<uint8> -> Result<Instruction, ProgramError>): (r: Result<Outcome, ProgramFailure>)
    ensures unpack(data).Err? ==> r == Err(Error(Custom(1)))
    ensures unpack(data).Ok? && Route(l, ctx, unpack(data).value).Err? ==>
      r == Err(Report(Route(l, ctx, unpack(data).value).error))
    ensures unpack(data).Ok? && Route(l, ctx, unpack(data).value).Ok? ==>
      r == Ok(Route(l, ctx, unpack(data).value).value)
  {
    match unpack(data)
    case Err(_) => Err(Report(Reject(WrongSerialization)))
    case Ok(i) =>
      match Route(l, ctx, i)
      case Err(e) => Err(Report(e))
      case Ok(o) => Ok(o)
  }

  /** An undecodable instruction is reported as custom error 1, `WrongSerialization`. */
  lemma UndecodableIsWrongSerialization(
    l: Ledger, ctx: Context, data: seq<uint8>, unpack: seq<uint8> -> Result<Instruction, ProgramError>)
    requires unpack(data).Err?
    ensures Process(l, ctx, data, unpack).Err?
    ensures Process(l, ctx, data, unpack).error.Error?
    ensures CodeOf(Process(l, ctx, data, unpack).error.err.code) == Some(WrongSerialization)
  {
  }

  /** Deposit and Close change only the record; WhitelistDelete changes only the whitelist data. */
  lemma RoutesTouchOwnAccount(l: Ledger, ctx: Context, i: Instruction)
    requires Route(l, ctx, i).Ok?
    ensures i.Deposit? || i.Close? || i.Initialize? ==> Route(l, ctx, i).value.ledger.whitelist == l.whitelist
    ensures i.WhitelistDelete? ==> Route(l, ctx, i).value.ledger.fund == l.fund
    ensures i.WhitelistDelete? || i.Close? || i.Initialize? ==> Route(l, ctx, i).value.effects == []
  {
  }

  /**
   * No modelled route changes the payback fields: RegisterPayback, the only
   * writer of those fields, cannot be reached through the entrypoint.
   */
  lemma NoRouteWritesPayback(l: Ledger, ctx: Context, i: Instruction)
    requires !i.Withdraw? && !i.WhitelistAdd?
    requires Route(l, ctx, i).Ok?
    ensures Route(l, ctx, i).value.ledger.fund.paybackTotal == l.fund.paybackTotal
    ensures Route(l, ctx, i).value.ledger.fund.paybackPerShare == l.fund.paybackPerShare
  {
    var g := Route(l, ctx, i).value.ledger.fund;
    if !i.WhitelistDelete? {
      assert Get(l.fund, PaybackTotal) == Get(g, PaybackTotal);
      assert Get(l.fund, PaybackPerShare) == Get(g, PaybackPerShare);
    }
  }

  /** No modelled route decreases the shares. */
  lemma NoRouteDecreasesShares(l: Ledger, ctx: Context, i: Instruction)
    requires !i.Withdraw? && !i.WhitelistAdd?
    requires Route(l, ctx, i).Ok?
    ensures Route(l, ctx, i).value.ledger.fund.shares >= l.fund.shares
  {
    var g := Route(l, ctx, i).value.ledger.fund;
    if i.Deposit? {
      DepositHandler.HandlerCredits(l.fund, i.amount, ctx.deposit, ctx.depositChecks);
    } else if !i.WhitelistDelete? {
      assert Get(l.fund, Shares) == Get(g, Shares);
    }
  }
}
