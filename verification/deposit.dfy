/**
 * The Deposit handler. An ordered gate (signer, then the helper checks, then
 * the receipt-NFT and whitelist checks of a private raise), then the
 * transition: for a private raise a receipt mint, then `add`, then the
 * transfer from the depositor into the vault.
 *
 * `deposit.rs` tests `fund_type == Raise { private: (true || false) }`. The
 * condition `true || false` is `true`, so NFT gating and receipt minting
 * apply to private raises only; a public raise is treated like `FundMe`
 * except that `add` still credits its shares.
 */
module DepositHandler {
  import opened Results
  import opened Words
  import opened Errors
  import opened FundAccount
  import opened AccessControl
  import opened Effects

  /** The instruction's accounts; the last three are optional and may be absent. */
  datatype Accounts = Accounts(
    vault: Pubkey,
    depositor: Pubkey,
    depositorAuthority: Pubkey,
    authoritySigned: bool,
    fund: Pubkey,
    vaultAuthority: Pubkey,
    tokenProgram: Pubkey,
    nftMint: Option<Pubkey>,
    nftToken: Option<Pubkey>,
    whitelist: Option<Pubkey>)

  /** Outcomes of the helper checks, in the order the gate consults them. */
  datatype Checks = Checks(
    fund: Gate,
    vaultJoin: Gate,
    balance: Gate,
    open: Gate,
    nft: Gate,
    depositor: Gate)

  /** The fund type `deposit.rs` singles out for the receipt and whitelist conditions. */
  predicate IsPrivateRaise(t: FundType) {
    t == Raise(true)
  }

  /** The helper checks every deposit must pass, whatever the fund type. */
  predicate CommonChecksPass(c: Checks) {
    c.fund.Pass? && c.vaultJoin.Pass? && c.balance.Pass? && c.open.Pass?
  }

  /** The extra requirements of a private raise: both NFT accounts, the whitelist account, and their checks. */
  predicate PrivateChecksPass(a: Accounts, c: Checks) {
    a.nftMint.Some? && a.nftToken.Some? && c.nft.Pass? && a.whitelist.Some? && c.depositor.Pass?
  }

  /** The access-control gate; the first failing check decides the outcome. */
  function Gate(f: Fund, amount: uint64, a: Accounts, c: Checks): (r: Result<(), Failure>)
    ensures r.Ok? <==>
      a.authoritySigned && CommonChecksPass(c) && (IsPrivateRaise(f.fundType) ==> PrivateChecksPass(a, c))
    ensures !a.authoritySigned ==> r == Err(Reject(Unauthorized))
    ensures a.authoritySigned && c.fund.Deny? ==> r == Err(Fail(c.fund.error))
    ensures a.authoritySigned && c.fund.Pass? && c.vaultJoin.Deny? ==> r == Err(Fail(c.vaultJoin.error))
    ensures (a.authoritySigned && c.fund.Pass? && c.vaultJoin.Pass? && c.balance.Deny?) ==>
      r == Err(Fail(c.balance.error))
    ensures (a.authoritySigned && c.fund.Pass? && c.vaultJoin.Pass? && c.balance.Pass? && c.open.Deny?) ==>
      r == Err(Fail(c.open.error))
    ensures (a.authoritySigned && CommonChecksPass(c) && IsPrivateRaise(f.fundType) &&
             (a.nftMint.None? || a.nftToken.None?)) ==> r == Err(Panic(UnwrapNone))
    ensures (a.authoritySigned && CommonChecksPass(c) && IsPrivateRaise(f.fundType) &&
             a.nftMint.Some? && a.nftToken.Some? && c.nft.Deny?) ==> r == Err(Fail(c.nft.error))
    ensures (a.authoritySigned && CommonChecksPass(c) && IsPrivateRaise(f.fundType) &&
             a.nftMint.Some? && a.nftToken.Some? && c.nft.Pass? && a.whitelist.None?) ==> r == Err(Panic(UnwrapNone))
    ensures (a.authoritySigned && CommonChecksPass(c) && IsPrivateRaise(f.fundType) &&
             a.nftMint.Some? && a.nftToken.Some? && c.nft.Pass? && a.whitelist.Some? && c.depositor.Deny?) ==>
      r == Err(Fail(c.depositor.error))
  {
    if !a.authoritySigned then Err(Reject(Unauthorized))
    else if c.fund.Deny? then Err(Fail(c.fund.error))
    else if c.vaultJoin.Deny? then Err(Fail(c.vaultJoin.error))
    else if c.balance.Deny? then Err(Fail(c.balance.error))
    else if c.open.Deny? then Err(Fail(c.open.error))
    // receipt NFT: both optional accounts are unwrapped before `check_nft` runs
    else if f.fundType == Raise(true || false) && (a.nftMint.None? || a.nftToken.None?) then
      Err(Panic(UnwrapNone))
    else if f.fundType == Raise(true || false) && c.nft.Deny? then Err(Fail(c.nft.error))
    // whitelist membership
    else if f.fundType == Raise(true) && a.whitelist.None? then Err(Panic(UnwrapNone))
    else if f.fundType == Raise(true) && c.depositor.Deny? then Err(Fail(c.depositor.error))
    else Ok(())
  }

  /**
   * The receipt mint a private-raise deposit of `amount` makes, signed with
   * the fund's vault seeds. As written, the call passes the NFT token
   * account where the token program expects the mint and the NFT mint where
   * it expects the destination account.
   */
  function ReceiptMint(f: Fund, amount: uint64, a: Accounts): (e: Effect)
    requires a.nftMint.Some? && a.nftToken.Some?
    ensures e.MintTo? && e.amount == amount && e.authority == a.vaultAuthority
    ensures e.seeds == Seeds(a.fund, f.nonce)
    ensures e.mint == a.nftToken.value && e.account == a.nftMint.value
  {
    // argument order of `deposit.rs`: token account first, then the mint
    MintTo(a.nftToken.value, a.nftMint.value, a.vaultAuthority, amount, Seeds(a.fund, f.nonce))
  }

  /**
   * Unless the two optional accounts are the same key, the receipt mint does
   * not name the NFT mint as its mint: it mints from the token account into
   * the mint.
   */
  lemma ReceiptMintSwapsAccounts(f: Fund, amount: uint64, a: Accounts)
    requires a.nftMint.Some? && a.nftToken.Some? && a.nftMint.value != a.nftToken.value
    ensures ReceiptMint(f, amount, a).mint != a.nftMint.value
    ensures ReceiptMint(f, amount, a).account != a.nftToken.value
  {
  }

  /** The transfer from the depositor into the vault, authorised by the depositor's own signature. */
  function DepositTransfer(amount: uint64, a: Accounts): (e: Effect)
    ensures e.Transfer? && e.amount == amount && e.signer.None?
    ensures e.source == a.depositor && e.destination == a.vault && e.authority == a.depositorAuthority
  {
    Transfer(a.depositor, a.vault, a.depositorAuthority, amount, None)
  }

  /** The transition: receipt mint (private raise only), `add`, then the transfer. */
  function Transition(f: Fund, amount: uint64, a: Accounts): (r: Result<Step, Failure>)
    ensures r.Ok? <==>
      (IsPrivateRaise(f.fundType) ==> a.nftMint.Some? && a.nftToken.Some?) && Add(f, amount).Ok?
    ensures IsPrivateRaise(f.fundType) && (a.nftMint.None? || a.nftToken.None?) ==> r == Err(Panic(UnwrapNone))
    ensures ((IsPrivateRaise(f.fundType) ==> a.nftMint.Some? && a.nftToken.Some?) && Add(f, amount).Err?) ==>
      r == Err(Panic(ArithmeticOverflow))
    ensures r.Ok? ==> Add(f, amount) == Ok(r.value.fund)
    ensures r.Ok? ==> |r.value.effects| > 0 && r.value.effects[|r.value.effects| - 1] == DepositTransfer(amount, a)
    ensures r.Ok? && IsPrivateRaise(f.fundType) ==> a.nftMint.Some? && a.nftToken.Some?
    ensures r.Ok? && IsPrivateRaise(f.fundType) ==>
      r.value.effects == [ReceiptMint(f, amount, a), DepositTransfer(amount, a)]
    ensures r.Ok? && !IsPrivateRaise(f.fundType) ==> r.value.effects == [DepositTransfer(amount, a)]
  {
    if f.fundType == Raise(true || false) && (a.nftToken.None? || a.nftMint.None?) then
      Err(Panic(UnwrapNone))
    else
      var minted := if f.fundType == Raise(true || false) then [ReceiptMint(f, amount, a)] else [];
      var credited :- Add(f, amount);
      Ok(Step(credited, minted + [DepositTransfer(amount, a)]))
  }

  /** The whole handler. */
  function Handler(f: Fund, amount: uint64, a: Accounts, c: Checks): (r: Result<Step, Failure>)
    ensures !a.authoritySigned ==> r == Err(Reject(Unauthorized))
    ensures Gate(f, amount, a, c).Err? ==> r == Err(Gate(f, amount, a, c).error)
    ensures r.Ok? <==> Gate(f, amount, a, c).Ok? && Add(f, amount).Ok?
    ensures Gate(f, amount, a, c).Ok? && Add(f, amount).Err? ==> r == Err(Panic(ArithmeticOverflow))
    ensures r.Ok? ==> Add(f, amount) == Ok(r.value.fund)
    ensures r.Ok? && IsPrivateRaise(f.fundType) ==> PrivateChecksPass(a, c)
    ensures r.Ok? && IsPrivateRaise(f.fundType) ==>
      r.value.effects == [ReceiptMint(f, amount, a), DepositTransfer(amount, a)]
    ensures r.Ok? && !IsPrivateRaise(f.fundType) ==> r.value.effects == [DepositTransfer(amount, a)]
  {
    var _ :- Gate(f, amount, a, c);
    Transition(f, amount, a)
  }

  /** A successful deposit credits exactly `amount` to the balance, and to the shares of either kind of raise. */
  lemma HandlerCredits(f: Fund, amount: uint64, a: Accounts, c: Checks)
    requires Handler(f, amount, a, c).Ok?
    ensures var g := Handler(f, amount, a, c).value.fund;
      && g.balance == f.balance + amount
      && (f.fundType.Raise? ==> g.shares == f.shares + amount)
      && (f.fundType.FundMe? ==> g.shares == f.shares)
      && SameExcept(f, g, {Balance, Shares})
  {
  }

  /** A public raise and a FundMe fund never require, and never mint, a receipt. */
  lemma PublicDepositsIgnoreNftAndWhitelist(f: Fund, amount: uint64, a: Accounts, c: Checks, c': Checks)
    requires !IsPrivateRaise(f.fundType)
    requires c'.fund == c.fund && c'.vaultJoin == c.vaultJoin && c'.balance == c.balance && c'.open == c.open
    ensures Handler(f, amount, a, c) ==
      Handler(f, amount, a.(nftMint := None, nftToken := None, whitelist := None), c')
  {
  }
}
