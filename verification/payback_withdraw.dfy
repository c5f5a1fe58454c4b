/**
 * The PaybackWithdraw handler. The gate checks, in order: the withdrawer
 * signed; the `fund` helper; the fund is a private raise (the test
 * `payback_withdraw.rs` writes against `Raise { private: (true || false) }`
 * compares with `Raise { private: true }`); the
 * NFT account is a live token account of the fund's NFT mint; the
 * destination's balance is below the claim; the claim does not exceed the
 * fund's shares. The transition only transfers the claim out of the payback
 * vault, signed with the fund's vault seeds; the record is written back
 * unchanged.
 */
module PaybackWithdrawHandler {
  import opened Results
  import opened Words
  import opened Errors
  import opened FundAccount
  import opened AccessControl
  import opened Effects

  datatype Accounts = Accounts(
    tokenProgram: Pubkey,
    nftAccount: AccountInfo,
    paybackVaultAuthority: Pubkey,
    paybackVault: Pubkey,
    fund: Pubkey,
    withdrawer: Pubkey,
    withdrawerSigned: bool,
    destination: AccountInfo)

  /** Every condition of the gate holds. */
  predicate Admissible(p: Platform, f: Fund, amount: uint64, a: Accounts, fundCheck: Gate) {
    && a.withdrawerSigned
    && fundCheck.Pass?
    && f.fundType == Raise(true)
    && Token(p, a.nftAccount).Ok?
    && Token(p, a.nftAccount).value.mint == f.nftMint
    && a.destination.tokenData.Ok?
    && a.destination.tokenData.value.amount < amount <= f.shares
  }

  function Gate(p: Platform, f: Fund, amount: uint64, a: Accounts, fundCheck: Gate): (r: Result<(), Failure>)
    ensures r.Ok? <==> Admissible(p, f, amount, a, fundCheck)
    ensures !a.withdrawerSigned ==> r == Err(Reject(Unauthorized))
    ensures a.withdrawerSigned && fundCheck.Deny? ==> r == Err(Fail(fundCheck.error))
    ensures (a.withdrawerSigned && fundCheck.Pass? && f.fundType != Raise(true)) ==> r == Err(Reject(InvalidFund))
    ensures (a.withdrawerSigned && fundCheck.Pass? && f.fundType == Raise(true) && Token(p, a.nftAccount).Err?) ==>
      r == Err(Fail(Token(p, a.nftAccount).error))
    ensures (a.withdrawerSigned && fundCheck.Pass? && f.fundType == Raise(true) && Token(p, a.nftAccount).Ok? &&
             Token(p, a.nftAccount).value.mint != f.nftMint) ==> r == Err(Reject(InvalidTokenAccountMint))
    ensures (a.withdrawerSigned && fundCheck.Pass? && f.fundType == Raise(true) && Token(p, a.nftAccount).Ok? &&
             Token(p, a.nftAccount).value.mint == f.nftMint &&
             a.destination.tokenData.Err?) ==> r == Err(Fail(Program(a.destination.tokenData.error)))
    ensures (a.withdrawerSigned && fundCheck.Pass? && f.fundType == Raise(true) && Token(p, a.nftAccount).Ok? &&
             Token(p, a.nftAccount).value.mint == f.nftMint && a.destination.tokenData.Ok? &&
             a.destination.tokenData.value.amount >= amount) ==> r == Err(Reject(InvalidPayBackWithdrawlAddress))
    ensures (a.withdrawerSigned && fundCheck.Pass? && f.fundType == Raise(true) && Token(p, a.nftAccount).Ok? &&
             Token(p, a.nftAccount).value.mint == f.nftMint && a.destination.tokenData.Ok? &&
             a.destination.tokenData.value.amount < amount && amount > f.shares) ==>
      r == Err(Reject(WithdrawlSizeOverflow))
  {
    if !a.withdrawerSigned then Err(Reject(Unauthorized))
    else if fundCheck.Deny? then Err(Fail(fundCheck.error))
    else if f.fundType != Raise(true || false) then Err(Reject(InvalidFund))
    else match Token(p, a.nftAccount)
      case Err(e) => Err(Fail(e))
      case Ok(nft) =>
        if nft.mint != f.nftMint then Err(Reject(InvalidTokenAccountMint))
        else match a.destination.tokenData
          // the destination is decoded without the owner and state checks of `token`
          case Err(e) => Err(Fail(Program(e)))
          case Ok(dest) =>
            if dest.amount >= amount then Err(Reject(InvalidPayBackWithdrawlAddress))
            else if amount > f.shares then Err(Reject(WithdrawlSizeOverflow))
            // `payback_withdraw.rs` repeats the `fund` helper here; on the same account it passes again
            else Ok(())
  }

  /** The payout transfer, signed with the fund's vault seeds. */
  function Payout(f: Fund, amount: uint64, a: Accounts): (e: Effect)
    ensures e.Transfer? && e.amount == amount && e.signer == Some(Seeds(a.fund, f.nonce))
    ensures e.source == a.paybackVault && e.destination == a.withdrawer
    ensures e.authority == a.paybackVaultAuthority
  {
    Transfer(a.paybackVault, a.withdrawer, a.paybackVaultAuthority, amount, Some(Seeds(a.fund, f.nonce)))
  }

  function Handler(p: Platform, f: Fund, amount: uint64, a: Accounts, fundCheck: Gate): (r: Result<Step, Failure>)
    ensures r.Ok? <==> Admissible(p, f, amount, a, fundCheck)
    ensures r.Err? ==> r == Err(Gate(p, f, amount, a, fundCheck).error)
    ensures r.Ok? ==> r.value.fund == f
    ensures r.Ok? ==> r.value.effects == [Payout(f, amount, a)]
    ensures r.Ok? ==> 0 < amount <= f.shares
  {
    var _ :- Gate(p, f, amount, a, fundCheck);
    Ok(Step(f, [Payout(f, amount, a)]))
  }

  /** A public raise or a FundMe fund never pays out, whatever else holds. */
  lemma OnlyPrivateRaisesPayOut(p: Platform, f: Fund, amount: uint64, a: Accounts, fundCheck: Gate)
    requires f.fundType != Raise(true) && a.withdrawerSigned && fundCheck.Pass?
    ensures Handler(p, f, amount, a, fundCheck) == Err(Reject(InvalidFund))
  {
  }
}
