/**
 * Account facts the handlers consult, the concrete `token` check, and the
 * abstract outcome of the access-control helpers whose bodies are not part
 * of this model.
 */
module AccessControl {
  import opened Results
  import opened Words
  import opened Errors

  /** State of a token account, as the token program records it. */
  datatype AccountState = Uninitialized | Initialized | Frozen

  /** The fields of a token account the handlers read. */
  datatype TokenAccount = TokenAccount(mint: Pubkey, owner: Pubkey, amount: uint64, state: AccountState)

  /**
   * An account passed to an instruction. `tokenData` is what decoding the
   * account's data as a token account yields; the decoder belongs to the
   * token program and is not modelled.
   */
  datatype AccountInfo = AccountInfo(
    key: Pubkey,
    owner: Pubkey,
    isSigner: bool,
    tokenData: Result<TokenAccount, ProgramError>)

  /**
   * Facts about the platform fixed for one execution: this program's id, the
   * token program's id, and program-address derivation. `derive(fund, nonce)`
   * is the address derived from the vault signer seeds of `fund` and `nonce`
   * under this program's id, or `None` when derivation fails.
   */
  datatype Platform = Platform(
    programId: Pubkey,
    tokenProgram: Pubkey,
    derive: (Pubkey, uint8) -> Option<Pubkey>)

  /**
   * `token`: an account is accepted as a token account only if the token
   * program owns it, its data decodes, and it is initialized.
   */
  function Token(p: Platform, acc: AccountInfo): (r: Result<TokenAccount, FundError>)
    ensures acc.owner != p.tokenProgram ==> r == Err(Code(InvalidAccountOwner))
    ensures acc.owner == p.tokenProgram && acc.tokenData.Err? ==> r == Err(Program(acc.tokenData.error))
    ensures acc.owner == p.tokenProgram && acc.tokenData.Ok? && acc.tokenData.value.state != Initialized
      ==> r == Err(Code(NotInitialized))
    ensures r.Ok? <==>
      acc.owner == p.tokenProgram && acc.tokenData.Ok? && acc.tokenData.value.state == Initialized
    ensures r.Ok? ==> r.value == acc.tokenData.value
  {
    if acc.owner != p.tokenProgram then Err(Code(InvalidAccountOwner))
    else match acc.tokenData
      case Err(e) => Err(Program(e))
      case Ok(token) =>
        if token.state != Initialized then Err(Code(NotInitialized))
        else Ok(token)
  }

  /** The owner check comes before decoding: a foreign account's data is never looked at. */
  lemma TokenIgnoresForeignData(p: Platform, a: AccountInfo, b: AccountInfo)
    requires a.owner == b.owner && a.owner != p.tokenProgram
    ensures Token(p, a) == Token(p, b)
  {
  }

  /**
   * The outcome of an access-control helper whose body is not part of this
   * model (`fund`, `vault_join`, `check_balance`, `fund_open`, `check_nft`,
   * `check_depositor`, `check_owner`, `whitelist`, `withdraw`). The handlers
   * are modelled for every possible outcome of each helper.
   */
  datatype Gate = Pass | Deny(error: FundError)
}
