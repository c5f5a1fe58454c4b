/**
 * The Initialize handler. The gate checks the vault against the custody
 * address derived with nonce 0, then the record must decode and belong to
 * this program. The transition assigns the configuration fields.
 *
 * As written, the handler never sets `initialized`, has no check that the
 * record is not already initialized, and ignores the outcome of the
 * read-modify-write of the record: once the checks pass it succeeds whether
 * or not the new record was stored.
 */
module InitializeHandler {
  import opened Results
  import opened Words
  import opened Errors
  import opened FundAccount
  import opened AccessControl
  import opened Effects

  /** The nonce the custody address is derived with at creation. */
  const CREATION_NONCE: uint8 := 0

  /**
   * The accounts of the instruction. `recordDecode` is the outcome of
   * decoding the fund account's data as a record; `stored` tells whether the
   * read-modify-write of the record completed.
   */
  datatype Accounts = Accounts(
    fund: AccountInfo,
    account: AccountInfo,
    vault: AccountInfo,
    mint: AccountInfo,
    recordDecode: Result<(), ProgramError>,
    stored: bool)

  /** The vault must be a live token account owned by the custody address for nonce 0. */
  function Gate(p: Platform, a: Accounts): (r: Result<(), Failure>)
    ensures r.Ok? <==>
      && Token(p, a.vault).Ok?
      && p.derive(a.fund.key, 0).Some?
      && Token(p, a.vault).value.owner == p.derive(a.fund.key, 0).value
    ensures Token(p, a.vault).Err? ==> r == Err(Fail(Token(p, a.vault).error))
    ensures (a.vault.owner == p.tokenProgram && a.vault.tokenData.Ok? &&
             a.vault.tokenData.value.state != Initialized) ==> r == Err(Reject(NotInitialized))
    ensures Token(p, a.vault).Ok? && p.derive(a.fund.key, 0).None? ==> r == Err(Reject(InvalidVaultNonce))
    ensures (Token(p, a.vault).Ok? && p.derive(a.fund.key, 0).Some? &&
             Token(p, a.vault).value.owner != p.derive(a.fund.key, 0).value) ==> r == Err(Reject(InvalidVault))
  {
    match Token(p, a.vault)
    case Err(e) => Err(Fail(e))
    case Ok(vault) =>
      if vault.state != Initialized then Err(Reject(NotInitialized))
      else
        match p.derive(a.fund.key, CREATION_NONCE)
        case None => Err(Reject(InvalidVaultNonce))
        case Some(custody) =>
          if vault.owner != custody then Err(Reject(InvalidVault)) else Ok(())
  }

  /** The fields the transition assigns. */
  const ASSIGNED: set<Field> :=
    {OpenFlag, OwnerKey, AuthorityKey, VaultKey, MintKey, MaxBalance, Balance, Kind, Nonce}

  /** The transition: opens the fund and records its configuration with a zero balance. */
  function Transition(
    f: Fund, owner: Pubkey, authority: Pubkey, vault: Pubkey, mint: Pubkey,
    fundType: FundType, maxBalance: uint64): (r: Fund)
    ensures r.open && r.balance == 0 && r.nonce == CREATION_NONCE
    ensures r.owner == owner && r.authority == authority && r.vault == vault && r.mint == mint
    ensures r.maxBalance == maxBalance && r.fundType == fundType
    ensures SameExcept(f, r, ASSIGNED)
  {
    f.(open := true, owner := owner, authority := authority, vault := vault, mint := mint,
       maxBalance := maxBalance, balance := 0, fundType := fundType, nonce := CREATION_NONCE)
  }

  /** The whole handler. */
  function Handler(
    p: Platform, f: Fund, owner: Pubkey, authority: Pubkey, maxBalance: uint64,
    fundType: FundType, a: Accounts): (r: Result<Step, Failure>)
    ensures Gate(p, a).Err? ==> r == Err(Gate(p, a).error)
    ensures Gate(p, a).Ok? && a.recordDecode.Err? ==> r == Err(Fail(Program(a.recordDecode.error)))
    ensures (Gate(p, a).Ok? && a.recordDecode.Ok? && a.fund.owner != p.programId) ==>
      r == Err(Reject(NotOwnedByProgram))
    ensures r.Ok? <==> Gate(p, a).Ok? && a.recordDecode.Ok? && a.fund.owner == p.programId
    ensures r.Ok? ==> r.value.effects == []
    ensures r.Ok? && a.stored ==>
      r.value.fund == Transition(f, owner, authority, a.vault.key, a.mint.key, fundType, maxBalance)
    ensures r.Ok? && !a.stored ==> r.value.fund == f
    ensures r.Ok? ==> SameExcept(f, r.value.fund, ASSIGNED)
  {
    var _ :- Gate(p, a);
    match a.recordDecode
    case Err(e) => Err(Fail(Program(e)))
    case Ok(_) =>
      if a.fund.owner != p.programId then Err(Reject(NotOwnedByProgram))
      else
        var next :=
          if a.stored then Transition(f, owner, authority, a.vault.key, a.mint.key, fundType, maxBalance)
          else f;
        Ok(Step(next, []))
  }

  /** Initialize leaves `initialized`, the shares, the NFT and whitelist keys and the payback fields as they were. */
  lemma HandlerKeepsUnassignedFields(
    p: Platform, f: Fund, owner: Pubkey, authority: Pubkey, maxBalance: uint64,
    fundType: FundType, a: Accounts)
    requires Handler(p, f, owner, authority, maxBalance, fundType, a).Ok?
    ensures var g := Handler(p, f, owner, authority, maxBalance, fundType, a).value.fund;
      && g.initialized == f.initialized && g.shares == f.shares
      && g.nftAccount == f.nftAccount && g.nftMint == f.nftMint && g.whitelist == f.whitelist
      && g.paybackTotal == f.paybackTotal && g.paybackPerShare == f.paybackPerShare
  {
    var g := Handler(p, f, owner, authority, maxBalance, fundType, a).value.fund;
    assert Get(f, InitializedFlag) == Get(g, InitializedFlag);
    assert Get(f, Shares) == Get(g, Shares);
    assert Get(f, NftAccountKey) == Get(g, NftAccountKey);
    assert Get(f, NftMintKey) == Get(g, NftMintKey);
    assert Get(f, WhitelistKey) == Get(g, WhitelistKey);
    assert Get(f, PaybackTotal) == Get(g, PaybackTotal);
    assert Get(f, PaybackPerShare) == Get(g, PaybackPerShare);
  }

  /** Whether the handler succeeds does not depend on the record, nor on whether it was stored. */
  lemma OutcomeIgnoresRecordAndStore(
    p: Platform, f1: Fund, f2: Fund, owner: Pubkey, authority: Pubkey, maxBalance: uint64,
    fundType: FundType, a: Accounts)
    ensures Handler(p, f1, owner, authority, maxBalance, fundType, a).Ok?
      == Handler(p, f2, owner, authority, maxBalance, fundType, a.(stored := !a.stored)).Ok?
  {
  }

  /**
   * Nothing stops a second Initialize: on a live raise it resets the balance
   * to zero but keeps the shares, so shares and balance drift apart.
   */
  lemma ReinitializeResetsBalanceKeepsShares(
    p: Platform, f: Fund, owner: Pubkey, authority: Pubkey, maxBalance: uint64,
    fundType: FundType, a: Accounts)
    requires f.initialized && f.balance > 0 && f.shares == f.balance
    requires a.stored && Gate(p, a).Ok? && a.recordDecode.Ok? && a.fund.owner == p.programId
    ensures Handler(p, f, owner, authority, maxBalance, fundType, a).Ok?
    ensures var g := Handler(p, f, owner, authority, maxBalance, fundType, a).value.fund;
      g.initialized && g.balance == 0 && g.shares == f.shares && g.shares != g.balance
  {
    HandlerKeepsUnassignedFields(p, f, owner, authority, maxBalance, fundType, a);
  }
}
