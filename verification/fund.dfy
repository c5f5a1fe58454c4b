/**
 * The persistent fund record and its mutators. Every mutator works on u64
 * fields; an addition or subtraction that leaves the u64 range panics, so
 * the mutators return a `Result` whose failure is an arithmetic panic.
 */
module FundAccount {
  import opened Results
  import opened Words
  import opened Errors

  /** `FundMe` is a donation pool; a `Raise` fund records shares for its depositors. */
  datatype FundType = FundMe | Raise(private: bool)

  /** The derived `Default` of the fund type. */
  function DefaultFundType(): (t: FundType)
    ensures t.FundMe?
  {
    FundMe
  }

  /** True of the fund types whose deposits accrue shares. */
  predicate AccruesShares(t: FundType) {
    t.Raise?
  }

  datatype Fund = Fund(
    initialized: bool,
    open: bool,
    fundType: FundType,
    owner: Pubkey,
    authority: Pubkey,
    maxBalance: uint64,
    balance: uint64,
    nonce: uint8,
    mint: Pubkey,
    vault: Pubkey,
    shares: uint64,
    nftAccount: Pubkey,
    nftMint: Pubkey,
    whitelist: Pubkey,
    paybackTotal: uint64,
    paybackPerShare: uint64)

  /** The derived `Default` record: the record a freshly zeroed account decodes to. */
  function DefaultFund(): (f: Fund)
    ensures !f.initialized && !f.open && f.fundType == DefaultFundType()
    ensures f.balance == 0 && f.maxBalance == 0 && f.shares == 0 && f.nonce == 0
    ensures f.paybackTotal == 0 && f.paybackPerShare == 0
    ensures f.owner == f.authority == f.mint == f.vault == ZERO_KEY
    ensures f.nftAccount == f.nftMint == f.whitelist == ZERO_KEY
  {
    Fund(false, false, FundMe, ZERO_KEY, ZERO_KEY, 0, 0, 0, ZERO_KEY, ZERO_KEY, 0,
         ZERO_KEY, ZERO_KEY, ZERO_KEY, 0, 0)
  }

  // ---------------------------------------------------------------------
  // Field-wise view of a record, used to say "nothing else changes"
  // ---------------------------------------------------------------------

  /** Names of the record's fields. */
  datatype Field =
    | InitializedFlag | OpenFlag | Kind | OwnerKey | AuthorityKey | MaxBalance | Balance
    | Nonce | MintKey | VaultKey | Shares | NftAccountKey | NftMintKey | WhitelistKey
    | PaybackTotal | PaybackPerShare

  datatype FieldValue = Flag(b: bool) | Number(n: int) | Address(k: Pubkey) | TypeOf(t: FundType)

  /** The value of one named field of a record. */
  function Get(f: Fund, x: Field): FieldValue {
    match x
    case InitializedFlag => Flag(f.initialized)
    case OpenFlag => Flag(f.open)
    case Kind => TypeOf(f.fundType)
    case OwnerKey => Address(f.owner)
    case AuthorityKey => Address(f.authority)
    case MaxBalance => Number(f.maxBalance)
    case Balance => Number(f.balance)
    case Nonce => Number(f.nonce)
    case MintKey => Address(f.mint)
    case VaultKey => Address(f.vault)
    case Shares => Number(f.shares)
    case NftAccountKey => Address(f.nftAccount)
    case NftMintKey => Address(f.nftMint)
    case WhitelistKey => Address(f.whitelist)
    case PaybackTotal => Number(f.paybackTotal)
    case PaybackPerShare => Number(f.paybackPerShare)
  }

  /** `g` agrees with `f` on every field outside `changed`. */
  predicate SameExcept(f: Fund, g: Fund, changed: set<Field>) {
    forall x: Field :: x !in changed ==> Get(f, x) == Get(g, x)
  }

  /**
   * `Get` covers every field: records that agree on all of them are equal.
   * This is what makes each `SameExcept` frame in the model a complete
   * statement of what an operation may change.
   */
  lemma SameExceptNothing(f: Fund, g: Fund)
    requires SameExcept(f, g, {})
    ensures f == g
  {
    assert Get(f, InitializedFlag) == Get(g, InitializedFlag);
    assert Get(f, OpenFlag) == Get(g, OpenFlag);
    assert Get(f, Kind) == Get(g, Kind);
    assert Get(f, OwnerKey) == Get(g, OwnerKey);
    assert Get(f, AuthorityKey) == Get(g, AuthorityKey);
    assert Get(f, MaxBalance) == Get(g, MaxBalance);
    assert Get(f, Balance) == Get(g, Balance);
    assert Get(f, Nonce) == Get(g, Nonce);
    assert Get(f, MintKey) == Get(g, MintKey);
    assert Get(f, VaultKey) == Get(g, VaultKey);
    assert Get(f, Shares) == Get(g, Shares);
    assert Get(f, NftAccountKey) == Get(g, NftAccountKey);
    assert Get(f, NftMintKey) == Get(g, NftMintKey);
    assert Get(f, WhitelistKey) == Get(g, WhitelistKey);
    assert Get(f, PaybackTotal) == Get(g, PaybackTotal);
    assert Get(f, PaybackPerShare) == Get(g, PaybackPerShare);
  }

  // ---------------------------------------------------------------------
  // Mutators
  // ---------------------------------------------------------------------

  /**
   * `deduct`: subtracts `amount` from a positive balance; a zero balance is
   * left alone whatever the amount. Subtracting more than a positive balance
   * underflows and panics.
   */
  function Deduct(f: Fund, amount: uint64): (r: Result<Fund, Failure>)
    ensures r.Err? <==> 0 < f.balance < amount
    ensures r.Err? ==> r.error == Panic(ArithmeticOverflow)
    ensures r.Ok? && f.balance > 0 ==> r.value.balance + amount == f.balance
    ensures r.Ok? && f.balance == 0 ==> r.value == f
    ensures r.Ok? ==> r.value.shares == f.shares && SameExcept(f, r.value, {Balance})
  {
    if f.balance > 0 then
      if amount <= f.balance then Ok(f.(balance := f.balance - amount))
      else Err(Panic(ArithmeticOverflow))
    else Ok(f)
  }

  /**
   * `add`: credits a deposit to the balance and, for both kinds of raise,
   * to the shares. Either sum leaving the u64 range panics.
   */
  function Add(f: Fund, amount: uint64): (r: Result<Fund, Failure>)
    ensures r.Ok? <==>
      f.balance + amount < U64_LIMIT && (AccruesShares(f.fundType) ==> f.shares + amount < U64_LIMIT)
    ensures r.Err? ==> r.error == Panic(ArithmeticOverflow)
    ensures r.Ok? ==> r.value.balance == f.balance + amount
    ensures r.Ok? && AccruesShares(f.fundType) ==> r.value.shares == f.shares + amount
    ensures r.Ok? && f.fundType.FundMe? ==> r.value.shares == f.shares
    ensures r.Ok? ==> SameExcept(f, r.value, {Balance, Shares})
  {
    if f.balance + amount >= U64_LIMIT then Err(Panic(ArithmeticOverflow))
    else
      var credited := f.(balance := f.balance + amount);
      if f.fundType == Raise(true) || f.fundType == Raise(false) then
        if f.shares + amount >= U64_LIMIT then Err(Panic(ArithmeticOverflow))
        else Ok(credited.(shares := f.shares + amount))
      else Ok(credited)
  }

  /** `close_fund`: the fund stops taking deposits. */
  function CloseFund(f: Fund): (r: Fund)
    ensures !r.open
    ensures SameExcept(f, r, {OpenFlag})
  {
    if f.open then f.(open := false) else f
  }

  /** `add_payback_bal`: accumulates the payback pool's total. */
  function AddPaybackBal(f: Fund, amount: uint64): (r: Result<Fund, Failure>)
    ensures r.Ok? <==> f.paybackTotal + amount < U64_LIMIT
    ensures r.Err? ==> r.error == Panic(ArithmeticOverflow)
    ensures r.Ok? ==> r.value.paybackTotal == f.paybackTotal + amount
    ensures r.Ok? ==> SameExcept(f, r.value, {PaybackTotal})
  {
    if f.paybackTotal + amount < U64_LIMIT then Ok(f.(paybackTotal := f.paybackTotal + amount))
    else Err(Panic(ArithmeticOverflow))
  }

  /** `add_payback_per_share`: accumulates the per-share payback rate. */
  function AddPaybackPerShare(f: Fund, amount: uint64): (r: Result<Fund, Failure>)
    ensures r.Ok? <==> f.paybackPerShare + amount < U64_LIMIT
    ensures r.Err? ==> r.error == Panic(ArithmeticOverflow)
    ensures r.Ok? ==> r.value.paybackPerShare == f.paybackPerShare + amount
    ensures r.Ok? ==> SameExcept(f, r.value, {PaybackPerShare})
  {
    if f.paybackPerShare + amount < U64_LIMIT then Ok(f.(paybackPerShare := f.paybackPerShare + amount))
    else Err(Panic(ArithmeticOverflow))
  }

  // ---------------------------------------------------------------------
  // Properties relating the mutators
  // ---------------------------------------------------------------------

  /** Closing is idempotent: a second close changes nothing. */
  lemma CloseFundIdempotent(f: Fund)
    ensures CloseFund(CloseFund(f)) == CloseFund(f)
  {
  }

  /** No mutator decreases the share count. */
  lemma SharesNeverDecrease(f: Fund, amount: uint64)
    ensures Add(f, amount).Ok? ==> Add(f, amount).value.shares >= f.shares
    ensures Deduct(f, amount).Ok? ==> Deduct(f, amount).value.shares == f.shares
    ensures CloseFund(f).shares == f.shares
    ensures AddPaybackBal(f, amount).Ok? ==> AddPaybackBal(f, amount).value.shares == f.shares
    ensures AddPaybackPerShare(f, amount).Ok? ==> AddPaybackPerShare(f, amount).value.shares == f.shares
  {
    assert Get(f, Shares) == Number(f.shares);
  }

  /** Deducting what was just added restores the balance (the add left a positive balance or added nothing). */
  lemma AddThenDeduct(f: Fund, amount: uint64)
    requires Add(f, amount).Ok?
    ensures Deduct(Add(f, amount).value, amount).Ok?
    ensures Deduct(Add(f, amount).value, amount).value.balance == f.balance
    ensures Deduct(Add(f, amount).value, amount).value.shares == Add(f, amount).value.shares
  {
  }

  /** For a raise, `add` keeps the gap between shares and balance. */
  lemma AddKeepsShareGap(f: Fund, amount: uint64)
    requires AccruesShares(f.fundType) && Add(f, amount).Ok?
    ensures Add(f, amount).value.shares - Add(f, amount).value.balance == f.shares - f.balance
  {
  }
}
