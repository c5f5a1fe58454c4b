/**
 * The program's error vocabulary: the custom error codes, the platform's
 * `ProgramError`, the wrapper `FundError` handlers return, and the conversion
 * of a `FundError` into the `ProgramError` the platform reports.
 */
module Errors {
  import opened Results
  import opened Words

  /**
   * Custom error codes. The first eighteen are the ones the error module
   * numbers (0 to 17, in declaration order). The last seven are not declared
   * in that module, so their numeric value is not known to this model. Five
   * of them are returned by handlers; `NFTMintMissing` and
   * `NFTTokenAccountMissing` only appear as the error of an `ok_or(..)`
   * that is unwrapped at once, so a missing account panics instead and no
   * handler ever returns either code.
   */
  datatype ErrorCode =
    | AlreadyInUse
    | WrongSerialization
    | NotOwnedByProgram
    | NotInitialized
    | InvalidVaultNonce
    | InvalidVault
    | InvalidAccountOwner
    | AlreadyInitialized
    | InvalidMint
    | UnitializedTokenMint
    | Unauthorized
    | InvalidRentSysvar
    | InvalidAccount
    | FundBalanceOverflow
    | FundClosed
    | FundOpen
    | WhitelistInvalidData
    | PubKeyAlreadyExists
    // without a declared discriminant
    | NFTMintMissing
    | NFTTokenAccountMissing
    | WhitelistNotFound
    | InvalidFund
    | InvalidTokenAccountMint
    | InvalidPayBackWithdrawlAddress
    | WithdrawlSizeOverflow

  /** Number of codes with a declared discriminant. */
  const NUMBERED_CODES: nat := 18

  /** The platform's error type. Built-in variants other than `InvalidAccountData` are kept abstract. */
  datatype ProgramError =
    | Custom(code: uint32)
    | UnlistedCustom(unlisted: ErrorCode)
    | InvalidAccountData
    | Builtin(id: nat)

  /** What a handler returns on failure: a platform error or one of the program's codes. */
  datatype FundError = Program(err: ProgramError) | Code(code: ErrorCode)

  /** Why a handler aborted without returning an error value. */
  datatype PanicReason = UnwrapNone | IndexOutOfRange | DivisionByZero | ArithmeticOverflow

  /**
   * How a handler can end unsuccessfully. Either way the whole instruction
   * is rolled back: no account changes and no cross-program call takes effect.
   */
  datatype Failure = Fail(error: FundError) | Panic(reason: PanicReason)

  /** The failure of a handler that returns the given code. */
  function Reject(c: ErrorCode): Failure {
    Fail(Code(c))
  }

  /** The `repr(u32)` discriminant of a code, when the error module declares one. */
  function Discriminant(c: ErrorCode): (r: Option<uint32>)
    ensures r.Some? ==> r.value < NUMBERED_CODES
    ensures r.None? <==>
      || c.NFTMintMissing? || c.NFTTokenAccountMissing? || c.WhitelistNotFound? || c.InvalidFund?
      || c.InvalidTokenAccountMint? || c.InvalidPayBackWithdrawlAddress? || c.WithdrawlSizeOverflow?
  {
    match c
    case AlreadyInUse => Some(0)
    case WrongSerialization => Some(1)
    case NotOwnedByProgram => Some(2)
    case NotInitialized => Some(3)
    case InvalidVaultNonce => Some(4)
    case InvalidVault => Some(5)
    case InvalidAccountOwner => Some(6)
    case AlreadyInitialized => Some(7)
    case InvalidMint => Some(8)
    case UnitializedTokenMint => Some(9)
    case Unauthorized => Some(10)
    case InvalidRentSysvar => Some(11)
    case InvalidAccount => Some(12)
    case FundBalanceOverflow => Some(13)
    case FundClosed => Some(14)
    case FundOpen => Some(15)
    case WhitelistInvalidData => Some(16)
    case PubKeyAlreadyExists => Some(17)
    case _ => None
  }

  /** Decodes a custom error number back to the code it stands for. */
  function CodeOf(n: uint32): (r: Option<ErrorCode>)
    ensures r.Some? <==> n < NUMBERED_CODES
  {
    match n
    case 0 => Some(AlreadyInUse)
    case 1 => Some(WrongSerialization)
    case 2 => Some(NotOwnedByProgram)
    case 3 => Some(NotInitialized)
    case 4 => Some(InvalidVaultNonce)
    case 5 => Some(InvalidVault)
    case 6 => Some(InvalidAccountOwner)
    case 7 => Some(AlreadyInitialized)
    case 8 => Some(InvalidMint)
    case 9 => Some(UnitializedTokenMint)
    case 10 => Some(Unauthorized)
    case 11 => Some(InvalidRentSysvar)
    case 12 => Some(InvalidAccount)
    case 13 => Some(FundBalanceOverflow)
    case 14 => Some(FundClosed)
    case 15 => Some(FundOpen)
    case 16 => Some(WhitelistInvalidData)
    case 17 => Some(PubKeyAlreadyExists)
    case _ => None
  }

  /** Every declared discriminant is below 18 and decodes back to its code. */
  lemma DiscriminantRoundTrip(c: ErrorCode)
    ensures Discriminant(c).Some? ==> Discriminant(c).value < NUMBERED_CODES
    ensures Discriminant(c).Some? ==> CodeOf(Discriminant(c).value) == Some(c)
  {
  }

  /** Every number below 18 is the discriminant of the code it decodes to. */
  lemma CodeOfRoundTrip(n: uint32)
    requires n < NUMBERED_CODES
    ensures CodeOf(n).Some? && Discriminant(CodeOf(n).value) == Some(n)
  {
  }

  /** The `From<FundError> for ProgramError` conversion. */
  function ToProgramError(e: FundError): (r: ProgramError)
    ensures e.Program? ==> r == e.err
    ensures e.Code? && Discriminant(e.code).Some? ==> r.Custom? && CodeOf(r.code) == Some(e.code)
  {
    match e
    case Program(p) => p
    case Code(c) =>
      match Discriminant(c)
      case Some(n) => Custom(n)
      case None => UnlistedCustom(c)
  }

  /** Distinct codes are reported as distinct platform errors. */
  lemma ToProgramErrorInjective(c1: ErrorCode, c2: ErrorCode)
    requires c1 != c2
    ensures ToProgramError(Code(c1)) != ToProgramError(Code(c2))
  {
    DiscriminantRoundTrip(c1);
    DiscriminantRoundTrip(c2);
  }

  /** How an unsuccessful instruction ends as the platform sees it. */
  datatype ProgramFailure = Error(err: ProgramError) | Aborted(reason: PanicReason)

  /** A handler failure as the entrypoint reports it: errors converted, panics kept. */
  function Report(f: Failure): (r: ProgramFailure)
    ensures f.Panic? <==> r.Aborted?
    ensures f.Panic? ==> r == Aborted(f.reason)
    ensures f.Fail? ==> r == Error(ToProgramError(f.error))
  {
    match f
    case Fail(e) => Error(ToProgramError(e))
    case Panic(why) => Aborted(why)
  }
}
