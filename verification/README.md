# Pooled-fund ledger program: a Dafny model

This project models the fund-ledger core of an on-chain pooled-fund program.
A fund record holds a balance, shares and payback bookkeeping, and a
fixed-size whitelist account holds depositor keys. Each instruction handler
runs an ordered access-control gate and then applies a state transition.

Every handler is a pure function. It takes the current record, the request
and the facts about the accounts passed with it. It returns either a `Step`
or a `Failure`. A `Step` holds the new record and the ordered list of calls
into the token program (`MintTo`, `Transfer`). A `Failure` is either an
error value or a panic. The platform runs each instruction all or nothing,
so a failure has no effect at all.

Modules, one per source file:

| module | file | content |
|---|---|---|
| `Results`, `Words` | (none) | `Option`/`Result`, u8/u32/u64 ranges, 32-byte keys |
| `Errors` | `src/error.rs` | error codes, discriminants, conversion to the platform error |
| `FundAccount` | `fund/src/accounts/fund.rs` | `FundType`, `Fund`, its mutators, field-wise frame predicate `SameExcept` |
| `Whitelist`, `WhitelistProperties` | `src/accounts/whitelist.rs` | 50 slots of 32 bytes over raw account data |
| `AccessControl` | `program/src/access_control.rs` | account facts, the `token` check, abstract helper outcomes |
| `Effects` | `program/src/deposit.rs`, `program/src/payback_withdraw.rs` | the token-program calls the handlers make (`MintTo`, `Transfer`) and the record they leave |
| `InitializeHandler` | `program/src/initialize.rs` | |
| `DepositHandler` | `program/src/deposit.rs` | |
| `CloseHandler` | `program/src/close.rs` | |
| `RegisterPaybackHandler` | `program/src/register_payback.rs` | |
| `PaybackWithdrawHandler` | `program/src/payback_withdraw.rs` | |
| `WhitelistDeleteHandler` | `program/src/whitelist_delete.rs` | |
| `InstructionCodec` | `program/src/instruction.rs` | tag byte + little-endian `InitArgs` |
| `Processor` | `program/src/lib.rs` | decode, route, convert errors |
| `LedgerProperties` | (several) | runs of deposits |

Modelling choices:

- **Panics.** A `unwrap` of `None` panics, and so does a slice past the end
  of the account data or a `checked_div` by zero. u64 `+=`/`-=` overflow is
  modelled as a panic too, as in a build with overflow checks. The model
  writes each of these out as `Panic(reason)`.
- **Unseen helpers.** The bodies of the `access_control` helpers `fund`,
  `vault_join`, `check_balance`, `fund_open`, `check_nft`, `check_depositor`,
  `check_owner`, `whitelist` and `withdraw` are not part of this model. Each
  one's outcome is a `Gate` value (`Pass` or `Deny(error)`) supplied with the
  request. Every handler is specified for every combination of outcomes, and
  the order in which the gate consults them is stated exactly.
- **Platform facts.** Three things come in as a `Platform` value: the
  program id, the token program id, and address derivation
  (`create_program_address` over the vault signer seeds). So do the decoding
  of token accounts (`tokenData`) and of the fund record.
- **Record decoding.** The record the `fund` helper returns is assumed to be
  the record the handler then rewrites.

Behaviour worth noting, kept as written:

- The `(true || false)` condition in Deposit and PaybackWithdraw is an
  equality test against `Raise { private: true }`; it does not match every
  raise. Receipt-NFT gating, receipt minting and payback withdrawal
  therefore apply to private raises only. PaybackWithdraw rejects public
  raises with `InvalidFund`. `Fund::add` still credits shares for both kinds
  of raise.
- The receipt `mint_to` call in Deposit passes the NFT token account as
  the mint and the NFT mint as the destination account
  (`DepositHandler.ReceiptMintSwapsAccounts`).
- `Whitelist::index_of` returns a byte offset (`slot * 32`). `push` and
  `delete` pass that offset to `add_at`, which multiplies by 32 again. Only
  slot 0 behaves as intended. A first free or matching slot 1 writes slot 32.
  Any later slot indexes past the 1600 bytes and panics. A third push into an
  empty store overwrites the second key
  (`WhitelistProperties.ThirdPushOverwritesSecond`).
- `push` into a full store succeeds, reports no slot and changes nothing;
  it raises no capacity error.
- Initialize never sets `initialized` and does not check whether the record
  is already initialized. It also ignores the result of `unpack_mut`. Once
  its checks pass it succeeds, whether or not the record was stored. It
  records no NFT or whitelist keys.
- Close has no open/closed precondition: closing a closed fund succeeds.
- RegisterPayback throws away the result of the `withdraw` helper. It adds
  `shares / amount` to the per-share rate, rounding down, and that division
  panics when `amount` is 0. With 100 shares, a payback of 1000 adds 0 to the
  rate (`RegisterPaybackHandler.RoundsDownToZero`).
- The record has no field for a payback vault; PaybackWithdraw takes the
  payback vault from its accounts.

## Model

| member | source | states |
|---|---|---|
| Errors.DiscriminantRoundTrip | src/error.rs:15-34 | each declared code has a fixed discriminant below 18 that decodes back to that code |
| Errors.Discriminant | src/error.rs:15-34 | every declared code has a discriminant below 18; exactly the seven codes the error module does not declare have none |
| Errors.CodeOf | src/error.rs:15-34 | exactly the numbers 0..17 name an error code |
| Errors.CodeOfRoundTrip | src/error.rs:15-34 | every number 0..17 is the discriminant of the code it decodes to, so the numbering is a bijection onto 0..17 |
| Errors.ToProgramError | src/error.rs:43-50 | a wrapped platform error converts to itself; a declared code converts to `Custom(n)` with `n` decoding back to that code |
| Errors.ToProgramErrorInjective | src/error.rs:15-34 | distinct codes convert to distinct platform errors |
| Errors.Report | program/src/lib.rs:56 | a handler's panic aborts the instruction with the same reason; a handler's error is reported after conversion to the platform error |
| FundAccount.DefaultFundType | fund/src/accounts/fund.rs:14-18 | the default fund type is `FundMe` |
| FundAccount.DefaultFund | fund/src/accounts/fund.rs:21-61 | the default record is uninitialized, closed, `FundMe`, with all numbers zero and all keys zero |
| FundAccount.Deduct | fund/src/accounts/fund.rs:64-68 | on a positive balance, subtracts exactly `amount` and panics if `amount` exceeds it; a zero balance is left unchanged; only the balance ever changes |
| FundAccount.Add | fund/src/accounts/fund.rs:69-77 | adds `amount` to the balance; adds it to the shares iff the fund is a raise of either kind; changes no other field; panics exactly on u64 overflow |
| FundAccount.CloseFund | fund/src/accounts/fund.rs:78-83 | the result is closed and differs from the input in no other field |
| FundAccount.AddPaybackBal | fund/src/accounts/fund.rs:84-86 | adds `amount` to the payback total and changes nothing else |
| FundAccount.AddPaybackPerShare | fund/src/accounts/fund.rs:87-89 | adds `amount` to the per-share rate and changes nothing else |
| FundAccount.SameExceptNothing | fund/src/accounts/fund.rs:21-61 | records agreeing on every named field are equal, so each field-wise frame covers the whole record |
| FundAccount.CloseFundIdempotent | fund/src/accounts/fund.rs:79-83 | closing twice is the same as closing once |
| FundAccount.SharesNeverDecrease | fund/src/accounts/fund.rs:46-89 | no mutator lowers the shares; only `add` can raise them |
| FundAccount.AddThenDeduct | fund/src/accounts/fund.rs:64-77 | deducting the amount just added succeeds and restores the balance, keeping the new shares |
| FundAccount.AddKeepsShareGap | fund/src/accounts/fund.rs:70-76 | for a raise, `add` keeps `shares - balance` constant |
| Whitelist.Slots | src/accounts/whitelist.rs:23-28 | slot `i` of an account's data is bytes `32*i .. 32*i+32` |
| Whitelist.BytesOfSlots | src/accounts/whitelist.rs:23-28 | cutting data into slots and laying them out again gives back the data |
| Whitelist.SlotsOfBytes | src/accounts/whitelist.rs:23-28 | laying slots out and cutting the data again gives back the slots |
| Whitelist.New | src/accounts/whitelist.rs:30-35 | succeeds iff the data is exactly 1600 bytes, otherwise `WhitelistInvalidData`; the store is a lossless view of the data |
| Whitelist.GetAt | src/accounts/whitelist.rs:37-42 | returns bytes `32*index .. 32*index+32` of the data, and panics iff that range runs past 1600 bytes |
| Whitelist.AddAt | src/accounts/whitelist.rs:44-51 | panics iff `index >= 50`; otherwise a read at `index` returns the new key and every other slot reads as before |
| Whitelist.Scan | src/accounts/whitelist.rs:81-90 | the scan from a slot finds the first later slot holding the key and reports its byte offset, or reports none iff no later slot holds it |
| Whitelist.IndexOf | src/accounts/whitelist.rs:81-90 | reports `None` iff the key is absent, else the byte offset `slot*32` of its first occurrence |
| Whitelist.IndexOfFirst | src/accounts/whitelist.rs:81-90 | the reported offset is exactly 32 times the first slot holding the key |
| Whitelist.Push | src/accounts/whitelist.rs:53-68 | a present key gives `PubKeyAlreadyExists`; with no empty slot the store is unchanged and `None` is returned; first empty slot 0 gets the key and `Some(0)`; first empty slot 1 writes slot 32 and returns `Some(32)`; any later first empty slot panics |
| Whitelist.Delete | src/accounts/whitelist.rs:70-79 | an absent key leaves the store unchanged and returns `None`; a first match in slot 0 empties slot 0; in slot 1 it empties slot 32; any later match panics |
| WhitelistProperties.PushIntendedOnlyAtSlotZero | src/accounts/whitelist.rs:53-90 | `push` writes the first empty slot and reports its offset iff that slot is slot 0 |
| WhitelistProperties.AddDeleteReadd | src/accounts/whitelist.rs:53-79 | with slot 0 free, adding a key, adding it again (rejected), and deleting it restores the store, after which adding succeeds again |
| WhitelistProperties.ThirdPushOverwritesSecond | src/accounts/whitelist.rs:53-90 | pushing three distinct keys into an empty store leaves the first in slot 0 and the third in slot 32, and loses the second |
| WhitelistProperties.PushNeverFillsSlotOne | src/accounts/whitelist.rs:61-67 | while slot 1 is the first empty slot, every accepted push leaves it empty |
| AccessControl.Token | program/src/access_control.rs:8-19 | a foreign-owned account gives `InvalidAccountOwner`; an undecodable one gives the decoding error; a non-initialized one gives `NotInitialized`; otherwise the decoded account is returned unchanged |
| AccessControl.TokenIgnoresForeignData | program/src/access_control.rs:9-13 | the owner check comes first, so the data of a foreign-owned account cannot affect the result |
| InitializeHandler.Gate | program/src/initialize.rs:74-105 | succeeds iff the vault is a live token account owned by the address derived from the fund key with nonce 0; otherwise, in order, the token error, `NotInitialized`, `InvalidVaultNonce` or `InvalidVault` |
| InitializeHandler.Transition | program/src/initialize.rs:107-134 | the record is open with zero balance and nonce 0 and carries the given owner, authority, vault, mint, maximum and type; no other field changes |
| InitializeHandler.Handler | program/src/initialize.rs:18-72 | gate errors come first, then the record-decoding error, then `NotOwnedByProgram`; success does not depend on whether the record was stored; it emits no calls and changes only the assigned fields |
| InitializeHandler.HandlerKeepsUnassignedFields | program/src/initialize.rs:107-134 | `initialized`, the shares, the NFT and whitelist keys and the payback fields survive Initialize |
| InitializeHandler.OutcomeIgnoresRecordAndStore | program/src/initialize.rs:48-71 | success depends neither on the current record (no already-initialized check) nor on whether the write-back happened |
| InitializeHandler.ReinitializeResetsBalanceKeepsShares | program/src/initialize.rs:18-72 | re-initializing a live raise zeroes its balance but keeps its shares |
| DepositHandler.Gate | program/src/deposit.rs:74-132 | succeeds iff the authority signed and the `fund`, `vault_join`, `check_balance` and `fund_open` checks pass, plus, for a private raise only, both NFT accounts, `check_nft`, the whitelist account and `check_depositor`; the first failure in that order decides the error (a denying helper's own error, down to `check_depositor`), and a missing optional account panics |
| DepositHandler.Transition | program/src/deposit.rs:133-196 | succeeds iff, for a private raise, both NFT accounts are present and `add` fits; a missing NFT account panics first, then an overflowing `add` panics; the record changes exactly as `add`; a private raise emits the receipt mint (token account and mint swapped as in `deposit.rs`) before the transfer; the last call is always the `amount` transfer from depositor to vault |
| DepositHandler.ReceiptMint | program/src/deposit.rs:149-165 | the receipt mint of `amount`, authorised by the vault authority and signed with the fund's seeds, with the NFT token account in the mint position and the NFT mint in the account position |
| DepositHandler.ReceiptMintSwapsAccounts | program/src/deposit.rs:153-160 | for distinct NFT mint and token account, the receipt mint neither mints from the NFT mint nor credits the token account |
| DepositHandler.DepositTransfer | program/src/deposit.rs:172-192 | the transfer of `amount` from the depositor's account into the vault, authorised by the depositor's authority, with no program signature |
| DepositHandler.Handler | program/src/deposit.rs:18-72 | an unsigned authority gives `Unauthorized`; a gate failure is returned as is; success iff the gate passes and `add` does not overflow; the new record is `add(amount)`; the calls are mint then transfer for a private raise, the transfer alone otherwise |
| DepositHandler.HandlerCredits | program/src/deposit.rs:168 | a successful deposit adds `amount` to the balance, and to the shares of either kind of raise, and changes nothing else |
| DepositHandler.PublicDepositsIgnoreNftAndWhitelist | program/src/deposit.rs:103-126 | for a FundMe fund or a public raise, the NFT and whitelist accounts and their checks do not affect the outcome |
| CloseHandler.Handler | program/src/close.rs:13-62 | an unsigned owner gives `Unauthorized`; a failing `check_owner` gives its error; otherwise the fund is closed, nothing else changes and no call is made |
| CloseHandler.CloseTwice | program/src/close.rs:54-62 | closing an already closed fund succeeds again and changes nothing |
| RegisterPaybackHandler.Gate | program/src/register_payback.rs:49-65 | succeeds iff the owner signed and the `fund` helper passes; the `withdraw` helper plays no part |
| RegisterPaybackHandler.Transition | program/src/register_payback.rs:67-83 | adds `amount` to the payback total and `floor(shares / amount)` to the per-share rate; an overflowing total panics first, then a zero amount panics, then an overflowing rate panics; nothing else changes |
| RegisterPaybackHandler.Handler | program/src/register_payback.rs:15-47 | gate errors are returned as is; after the gate the transition's failure is returned as is and its success is the new record; no call is made |
| RegisterPaybackHandler.WithdrawCheckIgnored | program/src/register_payback.rs:62 | the outcome of the `withdraw` helper never changes the result |
| RegisterPaybackHandler.RoundsDownToZero | program/src/register_payback.rs:77-79 | with 100 shares, a payback of 1000 adds 1000 to the total and 0 to the per-share rate |
| PaybackWithdrawHandler.Gate | program/src/payback_withdraw.rs:64-105 | checks, in order and each with its own error: signer, `fund`, private raise (`InvalidFund`), NFT token account, its mint (`InvalidTokenAccountMint`), the destination's token data decoding (its decode error as is), destination balance below the claim (`InvalidPayBackWithdrawlAddress`), claim at most the shares (`WithdrawlSizeOverflow`) |
| PaybackWithdrawHandler.Payout | program/src/payback_withdraw.rs:120-147 | the payout moves `amount` from the payback vault to the withdrawer's account, authorised by the payback vault authority and signed with the fund's seeds |
| PaybackWithdrawHandler.Handler | program/src/payback_withdraw.rs:20-152 | succeeds iff every gate condition holds; on success the record is unchanged and exactly one transfer of `amount` leaves the payback vault, signed with the fund's seeds |
| PaybackWithdrawHandler.OnlyPrivateRaisesPayOut | program/src/payback_withdraw.rs:80-84 | a signed request on a public raise or FundMe fund always gets `InvalidFund` |
| WhitelistDeleteHandler.Gate | program/src/whitelist_delete.rs:37-53 | `check_owner`, `fund` and `whitelist` run in that order, and the first failure is returned |
| WhitelistDeleteHandler.Handler | program/src/whitelist_delete.rs:12-63 | after the gate: wrong data size gives `WhitelistInvalidData`; an absent entry gives `WhitelistNotFound`; a first match in slot 0 empties slot 0, in slot 1 empties slot 32, later panics; the data keeps its size |
| InstructionCodec.Unpack | program/src/instruction.rs:59-67 | succeeds iff there are at least 9 bytes; the payload is the little-endian u64 in bytes 1..9 |
| InstructionCodec.Deserialize | program/src/instruction.rs:32-43 | succeeds iff the input has at least 9 bytes and tag 0; otherwise `InvalidAccountData` |
| InstructionCodec.Serialize | program/src/instruction.rs:45-56 | 16 bytes: tag 0, the little-endian `max` in bytes 1..9, zeros after |
| InstructionCodec.FromToLittleEndian | program/src/instruction.rs:50-52 | reading back the little-endian bytes of a number that fits gives the number |
| InstructionCodec.ToFromLittleEndian | program/src/instruction.rs:36-39 | writing back the number read from some bytes gives the bytes |
| InstructionCodec.RoundTrip | program/src/instruction.rs:32-56 | decoding an encoded instruction gives it back |
| InstructionCodec.TrailingBytesIgnored | program/src/instruction.rs:36-39 | bytes past offset 9 do not affect decoding |
| InstructionCodec.ReencodeKeepsPrefix | program/src/instruction.rs:32-56 | re-encoding a decoded instruction reproduces its first 9 bytes |
| Processor.Route | program/src/lib.rs:31-54 | Withdraw and WhitelistAdd yield their supplied outcome; Initialize, Deposit, Close and WhitelistDelete reach their handler with their payload; a handler failure passes through; a success writes only that handler's account (record or whitelist data) and carries its calls |
| Processor.Process | program/src/lib.rs:21-61 | undecodable data gives custom error 1; otherwise the routed handler's error is converted and returned, and its success is returned as is |
| Processor.UndecodableIsWrongSerialization | program/src/lib.rs:28-29 | undecodable data is reported as the custom error that decodes to `WrongSerialization` |
| Processor.RoutesTouchOwnAccount | program/src/lib.rs:31-54 | Initialize, Deposit and Close leave the whitelist data alone; WhitelistDelete leaves the record alone; Initialize, Close and WhitelistDelete make no calls |
| Processor.NoRouteWritesPayback | program/src/lib.rs:12-54 | no modelled route changes the payback fields, since RegisterPayback has no route |
| Processor.NoRouteDecreasesShares | program/src/lib.rs:31-54 | no modelled route lowers the shares |
| LedgerProperties.DepositsCreditTotal | fund/src/accounts/fund.rs:69-77 | a successful run of deposits adds the sum of the amounts to the balance, and to the shares of a raise; a FundMe fund's shares and every fund's type and maximum stay put |
| LedgerProperties.RaiseSharesTrackBalance | program/src/deposit.rs:168 | in a raise whose shares equal its balance, successful deposits keep them equal |
| LedgerProperties.FreshRaiseSharesEqualDeposits | program/src/initialize.rs:107-134 | a zeroed record initialized as a raise and then deposited into has shares equal to balance equal to the deposits' sum |
| LedgerProperties.DepositsStayWithinCapacity | program/src/deposit.rs:100 | if each `check_balance` admits only deposits that fit, a successful run never exceeds the maximum |

## Left out

- Account-list plumbing: `next_account_info` failing on a short account
  list, and `RefCell` borrow failures of account data.
- Cross-program invocation. `invoke_signed` and the token program's
  `mint_to`/`transfer` are emitted `Effect`s. Their own failure would roll
  back the whole instruction, which the model does not represent
  separately. Building the token instruction (`instruction::mint_to`,
  `instruction::transfer`) cannot fail for the token program's own id, so
  that is not modelled either.
- `Pubkey::create_program_address` hashing is the abstract `derive`. The
  record's Borsh encoding and the token program's account decoding are
  abstract inputs too. The Initialize handler's decode outcome is
  `recordDecode` and its write-back outcome is `stored`. For the other
  handlers the record is taken as decoded and written back successfully.
- `info!` logging.
- The bodies of the `access_control` helpers `fund`, `vault_join`,
  `check_balance`, `fund_open`, `check_nft`, `check_depositor`,
  `check_owner`, `whitelist` and `withdraw` are not part of this model. Each
  one is an abstract `Gate`. So properties that depend on what a helper
  checks are stated under an explicit hypothesis
  (`DepositsStayWithinCapacity`) or not at all. Examples are "a closed fund
  rejects deposits" and "only listed depositors may deposit".
- Processor.Process: the instruction decoder of the record crate is not part
  of this model, so it is a parameter. The Withdraw handler does not compile
  (and performs no checks), and the WhitelistAdd handler is not part of this
  model. Both routes return an outcome supplied with the request.
- Errors.ToProgramError: seven codes have no discriminant in
  `src/error.rs`. Five of them are returned by handlers: `WhitelistNotFound`,
  `InvalidFund`, `InvalidTokenAccountMint`, `InvalidPayBackWithdrawlAddress`
  and `WithdrawlSizeOverflow`. The other two, `NFTMintMissing` and
  `NFTTokenAccountMissing`, appear only inside an `ok_or(..).unwrap()`. That
  unwrap panics, so the model reports `Panic(UnwrapNone)` and never returns
  either code. All seven convert to `UnlistedCustom(code)`, whose number is
  not modelled.
- u64 overflow is modelled as a panic. A build without overflow checks
  would wrap instead.
- The Anchor scaffolding, the superseded record and instruction drafts, the
  client and the command-line tool are outside the ledger core. The old
  RegisterPayback duplicate is left out for the same reason.
