/** Calls into the token program that a successful handler makes. */
module Effects {
  import opened Results
  import opened Words
  import opened FundAccount

  /** The vault signer seeds the program signs with: the fund's address and nonce. */
  datatype Seeds = Seeds(fund: Pubkey, nonce: uint8)

  /** One cross-program call, with the signer seeds it is invoked with (`None`: no program signature). */
  datatype Effect =
    | MintTo(mint: Pubkey, account: Pubkey, authority: Pubkey, amount: uint64, seeds: Seeds)
    | Transfer(source: Pubkey, destination: Pubkey, authority: Pubkey, amount: uint64, signer: Option<Seeds>)

  /** A successful handler's result: the record as stored afterwards and the calls made, in order. */
  datatype Step = Step(fund: Fund, effects: seq<Effect>)
}
