/** Machine integers and 32-byte public keys as the ledger platform stores them. */
module Words {

  const U8_LIMIT: int := 0x100
  const U32_LIMIT: int := 0x1_0000_0000
  const U64_LIMIT: int := 0x1_0000_0000_0000_0000

  type uint8 = x: int | 0 <= x < 0x100
  type uint32 = x: int | 0 <= x < 0x1_0000_0000
  type uint64 = x: int | 0 <= x < 0x1_0000_0000_0000_0000

  /** Byte width of a public key. */
  const KEY_LEN: nat := 32

  /** A public key (an account address): exactly 32 bytes. */
  type Pubkey = k: seq<uint8> | |k| == 32
    witness [0, 0, 0, 0, 0, 0, 0, 0, 0, 0, 0, 0, 0, 0, 0, 0, 0, 0, 0, 0, 0, 0, 0, 0, 0, 0, 0, 0, 0, 0, 0, 0]

  /** The all-zero key, used by the whitelist store as the empty-slot sentinel. */
  const ZERO_KEY: Pubkey :=
    [0, 0, 0, 0, 0, 0, 0, 0, 0, 0, 0, 0, 0, 0, 0, 0, 0, 0, 0, 0, 0, 0, 0, 0, 0, 0, 0, 0, 0, 0, 0, 0]
}
