/**
 * The instruction codec of the program crate: a tag byte followed by the
 * raw little-endian bytes of the payload. Its only instruction is
 * `Initialize(InitArgs)`, tag 0, whose payload is the u64 `max`.
 */
module InstructionCodec {
  import opened Results
  import opened Words
  import opened Errors

  datatype InitArgs = InitArgs(max: uint64)

  datatype FundInstruction = Initialize(args: InitArgs)

  /** `size_of::<InitArgs>()`. */
  const INIT_ARGS_SIZE: nat := 8
  /**
   * `size_of::<FundInstruction>()`: a `repr(C)` enum is a 4-byte tag
   * followed by its payload union, aligned to 8, so 16 bytes.
   */
  const INSTRUCTION_SIZE: nat := 16

  function Pow256(n: nat): (r: nat)
    ensures r > 0
  {
    if n == 0 then 1 else 256 * Pow256(n - 1)
  }

  /** The `n` low bytes of `x`, least significant first. */
  function LittleEndian(x: nat, n: nat): (b: seq<uint8>)
    ensures |b| == n
  {
    if n == 0 then [] else [x % 256] + LittleEndian(x / 256, n - 1)
  }

  /** The number whose little-endian bytes are `b`. */
  function FromLittleEndian(b: seq<uint8>): (x: nat)
    ensures x < Pow256(|b|)
  {
    if |b| == 0 then 0 else b[0] + 256 * FromLittleEndian(b[1..])
  }

  lemma {:induction false} FromToLittleEndian(x: nat, n: nat)
    requires x < Pow256(n)
    ensures FromLittleEndian(LittleEndian(x, n)) == x
  {
    if n > 0 {
      FromToLittleEndian(x / 256, n - 1);
      assert LittleEndian(x, n)[1..] == LittleEndian(x / 256, n - 1);
    }
  }

  lemma {:induction false} ToFromLittleEndian(b: seq<uint8>)
    ensures LittleEndian(FromLittleEndian(b), |b|) == b
  {
    if |b| > 0 {
      ToFromLittleEndian(b[1..]);
      var x := FromLittleEndian(b);
      assert x % 256 == b[0];
      assert x / 256 == FromLittleEndian(b[1..]);
      assert b == [b[0]] + b[1..];
    }
  }

  /** `unpack::<InitArgs>`: needs the tag byte and 8 payload bytes, which start right after the tag. */
  function Unpack(input: seq<uint8>): (r: Result<InitArgs, ProgramError>)
    ensures r.Ok? <==> |input| >= 1 + INIT_ARGS_SIZE
    ensures r.Err? ==> r.error == InvalidAccountData
    ensures r.Ok? ==> LittleEndian(r.value.max, INIT_ARGS_SIZE) == input[1..1 + INIT_ARGS_SIZE]
  {
    if |input| < 1 + INIT_ARGS_SIZE then Err(InvalidAccountData)
    else
      var payload := input[1..1 + INIT_ARGS_SIZE];
      assert Pow256(8) == U64_LIMIT;
      ToFromLittleEndian(payload);
      Ok(InitArgs(FromLittleEndian(payload)))
  }

  /** `deserialize`: an empty input or an unknown tag is invalid data. */
  function Deserialize(input: seq<uint8>): (r: Result<FundInstruction, ProgramError>)
    ensures r.Ok? <==> |input| >= 1 + INIT_ARGS_SIZE && input[0] == 0
    ensures r.Err? ==> r.error == InvalidAccountData
    ensures r.Ok? ==> LittleEndian(r.value.args.max, INIT_ARGS_SIZE) == input[1..1 + INIT_ARGS_SIZE]
  {
    if |input| < 1 then Err(InvalidAccountData)
    else if input[0] == 0 then
      var args :- Unpack(input);
      Ok(Initialize(args))
    else Err(InvalidAccountData)
  }

  /** `serialize`: a zeroed buffer of the enum's size, tag 0 at byte 0, the payload at bytes 1..9. */
  function Serialize(i: FundInstruction): (r: seq<uint8>)
    ensures |r| == INSTRUCTION_SIZE
    ensures r[0] == 0
    ensures FromLittleEndian(r[1..1 + INIT_ARGS_SIZE]) == i.args.max
    ensures forall j :: 1 + INIT_ARGS_SIZE <= j < INSTRUCTION_SIZE ==> r[j] == 0
  {
    assert Pow256(8) == U64_LIMIT;
    FromToLittleEndian(i.args.max, INIT_ARGS_SIZE);
    var r := [0] + LittleEndian(i.args.max, INIT_ARGS_SIZE) + [0, 0, 0, 0, 0, 0, 0];
    assert r[1..1 + INIT_ARGS_SIZE] == LittleEndian(i.args.max, INIT_ARGS_SIZE);
    r
  }

  /** Decoding an encoded instruction gives it back. */
  lemma RoundTrip(i: FundInstruction)
    ensures Deserialize(Serialize(i)) == Ok(i)
  {
    var bytes := Serialize(i);
    var d := Deserialize(bytes);
    FromToLittleEndian(d.value.args.max, INIT_ARGS_SIZE);
  }

  /** Bytes after the payload play no part in decoding. */
  lemma TrailingBytesIgnored(input: seq<uint8>, extra: seq<uint8>)
    requires |input| >= 1 + INIT_ARGS_SIZE
    ensures Deserialize(input + extra) == Deserialize(input)
  {
    assert (input + extra)[1..1 + INIT_ARGS_SIZE] == input[1..1 + INIT_ARGS_SIZE];
    if Deserialize(input).Ok? {
      FromToLittleEndian(Deserialize(input).value.args.max, INIT_ARGS_SIZE);
      FromToLittleEndian(Deserialize(input + extra).value.args.max, INIT_ARGS_SIZE);
    }
  }

  /** Re-encoding a decoded instruction reproduces the tag and payload bytes it was decoded from. */
  lemma ReencodeKeepsPrefix(input: seq<uint8>)
    requires Deserialize(input).Ok?
    ensures Serialize(Deserialize(input).value)[..1 + INIT_ARGS_SIZE] == input[..1 + INIT_ARGS_SIZE]
  {
    var i := Deserialize(input).value;
    var out := Serialize(i);
    ToFromLittleEndian(out[1..1 + INIT_ARGS_SIZE]);
    assert out[..1 + INIT_ARGS_SIZE] == [out[0]] + out[1..1 + INIT_ARGS_SIZE];
    assert input[..1 + INIT_ARGS_SIZE] == [input[0]] + input[1..1 + INIT_ARGS_SIZE];
  }
}
