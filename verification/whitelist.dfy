/**
 * The whitelist store: a fixed array of 50 key slots kept in the raw data of
 * one account (1600 bytes, 32 per slot). An all-zero key marks an empty slot.
 *
 * `index_of` reports a match as the BYTE offset of its slot (slot * 32), and
 * `push`/`delete` hand that offset to `add_at`, which treats it as a slot
 * index and multiplies by 32 again. The model keeps this as written: a match
 * in slot 0 behaves as intended, a match in slot 1 writes slot 32, and a
 * match in any later slot indexes past the end of the data and panics.
 */
module Whitelist {
  import opened Results
  import opened Words
  import opened Errors

  /** Byte size of one slot. */
  const ITEM_SIZE: nat := 32
  /** Number of slots. */
  const LEN: nat := 50
  /** Byte size of the whole store. */
  const SIZE: nat := 32 * 50

  /** Fifty empty slots. */
  function EmptySlots(): (s: seq<Pubkey>)
    ensures |s| == LEN
    ensures forall i :: 0 <= i < LEN ==> s[i] == ZERO_KEY
  {
    seq(50, _ => ZERO_KEY)
  }

  /** The decoded store: exactly fifty slots. */
  type Store = s: seq<Pubkey> | |s| == 50 witness EmptySlots()

  // ---------------------------------------------------------------------
  // Account bytes and slots
  // ---------------------------------------------------------------------

  /** Cuts raw data into consecutive 32-byte slots. */
  function Slots(data: seq<uint8>): (s: seq<Pubkey>)
    requires |data| % ITEM_SIZE == 0
    ensures |s| * ITEM_SIZE == |data|
    ensures forall i :: 0 <= i < |s| ==> s[i] == data[i * ITEM_SIZE .. i * ITEM_SIZE + ITEM_SIZE]
    decreases |data|
  {
    if |data| == 0 then []
    else
      var rest := Slots(data[ITEM_SIZE..]);
      assert forall i :: 0 < i < |rest| + 1 ==>
        rest[i - 1] == data[i * ITEM_SIZE .. i * ITEM_SIZE + ITEM_SIZE];
      [data[..ITEM_SIZE]] + rest
  }

  /** Lays slots out back to back as raw data. */
  function Bytes(s: seq<Pubkey>): (data: seq<uint8>)
    ensures |data| == |s| * ITEM_SIZE
  {
    if |s| == 0 then [] else s[0] + Bytes(s[1..])
  }

  /** Laying out the slots of some data gives back the data. */
  lemma {:induction false} BytesOfSlots(data: seq<uint8>)
    requires |data| % ITEM_SIZE == 0
    ensures Bytes(Slots(data)) == data
    decreases |data|
  {
    if |data| != 0 {
      BytesOfSlots(data[ITEM_SIZE..]);
      assert Slots(data) == [data[..ITEM_SIZE]] + Slots(data[ITEM_SIZE..]);
      assert Slots(data)[1..] == Slots(data[ITEM_SIZE..]);
      assert data == data[..ITEM_SIZE] + data[ITEM_SIZE..];
    }
  }

  /** Cutting the layout of some slots gives back the slots. */
  lemma {:induction false} SlotsOfBytes(s: seq<Pubkey>)
    ensures Slots(Bytes(s)) == s
  {
    if |s| != 0 {
      SlotsOfBytes(s[1..]);
      var data := Bytes(s);
      assert data == s[0] + Bytes(s[1..]);
      assert data[..ITEM_SIZE] == s[0];
      assert data[ITEM_SIZE..] == Bytes(s[1..]);
      assert s == [s[0]] + s[1..];
    }
  }

  /** Slot `i` of a store occupies bytes `32*i .. 32*i+32` of its layout. */
  lemma SlotInBytes(s: seq<Pubkey>, i: nat)
    requires i < |s|
    ensures Bytes(s)[i * ITEM_SIZE .. i * ITEM_SIZE + ITEM_SIZE] == s[i]
  {
    SlotsOfBytes(s);
  }

  // ---------------------------------------------------------------------
  // The store's API
  // ---------------------------------------------------------------------

  /** `new`: the account is a store only if its data is exactly 1600 bytes long. */
  function New(data: seq<uint8>): (r: Result<Store, Failure>)
    ensures r.Ok? <==> |data| == SIZE
    ensures r.Err? ==> r.error == Reject(WhitelistInvalidData)
    ensures r.Ok? ==> Bytes(r.value) == data
  {
    if |data| != SIZE then Err(Reject(WhitelistInvalidData))
    else
      BytesOfSlots(data);
      Ok(Slots(data))
  }

  /** `get_at`: reads the 32 bytes at `index * 32`; reading past the data panics. */
  function GetAt(w: Store, index: nat): (r: Result<Pubkey, Failure>)
    ensures r.Ok? <==> index * ITEM_SIZE + ITEM_SIZE <= SIZE
    ensures r.Err? ==> r.error == Panic(IndexOutOfRange)
    ensures r.Ok? ==> r.value == Bytes(w)[index * ITEM_SIZE .. index * ITEM_SIZE + ITEM_SIZE]
  {
    if index < LEN then
      SlotInBytes(w, index);
      Ok(w[index])
    else Err(Panic(IndexOutOfRange))
  }

  /** `add_at`: overwrites the 32 bytes at `index * 32`; writing past the data panics. */
  function AddAt(w: Store, index: nat, item: Pubkey): (r: Result<Store, Failure>)
    ensures r.Ok? <==> index < LEN
    ensures r.Err? ==> r.error == Panic(IndexOutOfRange)
    ensures r.Ok? ==> GetAt(r.value, index) == Ok(item)
    ensures r.Ok? ==> forall j :: 0 <= j < LEN && j != index ==> GetAt(r.value, j) == GetAt(w, j)
  {
    if index < LEN then Ok(w[index := item]) else Err(Panic(IndexOutOfRange))
  }

  /** `e` sits in slot `s` and in no earlier slot. */
  predicate FirstAt(w: Store, e: Pubkey, s: nat) {
    s < LEN && w[s] == e && forall j :: 0 <= j < s ==> w[j] != e
  }

  /** The scan of `index_of` from slot `from` on; a match is reported as its byte offset. */
  function Scan(w: Store, e: Pubkey, from: nat): (r: Option<nat>)
    requires from <= LEN
    ensures r.Some? ==> r.value % ITEM_SIZE == 0 && from <= r.value / ITEM_SIZE < LEN
    ensures r.Some? ==> w[r.value / ITEM_SIZE] == e
    ensures r.Some? ==> forall j :: from <= j < r.value / ITEM_SIZE ==> w[j] != e
    ensures r.None? <==> forall j :: from <= j < LEN ==> w[j] != e
    decreases LEN - from
  {
    if from == LEN then None
    else if w[from] == e then Some(from * ITEM_SIZE)
    else Scan(w, e, from + 1)
  }

  /** `index_of`: the byte offset of the first slot holding `e`, if any. */
  function IndexOf(w: Store, e: Pubkey): (r: Option<nat>)
    ensures r.None? <==> e !in w
    ensures r.Some? ==> r.value % ITEM_SIZE == 0 && FirstAt(w, e, r.value / ITEM_SIZE)
  {
    var r := Scan(w, e, 0);
    assert r.None? <==> e !in w by {
      if e in w {
        var j :| 0 <= j < |w| && w[j] == e;
      }
    }
    r
  }

  /** IndexOf finds exactly the first occurrence. */
  lemma IndexOfFirst(w: Store, e: Pubkey, s: nat)
    requires FirstAt(w, e, s)
    ensures IndexOf(w, e) == Some(s * ITEM_SIZE)
  {
    assert e in w;
  }

  /** What `push` and `delete` return on success: the store and the reported offset. */
  datatype Written = Written(store: Store, index: Option<nat>)

  /** `push`: rejects a key already present, else writes it where the first empty slot's offset points. */
  function Push(w: Store, entry: Pubkey): (r: Result<Written, Failure>)
    ensures entry in w ==> r == Err(Reject(PubKeyAlreadyExists))
    ensures entry !in w && ZERO_KEY !in w ==> r == Ok(Written(w, None))
    ensures entry !in w && FirstAt(w, ZERO_KEY, 0) ==> r == Ok(Written(w[0 := entry], Some(0)))
    ensures entry !in w && FirstAt(w, ZERO_KEY, 1) ==> r == Ok(Written(w[32 := entry], Some(32)))
    ensures forall s :: 2 <= s < LEN && entry !in w && FirstAt(w, ZERO_KEY, s) ==>
      r == Err(Panic(IndexOutOfRange))
  {
    match IndexOf(w, entry)
    case Some(_) => Err(Reject(PubKeyAlreadyExists))
    case None =>
      match IndexOf(w, ZERO_KEY)
      case Some(idx) =>
        var w' :- AddAt(w, idx, entry);
        Ok(Written(w', Some(idx)))
      case None => Ok(Written(w, None))
  }

  /** `delete`: overwrites the slot the first match's offset points at with the empty key. */
  function Delete(w: Store, entry: Pubkey): (r: Result<Written, Failure>)
    ensures entry !in w ==> r == Ok(Written(w, None))
    ensures FirstAt(w, entry, 0) ==> r == Ok(Written(w[0 := ZERO_KEY], Some(0)))
    ensures FirstAt(w, entry, 1) ==> r == Ok(Written(w[32 := ZERO_KEY], Some(32)))
    ensures forall s :: 2 <= s < LEN && FirstAt(w, entry, s) ==> r == Err(Panic(IndexOutOfRange))
  {
    match IndexOf(w, entry)
    case Some(idx) =>
      var w' :- AddAt(w, idx, ZERO_KEY);
      Ok(Written(w', Some(idx)))
    case None => Ok(Written(w, None))
  }
}
