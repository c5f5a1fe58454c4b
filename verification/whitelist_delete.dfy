/**
 * The WhitelistDelete handler. The gate runs `check_owner`, `fund` and
 * `whitelist` in that order; then the account must have the store's size;
 * then the entry is deleted, an absent entry being `WhitelistNotFound`. The
 * fund record is not written; only the whitelist account's data changes.
 */
module WhitelistDeleteHandler {
  import opened Results
  import opened Words
  import opened Errors
  import opened AccessControl
  import W = Whitelist

  /** Outcomes of the `check_owner`, `fund` and `whitelist` helpers. */
  datatype Checks = Checks(owner: Gate, fund: Gate, whitelist: Gate)

  function Gate(c: Checks): (r: Result<(), Failure>)
    ensures r.Ok? <==> c.owner.Pass? && c.fund.Pass? && c.whitelist.Pass?
    ensures c.owner.Deny? ==> r == Err(Fail(c.owner.error))
    ensures c.owner.Pass? && c.fund.Deny? ==> r == Err(Fail(c.fund.error))
    ensures c.owner.Pass? && c.fund.Pass? && c.whitelist.Deny? ==> r == Err(Fail(c.whitelist.error))
  {
    if c.owner.Deny? then Err(Fail(c.owner.error))
    else if c.fund.Deny? then Err(Fail(c.fund.error))
    else if c.whitelist.Deny? then Err(Fail(c.whitelist.error))
    else Ok(())
  }

  /** The whole handler, from the whitelist account's data to its new data. */
  function Handler(data: seq<uint8>, entry: Pubkey, c: Checks): (r: Result<seq<uint8>, Failure>)
    ensures Gate(c).Err? ==> r == Err(Gate(c).error)
    ensures Gate(c).Ok? && |data| != W.SIZE ==> r == Err(Reject(WhitelistInvalidData))
    ensures r.Ok? ==> |data| == W.SIZE && |r.value| == W.SIZE
    ensures (Gate(c).Ok? && |data| == W.SIZE && entry !in W.Slots(data)) ==> r == Err(Reject(WhitelistNotFound))
    ensures (Gate(c).Ok? && |data| == W.SIZE && W.FirstAt(W.Slots(data), entry, 0)) ==>
      r.Ok? && W.Slots(r.value) == W.Slots(data)[0 := ZERO_KEY]
    ensures (Gate(c).Ok? && |data| == W.SIZE && W.FirstAt(W.Slots(data), entry, 1)) ==>
      r.Ok? && W.Slots(r.value) == W.Slots(data)[32 := ZERO_KEY]
    ensures forall s :: (2 <= s < W.LEN && Gate(c).Ok? && |data| == W.SIZE && W.FirstAt(W.Slots(data), entry, s)) ==>
      r == Err(Panic(IndexOutOfRange))
  {
    var _ :- Gate(c);
    var store :- W.New(data);
    var written :- W.Delete(store, entry);
    if written.index.None? then Err(Reject(WhitelistNotFound))
    else
      W.SlotsOfBytes(written.store);
      Ok(W.Bytes(written.store))
  }
}
