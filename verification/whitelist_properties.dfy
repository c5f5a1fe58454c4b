/**
 * Consequences of the whitelist store's offset handling: slot 0 behaves as
 * a set insert/remove should, slot 1 is never written by `push`, and slot
 * 32 is overwritten by every later `push`.
 */
module WhitelistProperties {
  import opened Results
  import opened Words
  import opened Errors
  import opened Whitelist

  /**
   * `push` writes the key into the first empty slot and reports that slot's
   * offset exactly when that slot is slot 0.
   */
  lemma PushIntendedOnlyAtSlotZero(w: Store, entry: Pubkey, s: nat)
    requires entry !in w && FirstAt(w, ZERO_KEY, s)
    ensures Push(w, entry) == Ok(Written(w[s := entry], Some(s * ITEM_SIZE))) <==> s == 0
  {
    if s == 1 {
      assert w[32 := entry][1] == ZERO_KEY != entry == w[1 := entry][1];
    }
  }

  /** From a store whose first slot is empty: add, add again (rejected), delete, add again (accepted). */
  lemma AddDeleteReadd(w: Store, entry: Pubkey)
    requires entry != ZERO_KEY && entry !in w && w[0] == ZERO_KEY
    ensures Push(w, entry) == Ok(Written(w[0 := entry], Some(0)))
    ensures Push(w[0 := entry], entry) == Err(Reject(PubKeyAlreadyExists))
    ensures Delete(w[0 := entry], entry) == Ok(Written(w, Some(0)))
  {
    assert FirstAt(w, ZERO_KEY, 0);
    assert w[0 := entry][0] == entry;
    assert FirstAt(w[0 := entry], entry, 0);
    assert w[0 := entry][0 := ZERO_KEY] == w;
  }

  /**
   * Three distinct keys pushed into an empty store: the first lands in slot
   * 0, the second and third both land in slot 32, so the second is lost
   * although its push reported success.
   */
  lemma ThirdPushOverwritesSecond(a: Pubkey, b: Pubkey, c: Pubkey)
    requires a != ZERO_KEY && b != ZERO_KEY && c != ZERO_KEY
    requires a != b && b != c && a != c
    ensures var e := EmptySlots();
      && Push(e, a) == Ok(Written(e[0 := a], Some(0)))
      && Push(e[0 := a], b) == Ok(Written(e[0 := a][32 := b], Some(32)))
      && Push(e[0 := a][32 := b], c) == Ok(Written(e[0 := a][32 := c], Some(32)))
      && b !in e[0 := a][32 := c]
  {
    var e := EmptySlots();
    assert a !in e;
    assert FirstAt(e, ZERO_KEY, 0);
    var w1: Store := e[0 := a];
    assert b !in w1;
    assert FirstAt(w1, ZERO_KEY, 1);
    var w2: Store := w1[32 := b];
    assert c !in w2;
    assert FirstAt(w2, ZERO_KEY, 1);
    assert w2[32 := c] == w1[32 := c];
    var w3: Store := w1[32 := c];
    assert forall j :: 0 <= j < LEN ==> w3[j] == (if j == 0 then a else if j == 32 then c else ZERO_KEY);
  }

  /** Once slot 1 is the first empty slot, every accepted push keeps it empty. */
  lemma PushNeverFillsSlotOne(w: Store, entry: Pubkey)
    requires FirstAt(w, ZERO_KEY, 1)
    requires Push(w, entry).Ok?
    ensures Push(w, entry).value.store[1] == ZERO_KEY
    ensures FirstAt(Push(w, entry).value.store, ZERO_KEY, 1)
  {
  }
}
