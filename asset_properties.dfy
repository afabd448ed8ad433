/**
 * Properties of the plain asset-transfer chaincode that relate several
 * calls: uniqueness, read-back, overwrite semantics, unchecked transfers
 * and deletion.
 */
module AssetProperties {
  import opened WorldState
  import opened AssetLedger

  /** A second creation under an ID always fails, whatever the first did. */
  lemma CreateIsUnique(ws: Ledger, id: string,
                       c1: string, s1: int, o1: string, v1: int,
                       c2: string, s2: int, o2: string, v2: int)
    ensures var first := CreateAsset(ws, id, c1, s1, o1, v1);
      CreateAsset(first.state, id, c2, s2, o2, v2) == Reply(Err(AlreadyExists(id)), first.state)
  {
  }

  /** A created asset reads back exactly as supplied. */
  lemma ReadAfterCreate(ws: Ledger, id: string, color: string, size: int, owner: string, value: int)
    requires !AssetExists(ws, id)
    ensures ReadAsset(CreateAsset(ws, id, color, size, owner, value).state, id) ==
      Ok(Asset(id, color, size, owner, value))
  {
  }

  /**
   * An update keeps nothing of the record it overwrites: from any two
   * states holding the ID, it yields the same record.
   */
  lemma UpdateForgetsOld(ws1: Ledger, ws2: Ledger, id: string, color: string, size: int,
                         owner: string, value: int)
    requires AssetExists(ws1, id) && AssetExists(ws2, id)
    ensures ReadAsset(UpdateAsset(ws1, id, color, size, owner, value).state, id) ==
      ReadAsset(UpdateAsset(ws2, id, color, size, owner, value).state, id)
    ensures ReadAsset(UpdateAsset(ws1, id, color, size, owner, value).state, id) ==
      Ok(Asset(id, color, size, owner, value))
  {
  }

  /**
   * Transfers are unchecked: a second one always succeeds, answers the
   * first buyer, and the two together amount to a single transfer to the
   * second buyer.
   */
  lemma TransferTwice(ws: Ledger, id: string, buyer1: string, buyer2: string)
    requires AssetExists(ws, id)
    ensures var first := TransferAsset(ws, id, buyer1);
      && TransferAsset(first.state, id, buyer2).result == Ok(buyer1)
      && TransferAsset(first.state, id, buyer2).state == TransferAsset(ws, id, buyer2).state
  {
    var first := TransferAsset(ws, id, buyer1);
    var second := TransferAsset(first.state, id, buyer2);
    assert second.state[id] == TransferAsset(ws, id, buyer2).state[id];
  }

  /** Transferring an asset back to the owner a transfer answered restores the state. */
  lemma TransferBackRestores(ws: Ledger, id: string, buyer: string)
    requires AssetExists(ws, id)
    ensures var first := TransferAsset(ws, id, buyer);
      TransferAsset(first.state, id, first.result.value).state == ws
  {
    var first := TransferAsset(ws, id, buyer);
    var back := TransferAsset(first.state, id, first.result.value).state;
    assert back[id] == ws[id];
  }

  /** Deleting an asset just created restores the world state exactly. */
  lemma DeleteUndoesCreate(ws: Ledger, id: string, color: string, size: int, owner: string, value: int)
    requires !AssetExists(ws, id)
    ensures DeleteAsset(CreateAsset(ws, id, color, size, owner, value).state, id) == Reply(Ok(()), ws)
  {
    var created := CreateAsset(ws, id, color, size, owner, value).state;
    assert created - {id} == ws;
  }

  /** After a successful deletion the key is gone, and a second deletion fails. */
  lemma DeleteRemoves(ws: Ledger, id: string)
    requires AssetExists(ws, id)
    ensures !AssetExists(DeleteAsset(ws, id).state, id)
    ensures ReadAsset(DeleteAsset(ws, id).state, id) == Err(DoesNotExist(id))
    ensures DeleteAsset(DeleteAsset(ws, id).state, id).result == Err(DoesNotExist(id))
  {
  }
}
