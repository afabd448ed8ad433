/**
 * The plain asset-transfer chaincode as an object whose field is the world
 * state; each state-changing method is proved to do exactly what the
 * corresponding function of AssetLedger specifies.
 */
module AssetContract {
  import opened WorldState
  import opened AssetLedger

  class SmartContract {
    /** The chaincode's namespace of the world state. */
    var worldState: Ledger

    ghost predicate Valid()
      reads this
    {
      KeyedById(worldState)
    }

    constructor ()
      ensures Valid() && worldState == map[]
    {
      worldState := map[];
    }

    method CreateAsset(id: string, color: string, size: int, owner: string, appraisedValue: int)
      returns (r: Result<()>)
      requires Valid()
      modifies this
      ensures Valid()
      ensures Reply(r, worldState) ==
        AssetLedger.CreateAsset(old(worldState), id, color, size, owner, appraisedValue)
    {
      var found := AssetExists(worldState, id);
      if found {
        return Err(AlreadyExists(id));
      }
      var asset := Asset(id, color, size, owner, appraisedValue);
      worldState := worldState[id := asset];
      r := Ok(());
    }

    method UpdateAsset(id: string, color: string, size: int, owner: string, appraisedValue: int)
      returns (r: Result<()>)
      requires Valid()
      modifies this
      ensures Valid()
      ensures Reply(r, worldState) ==
        AssetLedger.UpdateAsset(old(worldState), id, color, size, owner, appraisedValue)
    {
      var found := AssetExists(worldState, id);
      if !found {
        return Err(DoesNotExist(id));
      }
      var asset := Asset(id, color, size, owner, appraisedValue);
      worldState := worldState[id := asset];
      r := Ok(());
    }

    method DeleteAsset(id: string) returns (r: Result<()>)
      requires Valid()
      modifies this
      ensures Valid()
      ensures Reply(r, worldState) == AssetLedger.DeleteAsset(old(worldState), id)
    {
      var found := AssetExists(worldState, id);
      if !found {
        return Err(DoesNotExist(id));
      }
      worldState := worldState - {id};
      r := Ok(());
    }

    method TransferAsset(id: string, newOwner: string) returns (r: Result<string>)
      requires Valid()
      modifies this
      ensures Valid()
      ensures Reply(r, worldState) == AssetLedger.TransferAsset(old(worldState), id, newOwner)
    {
      var read := ReadAsset(worldState, id);
      if read.Err? {
        return Err(read.error);
      }
      var asset := read.value;
      var oldOwner := asset.owner;
      asset := asset.(owner := newOwner);
      worldState := worldState[id := asset];
      r := Ok(oldOwner);
    }

    /**
     * Every stored record once, in an order the store picks; `keys` are
     * the keys they were read from.
     */
    method GetAllAssets() returns (assets: seq<Asset>, ghost keys: seq<string>)
      ensures Enumerates(worldState, keys, assets)
      ensures |assets| == |worldState|
    {
      assets, keys := RangeScan(worldState);
    }
  }
}
