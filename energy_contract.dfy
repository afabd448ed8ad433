/**
 * The energy-token chaincode as an object: the world state is a field,
 * and each transaction reads, checks and writes it step by step. Every
 * state-changing method is proved to do exactly what the corresponding
 * function of EnergyLedger specifies; the reference time `now` stands for
 * the clock reading of the transaction.
 */
module EnergyContract {
  import opened WorldState
  import opened EnergyLedger

  class SmartContract {
    /** The chaincode's namespace of the world state. */
    var worldState: Ledger

    ghost predicate Valid()
      reads this
    {
      KeyedById(worldState)
    }

    constructor ()
      ensures Valid() && worldState == map[]
    {
      worldState := map[];
    }

    method InitLedger()
      requires Valid()
      modifies this
      ensures Valid()
      ensures worldState == EnergyLedger.InitLedger(old(worldState))
    {
      var energies := Seeds();
      for i := 0 to |energies|
        invariant worldState == PutAll(old(worldState), energies[..i])
      {
        assert energies[..i + 1][..i] == energies[..i];
        worldState := worldState[energies[i].id := energies[i]];
      }
      assert energies[..|energies|] == energies;
      assert worldState == EnergyLedger.InitLedger(old(worldState));
    }

    method CreateAsset(id: string, latitude: Coordinate, longitude: Coordinate,
                       producer: string, largeCategory: string, smallCategory: string,
                       appraisedValue: int, now: Time) returns (r: Result<()>)
      requires Valid()
      modifies this
      ensures Valid()
      ensures Reply(r, worldState) ==
        EnergyLedger.CreateAsset(old(worldState), id, latitude, longitude, producer,
                                 largeCategory, smallCategory, appraisedValue, now)
    {
      var found := EnergyExists(worldState, id);
      if found {
        return Err(AlreadyExists(id));
      }
      var energy := Zero.(id := id, latitude := latitude, longitude := longitude,
                          owner := producer, producer := producer,
                          largeCategory := largeCategory, smallCategory := smallCategory,
                          appraisedValue := appraisedValue, status := Generated,
                          generatedTime := now);
      worldState := worldState[id := energy];
      r := Ok(());
    }

    method TransferAsset(id: string, newOwner: string, now: Time) returns (r: Result<string>)
      requires Valid()
      modifies this
      ensures Valid()
      ensures Reply(r, worldState) == EnergyLedger.TransferAsset(old(worldState), id, newOwner, now)
    {
      var read := ReadAsset(worldState, id);
      if read.Err? {
        return Err(read.error);
      }
      var energy := read.value;
      var tCompare := now - SaleWindow;
      if energy.generatedTime > tCompare {
        energy := energy.(purchasedTime := now);
      } else {
        return Err(SaleWindowExpired(id));
      }
      if energy.status == Generated {
        energy := energy.(status := Sold);
      } else {
        return Err(NotForSale(id));
      }
      var oldOwner := energy.owner;
      energy := energy.(owner := newOwner);
      worldState := worldState[id := energy];
      r := Ok(oldOwner);
    }

    method UpdateAsset(id: string) returns (r: Result<()>)
      requires Valid()
      modifies this
      ensures Valid()
      ensures Reply(r, worldState) == EnergyLedger.UpdateAsset(old(worldState), id)
    {
      var found := EnergyExists(worldState, id);
      if !found {
        return Err(DoesNotExist(id));
      }
      var energy := Zero.(id := id, status := Old);
      worldState := worldState[id := energy];
      r := Ok(());
    }

    method DeleteAsset(id: string) returns (r: Result<()>)
      requires Valid()
      modifies this
      ensures Valid()
      ensures Reply(r, worldState) == EnergyLedger.DeleteAsset(old(worldState), id)
    {
      var found := EnergyExists(worldState, id);
      if !found {
        return Err(DoesNotExist(id));
      }
      worldState := worldState - {id};
      r := Ok(());
    }

    /**
     * The records whose status is `status`, in an order the store picks;
     * `keys` are the keys they were read from.
     */
    method QueryByStatus(status: string) returns (energies: seq<Energy>, ghost keys: seq<string>)
      ensures DrawnFrom(worldState, keys, energies)
      ensures forall i :: 0 <= i < |energies| ==> energies[i].status == status
    {
      energies, keys := [], [];
      var pending := worldState.Keys;
      while pending != {}
        invariant pending <= worldState.Keys
        invariant DrawnFrom(worldState, keys, energies)
        invariant forall i :: 0 <= i < |keys| ==> keys[i] !in pending
        invariant forall i :: 0 <= i < |energies| ==> energies[i].status == status
        decreases pending
      {
        var key :| key in pending;
        if worldState[key].status == status {
          energies := energies + [worldState[key]];
          keys := keys + [key];
        }
        pending := pending - {key};
      }
    }

    /**
     * Every stored record once, in an order the store picks; `keys` are
     * the keys they were read from.
     */
    method GetAllAssets() returns (energies: seq<Energy>, ghost keys: seq<string>)
      ensures Enumerates(worldState, keys, energies)
      ensures |energies| == |worldState|
    {
      energies, keys := RangeScan(worldState);
    }
  }
}
