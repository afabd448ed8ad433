/**
 * Properties of the energy-token lifecycle that relate several calls:
 * uniqueness of issuance, the strict sale window, single sale, the
 * destructive invalidation, deletion, the one-way status, and what the
 * genesis seeding does.
 */
module EnergyProperties {
  import opened WorldState
  import opened EnergyLedger

  /** One transaction of the lifecycle engine, with its inputs. */
  datatype Call =
    | Create(id: string, latitude: Coordinate, longitude: Coordinate, producer: string,
             largeCategory: string, smallCategory: string, appraisedValue: int, now: Time)
    | Transfer(id: string, newOwner: string, now: Time)
    | Update(id: string)
    | Delete(id: string)

  /** The world state after one call, whether it succeeded or not. */
  function Apply(ws: Ledger, c: Call): Ledger
  {
    match c
    case Create(id, lat, lon, p, lc, sc, v, now) => CreateAsset(ws, id, lat, lon, p, lc, sc, v, now).state
    case Transfer(id, o, now) => TransferAsset(ws, id, o, now).state
    case Update(id) => UpdateAsset(ws, id).state
    case Delete(id) => DeleteAsset(ws, id).state
  }

  /** A second issuance under an ID always fails, whatever the first did. */
  lemma CreateIsUnique(ws: Ledger, id: string,
                       lat1: Coordinate, lon1: Coordinate, p1: string, lc1: string, sc1: string, v1: int, t1: Time,
                       lat2: Coordinate, lon2: Coordinate, p2: string, lc2: string, sc2: string, v2: int, t2: Time)
    ensures var first := CreateAsset(ws, id, lat1, lon1, p1, lc1, sc1, v1, t1);
      CreateAsset(first.state, id, lat2, lon2, p2, lc2, sc2, v2, t2) ==
        Reply(Err(AlreadyExists(id)), first.state)
  {
  }

  /** A freshly issued token reads back as generated and owned by its producer. */
  lemma ReadAfterCreate(ws: Ledger, id: string, lat: Coordinate, lon: Coordinate, producer: string,
                        lc: string, sc: string, v: int, now: Time)
    requires !EnergyExists(ws, id)
    ensures var read := ReadAsset(CreateAsset(ws, id, lat, lon, producer, lc, sc, v, now).state, id);
      && read.Ok?
      && read.value.owner == producer && read.value.status == Generated
      && read.value.generatedTime == now && read.value.purchasedTime == 0
  {
  }

  /** Deleting a token just issued restores the world state exactly. */
  lemma DeleteUndoesCreate(ws: Ledger, id: string, lat: Coordinate, lon: Coordinate, producer: string,
                           lc: string, sc: string, v: int, now: Time)
    requires !EnergyExists(ws, id)
    ensures DeleteAsset(CreateAsset(ws, id, lat, lon, producer, lc, sc, v, now).state, id) ==
      Reply(Ok(()), ws)
  {
    var created := CreateAsset(ws, id, lat, lon, producer, lc, sc, v, now).state;
    assert created - {id} == ws;
  }

  /**
   * For a token that is for sale, a transfer succeeds exactly while less
   * than 30 minutes have passed since generation; at exactly 30 minutes
   * it is refused for the sale window.
   */
  lemma SaleWindowIsStrict(ws: Ledger, id: string, newOwner: string, now: Time)
    requires id in ws && ws[id].status == Generated
    ensures TransferAsset(ws, id, newOwner, now).result.Ok? <==>
      now < ws[id].generatedTime + SaleWindow
    ensures TransferAsset(ws, id, newOwner, ws[id].generatedTime + SaleWindow).result ==
      Err(SaleWindowExpired(id))
  {
  }

  /**
   * The window is tested before the status: a token outside the window is
   * refused for the window even when it is not for sale.
   */
  lemma WindowCheckedFirst(ws: Ledger, id: string, newOwner: string, now: Time)
    requires id in ws && ws[id].status != Generated
    ensures TransferAsset(ws, id, newOwner, now).result ==
      if InSaleWindow(ws[id].generatedTime, now) then Err(NotForSale(id)) else Err(SaleWindowExpired(id))
  {
  }

  /** A token is sold at most once: after a sale every transfer of it fails. */
  lemma SecondTransferFails(ws: Ledger, id: string, buyer1: string, now1: Time, buyer2: string, now2: Time)
    requires TransferAsset(ws, id, buyer1, now1).result.Ok?
    ensures var sold := TransferAsset(ws, id, buyer1, now1).state;
      && TransferAsset(sold, id, buyer2, now2).result.Err?
      && TransferAsset(sold, id, buyer2, now2).state == sold
      && TransferAsset(sold, id, buyer2, now2).result ==
           if InSaleWindow(ws[id].generatedTime, now2) then Err(NotForSale(id))
           else Err(SaleWindowExpired(id))
  {
    var sold := TransferAsset(ws, id, buyer1, now1).state;
    assert sold[id].generatedTime == ws[id].generatedTime;
    WindowCheckedFirst(sold, id, buyer2, now2);
  }

  /** The scenario of a token issued by Tomoko and bought ten minutes later by Brad. */
  lemma IssueThenSell(ws: Ledger, t0: Time)
    requires !EnergyExists(ws, "e1")
    ensures var created := CreateAsset(ws, "e1", 1, 1, "Tomoko", "green", "solar", 0, t0);
      && created.result.Ok?
      && ReadAsset(created.state, "e1").value.status == Generated
      && ReadAsset(created.state, "e1").value.owner == "Tomoko"
      && var sale := TransferAsset(created.state, "e1", "Brad", t0 + 10 * Minute);
         && sale.result == Ok("Tomoko")
         && ReadAsset(sale.state, "e1").value.status == Sold
         && ReadAsset(sale.state, "e1").value.owner == "Brad"
         && ReadAsset(sale.state, "e1").value.purchasedTime == t0 + 10 * Minute
  {
  }

  /**
   * Invalidation resets the generation time to the zero instant, so at any
   * real clock reading (30 minutes or more after the zero instant) the
   * token can no longer be sold.
   */
  lemma UpdateBlocksTransfer(ws: Ledger, id: string, newOwner: string, now: Time)
    requires EnergyExists(ws, id)
    requires now >= SaleWindow
    ensures ReadAsset(UpdateAsset(ws, id).state, id) == Ok(Zero.(id := id, status := Old))
    ensures TransferAsset(UpdateAsset(ws, id).state, id, newOwner, now).result ==
      Err(SaleWindowExpired(id))
  {
  }

  /** After a successful deletion the key is gone. */
  lemma DeleteRemoves(ws: Ledger, id: string)
    requires EnergyExists(ws, id)
    ensures !EnergyExists(DeleteAsset(ws, id).state, id)
    ensures ReadAsset(DeleteAsset(ws, id).state, id) == Err(DoesNotExist(id))
  {
  }

  /**
   * No lifecycle call brings a stored token back to "generated": a key
   * present before and after a call whose status was not "generated"
   * still is not. (Only a deletion followed by a new issuance can.)
   */
  lemma {:induction false} StatusOneWay(ws: Ledger, c: Call, k: string)
    requires k in ws && ws[k].status != Generated
    requires k in Apply(ws, c)
    ensures Apply(ws, c)[k].status != Generated
  {
  }

  /** One lifecycle call keeps records keyed by ID and unsold tokens as issued. */
  lemma {:induction false} CallKeepsInvariants(ws: Ledger, c: Call)
    requires KeyedById(ws) && UnsoldAsIssued(ws)
    ensures KeyedById(Apply(ws, c)) && UnsoldAsIssued(Apply(ws, c))
  {
  }

  /** So does every sequence of lifecycle calls. */
  lemma {:induction false} CallsKeepInvariants(ws: Ledger, calls: seq<Call>)
    requires KeyedById(ws) && UnsoldAsIssued(ws)
    ensures KeyedById(ApplyAll(ws, calls)) && UnsoldAsIssued(ApplyAll(ws, calls))
    decreases |calls|
  {
    if calls != [] {
      CallKeepsInvariants(ws, calls[0]);
      CallsKeepInvariants(Apply(ws, calls[0]), calls[1..]);
    }
  }

  /** The world state after a sequence of calls. */
  function ApplyAll(ws: Ledger, calls: seq<Call>): Ledger
    decreases |calls|
  {
    if calls == [] then ws else ApplyAll(Apply(ws, calls[0]), calls[1..])
  }

  /** What the genesis seeding leaves under each of the six keys. */
  lemma InitLedgerSeeds(ws: Ledger)
    ensures var r := InitLedger(ws);
      && SeedIds <= r.Keys
      && r["energy3"].status == Sold && r["energy3"].owner == "Jin Soo" && r["energy3"].appraisedValue == 100
      && r["energy1"].status == Generated && r["energy1"].producer == "Tomoko" && r["energy1"].owner == ""
      && r["energy2"].status == Generated && r["energy2"].producer == "Tomoko" && r["energy2"].owner == "Brad"
      && r["energy4"].status == Generated && r["energy4"].owner == "Max"
      && r["energy5"].status == Generated && r["energy5"].owner == "Adriana"
      && r["energy6"].status == Generated && r["energy6"].owner == "Michel"
      && forall k :: k in SeedIds ==>
           && r[k].generatedTime == 0 && r[k].purchasedTime == 0
           && r[k].largeCategory == "Green" && r[k].smallCategory == "solor"
           && r[k].latitude == 1 && r[k].longitude == 1
  {
    var r := InitLedger(ws);
    var seeds := Seeds();
    assert r[seeds[0].id] == seeds[0] && r[seeds[1].id] == seeds[1] && r[seeds[2].id] == seeds[2];
    assert r[seeds[3].id] == seeds[3] && r[seeds[4].id] == seeds[4] && r[seeds[5].id] == seeds[5];
  }

  /**
   * No seeded token can ever be sold: all six carry the zero generation
   * time, so at any real clock reading the sale window has passed (and
   * energy3, already sold, is refused for the window, not the status).
   */
  lemma SeedsCannotBeSold(ws: Ledger, id: string, newOwner: string, now: Time)
    requires id in SeedIds
    requires now >= SaleWindow
    ensures TransferAsset(InitLedger(ws), id, newOwner, now).result == Err(SaleWindowExpired(id))
  {
    InitLedgerSeeds(ws);
  }

  /**
   * Seeding overwrites: run on a state where energy1 has been sold, it
   * puts energy1 back to "generated", and it stores generated tokens not
   * owned by their producer (energy2 belongs to Brad, produced by Tomoko).
   */
  lemma InitLedgerOverwrites(ws: Ledger)
    requires "energy1" in ws && ws["energy1"].status == Sold
    ensures InitLedger(ws)["energy1"].status == Generated
    ensures !UnsoldAsIssued(InitLedger(map[]))
  {
    InitLedgerSeeds(ws);
    InitLedgerSeeds(map[]);
  }
}
