/**
 * The energy-token chaincode as a state transformer: each operation takes
 * the world state (key to Energy record) and its explicit inputs, and
 * yields its answer together with the world state it leaves behind.
 * These functions are the specification that the methods of
 * EnergyContract.SmartContract are proved against.
 */
module EnergyLedger {
  import opened WorldState

  /**
   * An instant, in nanoseconds since Go's zero time.Time (January 1 of
   * year 1, UTC); 0 is the zero value of an unset timestamp.
   */
  type Time = nat

  /** Latitude and longitude are float64 values that are only carried. */
  type Coordinate = int

  const Minute: nat := 60 * 1000000000

  /** A token may be sold only while it is younger than this. */
  const SaleWindow: nat := 30 * Minute

  const Generated: string := "generated"
  const Sold: string := "sold"
  const Old: string := "old"

  /** One energy token, its fields in the source's (alphabetical) order. */
  datatype Energy = Energy(
    appraisedValue: int,
    generatedTime: Time,
    purchasedTime: Time,
    id: string,
    largeCategory: string,
    latitude: Coordinate,
    longitude: Coordinate,
    owner: string,
    producer: string,
    smallCategory: string,
    status: string)

  /** The zero value of the record: what a struct literal leaves unset. */
  const Zero: Energy := Energy(0, 0, 0, "", "", 0, 0, "", "", "", "")

  type Ledger = map<string, Energy>

  /** Every record is stored under its own ID. */
  ghost predicate KeyedById(ws: Ledger)
  {
    forall k :: k in ws ==> ws[k].id == k
  }

  /** Every token still "generated" is owned by its producer and has no purchase time. */
  ghost predicate UnsoldAsIssued(ws: Ledger)
  {
    forall k :: k in ws && ws[k].status == Generated ==>
      ws[k].owner == ws[k].producer && ws[k].purchasedTime == 0
  }

  /** The fields fixed at issuance agree. */
  predicate SameIssue(a: Energy, b: Energy)
  {
    && a.id == b.id
    && a.producer == b.producer
    && a.largeCategory == b.largeCategory
    && a.smallCategory == b.smallCategory
    && a.latitude == b.latitude
    && a.longitude == b.longitude
    && a.appraisedValue == b.appraisedValue
    && a.generatedTime == b.generatedTime
  }

  /**
   * The sale-window test: the token was generated strictly after the
   * instant 30 minutes before `now`.
   */
  predicate InSaleWindow(generated: Time, now: Time)
  {
    generated > now - SaleWindow
  }

  function EnergyExists(ws: Ledger, id: string): (b: bool)
    ensures b <==> id in ws
  {
    id in ws
  }

  function ReadAsset(ws: Ledger, id: string): (r: Result<Energy>)
    ensures r.Ok? <==> EnergyExists(ws, id)
    ensures r.Ok? ==> r.value == ws[id]
    ensures r.Err? ==> r.error == DoesNotExist(id)
  {
    if EnergyExists(ws, id) then Ok(ws[id]) else Err(DoesNotExist(id))
  }

  /** Issues a token generated at `now` by `producer`, who also owns it. */
  function CreateAsset(ws: Ledger, id: string, latitude: Coordinate, longitude: Coordinate,
                       producer: string, largeCategory: string, smallCategory: string,
                       appraisedValue: int, now: Time): (r: Reply<(), Ledger>)
    ensures r.result.Ok? <==> !EnergyExists(ws, id)
    ensures r.result.Err? ==> r.result.error == AlreadyExists(id) && r.state == ws
    ensures r.result.Ok? ==>
      && r.state.Keys == ws.Keys + {id}
      && (forall k :: k in ws ==> r.state[k] == ws[k])
    ensures r.result.Ok? ==>
      var e := r.state[id];
      && e.id == id && e.owner == producer && e.producer == producer
      && e.status == Generated && e.generatedTime == now && e.purchasedTime == 0
      && e.latitude == latitude && e.longitude == longitude
      && e.largeCategory == largeCategory && e.smallCategory == smallCategory
      && e.appraisedValue == appraisedValue
    ensures KeyedById(ws) ==> KeyedById(r.state)
    ensures UnsoldAsIssued(ws) ==> UnsoldAsIssued(r.state)
  {
    if EnergyExists(ws, id) then
      Reply(Err(AlreadyExists(id)), ws)
    else
      var energy := Zero.(id := id, latitude := latitude, longitude := longitude,
                          owner := producer, producer := producer,
                          largeCategory := largeCategory, smallCategory := smallCategory,
                          appraisedValue := appraisedValue, status := Generated,
                          generatedTime := now);
      Reply(Ok(()), ws[id := energy])
  }

  /**
   * Sells the token to `newOwner` and answers its previous owner. The
   * sale window is checked before the status.
   */
  function TransferAsset(ws: Ledger, id: string, newOwner: string, now: Time): (r: Reply<string, Ledger>)
    ensures r.result.Ok? <==>
      id in ws && InSaleWindow(ws[id].generatedTime, now) && ws[id].status == Generated
    ensures id !in ws ==> r.result == Err(DoesNotExist(id))
    ensures id in ws && !InSaleWindow(ws[id].generatedTime, now) ==>
      r.result == Err(SaleWindowExpired(id))
    ensures id in ws && InSaleWindow(ws[id].generatedTime, now) && ws[id].status != Generated ==>
      r.result == Err(NotForSale(id))
    ensures r.result.Err? ==> r.state == ws
    ensures r.result.Ok? ==>
      && r.result.value == ws[id].owner
      && r.state.Keys == ws.Keys
      && (forall k :: k in ws && k != id ==> r.state[k] == ws[k])
      && r.state[id].owner == newOwner
      && r.state[id].status == Sold
      && r.state[id].purchasedTime == now
      && SameIssue(r.state[id], ws[id])
    ensures KeyedById(ws) ==> KeyedById(r.state)
    ensures UnsoldAsIssued(ws) ==> UnsoldAsIssued(r.state)
  {
    match ReadAsset(ws, id)
    case Err(e) => Reply(Err(e), ws)
    case Ok(energy) =>
      if !InSaleWindow(energy.generatedTime, now) then
        Reply(Err(SaleWindowExpired(id)), ws)
      else if energy.status != Generated then
        Reply(Err(NotForSale(id)), ws)
      else
        Reply(Ok(energy.owner),
              ws[id := energy.(purchasedTime := now, status := Sold, owner := newOwner)])
  }

  /**
   * Invalidates the token: its record is replaced by one that keeps only
   * the ID and carries the status "old".
   */
  function UpdateAsset(ws: Ledger, id: string): (r: Reply<(), Ledger>)
    ensures r.result.Ok? <==> EnergyExists(ws, id)
    ensures r.result.Err? ==> r.result.error == DoesNotExist(id) && r.state == ws
    ensures r.result.Ok? ==>
      && r.state.Keys == ws.Keys
      && (forall k :: k in ws && k != id ==> r.state[k] == ws[k])
      && r.state[id] == Zero.(id := id, status := Old)
    ensures KeyedById(ws) ==> KeyedById(r.state)
    ensures UnsoldAsIssued(ws) ==> UnsoldAsIssued(r.state)
  {
    if !EnergyExists(ws, id) then
      Reply(Err(DoesNotExist(id)), ws)
    else
      Reply(Ok(()), ws[id := Zero.(id := id, status := Old)])
  }

  function DeleteAsset(ws: Ledger, id: string): (r: Reply<(), Ledger>)
    ensures r.result.Ok? <==> EnergyExists(ws, id)
    ensures r.result.Err? ==> r.result.error == DoesNotExist(id) && r.state == ws
    ensures r.result.Ok? ==>
      && r.state.Keys == ws.Keys - {id}
      && (forall k :: k in r.state ==> r.state[k] == ws[k])
    ensures KeyedById(ws) ==> KeyedById(r.state)
    ensures UnsoldAsIssued(ws) ==> UnsoldAsIssued(r.state)
  {
    if !EnergyExists(ws, id) then
      Reply(Err(DoesNotExist(id)), ws)
    else
      Reply(Ok(()), ws - {id})
  }

  /** A seed record: the fields the genesis literals set, the rest zero. */
  function Seed(id: string, owner: string, producer: string, status: string, appraisedValue: int): Energy
  {
    Zero.(id := id, largeCategory := "Green", smallCategory := "solor", status := status,
          producer := producer, owner := owner, latitude := 1, longitude := 1,
          appraisedValue := appraisedValue)
  }

  /** The six genesis records, in the order they are written. */
  function Seeds(): seq<Energy>
  {
    [ Seed("energy1", "", "Tomoko", Generated, 0),
      Seed("energy2", "Brad", "Tomoko", Generated, 0),
      Seed("energy3", "Jin Soo", "", Sold, 100),
      Seed("energy4", "Max", "", Generated, 0),
      Seed("energy5", "Adriana", "", Generated, 0),
      Seed("energy6", "Michel", "", Generated, 0) ]
  }

  const SeedIds: set<string> := {"energy1", "energy2", "energy3", "energy4", "energy5", "energy6"}

  /** Writes the records in order, each under its own ID, overwriting. */
  function PutAll(ws: Ledger, es: seq<Energy>): Ledger
    decreases |es|
  {
    if es == [] then ws
    else
      var last := es[|es| - 1];
      PutAll(ws, es[..|es| - 1])[last.id := last]
  }

  /** The IDs of a sequence of records. */
  function IdsOf(es: seq<Energy>): set<string>
    decreases |es|
  {
    if es == [] then {} else IdsOf(es[..|es| - 1]) + {es[|es| - 1].id}
  }

  /**
   * Writing records in order adds exactly their IDs as keys, stores each
   * under its own ID and touches no other key; when the IDs are distinct,
   * each record is the one stored.
   */
  lemma {:induction false} PutAllStores(ws: Ledger, es: seq<Energy>)
    requires forall i, j :: 0 <= i < j < |es| ==> es[i].id != es[j].id
    ensures PutAll(ws, es).Keys == ws.Keys + IdsOf(es)
    ensures forall k :: k in IdsOf(es) ==> PutAll(ws, es)[k].id == k
    ensures forall i :: 0 <= i < |es| ==> es[i].id in PutAll(ws, es) && PutAll(ws, es)[es[i].id] == es[i]
    ensures forall k :: k in ws && k !in IdsOf(es) ==> PutAll(ws, es)[k] == ws[k]
    decreases |es|
  {
    if es != [] {
      var n := |es| - 1;
      var init := es[..n];
      PutAllStores(ws, init);
      forall i | 0 <= i < |es| ensures es[i].id in PutAll(ws, es) && PutAll(ws, es)[es[i].id] == es[i] {
        if i < n {
          assert init[i] == es[i];
        }
      }
    }
  }

  /** The genesis records carry the six distinct IDs of SeedIds. */
  lemma SeedIdsDistinct()
    ensures forall i, j :: 0 <= i < j < |Seeds()| ==> Seeds()[i].id != Seeds()[j].id
    ensures IdsOf(Seeds()) == SeedIds
  {
    var seeds := Seeds();
    assert IdsOf(seeds[..0]) == {};
    assert IdsOf(seeds[..1]) == {"energy1"} by { assert seeds[..1][..0] == seeds[..0]; }
    assert IdsOf(seeds[..2]) == {"energy1", "energy2"} by { assert seeds[..2][..1] == seeds[..1]; }
    assert IdsOf(seeds[..3]) == {"energy1", "energy2", "energy3"} by { assert seeds[..3][..2] == seeds[..2]; }
    assert IdsOf(seeds[..4]) == {"energy1", "energy2", "energy3", "energy4"} by { assert seeds[..4][..3] == seeds[..3]; }
    assert IdsOf(seeds[..5]) == {"energy1", "energy2", "energy3", "energy4", "energy5"} by { assert seeds[..5][..4] == seeds[..4]; }
    assert IdsOf(seeds[..6]) == {"energy1", "energy2", "energy3", "energy4", "energy5", "energy6"} by { assert seeds[..6][..5] == seeds[..5]; }
    assert seeds[..6] == seeds;
  }

  /**
   * Seeds the six genesis records, without checking whether their keys
   * are already taken.
   */
  function InitLedger(ws: Ledger): (r: Ledger)
    ensures r.Keys == ws.Keys + SeedIds
    ensures forall k :: k in ws && k !in SeedIds ==> r[k] == ws[k]
    ensures forall i :: 0 <= i < |Seeds()| ==> r[Seeds()[i].id] == Seeds()[i]
    ensures KeyedById(ws) ==> KeyedById(r)
  {
    SeedIdsDistinct();
    PutAllStores(ws, Seeds());
    PutAll(ws, Seeds())
  }
}
