/**
 * The plain asset-transfer chaincode as a state transformer over a world
 * state of Asset records. Its operations are create, read, full
 * overwrite, delete, existence test and an unchecked change of owner.
 * These functions specify the methods of AssetContract.SmartContract.
 */
module AssetLedger {
  import opened WorldState

  /** The record the create and update operations build. */
  datatype Asset = Asset(id: string, color: string, size: int, owner: string, appraisedValue: int)

  type Ledger = map<string, Asset>

  /** Every record is stored under its own ID. */
  ghost predicate KeyedById(ws: Ledger)
  {
    forall k :: k in ws ==> ws[k].id == k
  }

  function AssetExists(ws: Ledger, id: string): (b: bool)
    ensures b <==> id in ws
  {
    id in ws
  }

  function ReadAsset(ws: Ledger, id: string): (r: Result<Asset>)
    ensures r.Ok? <==> AssetExists(ws, id)
    ensures r.Ok? ==> r.value == ws[id]
    ensures r.Err? ==> r.error == DoesNotExist(id)
  {
    if AssetExists(ws, id) then Ok(ws[id]) else Err(DoesNotExist(id))
  }

  function CreateAsset(ws: Ledger, id: string, color: string, size: int, owner: string,
                       appraisedValue: int): (r: Reply<(), Ledger>)
    ensures r.result.Ok? <==> !AssetExists(ws, id)
    ensures r.result.Err? ==> r.result.error == AlreadyExists(id) && r.state == ws
    ensures r.result.Ok? ==>
      && r.state.Keys == ws.Keys + {id}
      && (forall k :: k in ws ==> r.state[k] == ws[k])
      && r.state[id].id == id && r.state[id].color == color && r.state[id].size == size
      && r.state[id].owner == owner && r.state[id].appraisedValue == appraisedValue
    ensures KeyedById(ws) ==> KeyedById(r.state)
  {
    if AssetExists(ws, id) then
      Reply(Err(AlreadyExists(id)), ws)
    else
      Reply(Ok(()), ws[id := Asset(id, color, size, owner, appraisedValue)])
  }

  /** Overwrites the whole record; nothing of the old one is kept. */
  function UpdateAsset(ws: Ledger, id: string, color: string, size: int, owner: string,
                       appraisedValue: int): (r: Reply<(), Ledger>)
    ensures r.result.Ok? <==> AssetExists(ws, id)
    ensures r.result.Err? ==> r.result.error == DoesNotExist(id) && r.state == ws
    ensures r.result.Ok? ==>
      && r.state.Keys == ws.Keys
      && (forall k :: k in ws && k != id ==> r.state[k] == ws[k])
      && r.state[id].id == id && r.state[id].color == color && r.state[id].size == size
      && r.state[id].owner == owner && r.state[id].appraisedValue == appraisedValue
    ensures KeyedById(ws) ==> KeyedById(r.state)
  {
    if !AssetExists(ws, id) then
      Reply(Err(DoesNotExist(id)), ws)
    else
      Reply(Ok(()), ws[id := Asset(id, color, size, owner, appraisedValue)])
  }

  function DeleteAsset(ws: Ledger, id: string): (r: Reply<(), Ledger>)
    ensures r.result.Ok? <==> AssetExists(ws, id)
    ensures r.result.Err? ==> r.result.error == DoesNotExist(id) && r.state == ws
    ensures r.result.Ok? ==>
      && r.state.Keys == ws.Keys - {id}
      && (forall k :: k in r.state ==> r.state[k] == ws[k])
    ensures KeyedById(ws) ==> KeyedById(r.state)
  {
    if !AssetExists(ws, id) then
      Reply(Err(DoesNotExist(id)), ws)
    else
      Reply(Ok(()), ws - {id})
  }

  /** Gives the asset to `newOwner`, without any check, and answers the previous owner. */
  function TransferAsset(ws: Ledger, id: string, newOwner: string): (r: Reply<string, Ledger>)
    ensures r.result.Ok? <==> AssetExists(ws, id)
    ensures r.result.Err? ==> r.result.error == DoesNotExist(id) && r.state == ws
    ensures r.result.Ok? ==>
      && r.result.value == ws[id].owner
      && r.state.Keys == ws.Keys
      && (forall k :: k in ws && k != id ==> r.state[k] == ws[k])
      && r.state[id].owner == newOwner
      && r.state[id].id == ws[id].id && r.state[id].color == ws[id].color
      && r.state[id].size == ws[id].size && r.state[id].appraisedValue == ws[id].appraisedValue
    ensures KeyedById(ws) ==> KeyedById(r.state)
  {
    match ReadAsset(ws, id)
    case Err(e) => Reply(Err(e), ws)
    case Ok(asset) => Reply(Ok(asset.owner), ws[id := asset.(owner := newOwner)])
  }
}
