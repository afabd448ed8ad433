# Energy-token chaincode: a verified model

This project models two Hyperledger Fabric chaincode contracts. Both keep
their records in the world state, a key-value store owned by the ledger.

* **The energy-token contract** (`asset-transfer-basic/chaincode-go`). It
  manages tokenized units of generated energy. `CreateAsset` issues a token
  whose owner is its producer and whose status is `"generated"`.
  `TransferAsset` sells it. A sale is allowed only within 30 minutes of
  generation and only while the status is `"generated"`; it sets the status
  to `"sold"` and answers the previous owner. `UpdateAsset` invalidates a
  token: it replaces the record by one that keeps only the ID and has the
  status `"old"`. `DeleteAsset` removes a token. `InitLedger` seeds six
  genesis tokens. `QueryByStatus` and `GetAllAssets` list records.
* **The plain asset contract** (`asset-transfer-basic/my-chaincode-go`). It
  is the stock create/read/update/delete/transfer sample over records with
  ID, colour, size, owner and appraised value.

Each contract is modelled in three modules:

* `EnergyLedger` / `AssetLedger` define the records and the world state
  (`map<string, Record>`). Each operation is a function from the state and
  its inputs to a `Reply`, which holds the answer (`Ok` or an `Error` kind)
  and the state after the call. The `ensures` clauses of these functions
  state the rules: error cases, what is written, what is left untouched,
  and the invariants kept.
* `EnergyContract` / `AssetContract` hold a class `SmartContract` whose
  field `worldState` is updated in place. Its methods do the source's
  step-by-step read, check and write. Each method is proved to produce
  exactly the reply and state of the ledger function. The listing methods
  are loops over the stored keys (`GetAllAssets` uses the shared range scan
  `WorldState.RangeScan`): `GetAllAssets` is proved to return every
  stored record exactly once, and `QueryByStatus` is proved to return only
  stored records with the requested status.
* `EnergyProperties` / `AssetProperties` hold lemmas relating several calls.

`WorldState` holds what both contracts share: error kinds, `Result`,
`Reply`, and what "one record per stored key" means for a listing.

Inputs that the source takes from its environment become parameters:

* The clock: `time.Now()` becomes an explicit reference time `now`, read
  once per call. It is a `nat` counting nanoseconds since Go's zero
  `time.Time` (January 1 of year 1), so 0 is the zero value of an unset
  timestamp.
* Latitude and longitude (`float64` in the source) are only carried, so
  they are modelled opaquely as `int`.

Where the intended design and the code disagree, the model follows the
code:

* `InitLedger` overwrites existing keys. It does not fail when a key is
  taken.
* The sale window is strict. A transfer exactly 30 minutes after
  generation fails (`GeneratedTime.After(now - 30min)`).
* The invalidated status is the string `"old"`, not an "expired" value.
* `TransferAsset` takes no new appraised value, and records carry no
  document type.

Two consequences of the code are proved as lemmas, not assumed:

* `EnergyProperties.SeedsCannotBeSold`: every genesis token has the zero
  generation time, so none of them can ever be sold.
* `EnergyProperties.InitLedgerOverwrites`: running `InitLedger` again can
  put a sold token back to `"generated"`.

## Model

| member | source | states |
|---|---|---|
| `EnergyLedger.EnergyExists` | asset-transfer-basic/chaincode-go/chaincode/smartcontract.go:144-151 | true exactly when a record is stored under the id |
| `EnergyLedger.ReadAsset` | asset-transfer-basic/chaincode-go/chaincode/smartcontract.go:155-171 | succeeds exactly when the id exists, with the stored record; otherwise a "does not exist" error |
| `EnergyLedger.CreateAsset` | asset-transfer-basic/chaincode-go/chaincode/smartcontract.go:71-99 | fails with "already exists" on a taken id, state unchanged; otherwise adds exactly the key id, other keys untouched, with owner = producer = producer, status "generated", generation time = now, purchase time zero, other fields as supplied; keeps records keyed by id and generated tokens unsold |
| `EnergyLedger.TransferAsset` | asset-transfer-basic/chaincode-go/chaincode/smartcontract.go:103-140 | succeeds iff the id exists, generation time > now - 30 min and status is "generated"; errors: missing, then window, then not for sale; a failure writes nothing; a success answers the previous owner, sets owner, status "sold" and purchase time now, keeps the issuance fields and every other key |
| `EnergyLedger.UpdateAsset` | asset-transfer-basic/chaincode-go/chaincode/smartcontract.go:176-196 | fails on a missing id without writing; otherwise the record becomes the zero record with only ID = id and status "old", other keys untouched |
| `EnergyLedger.DeleteAsset` | asset-transfer-basic/chaincode-go/chaincode/smartcontract.go:257-267 | fails on a missing id without writing; otherwise removes exactly that key and keeps every other record |
| `EnergyLedger.PutAllStores` | asset-transfer-basic/chaincode-go/chaincode/smartcontract.go:51-61 | writing records with distinct ids in order stores each under its id and leaves every other key as it was |
| `EnergyLedger.SeedIdsDistinct` | asset-transfer-basic/chaincode-go/chaincode/smartcontract.go:36-49 | the six genesis records carry six distinct ids, energy1 to energy6 |
| `EnergyLedger.InitLedger` | asset-transfer-basic/chaincode-go/chaincode/smartcontract.go:35-64 | afterwards the keys are the old keys plus energy1 to energy6, each holding its seed record (overwriting), and every other key unchanged |
| `EnergyContract.SmartContract.InitLedger` | asset-transfer-basic/chaincode-go/chaincode/smartcontract.go:35-64 | the loop writing each seed leaves the state `EnergyLedger.InitLedger` describes; keeps records keyed by id |
| `EnergyContract.SmartContract.CreateAsset` | asset-transfer-basic/chaincode-go/chaincode/smartcontract.go:71-99 | the existence check and write give exactly the reply and state of `EnergyLedger.CreateAsset` |
| `EnergyContract.SmartContract.TransferAsset` | asset-transfer-basic/chaincode-go/chaincode/smartcontract.go:103-140 | the step-by-step read, window check, status check and field assignments give exactly the reply and state of `EnergyLedger.TransferAsset` |
| `EnergyContract.SmartContract.UpdateAsset` | asset-transfer-basic/chaincode-go/chaincode/smartcontract.go:176-196 | gives exactly the reply and state of `EnergyLedger.UpdateAsset` |
| `EnergyContract.SmartContract.DeleteAsset` | asset-transfer-basic/chaincode-go/chaincode/smartcontract.go:257-267 | gives exactly the reply and state of `EnergyLedger.DeleteAsset` |
| `EnergyContract.SmartContract.QueryByStatus` | asset-transfer-basic/chaincode-go/chaincode/smartcontract.go:198-224 | every returned record has the requested status and is the record stored under its own distinct key |
| `EnergyContract.SmartContract.GetAllAssets` | asset-transfer-basic/chaincode-go/chaincode/smartcontract.go:227-252 | returns the record of every stored key exactly once, as many records as keys |
| `WorldState.RangeScan` | asset-transfer-basic/chaincode-go/chaincode/smartcontract.go:230-249 | the open-ended range scan loop returns the record of every stored key exactly once, as many records as keys |
| `WorldState.EnumerationSize` | asset-transfer-basic/chaincode-go/chaincode/smartcontract.go:236-249 | a listing with one entry per stored key has as many entries as the state has keys |
| `EnergyProperties.CreateIsUnique` | asset-transfer-basic/chaincode-go/chaincode/smartcontract.go:73-79 | after any creation under an id, a second creation under it fails with "already exists" and writes nothing |
| `EnergyProperties.ReadAfterCreate` | asset-transfer-basic/chaincode-go/chaincode/smartcontract.go:81-98 | a fresh token reads back as "generated", owned by its producer, generated at now, never purchased |
| `EnergyProperties.DeleteUndoesCreate` | asset-transfer-basic/chaincode-go/chaincode/smartcontract.go:257-266 | deleting a token just issued restores the previous world state exactly |
| `EnergyProperties.SaleWindowIsStrict` | asset-transfer-basic/chaincode-go/chaincode/smartcontract.go:110-118 | for a token for sale, a transfer succeeds iff now < generation time + 30 min; at exactly 30 min it fails with the window error |
| `EnergyProperties.WindowCheckedFirst` | asset-transfer-basic/chaincode-go/chaincode/smartcontract.go:114-124 | a token not for sale is refused as not for sale inside the window and for the window outside it |
| `EnergyProperties.SecondTransferFails` | asset-transfer-basic/chaincode-go/chaincode/smartcontract.go:120-124 | after a successful sale, every later transfer of the token fails (not for sale in the window, window error after it) and writes nothing |
| `EnergyProperties.IssueThenSell` | asset-transfer-basic/chaincode-go/chaincode/smartcontract.go:103-139 | Tomoko's token e1, sold to Brad ten minutes after issue, answers "Tomoko" and then reads as sold, owned by Brad, purchased at that time |
| `EnergyProperties.UpdateBlocksTransfer` | asset-transfer-basic/chaincode-go/chaincode/smartcontract.go:186-189 | an invalidated token reads as the zero record with its id and status "old", and at any real clock reading its transfer fails with the window error |
| `EnergyProperties.DeleteRemoves` | asset-transfer-basic/chaincode-go/chaincode/smartcontract.go:257-266 | after a deletion the id no longer exists and reading it reports "does not exist" |
| `EnergyProperties.StatusOneWay` | asset-transfer-basic/chaincode-go/chaincode/smartcontract.go:120-124 | no create, transfer, update or delete call turns a stored token that is not "generated" back into "generated" |
| `EnergyProperties.CallKeepsInvariants` | asset-transfer-basic/chaincode-go/chaincode/smartcontract.go:81-92 | each lifecycle call keeps every record stored under its own id and every "generated" token owned by its producer with no purchase time |
| `EnergyProperties.CallsKeepInvariants` | asset-transfer-basic/chaincode-go/chaincode/smartcontract.go:81-92 | so does every sequence of lifecycle calls |
| `EnergyProperties.InitLedgerSeeds` | asset-transfer-basic/chaincode-go/chaincode/smartcontract.go:36-49 | after seeding, energy3 is "sold" (owner Jin Soo, value 100), the other five are "generated" with their listed owners and producers, and all six have zero times, category Green/solor and coordinates 1 |
| `EnergyProperties.SeedsCannotBeSold` | asset-transfer-basic/chaincode-go/chaincode/smartcontract.go:36-49 | at any real clock reading, transferring any seeded token fails with the window error |
| `EnergyProperties.InitLedgerOverwrites` | asset-transfer-basic/chaincode-go/chaincode/smartcontract.go:51-61 | seeding puts a sold energy1 back to "generated", and it stores generated tokens not owned by their producer |
| `AssetLedger.AssetExists` | asset-transfer-basic/my-chaincode-go/chaincode/smartcontract.go:152-159 | true exactly when a record is stored under the id |
| `AssetLedger.ReadAsset` | asset-transfer-basic/my-chaincode-go/chaincode/smartcontract.go:94-110 | the stored record when the id exists, otherwise a "does not exist" error |
| `AssetLedger.CreateAsset` | asset-transfer-basic/my-chaincode-go/chaincode/smartcontract.go:70-91 | fails with "already exists" on a taken id, state unchanged; otherwise adds exactly the key id holding the supplied ID, colour, size, owner and value, other keys untouched |
| `AssetLedger.UpdateAsset` | asset-transfer-basic/my-chaincode-go/chaincode/smartcontract.go:113-136 | fails on a missing id without writing; otherwise the record becomes exactly the supplied fields, other keys untouched |
| `AssetLedger.DeleteAsset` | asset-transfer-basic/my-chaincode-go/chaincode/smartcontract.go:139-149 | fails on a missing id without writing; otherwise removes exactly that key |
| `AssetLedger.TransferAsset` | asset-transfer-basic/my-chaincode-go/chaincode/smartcontract.go:162-182 | succeeds exactly when the id exists, answering the old owner; sets the owner and changes no other field or key; a failure writes nothing |
| `AssetContract.SmartContract.CreateAsset` | asset-transfer-basic/my-chaincode-go/chaincode/smartcontract.go:70-91 | gives exactly the reply and state of `AssetLedger.CreateAsset` |
| `AssetContract.SmartContract.UpdateAsset` | asset-transfer-basic/my-chaincode-go/chaincode/smartcontract.go:113-136 | gives exactly the reply and state of `AssetLedger.UpdateAsset` |
| `AssetContract.SmartContract.DeleteAsset` | asset-transfer-basic/my-chaincode-go/chaincode/smartcontract.go:139-149 | gives exactly the reply and state of `AssetLedger.DeleteAsset` |
| `AssetContract.SmartContract.TransferAsset` | asset-transfer-basic/my-chaincode-go/chaincode/smartcontract.go:162-182 | the read, owner assignment and write give exactly the reply and state of `AssetLedger.TransferAsset` |
| `AssetContract.SmartContract.GetAllAssets` | asset-transfer-basic/my-chaincode-go/chaincode/smartcontract.go:185-210 | returns the record of every stored key exactly once, as many records as keys |
| `AssetProperties.CreateIsUnique` | asset-transfer-basic/my-chaincode-go/chaincode/smartcontract.go:70-76 | after any creation under an id, a second creation under it fails with "already exists" and writes nothing |
| `AssetProperties.ReadAfterCreate` | asset-transfer-basic/my-chaincode-go/chaincode/smartcontract.go:78-90 | a created asset reads back exactly as supplied |
| `AssetProperties.UpdateForgetsOld` | asset-transfer-basic/my-chaincode-go/chaincode/smartcontract.go:122-135 | the record after an update is the same whatever was stored before: exactly the supplied fields |
| `AssetProperties.TransferTwice` | asset-transfer-basic/my-chaincode-go/chaincode/smartcontract.go:162-182 | a second transfer always succeeds, answers the first buyer, and the pair equals one transfer to the second buyer |
| `AssetProperties.TransferBackRestores` | asset-transfer-basic/my-chaincode-go/chaincode/smartcontract.go:168-169 | transferring back to the owner a transfer answered restores the world state |
| `AssetProperties.DeleteUndoesCreate` | asset-transfer-basic/my-chaincode-go/chaincode/smartcontract.go:139-149 | deleting an asset just created restores the previous world state exactly |
| `AssetProperties.DeleteRemoves` | asset-transfer-basic/my-chaincode-go/chaincode/smartcontract.go:139-149 | after a deletion the id no longer exists, reading it reports "does not exist", and deleting it again fails |

## Left out

- `EnergyContract.SmartContract.QueryByStatus`: only soundness is stated. Every result has the requested status, but the model does not claim that every such record is returned. The source's selector filters on the key `"status"`, while records are stored under the JSON key `"Status"`. What the store's rich query then returns is not part of this model.
- World-state access failures (`GetState`, `PutState`, `DelState` and iterator errors) are not modelled. They come from the store, which is not part of this model.
- JSON encoding and decoding of records, with its fixed field order and the two-word keys `"Generated Time"` and `"Purchased Time"`, is not modelled. Records are stored as values, so marshalling and unmarshalling errors cannot occur.
- Error messages are modelled as error kinds carrying the id, not as the formatted text.
- The order in which range scans and rich queries return records is left to the store. The listing loops pick keys in an unspecified order.
- Iterator closing (`defer resultsIterator.Close()`) is left out: there is no resource to release in the model.
- The clock is a parameter. The two clock readings in the energy `TransferAsset` are one reference time.
- Lemmas that rely on the zero generation time lying outside the sale window require `now >= 30 minutes`. Any real clock reading satisfies this, since it lies far after Go's zero instant.
- Latitude and longitude are integers here. The source's `float64` values are only carried, never computed on.
- The plain contract's `InitLedger` is not modelled: it marshals an undefined variable and reads the clock. Lines 67-68 of its `CreateAsset` are JavaScript and are skipped. Its malformed `Energy` struct tags are not modelled. Its `Asset` type is never declared, so the record's fields are inferred from the literals that build it.
- `chaincode/simple-contract.go` only starts the chaincode process and holds no contract logic.
