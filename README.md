# Asset contract (chaincode) model

This project models the asset contract of the `asset-transfer-basic` chaincode. The contract
is a set of guarded handlers over the ledger's key-value world state. The state maps a dealer
id (`DEALERID`) to an asset record. The repository has the contract twice:

- in JavaScript: class `AssetTransfer`, module `AssetTransferJs` in `asset_transfer_js.dfy`;
- in Go: type `SmartContract`, module `SmartContractGo` in `smart_contract_go.dfy`.

The two implementations differ in small ways, so each is modelled on its own:

- MPIN: JavaScript drops it from created and updated records. Go stores 0 and ignores its `mpin` argument.
- docType: only the JavaScript seed records carry `docType = "asset"`.
- Seed data: the JavaScript `DEALER_2` seed has no REMARKS.
- Existence: in JavaScript an absent key and an empty value both count as missing. In Go only an absent key (nil) does.
- Listing: JavaScript keeps a value it cannot parse as its raw text. In Go, one undecodable value makes the whole listing fail.
- Transfer: the JavaScript TransferAsset always throws (see Findings). The Go one works.

Shared pieces:

- `WorldState` (`world_state.dfy`) is the host stub. It is a class `Stub<V>` whose field
  `entries: map<string, V>` is the world state. `PutState` and `DelState` update `entries`.
  The range scan `getStateByRange("", "")` is modelled by a key order `order` that the
  caller passes in. `IsScanOrder` requires it to list every stored key exactly once.
- `Wrappers` (`wrappers.dfy`) holds `Option` and `Result`.

Each handler is modelled in two parts:

- A method over the stub. It follows the source's statements: an existence check, then a
  write or delete. `InitLedger` and `GetAllAssets` keep their loops.
- A pure `…Step` function. It gives what the handler returns or throws (`Result`), and the
  world state afterwards. Each method's `ensures` ties the method to its Step function.

The Step functions' contracts use `ReadAsset` and `AssetExists` to say what the handler
promises. They also state the frame condition `post - {id} == s - {id}`: no other key changes.
Lemmas then relate the handlers to each other.

Field names are written in Dafny style: `dealerId` for `DEALERID`, `transAmount` for `TRANSAMOUNT`, and so on.

## Model

| member | source | states |
|---|---|---|
| `AssetTransferJs.ReadAsset` | fabric-samples-/asset-transfer-basic/chaincode-javascript/lib/assetTransfer.js:98-104 | Fails with "does not exist" when the id is absent or holds the empty value. Otherwise returns the stored value unchanged. It is a function, so it changes no state. |
| `AssetTransferJs.AssetExists` | fabric-samples-/asset-transfer-basic/chaincode-javascript/lib/assetTransfer.js:131-134 | True exactly when ReadAsset succeeds, that is, when a non-empty value is stored at the id. It changes no state. |
| `AssetTransferJs.CreateStep` | fabric-samples-/asset-transfer-basic/chaincode-javascript/lib/assetTransfer.js:82-94 | On an existing id: "already exists" and the state is unchanged. Otherwise: returns the record built from the arguments (no MPIN, no docType), ReadAsset then gives exactly that record, and no other key changes. |
| `AssetTransferJs.CreateAsset` | fabric-samples-/asset-transfer-basic/chaincode-javascript/lib/assetTransfer.js:82-95 | The handler's result and new world state are those of CreateStep. |
| `AssetTransferJs.UpdateStep` | fabric-samples-/asset-transfer-basic/chaincode-javascript/lib/assetTransfer.js:107-118 | On a missing id: "does not exist" and no write. Otherwise the whole record is replaced by exactly the given fields, with no MPIN and no docType left. No other key changes. |
| `AssetTransferJs.UpdateAsset` | fabric-samples-/asset-transfer-basic/chaincode-javascript/lib/assetTransfer.js:107-119 | The handler's result and new world state are those of UpdateStep. |
| `AssetTransferJs.DeleteStep` | fabric-samples-/asset-transfer-basic/chaincode-javascript/lib/assetTransfer.js:122-128 | On a missing id: "does not exist" and no change. Otherwise the id is absent afterwards and every other key keeps its value. |
| `AssetTransferJs.DeleteAsset` | fabric-samples-/asset-transfer-basic/chaincode-javascript/lib/assetTransfer.js:122-128 | The handler's result and new world state are those of DeleteStep. |
| `AssetTransferJs.TransferStep` | fabric-samples-/asset-transfer-basic/chaincode-javascript/lib/assetTransfer.js:137-145 | As written it never succeeds and never changes the state. It fails with "does not exist" exactly when the id is missing. It throws SyntaxError on unparsable text. On a record it throws ReferenceError for `newDEALER`. |
| `AssetTransferJs.TransferAsset` | fabric-samples-/asset-transfer-basic/chaincode-javascript/lib/assetTransfer.js:137-145 | The handler, as written, returns what TransferStep gives. It has no write to frame. |
| `AssetTransferJs.TransferOfSeededDealerFaults` | fabric-samples-/asset-transfer-basic/chaincode-javascript/lib/assetTransfer.js:141 | After InitLedger, transferring DEALER_1 to DEALER9 throws ReferenceError and leaves the seeded state unchanged. |
| `AssetTransferJs.CorrectedTransferStep` | fabric-samples-/asset-transfer-basic/chaincode-javascript/lib/assetTransfer.js:136-145 | Corrected transfer. Missing id: "does not exist" with no write. Unparsable text: SyntaxError with no write. Record: returns the previous DEALER, and the stored record equals the old one with only DEALER replaced. No other key changes. |
| `AssetTransferJs.CorrectedTransferAsset` | fabric-samples-/asset-transfer-basic/chaincode-javascript/lib/assetTransfer.js:136-145 | The corrected handler's result and new world state are those of CorrectedTransferStep. |
| `AssetTransferJs.CorrectedTransferRoundTrip` | fabric-samples-/asset-transfer-basic/chaincode-javascript/lib/assetTransfer.js:136-145 | After a successful corrected transfer, transferring back to the returned dealer restores the world state exactly. |
| `AssetTransferJs.InitLedger` | fabric-samples-/asset-transfer-basic/chaincode-javascript/lib/assetTransfer.js:16-79 | The loop leaves the world state InitLedgerState of the old one. |
| `AssetTransferJs.InitLedgerSeeds` | fabric-samples-/asset-transfer-basic/chaincode-javascript/lib/assetTransfer.js:16-78 | InitLedger adds exactly the keys DEALER_1..DEALER_5. Each holds its starter record with docType "asset", and no other key changes. |
| `AssetTransferJs.InitLedgerTagsEveryRecord` | fabric-samples-/asset-transfer-basic/chaincode-javascript/lib/assetTransfer.js:17-72 | Every starter key holds a record with that id and docType "asset". Only DEALER_2 lacks REMARKS. |
| `AssetTransferJs.Listing` | fabric-samples-/asset-transfer-basic/chaincode-javascript/lib/assetTransfer.js:149-164 | One entry per scanned key, in scan order, each the stored value: a parsed record, or the raw text when parsing fails. |
| `AssetTransferJs.GetAllAssets` | fabric-samples-/asset-transfer-basic/chaincode-javascript/lib/assetTransfer.js:148-166 | The while loop collects exactly Listing of the scan order. |
| `AssetTransferJs.ListingKeepsEveryValue` | fabric-samples-/asset-transfer-basic/chaincode-javascript/lib/assetTransfer.js:150-164 | The listing has as many entries as the world state has keys. Every stored value, unparsable text included, appears at its key's position. |
| `AssetTransferJs.InitLedgerCount` | fabric-samples-/asset-transfer-basic/chaincode-javascript/lib/assetTransfer.js:17-78 | The five starter ids are distinct, so InitLedger on an empty world state leaves exactly five keys. |
| `AssetTransferJs.InitLedgerThenList` | fabric-samples-/asset-transfer-basic/chaincode-javascript/lib/assetTransfer.js:148-165 | From an empty world state, InitLedger then GetAllAssets lists exactly 5 records, with ids DEALER_1..DEALER_5 and docType "asset". |
| `AssetTransferJs.UpdateIsDeleteThenCreate` | fabric-samples-/asset-transfer-basic/chaincode-javascript/lib/assetTransfer.js:113-118 | Update on an existing id leaves the same state as delete then create with any MPIN argument. Update is a full overwrite, not a merge. |
| `SmartContractGo.ReadAsset` | fabric-samples-/asset-transfer-basic/chaincode-go/chaincode/smartcontract.go:84-100 | "does not exist" exactly when nothing (nil) is stored. A decode error when the bytes do not decode. Otherwise the decoded stored record. No state change. |
| `SmartContractGo.AssetExists` | fabric-samples-/asset-transfer-basic/chaincode-go/chaincode/smartcontract.go:145-152 | True exactly when ReadAsset does not report "does not exist", that is, when the stored value is non-nil. |
| `SmartContractGo.CreateStep` | fabric-samples-/asset-transfer-basic/chaincode-go/chaincode/smartcontract.go:56-80 | On an existing id: "already exists" and no write. Otherwise ReadAsset gives the record with the given fields and MPIN 0, whatever `mpin` is. No other key changes. |
| `SmartContractGo.CreateAsset` | fabric-samples-/asset-transfer-basic/chaincode-go/chaincode/smartcontract.go:56-81 | The handler's result and new world state are those of CreateStep. |
| `SmartContractGo.UpdateStep` | fabric-samples-/asset-transfer-basic/chaincode-go/chaincode/smartcontract.go:103-128 | On a missing id: "does not exist" and no write. Otherwise full overwrite with the given fields and MPIN 0, whatever `mpin` or the old MPIN was. No other key changes. |
| `SmartContractGo.UpdateAsset` | fabric-samples-/asset-transfer-basic/chaincode-go/chaincode/smartcontract.go:103-129 | The handler's result and new world state are those of UpdateStep. |
| `SmartContractGo.DeleteStep` | fabric-samples-/asset-transfer-basic/chaincode-go/chaincode/smartcontract.go:132-141 | On a missing id: "does not exist" and no change. Otherwise the id no longer exists and every other entry is unchanged. |
| `SmartContractGo.DeleteAsset` | fabric-samples-/asset-transfer-basic/chaincode-go/chaincode/smartcontract.go:132-142 | The handler's result and new world state are those of DeleteStep. |
| `SmartContractGo.TransferStep` | fabric-samples-/asset-transfer-basic/chaincode-go/chaincode/smartcontract.go:155-175 | Any ReadAsset error is returned with no write. Otherwise returns the previous DEALER, and the stored record equals the old one with only DEALER replaced by `newDealer`. No other key changes. |
| `SmartContractGo.TransferAsset` | fabric-samples-/asset-transfer-basic/chaincode-go/chaincode/smartcontract.go:155-175 | The handler's result and new world state are those of TransferStep. |
| `SmartContractGo.TransferRoundTrip` | fabric-samples-/asset-transfer-basic/chaincode-go/chaincode/smartcontract.go:161-174 | After a successful transfer, transferring back to the returned dealer restores the world state exactly. |
| `SmartContractGo.TransferExample` | fabric-samples-/asset-transfer-basic/chaincode-go/chaincode/smartcontract.go:161-174 | Transferring an asset held by DEALER1 to DEALER9 returns DEALER1 and stores DEALER9. |
| `SmartContractGo.InitLedger` | fabric-samples-/asset-transfer-basic/chaincode-go/chaincode/smartcontract.go:31-53 | The loop leaves the world state InitLedgerState of the old one. |
| `SmartContractGo.InitLedgerSeeds` | fabric-samples-/asset-transfer-basic/chaincode-go/chaincode/smartcontract.go:31-52 | InitLedger adds exactly the keys DEALER_1..DEALER_5, each holding its starter record. No other key changes. |
| `SmartContractGo.InitLedgerReadsBack` | fabric-samples-/asset-transfer-basic/chaincode-go/chaincode/smartcontract.go:32-50 | Each starter id reads back as the starter record that carries that id. |
| `SmartContractGo.ListAll` | fabric-samples-/asset-transfer-basic/chaincode-go/chaincode/smartcontract.go:187-202 | Succeeds exactly when every scanned value decodes, giving the decoded records in scan order. Otherwise the whole call fails with the decode error. |
| `SmartContractGo.GetAllAssets` | fabric-samples-/asset-transfer-basic/chaincode-go/chaincode/smartcontract.go:178-203 | The HasNext loop returns exactly ListAll of the scan order, stopping at the first undecodable value. |
| `SmartContractGo.ListAllCoversState` | fabric-samples-/asset-transfer-basic/chaincode-go/chaincode/smartcontract.go:187-200 | On success, one record per stored key, each at that key's position. One undecodable stored value makes the whole listing fail. |
| `SmartContractGo.InitLedgerCount` | fabric-samples-/asset-transfer-basic/chaincode-go/chaincode/smartcontract.go:32-52 | The five starter ids are distinct, so InitLedger on an empty world state leaves exactly five keys. |
| `SmartContractGo.InitLedgerThenList` | fabric-samples-/asset-transfer-basic/chaincode-go/chaincode/smartcontract.go:178-202 | From an empty world state, InitLedger then GetAllAssets succeeds with exactly the 5 starter records, keyed DEALER_1..DEALER_5. |
| `SmartContractGo.UpdateIsDeleteThenCreate` | fabric-samples-/asset-transfer-basic/chaincode-go/chaincode/smartcontract.go:112-122 | Update on an existing id leaves the same state as delete then create, whatever the MPIN arguments. Update is a full overwrite. |

## Left out

- Byte-level JSON: the deterministic, key-sorted serialization and `JSON.parse`/`json.Unmarshal` are not modelled. A stored value is the record it encodes, or undecodable text.
- Other JSON shapes: JavaScript text that parses to something other than an asset object counts as a record or as raw text, never as a third kind. So does Go's lenient decoding, where missing fields become zero and extra fields are ignored.
- Return types: the JavaScript handlers return text, and the model returns the values that text encodes:
  - ReadAsset returns the stored text. The model returns the stored `Value`.
  - CreateAsset returns `JSON.stringify` of the new object. Its keys are in insertion order, not in the sorted order of the stored text. The model returns the `Asset` record.
  - GetAllAssets returns `JSON.stringify` of the collected entries. The model returns the `seq<Value>` of those entries.
- Host storage failures are not modelled: errors from getState, putState, deleteState and the range scan, and their propagation. Storage always succeeds here. The iterator object and `Close` are left out too.
- Go `json.Marshal` errors are left out, because marshalling an `Asset` struct cannot fail.
- Framework: `async`/`await`, the `Contract` and `contractapi.Contract` base classes, and transaction dispatch are not modelled. Handlers run one at a time.
- JavaScript typing: arguments arrive as strings, so BALANCE and the other numbers are strings on create and update. They are numbers in the seed data. Every field has one fixed type here.
- `console.log` in the JavaScript listing is left out.
- Host key order: the range scan's order is a parameter that lists each stored key once. The host's lexicographic key order is not modelled.
- JavaScript AssetExists returns a boolean here. The source can return a falsy non-boolean (`undefined`/`null`) for an absent key.
- An empty Go listing is modelled as an empty sequence. The source returns a nil slice.

## Findings

| source | as written | input that shows it | evidently intended | confidence | as-written member | corrected member |
|---|---|---|---|---|---|---|
| fabric-samples-/asset-transfer-basic/chaincode-javascript/lib/assetTransfer.js:141-144 | `asset.DEALER = newDEALER` reads an identifier declared nowhere, so TransferAsset throws ReferenceError before its putState. It also returns the undeclared `oldDealer` instead of `oldOwner`. No transfer ever happens. | InitLedger on an empty world state, then TransferAsset("DEALER_1", "DEALER9") | Set DEALER to `newDealer`, store the record, and return the previous dealer (`oldOwner`), as the comment at line 136 and the Go TransferAsset do | not executed; high | `AssetTransferJs.TransferOfSeededDealerFaults` | `AssetTransferJs.CorrectedTransferStep` |
