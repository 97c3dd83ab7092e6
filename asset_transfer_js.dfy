/**
 * The JavaScript asset contract, class AssetTransfer in
 * asset-transfer-basic/chaincode-javascript/lib/assetTransfer.js.
 *
 * Each handler is a method over the transaction's stub, proved against a Step
 * function that gives what the handler returns or throws and the world state it
 * leaves. The lemmas at the end relate the handlers to one another.
 */
module AssetTransferJs {
  import opened Wrappers
  import opened WorldState

  /**
   * An asset object as the JavaScript handlers build it. MPIN, REMARKS and docType
   * are properties that some stored objects carry and others lack.
   */
  datatype Asset = Asset(
    dealerId: string,
    msisdn: string,
    mpin: Option<int>,
    balance: int,
    status: string,
    dealer: string,
    transAmount: int,
    transType: string,
    remarks: Option<string>,
    docType: Option<string>)

  /**
   * A value as getState returns it: the deterministic serialization of an asset
   * object, which JSON.parse turns back into that object, or text that JSON.parse
   * rejects. The empty value is Raw("").
   */
  datatype Value = Record(asset: Asset) | Raw(text: string)

  /** The errors the handlers throw. */
  datatype Error =
    | AlreadyExists(id: string)     // "The asset <id> already exists"
    | DoesNotExist(id: string)      // "The asset <id> does not exist"
    | SyntaxError(text: string)     // JSON.parse on text that is not JSON
    | ReferenceError(name: string)  // reading an identifier that is declared nowhere

  type State = map<string, Value>

  /** What a handler returns or throws, and the world state afterwards. */
  datatype Step<T> = Step(result: Result<T, Error>, post: State)

  /** The object literal CreateAsset and UpdateAsset store: no MPIN, no docType. */
  function Fields(id: string, msisdn: string, balance: int, status: string, dealer: string,
                  transAmount: int, transType: string, remarks: string): Asset
  {
    Asset(id, msisdn, None, balance, status, dealer, transAmount, transType, Some(remarks), None)
  }

  // ---------------------------------------------------------------------------
  // Queries

  /** ReadAsset: the stored value, or DoesNotExist when nothing or the empty value is stored. */
  function ReadAsset(s: State, id: string): (r: Result<Value, Error>)
    ensures r.Ok? ==> id in s && r.value == s[id] && r.value != Raw("")
    ensures r.Err? ==> r.error == DoesNotExist(id) && (id in s ==> s[id] == Raw(""))
  {
    if id !in s || s[id] == Raw("") then Err(DoesNotExist(id)) else Ok(s[id])
  }

  /** AssetExists: a non-empty value is stored at id, exactly when ReadAsset succeeds. */
  function AssetExists(s: State, id: string): (b: bool)
    ensures b <==> ReadAsset(s, id).Ok?
  {
    id in s && s[id] != Raw("")
  }

  // ---------------------------------------------------------------------------
  // Specifications of the handlers that write

  /** CreateAsset: refuses an id that exists; otherwise stores the new record under id. */
  function CreateStep(s: State, id: string, msisdn: string, mpin: int, balance: int, status: string,
                      dealer: string, transAmount: int, transType: string, remarks: string): (o: Step<Asset>)
    ensures AssetExists(s, id) ==> o == Step(Err(AlreadyExists(id)), s)
    ensures !AssetExists(s, id) ==>
      && o.result == Ok(Asset(id, msisdn, None, balance, status, dealer, transAmount, transType, Some(remarks), None))
      && ReadAsset(o.post, id) == Ok(Record(o.result.value))
      && o.post - {id} == s - {id}
  {
    if AssetExists(s, id) then Step(Err(AlreadyExists(id)), s)
    else
      var asset := Fields(id, msisdn, balance, status, dealer, transAmount, transType, remarks);
      Step(Ok(asset), s[id := Record(asset)])
  }

  /** UpdateAsset: refuses an id that does not exist; otherwise overwrites the whole record. */
  function UpdateStep(s: State, id: string, msisdn: string, balance: int, status: string,
                      dealer: string, transAmount: int, transType: string, remarks: string): (o: Step<()>)
    ensures !AssetExists(s, id) ==> o == Step(Err(DoesNotExist(id)), s)
    ensures AssetExists(s, id) ==>
      && o.result == Ok(())
      && ReadAsset(o.post, id)
         == Ok(Record(Asset(id, msisdn, None, balance, status, dealer, transAmount, transType, Some(remarks), None)))
      && o.post - {id} == s - {id}
  {
    if !AssetExists(s, id) then Step(Err(DoesNotExist(id)), s)
    else
      var asset := Fields(id, msisdn, balance, status, dealer, transAmount, transType, remarks);
      Step(Ok(()), s[id := Record(asset)])
  }

  /** DeleteAsset: refuses an id that does not exist; otherwise removes the key. */
  function DeleteStep(s: State, id: string): (o: Step<()>)
    ensures !AssetExists(s, id) ==> o == Step(Err(DoesNotExist(id)), s)
    ensures AssetExists(s, id) ==>
      && o.result == Ok(())
      && id !in o.post
      && o.post.Keys == s.Keys - {id}
      && forall k :: k in o.post ==> o.post[k] == s[k]
  {
    if !AssetExists(s, id) then Step(Err(DoesNotExist(id)), s)
    else Step(Ok(()), s - {id})
  }

  /**
   * TransferAsset as written: after ReadAsset and JSON.parse succeed it reads the
   * undeclared identifier newDEALER, so it throws before its putState. It never
   * returns and never writes.
   */
  function TransferStep(s: State, id: string, newDealer: string): (o: Step<string>)
    ensures o.post == s
    ensures o.result.Err?
    ensures o.result.error == DoesNotExist(id) <==> !AssetExists(s, id)
    ensures AssetExists(s, id) && s[id].Raw? ==> o.result.error == SyntaxError(s[id].text)
    ensures AssetExists(s, id) && s[id].Record? ==> o.result.error == ReferenceError("newDEALER")
  {
    match ReadAsset(s, id)
    case Err(e) => Step(Err(e), s)
    case Ok(Raw(text)) => Step(Err(SyntaxError(text)), s)
    case Ok(Record(_)) => Step(Err(ReferenceError("newDEALER")), s)
  }

  /**
   * TransferAsset as its comment and the Go contract intend: replace DEALER and
   * return the previous DEALER. Every other property of the stored object is kept.
   */
  function CorrectedTransferStep(s: State, id: string, newDealer: string): (o: Step<string>)
    ensures !AssetExists(s, id) ==> o == Step(Err(DoesNotExist(id)), s)
    ensures AssetExists(s, id) && s[id].Raw? ==> o == Step(Err(SyntaxError(s[id].text)), s)
    ensures AssetExists(s, id) && s[id].Record? ==>
      && o.result == Ok(s[id].asset.dealer)
      && ReadAsset(o.post, id) == Ok(Record(s[id].asset.(dealer := newDealer)))
      && o.post - {id} == s - {id}
  {
    match ReadAsset(s, id)
    case Err(e) => Step(Err(e), s)
    case Ok(Raw(text)) => Step(Err(SyntaxError(text)), s)
    case Ok(Record(asset)) => Step(Ok(asset.dealer), s[id := Record(asset.(dealer := newDealer))])
  }

  // ---------------------------------------------------------------------------
  // InitLedger

  /** The five starter objects of InitLedger, before docType is set. DEALER_2 has no REMARKS. */
  function SeedAssets(): seq<Asset>
  {
    [ Asset("DEALER_1", "+910000000001", Some(1000), 1000, "ACTIVE", "DEALER1", 10, "TO", Some("ADD REMARKS HERE"), None),
      Asset("DEALER_2", "+91000000002", Some(1001), 1000, "ACTIVE", "DEALER2", 10, "TO", None, None),
      Asset("DEALER_3", "+910000000003", Some(1003), 1000, "ACTIVE", "DEALER3", 10, "TO", Some("ADD REMARKS HERE"), None),
      Asset("DEALER_4", "+910000000004", Some(1004), 1000, "ACTIVE", "DEALER4", 10, "TO", Some("ADD REMARKS HERE"), None),
      Asset("DEALER_5", "+910000000005", Some(1005), 1000, "ACTIVE", "DEALER5", 10, "TO", Some("ADD REMARKS HERE"), None) ]
  }

  const SeedIds: set<string> := {"DEALER_1", "DEALER_2", "DEALER_3", "DEALER_4", "DEALER_5"}

  /** A starter object with its docType set, as the loop of InitLedger stores it. */
  function Tagged(asset: Asset): Asset
  {
    asset.(docType := Some("asset"))
  }

  /** The putState calls of InitLedger, in order. */
  function SeedWrites(): seq<(string, Value)>
  {
    var seeds := SeedAssets();
    seq(|seeds|, i requires 0 <= i < |seeds| => (seeds[i].dealerId, Record(Tagged(seeds[i]))))
  }

  /** The world state InitLedger leaves. */
  function InitLedgerState(s: State): State
  {
    PutAll(s, SeedWrites())
  }

  // ---------------------------------------------------------------------------
  // Listing

  /**
   * What GetAllAssets collects, scanning the keys in the given order: the object
   * JSON.parse gives for a record, and the text itself for a value it rejects.
   */
  function Listing(s: State, order: seq<string>): (r: seq<Value>)
    requires forall i :: 0 <= i < |order| ==> order[i] in s
    ensures |r| == |order|
    ensures forall i :: 0 <= i < |order| ==> r[i] == s[order[i]]
  {
    if order == [] then [] else [s[order[0]]] + Listing(s, order[1..])
  }

  // ---------------------------------------------------------------------------
  // The handlers

  method InitLedger(stub: Stub<Value>)
    modifies stub
    ensures stub.entries == InitLedgerState(old(stub.entries))
  {
    var assets := SeedAssets();
    for i := 0 to |assets|
      invariant stub.entries == PutAll(old(stub.entries), SeedWrites()[..i])
    {
      var asset := assets[i].(docType := Some("asset"));
      stub.PutState(asset.dealerId, Record(asset));
      assert SeedWrites()[..i + 1][..i] == SeedWrites()[..i];
    }
    assert SeedWrites()[..|assets|] == SeedWrites();
  }

  method CreateAsset(stub: Stub<Value>, id: string, msisdn: string, mpin: int, balance: int, status: string,
                     dealer: string, transAmount: int, transType: string, remarks: string)
    returns (r: Result<Asset, Error>)
    modifies stub
    ensures Step(r, stub.entries)
            == CreateStep(old(stub.entries), id, msisdn, mpin, balance, status, dealer, transAmount, transType, remarks)
  {
    var present := AssetExists(stub.entries, id);
    if present {
      return Err(AlreadyExists(id));
    }
    var asset := Fields(id, msisdn, balance, status, dealer, transAmount, transType, remarks);
    stub.PutState(id, Record(asset));
    return Ok(asset);
  }

  method UpdateAsset(stub: Stub<Value>, id: string, msisdn: string, balance: int, status: string,
                     dealer: string, transAmount: int, transType: string, remarks: string)
    returns (r: Result<(), Error>)
    modifies stub
    ensures Step(r, stub.entries)
            == UpdateStep(old(stub.entries), id, msisdn, balance, status, dealer, transAmount, transType, remarks)
  {
    var present := AssetExists(stub.entries, id);
    if !present {
      return Err(DoesNotExist(id));
    }
    var updated := Fields(id, msisdn, balance, status, dealer, transAmount, transType, remarks);
    stub.PutState(id, Record(updated));
    return Ok(());
  }

  method DeleteAsset(stub: Stub<Value>, id: string) returns (r: Result<(), Error>)
    modifies stub
    ensures Step(r, stub.entries) == DeleteStep(old(stub.entries), id)
  {
    var present := AssetExists(stub.entries, id);
    if !present {
      return Err(DoesNotExist(id));
    }
    stub.DelState(id);
    return Ok(());
  }

  /** TransferAsset as written; it has no write to frame, since it throws before reaching one. */
  method TransferAsset(stub: Stub<Value>, id: string, newDealer: string) returns (r: Result<string, Error>)
    ensures r == TransferStep(stub.entries, id, newDealer).result
  {
    var read := ReadAsset(stub.entries, id);
    if read.Err? {
      return Err(read.error);
    }
    match read.value
    case Raw(text) =>
      return Err(SyntaxError(text));
    case Record(asset) =>
      // `asset.DEALER = newDEALER` evaluates newDEALER, which is declared nowhere.
      return Err(ReferenceError("newDEALER"));
  }

  /** TransferAsset with the captured previous dealer and the newDealer argument used throughout. */
  method CorrectedTransferAsset(stub: Stub<Value>, id: string, newDealer: string)
    returns (r: Result<string, Error>)
    modifies stub
    ensures Step(r, stub.entries) == CorrectedTransferStep(old(stub.entries), id, newDealer)
  {
    var read := ReadAsset(stub.entries, id);
    if read.Err? {
      return Err(read.error);
    }
    match read.value
    case Raw(text) =>
      return Err(SyntaxError(text));
    case Record(asset) =>
      var oldDealer := asset.dealer;
      var moved := asset.(dealer := newDealer);
      stub.PutState(id, Record(moved));
      return Ok(oldDealer);
  }

  /** GetAllAssets: one entry per stored key, in scan order; a value JSON.parse rejects is kept as text. */
  method GetAllAssets(stub: Stub<Value>, order: seq<string>) returns (all: seq<Value>)
    requires IsScanOrder(order, stub.entries)
    ensures all == Listing(stub.entries, order)
  {
    all := [];
    var i := 0;
    while i < |order|
      invariant 0 <= i <= |order|
      invariant |all| == i
      invariant forall j :: 0 <= j < i ==> all[j] == stub.entries[order[j]]
    {
      var value := stub.entries[order[i]];
      all := all + [value];
      i := i + 1;
    }
  }

  // ---------------------------------------------------------------------------
  // Properties relating the handlers

  /** InitLedger stores the five starter records, each tagged docType "asset", and touches no other key. */
  lemma InitLedgerSeeds(s: State)
    ensures InitLedgerState(s).Keys == s.Keys + SeedIds
    ensures forall k :: k in s && k !in SeedIds ==> InitLedgerState(s)[k] == s[k]
    ensures forall i :: 0 <= i < 5 ==>
      InitLedgerState(s)[SeedAssets()[i].dealerId] == Record(Tagged(SeedAssets()[i]))
  {
    var w := SeedWrites();
    assert w[0].0 == "DEALER_1" && w[1].0 == "DEALER_2" && w[2].0 == "DEALER_3";
    assert w[3].0 == "DEALER_4" && w[4].0 == "DEALER_5";
    assert WrittenKeys(w) == SeedIds;
    assert DistinctKeys(w) by {
      assert "DEALER_1"[7] == '1' && "DEALER_2"[7] == '2' && "DEALER_3"[7] == '3';
      assert "DEALER_4"[7] == '4' && "DEALER_5"[7] == '5';
    }
    PutAllDistinct(s, w);
  }

  /** Every starter record is stored under its own id with docType "asset"; only DEALER_2 lacks REMARKS. */
  lemma InitLedgerTagsEveryRecord(s: State)
    ensures forall k :: k in SeedIds ==>
      && k in InitLedgerState(s)
      && InitLedgerState(s)[k].Record?
      && InitLedgerState(s)[k].asset.dealerId == k
      && InitLedgerState(s)[k].asset.docType == Some("asset")
      && (InitLedgerState(s)[k].asset.remarks == None <==> k == "DEALER_2")
  {
    InitLedgerSeeds(s);
    var seeds := SeedAssets();
    forall k | k in SeedIds
      ensures exists i :: 0 <= i < 5 && seeds[i].dealerId == k
    {
      if k == "DEALER_1" { assert seeds[0].dealerId == k; }
      else if k == "DEALER_2" { assert seeds[1].dealerId == k; }
      else if k == "DEALER_3" { assert seeds[2].dealerId == k; }
      else if k == "DEALER_4" { assert seeds[3].dealerId == k; }
      else { assert seeds[4].dealerId == k; }
    }
  }

  /** On an empty world state InitLedger leaves exactly five keys: the starter ids are distinct. */
  lemma InitLedgerCount()
    ensures |InitLedgerState(map[])| == 5
  {
    var w := SeedWrites();
    assert DistinctKeys(w) by {
      assert w[0].0 == "DEALER_1" && w[1].0 == "DEALER_2" && w[2].0 == "DEALER_3";
      assert w[3].0 == "DEALER_4" && w[4].0 == "DEALER_5";
      assert "DEALER_1"[7] == '1' && "DEALER_2"[7] == '2' && "DEALER_3"[7] == '3';
      assert "DEALER_4"[7] == '4' && "DEALER_5"[7] == '5';
    }
    DistinctKeysCount(w);
    PutAllFrame(map[], w);
    assert |InitLedgerState(map[])| == |InitLedgerState(map[]).Keys|;
  }

  /** Starting from an empty world state, InitLedger then GetAllAssets lists exactly the five tagged records. */
  lemma InitLedgerThenList(order: seq<string>)
    requires IsScanOrder(order, InitLedgerState(map[]))
    ensures |Listing(InitLedgerState(map[]), order)| == 5
    ensures forall i :: 0 <= i < 5 ==>
      && Listing(InitLedgerState(map[]), order)[i].Record?
      && Listing(InitLedgerState(map[]), order)[i].asset.dealerId == order[i]
      && Listing(InitLedgerState(map[]), order)[i].asset.docType == Some("asset")
    ensures forall k :: k in SeedIds <==> k in order
  {
    var s := InitLedgerState(map[]);
    InitLedgerSeeds(map[]);
    InitLedgerTagsEveryRecord(map[]);
    ScanOrderLength(order, s);
    InitLedgerCount();
  }

  /** GetAllAssets lists every stored value, undecodable text included, once per key. */
  lemma ListingKeepsEveryValue(s: State, order: seq<string>)
    requires IsScanOrder(order, s)
    ensures |Listing(s, order)| == |s|
    ensures forall k :: k in s ==> exists i :: 0 <= i < |order| && order[i] == k && Listing(s, order)[i] == s[k]
  {
    ScanOrderLength(order, s);
  }

  /** UpdateAsset is DeleteAsset followed by CreateAsset: nothing of the previous record survives, MPIN and docType included. */
  lemma UpdateIsDeleteThenCreate(s: State, id: string, msisdn: string, mpin: int, balance: int, status: string,
                                 dealer: string, transAmount: int, transType: string, remarks: string)
    requires AssetExists(s, id)
    ensures UpdateStep(s, id, msisdn, balance, status, dealer, transAmount, transType, remarks).post
            == CreateStep(DeleteStep(s, id).post, id, msisdn, mpin, balance, status, dealer, transAmount, transType, remarks).post
  {
  }

  /** As written, TransferAsset on a starter record throws ReferenceError and leaves the world state as it was. */
  lemma TransferOfSeededDealerFaults()
    ensures TransferStep(InitLedgerState(map[]), "DEALER_1", "DEALER9")
            == Step(Err(ReferenceError("newDEALER")), InitLedgerState(map[]))
  {
    InitLedgerSeeds(map[]);
    assert SeedAssets()[0].dealerId == "DEALER_1";
  }

  /** Corrected TransferAsset: handing the asset back to the dealer it returned restores the world state. */
  lemma CorrectedTransferRoundTrip(s: State, id: string, newDealer: string)
    requires CorrectedTransferStep(s, id, newDealer).result.Ok?
    ensures var o := CorrectedTransferStep(s, id, newDealer);
            CorrectedTransferStep(o.post, id, o.result.value) == Step(Ok(newDealer), s)
  {
  }
}
