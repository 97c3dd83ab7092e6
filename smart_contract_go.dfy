/**
 * The Go asset contract, type SmartContract in
 * asset-transfer-basic/chaincode-go/chaincode/smartcontract.go.
 *
 * As in the JavaScript model, each handler is a method over the transaction's stub,
 * proved against a Step function; the lemmas at the end relate the handlers.
 */
module SmartContractGo {
  import opened Wrappers
  import opened WorldState

  /** The Asset struct: every field is always present, and MPIN is an int. */
  datatype Asset = Asset(
    dealerId: string,
    msisdn: string,
    mpin: int,
    balance: int,
    status: string,
    dealer: string,
    transAmount: int,
    transType: string,
    remarks: string)

  /**
   * A non-nil value as GetState returns it: bytes that json.Unmarshal decodes into
   * an Asset, or bytes it rejects. A key with no value (nil) is a key absent from the map.
   */
  datatype Stored = Encoded(asset: Asset) | Garbled(bytes: string)

  /** The errors the handlers return. */
  datatype Error =
    | AlreadyExists(id: string)  // "the asset <id> already exists"
    | DoesNotExist(id: string)   // "the asset <id> does not exist"
    | DecodeFailure              // the error json.Unmarshal returns

  type State = map<string, Stored>

  /** What a handler returns, and the world state afterwards. */
  datatype Step<T> = Step(result: Result<T, Error>, post: State)

  /** The struct literal CreateAsset and UpdateAsset store: MPIN is left at its zero value. */
  function Fields(id: string, msisdn: string, balance: int, status: string, dealer: string,
                  transAmount: int, transType: string, remarks: string): Asset
  {
    Asset(id, msisdn, 0, balance, status, dealer, transAmount, transType, remarks)
  }

  // ---------------------------------------------------------------------------
  // Queries

  /** ReadAsset: the decoded record; DoesNotExist when nil is stored, DecodeFailure when it does not decode. */
  function ReadAsset(s: State, id: string): (r: Result<Asset, Error>)
    ensures r == Err(DoesNotExist(id)) <==> id !in s
    ensures r.Ok? ==> id in s && s[id] == Encoded(r.value)
    ensures id in s && s[id].Encoded? ==> r == Ok(s[id].asset)
    ensures id in s && s[id].Garbled? ==> r == Err(DecodeFailure)
  {
    if id !in s then Err(DoesNotExist(id))
    else match s[id]
      case Garbled(_) => Err(DecodeFailure)
      case Encoded(asset) => Ok(asset)
  }

  /** AssetExists: a non-nil value is stored, exactly when ReadAsset does not report DoesNotExist. */
  function AssetExists(s: State, id: string): (b: bool)
    ensures b <==> ReadAsset(s, id) != Err(DoesNotExist(id))
  {
    id in s
  }

  // ---------------------------------------------------------------------------
  // Specifications of the handlers that write

  /** CreateAsset: refuses an id that exists; otherwise stores the record with MPIN 0, whatever mpin is. */
  function CreateStep(s: State, id: string, msisdn: string, mpin: int, balance: int, status: string,
                      dealer: string, transAmount: int, transType: string, remarks: string): (o: Step<()>)
    ensures AssetExists(s, id) ==> o == Step(Err(AlreadyExists(id)), s)
    ensures !AssetExists(s, id) ==>
      && o.result == Ok(())
      && ReadAsset(o.post, id) == Ok(Asset(id, msisdn, 0, balance, status, dealer, transAmount, transType, remarks))
      && o.post - {id} == s - {id}
  {
    if AssetExists(s, id) then Step(Err(AlreadyExists(id)), s)
    else Step(Ok(()), s[id := Encoded(Fields(id, msisdn, balance, status, dealer, transAmount, transType, remarks))])
  }

  /** UpdateAsset: refuses an id that does not exist; otherwise overwrites the whole record, MPIN becoming 0. */
  function UpdateStep(s: State, id: string, msisdn: string, mpin: int, balance: int, status: string,
                      dealer: string, transAmount: int, transType: string, remarks: string): (o: Step<()>)
    ensures !AssetExists(s, id) ==> o == Step(Err(DoesNotExist(id)), s)
    ensures AssetExists(s, id) ==>
      && o.result == Ok(())
      && ReadAsset(o.post, id) == Ok(Asset(id, msisdn, 0, balance, status, dealer, transAmount, transType, remarks))
      && o.post - {id} == s - {id}
  {
    if !AssetExists(s, id) then Step(Err(DoesNotExist(id)), s)
    else Step(Ok(()), s[id := Encoded(Fields(id, msisdn, balance, status, dealer, transAmount, transType, remarks))])
  }

  /** DeleteAsset: refuses an id that does not exist; otherwise removes the key. */
  function DeleteStep(s: State, id: string): (o: Step<()>)
    ensures !AssetExists(s, id) ==> o == Step(Err(DoesNotExist(id)), s)
    ensures AssetExists(s, id) ==>
      && o.result == Ok(())
      && !AssetExists(o.post, id)
      && o.post.Keys == s.Keys - {id}
      && forall k :: k in o.post ==> o.post[k] == s[k]
  {
    if !AssetExists(s, id) then Step(Err(DoesNotExist(id)), s)
    else Step(Ok(()), s - {id})
  }

  /** TransferAsset: any error of ReadAsset with no write; otherwise DEALER replaced and the previous DEALER returned. */
  function TransferStep(s: State, id: string, newDealer: string): (o: Step<string>)
    ensures ReadAsset(s, id).Err? ==> o == Step(Err(ReadAsset(s, id).error), s)
    ensures ReadAsset(s, id).Ok? ==>
      && o.result == Ok(ReadAsset(s, id).value.dealer)
      && ReadAsset(o.post, id) == Ok(ReadAsset(s, id).value.(dealer := newDealer))
      && o.post - {id} == s - {id}
  {
    match ReadAsset(s, id)
    case Err(e) => Step(Err(e), s)
    case Ok(asset) => Step(Ok(asset.dealer), s[id := Encoded(asset.(dealer := newDealer))])
  }

  // ---------------------------------------------------------------------------
  // InitLedger

  /** The five starter records of InitLedger. */
  function SeedAssets(): seq<Asset>
  {
    [ Asset("DEALER_1", "+910000000001", 1000, 1000, "ACTIVE", "DEALER1", 10, "TO", "ADD REMARKS HERE"),
      Asset("DEALER_2", "+91000000002", 1001, 1000, "ACTIVE", "DEALER2", 10, "TO", "ADD REMARKS HERE"),
      Asset("DEALER_3", "+910000000003", 1003, 1000, "ACTIVE", "DEALER3", 10, "TO", "ADD REMARKS HERE"),
      Asset("DEALER_4", "+910000000004", 1004, 1000, "ACTIVE", "DEALER4", 10, "TO", "ADD REMARKS HERE"),
      Asset("DEALER_5", "+910000000005", 1005, 1000, "ACTIVE", "DEALER5", 10, "TO", "ADD REMARKS HERE") ]
  }

  const SeedIds: set<string> := {"DEALER_1", "DEALER_2", "DEALER_3", "DEALER_4", "DEALER_5"}

  /** The PutState calls of InitLedger, in order. */
  function SeedWrites(): seq<(string, Stored)>
  {
    var seeds := SeedAssets();
    seq(|seeds|, i requires 0 <= i < |seeds| => (seeds[i].dealerId, Encoded(seeds[i])))
  }

  /** The world state InitLedger leaves. */
  function InitLedgerState(s: State): State
  {
    PutAll(s, SeedWrites())
  }

  // ---------------------------------------------------------------------------
  // Listing

  /**
   * What GetAllAssets returns, scanning the keys in the given order: every decoded
   * record, or DecodeFailure as soon as one value does not decode.
   */
  function ListAll(s: State, order: seq<string>): (r: Result<seq<Asset>, Error>)
    requires forall i :: 0 <= i < |order| ==> order[i] in s
    ensures r.Ok? <==> forall i :: 0 <= i < |order| ==> s[order[i]].Encoded?
    ensures r.Err? ==> r.error == DecodeFailure
    ensures r.Ok? ==> |r.value| == |order| && forall i :: 0 <= i < |order| ==> s[order[i]] == Encoded(r.value[i])
  {
    if order == [] then Ok([])
    else match s[order[0]]
      case Garbled(_) => Err(DecodeFailure)
      case Encoded(asset) =>
        match ListAll(s, order[1..])
        case Err(e) => Err(e)
        case Ok(rest) => Ok([asset] + rest)
  }

  // ---------------------------------------------------------------------------
  // The handlers

  method InitLedger(stub: Stub<Stored>)
    modifies stub
    ensures stub.entries == InitLedgerState(old(stub.entries))
  {
    var assets := SeedAssets();
    for i := 0 to |assets|
      invariant stub.entries == PutAll(old(stub.entries), SeedWrites()[..i])
    {
      var asset := assets[i];
      stub.PutState(asset.dealerId, Encoded(asset));
      assert SeedWrites()[..i + 1][..i] == SeedWrites()[..i];
    }
    assert SeedWrites()[..|assets|] == SeedWrites();
  }

  method CreateAsset(stub: Stub<Stored>, id: string, msisdn: string, mpin: int, balance: int, status: string,
                     dealer: string, transAmount: int, transType: string, remarks: string)
    returns (r: Result<(), Error>)
    modifies stub
    ensures Step(r, stub.entries)
            == CreateStep(old(stub.entries), id, msisdn, mpin, balance, status, dealer, transAmount, transType, remarks)
  {
    var present := AssetExists(stub.entries, id);
    if present {
      return Err(AlreadyExists(id));
    }
    var asset := Fields(id, msisdn, balance, status, dealer, transAmount, transType, remarks);
    stub.PutState(id, Encoded(asset));
    return Ok(());
  }

  method UpdateAsset(stub: Stub<Stored>, id: string, msisdn: string, mpin: int, balance: int, status: string,
                     dealer: string, transAmount: int, transType: string, remarks: string)
    returns (r: Result<(), Error>)
    modifies stub
    ensures Step(r, stub.entries)
            == UpdateStep(old(stub.entries), id, msisdn, mpin, balance, status, dealer, transAmount, transType, remarks)
  {
    var present := AssetExists(stub.entries, id);
    if !present {
      return Err(DoesNotExist(id));
    }
    var asset := Fields(id, msisdn, balance, status, dealer, transAmount, transType, remarks);
    stub.PutState(id, Encoded(asset));
    return Ok(());
  }

  method DeleteAsset(stub: Stub<Stored>, id: string) returns (r: Result<(), Error>)
    modifies stub
    ensures Step(r, stub.entries) == DeleteStep(old(stub.entries), id)
  {
    var present := AssetExists(stub.entries, id);
    if !present {
      return Err(DoesNotExist(id));
    }
    stub.DelState(id);
    return Ok(());
  }

  method TransferAsset(stub: Stub<Stored>, id: string, newDealer: string) returns (r: Result<string, Error>)
    modifies stub
    ensures Step(r, stub.entries) == TransferStep(old(stub.entries), id, newDealer)
  {
    var read := ReadAsset(stub.entries, id);
    if read.Err? {
      return Err(read.error);
    }
    var asset := read.value;
    var oldDealer := asset.dealer;
    asset := asset.(dealer := newDealer);
    stub.PutState(id, Encoded(asset));
    return Ok(oldDealer);
  }

  /** GetAllAssets: every record in scan order, or DecodeFailure as soon as one value does not decode. */
  method GetAllAssets(stub: Stub<Stored>, order: seq<string>) returns (r: Result<seq<Asset>, Error>)
    requires IsScanOrder(order, stub.entries)
    ensures r == ListAll(stub.entries, order)
  {
    var entries := stub.entries;
    var assets: seq<Asset> := [];
    var i := 0;
    while i < |order|
      invariant 0 <= i <= |order|
      invariant |assets| == i
      invariant forall j :: 0 <= j < i ==> entries[order[j]] == Encoded(assets[j])
    {
      var value := entries[order[i]];
      if value.Garbled? {
        return Err(DecodeFailure);
      }
      assets := assets + [value.asset];
      i := i + 1;
    }
    ghost var spec := ListAll(entries, order);
    assert spec.Ok? && |spec.value| == |assets|;
    assert forall j :: 0 <= j < |assets| ==> spec.value[j] == assets[j];
    assert spec.value == assets;
    assert spec == Ok(assets);
    return Ok(assets);
  }

  // ---------------------------------------------------------------------------
  // Properties relating the handlers

  /** InitLedger stores exactly the five starter records under their ids and touches no other key. */
  lemma InitLedgerSeeds(s: State)
    ensures InitLedgerState(s).Keys == s.Keys + SeedIds
    ensures forall k :: k in s && k !in SeedIds ==> InitLedgerState(s)[k] == s[k]
    ensures forall i :: 0 <= i < 5 ==> InitLedgerState(s)[SeedAssets()[i].dealerId] == Encoded(SeedAssets()[i])
  {
    var w := SeedWrites();
    assert w[0].0 == "DEALER_1" && w[1].0 == "DEALER_2" && w[2].0 == "DEALER_3";
    assert w[3].0 == "DEALER_4" && w[4].0 == "DEALER_5";
    assert WrittenKeys(w) == SeedIds;
    assert DistinctKeys(w) by {
      assert "DEALER_1"[7] == '1' && "DEALER_2"[7] == '2' && "DEALER_3"[7] == '3';
      assert "DEALER_4"[7] == '4' && "DEALER_5"[7] == '5';
    }
    PutAllDistinct(s, w);
  }

  /** Every starter id reads back as the starter record that carries that id. */
  lemma InitLedgerReadsBack(s: State)
    ensures forall k :: k in SeedIds ==>
      && ReadAsset(InitLedgerState(s), k).Ok?
      && ReadAsset(InitLedgerState(s), k).value.dealerId == k
      && ReadAsset(InitLedgerState(s), k).value in SeedAssets()
  {
    InitLedgerSeeds(s);
    var seeds := SeedAssets();
    forall k | k in SeedIds
      ensures exists i :: 0 <= i < 5 && seeds[i].dealerId == k
    {
      if k == "DEALER_1" { assert seeds[0].dealerId == k; }
      else if k == "DEALER_2" { assert seeds[1].dealerId == k; }
      else if k == "DEALER_3" { assert seeds[2].dealerId == k; }
      else if k == "DEALER_4" { assert seeds[3].dealerId == k; }
      else { assert seeds[4].dealerId == k; }
    }
  }

  /** On an empty world state InitLedger leaves exactly five keys: the starter ids are distinct. */
  lemma InitLedgerCount()
    ensures |InitLedgerState(map[])| == 5
  {
    var w := SeedWrites();
    assert DistinctKeys(w) by {
      assert w[0].0 == "DEALER_1" && w[1].0 == "DEALER_2" && w[2].0 == "DEALER_3";
      assert w[3].0 == "DEALER_4" && w[4].0 == "DEALER_5";
      assert "DEALER_1"[7] == '1' && "DEALER_2"[7] == '2' && "DEALER_3"[7] == '3';
      assert "DEALER_4"[7] == '4' && "DEALER_5"[7] == '5';
    }
    DistinctKeysCount(w);
    PutAllFrame(map[], w);
    assert |InitLedgerState(map[])| == |InitLedgerState(map[]).Keys|;
  }

  /** Starting from an empty world state, InitLedger then GetAllAssets returns the five starter records. */
  lemma InitLedgerThenList(order: seq<string>)
    requires IsScanOrder(order, InitLedgerState(map[]))
    ensures ListAll(InitLedgerState(map[]), order).Ok?
    ensures |ListAll(InitLedgerState(map[]), order).value| == 5
    ensures forall i :: 0 <= i < 5 ==>
      && ListAll(InitLedgerState(map[]), order).value[i].dealerId == order[i]
      && ListAll(InitLedgerState(map[]), order).value[i] in SeedAssets()
    ensures forall k :: k in SeedIds <==> k in order
  {
    var s := InitLedgerState(map[]);
    InitLedgerSeeds(map[]);
    InitLedgerReadsBack(map[]);
    ScanOrderLength(order, s);
    InitLedgerCount();
  }

  /** GetAllAssets returns the record of every stored key, or fails as a whole on one that does not decode. */
  lemma ListAllCoversState(s: State, order: seq<string>)
    requires IsScanOrder(order, s)
    ensures ListAll(s, order).Ok? ==> |ListAll(s, order).value| == |s|
    ensures ListAll(s, order).Ok? ==>
      forall k :: k in s ==> exists i :: 0 <= i < |order| && order[i] == k && s[k] == Encoded(ListAll(s, order).value[i])
    ensures (exists k :: k in s && s[k].Garbled?) ==> ListAll(s, order) == Err(DecodeFailure)
  {
    ScanOrderLength(order, s);
  }

  /** UpdateAsset is DeleteAsset followed by CreateAsset: nothing of the previous record survives. */
  lemma UpdateIsDeleteThenCreate(s: State, id: string, msisdn: string, mpin: int, createPin: int, balance: int,
                                 status: string, dealer: string, transAmount: int, transType: string, remarks: string)
    requires AssetExists(s, id)
    ensures UpdateStep(s, id, msisdn, mpin, balance, status, dealer, transAmount, transType, remarks).post
            == CreateStep(DeleteStep(s, id).post, id, msisdn, createPin, balance, status, dealer, transAmount, transType, remarks).post
  {
  }

  /** Handing the asset back to the dealer TransferAsset returned restores the world state. */
  lemma TransferRoundTrip(s: State, id: string, newDealer: string)
    requires TransferStep(s, id, newDealer).result.Ok?
    ensures var o := TransferStep(s, id, newDealer);
            TransferStep(o.post, id, o.result.value) == Step(Ok(newDealer), s)
  {
  }

  /** Transferring an asset held by DEALER1 to DEALER9 returns DEALER1 and stores DEALER9. */
  lemma TransferExample(s: State, id: string)
    requires ReadAsset(s, id).Ok? && ReadAsset(s, id).value.dealer == "DEALER1"
    ensures TransferStep(s, id, "DEALER9").result == Ok("DEALER1")
    ensures ReadAsset(TransferStep(s, id, "DEALER9").post, id).value.dealer == "DEALER9"
  {
  }
}
