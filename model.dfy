/** The service's records and their decoders, `BlockChainDB.Model` (BRBlockChainDB.swift,
    lines 118-456). Each decoder turns one JSON object into one record: a required key that is
    missing or holds the wrong kind of value makes the record absent; an optional key may be
    absent without failing it. */
module Model {
  import opened Wrappers
  import opened Json

  // ---------------------------------------------------------------------------------------
  // Blockchain

  datatype Blockchain = Blockchain(
    id: string,
    name: string,
    network: string,
    isMainnet: bool,
    currency: string,
    blockHeight: UInt64)

  /** The lowest block height a decoded blockchain ever reports. */
  const BLOCK_HEIGHT_FLOOR: UInt64 := 575020

  predicate IsBlockchainJson(d: Dict) {
    && HasString(d, "id") && HasString(d, "name") && HasString(d, "network")
    && HasBool(d, "is_mainnet") && HasString(d, "native_currency_id") && HasUInt64(d, "block_height")
  }

  /** `Model.asBlockchain`: the reported height is raised to the floor when it lies below it. */
  function AsBlockchain(d: Dict): (r: Option<Blockchain>)
    ensures r.Some? <==> IsBlockchainJson(d)
    ensures r.Some? ==> r.value.blockHeight >= BLOCK_HEIGHT_FLOOR
    ensures r.Some? && UInt64At(d, "block_height") >= BLOCK_HEIGHT_FLOOR ==> r.value.blockHeight == UInt64At(d, "block_height")
    ensures r.Some? && UInt64At(d, "block_height") < BLOCK_HEIGHT_FLOOR ==> r.value.blockHeight == BLOCK_HEIGHT_FLOOR
    ensures r.Some? ==>
      && d["id"] == JString(r.value.id) && d["name"] == JString(r.value.name)
      && d["network"] == JString(r.value.network) && d["is_mainnet"] == JBool(r.value.isMainnet)
      && d["native_currency_id"] == JString(r.value.currency)
  {
    var id :- AsString(d, "id");
    var name :- AsString(d, "name");
    var network :- AsString(d, "network");
    var isMainnet :- AsBool(d, "is_mainnet");
    var currency :- AsString(d, "native_currency_id");
    var blockHeight :- AsUInt64(d, "block_height");
    Some(Blockchain(id, name, network, isMainnet, currency,
      if blockHeight < BLOCK_HEIGHT_FLOOR then BLOCK_HEIGHT_FLOOR else blockHeight))
  }

  // ---------------------------------------------------------------------------------------
  // Currency and its denominations

  datatype CurrencyDenomination = CurrencyDenomination(name: string, code: string, decimals: UInt8, symbol: string)

  datatype Currency = Currency(
    id: string,
    name: string,
    code: string,
    currencyType: string,
    blockchainId: string,
    address: Option<string>,
    denominations: seq<CurrencyDenomination>)

  /** `Model.currencySymbols`: the two codes that have their own sign. */
  const CURRENCY_SYMBOLS: map<string, string> := map["btc" := "\U{20BF}", "eth" := "\U{039E}"]

  /** `Model.lookupSymbol`: the sign of a currency code, or the code itself. */
  function LookupSymbol(code: string): (r: string)
    ensures code == "btc" ==> r == "\U{20BF}"
    ensures code == "eth" ==> r == "\U{039E}"
    ensures code != "btc" && code != "eth" ==> r == code
  {
    if code in CURRENCY_SYMBOLS then CURRENCY_SYMBOLS[code] else code
  }

  predicate IsDenominationJson(d: Dict) {
    HasString(d, "name") && HasString(d, "short_name") && HasUInt8(d, "decimals")
  }

  /** `Model.asCurrencyDenomination`: the symbol is not read from the JSON but looked up from
      the code. */
  function AsCurrencyDenomination(d: Dict): (r: Option<CurrencyDenomination>)
    ensures r.Some? <==> IsDenominationJson(d)
    ensures r.Some? ==>
      && d["name"] == JString(r.value.name) && d["short_name"] == JString(r.value.code)
      && d["decimals"].mantissa == r.value.decimals * Pow10(d["decimals"].scale)
      && r.value.symbol == LookupSymbol(r.value.code)
  {
    var name :- AsString(d, "name");
    var code :- AsString(d, "short_name");
    var decimals :- AsUInt8(d, "decimals");
    Some(CurrencyDenomination(name, code, decimals, LookupSymbol(code)))
  }

  predicate IsCurrencyJson(d: Dict) {
    HasString(d, "name") && HasString(d, "code") && HasString(d, "type") && HasString(d, "blockchain_id")
  }

  /** `Model.asCurrency`: the id is the name; the address is optional; every denomination must
      decode, else the currency is absent. */
  function AsCurrency(d: Dict): (r: Option<Currency>)
    ensures r.Some? <==>
      && IsCurrencyJson(d) && HasDictArray(d, "denominations")
      && forall i :: 0 <= i < |d["denominations"].items| ==> AsCurrencyDenomination(d["denominations"].items[i].fields).Some?
    ensures r.Some? ==> r.value.id == r.value.name && d["name"] == JString(r.value.name)
    ensures r.Some? ==> d["code"] == JString(r.value.code) && d["type"] == JString(r.value.currencyType)
    ensures r.Some? ==> d["blockchain_id"] == JString(r.value.blockchainId)
    ensures r.Some? ==> r.value.address == AsString(d, "address")
    ensures r.Some? ==>
      && |r.value.denominations| == |d["denominations"].items|
      && forall i :: 0 <= i < |r.value.denominations| ==>
           AsCurrencyDenomination(d["denominations"].items[i].fields) == Some(r.value.denominations[i])
  {
    var name :- AsString(d, "name");
    var code :- AsString(d, "code");
    var currencyType :- AsString(d, "type");
    var blockchainId :- AsString(d, "blockchain_id");
    var address := AsString(d, "address");
    var items :- AsArray(d, "denominations");
    var denominations :- MapAll(items, AsCurrencyDenomination);
    Some(Currency(name, name, code, currencyType, blockchainId, address, denominations))
  }

  // ---------------------------------------------------------------------------------------
  // Transfer

  datatype Transfer = Transfer(
    id: string,
    source: Option<string>,
    target: Option<string>,
    amountValue: string,
    amountCurrency: string,
    acknowledgements: UInt64,
    index: UInt64,
    transactionId: Option<string>,
    blockchainId: string)

  predicate IsTransferJson(d: Dict) {
    && HasString(d, "transfer_id") && HasString(d, "blockchain_id")
    && HasUInt64(d, "acknowledgements") && HasUInt64(d, "index")
    && HasDict(d, "amount") && HasString(d["amount"].fields, "amount")
    && HasString(d["amount"].fields, "currency_id")
  }

  /** `Model.asTransfer`: the amount is a nested object with its own two required strings. */
  function AsTransfer(d: Dict): (r: Option<Transfer>)
    ensures r.Some? <==> IsTransferJson(d)
    ensures r.Some? ==>
      && d["transfer_id"] == JString(r.value.id) && d["blockchain_id"] == JString(r.value.blockchainId)
      && r.value.acknowledgements == UInt64At(d, "acknowledgements") && r.value.index == UInt64At(d, "index")
      && d["amount"].fields["amount"] == JString(r.value.amountValue)
      && d["amount"].fields["currency_id"] == JString(r.value.amountCurrency)
    ensures r.Some? ==>
      && r.value.source == AsString(d, "from_address") && r.value.target == AsString(d, "to_address")
      && r.value.transactionId == AsString(d, "transaction_id")
  {
    var id :- AsString(d, "transfer_id");
    var blockchainId :- AsString(d, "blockchain_id");
    var acknowledgements :- AsUInt64(d, "acknowledgements");
    var index :- AsUInt64(d, "index");
    var amount :- AsDict(d, "amount");
    var amountValue :- AsString(amount, "amount");
    var amountCurrency :- AsString(amount, "currency_id");
    Some(Transfer(id, AsString(d, "from_address"), AsString(d, "to_address"), amountValue, amountCurrency,
      acknowledgements, index, AsString(d, "transaction_id"), blockchainId))
  }

  // ---------------------------------------------------------------------------------------
  // Transaction

  datatype Transaction = Transaction(
    id: string,
    blockchainId: string,
    hash: string,
    identifier: string,
    blockHash: Option<string>,
    blockHeight: Option<UInt64>,
    index: Option<UInt64>,
    confirmations: Option<UInt64>,
    status: string,
    size: UInt64,
    timestamp: Option<Date>,
    firstSeen: Date,
    raw: Option<Bytes>,
    transfers: seq<Transfer>,
    acknowledgements: UInt64)

  /** The first guard of `asTransaction`: the required scalar fields. */
  predicate IsTransactionJson(fmt: Formats, d: Dict) {
    && HasString(d, "transaction_id") && HasString(d, "blockchain_id") && HasString(d, "hash")
    && HasString(d, "identifier") && HasString(d, "status") && HasUInt64(d, "size")
    && AsDate(fmt, d, "first_seen").Some? && HasUInt64(d, "acknowledgements")
  }

  /** Every embedded transfer decodes. */
  predicate AllTransfersDecode(d: Dict)
    requires HasDictArray(d, "transfers")
  {
    forall i :: 0 <= i < |d["transfers"].items| ==> AsTransfer(d["transfers"].items[i].fields).Some?
  }

  /** The record `asTransaction` builds once all its guards have passed. */
  function TransactionOf(fmt: Formats, d: Dict, transfers: seq<Transfer>): Transaction
    requires IsTransactionJson(fmt, d)
  {
    Transaction(StringAt(d, "transaction_id"), StringAt(d, "blockchain_id"), StringAt(d, "hash"),
      StringAt(d, "identifier"), AsString(d, "block_hash"), AsUInt64(d, "block_height"),
      AsUInt64(d, "index"), AsUInt64(d, "confirmations"), StringAt(d, "status"), UInt64At(d, "size"),
      AsDate(fmt, d, "timestamp"), AsDate(fmt, d, "first_seen").value, AsData(fmt, d, "raw"),
      transfers, UInt64At(d, "acknowledgements"))
  }

  /** `Model.asTransaction` as written: when `transfers` is an array of objects but one of them
      is not a transfer, the forced cast `transfers as! [Transfer]` stops the process; and a
      `raw` string that is not base64 stops it earlier, in `asData`. */
  function AsTransactionAsWritten(fmt: Formats, d: Dict): (r: Run<Option<Transaction>>)
    ensures r.Traps? <==>
      && IsTransactionJson(fmt, d)
      && (|| AsDataAsWritten(fmt, d, "raw").Traps?
          || (HasDictArray(d, "transfers") && !AllTransfersDecode(d)))
    ensures r == Returns(None) <==> !IsTransactionJson(fmt, d) || (AsDataAsWritten(fmt, d, "raw").Returns? && !HasDictArray(d, "transfers"))
  {
    if !IsTransactionJson(fmt, d) then Returns(None)
    else match AsDataAsWritten(fmt, d, "raw")
      case Traps => Traps
      case Returns(_) =>
        match AsArray(d, "transfers")
        case None => Returns(None)
        case Some(items) =>
          match MapAll(items, AsTransfer)
          case None => Traps
          case Some(transfers) => Returns(Some(TransactionOf(fmt, d, transfers)))
  }

  /** `Model.asTransaction` with the forced casts replaced by the guard the rest of the decoder
      uses: the transaction is present exactly when its required fields are, `transfers` is an
      array of objects and every one of them is a transfer. */
  function AsTransaction(fmt: Formats, d: Dict): (r: Option<Transaction>)
    ensures r.Some? <==> IsTransactionJson(fmt, d) && HasDictArray(d, "transfers") && AllTransfersDecode(d)
    ensures r.Some? ==>
      && d["transaction_id"] == JString(r.value.id) && d["blockchain_id"] == JString(r.value.blockchainId)
      && d["hash"] == JString(r.value.hash) && d["identifier"] == JString(r.value.identifier)
      && d["status"] == JString(r.value.status) && r.value.size == UInt64At(d, "size")
      && Some(r.value.firstSeen) == AsDate(fmt, d, "first_seen")
      && r.value.acknowledgements == UInt64At(d, "acknowledgements")
    ensures r.Some? ==>
      && r.value.blockHash == AsString(d, "block_hash") && r.value.blockHeight == AsUInt64(d, "block_height")
      && r.value.index == AsUInt64(d, "index") && r.value.confirmations == AsUInt64(d, "confirmations")
      && r.value.timestamp == AsDate(fmt, d, "timestamp") && r.value.raw == AsData(fmt, d, "raw")
    ensures r.Some? ==>
      && |r.value.transfers| == |d["transfers"].items|
      && forall i :: 0 <= i < |r.value.transfers| ==> AsTransfer(d["transfers"].items[i].fields) == Some(r.value.transfers[i])
  {
    if !IsTransactionJson(fmt, d) then None
    else
      var items :- AsArray(d, "transfers");
      var transfers :- MapAll(items, AsTransfer);
      Some(TransactionOf(fmt, d, transfers))
  }

  /** Wherever the as-written decoder returns, it returns what the corrected one does; the two
      differ only where the as-written one stops the process. */
  lemma AsTransactionAgreesUnlessTrap(fmt: Formats, d: Dict)
    ensures AsTransactionAsWritten(fmt, d).Returns? ==> AsTransactionAsWritten(fmt, d).value == AsTransaction(fmt, d)
    ensures AsTransactionAsWritten(fmt, d).Traps? ==> AsTransaction(fmt, d).None? || AsData(fmt, d, "raw").None?
  {
    AsDataAgreesUnlessTrap(fmt, d, "raw");
  }

  /** A transaction whose required fields are all present and whose single embedded transfer is
      an empty object: as written, the process stops; corrected, the transaction is absent. */
  lemma AsTransactionTrapWitness()
    ensures var fmt := Formats(s => Some(Date(0)), s => Some([]));
            var d := map[
              "transaction_id" := JString("t"), "blockchain_id" := JString("b"), "hash" := JString("h"),
              "identifier" := JString("i"), "status" := JString("s"), "size" := JNumber(1, 0),
              "first_seen" := JString("f"), "acknowledgements" := JNumber(0, 0),
              "transfers" := JArray([JObject(map[])])];
            AsTransactionAsWritten(fmt, d) == Traps && AsTransaction(fmt, d) == None
  {
  }

  // ---------------------------------------------------------------------------------------
  // Block

  datatype Block = Block(
    id: string,
    blockchainId: string,
    hash: string,
    height: UInt64,
    header: Option<string>,
    raw: Option<Bytes>,
    mined: Date,
    size: UInt64,
    prevHash: Option<string>,
    nextHash: Option<string>,
    transactions: Option<seq<Transaction>>,
    acknowledgements: UInt64)

  predicate IsBlockJson(fmt: Formats, d: Dict) {
    && HasString(d, "block_id") && HasString(d, "blockchain_id") && HasString(d, "hash")
    && HasUInt64(d, "height") && AsDate(fmt, d, "mined").Some? && HasUInt64(d, "size")
    && HasUInt64(d, "acknowledgements")
  }

  /** The `transactions` key holds an array of objects that all decode as transactions. */
  predicate HasDecodableTransactions(fmt: Formats, d: Dict) {
    && HasDictArray(d, "transactions")
    && forall i :: 0 <= i < |d["transactions"].items| ==> AsTransaction(fmt, d["transactions"].items[i].fields).Some?
  }

  /** `Model.asBlock`: the embedded transactions are cast conditionally (`as? [Transaction]`),
      so any failure among them makes the field absent, never the block. */
  function AsBlock(fmt: Formats, d: Dict): (r: Option<Block>)
    ensures r.Some? <==> IsBlockJson(fmt, d)
    ensures r.Some? ==> (r.value.transactions.Some? <==> HasDecodableTransactions(fmt, d))
    ensures r.Some? && r.value.transactions.Some? ==>
      && |r.value.transactions.value| == |d["transactions"].items|
      && forall i :: 0 <= i < |r.value.transactions.value| ==>
           AsTransaction(fmt, d["transactions"].items[i].fields) == Some(r.value.transactions.value[i])
    ensures r.Some? ==>
      && d["block_id"] == JString(r.value.id) && d["blockchain_id"] == JString(r.value.blockchainId)
      && d["hash"] == JString(r.value.hash) && r.value.height == UInt64At(d, "height")
      && Some(r.value.mined) == AsDate(fmt, d, "mined") && r.value.size == UInt64At(d, "size")
      && r.value.acknowledgements == UInt64At(d, "acknowledgements")
    ensures r.Some? ==>
      && r.value.header == AsString(d, "header") && r.value.raw == AsData(fmt, d, "raw")
      && r.value.prevHash == AsString(d, "prev_hash") && r.value.nextHash == AsString(d, "next_hash")
  {
    var id :- AsString(d, "block_id");
    var blockchainId :- AsString(d, "blockchain_id");
    var hash :- AsString(d, "hash");
    var height :- AsUInt64(d, "height");
    var mined :- AsDate(fmt, d, "mined");
    var size :- AsUInt64(d, "size");
    var acknowledgements :- AsUInt64(d, "acknowledgements");
    var transactions :=
      match AsArray(d, "transactions")
      case None => None
      case Some(items) => MapAll(items, (t: Dict) => AsTransaction(fmt, t));
    Some(Block(id, blockchainId, hash, height, AsString(d, "header"), AsData(fmt, d, "raw"), mined, size,
      AsString(d, "prev_hash"), AsString(d, "next_hash"), transactions, acknowledgements))
  }

  /** A block whose `transactions` key is missing and the same block with `transactions: []`
      both decode, and they stay distinguishable: absent versus present and empty. */
  lemma BlockTransactionsMissingVersusEmpty(fmt: Formats, d: Dict)
    requires IsBlockJson(fmt, d)
    ensures AsBlock(fmt, d - {"transactions"}).Some?
    ensures AsBlock(fmt, d - {"transactions"}).value.transactions == None
    ensures AsBlock(fmt, d["transactions" := JArray([])]).Some?
    ensures AsBlock(fmt, d["transactions" := JArray([])]).value.transactions == Some([])
  {
  }

  // ---------------------------------------------------------------------------------------
  // Wallet

  datatype WalletCurrency = WalletCurrency(currency: string, addresses: seq<string>)

  datatype Wallet = Wallet(id: string, created: Date, currencies: seq<WalletCurrency>)

  /** `Model.asWalletCurrency`: the currency is required; addresses that are missing or not an
      array of strings read as none. */
  function AsWalletCurrency(d: Dict): (r: Option<WalletCurrency>)
    ensures r.Some? <==> HasString(d, "currency_id")
    ensures r.Some? ==> d["currency_id"] == JString(r.value.currency)
    ensures r.Some? && HasStringArray(d, "addresses") ==> d["addresses"] == StringsToJson(r.value.addresses)
    ensures r.Some? && !HasStringArray(d, "addresses") ==> r.value.addresses == []
  {
    var currency :- AsString(d, "currency_id");
    Some(WalletCurrency(currency, AsStringArray(d, "addresses").GetOr([])))
  }

  /** `Model.asJSON(walletCurrency:)`: the object `createWallet` sends. */
  function WalletCurrencyToJson(wc: WalletCurrency): (d: Dict)
    ensures d.Keys == {"currency_id", "addresses"}
    ensures d["currency_id"] == JString(wc.currency)
    ensures AsStringArray(d, "addresses") == Some(wc.addresses)
  {
    var d := map["currency_id" := JString(wc.currency), "addresses" := StringsToJson(wc.addresses)];
    StringArrayRoundTrip(wc.addresses, d, "addresses");
    d
  }

  /** Serialising a wallet currency and parsing it back gives it unchanged. */
  lemma WalletCurrencyRoundTrip(wc: WalletCurrency)
    ensures AsWalletCurrency(WalletCurrencyToJson(wc)) == Some(wc)
  {
    var d := WalletCurrencyToJson(wc);
    StringArrayRoundTrip(wc.addresses, d, "addresses");
  }

  /** `Model.asWallet`: `currencies` that is missing, not an array of objects, or holds one
      object that is not a wallet currency collapses to the empty list; the wallet still decodes. */
  function AsWallet(fmt: Formats, d: Dict): (r: Option<Wallet>)
    ensures r.Some? <==> HasString(d, "wallet_id") && AsDate(fmt, d, "created").Some?
    ensures r.Some? ==> d["wallet_id"] == JString(r.value.id) && Some(r.value.created) == AsDate(fmt, d, "created")
    ensures r.Some? && HasDictArray(d, "currencies")
              && (forall i :: 0 <= i < |d["currencies"].items| ==> AsWalletCurrency(d["currencies"].items[i].fields).Some?)
            ==> |r.value.currencies| == |d["currencies"].items|
                && forall i :: 0 <= i < |r.value.currencies| ==> AsWalletCurrency(d["currencies"].items[i].fields) == Some(r.value.currencies[i])
    ensures r.Some? && !HasDictArray(d, "currencies") ==> r.value.currencies == []
    ensures r.Some? && HasDictArray(d, "currencies")
              && (exists i :: 0 <= i < |d["currencies"].items| && AsWalletCurrency(d["currencies"].items[i].fields).None?)
            ==> r.value.currencies == []
  {
    var id :- AsString(d, "wallet_id");
    var created :- AsDate(fmt, d, "created");
    var currencies :=
      match AsArray(d, "currencies")
      case None => []
      case Some(items) => MapAll(items, AsWalletCurrency).GetOr([]);
    Some(Wallet(id, created, currencies))
  }

  // ---------------------------------------------------------------------------------------
  // Subscription

  datatype SubscriptionEndpoint = SubscriptionEndpoint(environment: string, kind: string, value: string)

  datatype Subscription = Subscription(id: string, wallet: string, device: string, endpoint: SubscriptionEndpoint)

  predicate IsEndpointJson(d: Dict) {
    HasString(d, "environment") && HasString(d, "kind") && HasString(d, "value")
  }

  /** `Model.asSubscriptionEndpoint` */
  function AsSubscriptionEndpoint(d: Dict): (r: Option<SubscriptionEndpoint>)
    ensures r.Some? <==> IsEndpointJson(d)
    ensures r.Some? ==>
      && d["environment"] == JString(r.value.environment) && d["kind"] == JString(r.value.kind)
      && d["value"] == JString(r.value.value)
  {
    var environment :- AsString(d, "environment");
    var kind :- AsString(d, "kind");
    var value :- AsString(d, "value");
    Some(SubscriptionEndpoint(environment, kind, value))
  }

  /** `Model.asSubscription`: the endpoint is a required nested object. */
  function AsSubscription(d: Dict): (r: Option<Subscription>)
    ensures r.Some? <==>
      && HasString(d, "subscription_id") && HasString(d, "wallet_id") && HasString(d, "device_id")
      && HasDict(d, "endpoint") && IsEndpointJson(d["endpoint"].fields)
    ensures r.Some? ==>
      && d["subscription_id"] == JString(r.value.id) && d["wallet_id"] == JString(r.value.wallet)
      && d["device_id"] == JString(r.value.device)
      && AsSubscriptionEndpoint(d["endpoint"].fields) == Some(r.value.endpoint)
  {
    var id :- AsString(d, "subscription_id");
    var wallet :- AsString(d, "wallet_id");
    var device :- AsString(d, "device_id");
    var endpointJson :- AsDict(d, "endpoint");
    var endpoint :- AsSubscriptionEndpoint(endpointJson);
    Some(Subscription(id, wallet, device, endpoint))
  }
}
