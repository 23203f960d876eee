/** The Ethereum side of the client, `BlockChainDB.ETH` (BRBlockChainDB.swift, lines 819-951):
    the three record decoders, the `status`/`message`/`result` envelope of the query proxy
    (lines 1094-1106, 1143-1155 and 1173-1181), and the block-number extraction of
    `getBlocksAsETH` (lines 1192-1266). Every ETH record keeps its values as the strings the
    proxy sends, and carries the request id `rid` it was asked for. */
module Eth {
  import opened Wrappers
  import opened Json
  import opened Query
  import Numerals

  // ---------------------------------------------------------------------------------------
  // Transaction

  datatype EthTransaction = EthTransaction(
    hash: string,
    sourceAddr: string,
    targetAddr: string,
    contractAddr: string,
    amount: string,
    gasLimit: string,
    gasPrice: string,
    data: string,
    nonce: string,
    gasUsed: string,
    blockNumber: string,
    blockHash: string,
    blockConfirmations: string,
    blockTransactionIndex: string,
    blockTimestamp: string,
    isError: string,
    rid: Int32)

  predicate IsEthTransactionJson(d: Dict) {
    && HasString(d, "hash") && HasString(d, "from") && HasString(d, "to")
    && HasString(d, "contractAddress") && HasString(d, "value") && HasString(d, "gas")
    && HasString(d, "gasPrice") && HasString(d, "input") && HasString(d, "nonce")
    && HasString(d, "gasUsed") && HasString(d, "blockNumber") && HasString(d, "blockHash")
    && HasString(d, "confirmations") && HasString(d, "transactionIndex") && HasString(d, "timeStamp")
    && HasString(d, "isError")
  }

  /** `ETH.asTransaction`: sixteen required strings, renamed on the way in. */
  function AsEthTransaction(d: Dict, rid: Int32): (r: Option<EthTransaction>)
    ensures r.Some? <==> IsEthTransactionJson(d)
    ensures r.Some? ==> r.value.rid == rid
    ensures r.Some? ==>
      && d["hash"] == JString(r.value.hash) && d["from"] == JString(r.value.sourceAddr)
      && d["to"] == JString(r.value.targetAddr) && d["contractAddress"] == JString(r.value.contractAddr)
      && d["value"] == JString(r.value.amount) && d["gas"] == JString(r.value.gasLimit)
      && d["gasPrice"] == JString(r.value.gasPrice) && d["input"] == JString(r.value.data)
      && d["nonce"] == JString(r.value.nonce) && d["gasUsed"] == JString(r.value.gasUsed)
      && d["blockNumber"] == JString(r.value.blockNumber) && d["blockHash"] == JString(r.value.blockHash)
      && d["confirmations"] == JString(r.value.blockConfirmations)
      && d["transactionIndex"] == JString(r.value.blockTransactionIndex)
      && d["timeStamp"] == JString(r.value.blockTimestamp) && d["isError"] == JString(r.value.isError)
  {
    var hash :- AsString(d, "hash");
    var sourceAddr :- AsString(d, "from");
    var targetAddr :- AsString(d, "to");
    var contractAddr :- AsString(d, "contractAddress");
    var amount :- AsString(d, "value");
    var gasLimit :- AsString(d, "gas");
    var gasPrice :- AsString(d, "gasPrice");
    var data :- AsString(d, "input");
    var nonce :- AsString(d, "nonce");
    var gasUsed :- AsString(d, "gasUsed");
    var blockNumber :- AsString(d, "blockNumber");
    var blockHash :- AsString(d, "blockHash");
    var blockConfirmations :- AsString(d, "confirmations");
    var blockTransactionIndex :- AsString(d, "transactionIndex");
    var blockTimestamp :- AsString(d, "timeStamp");
    var isError :- AsString(d, "isError");
    Some(EthTransaction(hash, sourceAddr, targetAddr, contractAddr, amount, gasLimit, gasPrice, data,
      nonce, gasUsed, blockNumber, blockHash, blockConfirmations, blockTransactionIndex, blockTimestamp,
      isError, rid))
  }

  /** The object the proxy sends for a transaction, under the wire names. */
  function EthTransactionToJson(t: EthTransaction): (d: Dict)
    ensures IsEthTransactionJson(d)
  {
    map["hash" := JString(t.hash), "from" := JString(t.sourceAddr), "to" := JString(t.targetAddr),
        "contractAddress" := JString(t.contractAddr), "value" := JString(t.amount),
        "gas" := JString(t.gasLimit), "gasPrice" := JString(t.gasPrice), "input" := JString(t.data),
        "nonce" := JString(t.nonce), "gasUsed" := JString(t.gasUsed),
        "blockNumber" := JString(t.blockNumber), "blockHash" := JString(t.blockHash),
        "confirmations" := JString(t.blockConfirmations),
        "transactionIndex" := JString(t.blockTransactionIndex),
        "timeStamp" := JString(t.blockTimestamp), "isError" := JString(t.isError)]
  }

  /** Every transaction the proxy sends is decoded to exactly itself: no field is lost or
      swapped in the renaming. */
  lemma EthTransactionRoundTrip(t: EthTransaction)
    ensures AsEthTransaction(EthTransactionToJson(t), t.rid) == Some(t)
  {
  }

  // ---------------------------------------------------------------------------------------
  // Log

  datatype Log = Log(
    hash: string,
    contract: string,
    topics: seq<string>,
    data: string,
    gasPrice: string,
    gasUsed: string,
    logIndex: string,
    blockNumber: string,
    blockTransactionIndex: string,
    blockTimestamp: string,
    rid: Int32)

  /** `ETH.dropLastIfEmpty`: the service appends an empty string to every `topics` array, and
      this removes it; a list that does not end in "" is kept as it is. */
  function DropLastIfEmpty(strings: Option<seq<string>>): (r: Option<seq<string>>)
    ensures r.Some? <==> strings.Some?
    ensures r.Some? ==> strings.value == r.value || strings.value == r.value + [""]
    ensures r.Some? && strings.value != [] && strings.value[|strings.value| - 1] == "" ==> |r.value| == |strings.value| - 1
  {
    match strings
    case None => None
    case Some(ss) => if ss != [] && ss[|ss| - 1] == "" then Some(ss[..|ss| - 1]) else Some(ss)
  }

  /** Exactly one trailing "" goes: what the service appended is removed, and an empty topic the
      log itself ends with survives. */
  lemma DropLastIfEmptyUndoesAppend(ss: seq<string>)
    ensures DropLastIfEmpty(Some(ss + [""])) == Some(ss)
    ensures ss == [] || ss[|ss| - 1] != "" ==> DropLastIfEmpty(Some(ss)) == Some(ss)
  {
  }

  predicate IsLogJson(d: Dict) {
    && HasString(d, "transactionHash") && HasString(d, "address") && HasStringArray(d, "topics")
    && HasString(d, "data") && HasString(d, "gasPrice") && HasString(d, "gasUsed")
    && HasString(d, "logIndex") && HasString(d, "blockNumber") && HasString(d, "transactionIndex")
    && HasString(d, "timeStamp")
  }

  /** `ETH.asLog`: ten required fields; `topics` loses the trailing "" the service adds. */
  function AsLog(d: Dict, rid: Int32): (r: Option<Log>)
    ensures r.Some? <==> IsLogJson(d)
    ensures r.Some? ==> r.value.rid == rid
    ensures r.Some? ==> Some(r.value.topics) == DropLastIfEmpty(AsStringArray(d, "topics"))
    ensures r.Some? ==>
      && d["transactionHash"] == JString(r.value.hash) && d["address"] == JString(r.value.contract)
      && d["data"] == JString(r.value.data) && d["gasPrice"] == JString(r.value.gasPrice)
      && d["gasUsed"] == JString(r.value.gasUsed) && d["logIndex"] == JString(r.value.logIndex)
      && d["blockNumber"] == JString(r.value.blockNumber)
      && d["transactionIndex"] == JString(r.value.blockTransactionIndex)
      && d["timeStamp"] == JString(r.value.blockTimestamp)
  {
    var hash :- AsString(d, "transactionHash");
    var contract :- AsString(d, "address");
    var topics :- DropLastIfEmpty(AsStringArray(d, "topics"));
    var data :- AsString(d, "data");
    var gasPrice :- AsString(d, "gasPrice");
    var gasUsed :- AsString(d, "gasUsed");
    var logIndex :- AsString(d, "logIndex");
    var blockNumber :- AsString(d, "blockNumber");
    var blockTransactionIndex :- AsString(d, "transactionIndex");
    var blockTimestamp :- AsString(d, "timeStamp");
    Some(Log(hash, contract, topics, data, gasPrice, gasUsed, logIndex, blockNumber,
      blockTransactionIndex, blockTimestamp, rid))
  }

  /** The object the proxy sends for a log, with the "" it appends to `topics`. */
  function LogToJson(l: Log): (d: Dict)
    ensures IsLogJson(d)
  {
    map["transactionHash" := JString(l.hash), "address" := JString(l.contract),
        "topics" := StringsToJson(l.topics + [""]), "data" := JString(l.data),
        "gasPrice" := JString(l.gasPrice), "gasUsed" := JString(l.gasUsed),
        "logIndex" := JString(l.logIndex), "blockNumber" := JString(l.blockNumber),
        "transactionIndex" := JString(l.blockTransactionIndex), "timeStamp" := JString(l.blockTimestamp)]
  }

  /** Every log the proxy sends is decoded to exactly itself, topics included. */
  lemma LogRoundTrip(l: Log)
    ensures AsLog(LogToJson(l), l.rid) == Some(l)
  {
    var d := LogToJson(l);
    StringArrayRoundTrip(l.topics + [""], d, "topics");
    DropLastIfEmptyUndoesAppend(l.topics);
  }

  // ---------------------------------------------------------------------------------------
  // Token

  datatype Token = Token(
    address: string,
    symbol: string,
    name: string,
    description: string,
    decimals: UInt32,
    defaultGasLimit: Option<string>,
    defaultGasPrice: Option<string>,
    rid: Int32)

  predicate IsTokenJson(d: Dict) {
    HasString(d, "name") && HasString(d, "code") && HasString(d, "contract_address") && HasUInt8(d, "scale")
  }

  /** `ETH.asToken`: a currency of the service read as an ERC20 token. The scale must fit in
      8 bits; the description is made from the symbol and no gas defaults are known. */
  function AsToken(d: Dict, rid: Int32): (r: Option<Token>)
    ensures r.Some? <==> IsTokenJson(d)
    ensures r.Some? ==>
      && d["name"] == JString(r.value.name) && d["code"] == JString(r.value.symbol)
      && d["contract_address"] == JString(r.value.address)
      && d["scale"].mantissa == r.value.decimals * Pow10(d["scale"].scale)
    ensures r.Some? ==> r.value.decimals < UINT8_LIMIT
    ensures r.Some? ==> r.value.description == "Token for '" + r.value.symbol + "'"
    ensures r.Some? ==> r.value.defaultGasLimit.None? && r.value.defaultGasPrice.None? && r.value.rid == rid
  {
    var name :- AsString(d, "name");
    var symbol :- AsString(d, "code");
    var address :- AsString(d, "contract_address");
    var decimals :- AsUInt8(d, "scale");
    Some(Token(address, symbol, name, "Token for '" + symbol + "'", decimals, None, None, rid))
  }

  /** A scale of 256 or more, or a fractional one, rejects the token rather than truncating it. */
  lemma TokenScaleMustFit(d: Dict, rid: Int32, scale: int)
    requires HasString(d, "name") && HasString(d, "code") && HasString(d, "contract_address")
    requires scale >= UINT8_LIMIT || scale < 0
    ensures AsToken(d["scale" := JNumber(scale, 0)], rid).None?
    ensures AsToken(d["scale" := JNumber(181, 1)], rid).None?
  {
  }

  // ---------------------------------------------------------------------------------------
  // The query proxy's envelope

  const MISSED_ENVELOPE: string := "Missed {status, message, result"
  const TRANSACTION_PARSE_ERROR: string := "ETH.Transaction parse error"
  const LOG_PARSE_ERROR: string := "ETH.Log parse error"
  const TOKENS_PARSE_ERROR: string := "ETH.Tokens parse error"

  predicate IsEnvelope(body: Dict) {
    HasString(body, "status") && HasString(body, "message") && HasDictArray(body, "result")
  }

  /** The records of one proxy answer: a request error passes through; a body without the string
      `status` and `message` and the object array `result` is a model error; one element that does
      not decode fails the whole answer with `parseError`. */
  function EthRecords<T>(res: Result<Dict, QueryError>, decode: Dict -> Option<T>, parseError: string): (r: Result<seq<T>, QueryError>)
    ensures res.Err? ==> r == Err(res.error)
    ensures res.Ok? && !IsEnvelope(res.value) ==> r == Err(ModelError(MISSED_ENVELOPE))
    ensures r.Ok? <==>
      && res.Ok? && IsEnvelope(res.value)
      && forall i :: 0 <= i < |res.value["result"].items| ==> decode(res.value["result"].items[i].fields).Some?
    ensures res.Ok? && IsEnvelope(res.value) && r.Err? ==> r.error == ModelError(parseError)
    ensures r.Ok? ==>
      && |r.value| == |res.value["result"].items|
      && forall i :: 0 <= i < |r.value| ==> decode(res.value["result"].items[i].fields) == Some(r.value[i])
  {
    match res
    case Err(e) => Err(e)
    case Ok(body) =>
      if AsString(body, "status").None? || AsString(body, "message").None? || AsArray(body, "result").None?
      then Err(ModelError(MISSED_ENVELOPE))
      else
        var result := AsArray(body, "result").value;
        match MapAll(result, decode)
        case None => Err(ModelError(parseError))
        case Some(records) => Ok(records)
  }

  function EthTransactionDecoder(rid: Int32): Dict -> Option<EthTransaction> {
    (d: Dict) => AsEthTransaction(d, rid)
  }

  function LogDecoder(rid: Int32): Dict -> Option<Log> {
    (d: Dict) => AsLog(d, rid)
  }

  /** What `getTransactionsAsETH` hands to `each`, or its failure. */
  function EthTransactions(res: Result<Dict, QueryError>, rid: Int32): Result<seq<EthTransaction>, QueryError> {
    EthRecords(res, EthTransactionDecoder(rid), TRANSACTION_PARSE_ERROR)
  }

  /** What `getLogsAsETH` hands to `each`, or its failure: every element of `result` read as a
      log, or the log parse error when one of them is not a log. */
  function EthLogs(res: Result<Dict, QueryError>, rid: Int32): (r: Result<seq<Log>, QueryError>)
    ensures res.Err? ==> r == Err(res.error)
    ensures res.Ok? && !IsEnvelope(res.value) ==> r == Err(ModelError(MISSED_ENVELOPE))
    ensures r.Ok? <==>
      && res.Ok? && IsEnvelope(res.value)
      && forall i :: 0 <= i < |res.value["result"].items| ==> IsLogJson(res.value["result"].items[i].fields)
    ensures res.Ok? && IsEnvelope(res.value) && r.Err? ==> r.error == ModelError(LOG_PARSE_ERROR)
    ensures r.Ok? ==>
      && |r.value| == |res.value["result"].items|
      && forall i :: 0 <= i < |r.value| ==> AsLog(res.value["result"].items[i].fields, rid) == Some(r.value[i])
  {
    EthRecords(res, LogDecoder(rid), LOG_PARSE_ERROR)
  }

  /** A proxy answer holding the transactions as the proxy serialises them reports exactly those
      transactions. */
  lemma EthTransactionsRoundTrip(ts: seq<EthTransaction>, rid: Int32, status: string, message: string)
    requires forall i :: 0 <= i < |ts| ==> ts[i].rid == rid
    ensures EthTransactions(Ok(map["status" := JString(status), "message" := JString(message),
              "result" := JArray(seq(|ts|, i requires 0 <= i < |ts| => JObject(EthTransactionToJson(ts[i]))))]), rid)
            == Ok(ts)
  {
    var items := seq(|ts|, i requires 0 <= i < |ts| => JObject(EthTransactionToJson(ts[i])));
    var body := map["status" := JString(status), "message" := JString(message), "result" := JArray(items)];
    forall i | 0 <= i < |ts| ensures EthTransactionDecoder(rid)(items[i].fields) == Some(ts[i]) {
      EthTransactionRoundTrip(ts[i]);
    }
    var r := EthTransactions(Ok(body), rid);
    assert r.Ok?;
    assert r.value == ts;
  }

  /** A proxy answer holding the logs as the proxy serialises them, each with the "" appended to
      its topics, reports exactly those logs. */
  lemma EthLogsRoundTrip(ls: seq<Log>, rid: Int32, status: string, message: string)
    requires forall i :: 0 <= i < |ls| ==> ls[i].rid == rid
    ensures EthLogs(Ok(map["status" := JString(status), "message" := JString(message),
              "result" := JArray(seq(|ls|, i requires 0 <= i < |ls| => JObject(LogToJson(ls[i]))))]), rid)
            == Ok(ls)
  {
    var items := seq(|ls|, i requires 0 <= i < |ls| => JObject(LogToJson(ls[i])));
    var body := map["status" := JString(status), "message" := JString(message), "result" := JArray(items)];
    forall i | 0 <= i < |ls| ensures AsLog(items[i].fields, rid) == Some(ls[i]) {
      LogRoundTrip(ls[i]);
    }
    var r := EthLogs(Ok(body), rid);
    assert r.Ok?;
    assert r.value == ls;
  }

  /** `getTokensAsETH`: the token list is a bare array of currencies (no envelope); one that is
      not a token fails the whole list. */
  function EthTokens(res: Result<seq<Dict>, QueryError>, rid: Int32): (r: Result<seq<Token>, QueryError>)
    ensures res.Err? ==> r == Err(res.error)
    ensures r.Ok? <==> res.Ok? && forall i :: 0 <= i < |res.value| ==> IsTokenJson(res.value[i])
    ensures res.Ok? && r.Err? ==> r.error == ModelError(TOKENS_PARSE_ERROR)
    ensures r.Ok? ==> |r.value| == |res.value| && forall i :: 0 <= i < |r.value| ==> AsToken(res.value[i], rid) == Some(r.value[i])
  {
    match res
    case Err(e) => Err(e)
    case Ok(items) =>
      match MapAll(items, (d: Dict) => AsToken(d, rid))
      case None => Err(ModelError(TOKENS_PARSE_ERROR))
      case Some(tokens) => Ok(tokens)
  }

  // ---------------------------------------------------------------------------------------
  // Block numbers

  /** `parseBlockNumber`: hexadecimal after a `0x` prefix, decimal otherwise. */
  function ParseBlockNumber(s: string): (r: Option<UInt64>)
    ensures |s| >= 2 && s[..2] == "0x" ==> r == Numerals.ParseUInt64(s[2..], 16)
    ensures !(|s| >= 2 && s[..2] == "0x") ==> r == Numerals.ParseUInt64(s, 10)
  {
    if |s| >= 2 && s[..2] == "0x" then Numerals.ParseUInt64(s[2..], 16) else Numerals.ParseUInt64(s, 10)
  }

  /** Block numbers in the proxy's hexadecimal form read back as themselves. */
  lemma ParseHexBlockNumber(n: UInt64)
    ensures ParseBlockNumber("0x" + Numerals.Numeral(n, 16)) == Some(n)
  {
    var s := "0x" + Numerals.Numeral(n, 16);
    assert s[..2] == "0x" && s[2..] == Numerals.Numeral(n, 16);
    Numerals.ParseNumeral(n, 16);
  }

  /** Block numbers in decimal read back as themselves: a decimal numeral never starts with
      `0x`. */
  lemma ParseDecimalBlockNumber(n: UInt64)
    ensures ParseBlockNumber(Numerals.Numeral(n, 10)) == Some(n)
  {
    var s := Numerals.Numeral(n, 10);
    if |s| >= 2 {
      assert Numerals.DigitValue(s[1]).value < 10;
      assert s[..2] != "0x" by {
        assert s[..2][1] == s[1];
      }
    }
    Numerals.ParseNumeral(n, 10);
  }

  /** `parseBlockNumber(...) ?? 0`: a block number that does not parse counts as block 0. */
  function BlockNumberOrZero(s: string): (n: UInt64)
    ensures ParseBlockNumber(s).Some? ==> n == ParseBlockNumber(s).value
    ensures ParseBlockNumber(s).None? ==> n == 0
  {
    ParseBlockNumber(s).GetOr(0)
  }

  /** The prefix test is exact: `0X`, or a bare `0x` with no digits, reads as block 0. */
  lemma MalformedBlockNumbersReadAsZero()
    ensures BlockNumberOrZero("0x") == 0
    ensures BlockNumberOrZero("0X1f") == 0
  {
    assert "0x"[2..] == [];
    var s := "0X1f";
    assert s[..2] != "0x" by { assert s[1] == 'X'; }
    assert s[|s| - 1] == 'f' && Numerals.DigitValue('f') == Some(15);
  }

  // ---------------------------------------------------------------------------------------
  // getBlocksAsETH

  /** The interest bits of `getBlocksAsETH`: blocks where the address sends or receives a
      transaction, or appears as the source or target topic of an ERC20 transfer log. */
  const TRANSACTIONS_AS_SOURCE: bv32 := 1 << 0
  const TRANSACTIONS_AS_TARGET: bv32 := 1 << 1
  const LOGS_AS_SOURCE: bv32 := 1 << 2
  const LOGS_AS_TARGET: bv32 := 1 << 3

  /** The event `getBlocksAsETH` asks the logs for: the ERC20 transfer. */
  const ERC20_TRANSFER_EVENT: string := "0xa9059cbb"

  predicate Wants(interests: bv32, flag: bv32) {
    interests & flag != 0
  }

  predicate TransactionOfInterest(t: EthTransaction, address: string, interests: bv32) {
    || (Wants(interests, TRANSACTIONS_AS_SOURCE) && address == t.sourceAddr)
    || (Wants(interests, TRANSACTIONS_AS_TARGET) && address == t.targetAddr)
  }

  predicate LogOfInterest(l: Log, address: string, interests: bv32) {
    && |l.topics| == 3
    && (|| (Wants(interests, LOGS_AS_SOURCE) && address == l.topics[1])
        || (Wants(interests, LOGS_AS_TARGET) && address == l.topics[2]))
  }

  /** The block numbers of the transactions of interest, in order. */
  function TransactionBlockNumbers(ts: seq<EthTransaction>, address: string, interests: bv32): (ns: seq<UInt64>)
    ensures |ns| <= |ts|
    ensures |ts| == 1 ==>
      ns == if TransactionOfInterest(ts[0], address, interests) then [BlockNumberOrZero(ts[0].blockNumber)] else []
    ensures forall n :: n in ns <==>
      exists i :: 0 <= i < |ts| && TransactionOfInterest(ts[i], address, interests) && BlockNumberOrZero(ts[i].blockNumber) == n
  {
    if ts == [] then []
    else
      var init := ts[..|ts| - 1];
      var last := ts[|ts| - 1];
      var ns := TransactionBlockNumbers(init, address, interests);
      assert forall i :: 0 <= i < |init| ==> init[i] == ts[i];
      if TransactionOfInterest(last, address, interests) then ns + [BlockNumberOrZero(last.blockNumber)] else ns
  }

  /** The block numbers of the logs of interest, in order. */
  function LogBlockNumbers(ls: seq<Log>, address: string, interests: bv32): (ns: seq<UInt64>)
    ensures |ns| <= |ls|
    ensures |ls| == 1 ==>
      ns == if LogOfInterest(ls[0], address, interests) then [BlockNumberOrZero(ls[0].blockNumber)] else []
    ensures forall n :: n in ns <==>
      exists i :: 0 <= i < |ls| && LogOfInterest(ls[i], address, interests) && BlockNumberOrZero(ls[i].blockNumber) == n
  {
    if ls == [] then []
    else
      var init := ls[..|ls| - 1];
      var last := ls[|ls| - 1];
      var ns := LogBlockNumbers(init, address, interests);
      assert forall i :: 0 <= i < |init| ==> init[i] == ls[i];
      if LogOfInterest(last, address, interests) then ns + [BlockNumberOrZero(last.blockNumber)] else ns
  }

  /** The numbers of two runs of transactions are those of the first run followed by those of
      the second: the filter keeps the order and every repetition. */
  lemma {:induction false} TransactionBlockNumbersAppend(a: seq<EthTransaction>, b: seq<EthTransaction>,
                                                         address: string, interests: bv32)
    ensures TransactionBlockNumbers(a + b, address, interests)
            == TransactionBlockNumbers(a, address, interests) + TransactionBlockNumbers(b, address, interests)
    decreases |b|
  {
    if b == [] {
      assert a + b == a;
    } else {
      var ab := a + b;
      assert ab[..|ab| - 1] == a + b[..|b| - 1];
      assert ab[|ab| - 1] == b[|b| - 1];
      TransactionBlockNumbersAppend(a, b[..|b| - 1], address, interests);
    }
  }

  /** The same for logs. */
  lemma {:induction false} LogBlockNumbersAppend(a: seq<Log>, b: seq<Log>, address: string, interests: bv32)
    ensures LogBlockNumbers(a + b, address, interests)
            == LogBlockNumbers(a, address, interests) + LogBlockNumbers(b, address, interests)
    decreases |b|
  {
    if b == [] {
      assert a + b == a;
    } else {
      var ab := a + b;
      assert ab[..|ab| - 1] == a + b[..|b| - 1];
      assert ab[|ab| - 1] == b[|b| - 1];
      LogBlockNumbersAppend(a, b[..|b| - 1], address, interests);
    }
  }

  /** With no interest bit set no transaction or log is of interest. */
  lemma NoInterestNoBlocks(ts: seq<EthTransaction>, ls: seq<Log>, address: string)
    ensures TransactionBlockNumbers(ts, address, 0) == []
    ensures LogBlockNumbers(ls, address, 0) == []
  {
  }

  /** A log whose topics are not exactly [event, source, target] never contributes a block. */
  lemma LogNeedsThreeTopics(l: Log, address: string, interests: bv32)
    requires |l.topics| != 3
    ensures LogBlockNumbers([l], address, interests) == []
  {
  }

  /** When every transaction is of interest, the numbers are their block numbers one for one,
      in order. */
  lemma {:induction false} AllTransactionsOfInterest(ts: seq<EthTransaction>, address: string, interests: bv32)
    requires forall i :: 0 <= i < |ts| ==> TransactionOfInterest(ts[i], address, interests)
    ensures |TransactionBlockNumbers(ts, address, interests)| == |ts|
    ensures forall i :: 0 <= i < |ts| ==>
      TransactionBlockNumbers(ts, address, interests)[i] == BlockNumberOrZero(ts[i].blockNumber)
  {
    if ts != [] {
      var init := ts[..|ts| - 1];
      assert forall i :: 0 <= i < |init| ==> init[i] == ts[i];
      AllTransactionsOfInterest(init, address, interests);
    }
  }

  /** The numbers `getBlocksAsETH` completes with: nothing unless both fetches succeeded, then
      the transactions' numbers followed by the logs'. */
  function BlocksAsEth(transactions: Result<seq<EthTransaction>, QueryError>, logs: Result<seq<Log>, QueryError>,
                       address: string, interests: bv32): (ns: seq<UInt64>)
    ensures transactions.Err? || logs.Err? ==> ns == []
    ensures transactions.Ok? && logs.Ok? ==>
      && |ns| == |TransactionBlockNumbers(transactions.value, address, interests)|
                 + |LogBlockNumbers(logs.value, address, interests)|
      && ns[..|TransactionBlockNumbers(transactions.value, address, interests)|]
         == TransactionBlockNumbers(transactions.value, address, interests)
      && ns[|TransactionBlockNumbers(transactions.value, address, interests)|..]
         == LogBlockNumbers(logs.value, address, interests)
    ensures transactions.Ok? && logs.Ok? ==>
      |ns| <= |transactions.value| + |logs.value|
      && forall n :: n in ns <==>
        || (exists i :: 0 <= i < |transactions.value| && TransactionOfInterest(transactions.value[i], address, interests)
                      && BlockNumberOrZero(transactions.value[i].blockNumber) == n)
        || (exists i :: 0 <= i < |logs.value| && LogOfInterest(logs.value[i], address, interests)
                      && BlockNumberOrZero(logs.value[i].blockNumber) == n)
  {
    if transactions.Ok? && logs.Ok? then
      TransactionBlockNumbers(transactions.value, address, interests) + LogBlockNumbers(logs.value, address, interests)
    else []
  }

  /** `getBlocksAsETH` once its two fetches have completed (they run concurrently in the
      source; here one after the other). Each fetch outcome is what `getTransactionsAsETH` and
      `getLogsAsETH` deliver, `EthTransactions` and `EthLogs` of the proxy's answers: on success
      its records are passed to `each`, which appends them, and `done` reports the success.
      When both succeeded, the block numbers of the records of interest are appended. */
  method GetBlocksAsEth(fetchedTransactions: Result<seq<EthTransaction>, QueryError>, fetchedLogs: Result<seq<Log>, QueryError>,
                        address: string, interests: bv32)
    returns (numbers: seq<UInt64>)
    ensures numbers == BlocksAsEth(fetchedTransactions, fetchedLogs, address, interests)
  {
    var transactions: seq<EthTransaction> := [];
    var transactionsSuccess := false;
    var logs: seq<Log> := [];
    var logsSuccess := false;

    match fetchedTransactions {
      case Err(_) =>
        transactionsSuccess := false;
      case Ok(a) =>
        for i := 0 to |a|
          invariant transactions == a[..i]
        {
          transactions := transactions + [a[i]];
        }
        assert a[..|a|] == a;
        transactionsSuccess := true;
    }

    match fetchedLogs {
      case Err(_) =>
        logsSuccess := false;
      case Ok(a) =>
        for i := 0 to |a|
          invariant logs == a[..i]
        {
          logs := logs + [a[i]];
        }
        assert a[..|a|] == a;
        logsSuccess := true;
    }

    numbers := [];
    if transactionsSuccess && logsSuccess {
      numbers := numbers + TransactionBlockNumbers(transactions, address, interests);
      numbers := numbers + LogBlockNumbers(logs, address, interests);
    }
  }
}
