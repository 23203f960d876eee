# BlockChainDB client core, modelled in Dafny

`BlockChainDB` is the Swift client that a wallet uses to query the BlockChainDB REST service
(blockchains, currencies, transfers, transactions, blocks, wallets, subscriptions). It also uses
an Ethereum query proxy for transactions, logs and ERC20 tokens. The service answers with loosely
typed JSON. The client reads it through typed accessors and decodes it into records. It checks
how many records came back, and it pages through height ranges for transactions and blocks.

This project models that logic:

- `wrappers.dfy`: `Option` and `Result`, and `MapAll`. `MapAll` is the all-or-nothing map that
  every "`map` then `contains(where: nil)`" in the client amounts to.
- `json.dfy`: the JSON values, with numbers kept as exact decimals, and the `JSON` accessors.
  Date parsing and base64 decoding are parameters (`Formats`).
- `numerals.dfy`: Swift's `UInt64(_:radix:)` and integer printing.
- `model.dfy`: the `Model.as*` record decoders and `lookupSymbol`, plus the wallet-currency
  serialiser `asJSON` and its parser.
- `query.dfy`:
  - `QueryError`.
  - The validators `getOneExpected` and `getManyExpected`.
  - The failure order of `sendRequest`.
  - The envelope handling of `bdbMakeRequest`.
- `paging.dfy`: `getTransactions` and `getBlocks` as sequential loops over a transport
  function `Fetch`. `Fetch` is what `makeRequest` delivers for one height window.
- `eth.dfy`:
  - The `ETH.as*` decoders and `dropLastIfEmpty`.
  - The `status`/`message`/`result` envelope of the proxy.
  - `parseBlockNumber`.
  - The block-number extraction of `getBlocksAsETH`.

When the service signals more pages, `getBlocks` sets its cursor to the highest height received
(`MaxBlockHeight`), not to one past it. That branch never runs, because `bdbMakeRequest` always
reports `more == false`.

## Model

| member | source | states |
|---|---|---|
| Wrappers.MapAll | Swift/BRCrypto/common/BRBlockChainDB.swift:1544-1549 | `map` then "fail if any is nil": present iff every element converts; then same length, and element i is the conversion of input i |
| Json.AsString | Swift/BRCrypto/common/BRBlockChainDB.swift:1321-1323 | present iff the key holds a string, and then it is that string |
| Json.AsBool | Swift/BRCrypto/common/BRBlockChainDB.swift:1325-1327 | present iff the key holds a boolean, and then it is that boolean |
| Json.AsUInt64 | Swift/BRCrypto/common/BRBlockChainDB.swift:1329-1332 | `UInt64(exactly:)`: present iff the number is whole and in [0, 2^64); the value times the decimal scale is the number exactly |
| Json.AsUInt8 | Swift/BRCrypto/common/BRBlockChainDB.swift:1334-1337 | `UInt8(exactly:)`: present iff the number is whole and in [0, 256); the value is the number exactly |
| Json.AsInt | Swift/BRCrypto/common/BRBlockChainDB.swift:1455 | `as? Int` on `total_pages`: present iff the number is whole and within 64-bit signed range; the value is the number |
| Json.AsDate | Swift/BRCrypto/common/BRBlockChainDB.swift:1339-1342 | present iff the key holds a string the date parser accepts; then it is the parsed date |
| Json.AsDataAsWritten | Swift/BRCrypto/common/BRBlockChainDB.swift:1344-1347 | as written: traps exactly when the key holds a string that base64 rejects |
| Json.AsData | Swift/BRCrypto/common/BRBlockChainDB.swift:1344-1347 | corrected: present iff the key holds a string that base64 accepts; then it is the decoded bytes |
| Json.AsDataAgreesUnlessTrap | Swift/BRCrypto/common/BRBlockChainDB.swift:1344-1347 | where the as-written accessor returns, it agrees with the corrected one; where it traps, the corrected one is absent |
| Json.AsDataTrapWitness | Swift/BRCrypto/common/BRBlockChainDB.swift:1346 | the string "%" under a rejecting base64 decoder traps as written and is absent when corrected |
| Json.AsArray | Swift/BRCrypto/common/BRBlockChainDB.swift:1349-1351 | present iff the key holds an array of objects; then it is exactly those objects, in order |
| Json.AsDict | Swift/BRCrypto/common/BRBlockChainDB.swift:1353-1355 | present iff the key holds an object; then it is that object |
| Json.AsStringArray | Swift/BRCrypto/common/BRBlockChainDB.swift:1357-1359 | present iff the key holds an array of strings; then it serialises back to that array |
| Json.StringArrayRoundTrip | Swift/BRCrypto/common/BRBlockChainDB.swift:1357-1359 | reading back a serialised string array gives the same strings |
| Numerals.Numeral | Swift/BRCrypto/common/BRBlockChainDB.swift:1375 | a printed numeral is non-empty, made only of digits below the radix, and has no leading zero: it starts with `0` only for the number 0 |
| Numerals.NumeralRoundTrip | Swift/BRCrypto/common/BRBlockChainDB.swift:1199-1203 | the digit value of a printed numeral is the number |
| Numerals.ParseUInt64 | Swift/BRCrypto/common/BRBlockChainDB.swift:1200-1202 | `UInt64(_:radix:)`, both directions: text parses iff it is `+` or nothing followed by digits whose value is below 2^64 (giving that value, leading zeros allowed), or `-` followed by digits whose value is 0 (giving 0) |
| Numerals.ParseNumeral | Swift/BRCrypto/common/BRBlockChainDB.swift:1200-1202 | every 64-bit value printed in any radix parses back to itself |
| Numerals.Decimal | Swift/BRCrypto/common/BRBlockChainDB.swift:1375 | `Int.description`: a leading `-` for negatives, then digits whose value is the magnitude, with no leading zero |
| Model.AsBlockchain | Swift/BRCrypto/common/BRBlockChainDB.swift:130-139 | present iff all six fields have their types; the height is max(reported, 575020), never below 575020; the other fields are copied |
| Model.LookupSymbol | Swift/BRCrypto/common/BRBlockChainDB.swift:181-184 | "btc" gives ₿, "eth" gives Ξ, and any other code gives itself |
| Model.AsCurrencyDenomination | Swift/BRCrypto/common/BRBlockChainDB.swift:169-179 | present iff name, short_name and a UInt8 decimals are present; the symbol is the looked-up symbol of the code |
| Model.AsCurrency | Swift/BRCrypto/common/BRBlockChainDB.swift:186-207 | present iff the required strings are present and every denomination decodes; id equals name; address is optional |
| Model.AsTransfer | Swift/BRCrypto/common/BRBlockChainDB.swift:272-291 | present iff the required fields and the nested amount object are present; the optional addresses and transaction id are read as present or absent |
| Model.AsTransactionAsWritten | Swift/BRCrypto/common/BRBlockChainDB.swift:312-343 | as written: traps when a required-fields object has bad base64 `raw` or a transfer that does not decode |
| Model.AsTransaction | Swift/BRCrypto/common/BRBlockChainDB.swift:312-343 | corrected: present iff the required fields are present and every transfer decodes; the transfers are in order, one per element |
| Model.AsTransactionAgreesUnlessTrap | Swift/BRCrypto/common/BRBlockChainDB.swift:336-341 | where the as-written decoder returns, it returns what the corrected one returns |
| Model.AsTransactionTrapWitness | Swift/BRCrypto/common/BRBlockChainDB.swift:341 | a transaction with one empty transfer object traps as written and is absent when corrected |
| Model.AsBlock | Swift/BRCrypto/common/BRBlockChainDB.swift:362-385 | corrected (it reads `raw` with `Json.AsData` and the embedded transactions with `Model.AsTransaction`): the block decodes iff its required fields do; `transactions` is present iff the key holds objects that all decode, and then it holds them in order |
| Model.BlockTransactionsMissingVersusEmpty | Swift/BRCrypto/common/BRBlockChainDB.swift:377-379 | a missing `transactions` key gives an absent list; `[]` gives a present empty list; the block decodes either way |
| Model.AsWalletCurrency | Swift/BRCrypto/common/BRBlockChainDB.swift:397-404 | present iff currency_id is a string; addresses default to the empty list |
| Model.WalletCurrencyToJson | Swift/BRCrypto/common/BRBlockChainDB.swift:406-411 | the serialised object has exactly the keys currency_id and addresses; currency_id holds the currency id and addresses reads back as the address list |
| Model.WalletCurrencyRoundTrip | Swift/BRCrypto/common/BRBlockChainDB.swift:397-411 | parsing a serialised wallet currency gives it back unchanged |
| Model.AsWallet | Swift/BRCrypto/common/BRBlockChainDB.swift:413-424 | present iff wallet_id and the created date are present; currencies are decoded in order, or are the empty list when missing or when any one fails |
| Model.AsSubscriptionEndpoint | Swift/BRCrypto/common/BRBlockChainDB.swift:436-443 | present iff the three strings are present |
| Model.AsSubscription | Swift/BRCrypto/common/BRBlockChainDB.swift:445-454 | present iff the three ids and a decodable endpoint object are present |
| Query.GetOneExpected | Swift/BRCrypto/common/BRBlockChainDB.swift:1521-1532 | success iff exactly one item converts; no items gives noEntity with the requested id; a failed conversion and two or more items each give their model error |
| Query.GetManyExpected | Swift/BRCrypto/common/BRBlockChainDB.swift:1544-1549 | success iff every item converts; then same length and order; otherwise the "(many)" model error |
| Query.ManyRejectsOneMalformed | Swift/BRCrypto/common/BRBlockChainDB.swift:1544-1549 | one item that does not convert fails the whole batch |
| Query.DecodeMany | Swift/BRCrypto/common/BRBlockChainDB.swift:619-621 | a request error passes through unchanged; otherwise the batch is validated |
| Query.SendRequestOutcome | Swift/BRCrypto/common/BRBlockChainDB.swift:1362-1399 | success iff there is no error, an HTTP 200 response, data, and a dictionary body; failures are classified in the order submission, no response, status (with the code printed in decimal), no data, parse; a throwing parser gives the parse error with its cause, a non-dictionary body the parse error without one |
| Query.Full | Swift/BRCrypto/common/BRBlockChainDB.swift:1449-1455 | full iff the body has a `page` object whose `total_pages` is an Int above 1 |
| Query.SelectData | Swift/BRCrypto/common/BRBlockChainDB.swift:1461-1470 | not embedded gives the body itself as a one-element list; embedded succeeds iff `_embedded[path]` is an array of objects and returns exactly those; otherwise "[JSON.Dict] expected" |
| Query.BdbMakeRequest | Swift/BRCrypto/common/BRBlockChainDB.swift:1437-1473 | `more` is false for every input; a request error passes through; otherwise the selected list |
| Query.MoreIgnoresTotalPages | Swift/BRCrypto/common/BRBlockChainDB.swift:1455-1461 | a body announcing several pages is full, yet `more` is false |
| Paging.Windows | Swift/BRCrypto/common/BRBlockChainDB.swift:607-609 | the stride windows are non-empty, at most 5000 high, inside [beg, end), start at beg and end at end; there are none iff beg >= end |
| Paging.WindowsShape | Swift/BRCrypto/common/BRBlockChainDB.swift:607-609 | there are ceil((end - beg) / 5000) windows, and window i is [beg + 5000 i, min(beg + 5000 i + 5000, end)) |
| Paging.WindowsContiguous | Swift/BRCrypto/common/BRBlockChainDB.swift:607-609 | each window ends where the next starts |
| Paging.TwelveThousandInThreeWindows | Swift/BRCrypto/common/BRBlockChainDB.swift:607-609 | [0, 12000) is fetched as [0, 5000), [5000, 10000), [10000, 12000) |
| Paging.Collect | Swift/BRCrypto/common/BRBlockChainDB.swift:619-638 | success iff every page succeeded, and then the records in page order; otherwise the first page error, with earlier records discarded |
| Paging.CollectStopsAtError | Swift/BRCrypto/common/BRBlockChainDB.swift:632-633 | once a prefix of the pages has failed, later pages change nothing |
| Paging.MaxTransactionHeight | Swift/BRCrypto/common/BRBlockChainDB.swift:623-627 | the result is at least every transaction's height (absent heights count as 0) and equals one of them, or 0 for none |
| Paging.MaxBlockHeight | Swift/BRCrypto/common/BRBlockChainDB.swift:716-720 | the result is at least every block's height and equals one of them, or 0 for none |
| Paging.GetTransactions | Swift/BRCrypto/common/BRBlockChainDB.swift:583-639 | the result is the first-error aggregation of the window pages; the requests are a prefix of the windows, all of them on success; on failure the last request's page is the error and every earlier request's page succeeded, so paging stops at the first failed page; beg >= end gives no request and an empty success |
| Paging.TransactionsStopped | Swift/BRCrypto/common/BRBlockChainDB.swift:632-633 | when the loop breaks after the first failed page, that error is the aggregation of all the pages, the unrequested ones included |
| Paging.GetBlocks | Swift/BRCrypto/common/BRBlockChainDB.swift:681-733 | exactly one request, for [beg, end), and its page is the result |
| Eth.AsEthTransaction | Swift/BRCrypto/common/BRBlockChainDB.swift:853-880 | present iff all sixteen wire strings are present; each record field is the string under its wire name; rid is carried |
| Eth.EthTransactionRoundTrip | Swift/BRCrypto/common/BRBlockChainDB.swift:853-880 | a transaction serialised under the wire names decodes to itself |
| Eth.DropLastIfEmpty | Swift/BRCrypto/common/BRBlockChainDB.swift:895-900 | absent stays absent; at most one trailing "" is removed, and it is removed when present |
| Eth.DropLastIfEmptyUndoesAppend | Swift/BRCrypto/common/BRBlockChainDB.swift:895-900 | the "" the service appends is removed; a list not ending in "" is unchanged |
| Eth.AsLog | Swift/BRCrypto/common/BRBlockChainDB.swift:902-920 | present iff the ten fields are present and topics is a string array; topics lose one trailing "" |
| Eth.LogRoundTrip | Swift/BRCrypto/common/BRBlockChainDB.swift:895-920 | a log sent with the service's extra "" in topics decodes to itself |
| Eth.AsToken | Swift/BRCrypto/common/BRBlockChainDB.swift:932-946 | present iff name, code, contract_address and an 8-bit scale are present; description is "Token for '<symbol>'"; no gas defaults |
| Eth.TokenScaleMustFit | Swift/BRCrypto/common/BRBlockChainDB.swift:936 | a scale of 256 or more, a negative one or a fractional one rejects the token |
| Eth.EthRecords | Swift/BRCrypto/common/BRBlockChainDB.swift:1094-1106 | a request error passes through; a missing status, message or result is the "Missed" model error; success iff every result element decodes, in order; otherwise the parse error |
| Eth.EthTransactionsRoundTrip | Swift/BRCrypto/common/BRBlockChainDB.swift:1094-1106 | a proxy answer holding serialised transactions yields exactly those transactions |
| Eth.EthLogs | Swift/BRCrypto/common/BRBlockChainDB.swift:1143-1155 | a request error passes through; a missing status, message or result is the "Missed" model error; success iff every result element is a log, and then the logs in order; otherwise "ETH.Log parse error" |
| Eth.EthLogsRoundTrip | Swift/BRCrypto/common/BRBlockChainDB.swift:1143-1155 | a proxy answer holding serialised logs, each with the service's extra "" in topics, yields exactly those logs |
| Eth.EthTokens | Swift/BRCrypto/common/BRBlockChainDB.swift:1173-1181 | a request error passes through; success iff every currency is a token, in order; otherwise "ETH.Tokens parse error" |
| Eth.ParseBlockNumber | Swift/BRCrypto/common/BRBlockChainDB.swift:1199-1203 | base 16 after an exact `0x` prefix, base 10 otherwise (the contract follows the branch; what it means is stated by the two lemmas below) |
| Eth.ParseHexBlockNumber | Swift/BRCrypto/common/BRBlockChainDB.swift:1199-1203 | "0x" followed by the hex digits of n parses to n |
| Eth.ParseDecimalBlockNumber | Swift/BRCrypto/common/BRBlockChainDB.swift:1199-1203 | the decimal digits of n parse to n |
| Eth.BlockNumberOrZero | Swift/BRCrypto/common/BRBlockChainDB.swift:1250 | the parsed block number, or 0 when it does not parse |
| Eth.MalformedBlockNumbersReadAsZero | Swift/BRCrypto/common/BRBlockChainDB.swift:1199-1203 | a bare "0x" and an upper-case "0X" prefix both read as block 0 |
| Eth.TransactionBlockNumbers | Swift/BRCrypto/common/BRBlockChainDB.swift:1241-1250 | no more numbers than transactions; a number is present iff some transaction of interest (bit 0 source, bit 1 target) has it; one transaction gives its number exactly when it is of interest |
| Eth.TransactionBlockNumbersAppend | Swift/BRCrypto/common/BRBlockChainDB.swift:1241-1250 | the numbers of two runs of transactions are the first run's followed by the second's, so order and repetitions are kept |
| Eth.LogBlockNumbers | Swift/BRCrypto/common/BRBlockChainDB.swift:1252-1261 | no more numbers than logs; a number is present iff some three-topic log of interest (bit 2 topic 1, bit 3 topic 2) has it; one log gives its number exactly when it is of interest |
| Eth.LogBlockNumbersAppend | Swift/BRCrypto/common/BRBlockChainDB.swift:1252-1261 | the numbers of two runs of logs are the first run's followed by the second's, so order and repetitions are kept |
| Eth.LogNeedsThreeTopics | Swift/BRCrypto/common/BRBlockChainDB.swift:1254 | a log without exactly three topics contributes nothing |
| Eth.AllTransactionsOfInterest | Swift/BRCrypto/common/BRBlockChainDB.swift:1241-1250 | when every transaction is of interest, the numbers are their block numbers one for one, in order |
| Eth.BlocksAsEth | Swift/BRCrypto/common/BRBlockChainDB.swift:1239-1262 | nothing unless both fetches succeeded; then the numbers are exactly those of the transactions and logs of interest, the transactions' numbers first and the logs' after them |
| Eth.GetBlocksAsEth | Swift/BRCrypto/common/BRBlockChainDB.swift:1205-1265 | the numbers completed with equal the specification `BlocksAsEth` of the two fetch outcomes |

## Left out

- URL building, `URLSession` and the data task in `makeRequest`/`sendRequest` are I/O. `sendRequest`
  appears only as its failure classification. The transport is the parameter `Fetch` (paging) or
  the fetch outcome (ETH). The print-outs of malformed bodies are left out too.
- The dispatch queue and the semaphores of `getTransactions`, `getBlocks` and `getBlocksAsETH`
  are concurrency. The loops run sequentially, and in `getBlocksAsETH` the two fetches are taken
  as already completed.
- `DateFormatter` and `Data(base64Encoded:)` are Foundation conversions. They are abstract partial
  functions (`Formats`). The crash of the forced unwrap is the second finding below.
- Foundation's bridging of `NSNumber` and `Bool` (a JSON `true` read as the number 1, or 1 read as
  `true`) and floating-point rounding of very long numbers are not modelled. Numbers are exact
  decimals, and booleans are distinct from numbers.
- Swift compares strings by grapheme cluster. Strings here are sequences of code points, so
  canonically equivalent but differently encoded strings count as different.
- Foreign C calls: `BRTransactionParse` (`getTransactionsAsBTC`), the Ethereum wallet manager
  and token calls, and `networkNameFrom`. They are calls into code this model does not include.
- The ETH JSON-RPC shims with fixed fallback values (balance, gas price, gas estimate, submit,
  block number, nonce) are stub wrappers around network calls.
- `defaultBlockchains` and `defaultCurrencies` are constant catalogues with no logic.
- The single-entity endpoints (`getBlockchain`, `getCurrency`, `getTransfer`, `getTransaction`,
  `getBlock`, `getWallet`, `getSubscription`), the list endpoints built on `getManyExpected`,
  and `createWallet`, `createSubscription` and `putTransaction` are not modelled one by one.
  Each only combines `bdbMakeRequest` or `makeRequest` with a validator and a decoder above.
- The query parameters each request carries (blockchain id, addresses, include flags) are fixed
  for a whole fetch, so they are folded into `Fetch`. The model also takes `Fetch` to be
  deterministic: the same window always gets the same answer.
- `hedera/proto/CryptoService.pb-c.h` and `hedera/proto/CryptoGetInfo.pb-c.h` are generated
  declarations with no logic.
- Model.AsBlock: it reads `raw` with the corrected `Json.AsData` and the embedded transactions with
  the corrected `Model.AsTransaction`. As written, `asBlock` stops the process on a `raw` that is
  not base64 (line 373) and on an embedded transaction with a transfer that does not decode
  (line 379, through line 341); the model reads these as absent (see "## Findings").
- Paging.GetTransactions: the pages are decoded with the corrected `Model.AsTransaction`, so a
  transaction that would stop the process as written (see "## Findings") makes the page fail with
  the "(many)" model error instead.
- Paging.GetBlocks: the page is decoded with the corrected `Model.AsBlock`, so a block that would
  stop the process as written makes the page fail with the "(many)" model error instead.
- Paging.GetTransactions: the precondition asks that `beg + 5000 * windows` fits in 64 bits. That
  bounds the last stride step even when an earlier page fails and the loop stops before it.
- Paging.GetTransactions: the cursor update runs only when `more` is true, so it never runs. The
  model keeps it but does not state anything about the value it would compute.

## Findings

| source | as written | input that shows it | evidently intended | confidence | as-written member | corrected member |
|---|---|---|---|---|---|---|
| Swift/BRCrypto/common/BRBlockChainDB.swift:341 | `transfers as! [Transfer]` force-casts an array that holds `nil` when any transfer fails to decode, which stops the process | a transaction with all required fields and `"transfers": [{}]` | the transaction is absent, as when `transfers` is missing | not executed | Model.AsTransactionAsWritten (Model.AsTransactionTrapWitness) | Model.AsTransaction |
| Swift/BRCrypto/common/BRBlockChainDB.swift:1346 | `Data(base64Encoded: $0)!` force-unwraps inside `flatMap`, so a `raw` string that is not base64 stops the process in `asTransaction` and `asBlock` | `"raw": "%"` | the field reads as absent, as `asDate` does for a bad date | not executed | Json.AsDataAsWritten (Json.AsDataTrapWitness) | Json.AsData |
