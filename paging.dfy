/** The multi-page fetches `getTransactions` and `getBlocks` (BRBlockChainDB.swift, lines
    583-640 and 681-733), run as the sequential loops they are once the dispatch queue and the
    semaphore are taken away: each page is requested, awaited and merged before the next. */
module Paging {
  import opened Wrappers
  import opened Json
  import opened Model
  import opened Query

  /** The height range of one request, its `start_height` and `end_height` query values. */
  datatype Window = Window(startHeight: nat, endHeight: nat)

  /** The transport as one paging loop sees it: what `makeRequest` delivers for a window. The
      blockchain id, the addresses and the include flags are fixed for the whole fetch, so they
      are part of the function. */
  type Fetch = Window -> Result<Dict, QueryError>

  /** The height span of one `getTransactions` request. */
  const STRIDE: nat := 5000

  function Min(a: int, b: int): int {
    if a <= b then a else b
  }

  /** The windows `stride(from: beg, to: end, by: 5000)` visits, each ending at the next start
      or at `end`: they are non-empty, contiguous and cover [beg, end) exactly. */
  function Windows(beg: nat, end: nat): (ws: seq<Window>)
    ensures forall i :: 0 <= i < |ws| ==>
      beg <= ws[i].startHeight < ws[i].endHeight <= end && ws[i].endHeight - ws[i].startHeight <= STRIDE
    ensures |ws| > 0 ==> ws[0].startHeight == beg && ws[|ws| - 1].endHeight == end
    ensures beg >= end <==> ws == []
    decreases if beg < end then end - beg else 0
  {
    if beg >= end then [] else [Window(beg, Min(beg + STRIDE, end))] + Windows(beg + STRIDE, end)
  }

  /** ceil((end - beg) / 5000), and zero for an empty range. */
  function WindowCount(beg: nat, end: nat): nat {
    if beg >= end then 0 else (end - beg - 1) / STRIDE + 1
  }

  /** The loop of `getTransactions` is still inside [beg, end) after k windows exactly when
      windows remain. */
  lemma WindowStartInRange(beg: nat, end: nat, k: nat)
    requires k <= WindowCount(beg, end)
    ensures beg + STRIDE * k < end <==> k < WindowCount(beg, end)
  {
  }

  /** There are ceil((end - beg) / 5000) windows, and window i starts at beg + 5000 i. */
  lemma {:induction false} WindowsShape(beg: nat, end: nat)
    ensures |Windows(beg, end)| == WindowCount(beg, end)
    ensures forall i :: 0 <= i < |Windows(beg, end)| ==>
      Windows(beg, end)[i] == Window(beg + STRIDE * i, Min(beg + STRIDE * i + STRIDE, end))
    decreases if beg < end then end - beg else 0
  {
    if beg < end {
      var ws := Windows(beg, end);
      var rest := Windows(beg + STRIDE, end);
      WindowsShape(beg + STRIDE, end);
      assert ws == [Window(beg, Min(beg + STRIDE, end))] + rest;
      forall i | 1 <= i < |ws|
        ensures ws[i] == Window(beg + STRIDE * i, Min(beg + STRIDE * i + STRIDE, end))
      {
        assert ws[i] == rest[i - 1];
        assert beg + STRIDE + STRIDE * (i - 1) == beg + STRIDE * i;
      }
    }
  }

  /** Each window ends where the next one starts: together they cover [beg, end) with no gap
      and no overlap. */
  lemma WindowsContiguous(beg: nat, end: nat, i: nat)
    requires i + 1 < |Windows(beg, end)|
    ensures Windows(beg, end)[i].endHeight == Windows(beg, end)[i + 1].startHeight
  {
    WindowsShape(beg, end);
  }

  /** The scenario of a [0, 12000) fetch: three requests, the last one short. */
  lemma TwelveThousandInThreeWindows()
    ensures Windows(0, 12000) == [Window(0, 5000), Window(5000, 10000), Window(10000, 12000)]
    ensures WindowCount(0, 12000) == 3
  {
  }

  /** The records of pages that all succeeded, in page order. */
  function ConcatOk<T>(pages: seq<Result<seq<T>, QueryError>>): (rs: seq<T>)
    requires forall i :: 0 <= i < |pages| ==> pages[i].Ok?
  {
    if pages == [] then [] else ConcatOk(pages[..|pages| - 1]) + pages[|pages| - 1].value
  }

  /** The outcome the aggregation of `getTransactions` reaches over a run of pages: the first
      error, with every record gathered before it discarded, or all records in page order. */
  function Collect<T>(pages: seq<Result<seq<T>, QueryError>>): (r: Result<seq<T>, QueryError>)
    ensures r.Ok? <==> forall i :: 0 <= i < |pages| ==> pages[i].Ok?
    ensures r.Ok? ==> r.value == ConcatOk(pages)
    ensures r.Err? ==> exists k :: 0 <= k < |pages| && pages[k] == Err(r.error) && forall j :: 0 <= j < k ==> pages[j].Ok?
  {
    if pages == [] then Ok([])
    else
      var prefix := pages[..|pages| - 1];
      assert forall j :: 0 <= j < |prefix| ==> prefix[j] == pages[j];
      match Collect(prefix)
      case Err(e) => Err(e)
      case Ok(rs) =>
        match pages[|pages| - 1]
        case Err(e) => Err(e)
        case Ok(more) => Ok(rs + more)
  }

  /** Once a prefix of the pages has failed, later pages change nothing. */
  lemma {:induction false} CollectStopsAtError<T>(pages: seq<Result<seq<T>, QueryError>>, k: nat)
    requires k <= |pages| && Collect(pages[..k]).Err?
    ensures Collect(pages) == Collect(pages[..k])
    decreases |pages| - k
  {
    if k < |pages| {
      assert pages[..k + 1][..k] == pages[..k];
      CollectStopsAtError(pages, k + 1);
    } else {
      assert pages[..k] == pages;
    }
  }

  /** Adding one page to a run of pages that all succeeded. */
  lemma {:induction false} CollectSnoc<T>(pages: seq<Result<seq<T>, QueryError>>, k: nat, results: seq<T>)
    requires k < |pages| && Collect(pages[..k]) == Ok(results)
    ensures pages[k].Ok? ==> Collect(pages[..k + 1]) == Ok(results + pages[k].value)
    ensures pages[k].Err? ==> Collect(pages[..k + 1]) == Err(pages[k].error)
  {
    assert pages[..k + 1][..k] == pages[..k];
  }

  /** The length clause of `WindowsShape` on its own, so that the loops can use it without the
      solver instantiating the closed form of every window. */
  lemma {:induction false} WindowsLength(beg: nat, end: nat)
    ensures |Windows(beg, end)| == WindowCount(beg, end)
  {
    WindowsShape(beg, end);
  }

  /** Window k of [beg, end), for k below the window count. */
  lemma {:induction false} WindowAt(beg: nat, end: nat, k: nat)
    requires k < WindowCount(beg, end)
    ensures |Windows(beg, end)| == WindowCount(beg, end)
    ensures Windows(beg, end)[k] == Window(beg + STRIDE * k, Min(beg + STRIDE * k + STRIDE, end))
  {
    WindowsShape(beg, end);
  }

  /** The transform `getTransactions` hands to `getManyExpected`. */
  function TransactionDecoder(fmt: Formats): Dict -> Option<Transaction> {
    (t: Dict) => AsTransaction(fmt, t)
  }

  /** The transform `getBlocks` hands to `getManyExpected`. */
  function BlockDecoder(fmt: Formats): Dict -> Option<Block> {
    (b: Dict) => AsBlock(fmt, b)
  }

  /** One page of `getTransactions`: the request for a window, its envelope, then every
      transaction decoded or the page failed. */
  function TransactionPage(fetch: Fetch, fmt: Formats, w: Window): Result<seq<Transaction>, QueryError> {
    DecodeMany(BdbMakeRequest("transactions", true, fetch(w)).data, TransactionDecoder(fmt))
  }

  function TransactionPages(fetch: Fetch, fmt: Formats, ws: seq<Window>): (pages: seq<Result<seq<Transaction>, QueryError>>)
    ensures |pages| == |ws|
    ensures forall i :: 0 <= i < |ws| ==> pages[i] == TransactionPage(fetch, fmt, ws[i])
  {
    seq(|ws|, i requires 0 <= i < |ws| => TransactionPage(fetch, fmt, ws[i]))
  }

  /** One page of `getBlocks`. */
  function BlockPage(fetch: Fetch, fmt: Formats, w: Window): Result<seq<Block>, QueryError> {
    DecodeMany(BdbMakeRequest("blocks", true, fetch(w)).data, BlockDecoder(fmt))
  }

  /** `results.reduce(0) { max($0, $1.blockHeight ?? 0) }` */
  function MaxTransactionHeight(ts: seq<Transaction>): (m: UInt64)
    ensures forall i :: 0 <= i < |ts| ==> ts[i].blockHeight.GetOr(0) <= m
    ensures ts != [] ==> exists i :: 0 <= i < |ts| && ts[i].blockHeight.GetOr(0) == m
    ensures ts == [] ==> m == 0
  {
    if ts == [] then 0
    else
      var m := MaxTransactionHeight(ts[..|ts| - 1]);
      var h := ts[|ts| - 1].blockHeight.GetOr(0);
      assert forall i :: 0 <= i < |ts| - 1 ==> ts[..|ts| - 1][i] == ts[i];
      if m < h then h else m
  }

  /** `results.reduce(0) { max($0, $1.height) }`: the next start height is the highest height
      already received, not one past it, so a further page would ask again for that block. */
  function MaxBlockHeight(bs: seq<Block>): (m: UInt64)
    ensures forall i :: 0 <= i < |bs| ==> bs[i].height <= m
    ensures bs != [] ==> exists i :: 0 <= i < |bs| && bs[i].height == m
    ensures bs == [] ==> m == 0
  {
    if bs == [] then 0
    else
      var m := MaxBlockHeight(bs[..|bs| - 1]);
      var h := bs[|bs| - 1].height;
      assert forall i :: 0 <= i < |bs| - 1 ==> bs[..|bs| - 1][i] == bs[i];
      if m < h then h else m
  }

  lemma PrefixSnoc<X>(xs: seq<X>, k: nat)
    requires k < |xs|
    ensures xs[..k + 1] == xs[..k] + [xs[k]]
  {
  }

  /** The window after the first k: the next stride from beg + 5000 k, cut at `end`. */
  lemma {:induction false} WindowStep(beg: nat, end: nat, requests: seq<Window>)
    requires |requests| < |Windows(beg, end)|
    requires requests == Windows(beg, end)[..|requests|]
    ensures var k := |requests|;
      var w := Window(beg + STRIDE * k, Min(beg + STRIDE * k + STRIDE, end));
      Windows(beg, end)[k] == w && Windows(beg, end)[..k + 1] == requests + [w]
  {
    var k := |requests|;
    var ws := Windows(beg, end);
    WindowsLength(beg, end);
    WindowAt(beg, end, k);
    PrefixSnoc(ws, k);
  }

  /** What one more window adds to the requests and to the aggregate of `getTransactions`. */
  lemma {:induction false} TransactionStep(fetch: Fetch, fmt: Formats, beg: nat, end: nat, requests: seq<Window>, results: seq<Transaction>)
    requires |requests| < |Windows(beg, end)|
    requires requests == Windows(beg, end)[..|requests|]
    requires Collect(TransactionPages(fetch, fmt, Windows(beg, end))[..|requests|]) == Ok(results)
    ensures var k := |requests|;
      var w := Window(beg + STRIDE * k, Min(beg + STRIDE * k + STRIDE, end));
      var pages := TransactionPages(fetch, fmt, Windows(beg, end));
      && Windows(beg, end)[..k + 1] == requests + [w]
      && pages[k] == TransactionPage(fetch, fmt, w)
      && (pages[k].Ok? ==> Collect(pages[..k + 1]) == Ok(results + pages[k].value))
      && (pages[k].Err? ==> Collect(pages[..k + 1]) == Err(pages[k].error))
  {
    WindowStep(beg, end, requests);
    CollectSnoc(TransactionPages(fetch, fmt, Windows(beg, end)), |requests|, results);
  }

  /** Every window requested before the last one returned a page: the loop reaches window k
      only when the k pages before it all succeeded. */
  lemma {:induction false} EarlierPagesSucceeded(fetch: Fetch, fmt: Formats, beg: nat, end: nat, requests: seq<Window>, results: seq<Transaction>)
    requires 1 <= |requests| <= |Windows(beg, end)|
    requires requests == Windows(beg, end)[..|requests|]
    requires Collect(TransactionPages(fetch, fmt, Windows(beg, end))[..|requests| - 1]) == Ok(results)
    ensures forall j :: 0 <= j < |requests| - 1 ==> TransactionPage(fetch, fmt, requests[j]).Ok?
  {
    var ws := Windows(beg, end);
    var pages := TransactionPages(fetch, fmt, ws);
    forall j | 0 <= j < |requests| - 1 ensures TransactionPage(fetch, fmt, requests[j]).Ok? {
      assert pages[..|requests| - 1][j] == pages[j];
      assert requests[j] == ws[j];
    }
  }

  /** The loop of `getTransactions` ran through every window with every page merged: the
      outcome is the aggregation of all the pages. */
  lemma {:induction false} TransactionsCompleted(fetch: Fetch, fmt: Formats, beg: nat, end: nat, requests: seq<Window>,
                                                 results: seq<Transaction>)
    requires |requests| == |Windows(beg, end)| && requests == Windows(beg, end)[..|requests|]
    requires Collect(TransactionPages(fetch, fmt, Windows(beg, end))[..|requests|]) == Ok(results)
    ensures Ok(results) == Collect(TransactionPages(fetch, fmt, Windows(beg, end)))
    ensures requests == Windows(beg, end)
  {
    var pages := TransactionPages(fetch, fmt, Windows(beg, end));
    assert pages[..|requests|] == pages;
  }

  /** The loop of `getTransactions` stopped right after the first window whose page failed: the
      later windows are never requested, yet the outcome is still the aggregation of all the
      pages, since the first error decides it. */
  lemma {:induction false} TransactionsStopped(fetch: Fetch, fmt: Formats, beg: nat, end: nat, requests: seq<Window>,
                                               error: QueryError)
    requires 1 <= |requests| <= |Windows(beg, end)|
    requires Collect(TransactionPages(fetch, fmt, Windows(beg, end))[..|requests|]) == Err(error)
    ensures Err(error) == Collect(TransactionPages(fetch, fmt, Windows(beg, end)))
  {
    CollectStopsAtError(TransactionPages(fetch, fmt, Windows(beg, end)), |requests|);
  }

  /** One request of `getTransactions` as its completion sees it: the page of transactions and
      the `more` flag, which `bdbMakeRequest` always reports false. */
  method RequestTransactions(fetch: Fetch, fmt: Formats, window: Window)
    returns (page: Result<seq<Transaction>, QueryError>, more: bool)
    ensures page == TransactionPage(fetch, fmt, window)
    ensures !more
  {
    var response := BdbMakeRequest("transactions", true, fetch(window));
    page := DecodeMany(response.data, TransactionDecoder(fmt));
    more := response.more;
  }

  /** `getTransactions`: one request per 5000-height window of [beg, end), in order; the first
      failing page ends the loop and its error is all the caller gets. `begHeight + 5000` is
      computed for every window visited and must not overflow 64 bits. */
  method GetTransactions(fetch: Fetch, fmt: Formats, begBlockNumber: UInt64, endBlockNumber: UInt64)
    returns (result: Result<seq<Transaction>, QueryError>, ghost requests: seq<Window>)
    requires begBlockNumber + STRIDE * WindowCount(begBlockNumber, endBlockNumber) <= UINT64_MAX
    ensures result == Collect(TransactionPages(fetch, fmt, Windows(begBlockNumber, endBlockNumber)))
    ensures |requests| <= |Windows(begBlockNumber, endBlockNumber)|
    ensures requests == Windows(begBlockNumber, endBlockNumber)[..|requests|]
    ensures result.Ok? ==> requests == Windows(begBlockNumber, endBlockNumber)
    ensures result.Err? ==> |requests| >= 1 && TransactionPage(fetch, fmt, requests[|requests| - 1]) == Err(result.error)
    ensures result.Err? ==> forall j :: 0 <= j < |requests| - 1 ==> TransactionPage(fetch, fmt, requests[j]).Ok?
    ensures begBlockNumber >= endBlockNumber ==> requests == [] && result == Ok([])
  {
    ghost var ws := Windows(begBlockNumber, endBlockNumber);
    ghost var pages := TransactionPages(fetch, fmt, ws);
    ghost var count := WindowCount(begBlockNumber, endBlockNumber);
    WindowsLength(begBlockNumber, endBlockNumber);

    var cursor: UInt64 := begBlockNumber;
    var error: Option<QueryError> := None;
    var results: seq<Transaction> := [];
    requests := [];

    var begHeight: UInt64 := begBlockNumber;
    WindowStartInRange(begBlockNumber, endBlockNumber, 0);
    while begHeight < endBlockNumber
      invariant |requests| <= count == WindowCount(begBlockNumber, endBlockNumber)
      invariant begHeight == begBlockNumber + STRIDE * |requests|
      invariant begHeight < endBlockNumber <==> |requests| < count
      invariant requests == ws[..|requests|]
      invariant error.None?
      invariant Collect(pages[..|requests|]) == Ok(results)
      decreases endBlockNumber - begHeight
    {
      var stepped: UInt64 := begHeight + STRIDE;
      var window := Window(begHeight, Min(stepped, endBlockNumber));
      var page, more := RequestTransactions(fetch, fmt, window);
      TransactionStep(fetch, fmt, begBlockNumber, endBlockNumber, requests, results);
      requests := requests + [window];
      match page {
        case Ok(transactions) => results := results + transactions;
        case Err(e) => error := Some(e);
      }
      // As in the source, this cursor update never runs (`more` is always false) and the
      // stride does not read it.
      if more && error.None? {
        cursor := MaxTransactionHeight(results);
      }
      if error.Some? {
        break;
      }
      begHeight := stepped;
      WindowStartInRange(begBlockNumber, endBlockNumber, |requests|);
    }

    if error.None? {
      TransactionsCompleted(fetch, fmt, begBlockNumber, endBlockNumber, requests, results);
      result := Ok(results);
    } else {
      TransactionsStopped(fetch, fmt, begBlockNumber, endBlockNumber, requests, error.value);
      EarlierPagesSucceeded(fetch, fmt, begBlockNumber, endBlockNumber, requests, results);
      result := Err(error.value);
    }
  }

  /** `getBlocks`: a repeat-while loop on the `more` flag. Since `bdbMakeRequest` always reports
      `more == false`, it issues exactly one request, for [beg, end), and returns that page. */
  method GetBlocks(fetch: Fetch, fmt: Formats, begBlockNumber: UInt64, endBlockNumber: UInt64)
    returns (result: Result<seq<Block>, QueryError>, ghost requests: seq<Window>)
    ensures requests == [Window(begBlockNumber, endBlockNumber)]
    ensures result == BlockPage(fetch, fmt, Window(begBlockNumber, endBlockNumber))
  {
    var moreResults := false;
    var cursor: UInt64 := begBlockNumber;
    var error: Option<QueryError> := None;
    var results: seq<Block> := [];
    requests := [];

    var first := true;
    while first || (moreResults && error.None?)
      invariant first ==> !moreResults && cursor == begBlockNumber && error.None? && results == [] && requests == []
      invariant !first ==> !moreResults && requests == [Window(begBlockNumber, endBlockNumber)]
      invariant !first ==>
        (if error.None? then Ok(results) else Err(error.value)) == BlockPage(fetch, fmt, Window(begBlockNumber, endBlockNumber))
      decreases if first then 1 else 0
    {
      var window := Window(cursor, endBlockNumber);
      var response := BdbMakeRequest("blocks", true, fetch(window));
      requests := requests + [window];
      moreResults := response.more;
      var page := DecodeMany(response.data, BlockDecoder(fmt));
      match page {
        case Ok(blocks) =>
          assert results + blocks == blocks;
          results := results + blocks;
        case Err(e) => error := Some(e);
      }
      if moreResults && error.None? {
        cursor := MaxBlockHeight(results);
      }
      first := false;
    }

    result := if error.None? then Ok(results) else Err(error.value);
  }
}
