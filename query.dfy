/** Query errors, the two validators every endpoint uses, the failure classification of
    `sendRequest` and the envelope selection of `bdbMakeRequest` (BRBlockChainDB.swift,
    lines 95-113, 1362-1399, 1437-1473 and 1511-1549). */
module Query {
  import opened Wrappers
  import opened Json
  import Numerals

  /** `BlockChainDB.QueryError`. Foundation's error objects are kept as their descriptions. */
  datatype QueryError =
    | Url(reason: string)
    | Submission(cause: string)
    | NoData
    | JsonParse(parseCause: Option<string>)
    | ModelError(description: string)
    | NoEntity(id: Option<string>)

  const TRANSFORM_ERROR_ONE: string := "(JSON) -> T transform error (one)"
  const EXPECTED_ONE_ONLY: string := "(JSON) -> T expected one only"
  const TRANSFORM_ERROR_MANY: string := "(JSON) -> T transform error (many)"
  const DICT_ARRAY_EXPECTED: string := "[JSON.Dict] expected"

  /** `getOneExpected`: no item is "no such entity" for the requested id; one item is its
      conversion; two or more are an error even when each would convert. */
  function GetOneExpected<T>(id: string, data: seq<Dict>, transform: Dict -> Option<T>): (r: Result<T, QueryError>)
    ensures r.Ok? <==> |data| == 1 && transform(data[0]).Some?
    ensures r.Ok? ==> transform(data[0]) == Some(r.value)
    ensures |data| == 0 ==> r == Err(NoEntity(Some(id)))
    ensures |data| == 1 && transform(data[0]).None? ==> r == Err(ModelError(TRANSFORM_ERROR_ONE))
    ensures |data| >= 2 ==> r == Err(ModelError(EXPECTED_ONE_ONLY))
  {
    if |data| == 0 then Err(NoEntity(Some(id)))
    else if |data| == 1 then
      match transform(data[0])
      case None => Err(ModelError(TRANSFORM_ERROR_ONE))
      case Some(t) => Ok(t)
    else Err(ModelError(EXPECTED_ONE_ONLY))
  }

  /** `getManyExpected`: all items convert, in order and none dropped, or the call fails. */
  function GetManyExpected<T>(data: seq<Dict>, transform: Dict -> Option<T>): (r: Result<seq<T>, QueryError>)
    ensures r.Ok? <==> forall i :: 0 <= i < |data| ==> transform(data[i]).Some?
    ensures r.Ok? ==> |r.value| == |data|
    ensures r.Ok? ==> forall i :: 0 <= i < |data| ==> transform(data[i]) == Some(r.value[i])
    ensures r.Err? ==> r.error == ModelError(TRANSFORM_ERROR_MANY)
  {
    match MapAll(data, transform)
    case None => Err(ModelError(TRANSFORM_ERROR_MANY))
    case Some(ts) => Ok(ts)
  }

  /** One malformed item among many fails the whole batch: a caller never receives the other
      items without it. */
  lemma ManyRejectsOneMalformed<T>(data: seq<Dict>, transform: Dict -> Option<T>, bad: nat)
    requires bad < |data| && transform(data[bad]).None?
    ensures GetManyExpected(data, transform) == Err(ModelError(TRANSFORM_ERROR_MANY))
  {
  }

  /** `res.flatMap { getManyExpected(data: $0, transform: ...) }`, the step every collection
      endpoint applies to what `bdbMakeRequest` delivers: a request error passes through
      unchanged. */
  function DecodeMany<T>(res: Result<seq<Dict>, QueryError>, transform: Dict -> Option<T>): (r: Result<seq<T>, QueryError>)
    ensures res.Err? ==> r == Err(res.error)
    ensures res.Ok? ==> r == GetManyExpected(res.value, transform)
  {
    match res
    case Err(e) => Err(e)
    case Ok(data) => GetManyExpected(data, transform)
  }

  // ---------------------------------------------------------------------------------------
  // sendRequest

  /** What the data task hands back about the response: none, one that is not an HTTP response,
      or an HTTP response with its status code. */
  datatype UrlResponse = NoResponse | OtherResponse | HttpResponse(statusCode: int)

  /** What `JSONSerialization.jsonObject(with:)` makes of the body: an exception, a value that is
      not a dictionary, or a dictionary. */
  datatype Parsed = ParseThrows(cause: string) | NotADict | ParsedDict(dict: Dict)

  /** The completion of `sendRequest` for a dictionary body, checked in the source's order:
      transport error, then response kind, then status 200, then presence of data, then JSON. */
  function SendRequestOutcome(error: Option<string>, response: UrlResponse, data: Option<Bytes>,
                              parse: Bytes -> Parsed): (r: Result<Dict, QueryError>)
    ensures r.Ok? <==>
      && error.None? && response == HttpResponse(200) && data.Some? && parse(data.value).ParsedDict?
    ensures r.Ok? ==> parse(data.value) == ParsedDict(r.value)
    ensures error.Some? ==> r == Err(Submission(error.value))
    ensures error.None? && !response.HttpResponse? ==> r == Err(Url("No Response"))
    ensures error.None? && response.HttpResponse? && response.statusCode != 200 ==>
      r.Err? && r.error.Url? && r.error.reason == "Status: " + Numerals.Decimal(response.statusCode) + " "
    ensures error.None? && response == HttpResponse(200) && data.None? ==> r == Err(NoData)
    ensures error.None? && response == HttpResponse(200) && data.Some? && parse(data.value).ParseThrows? ==>
      r == Err(JsonParse(Some(parse(data.value).cause)))
    ensures error.None? && response == HttpResponse(200) && data.Some? && parse(data.value).NotADict? ==>
      r == Err(JsonParse(None))
  {
    if error.Some? then Err(Submission(error.value))
    else if !response.HttpResponse? then Err(Url("No Response"))
    else if response.statusCode != 200 then Err(Url("Status: " + Numerals.Decimal(response.statusCode) + " "))
    else if data.None? then Err(NoData)
    else match parse(data.value)
      case ParseThrows(cause) => Err(JsonParse(Some(cause)))
      case NotADict => Err(JsonParse(None))
      case ParsedDict(dict) => Ok(dict)
  }

  // ---------------------------------------------------------------------------------------
  // bdbMakeRequest

  /** What `bdbMakeRequest` passes to its completion: the `more` flag and the selected list. */
  datatype Response = Response(more: bool, data: Result<seq<Dict>, QueryError>)

  /** Whether the body announces more than one page (a `total_pages` above 1). The source
      computes this flag and then never uses it. */
  function Full(res: Result<Dict, QueryError>): (full: bool)
    ensures full <==> res.Ok? && HasDict(res.value, "page") && AsInt(res.value["page"].fields, "total_pages").GetOr(0) > 1
  {
    var page := if res.Ok? then AsDict(res.value, "page") else None;
    match page
    case None => false
    case Some(p) => AsInt(p, "total_pages").GetOr(0) > 1
  }

  /** The list a body holds: `_embedded[path]` for a collection endpoint, the body itself
      (as a one-element list) for an entity endpoint; anything but an array of objects under
      `_embedded[path]` is a model error. */
  function SelectData(path: string, embedded: bool, body: Dict): (r: Result<seq<Dict>, QueryError>)
    ensures !embedded ==> r == Ok([body])
    ensures embedded ==>
      (r.Ok? <==> HasDict(body, "_embedded") && HasDictArray(body["_embedded"].fields, path))
    ensures embedded && r.Ok? ==>
      body["_embedded"].fields[path] == JArray(seq(|r.value|, i requires 0 <= i < |r.value| => JObject(r.value[i])))
    ensures r.Err? ==> r.error == ModelError(DICT_ARRAY_EXPECTED)
  {
    if !embedded then Ok([body])
    else
      var selected := match AsDict(body, "_embedded")
        case None => None
        case Some(e) => AsArray(e, path);
      match selected
      case None => Err(ModelError(DICT_ARRAY_EXPECTED))
      case Some(data) => Ok(data)
  }

  /** The completion of `bdbMakeRequest` for the result `makeRequest` delivered: `more` is
      `false && (embedded && full)`, hence always false whatever `total_pages` says; a request
      error passes through unchanged. */
  function BdbMakeRequest(path: string, embedded: bool, res: Result<Dict, QueryError>): (r: Response)
    ensures !r.more
    ensures res.Err? ==> r.data == Err(res.error)
    ensures res.Ok? ==> r.data == SelectData(path, embedded, res.value)
  {
    var full := Full(res);
    Response(false && (embedded && full),
      match res
      case Err(e) => Err(e)
      case Ok(body) => SelectData(path, embedded, body))
  }

  /** Even a body that announces several pages yields `more == false`: continuation is switched
      off for every endpoint. */
  lemma MoreIgnoresTotalPages(path: string, body: Dict, pages: int)
    requires 1 < pages < INT64_LIMIT
    ensures Full(Ok(body["page" := JObject(map["total_pages" := JNumber(pages, 0)])]))
    ensures !BdbMakeRequest(path, true, Ok(body["page" := JObject(map["total_pages" := JNumber(pages, 0)])])).more
  {
  }
}
