/** The loosely typed JSON the service answers with, and the typed field accessors of
    `BlockChainDB.JSON` (BRBlockChainDB.swift, lines 1312-1360). Every accessor reads one key
    and answers present or absent; none fails partway. */
module Json {
  import opened Wrappers

  const UINT8_LIMIT: int := 0x100
  const UINT64_LIMIT: int := 0x1_0000_0000_0000_0000
  const UINT64_MAX: int := UINT64_LIMIT - 1
  const INT64_MIN: int := -0x8000_0000_0000_0000
  const INT64_LIMIT: int := 0x8000_0000_0000_0000

  type UInt8 = x: int | 0 <= x < 0x100
  type UInt32 = x: int | 0 <= x < 0x1_0000_0000
  type UInt64 = x: int | 0 <= x < 0x1_0000_0000_0000_0000
  type Int32 = x: int | -0x8000_0000 <= x < 0x8000_0000
  type Bytes = seq<bv8>

  /** A JSON value as Foundation's parser delivers it. A number is kept exactly, as the decimal
      `mantissa / 10^scale` (so `5.0` is `JNumber(50, 1)` and is a whole number). */
  datatype Json =
    | JNull
    | JBool(truth: bool)
    | JNumber(mantissa: int, scale: nat)
    | JString(str: string)
    | JArray(items: seq<Json>)
    | JObject(fields: map<string, Json>)

  /** Swift's `[String: Any]`, the body of every JSON object. */
  type Dict = map<string, Json>

  /** An instant, as the fixed-pattern date parser produces it. */
  datatype Date = Date(millis: int)

  /** The two Foundation conversions the decoders use and this model does not define: the
      `DateFormatter` for the wire pattern `yyyy-MM-dd'T'HH:mm:ss.SSSZ` and
      `Data(base64Encoded:)`. Both are partial, hence `Option`. */
  datatype Formats = Formats(parseDate: string -> Option<Date>, decodeBase64: string -> Option<Bytes>)

  function Pow10(n: nat): (r: nat)
    ensures r >= 1
  {
    if n == 0 then 1 else 10 * Pow10(n - 1)
  }

  /** `T(exactly: number)` for an integer type holding [lo, hi): the number must be whole and
      in range. */
  predicate IsExactly(j: Json, lo: int, hi: int) {
    j.JNumber? && j.mantissa % Pow10(j.scale) == 0 && lo <= j.mantissa / Pow10(j.scale) < hi
  }

  function ExactValue(j: Json, lo: int, hi: int): (v: int)
    requires IsExactly(j, lo, hi)
    ensures lo <= v < hi
    ensures j.mantissa == v * Pow10(j.scale)
  {
    j.mantissa / Pow10(j.scale)
  }

  // The shapes a key can hold, one predicate per accessor; the decoders state their required
  // fields with these.

  predicate HasString(d: Dict, name: string) { name in d && d[name].JString? }
  predicate HasBool(d: Dict, name: string) { name in d && d[name].JBool? }
  predicate HasUInt64(d: Dict, name: string) { name in d && IsExactly(d[name], 0, UINT64_LIMIT) }
  predicate HasUInt8(d: Dict, name: string) { name in d && IsExactly(d[name], 0, UINT8_LIMIT) }
  predicate HasDict(d: Dict, name: string) { name in d && d[name].JObject? }

  predicate IsDictArray(j: Json) {
    j.JArray? && forall i :: 0 <= i < |j.items| ==> j.items[i].JObject?
  }

  predicate IsStringArray(j: Json) {
    j.JArray? && forall i :: 0 <= i < |j.items| ==> j.items[i].JString?
  }

  predicate HasDictArray(d: Dict, name: string) { name in d && IsDictArray(d[name]) }
  predicate HasStringArray(d: Dict, name: string) { name in d && IsStringArray(d[name]) }

  function StringAt(d: Dict, name: string): string
    requires HasString(d, name)
  {
    d[name].str
  }

  function UInt64At(d: Dict, name: string): UInt64
    requires HasUInt64(d, name)
  {
    ExactValue(d[name], 0, UINT64_LIMIT)
  }

  /** `dict[name] as? String` */
  function AsString(d: Dict, name: string): (r: Option<string>)
    ensures r.Some? <==> HasString(d, name)
    ensures r.Some? ==> d[name] == JString(r.value)
  {
    if HasString(d, name) then Some(d[name].str) else None
  }

  /** `dict[name] as? Bool` */
  function AsBool(d: Dict, name: string): (r: Option<bool>)
    ensures r.Some? <==> HasBool(d, name)
    ensures r.Some? ==> d[name] == JBool(r.value)
  {
    if HasBool(d, name) then Some(d[name].truth) else None
  }

  /** `(dict[name] as? NSNumber).flatMap { UInt64(exactly: $0) }`: only whole, non-negative
      numbers below 2^64 are accepted, and the value is the number itself, not a rounding. */
  function AsUInt64(d: Dict, name: string): (r: Option<UInt64>)
    ensures r.Some? <==> HasUInt64(d, name)
    ensures r.Some? ==> d[name].mantissa == r.value * Pow10(d[name].scale)
  {
    if HasUInt64(d, name) then Some(ExactValue(d[name], 0, UINT64_LIMIT)) else None
  }

  /** `(dict[name] as? NSNumber).flatMap { UInt8(exactly: $0) }` */
  function AsUInt8(d: Dict, name: string): (r: Option<UInt8>)
    ensures r.Some? <==> HasUInt8(d, name)
    ensures r.Some? ==> d[name].mantissa == r.value * Pow10(d[name].scale)
  {
    if HasUInt8(d, name) then Some(ExactValue(d[name], 0, UINT8_LIMIT)) else None
  }

  /** `dict[name] as? Int` on a 64-bit platform. */
  function AsInt(d: Dict, name: string): (r: Option<int>)
    ensures r.Some? <==> name in d && IsExactly(d[name], INT64_MIN, INT64_LIMIT)
    ensures r.Some? ==> INT64_MIN <= r.value < INT64_LIMIT
    ensures r.Some? ==> d[name].mantissa == r.value * Pow10(d[name].scale)
  {
    if name in d && IsExactly(d[name], INT64_MIN, INT64_LIMIT)
    then Some(ExactValue(d[name], INT64_MIN, INT64_LIMIT))
    else None
  }

  /** `(dict[name] as? String).flatMap { dateFormatter.date(from: $0) }` */
  function AsDate(fmt: Formats, d: Dict, name: string): (r: Option<Date>)
    ensures r.Some? <==> HasString(d, name) && fmt.parseDate(StringAt(d, name)).Some?
    ensures r.Some? ==> r == fmt.parseDate(StringAt(d, name))
  {
    var s :- AsString(d, name);
    fmt.parseDate(s)
  }

  /** The outcome of code that may stop the process (a failed force-unwrap or forced cast). */
  datatype Run<+T> = Returns(value: T) | Traps

  /** `(dict[name] as? String).flatMap { Data(base64Encoded: $0)! }` as written: a string that is
      not valid base64 stops the process. */
  function AsDataAsWritten(fmt: Formats, d: Dict, name: string): (r: Run<Option<Bytes>>)
    ensures r.Traps? <==> HasString(d, name) && fmt.decodeBase64(StringAt(d, name)).None?
    ensures r.Returns? && r.value.Some? ==> HasString(d, name) && r.value == fmt.decodeBase64(StringAt(d, name))
    ensures r.Returns? && r.value.None? ==> !HasString(d, name)
  {
    match AsString(d, name)
    case None => Returns(None)
    case Some(s) => if fmt.decodeBase64(s).None? then Traps else Returns(fmt.decodeBase64(s))
  }

  /** `asData` as evidently intended: like `asDate`, a string that does not decode is absent. */
  function AsData(fmt: Formats, d: Dict, name: string): (r: Option<Bytes>)
    ensures r.Some? <==> HasString(d, name) && fmt.decodeBase64(StringAt(d, name)).Some?
    ensures r.Some? ==> r == fmt.decodeBase64(StringAt(d, name))
  {
    var s :- AsString(d, name);
    fmt.decodeBase64(s)
  }

  /** Where the as-written accessor does not stop the process, it agrees with the corrected one;
      it stops exactly on a string the base64 decoder rejects. */
  lemma AsDataAgreesUnlessTrap(fmt: Formats, d: Dict, name: string)
    ensures AsDataAsWritten(fmt, d, name).Returns? ==> AsDataAsWritten(fmt, d, name).value == AsData(fmt, d, name)
    ensures AsDataAsWritten(fmt, d, name).Traps? ==> AsData(fmt, d, name).None? && HasString(d, name)
  {
  }

  /** A `raw` field holding "%" under a decoder that rejects it stops the process as written,
      where the corrected accessor reports the field absent. */
  lemma AsDataTrapWitness()
    ensures var fmt := Formats(s => Some(Date(0)), s => None);
            AsDataAsWritten(fmt, map["raw" := JString("%")], "raw") == Traps
            && AsData(fmt, map["raw" := JString("%")], "raw") == None
  {
  }

  /** `dict[name] as? [Dict]`: an array all of whose elements are objects. */
  function AsDictArrayValue(j: Json): (r: Option<seq<Dict>>)
    ensures r.Some? <==> IsDictArray(j)
    ensures r.Some? ==> j == JArray(seq(|r.value|, i requires 0 <= i < |r.value| => JObject(r.value[i])))
  {
    if IsDictArray(j)
    then
      var ds := seq(|j.items|, i requires 0 <= i < |j.items| => j.items[i].fields);
      assert j.items == seq(|ds|, i requires 0 <= i < |ds| => JObject(ds[i]));
      Some(ds)
    else None
  }

  /** `dict[name] as? [Dict]` */
  function AsArray(d: Dict, name: string): (r: Option<seq<Dict>>)
    ensures r.Some? <==> HasDictArray(d, name)
    ensures r.Some? ==> d[name] == JArray(seq(|r.value|, i requires 0 <= i < |r.value| => JObject(r.value[i])))
  {
    if name in d then AsDictArrayValue(d[name]) else None
  }

  /** `dict[name] as? Dict` */
  function AsDict(d: Dict, name: string): (r: Option<Dict>)
    ensures r.Some? <==> HasDict(d, name)
    ensures r.Some? ==> d[name] == JObject(r.value)
  {
    if HasDict(d, name) then Some(d[name].fields) else None
  }

  /** The JSON array of strings that `[String]` serialises to. */
  function StringsToJson(ss: seq<string>): (j: Json)
    ensures IsStringArray(j) && |j.items| == |ss|
  {
    JArray(seq(|ss|, i requires 0 <= i < |ss| => JString(ss[i])))
  }

  /** `dict[name] as? [String]` */
  function AsStringArray(d: Dict, name: string): (r: Option<seq<string>>)
    ensures r.Some? <==> HasStringArray(d, name)
    ensures r.Some? ==> d[name] == StringsToJson(r.value)
  {
    if HasStringArray(d, name)
    then
      var items := d[name].items;
      var ss := seq(|items|, i requires 0 <= i < |items| => items[i].str);
      assert items == StringsToJson(ss).items;
      Some(ss)
    else None
  }

  /** Reading back a serialised array of strings gives the strings. */
  lemma {:induction false} StringArrayRoundTrip(ss: seq<string>, d: Dict, name: string)
    requires name in d && d[name] == StringsToJson(ss)
    ensures AsStringArray(d, name) == Some(ss)
  {
    var r := AsStringArray(d, name);
    assert r.Some?;
    assert StringsToJson(r.value) == StringsToJson(ss);
    assert |r.value| == |ss|;
    forall i | 0 <= i < |ss| ensures r.value[i] == ss[i] {
      assert StringsToJson(r.value).items[i] == StringsToJson(ss).items[i];
    }
    assert r.value == ss;
  }
}
