/** `replaceHeaders` (index.js:33-39): rewrite the `host` entry of an outgoing header store. */
module HostHeader {
  import opened Js
  import opened DomainResolver

  /** The value held under `host` in a header store.
      - `ArrayValue(items)`: a JavaScript array, such as `["Host", "example.com"]`;
      - `StringValue(s)`: a string (primitive or `String` object), as `isString` recognises it;
      - `OtherValue`: anything else (`undefined`, a number, a plain object). */
  datatype HostEntry =
    | ArrayValue(items: seq<string>)
    | StringValue(s: string)
    | OtherValue

  /** A header store: an object whose `host` entry the agent rewrites in place. */
  class Headers {
    var host: HostEntry

    constructor (host: HostEntry)
      ensures this.host == host
    {
      this.host := host;
    }
  }

  /** The new `host` entry: a `[name, value]` pair with a truthy value has only its value slot
      resolved; a truthy string is resolved whole; every other shape is kept.
      The pair branch is taken by arrays only (see `ReplaceHeadersAsWritten`). */
  function ReplaceHost(domainMap: MappingSource, host: HostEntry): (r: HostEntry)
    ensures r.ArrayValue? <==> host.ArrayValue?
    ensures r.StringValue? <==> host.StringValue?
    ensures r.ArrayValue? ==> |r.items| == |host.items|
    ensures r.ArrayValue? ==> forall i :: 0 <= i < |r.items| && i != 1 ==> r.items[i] == host.items[i]
    ensures r.ArrayValue? && r.items != host.items ==> |host.items| == 2 && Truthy(host.items[1])
    ensures host.ArrayValue? && |host.items| == 2 ==> r.items[1] == ReplaceDomain(domainMap, host.items[1])
    ensures r.StringValue? ==> r.s == ReplaceDomain(domainMap, host.s)
    ensures host.OtherValue? ==> r == host
  {
    match host
    case ArrayValue(items) =>
      if |items| == 2 && Truthy(items[1]) then ArrayValue(items[1 := ReplaceDomain(domainMap, items[1])])
      else host
    case StringValue(s) =>
      if Truthy(s) then StringValue(ReplaceDomain(domainMap, s)) else host
    case OtherValue => host
  }

  /** For a `[name, value]` pair with a truthy value only slot 1 is replaced; slot 0 is kept. */
  lemma PairValueSlotOnly(domainMap: MappingSource, name: string, value: string)
    requires Truthy(value)
    ensures ReplaceHost(domainMap, ArrayValue([name, value])) == ArrayValue([name, ReplaceDomain(domainMap, value)])
  {
  }

  /** A truthy string is replaced whole, whatever its length. */
  lemma StringReplacedWhole(domainMap: MappingSource, s: string)
    requires Truthy(s)
    ensures ReplaceHost(domainMap, StringValue(s)) == StringValue(ReplaceDomain(domainMap, s))
  {
  }

  /** An array that is not a pair, a pair with a falsy value, a falsy string and any other value
      are left untouched. */
  lemma OtherShapesUntouched(domainMap: MappingSource, host: HostEntry)
    requires host.ArrayValue? ==> |host.items| != 2 || !Truthy(host.items[1])
    requires host.StringValue? ==> !Truthy(host.s)
    ensures ReplaceHost(domainMap, host) == host
  {
  }

  /** A host entry whose domain is unmapped is left as it is. */
  lemma UnmappedHostUntouched(domainMap: MappingSource, host: HostEntry)
    requires host.ArrayValue? && |host.items| == 2 ==> ReplaceDomain(domainMap, host.items[1]) == host.items[1]
    requires host.StringValue? ==> ReplaceDomain(domainMap, host.s) == host.s
    ensures ReplaceHost(domainMap, host) == host
  {
    if host.ArrayValue? && |host.items| == 2 {
      assert host.items[1 := host.items[1]] == host.items;
    }
  }

  /** `replaceHeaders` as index.js:33-39 is written, on a store that may be `null`.
      Reading `headers.host` of `null` throws a TypeError. The test `host.length == 2 && host[1]`
      also accepts a two-character string (its index 1 is a one-character string, which is truthy),
      and the assignment `host[1] = ...` to a string index throws a TypeError under "use strict". */
  function ReplaceHeadersAsWritten(domainMap: MappingSource, headers: Option<HostEntry>): (r: Result<HostEntry, JsError>)
    ensures r.Failure? <==> headers.None? || (headers.value.StringValue? && |headers.value.s| == 2)
    ensures r.Ok? ==> r.value == ReplaceHost(domainMap, headers.value)
  {
    match headers
    case None => Failure(TypeError("Cannot read property 'host' of null"))
    case Some(host) =>
      match host
      case ArrayValue(items) =>
        if |items| == 2 && Truthy(items[1]) then Ok(ArrayValue(items[1 := ReplaceDomain(domainMap, items[1])]))
        else Ok(host)
      case StringValue(s) =>
        if Truthy(s) && |s| == 2 then Failure(TypeError("Cannot assign to read only property '1' of string"))
        else if Truthy(s) then Ok(StringValue(ReplaceDomain(domainMap, s)))
        else Ok(host)
      case OtherValue => Ok(host)
  }

  /** Counterexample: a store whose `host` is the string "db" (a request to host `db` on the
      default port) makes the code as written throw, whereas the string branch was meant for it. */
  lemma TwoCharacterHostThrows(domainMap: MappingSource)
    ensures ReplaceHeadersAsWritten(domainMap, Some(StringValue("db"))).Failure?
    ensures ReplaceHost(domainMap, StringValue("db")) == StringValue(ReplaceDomain(domainMap, "db"))
  {
  }
}
