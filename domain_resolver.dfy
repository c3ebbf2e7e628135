/** `replaceDomain` (index.js:14-31): resolve one hostname through the agent's mapping source. */
module DomainResolver {
  import opened Js

  /** The agent's `domainMap`, described by the capabilities that `replaceDomain` probes.
      - `Absent` is any falsy value (the agent's default `undefined`, `null`, ...).
      - `Present(call, get, own)` is any truthy value:
        `call` is `Some(f)` exactly when the value itself passes `isFunction`;
        `get` is `Some(g)` exactly when its `get` property passes `isFunction` (a `Map`);
        `own` holds its own string-keyed properties (a plain object used as a table).
      Functions return "" for every falsy result, `undefined` included. */
  datatype MappingSource =
    | Absent
    | Present(call: Option<string -> string>, get: Option<string -> string>, own: map<string, string>)

  /** A plain object `{ from: to, ... }` used as a table. */
  function FromTable(table: map<string, string>): MappingSource {
    Present(None, None, table)
  }

  /** A `Map` filled with `set(from, to)`: its `get` yields `undefined` for a missing key. */
  function FromMap(entries: map<string, string>): MappingSource {
    Present(None, Some(d => if d in entries then entries[d] else ""), map[])
  }

  /** A mapping function `(domain) => replacement | undefined`. */
  function FromFunction(f: string -> string): MappingSource {
    Present(Some(f), None, map[])
  }

  /** The one lookup that `replaceDomain` makes for `domain`, before any fallback:
      the call, else the `get` call, else the own entry; `None` when there is none. */
  function Lookup(domainMap: MappingSource, domain: string): Option<string> {
    match domainMap
    case Absent => None
    case Present(call, get, own) =>
      if call.Some? then Some(call.value(domain))
      else if get.Some? then Some(get.value(domain))
      else if domain in own then Some(own[domain])
      else None
  }

  /** A falsy domain, or no mapping source, is returned unchanged; otherwise the first
      capability found decides, and a falsy answer falls back to the domain itself. */
  function ReplaceDomain(domainMap: MappingSource, domain: string): (r: string)
    ensures Truthy(r) <==> Truthy(domain)
    ensures r != domain ==> Lookup(domainMap, domain) == Some(r)
    ensures (Truthy(domain) && Lookup(domainMap, domain).Some? && Truthy(Lookup(domainMap, domain).value))
            ==> r == Lookup(domainMap, domain).value
  {
    if !Truthy(domain) then domain
    else match domainMap
      case Absent => domain
      case Present(call, get, own) =>
        if call.Some? then Or(call.value(domain), domain)
        else if get.Some? then Or(get.value(domain), domain)
        else if domain in own then Or(own[domain], domain)
        else domain
  }

  /** A falsy domain comes back as it is, whatever the mapping source. */
  lemma FalsyDomainUnchanged(domainMap: MappingSource, domain: string)
    requires !Truthy(domain)
    ensures ReplaceDomain(domainMap, domain) == domain
  {
  }

  /** Without a mapping source every domain comes back as it is. */
  lemma AbsentMapUnchanged(domain: string)
    ensures ReplaceDomain(Absent, domain) == domain
  {
  }

  /** A function mapping source is consulted first: its truthy answer wins, a falsy one falls
      back to the domain, and a `get` property or own entries on the function play no part. */
  lemma FunctionFormFirst(f: string -> string, get: Option<string -> string>, own: map<string, string>, domain: string)
    requires Truthy(domain)
    ensures ReplaceDomain(Present(Some(f), get, own), domain) == (if Truthy(f(domain)) then f(domain) else domain)
    ensures ReplaceDomain(Present(Some(f), get, own), domain) == ReplaceDomain(FromFunction(f), domain)
  {
  }

  /** A callable `get` is consulted before own entries: its truthy answer wins, a falsy one
      falls back to the domain, and the own entries play no part. */
  lemma AccessorBeforeTable(g: string -> string, own: map<string, string>, domain: string)
    requires Truthy(domain)
    ensures ReplaceDomain(Present(None, Some(g), own), domain) == (if Truthy(g(domain)) then g(domain) else domain)
    ensures ReplaceDomain(Present(None, Some(g), own), domain) == ReplaceDomain(Present(None, Some(g), map[]), domain)
  {
  }

  /** A plain table maps an own key with a truthy value to that value; an own key with a falsy
      value, and a missing key, leave the domain as it is (no error either way). */
  lemma TableLookup(table: map<string, string>, domain: string)
    requires Truthy(domain)
    ensures domain in table && Truthy(table[domain]) ==> ReplaceDomain(FromTable(table), domain) == table[domain]
    ensures domain in table && !Truthy(table[domain]) ==> ReplaceDomain(FromTable(table), domain) == domain
    ensures domain !in table ==> ReplaceDomain(FromTable(table), domain) == domain
  {
  }

  /** A `Map` behaves as the table holding the same entries. */
  lemma MapAgreesWithTable(entries: map<string, string>, domain: string)
    ensures ReplaceDomain(FromMap(entries), domain) == ReplaceDomain(FromTable(entries), domain)
  {
  }

  /** A domain the mapping leaves alone is left alone again when resolved a second time.
      This follows by substitution; the single-pass facts with content are the second
      `ensures` of `ReplaceDomain` (a replacement is the one lookup's answer) and
      `Agent.ChainFreeTableResolvesOnce`. */
  lemma UnmappedStaysUnmapped(domainMap: MappingSource, domain: string)
    requires ReplaceDomain(domainMap, domain) == domain
    ensures ReplaceDomain(domainMap, ReplaceDomain(domainMap, domain)) == domain
  {
  }

  /** One pass, no chaining: with `a -> b` and `b -> c`, `a` resolves to `b`, not `c`. */
  lemma SinglePass()
    ensures ReplaceDomain(FromTable(map["a.example" := "b.example", "b.example" := "c.example"]), "a.example")
            == "b.example"
  {
  }
}
