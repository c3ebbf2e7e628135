/** The agent side of index.js: `hijackedAddRequest` (41-61) and `hijackedCreateConnection` (63-66),
    as run by `HijackedHttpAgent` and `HijackedHttpsAgent` (68-90) before they hand the request or
    the connection to Node's own agent. */
module Agent {
  import opened Js
  import opened DomainResolver
  import opened HostHeader

  /** A symbol, known by its description; `Symbol.prototype.toString` gives "Symbol(<description>)". */
  datatype Symbol = Symbol(description: string)

  function SymbolToString(symbol: Symbol): string {
    "Symbol(" + symbol.description + ")"
  }

  /** The string the source compares each symbol's `toString()` with. */
  const OutHeadersKeyTag := "Symbol(outHeadersKey)"

  /** Comparing `toString()` with "Symbol(outHeadersKey)" selects exactly the symbols whose
      description is `outHeadersKey`. */
  lemma OutHeadersKeyTagMatches(symbol: Symbol)
    ensures SymbolToString(symbol) == OutHeadersKeyTag <==> symbol.description == "outHeadersKey"
  {
    var t := SymbolToString(symbol);
    if t == OutHeadersKeyTag {
      assert |symbol.description| == |"outHeadersKey"|;
      forall i | 0 <= i < |symbol.description|
        ensures symbol.description[i] == "outHeadersKey"[i]
      {
        assert symbol.description[i] == t[7 + i];
      }
    }
  }

  /** One own symbol-keyed property of a request, in property order, with the header store
      it holds (`null` when it holds none). */
  datatype Slot = Slot(symbol: Symbol, store: Headers?)

  /** The index of the first slot whose symbol reads "Symbol(outHeadersKey)", or `|slots|`
      when there is none. */
  function FirstOutHeadersSlot(slots: seq<Slot>): (k: nat)
    ensures k <= |slots|
    ensures k < |slots| ==> SymbolToString(slots[k].symbol) == OutHeadersKeyTag
    ensures forall j :: 0 <= j < k ==> SymbolToString(slots[j].symbol) != OutHeadersKeyTag
  {
    if |slots| == 0 then 0
    else if SymbolToString(slots[0].symbol) == OutHeadersKeyTag then 0
    else 1 + FirstOutHeadersSlot(slots[1..])
  }

  /** The header store held by that first matching slot, `null` when there is none. */
  function OutHeadersStore(slots: seq<Slot>): Headers? {
    var k := FirstOutHeadersSlot(slots);
    if k < |slots| then slots[k].store else null
  }

  /** An outgoing request (`ClientRequest`) as the agent sees it. */
  class Request {
    var hostname: string
    /** `req._headers`, the legacy header store; `null` when it is falsy. */
    var legacyHeaders: Headers?
    /** `Object.getOwnPropertySymbols(req)` with the value under each symbol. */
    var symbolSlots: seq<Slot>

    constructor (hostname: string, legacyHeaders: Headers?, symbolSlots: seq<Slot>)
      ensures this.hostname == hostname
      ensures this.legacyHeaders == legacyHeaders && this.symbolSlots == symbolSlots
    {
      this.hostname := hostname;
      this.legacyHeaders := legacyHeaders;
      this.symbolSlots := symbolSlots;
    }
  }

  /** The options object handed to `addRequest` and, later, to `createConnection`. */
  class RequestOptions {
    var host: string
    var hostname: string
    var servername: string
    var port: int

    constructor (host: string, hostname: string, servername: string, port: int)
      ensures this.host == host && this.hostname == hostname
      ensures this.servername == servername && this.port == port
    {
      this.host := host;
      this.hostname := hostname;
      this.servername := servername;
      this.port := port;
    }
  }

  /** The header stores a dispatch may rewrite: the legacy store and the first
      `outHeadersKey` store, those that are not `null`. */
  function RewrittenStores(req: Request): set<Headers>
    reads req
  {
    var legacy := req.legacyHeaders;
    var store := OutHeadersStore(req.symbolSlots);
    (if legacy != null then {legacy} else {}) + (if store != null then {store} else {})
  }

  /** `HijackedHttpAgent` / `HijackedHttpsAgent`: Node's agent with a `domainMap`. */
  class HijackedAgent {
    var domainMap: MappingSource

    /** `new HijackedHttpAgent()`: no mapping until one is assigned. */
    constructor ()
      ensures domainMap == Absent
    {
      domainMap := Absent;
    }

    /** `replaceHeaders(self, headers)`: only `headers.host` changes, to the rewritten entry. */
    method ReplaceHeaders(headers: Headers)
      modifies headers`host
      ensures headers.host == ReplaceHost(domainMap, old(headers.host))
    {
      var host := headers.host;
      if host.ArrayValue? && |host.items| == 2 && Truthy(host.items[1]) {
        headers.host := ArrayValue(host.items[1 := ReplaceDomain(domainMap, host.items[1])]);
      } else if host.StringValue? && Truthy(host.s) {
        headers.host := StringValue(ReplaceDomain(domainMap, host.s));
      }
    }

    /** `hijackedAddRequest(self, req, options)`: resolves `req.hostname`, `options.host` and
        `options.hostname`, then the `host` entry of the legacy store and of the first
        `outHeadersKey` store. Nothing else changes. A `null` store is skipped. When both stores
        are one object, its entry is rewritten twice, as the source would. */
    method AddRequest(req: Request, options: RequestOptions)
      modifies req`hostname, options`host, options`hostname, RewrittenStores(req)`host
      ensures req.hostname == ReplaceDomain(domainMap, old(req.hostname))
      ensures options.host == ReplaceDomain(domainMap, old(options.host))
      ensures options.hostname == ReplaceDomain(domainMap, old(options.hostname))
      ensures var legacy, store := req.legacyHeaders, OutHeadersStore(req.symbolSlots);
        && (legacy != null && legacy != store ==> legacy.host == ReplaceHost(domainMap, old(legacy.host)))
        && (store != null && store != legacy ==> store.host == ReplaceHost(domainMap, old(store.host)))
        && (legacy != null && legacy == store ==>
              legacy.host == ReplaceHost(domainMap, ReplaceHost(domainMap, old(legacy.host))))
      ensures req.legacyHeaders == old(req.legacyHeaders) && req.symbolSlots == old(req.symbolSlots)
      ensures options.servername == old(options.servername) && options.port == old(options.port)
      ensures forall k :: 0 <= k < |req.symbolSlots| && req.symbolSlots[k].store != null
                && req.symbolSlots[k].store !in RewrittenStores(req)
                ==> req.symbolSlots[k].store.host == old(req.symbolSlots[k].store.host)
    {
      req.hostname := ReplaceDomain(domainMap, req.hostname);
      options.host := ReplaceDomain(domainMap, options.host);
      options.hostname := ReplaceDomain(domainMap, options.hostname);

      if req.legacyHeaders != null {
        ReplaceHeaders(req.legacyHeaders);
      }

      var slots := req.symbolSlots;
      ghost var legacy, store := req.legacyHeaders, OutHeadersStore(slots);
      ghost var legacyHost := if legacy != null then legacy.host else OtherValue;
      ghost var storeHost := if store != null then store.host else OtherValue;
      var i := 0;
      while i < |slots|
        invariant i <= |slots|
        invariant forall j :: 0 <= j < i ==> SymbolToString(slots[j].symbol) != OutHeadersKeyTag
        invariant store != null ==> store.host == storeHost
        invariant legacy != null && legacy != store ==> legacy.host == legacyHost
      {
        if SymbolToString(slots[i].symbol) == OutHeadersKeyTag {
          if slots[i].store != null {
            ReplaceHeaders(slots[i].store);
          }
          break;
        }
        i := i + 1;
      }
    }

    /** `hijackedCreateConnection(self, options)`: resolves `options.servername` and
        `options.hostname`; `options.host`, the port and every other field are kept. */
    method CreateConnection(options: RequestOptions)
      modifies options`servername, options`hostname
      ensures options.servername == ReplaceDomain(domainMap, old(options.servername))
      ensures options.hostname == ReplaceDomain(domainMap, old(options.hostname))
      ensures options.host == old(options.host) && options.port == old(options.port)
    {
      options.servername := ReplaceDomain(domainMap, options.servername);
      options.hostname := ReplaceDomain(domainMap, options.hostname);
    }
  }

  /** `options.hostname` is resolved at dispatch (index.js:44) and, on the options Node passes
      on to `createConnection`, again at connect (index.js:65). With a table free of chains,
      the second pass changes nothing. */
  lemma ChainFreeTableResolvesOnce(table: map<string, string>, hostname: string)
    requires forall d :: d in table ==> table[d] !in table
    ensures var once := ReplaceDomain(FromTable(table), hostname);
            ReplaceDomain(FromTable(table), once) == once
  {
    var once := ReplaceDomain(FromTable(table), hostname);
    if once != hostname {
      assert hostname in table && once == table[hostname];
    }
  }

  /** With a chained table `a -> b -> c`, one pass (`options.host`, the Host header) gives `b`,
      and the two passes `options.hostname` goes through give `c`. */
  lemma SecondPassCascades()
    ensures var m := FromTable(map["a.example" := "b.example", "b.example" := "c.example"]);
            ReplaceDomain(m, "a.example") == "b.example"
            && ReplaceDomain(m, ReplaceDomain(m, "a.example")) == "c.example"
  {
  }

  /** The objects whose `host` entries `OutHeadersProbeAsWritten` reads. */
  function SlotStores(slots: seq<Slot>): set<Headers> {
    set k | 0 <= k < |slots| && slots[k].store != null :: slots[k].store
  }

  /** The symbol probe of index.js:52-58 as written: the first slot whose symbol reads
      "Symbol(outHeadersKey)" has its value handed to `replaceHeaders` with no test that it is
      an object, and the loop stops there. `Ok(None)`: no slot matched; `Ok(Some(h))`: the
      matched store's host entry becomes `h`. */
  function OutHeadersProbeAsWritten(domainMap: MappingSource, slots: seq<Slot>): (r: Result<Option<HostEntry>, JsError>)
    reads SlotStores(slots)
    ensures var k := FirstOutHeadersSlot(slots);
            && (k == |slots| ==> r == Ok(None))
            && (k < |slots| && slots[k].store == null ==> r.Failure?)
            && (k < |slots| && slots[k].store != null ==>
                  r == (match ReplaceHeadersAsWritten(domainMap, Some(slots[k].store.host))
                        case Ok(h) => Ok(Some(h))
                        case Failure(e) => Failure(e)))
  {
    if |slots| == 0 then Ok(None)
    else if SymbolToString(slots[0].symbol) == OutHeadersKeyTag then
      var store := slots[0].store;
      match ReplaceHeadersAsWritten(domainMap, if store == null then None else Some(store.host))
      case Ok(h) => Ok(Some(h))
      case Failure(e) => Failure(e)
    else
      assert SlotStores(slots[1..]) <= SlotStores(slots) by {
        forall k | 0 <= k < |slots[1..]| && slots[1..][k].store != null
          ensures slots[1..][k].store in SlotStores(slots)
        {
          assert slots[1..][k] == slots[k + 1];
        }
      }
      OutHeadersProbeAsWritten(domainMap, slots[1..])
  }

  /** Counterexample: when the first `outHeadersKey` slot holds `null`, the probe as written
      throws, while `OutHeadersStore` is `null` and `AddRequest` rewrites no symbol-keyed store. */
  lemma NullOutHeadersStoreThrows(domainMap: MappingSource, slots: seq<Slot>)
    requires FirstOutHeadersSlot(slots) < |slots| && slots[FirstOutHeadersSlot(slots)].store == null
    ensures OutHeadersProbeAsWritten(domainMap, slots).Failure?
    ensures OutHeadersStore(slots) == null
  {
  }
}
