/** Clients of the agent: the mapping forms exercised by test/index.js, driven through
    `addRequest` and then `createConnection` on the same options, as Node's agent does. */
module Scenarios {
  import opened Js
  import opened DomainResolver
  import opened HostHeader
  import opened Agent

  /** A request for `hostname` on `port` whose Host header, with the value `hostHeader`, sits in
      the `outHeadersKey` store, dispatched and then connected through `agent` on one options
      object; returns the options as `createConnection` leaves them, and the header store.
      Node builds `hostHeader` as `hostname` on the default port and as `hostname:port` otherwise. */
  method Dispatch(agent: HijackedAgent, hostname: string, hostHeader: string, port: int, tls: bool)
    returns (options: RequestOptions, headers: Headers)
    ensures headers.host == ReplaceHost(agent.domainMap, ArrayValue(["Host", hostHeader]))
    ensures options.host == ReplaceDomain(agent.domainMap, hostname)
    ensures options.hostname == ReplaceDomain(agent.domainMap, ReplaceDomain(agent.domainMap, hostname))
    ensures options.servername == (if tls then ReplaceDomain(agent.domainMap, ReplaceDomain(agent.domainMap, hostname)) else "")
    ensures options.port == port
  {
    headers := new Headers(ArrayValue(["Host", hostHeader]));
    var other := new Headers(OtherValue);
    var req := new Request(hostname, null, [Slot(Symbol("kOutHeaders"), other), Slot(Symbol("outHeadersKey"), headers)]);
    options := new RequestOptions(hostname, hostname, "", port);
    OutHeadersKeyTagMatches(Symbol("kOutHeaders"));
    OutHeadersKeyTagMatches(Symbol("outHeadersKey"));
    var slots := req.symbolSlots;
    assert FirstOutHeadersSlot(slots[1..]) == 0;
    assert FirstOutHeadersSlot(slots) == 1;
    agent.AddRequest(req, options);
    if tls {
      // Stand-in for Node's TLS agent, which fills in the server name from the request's host.
      options.servername := options.host;
    }
    agent.CreateConnection(options);
  }

  /** A plain-object mapping: `options.host`, `options.hostname` and the Host header all name
      the replacement, and the port is kept. */
  method TableMappingScenario() {
    var agent := new HijackedAgent();
    agent.domainMap := FromTable(map["httpbin.org" := "example.com"]);
    var options, headers := Dispatch(agent, "httpbin.org", "httpbin.org", 80, false);
    assert options.host == "example.com" && options.hostname == "example.com" && options.port == 80;
    assert headers.host == ArrayValue(["Host", "example.com"]);
  }

  /** A `Map` mapping over TLS: the server name and `options.hostname` are the replacement. */
  method MapMappingScenario() {
    var agent := new HijackedAgent();
    agent.domainMap := FromMap(map["httpbin.org" := "example.com"]);
    var options, headers := Dispatch(agent, "httpbin.org", "httpbin.org", 443, true);
    assert options.hostname == "example.com" && options.servername == "example.com";
    assert options.port == 443;
  }

  /** A mapping function that returns `undefined` for other hosts leaves them alone. */
  method FunctionMappingScenario() {
    var agent := new HijackedAgent();
    agent.domainMap := FromFunction(d => if d == "httpbin.org" then "example.com" else "");
    var options, headers := Dispatch(agent, "httpbin.org", "httpbin.org", 80, false);
    assert options.hostname == "example.com";
    options, headers := Dispatch(agent, "unknown.example", "unknown.example", 80, false);
    assert options.hostname == "unknown.example";
    assert headers.host == ArrayValue(["Host", "unknown.example"]);
  }

  /** An agent without a mapping passes every request through. */
  method NoMappingScenario() {
    var agent := new HijackedAgent();
    var options, headers := Dispatch(agent, "httpbin.org", "httpbin.org", 80, false);
    assert options.hostname == "httpbin.org" && options.host == "httpbin.org";
    assert headers.host == ArrayValue(["Host", "httpbin.org"]);
  }

  /** A chained table `a -> b -> c`: one pass leaves `b` in `options.host` and the Host header,
      while `options.hostname`, resolved at both hooks, ends at `c`. */
  method ChainedMappingScenario() {
    var agent := new HijackedAgent();
    agent.domainMap := FromTable(map["a.example" := "b.example", "b.example" := "c.example"]);
    var options, headers := Dispatch(agent, "a.example", "a.example", 80, false);
    assert options.host == "b.example" && headers.host == ArrayValue(["Host", "b.example"]);
    assert options.hostname == "c.example";
  }

  /** A request whose `outHeadersKey` property holds `null`: the probe as written throws on it,
      whereas `AddRequest` rewrites the hostname fields and leaves the legacy store alone. */
  method NullOutHeadersStoreScenario() {
    var agent := new HijackedAgent();
    agent.domainMap := FromTable(map["httpbin.org" := "example.com"]);
    var legacy := new Headers(OtherValue);
    var slots := [Slot(Symbol("outHeadersKey"), null)];
    assert FirstOutHeadersSlot(slots) == 0;
    NullOutHeadersStoreThrows(agent.domainMap, slots);
    assert OutHeadersProbeAsWritten(agent.domainMap, slots).Failure?;
    var req := new Request("httpbin.org", legacy, slots);
    var options := new RequestOptions("httpbin.org", "httpbin.org", "", 80);
    agent.AddRequest(req, options);
    assert req.hostname == "example.com" && options.hostname == "example.com";
    assert legacy.host == OtherValue;
  }

  /** On a non-default port the Host header carries a `:port` suffix, and `replaceDomain` looks
      up that whole string: a table keyed by hostname rewrites `options.host` and
      `options.hostname` but leaves the header as it is. */
  method PortSuffixScenario() {
    var agent := new HijackedAgent();
    agent.domainMap := FromTable(map["httpbin.org" := "example.com"]);
    var options, headers := Dispatch(agent, "httpbin.org", "httpbin.org:8080", 8080, false);
    assert options.host == "example.com" && options.hostname == "example.com";
    assert headers.host == ArrayValue(["Host", "httpbin.org:8080"]);
  }
}
