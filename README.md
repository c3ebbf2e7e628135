# hijacked-http-agent, modelled in Dafny

`hijacked-http-agent` is a Node.js HTTP/HTTPS agent that sends requests for one hostname to another.
The agent holds a `domainMap`, which is a mapping function, a `Map`, or a plain object.
Before Node opens a connection, the agent rewrites the request's destination fields through that map.
This project models the rewriting logic of `index.js` and proves what it changes and what it leaves alone.

- `js_values.dfy` (module `Js`): JavaScript truthiness and `||` on strings, plus `Option`, `Result` and the `TypeError` the code can raise.
- `domain_resolver.dfy` (module `DomainResolver`): `replaceDomain`.
  The mapping source is a record of the capabilities the code probes: is the value callable, does it have a callable `get`, what are its own entries.
  This makes the probe order (function, then `get`, then own table) a property that can be proved.
- `host_header.dfy` (module `HostHeader`): `replaceHeaders` as a value function (`ReplaceHost`).
  Also the code as written, including its two throwing inputs (see Findings).
- `hijacked_agent.dfy` (module `Agent`): the agent as a class with a mutable `domainMap`.
  The request, its options and its header stores are classes whose fields are rewritten in place.
  `AddRequest` keeps the source's `for…of` loop over the request's symbol-keyed properties, which stops at the first `Symbol(outHeadersKey)`.
- `scenarios.dfy` (module `Scenarios`): clients that run the mapping forms of the test suite through `addRequest` and then `createConnection`.

Conventions:
- Every falsy value in a string-valued slot (`undefined`, `null`, `false`, `""`) is written `""`.
- A mapping function's `undefined` result is also `""`.
- Following the code, the Host header is rewritten to the replacement hostname, like `options.host`; the original is not kept.
- The code does not coerce the resolved value to a string.
- The code does not test the symbol-keyed header store before use. `AddRequest` skips a `null` store, which is the corrected behaviour (see Findings). `OutHeadersProbeAsWritten` keeps the missing test.

## Model

| member | source | states |
|---|---|---|
| `DomainResolver.ReplaceDomain` | index.js:14-31 | The result is falsy exactly when the domain is. Any replacement comes from the single lookup the source makes (`Lookup`). A truthy lookup answer for a truthy domain is the result. |
| `DomainResolver.FalsyDomainUnchanged` | index.js:15 | A falsy domain is returned unchanged, whatever the mapping source is. |
| `DomainResolver.AbsentMapUnchanged` | index.js:16 | With no mapping source, every domain is returned unchanged. |
| `DomainResolver.FunctionFormFirst` | index.js:18-20 | A function source gives `f(d)` when truthy, else `d`. A `get` property or own entries on the function change nothing. |
| `DomainResolver.AccessorBeforeTable` | index.js:22-24 | A callable `get` gives `get(d)` when truthy, else `d`. Own entries change nothing. |
| `DomainResolver.TableLookup` | index.js:26-30 | For a table, an own key with a truthy value gives that value. An own key with a falsy value, or a missing key, gives `d`. |
| `DomainResolver.MapAgreesWithTable` | index.js:22-30 | A `Map` and a plain object with the same entries resolve every domain alike. |
| `DomainResolver.UnmappedStaysUnmapped` | index.js:14-31 | A domain that resolves to itself resolves to itself again. |
| `DomainResolver.SinglePass` | index.js:26-27 | One lookup, no chaining: with `a -> b -> c`, `a` resolves to `b`. |
| `HostHeader.ReplaceHost` | index.js:33-39 | Arrays stay arrays of the same length, and only slot 1 can change. Slot 1 changes only when the array is a pair with a truthy value, and it becomes that value resolved. Strings stay strings, resolved whole. Other values are kept. |
| `HostHeader.PairValueSlotOnly` | index.js:34-35 | `[name, value]` with a truthy value becomes `[name, resolved value]`. |
| `HostHeader.StringReplacedWhole` | index.js:36-37 | A truthy string host of any length is replaced by its resolution. |
| `HostHeader.OtherShapesUntouched` | index.js:33-39 | Non-pair arrays, pairs with a falsy value, falsy strings and all other values are left as they are. |
| `HostHeader.UnmappedHostUntouched` | index.js:33-39 | A host entry whose domain resolves to itself is left as it is. |
| `HostHeader.ReplaceHeadersAsWritten` | index.js:33-39 | The code as written fails exactly when the store is `null` or the host is a two-character string. Otherwise it agrees with `ReplaceHost`. |
| `HostHeader.TwoCharacterHostThrows` | index.js:34-35 | The host string `"db"` makes the code as written throw. The corrected rewrite replaces it whole. |
| `Agent.OutHeadersKeyTagMatches` | index.js:55 | `toString()` equals `"Symbol(outHeadersKey)"` exactly when the symbol's description is `outHeadersKey`. |
| `Agent.FirstOutHeadersSlot` | index.js:53-58 | Returns the index of the first slot whose symbol matches, or the slot count when none matches. No earlier slot matches. |
| `Agent.HijackedAgent.constructor` | index.js:68-78 | A new agent has no mapping source. |
| `Agent.HijackedAgent.ReplaceHeaders` | index.js:33-39 | Only `headers.host` changes, and it becomes `ReplaceHost` of its old value. |
| `Agent.HijackedAgent.AddRequest` | index.js:41-61 | `req.hostname`, `options.host` and `options.hostname` become their resolutions. The host entry of the legacy store is rewritten, and so is that of the first `outHeadersKey` store (twice when they are one object). A `null` store is skipped. No other field or store changes. |
| `Agent.HijackedAgent.CreateConnection` | index.js:63-66 | `options.servername` and `options.hostname` become their resolutions. `options.host`, the port and all other fields are kept. |
| `Agent.OutHeadersProbeAsWritten` | index.js:52-58 | The probe as written. With no matching slot it does nothing. With a `null` store in the first matching slot it fails. Otherwise it gives what `replaceHeaders` as written gives for that store. |
| `Agent.NullOutHeadersStoreThrows` | index.js:53-56 | When the first `outHeadersKey` slot holds `null`, the probe as written fails, while `OutHeadersStore` is `null`, so `AddRequest` rewrites no symbol-keyed store. |
| `Agent.ChainFreeTableResolvesOnce` | index.js:41-66 | `options.hostname` is resolved at dispatch and again at connect. With a table in which no value is also a key, the second pass changes nothing. |
| `Agent.SecondPassCascades` | index.js:41-66 | With `a -> b -> c`, one pass gives `b` (`options.host`, the Host header) and two passes give `c` (`options.hostname`). |
| `Scenarios.Dispatch` | index.js:68-77 | A request goes through `addRequest` and then `createConnection` on one options object. The Host header holds its own value (`hostname`, or `hostname:port` off the default port) resolved once. `options.host` holds the hostname resolved once. `options.hostname` and, over TLS, the server name hold it resolved twice. The port is kept. |

## Findings

| source | as written | input that shows it | evidently intended | confidence | as-written member | corrected member |
|---|---|---|---|---|---|---|
| index.js:34-35 | The pair test `host.length == 2 && host[1]` also accepts a two-character string. Then `host[1] = …` assigns to a string index, which throws a TypeError under `"use strict"`. | A legacy store `{ host: "db" }`, i.e. a request to host `db` on the default port. | The pair branch is for arrays only. A string host is replaced whole by the branch at line 36-37. | medium; not executed | `HostHeader.TwoCharacterHostThrows` | `HostHeader.StringReplacedWhole` |
| index.js:53-56 | The store under `Symbol(outHeadersKey)` goes to `replaceHeaders` without the falsy test that line 47 applies to `_headers`. Reading `null.host` throws a TypeError. | A request whose `Symbol(outHeadersKey)` property holds `null`. Which requests Node leaves that way is not part of this model. | Skip a falsy store, as is done for `_headers`. | low; not executed | `Agent.NullOutHeadersStoreThrows` | `Agent.HijackedAgent.AddRequest` |

## Left out

- Delegation to Node's `http.Agent`/`https.Agent` (`super.addRequest`, `super.createConnection`, index.js:68-90) is Node's transport, so it is not modelled. The methods end where the rewrite ends, and the rewrite runs before delegation.
- Scenarios.Dispatch sets the TLS server name from `options.host` before `createConnection`, standing in for Node's agent. Node's copying of the options between the two hooks is not modelled.
- Which options field Node's socket layer connects to (`host` or `hostname`) is not part of this model. The model states only what each field holds after each hook.
- `hijackGlobalAgent` (index.js:92-97) swaps the prototypes of process-global objects and assigns `domainMap` on them. It is not modelled. The per-request opt-out (`agent: false`) belongs to Node, not to this code.
- The `Object.getOwnPropertySymbols` presence test (index.js:52) is taken as true. Symbols are known only by their `toString()`, so two symbols with the same description are indistinguishable, as in the source's comparison.
- DomainResolver.ReplaceDomain: results are strings only. The source passes a non-string answer (number, boxed string) through uncoerced, and the model cannot express that.
- DomainResolver.ReplaceDomain: mapping functions are pure total functions. Side effects (the tests' `called` flag) and the number of calls are not modelled.
- DomainResolver.ReplaceDomain: `isFunction` answers false for async and generator functions (their tag is not `[object Function]`). Such a value is modelled with `call = None`, and its own entries then decide.
- DomainResolver.ReplaceDomain: truthy non-object mapping sources are not modelled. On a string source, `hasOwnProperty` sees character indices. Tables without `hasOwnProperty` (`Object.create(null)`) or with an own `hasOwnProperty` key would throw in the source and are also left out.
- HostHeader.ReplaceHost: the `[name, value]` array is a value. The source writes slot 1 of the array in place, so other references to the same array also see the change, which the model does not capture. Array-like non-array objects are `OtherValue` and kept, whereas the source would write their slot 1.
- HostHeader.ReplaceHeadersAsWritten: string length is counted in characters. JavaScript counts UTF-16 code units, so a host made of one astral character (length 2 there) throws in the source but not in the model. Array-like objects and a boxed `new String("")` (truthy in JavaScript) are not distinguished either.
- test/index.js makes live HTTP(S) requests to external hosts and third-party clients. The mapping forms it exercises are restated in `Scenarios`.
- DNS, TCP and TLS behaviour against the rewritten host, and network errors, are outside the code.
