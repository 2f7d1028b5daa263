# Elasticsearch connector for LoopBack: a verified model

This project models the working part of the LoopBack Elasticsearch connector
(`lib/elasticsearch.js`): how it resolves settings, and its lazy single-handle
connection life cycle.

- **Settings resolution.** `generateElasticsearchConnectionParam` and the
  connector's constructor pick each setting as "the first truthy value, else a
  default". The host name is `hostname`, else `host`, else `127.0.0.1`. The
  port defaults to `9200`, the log level to `warning`, the index to `loopback`
  and the document type to `''`. Setting values are JavaScript primitives
  (`JsValues.Value`), and `Truthy` is JavaScript's truthiness. So an absent
  key, `null`, `false`, `0` and `''` all fall through to the next choice.
- **Connection life cycle.** `connect` creates the search-engine client only
  when none is stored. Otherwise it reports the stored one, and the error is
  always null. `disconnect` closes the stored client but never clears the
  reference to it. The connector is a class (`ElasticConnector.Elasticsearch`)
  with a mutable `db: Option<Client>` field. `Client` is a class too, so
  closing it changes the client object and not the connector. The class
  methods are specified against a value-level state machine (`Lifecycle`).
  Lemmas about any sequence of calls are proved on that state machine: at
  most one client is ever created, and every connect reports that same
  client. The callback's `(err, db)` arguments become the method's results.
- **`getTypes` and `buildSearch`.** These are pure functions of the
  connector: a fixed list of capability tags, and the `{index, type}` pair of
  a search.

Modules: `Wrappers` (Option), `JsValues` (truthiness and `||`),
`ConnectorSettings` (the settings record and its defaults), `Lifecycle`
(the connection state machine as values), `ElasticConnector` (the classes,
`initialize`, `getTypes` and `buildSearch`). The settings key `type` is named
`docType`, because `type` is a Dafny keyword.

When a connector already holds a client, a later `connect` reports that
client even after `disconnect` has closed it. The model keeps this behaviour
(`Lifecycle.ConnectAfterDisconnectReportsClosedHandle`). It does not pick a
policy of clearing the handle on disconnect.

## Model

| member | source | states |
|---|---|---|
| JsValues.Or | lib/elasticsearch.js:16-18 | `a \|\| b` yields `a` when `a` is truthy and `b` when it is falsy; it is truthy iff either operand is |
| JsValues.OrChain | lib/elasticsearch.js:16 | `a \|\| b \|\| c` picks the first truthy operand, else the last; grouping does not matter |
| ConnectorSettings.GenerateConnectionParam | lib/elasticsearch.js:13-20 | host name is `hostname` if truthy, else `host` if truthy, else `127.0.0.1`; port is `port` if truthy, else 9200; log is `log` if truthy, else `warning`; all three results are truthy |
| ConnectorSettings.GenerateConnectionParamReadsOnlyItsKeys | lib/elasticsearch.js:13-20 | the parameters depend only on the `hostname`, `host`, `port` and `log` keys |
| ConnectorSettings.GenerateConnectionParamDefaults | lib/elasticsearch.js:16-18 | with no truthy host, port or log, the result is `127.0.0.1`, 9200, `warning` (so port 0 gives 9200) |
| ConnectorSettings.ResolveIndex | lib/elasticsearch.js:49 | index is `settings.index` if truthy, else `loopback`; never falsy |
| ConnectorSettings.ResolveType | lib/elasticsearch.js:50 | type is `settings.type` if truthy, else `''`; truthy exactly when `settings.type` is |
| ConnectorSettings.ResolveDebug | lib/elasticsearch.js:47 | debug is `settings.debug` if truthy, else the debug logger's enabled flag; truthy iff either is |
| Lifecycle.Connect | lib/elasticsearch.js:69-79 | after connect the stored handle is exactly the reported one; it keeps the at-most-one-handle invariant |
| Lifecycle.Disconnect | lib/elasticsearch.js:88-95 | disconnect keeps the at-most-one-handle invariant |
| Lifecycle.ConnectReusesHandle | lib/elasticsearch.js:71-74 | with a stored handle, connect changes no state and reports that handle |
| Lifecycle.ConnectCreatesHandle | lib/elasticsearch.js:75-77 | without a stored handle, connect creates exactly one open handle from the given parameters |
| Lifecycle.ConnectTwice | lib/elasticsearch.js:69-79 | a second connect gives the same state and the same handle as the first; together they create at most one |
| Lifecycle.DisconnectKeepsHandle | lib/elasticsearch.js:92-94 | disconnect never clears the handle: the same handle stays stored, only its closed flag is set; nothing happens without one |
| Lifecycle.ConnectAfterDisconnectReportsClosedHandle | lib/elasticsearch.js:71-94 | after disconnect, connect creates nothing and reports the same, closed handle |
| Lifecycle.RunKeepsAtMostOneHandle | lib/elasticsearch.js:69-95 | over any sequence of connects and disconnects, at most one handle is created, and a stored handle stays the same to the end |
| Lifecycle.RunHasHandleIffConnected | lib/elasticsearch.js:69-95 | after a sequence of calls a handle exists iff one existed before or some call was a connect |
| Lifecycle.RepliesReportOneHandle | lib/elasticsearch.js:69-79 | every connect in a sequence reports the handle stored at the end, built from the stored handle's parameters or, if none, from the connector's parameters |
| ElasticConnector.Client.constructor | lib/elasticsearch.js:76 | a new client records the parameters it was created with and is open |
| ElasticConnector.Client.Close | lib/elasticsearch.js:93 | closing a client sets its closed flag |
| ElasticConnector.Elasticsearch.constructor | lib/elasticsearch.js:44-56 | stores the settings and the data source; fixes index, type and debug by their defaults; starts with no client |
| ElasticConnector.Elasticsearch.Connect | lib/elasticsearch.js:69-79 | the first connect stores a fresh client built from `settings.connParam`; later ones report the same client object and change nothing; error is null; state moves as `Lifecycle.Connect` |
| ElasticConnector.Elasticsearch.Disconnect | lib/elasticsearch.js:88-95 | `db` is not modified; the stored client, if any, is closed; state moves as `Lifecycle.Disconnect` |
| ElasticConnector.Elasticsearch.GetTypes | lib/elasticsearch.js:81-83 | the tags are `db`, `nosql` and the connector's name `elasticsearch`, in that order |
| ElasticConnector.Elasticsearch.BuildSearch | lib/elasticsearch.js:259-266 | index is the connector's index; type is the model name if truthy, else the connector's type |
| ElasticConnector.BuildSearchFromSettings | lib/elasticsearch.js:259-266 | in terms of the settings: index is `settings.index` or `loopback` and never falsy; type is the model, else `settings.type`, else `''` |
| ElasticConnector.BuildSearchReadsOnlyIndexAndType | lib/elasticsearch.js:259-266 | two connectors with the same index and type give the same search for a model, whatever the rule |
| ElasticConnector.GetTypesIgnoresSettings | lib/elasticsearch.js:81-83 | every connector gives the same list, `['db', 'nosql', 'elasticsearch']` |
| ElasticConnector.Initialize | lib/elasticsearch.js:27-37 | writes the resolved parameters into `settings.connParam` before building the connector and installs it on the data source; fixes the debug flag by its default; with a callback, connects once, so exactly one open client exists, built from exactly those parameters, and the reply is `(null, client)`; without one, no client exists |

## Left out

- `ping` (lib/elasticsearch.js:104-117): a network probe through the client library that waits on the data source's `connected`/`error` events. This is asynchronous I/O.
- `count` (lib/elasticsearch.js:129-137): with a stored client it throws a ReferenceError at `buildWhere()` (line 132), which the repository never defines, before the query at line 133 is sent; without a client it does nothing and never calls back.
- `exists`, `find`, `destroy`, `all`, `create`, `updateOrCreate`, `save`, both `updateAttributes` and `forDb` (lib/elasticsearch.js:150-257): their bodies are empty: they return `undefined` and never call the callback, so there is nothing to state.
- The client library: `new elastic.Client(...)` and `close()` become the `Client` class with its parameters and a closed flag. The library's own connection handling is not part of this model.
- `process.nextTick` in `connect` (lib/elasticsearch.js:72): the reply for an existing client is returned directly. The one-turn deferral is not modelled.
- The `Connector` base constructor from loopback-connector is not part of this model. The model assumes only that it stores the settings as `this.settings`, which `connect` reads.
- The data source object from loopback-datasource-juggler is reduced to its `settings` and `connector` properties. The connector keeps a copy of the settings value. Nothing in this file writes the settings after the connector is built, so the two never differ.
- ElasticConnector.Initialize: the callback is reduced to whether one was given. Its `(null, client)` arguments become the method's result.
- Debug logging (lib/elasticsearch.js:8, 52-54, 89-91) is output only. The `if (!elastic)` guard (lib/elasticsearch.js:28-30) cannot fire once the module has loaded.
- Setting values are integers, strings, booleans, `null` and `undefined`. Floating-point numbers (and `NaN`, which is falsy) and object values are not modelled.
- test/init.js and test/elasticsearch.test.js: configuration loading and a ping against a live server.
