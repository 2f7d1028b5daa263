/**
 * The settings object a data source hands to the connector, and the two ways
 * the connector turns it into concrete parameters: the client connection
 * parameters built by `generateElasticsearchConnectionParam`, and the index,
 * type and debug flag the constructor stores.
 */
module ConnectorSettings {
  import opened Wrappers
  import opened JsValues

  /** The parameters passed to the search-engine client when it is created. */
  datatype ConnParam = ConnParam(hostname: Value, port: Value, log: Value)

  /**
   * The keys of the data source's settings object that the connector reads;
   * an absent key is `Undefined`. `docType` is the `type` key (a Dafny keyword);
   * `connParam` is written by `initialize`.
   */
  datatype Settings = Settings(
    hostname: Value,
    host: Value,
    port: Value,
    log: Value,
    index: Value,
    docType: Value,
    debug: Value,
    connParam: Option<ConnParam>)

  const DefaultHostname: Value := Str("127.0.0.1")
  const DefaultPort: Value := Num(9200)
  const DefaultLog: Value := Str("warning")
  const DefaultIndex: Value := Str("loopback")
  const DefaultType: Value := Str("")

  /**
   * The connection parameters: `hostname`, else `host`, else the loopback
   * address; `port`, else 9200; `log`, else "warning". Each resolved value is
   * truthy, so a port of 0 or an empty host name never reaches the client.
   */
  function GenerateConnectionParam(s: Settings): (p: ConnParam)
    ensures p.hostname == if Truthy(s.hostname) then s.hostname
                          else if Truthy(s.host) then s.host
                          else DefaultHostname
    ensures p.port == if Truthy(s.port) then s.port else DefaultPort
    ensures p.log == if Truthy(s.log) then s.log else DefaultLog
    ensures Truthy(p.hostname) && Truthy(p.port) && Truthy(p.log)
  {
    OrChain(s.hostname, s.host, DefaultHostname);
    ConnParam(Or(Or(s.hostname, s.host), DefaultHostname), Or(s.port, DefaultPort), Or(s.log, DefaultLog))
  }

  /** The parameters depend on `hostname`, `host`, `port` and `log` and on nothing else. */
  lemma GenerateConnectionParamReadsOnlyItsKeys(s: Settings, t: Settings)
    requires s.hostname == t.hostname && s.host == t.host
    requires s.port == t.port && s.log == t.log
    ensures GenerateConnectionParam(s) == GenerateConnectionParam(t)
  {
  }

  /** A settings object without host, port or log yields the documented defaults. */
  lemma GenerateConnectionParamDefaults(s: Settings)
    requires !Truthy(s.hostname) && !Truthy(s.host) && !Truthy(s.port) && !Truthy(s.log)
    ensures GenerateConnectionParam(s) == ConnParam(Str("127.0.0.1"), Num(9200), Str("warning"))
  {
  }

  /** The constructor's index: `settings.index`, else "loopback"; never falsy. */
  function ResolveIndex(s: Settings): (r: Value)
    ensures Truthy(s.index) ==> r == s.index
    ensures !Truthy(s.index) ==> r == Str("loopback")
    ensures Truthy(r)
  {
    Or(s.index, DefaultIndex)
  }

  /**
   * The constructor's document type: `settings.type`, else the empty string.
   * The only falsy type it can produce is the empty string.
   */
  function ResolveType(s: Settings): (r: Value)
    ensures Truthy(s.docType) ==> r == s.docType
    ensures !Truthy(s.docType) ==> r == Str("")
    ensures Truthy(r) <==> Truthy(s.docType)
  {
    Or(s.docType, DefaultType)
  }

  /**
   * The constructor's debug flag: `settings.debug`, else whether the debug
   * logger is enabled in the environment (an input to the model).
   */
  function ResolveDebug(s: Settings, debugEnabled: bool): (r: Value)
    ensures Truthy(r) <==> Truthy(s.debug) || debugEnabled
    ensures Truthy(s.debug) ==> r == s.debug
    ensures !Truthy(s.debug) ==> r == Bool(debugEnabled)
  {
    Or(s.debug, Bool(debugEnabled))
  }
}
