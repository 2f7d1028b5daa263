/**
 * The Elasticsearch connector object: its construction from a data source's
 * settings, the lazily created client handle behind `connect` and
 * `disconnect`, and the two queries `getTypes` and `buildSearch`.
 */
module ElasticConnector {
  import opened Wrappers
  import opened JsValues
  import opened ConnectorSettings
  import Lifecycle

  /**
   * A search-engine client. Creating one and closing it are calls into the
   * client library; the model keeps only the parameters it was created with
   * and whether it has been closed.
   */
  class Client {
    /** Which client this is: the number of clients its connector had created before. */
    ghost const id: nat
    const param: Option<ConnParam>
    var closed: bool

    constructor (ghost id: nat, param: Option<ConnParam>)
      ensures this.id == id && this.param == param && !closed
    {
      this.id := id;
      this.param := param;
      closed := false;
    }

    method Close()
      modifies this
      ensures closed
    {
      closed := true;
    }

    ghost function View(): (v: Lifecycle.HandleView)
      reads this
    {
      Lifecycle.HandleView(id, param, closed)
    }
  }

  /** The owning data source, reduced to the two properties the connector uses. */
  class DataSource {
    var settings: Settings
    var connector: Elasticsearch?

    constructor (settings: Settings)
      ensures this.settings == settings && connector == null
    {
      this.settings := settings;
      connector := null;
    }
  }

  /** The `{index, type}` object `buildSearch` returns. */
  datatype Search = Search(index: Value, docType: Value)

  class Elasticsearch {
    const name: string := "elasticsearch"
    /** The settings object; `connect` reads its `connParam`. */
    const settings: Settings
    const debug: Value
    const index: Value
    const docType: Value
    const dataSource: DataSource
    /** The client handle, created by the first `connect`. */
    var db: Option<Client>
    /** How many clients this connector has created. */
    ghost var created: nat

    /**
     * The index and type are the constructor's defaults over the settings,
     * and at most one client exists, built from `settings.connParam`. The
     * last two conditions are `Lifecycle.Valid(View())` without the closed
     * flag, so that the predicate reads only the connector.
     */
    ghost predicate Valid()
      reads this
    {
      index == ResolveIndex(settings) && docType == ResolveType(settings) &&
      created == (if db.Some? then 1 else 0) &&
      (db.Some? ==> db.value.id == 0 && db.value.param == settings.connParam)
    }

    /** The objects the connector's state reaches: its client, if any. */
    function Handles(): (s: set<object>)
      reads this
    {
      if db.Some? then {db.value} else {}
    }

    /** The connection state as a value of the state machine in Lifecycle. */
    ghost function View(): (v: Lifecycle.Conn)
      reads this, Handles()
    {
      Lifecycle.Conn(if db.Some? then Some(db.value.View()) else None, created)
    }

    /**
     * The constructor: stores the settings and the data source, and fixes the
     * index (`settings.index` or "loopback"), the type (`settings.type` or '')
     * and the debug flag (`settings.debug` or the debug logger's state).
     */
    constructor (settings: Settings, dataSource: DataSource, debugEnabled: bool)
      ensures Valid() && View() == Lifecycle.Init
      ensures this.settings == settings && this.dataSource == dataSource
      ensures index == ResolveIndex(settings) && docType == ResolveType(settings)
      ensures debug == ResolveDebug(settings, debugEnabled)
    {
      this.settings := settings;
      debug := Or(settings.debug, Bool(debugEnabled));
      index := Or(settings.index, DefaultIndex);
      docType := Or(settings.docType, DefaultType);
      this.dataSource := dataSource;
      db := None;
      created := 0;
    }

    /**
     * `connect`: the first call creates a client from `settings.connParam` and
     * stores it; every later call leaves the state alone and reports the same
     * client object. The error reported is always null.
     */
    method Connect() returns (err: Value, handle: Client)
      requires Valid()
      modifies this
      ensures Valid()
      ensures err == Null
      ensures db == Some(handle)
      ensures (View(), handle.View()) == Lifecycle.Connect(old(View()), settings.connParam)
      ensures old(db).Some? ==> handle == old(db).value && created == old(created)
      ensures old(db).None? ==> fresh(handle)
    {
      if db.Some? {
        handle := db.value;
      } else {
        handle := new Client(created, settings.connParam);
        db := Some(handle);
        created := created + 1;
      }
      err := Null;
    }

    /**
     * `disconnect`: closes the stored client, if any. The connector itself is
     * not modified, so `db` still refers to the same, now closed, client.
     */
    method Disconnect()
      requires Valid()
      modifies Handles()
      ensures Valid()
      ensures db == old(db)
      ensures db.Some? ==> db.value.closed
      ensures View() == Lifecycle.Disconnect(old(View()))
    {
      if db.Some? {
        db.value.Close();
      }
    }

    /** `getTypes`: the fixed capability tags, the last being the connector's name. */
    function GetTypes(): (r: seq<string>)
      ensures |r| == 3 && r[0] == "db" && r[1] == "nosql" && r[2] == name
    {
      ["db", "nosql", "elasticsearch"]
    }

    /**
     * `buildSearch`: the connector's index, and the model name as the type
     * when it is truthy, else the connector's type. `rule` is ignored.
     */
    function BuildSearch(model: Value, rule: Value): (r: Search)
      ensures r.index == index
      ensures Truthy(model) ==> r.docType == model
      ensures !Truthy(model) ==> r.docType == docType
    {
      Search(index, Or(model, docType))
    }
  }

  /**
   * What `buildSearch` yields in terms of the settings the connector was
   * built from: the index is never falsy, and the type is falsy only when
   * neither the model name nor `settings.type` is truthy, and then it is ''.
   */
  lemma BuildSearchFromSettings(c: Elasticsearch, model: Value, rule: Value)
    requires c.Valid()
    ensures c.BuildSearch(model, rule).index == if Truthy(c.settings.index) then c.settings.index else Str("loopback")
    ensures c.BuildSearch(model, rule).docType ==
      if Truthy(model) then model else if Truthy(c.settings.docType) then c.settings.docType else Str("")
    ensures Truthy(c.BuildSearch(model, rule).index)
    ensures Truthy(c.BuildSearch(model, rule).docType) <==> Truthy(model) || Truthy(c.settings.docType)
  {
  }

  /** `buildSearch` reads nothing but the index, the type and the model name. */
  lemma BuildSearchReadsOnlyIndexAndType(c: Elasticsearch, d: Elasticsearch, model: Value, rule: Value, rule': Value)
    requires c.index == d.index && c.docType == d.docType
    ensures c.BuildSearch(model, rule) == d.BuildSearch(model, rule')
  {
  }

  /** `getTypes` is the same for every connector, whatever its settings. */
  lemma GetTypesIgnoresSettings(c: Elasticsearch, d: Elasticsearch)
    ensures c.GetTypes() == d.GetTypes() == ["db", "nosql", "elasticsearch"]
  {
  }

  /**
   * `initialize`: writes the connection parameters into the data source's
   * settings, builds the connector over those settings, installs it on the
   * data source and, when a callback is given, connects and reports the
   * callback's `(err, db)` arguments.
   */
  method Initialize(dataSource: DataSource, debugEnabled: bool, hasCallback: bool)
    returns (reply: Option<(Value, Client)>)
    modifies dataSource
    ensures dataSource.settings ==
      old(dataSource.settings).(connParam := Some(GenerateConnectionParam(old(dataSource.settings))))
    ensures dataSource.connector != null && fresh(dataSource.connector)
    ensures dataSource.connector.Valid()
    ensures dataSource.connector.settings == dataSource.settings
    ensures dataSource.connector.dataSource == dataSource
    ensures dataSource.connector.debug == ResolveDebug(old(dataSource.settings), debugEnabled)
    ensures dataSource.connector.View() ==
      if hasCallback then Lifecycle.Connect(Lifecycle.Init, dataSource.settings.connParam).0
      else Lifecycle.Init
    ensures hasCallback ==>
      dataSource.connector.db.Some? && fresh(dataSource.connector.db.value) &&
      !dataSource.connector.db.value.closed &&
      dataSource.connector.db.value.param == Some(GenerateConnectionParam(old(dataSource.settings))) &&
      reply == Some((Null, dataSource.connector.db.value))
    ensures !hasCallback ==> dataSource.connector.db == None && reply == None
  {
    var s := dataSource.settings;
    s := s.(connParam := Some(GenerateConnectionParam(s)));
    dataSource.settings := s;
    var connector := new Elasticsearch(s, dataSource, debugEnabled);
    dataSource.connector := connector;
    if hasCallback {
      var err, db := connector.Connect();
      reply := Some((err, db));
    } else {
      reply := None;
    }
  }
}
