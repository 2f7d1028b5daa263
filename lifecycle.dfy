/**
 * The connector's connection state machine as values: the lazily created,
 * single client handle that `connect` creates or reports and `disconnect`
 * closes. The connector class is specified against these functions, and the
 * lemmas here say what any sequence of calls does.
 */
module Lifecycle {
  import opened Wrappers
  import opened ConnectorSettings

  /**
   * A client handle as seen from outside: `id` is the number of handles the
   * connector had created before it (it stands for the identity of the client
   * object), `param` what it was created with, `closed` whether it was closed.
   */
  datatype HandleView = HandleView(id: nat, param: Option<ConnParam>, closed: bool)

  /** The connector's stored handle, if any, and how many handles it has created. */
  datatype Conn = Conn(db: Option<HandleView>, created: nat)

  /** A freshly constructed connector: no handle yet. */
  const Init: Conn := Conn(None, 0)

  /** At most one handle per connector: a handle exists exactly when one was created. */
  predicate Valid(c: Conn) {
    c.created == (if c.db.Some? then 1 else 0) && (c.db.Some? ==> c.db.value.id == 0)
  }

  /** Two views of the same client object (its closed flag may differ). */
  predicate SameHandle(a: HandleView, b: HandleView) {
    a.id == b.id && a.param == b.param
  }

  /**
   * `connect`: reports the stored handle, or creates one from `param`, stores
   * it and reports it. Either way the reported handle is the stored one.
   */
  function Connect(c: Conn, param: Option<ConnParam>): (r: (Conn, HandleView))
    ensures r.0.db == Some(r.1)
    ensures Valid(c) ==> Valid(r.0)
  {
    match c.db
    case Some(h) => (c, h)
    case None =>
      var h := HandleView(c.created, param, false);
      (Conn(Some(h), c.created + 1), h)
  }

  /** `disconnect`: closes the stored handle, if any, and keeps it stored. */
  function Disconnect(c: Conn): (r: Conn)
    ensures Valid(c) ==> Valid(r)
  {
    match c.db
    case Some(h) => c.(db := Some(h.(closed := true)))
    case None => c
  }

  /** With a handle stored, `connect` changes nothing and reports that handle. */
  lemma ConnectReusesHandle(c: Conn, param: Option<ConnParam>)
    requires c.db.Some?
    ensures Connect(c, param) == (c, c.db.value)
  {
  }

  /** Without a handle, `connect` creates exactly one, open, built from `param`. */
  lemma ConnectCreatesHandle(c: Conn, param: Option<ConnParam>)
    requires c.db.None?
    ensures Connect(c, param).0.created == c.created + 1
    ensures Connect(c, param).1 == HandleView(c.created, param, false)
  {
  }

  /** Two successive connects report the same handle and create at most one. */
  lemma ConnectTwice(c: Conn, param: Option<ConnParam>)
    ensures Connect(Connect(c, param).0, param) == Connect(c, param)
    ensures Connect(c, param).0.created <= c.created + 1
  {
  }

  /**
   * `disconnect` never clears the stored handle: the same handle stays stored
   * and only its closed flag is set; nothing happens when there is none.
   */
  lemma DisconnectKeepsHandle(c: Conn)
    ensures Disconnect(c).created == c.created
    ensures Disconnect(c).db.Some? <==> c.db.Some?
    ensures c.db.Some? ==> Disconnect(c).db == Some(c.db.value.(closed := true))
  {
  }

  /**
   * Because `disconnect` keeps the handle, a later `connect` creates nothing
   * and reports the closed handle.
   */
  lemma ConnectAfterDisconnectReportsClosedHandle(c: Conn, param: Option<ConnParam>)
    requires c.db.Some?
    ensures Connect(Disconnect(c), param).1.closed
    ensures SameHandle(Connect(Disconnect(c), param).1, c.db.value)
    ensures Connect(Disconnect(c), param).0.created == c.created
  {
  }

  /** A call on the connector's connection state. */
  datatype Op = ConnectOp | DisconnectOp

  function Step(c: Conn, op: Op, param: Option<ConnParam>): (r: Conn) {
    match op
    case ConnectOp => Connect(c, param).0
    case DisconnectOp => Disconnect(c)
  }

  /** The state after running `ops` in order. */
  function Run(c: Conn, ops: seq<Op>, param: Option<ConnParam>): (r: Conn)
    decreases |ops|
  {
    if ops == [] then c else Run(Step(c, ops[0], param), ops[1..], param)
  }

  /** The handles reported by the connects among `ops`, in order. */
  function Replies(c: Conn, ops: seq<Op>, param: Option<ConnParam>): (r: seq<HandleView>)
    decreases |ops|
  {
    if ops == [] then []
    else
      (if ops[0] == ConnectOp then [Connect(c, param).1] else [])
      + Replies(Step(c, ops[0], param), ops[1..], param)
  }

  /**
   * Over any sequence of calls the connector creates at most one handle, and
   * once it has one it keeps that same handle to the end.
   */
  lemma {:induction false} RunKeepsAtMostOneHandle(c: Conn, ops: seq<Op>, param: Option<ConnParam>)
    requires Valid(c)
    ensures Valid(Run(c, ops, param))
    ensures Run(c, ops, param).created <= 1
    ensures c.db.Some? ==> Run(c, ops, param).db.Some? && SameHandle(Run(c, ops, param).db.value, c.db.value)
    decreases |ops|
  {
    if ops != [] {
      var next := Step(c, ops[0], param);
      assert Valid(next);
      assert c.db.Some? ==> next.db.Some? && SameHandle(next.db.value, c.db.value);
      RunKeepsAtMostOneHandle(next, ops[1..], param);
    }
  }

  /** After a sequence of calls a handle exists exactly when one existed before or some call was a connect. */
  lemma {:induction false} RunHasHandleIffConnected(c: Conn, ops: seq<Op>, param: Option<ConnParam>)
    ensures Run(c, ops, param).db.Some? <==> c.db.Some? || ConnectOp in ops
    decreases |ops|
  {
    if ops != [] {
      assert ops == [ops[0]] + ops[1..];
      RunHasHandleIffConnected(Step(c, ops[0], param), ops[1..], param);
    }
  }

  /**
   * Every connect in a sequence of calls reports the same client: the one
   * stored at the end, created from the parameters of the first connect that
   * had to create one.
   */
  lemma {:induction false} RepliesReportOneHandle(c: Conn, ops: seq<Op>, param: Option<ConnParam>)
    requires Valid(c)
    ensures |Replies(c, ops, param)| > 0 ==> Run(c, ops, param).db.Some?
    ensures Run(c, ops, param).db.Some? ==>
      forall i | 0 <= i < |Replies(c, ops, param)| ::
        SameHandle(Replies(c, ops, param)[i], Run(c, ops, param).db.value)
    ensures forall i | 0 <= i < |Replies(c, ops, param)| ::
      Replies(c, ops, param)[i].param == if c.db.Some? then c.db.value.param else param
    decreases |ops|
  {
    if ops != [] {
      var next := Step(c, ops[0], param);
      var rest := Replies(next, ops[1..], param);
      var end := Run(c, ops, param);
      assert end == Run(next, ops[1..], param);
      RepliesReportOneHandle(next, ops[1..], param);
      RunKeepsAtMostOneHandle(next, ops[1..], param);
      var origin := if c.db.Some? then c.db.value.param else param;
      assert (if next.db.Some? then next.db.value.param else param) == origin;
      var head := if ops[0] == ConnectOp then [Connect(c, param).1] else [];
      assert Replies(c, ops, param) == head + rest;
      var r := Replies(c, ops, param);
      forall i | 0 <= i < |r|
        ensures end.db.Some? && SameHandle(r[i], end.db.value) && r[i].param == origin
      {
        if i < |head| {
          assert r[i] == head[i] && next.db == Some(head[i]);
        } else {
          var j := i - |head|;
          assert r[i] == rest[j];
          assert SameHandle(rest[j], end.db.value);
        }
      }
    } else {
      assert Replies(c, ops, param) == [];
    }
  }
}
