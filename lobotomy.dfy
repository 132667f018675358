/** The plugin itself (lib/index.js): a route table per connection created at
    registration, `server.lobotomize(options)` adding one entry per virtual
    host to every such table, and the `onRequest` decision that answers a
    matching request with the registered payload and status code. */
module Lobotomy {
  import opened Values
  import opened Schema
  import opened Router

  /** What the `onRequest` extension does with a request: let it continue to
      the application's own handler, or reply with a body and a status code.
      The status code is whatever value `code(...)` is given. */
  datatype Response = Continue | Reply(payload: Value, statusCode: Value)

  /** Why `lobotomize` throws: the server has no connection, the options break
      the schema, or the options were `undefined` and the loop reads
      `settings.vhost` of them. */
  datatype Failure = NoConnections | InvalidOptions | MissingSettings

  datatype Status = Done | Failed(why: Failure)

  /** `reply(handler.payload).code(handler.statusCode)`: the handler's payload
      and status code are read as properties. A function handler is never
      called: its own `payload` and `statusCode` properties are read, and are
      `undefined` for a function without them. The headers are not applied. */
  function Answer(h: Handler): (o: Response)
    ensures o.Reply?
    ensures h.Static? ==> o.payload == h.payload && o.statusCode == Num(h.statusCode as real)
    ensures h.Function? ==> o.payload == Get(h.own, "payload") && o.statusCode == Get(h.own, "statusCode")
    ensures h.Function? && "payload" !in h.own && "statusCode" !in h.own ==> o == Reply(Undefined, Undefined)
  {
    match h
    case Static(code, _, payload) => Reply(payload, Num(code as real))
    case Function(_, own) => Reply(Get(own, "payload"), Get(own, "statusCode"))
  }

  /** The decision of `onRequest` on one connection's table: no matching entry
      lets the request continue; a matching entry answers it. */
  function Decide(table: seq<Entry>, req: Request): (o: Response)
    ensures o.Continue? <==> forall k :: 0 <= k < |table| ==> !Matches(table[k], req)
    ensures o.Reply? ==> exists k ::
      && 0 <= k < |table| && Matches(table[k], req) && o == Answer(table[k].route.handler)
      && (table[k].vhost != req.hostname ==>
            forall m :: 0 <= m < |table| ==> !Serves(table[m], req.verb, req.path, req.hostname))
  {
    match Route(table, req)
    case None => Continue
    case Some(e) => Answer(e.route.handler)
  }

  /** The entries one `lobotomize` call adds to a table: one per virtual host,
      in the order of `settings.vhost`. The ensures only expose this closed
      form to the loop proofs; `FanOutAppends` states the property. */
  function EntriesFor(s: Settings): (r: seq<Entry>)
    ensures |r| == |s.vhost|
    ensures forall j :: 0 <= j < |r| ==> r[j] == Entry(s.verb, s.path, s.vhost[j], s)
  {
    seq(|s.vhost|, j requires 0 <= j < |s.vhost| => Entry(s.verb, s.path, s.vhost[j], s))
  }

  /** A connection's table after registering `s`; a connection without a
      table keeps none. */
  function Extended(t: Option<seq<Entry>>, s: Settings): Option<seq<Entry>> {
    match t
    case None => None
    case Some(es) => Some(es + EntriesFor(s))
  }

  /** All connections' tables after registering `s`. The ensures only expose
      the closed form, as for `EntriesFor`. */
  function FanOut(tables: seq<Option<seq<Entry>>>, s: Settings): (r: seq<Option<seq<Entry>>>)
    ensures |r| == |tables|
    ensures forall i :: 0 <= i < |tables| ==> r[i] == Extended(tables[i], s)
  {
    seq(|tables|, i requires 0 <= i < |tables| => Extended(tables[i], s))
  }

  /** A server: its connections, each with the lobotomy route table it was
      given when the plugin was registered, or none. */
  class Server {
    var tables: seq<Option<seq<Entry>>>

    /** A server with `connections` connections and the plugin not yet
        registered. */
    constructor (connections: nat)
      ensures tables == seq(connections, _ => None)
    {
      tables := seq(connections, _ => None);
    }

    /** `server.connection()`: a new connection, without a lobotomy table. */
    method AddConnection()
      modifies this
      ensures tables == old(tables) + [None]
    {
      tables := tables + [None];
    }

    /** `exports.register`: every connection present gets a fresh, empty
        table (replacing any earlier one). */
    method Register()
      modifies this
      ensures |tables| == |old(tables)|
      ensures forall i :: 0 <= i < |tables| ==> tables[i] == Some([])
    {
      var i := 0;
      while i < |tables|
        invariant 0 <= i <= |tables| == |old(tables)|
        invariant forall k :: 0 <= k < i ==> tables[k] == Some([])
      {
        tables := tables[i := Some([])];
        i := i + 1;
      }
    }

    /** `server.lobotomize(options)`: refuses a server without connections,
        then validates, then adds one entry per virtual host to every
        connection that has a table. Nothing is added when it fails. */
    method Lobotomize(options: Value, hostname: string -> bool) returns (status: Status)
      modifies this
      ensures |old(tables)| == 0 ==> status == Failed(NoConnections) && tables == old(tables)
      ensures |old(tables)| > 0 && Validate(options, hostname).Rejected? ==>
        status == Failed(InvalidOptions) && tables == old(tables)
      ensures |old(tables)| > 0 && Validate(options, hostname).Omitted? ==>
        && tables == old(tables)
        && (status == Failed(MissingSettings) <==> exists i :: 0 <= i < |old(tables)| && old(tables)[i].Some?)
        && (status == Failed(MissingSettings) || status == Done)
      ensures |old(tables)| > 0 && Validate(options, hostname).Accepted? ==>
        status == Done && tables == FanOut(old(tables), Validate(options, hostname).settings)
    {
      if |tables| == 0 {
        return Failed(NoConnections);
      }
      var checked := Validate(options, hostname);
      if checked.Rejected? {
        return Failed(InvalidOptions);
      }
      var i := 0;
      while i < |tables|
        invariant 0 <= i <= |tables| == |old(tables)|
        invariant checked.Omitted? ==> forall k :: 0 <= k < i ==> old(tables)[k].None?
        invariant checked.Accepted? ==> forall k :: 0 <= k < i ==> tables[k] == Extended(old(tables)[k], checked.settings)
        invariant forall k :: i <= k < |tables| ==> tables[k] == old(tables)[k]
        invariant checked.Omitted? ==> tables == old(tables)
      {
        if tables[i].Some? {
          if checked.Omitted? {
            return Failed(MissingSettings);
          }
          var s := checked.settings;
          var j := 0;
          assert old(tables)[i].value + EntriesFor(s)[..0] == old(tables)[i].value;
          while j < |s.vhost|
            invariant 0 <= j <= |s.vhost|
            invariant |tables| == |old(tables)| && old(tables)[i].Some?
            invariant tables[i] == Some(old(tables)[i].value + EntriesFor(s)[..j])
            invariant forall k :: 0 <= k < i ==> tables[k] == Extended(old(tables)[k], s)
            invariant forall k :: i < k < |tables| ==> tables[k] == old(tables)[k]
          {
            assert EntriesFor(s)[..j + 1] == EntriesFor(s)[..j] + [Entry(s.verb, s.path, s.vhost[j], s)];
            assert old(tables)[i].value + EntriesFor(s)[..j + 1]
                == (old(tables)[i].value + EntriesFor(s)[..j]) + [Entry(s.verb, s.path, s.vhost[j], s)];
            tables := tables[i := Some(tables[i].value + [Entry(s.verb, s.path, s.vhost[j], s)])];
            j := j + 1;
          }
          assert EntriesFor(s)[..j] == EntriesFor(s);
        }
        i := i + 1;
      }
      return Done;
    }

    /** `onRequest` on connection `connection`. The extension is installed
        only on the connections present when the plugin was registered, the
        same ones that were given a table; elsewhere requests continue. */
    method OnRequest(connection: nat, req: Request) returns (o: Response)
      requires connection < |tables|
      ensures tables[connection].None? ==> o == Continue
      ensures tables[connection].Some? ==> o == Decide(tables[connection].value, req)
    {
      match tables[connection]
      case None => o := Continue;
      case Some(table) => o := Decide(table, req);
    }
  }

  // ---------------------------------------------------------------------
  // What a registration does to later requests

  /** No entry of `EntriesFor(s)` is for another method or path. */
  lemma {:induction false} NoneServesOther(s: Settings, verb: string, path: string, host: string)
    requires verb != s.verb || path != s.path
    ensures FirstFor(EntriesFor(s), verb, path, host).None?
  {
  }

  /** Registering a route leaves requests for every other method or path as
      they were. */
  lemma {:induction false} DecideOtherRoute(t: seq<Entry>, s: Settings, req: Request)
    requires req.verb != s.verb || req.path != s.path
    ensures Decide(t + EntriesFor(s), req) == Decide(t, req)
  {
    NoneServesOther(s, req.verb, req.path, req.hostname);
    NoneServesOther(s, req.verb, req.path, "*");
    FirstForAppend(t, EntriesFor(s), req.verb, req.path, req.hostname);
    FirstForAppend(t, EntriesFor(s), req.verb, req.path, "*");
    assert Route(t + EntriesFor(s), req) == Route(t, req);
  }

  /** A request that used to continue and that the new registration covers,
      by its host or by "*", is answered with the new handler. */
  lemma {:induction false} DecideRegistered(t: seq<Entry>, s: Settings, req: Request)
    requires req.verb == s.verb && req.path == s.path
    requires req.hostname in s.vhost || "*" in s.vhost
    requires Decide(t, req).Continue?
    ensures Decide(t + EntriesFor(s), req) == Answer(s.handler)
  {
    var u := t + EntriesFor(s);
    var j :| 0 <= j < |s.vhost| && (s.vhost[j] == req.hostname || s.vhost[j] == "*");
    assert Matches(u[|t| + j], req);
    var e := Route(u, req).value;
    var k :| 0 <= k < |u| && u[k] == e;
    assert k >= |t|;
    assert e == EntriesFor(s)[k - |t|];
  }

  /** An entry for the request's own host, once in the table, keeps answering
      it whatever is registered later. */
  lemma {:induction false} DecideKeepsHostEntry(t: seq<Entry>, u: seq<Entry>, req: Request)
    requires FirstFor(t, req.verb, req.path, req.hostname).Some?
    ensures Decide(t + u, req) == Decide(t, req)
  {
    FirstForAppend(t, u, req.verb, req.path, req.hostname);
  }

  /** A registration for the request's own host takes over from wildcard
      entries registered before it. */
  lemma {:induction false} DecideHostBeatsWildcard(t: seq<Entry>, s: Settings, req: Request)
    requires req.verb == s.verb && req.path == s.path && req.hostname in s.vhost
    requires FirstFor(t, req.verb, req.path, req.hostname).None?
    ensures Decide(t + EntriesFor(s), req) == Answer(s.handler)
  {
    var j :| 0 <= j < |s.vhost| && s.vhost[j] == req.hostname;
    var n := FirstFor(EntriesFor(s), req.verb, req.path, req.hostname);
    assert Serves(EntriesFor(s)[j], req.verb, req.path, req.hostname);
    FirstForAppend(t, EntriesFor(s), req.verb, req.path, req.hostname);
    assert n.Some?;
  }

  /** One `lobotomize` adds exactly |vhost| entries to each table, after the
      entries already there, and gives no table to a connection without one. */
  lemma {:induction false} FanOutAppends(tables: seq<Option<seq<Entry>>>, s: Settings, i: nat)
    requires i < |tables|
    ensures tables[i].None? <==> FanOut(tables, s)[i].None?
    ensures tables[i].Some? ==>
      && |FanOut(tables, s)[i].value| == |tables[i].value| + |s.vhost|
      && FanOut(tables, s)[i].value[..|tables[i].value|] == tables[i].value
      && forall j :: 0 <= j < |s.vhost| ==>
           FanOut(tables, s)[i].value[|tables[i].value| + j] == Entry(s.verb, s.path, s.vhost[j], s)
  {
  }

  // ---------------------------------------------------------------------
  // The scenarios of test/index.js, on the model

  /** Overriding GET / with a static payload of 2 (test/index.js:27-54). */
  method OverridesRoute() {
    var server := new Server(1);
    server.Register();
    var options := Obj(map["path" := Str("/"), "handler" := Obj(map["payload" := Num(2.0)])]);
    var status := server.Lobotomize(options, h => true);
    assert status == Done;
    var o := server.OnRequest(0, Request("get", "/", "localhost"));
    assert o == Reply(Num(2.0), Num(200.0));
    o := server.OnRequest(0, Request("get", "/a", "localhost"));
    assert o == Continue;
  }

  /** A connection added after the plugin was registered is not affected
      (test/index.js:94-123). */
  method IgnoresOtherConnections() {
    var server := new Server(1);
    server.Register();
    server.AddConnection();
    var options := Obj(map["path" := Str("/"), "handler" := Obj(map["payload" := Num(2.0)])]);
    var status := server.Lobotomize(options, h => true);
    assert status == Done;
    var o := server.OnRequest(1, Request("get", "/", "localhost"));
    assert o == Continue;
  }
}
