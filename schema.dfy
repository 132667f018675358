/** The option schema `internals.route` of lib/index.js: which option objects
    `lobotomize` accepts, and the settings it turns them into (lower-cased
    method, defaults filled in, a single virtual host wrapped in a list). */
module Schema {
  import opened Values

  /** The response side of an override: a function (never called by the
      plugin) or a static reply. */
  datatype Handler =
    | Function(id: nat, own: map<string, Value>)
    | Static(statusCode: int, headers: Option<map<string, Value>>, payload: Value)

  /** The validated settings that every table entry carries. */
  datatype Settings = Settings(
    verb: string,
    path: string,
    handler: Handler,
    vhost: seq<string>,
    filter: Option<nat>,
    once: Option<bool>,
    after: Option<int>)

  /** What validating the options object yields. `Omitted` is an options value
      of `undefined`, which the schema lets through unchanged because the
      object itself is not required. */
  datatype Validation = Accepted(settings: Settings) | Rejected | Omitted

  /** The outcome of checking one optional property: refused, or accepted with
      its normalised value (None when it is absent). */
  datatype Checked<+T> = Fails | Passes(value: T)

  const RouteKeys: set<string> := {"method", "path", "handler", "vhost", "filter", "once", "after"}
  const HandlerKeys: set<string> := {"statusCode", "headers", "payload"}

  // ---------------------------------------------------------------------
  // The method token

  /** A `tchar` of section 3.2.6 of RFC 7230: the characters the method
      pattern of the schema allows. */
  predicate IsTchar(c: char) {
    || ('a' <= c <= 'z')
    || ('A' <= c <= 'Z')
    || ('0' <= c <= '9')
    || c in "!#$%&'*+-.^_`|~"
  }

  /** A non-empty string of `tchar`s. */
  predicate IsToken(s: string) {
    |s| > 0 && forall i :: 0 <= i < |s| ==> IsTchar(s[i])
  }

  predicate IsUpper(c: char) {
    'A' <= c <= 'Z'
  }

  function LowerChar(c: char): char {
    if IsUpper(c) then (c as int + 32) as char else c
  }

  function Lower(s: string): string {
    seq(|s|, i requires 0 <= i < |s| => LowerChar(s[i]))
  }

  /** Lower-casing neither adds nor removes `tchar`s, so checking the pattern
      after lower-casing (as the schema does) accepts exactly the raw tokens. */
  lemma LowerKeepsToken(s: string)
    ensures IsToken(Lower(s)) <==> IsToken(s)
  {
    if IsToken(s) {
      forall i | 0 <= i < |s| ensures IsTchar(Lower(s)[i]) {
        assert IsTchar(s[i]);
      }
    }
    if IsToken(Lower(s)) {
      forall i | 0 <= i < |s| ensures IsTchar(s[i]) {
        assert IsTchar(Lower(s)[i]);
      }
    }
  }

  /** `method`: a string matching the token pattern, lower-cased; "get" when
      absent. */
  function NormalMethod(v: Value): (r: Option<string>)
    ensures v == Undefined ==> r == Some("get")
    ensures v.Str? ==> (r.Some? <==> IsToken(v.s))
    ensures v.Str? && r.Some? ==> |r.value| == |v.s| && forall i :: 0 <= i < |v.s| ==> r.value[i] == LowerChar(v.s[i])
    ensures !v.Str? && v != Undefined ==> r.None?
    ensures r.Some? ==> IsToken(r.value) && forall i :: 0 <= i < |r.value| ==> !IsUpper(r.value[i])
  {
    match v
    case Undefined => Some("get")
    case Str(s) =>
      LowerKeepsToken(s);
      var m := Lower(s);
      if IsToken(m) then Some(m) else None
    case _ => None
  }

  // ---------------------------------------------------------------------
  // Numbers, handler, virtual hosts

  /** A positive safe integer no smaller than `least`, as the `statusCode`
      and `after` rules demand. */
  predicate IsIntegerAtLeast(v: Value, least: int) {
    v.Num? && v.n > 0.0 && IsSafeInteger(v.n) && v.n >= least as real
  }

  function IntegerAtLeast(v: Value, least: int): (r: Option<int>)
    ensures r.Some? <==> IsIntegerAtLeast(v, least)
    ensures r.Some? ==> r.value as real == v.n && least <= r.value <= MaxSafeInteger
  {
    match v
    case Num(x) => if x > 0.0 && IsSafeInteger(x) && x >= least as real then Some(x.Floor) else None
    case _ => None
  }

  /** The static form of a handler, as the schema describes it on the raw
      object: known keys only, a payload, an optional integer status code of
      at least 200 and an optional headers object. */
  predicate IsStaticHandler(props: map<string, Value>) {
    && OnlyKeys(props, HandlerKeys)
    && Get(props, "payload") != Undefined
    && (Get(props, "statusCode") == Undefined || IsIntegerAtLeast(Get(props, "statusCode"), 200))
    && (Get(props, "headers") == Undefined || Get(props, "headers").Obj?)
  }

  /** `handler`: a function, or a static reply with status 200 by default. */
  function NormalHandler(v: Value): (r: Option<Handler>)
    ensures r.Some? <==> v.Func? || (v.Obj? && IsStaticHandler(v.props))
    ensures v.Func? ==> r == Some(Function(v.id, v.own))
    ensures v.Obj? && r.Some? ==> r.value.Static?
    ensures r.Some? && r.value.Static? ==>
      && v.Obj?
      && r.value.payload == Get(v.props, "payload") != Undefined
      && r.value.statusCode >= 200
      && (Get(v.props, "statusCode") == Undefined ==> r.value.statusCode == 200)
      && (Get(v.props, "statusCode").Num? ==> r.value.statusCode as real == Get(v.props, "statusCode").n)
      && (r.value.headers.Some? <==> Get(v.props, "headers") != Undefined)
      && (r.value.headers.Some? ==> r.value.headers.value == Get(v.props, "headers").props)
  {
    match v
    case Func(id, own) => Some(Function(id, own))
    case Obj(props) =>
      var code := if Get(props, "statusCode") == Undefined then Some(200) else IntegerAtLeast(Get(props, "statusCode"), 200);
      var headers := Get(props, "headers");
      if OnlyKeys(props, HandlerKeys) && Get(props, "payload") != Undefined && code.Some? && (headers == Undefined || headers.Obj?) then
        Some(Static(code.value, if headers.Obj? then Some(headers.props) else None, Get(props, "payload")))
      else
        None
    case _ => None
  }

  /** One item of the `vhost` list: a non-empty string the hostname grammar
      accepts. */
  predicate IsHostItem(v: Value, hostname: string -> bool) {
    v.Str? && v.s != "" && hostname(v.s)
  }

  /** `vhost`: a non-empty list of hostnames; a single value counts as a
      one-element list; `["*"]` when absent. */
  function NormalVhost(v: Value, hostname: string -> bool): (r: Option<seq<string>>)
    ensures v == Undefined ==> r == Some(["*"])
    ensures v.Arr? ==> (r.Some? <==> |v.items| >= 1 && forall i :: 0 <= i < |v.items| ==> IsHostItem(v.items[i], hostname))
    ensures v.Arr? && r.Some? ==> |r.value| == |v.items| && forall i :: 0 <= i < |v.items| ==> Str(r.value[i]) == v.items[i]
    ensures !v.Arr? && v != Undefined ==> (r.Some? <==> IsHostItem(v, hostname)) && (r.Some? ==> r.value == [v.s])
    ensures r.Some? ==> |r.value| >= 1 && forall h :: h in r.value ==> h == "*" || hostname(h)
  {
    match v
    case Undefined => Some(["*"])
    case Arr(items) =>
      if |items| >= 1 && forall i :: 0 <= i < |items| ==> IsHostItem(items[i], hostname) then
        Some(HostNames(items))
      else
        None
    case Str(s) => if s != "" && hostname(s) then Some([s]) else None
    case _ => None
  }

  function HostNames(items: seq<Value>): (r: seq<string>)
    requires forall i :: 0 <= i < |items| ==> items[i].Str?
    ensures |r| == |items| && forall i :: 0 <= i < |items| ==> Str(r[i]) == items[i]
  {
    if items == [] then [] else [items[0].s] + HostNames(items[1..])
  }

  // ---------------------------------------------------------------------
  // The whole options object

  /** What the schema demands of an options object, stated on the raw
      properties. */
  ghost predicate Conforms(p: map<string, Value>, hostname: string -> bool) {
    && OnlyKeys(p, RouteKeys)
    && (Get(p, "method") == Undefined || (Get(p, "method").Str? && IsToken(Get(p, "method").s)))
    && Get(p, "path").Str? && Get(p, "path").s != ""
    && (Get(p, "handler").Func? || (Get(p, "handler").Obj? && IsStaticHandler(Get(p, "handler").props)))
    && (|| Get(p, "vhost") == Undefined
        || IsHostItem(Get(p, "vhost"), hostname)
        || (&& Get(p, "vhost").Arr?
            && |Get(p, "vhost").items| >= 1
            && forall i :: 0 <= i < |Get(p, "vhost").items| ==> IsHostItem(Get(p, "vhost").items[i], hostname)))
    && (Get(p, "filter") == Undefined || Get(p, "filter").Func?)
    && (Get(p, "once") == Undefined || Get(p, "once").Bool?)
    && (Get(p, "after") == Undefined || IsIntegerAtLeast(Get(p, "after"), 1))
    && (Get(p, "filter") != Undefined ==> Get(p, "once") == Undefined && Get(p, "after") == Undefined)
  }

  /** What every accepted settings value satisfies. */
  ghost predicate WellFormed(s: Settings, hostname: string -> bool) {
    && IsToken(s.verb)
    && (forall i :: 0 <= i < |s.verb| ==> !IsUpper(s.verb[i]))
    && s.path != ""
    && (s.handler.Static? ==> s.handler.statusCode >= 200 && s.handler.payload != Undefined)
    && |s.vhost| >= 1
    && (forall h :: h in s.vhost ==> h == "*" || hostname(h))
    && (s.after.Some? ==> s.after.value >= 1)
    && (s.filter.Some? ==> s.once.None? && s.after.None?)
  }

  function OptionalFunction(v: Value): Checked<Option<nat>> {
    match v
    case Undefined => Passes(None)
    case Func(id, _) => Passes(Some(id))
    case _ => Fails
  }

  function OptionalBool(v: Value): Checked<Option<bool>> {
    match v
    case Undefined => Passes(None)
    case Bool(b) => Passes(Some(b))
    case _ => Fails
  }

  function OptionalAfter(v: Value): Checked<Option<int>> {
    if v == Undefined then Passes(None)
    else
      match IntegerAtLeast(v, 1)
      case Some(n) => Passes(Some(n))
      case None => Fails
  }

  /** `Joi.attempt(options, internals.route)`: the settings, or a rejection. */
  function Validate(options: Value, hostname: string -> bool): (r: Validation)
    ensures r.Omitted? <==> options == Undefined
    ensures r.Accepted? <==> options.Obj? && Conforms(options.props, hostname)
    ensures r.Accepted? ==> WellFormed(r.settings, hostname)
    ensures r.Accepted? ==>
      && r.settings.verb == NormalMethod(Get(options.props, "method")).value
      && Str(r.settings.path) == Get(options.props, "path")
      && Some(r.settings.handler) == NormalHandler(Get(options.props, "handler"))
      && Some(r.settings.vhost) == NormalVhost(Get(options.props, "vhost"), hostname)
      && OptionalFunction(Get(options.props, "filter")) == Passes(r.settings.filter)
      && OptionalBool(Get(options.props, "once")) == Passes(r.settings.once)
      && OptionalAfter(Get(options.props, "after")) == Passes(r.settings.after)
  {
    match options
    case Undefined => Omitted
    case Obj(p) =>
      var verb := NormalMethod(Get(p, "method"));
      var path := Get(p, "path");
      var handler := NormalHandler(Get(p, "handler"));
      var vhost := NormalVhost(Get(p, "vhost"), hostname);
      var filter := OptionalFunction(Get(p, "filter"));
      var once := OptionalBool(Get(p, "once"));
      var after := OptionalAfter(Get(p, "after"));
      if && OnlyKeys(p, RouteKeys)
         && verb.Some? && path.Str? && path.s != "" && handler.Some? && vhost.Some?
         && filter.Passes? && once.Passes? && after.Passes?
         && (filter.value.Some? ==> once.value.None? && after.value.None?)
      then
        Accepted(Settings(verb.value, path.s, handler.value, vhost.value, filter.value, once.value, after.value))
      else
        Rejected
    case _ => Rejected
  }

  // ---------------------------------------------------------------------
  // Consequences of the schema

  /** The smallest accepted options: a path and a static payload. The method
      becomes "get", the status code 200 and the virtual hosts ["*"]. */
  lemma Defaults(path: string, payload: Value, hostname: string -> bool)
    requires path != "" && payload != Undefined
    ensures
      var r := Validate(Obj(map["path" := Str(path), "handler" := Obj(map["payload" := payload])]), hostname);
      && r.Accepted?
      && r.settings == Settings("get", path, Static(200, None, payload), ["*"], None, None, None)
  {
  }

  /** A key the schema does not list is refused, even when it holds
      `undefined`. */
  lemma UnknownKeyRejected(p: map<string, Value>, key: string, hostname: string -> bool)
    requires key in p && key !in RouteKeys
    ensures Validate(Obj(p), hostname).Rejected?
  {
  }

  /** `filter` together with `once` or `after` is refused. */
  lemma FilterExcludesOnceAndAfter(p: map<string, Value>, hostname: string -> bool)
    requires Get(p, "filter") != Undefined
    requires Get(p, "once") != Undefined || Get(p, "after") != Undefined
    ensures Validate(Obj(p), hostname).Rejected?
  {
  }

  /** `once` together with `after` is not refused. */
  lemma OnceWithAfterAccepted(hostname: string -> bool)
    ensures
      var r := Validate(Obj(map["path" := Str("/"), "handler" := Obj(map["payload" := Num(2.0)]),
                                "once" := Bool(true), "after" := Num(1.0)]), hostname);
      r.Accepted? && r.settings.once == Some(true) && r.settings.after == Some(1)
  {
  }
}
