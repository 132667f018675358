/** The per-connection route table that the plugin fills and queries. The
    real table is a router from the `call` package, which is not part of this
    model; it is replaced by an abstract matcher: a request matches an entry
    when method and path are equal and the entry's virtual host is the
    request's hostname or the wildcard "*". An entry for the hostname itself
    is preferred to a wildcard one, and among equal entries the first
    registered is taken. */
module Router {
  import opened Values
  import opened Schema

  /** One `router.add({ method, path, vhost }, settings)`. */
  datatype Entry = Entry(verb: string, path: string, vhost: string, route: Settings)

  /** What `onRequest` asks the router: the request's (lower-case) method,
      its path and its hostname. */
  datatype Request = Request(verb: string, path: string, hostname: string)

  predicate Serves(e: Entry, verb: string, path: string, host: string) {
    e.verb == verb && e.path == path && e.vhost == host
  }

  /** The entry a request may be answered by: same method and path, and the
      request's host or the wildcard host. */
  predicate Matches(e: Entry, req: Request) {
    e.verb == req.verb && e.path == req.path && (e.vhost == req.hostname || e.vhost == "*")
  }

  /** Position of the first entry registered for exactly (verb, path, host). */
  function FirstFor(table: seq<Entry>, verb: string, path: string, host: string): (r: Option<nat>)
    ensures r.Some? ==> r.value < |table| && Serves(table[r.value], verb, path, host)
    ensures r.Some? ==> forall k :: 0 <= k < r.value ==> !Serves(table[k], verb, path, host)
    ensures r.None? ==> forall k :: 0 <= k < |table| ==> !Serves(table[k], verb, path, host)
  {
    if table == [] then None
    else if Serves(table[0], verb, path, host) then Some(0)
    else
      match FirstFor(table[1..], verb, path, host)
      case None => None
      case Some(k) => Some(k + 1)
  }

  /** `router.route(method, path, hostname)`: the entry for the request's own
      host if there is one, otherwise the wildcard entry, otherwise none. */
  function Route(table: seq<Entry>, req: Request): (r: Option<Entry>)
    ensures r.Some? ==> r.value in table && Matches(r.value, req)
    ensures r.None? <==> forall k :: 0 <= k < |table| ==> !Matches(table[k], req)
    ensures r.Some? && r.value.vhost != req.hostname ==>
      forall k :: 0 <= k < |table| ==> !Serves(table[k], req.verb, req.path, req.hostname)
  {
    match FirstFor(table, req.verb, req.path, req.hostname)
    case Some(k) => Some(table[k])
    case None =>
      match FirstFor(table, req.verb, req.path, "*")
      case Some(k) => Some(table[k])
      case None => None
  }

  /** Looking up a host in a longer table: the first table's answer if it has
      one, otherwise the second's, shifted past the first. */
  lemma {:induction false} FirstForAppend(t: seq<Entry>, u: seq<Entry>, verb: string, path: string, host: string)
    ensures FirstFor(t + u, verb, path, host) ==
      match FirstFor(t, verb, path, host)
      case Some(k) => Some(k)
      case None =>
        match FirstFor(u, verb, path, host)
        case Some(k) => Some(|t| + k)
        case None => None
  {
    if t != [] {
      assert (t + u)[0] == t[0];
      assert (t + u)[1..] == t[1..] + u;
      FirstForAppend(t[1..], u, verb, path, host);
    } else {
      assert t + u == u;
    }
  }
}
