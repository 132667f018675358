# lobotomy, modelled in Dafny

`lobotomy` is a hapi plugin that lets a test "lobotomize" a route: after
`server.lobotomize({ path, handler, ... })`, requests for that route on that
server are answered with the registered payload and status code instead of
reaching the application's handler. This project models the plugin's three
parts in Dafny and proves what they do:

- the option schema `internals.route` (module `Schema`, `schema.dfy`): a pure
  validator from a JavaScript options value to `Accepted(settings)`,
  `Rejected`, or `Omitted` (options that are `undefined`, which the schema
  lets through). It lower-cases the method and checks it against the
  `tchar` token grammar of section 3.2.6 of RFC 7230. It defaults the method
  to "get", the status code to 200 and the virtual hosts to `["*"]`, and
  wraps a single host in a list. It refuses unknown keys, a missing path or
  payload, a status code below 200, an empty host list, and `filter` given
  together with `once` or `after`;
- the route tables (module `Router`, `router.dfy`): one table per connection,
  each a sequence of entries `(method, path, vhost, settings)`, with an
  abstract matcher in place of the `call` router;
- the plugin (module `Lobotomy`, `lobotomy.dfy`): a `Server` class whose
  `tables` field holds one optional table per connection. `Register` gives
  every connection present an empty table. `Lobotomize` asserts that a
  connection exists, validates, and then runs the nested loop over
  connections and virtual hosts that appends the entries. `OnRequest` applies
  the `onRequest` decision `Decide`: continue when nothing matches, otherwise
  reply with `handler.payload` and `handler.statusCode`.

Two client methods, `Lobotomy.OverridesRoute` and
`Lobotomy.IgnoresOtherConnections`, replay the scenarios of
test/index.js:27-92 and test/index.js:94-123 on the model, and the verifier
proves their expected outcomes.

JavaScript values are the datatype `Values.Value`. Reading a property that
holds `undefined` gives the same as reading a missing one, but the key still
counts as one of the object's keys, so an unknown key is refused even when it
holds `undefined`. Numbers are reals. A function is an
identity together with its own properties. The plugin never calls a function,
but it does read properties of one.

The hostname grammar of the validation library is not part of this model. It
is a parameter `hostname: string -> bool` of `Validate` and `Lobotomize`.

test/index.js:125-157 and 188-297 expect `once`, `after` and `filter` to control when a
route is overridden, and expects function handlers to be invoked.
lib/index.js implements none of this. `onRequest` never reads `once`, `after`
or `filter`. For a function handler it replies with the function's own
`payload` and `statusCode` properties, which are `undefined` for a function
without such properties. The model follows the code. These options are
validated and stored in the settings, and nothing ever reads them.

## Model

| member | source | states |
|---|---|---|
| `Schema.NormalMethod` | lib/index.js:35 | an absent method becomes "get"; a string is accepted exactly when it is a non-empty string of `tchar`s, and the result is that string lower-cased (same length, each character lower-cased); anything else is refused; an accepted method is a token without upper-case letters |
| `Schema.LowerKeepsToken` | lib/index.js:35 | lower-casing before the pattern check accepts exactly the strings that are tokens before lower-casing |
| `Schema.IntegerAtLeast` | lib/index.js:40 | a number rule `positive().integer().min(least)`: accepted exactly for a positive safe integer (at most 2^53 - 1) at least `least`, with that integer as result |
| `Schema.NormalHandler` | lib/index.js:37-45 | accepted exactly for a function or an object with only `statusCode`/`headers`/`payload`, a defined payload, a status code that is absent or an integer ≥ 200, and headers that are absent or an object; a function stays a function; an accepted object becomes a static handler, which keeps the payload and the given headers, has status ≥ 200, 200 when absent, the given number otherwise |
| `Schema.NormalVhost` | lib/index.js:46 | absent gives `["*"]`; a list is accepted exactly when it is non-empty and every item is a non-empty hostname string, and keeps those strings in order; any other single value is accepted exactly when it is such a string and becomes a one-element list; every result is non-empty and holds only "*" or hostnames |
| `Schema.Validate` | lib/index.js:34-51 | `Omitted` exactly for `undefined`; without the library's string conversions (see Left out), `Accepted` exactly when the options are an object meeting every rule of the schema, stated on the raw properties (`Conforms`); accepted settings are well formed (lower-case token method, non-empty path, status ≥ 200, non-empty hosts, `after` ≥ 1, `filter` excludes `once` and `after`) and are the normalised value of each property |
| `Schema.Defaults` | lib/index.js:35-46 | options with only a path and a static payload are accepted as method "get", status 200 without headers, virtual hosts `["*"]`, no filter, once or after |
| `Schema.UnknownKeyRejected` | lib/index.js:34 | options with a key the schema does not list are rejected, whatever that key holds, `undefined` included |
| `Schema.FilterExcludesOnceAndAfter` | lib/index.js:47-51 | options giving `filter` together with `once` or `after` are rejected |
| `Schema.OnceWithAfterAccepted` | lib/index.js:48-51 | `once` and `after` together are accepted and kept |
| `Router.FirstFor` | lib/index.js:77 | finds the first entry registered for exactly (method, path, host), or reports that none exists |
| `Router.Route` | lib/index.js:77 | a found entry is in the table and matches the request (same method and path, the request's host or "*"); nothing is found exactly when no entry matches; a wildcard entry is returned only when no entry exists for the request's own host |
| `Router.FirstForAppend` | lib/index.js:77 | looking up in a table extended by later entries gives the earlier table's answer if it has one, otherwise the later entries' answer shifted past the earlier ones |
| `Lobotomy.Answer` | lib/index.js:82-83 | the reply always overrides; a static handler replies with its payload and status code; a function handler is not called, and its reply carries the function's own `payload` and `statusCode` properties (both undefined when the function has neither) |
| `Lobotomy.Decide` | lib/index.js:74-84 | the request continues exactly when no entry matches it; otherwise the reply is the answer of the handler of a matching entry, and that entry is a wildcard one only when no entry exists for the request's own host |
| `Lobotomy.Server.constructor` | test/index.js:29-30 | a new server has the given number of connections, none with a table |
| `Lobotomy.Server.AddConnection` | test/index.js:103 | a connection added later has no table; the others are unchanged |
| `Lobotomy.Server.Register` | lib/index.js:15-20 | every connection present gets a fresh, empty table |
| `Lobotomy.Server.Lobotomize` | lib/index.js:54-71 | with no connection it fails and changes nothing; invalid options fail and change nothing; `undefined` options change nothing and fail exactly when some connection has a table; valid options succeed and every table becomes `FanOut` of the old tables |
| `Lobotomy.Server.OnRequest` | lib/index.js:74-84 | a connection without a table lets every request continue; on a connection with a table the outcome is `Decide` on that table |
| `Lobotomy.FanOutAppends` | lib/index.js:60-70 | after one registration a connection has a table exactly when it had one before; the table keeps its old entries as a prefix and gains exactly \|vhost\| entries, the j-th carrying (method, path, vhost[j], settings) |
| `Lobotomy.DecideOtherRoute` | lib/index.js:77-80 | registering a route leaves the outcome of every request for another method or path unchanged |
| `Lobotomy.DecideRegistered` | lib/index.js:65-83 | a request that used to continue, and whose method, path and host (or "*") the registration covers, is answered with the registered handler |
| `Lobotomy.DecideKeepsHostEntry` | lib/index.js:77 | once an entry for the request's own host is in the table, later registrations do not change the request's outcome |
| `Lobotomy.DecideHostBeatsWildcard` | lib/index.js:77 | a registration for the request's own host answers it even when wildcard entries were registered before |

## Left out

- hapi plumbing: `register.attributes`, `server.decorate`, `server.ext` and the `reply` interface (lib/index.js:22-31) are framework glue. `OnRequest` models only where hapi runs the extension, which is the connections present at registration.
- The `call` router is not part of this model. It is replaced by exact matching on method and path, with the request's host preferred to "*". Path patterns, parameters, wildcards, specificity ordering, the HEAD-to-GET fallback and the `*` method are not modelled.
- `Router.Route`: `call` throws a conflict error when the same (method, path, vhost) is added twice. The model appends the second entry, and the first one keeps answering.
- `Lobotomy.Server.Lobotomize`: because that conflict is not modelled, the model reports `Done` with the full fan-out where the source throws from inside the loop at lib/index.js:65-68. That happens for `vhost: ["a.com", "a.com"]` or for the same route lobotomized twice. Entries for earlier connections and virtual hosts have already been added by then. So in the source, registration is all-or-nothing only for the failures before the loop: no connection, and invalid options. Likewise `call` throws on a path it cannot parse, such as `path: "abc"`, and the model reports `Done` for it, since path patterns are not modelled.
- `Schema.IntegerAtLeast`: the validation library converts numeric strings such as "200" to numbers. The model accepts only numbers, because that library's conversion rules are not part of this model.
- `Schema.Validate`: the validation library also converts boolean strings such as "true" for `once`. The model accepts only booleans there, for the same reason.
- `Schema.Validate`: in convert mode the validation library also JSON-parses a string found where an object or an array is expected. This covers the options value itself, `handler`, `headers` and `vhost` (for example `'["a.com"]'`). The source accepts such strings and the model rejects them. The iff with `Conforms` holds for the model without this conversion.
- `Schema.NormalMethod`: lower-cases ASCII letters only. Unicode case mapping is not modelled.
- `Schema.Validate`: a rejection carries no error details. The library's error messages are not modelled.
- Hostname syntax is the parameter `hostname`, because the library's hostname grammar is not part of this model.
- `once`, `after`, `filter` and invoking a function handler are not modelled. lib/index.js never implements them, so there is no code to model.
- The Boom error reply of test/index.js:159-186 depends on Boom's object shape. Boom is not part of this model.
- The asynchronous callbacks and concurrency of hapi are left out. Each call is modelled as one atomic step.
- Floating-point numbers are reals. NaN and the infinities do not occur in the model.
