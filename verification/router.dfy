/**
 * The slice of Express routing the two routers use: router-level middleware
 * first, then the first route whose method and path pattern match, then that
 * route's own middleware, then its handler. A request nothing matches falls
 * through to the application's 404 handler.
 */
module Router {
  import opened Wrappers
  import opened AuthMiddleware

  datatype Verb = GET | HEAD | POST | PUT | DELETE | PATCH

  /** One segment of a route pattern: a literal or a `:param` placeholder. */
  datatype Segment = Lit(name: string) | Param

  /** `router.<method>(pattern, ...guards, handler)`. */
  datatype Entry<+H> = Entry(verb: Verb, pattern: seq<Segment>, guards: seq<Guard>, handler: H)

  /** What became of a request. */
  datatype Outcome<+H> = Refused(status: int, error: string) | Handled(handler: H, user: Option<Claims>) | NotFound

  /** A path, as its non-empty segments, matches a pattern of the same length. */
  predicate Matches(pattern: seq<Segment>, path: seq<string>)
  {
    && |pattern| == |path|
    && forall i :: 0 <= i < |path| ==>
         path[i] != "" && (pattern[i].Lit? ==> pattern[i].name == path[i])
  }

  /** Express answers a HEAD request with a GET route when no HEAD route of its own matches first. */
  predicate Serves<H>(e: Entry<H>, verb: Verb, path: seq<string>)
  {
    (e.verb == verb || (verb == HEAD && e.verb == GET)) && Matches(e.pattern, path)
  }

  predicate NoHeadRoutes<H>(table: seq<Entry<H>>)
  {
    forall j :: 0 <= j < |table| ==> table[j].verb != HEAD
  }

  /** In a table without HEAD routes, HEAD picks exactly the route GET picks. */
  lemma {:induction false} HeadFollowsGet<H>(table: seq<Entry<H>>, path: seq<string>)
    requires NoHeadRoutes(table)
    ensures FirstMatch(table, HEAD, path) == FirstMatch(table, GET, path)
    decreases |table|
  {
    if |table| > 0 && !Serves(table[0], GET, path) {
      assert table[0].verb != HEAD;
      HeadFollowsGet(table[1..], path);
    }
  }

  /** Behind the same guards, a HEAD request meets the same outcome as the GET request for its path. */
  lemma HeadDispatchedAsGet<H>(
    routerGuards: seq<Guard>, table: seq<Entry<H>>, path: seq<string>, header: Option<string>, verify: Verifier)
    requires NoHeadRoutes(table)
    ensures Dispatch(routerGuards, table, HEAD, path, header, verify)
         == Dispatch(routerGuards, table, GET, path, header, verify)
  {
    HeadFollowsGet(table, path);
  }

  /** The index of the first entry of `table` that serves the request, or `|table|` if none does. */
  function FirstMatch<H>(table: seq<Entry<H>>, verb: Verb, path: seq<string>): (k: nat)
    ensures k <= |table|
    ensures k < |table| ==> Serves(table[k], verb, path)
    ensures forall j :: 0 <= j < k ==> !Serves(table[j], verb, path)
    decreases |table|
  {
    if |table| == 0 then 0
    else if Serves(table[0], verb, path) then 0
    else
      var k := FirstMatch(table[1..], verb, path);
      assert forall j :: 1 <= j < |table| ==> table[j] == table[1..][j - 1];
      k + 1
  }

  /** The first entry of `table` that serves the request: Express tries routes in registration order. */
  function Lookup<H>(table: seq<Entry<H>>, verb: Verb, path: seq<string>): (r: Option<Entry<H>>)
    ensures r.None? <==> forall j :: 0 <= j < |table| ==> !Serves(table[j], verb, path)
  {
    var k := FirstMatch(table, verb, path);
    if k < |table| then Some(table[k]) else None
  }

  /** The entry that serves first is the one `Lookup` picks. */
  lemma LookupIs<H>(table: seq<Entry<H>>, verb: Verb, path: seq<string>, k: nat)
    requires k < |table| && Serves(table[k], verb, path)
    requires forall j :: 0 <= j < k ==> !Serves(table[j], verb, path)
    ensures Lookup(table, verb, path) == Some(table[k])
  {
  }

  /** Runs router-level guards, picks the route, runs its guards and reaches its handler. */
  function Dispatch<H>(
    routerGuards: seq<Guard>, table: seq<Entry<H>>, verb: Verb, path: seq<string>,
    header: Option<string>, verify: Verifier): (r: Outcome<H>)
    ensures r.Handled? ==> Lookup(table, verb, path).Some? && r.handler == Lookup(table, verb, path).value.handler
    ensures r.NotFound? ==> Lookup(table, verb, path).None?
  {
    match RunChain(routerGuards, Request(header, None), verify)
    case Halted(status, error) => Refused(status, error)
    case Passed(user) =>
      match Lookup(table, verb, path)
      case None => NotFound
      case Some(entry) => AfterGuards(entry, header, user, verify)
  }

  /** Once the router's guards pass, a request no entry serves falls through to the 404 handler. */
  lemma UnroutedFallsThrough<H>(
    routerGuards: seq<Guard>, table: seq<Entry<H>>, verb: Verb, path: seq<string>,
    header: Option<string>, verify: Verifier, user: Option<Claims>)
    requires RunChain(routerGuards, Request(header, None), verify) == Passed(user)
    requires forall k :: 0 <= k < |table| ==> !Serves(table[k], verb, path)
    ensures Dispatch(routerGuards, table, verb, path, header, verify) == NotFound
  {
  }

  /** A chosen route: its own guards, then its handler with the user they leave. */
  function AfterGuards<H>(entry: Entry<H>, header: Option<string>, user: Option<Claims>, verify: Verifier): (r: Outcome<H>)
    ensures r.Handled? ==> r.handler == entry.handler
    ensures !r.NotFound?
  {
    match RunChain(entry.guards, Request(header, user), verify)
    case Halted(status, error) => Refused(status, error)
    case Passed(user') => Handled(entry.handler, user')
  }

  /**
   * Once the router's guards pass with `user`, the request is handled by the
   * first entry that serves it, and that entry's guards decide.
   */
  lemma DispatchAt<H>(
    routerGuards: seq<Guard>, table: seq<Entry<H>>, verb: Verb, path: seq<string>,
    header: Option<string>, verify: Verifier, k: nat, user: Option<Claims>)
    requires RunChain(routerGuards, Request(header, None), verify) == Passed(user)
    requires k < |table| && Serves(table[k], verb, path)
    requires forall j :: 0 <= j < k ==> !Serves(table[j], verb, path)
    ensures Dispatch(routerGuards, table, verb, path, header, verify) == AfterGuards(table[k], header, user, verify)
  {
    LookupIs(table, verb, path, k);
  }

  /** The header carries a token that the verifier decodes to `c`. */
  predicate Authenticates(header: Option<string>, verify: Verifier, c: Claims)
  {
    && header.Some?
    && TokenField(header.value).Some?
    && TokenField(header.value).value != ""
    && verify(TokenField(header.value).value) == Decoded(c)
  }

  lemma AuthenticatesPasses(header: Option<string>, verify: Verifier, c: Claims)
    requires Authenticates(header, verify, c)
    ensures AuthenticateJWT(header, verify) == Next(c)
  {
  }
}
