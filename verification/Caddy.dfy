/** The part of a Caddy v2 config the generator emits, with an evaluator that
    says how a server answers a request. A request is known only through the
    elementary tests it passes: path globs, header and query texts, regular
    expressions and IP ranges stay uninterpreted. */
module Caddy {
  import opened Basics
  import opened Panel

  datatype Rewrite = Rewrite(uri: string, stripPathPrefix: string)

  /** The handlers that run before the rules of a host; each either lets the
      request through or answers it itself. */
  datatype Gate =
    | CrowdSec
    | AppSec
    | RateLimit(zone: int, zoneKey: string, windowSeconds: int, maxEvents: int)
    | Waf(directives: string)
    | ForwardAuth

  datatype Request = Request(
    host: string,
    verb: string,
    hostGlob: string -> bool,
    path: (seq<Rewrite>, string) -> bool,
    header: (string, string) -> bool,
    headerRegexp: (string, string) -> bool,
    query: (seq<Rewrite>, string, string) -> bool,
    remoteIP: string -> bool,
    clientIP: string -> bool,
    passes: Gate -> bool)

  datatype Upstream = Upstream(host: string, port: int)

  datatype Proxy = Proxy(
    upstreams: seq<Upstream>, policy: string, tls: Option<bool>, preserveHost: bool)

  /** One AND'd block of matchers; an empty list or map constrains nothing. */
  datatype Match = Match(
    host: seq<string>, path: seq<string>, verbs: seq<string>, header: map<string, seq<string>>,
    headerRegexp: map<string, string>, query: map<string, seq<string>>, remoteIP: Option<seq<string>>,
    clientIP: Option<seq<string>>, nots: seq<Match>)

  const ANY := Match([], [], [], map[], map[], map[], None, None, [])

  datatype Handler =
    | Guard(gate: Gate)
    | Respond(status: int, headers: map<string, string>, body: string)
    | RewriteURI(rewrite: Rewrite)
    | ReverseProxy(proxy: Proxy)
    | Subroute(routes: seq<Route>)

  datatype Route = Route(matches: seq<Match>, handle: seq<Handler>, terminal: bool)

  /** What the client gets. `Unhandled` is Caddy's empty answer when nothing
      in the config responds. */
  datatype Outcome =
    | Unhandled
    | Stopped(gate: Gate)
    | Response(status: int, headers: map<string, string>, body: string)
    | Proxied(proxy: Proxy, rewrites: seq<Rewrite>)

  /** A request on its way through the config, with the rewrites applied so far. */
  datatype Visit = Visit(req: Request, rewrites: seq<Rewrite>)

  datatype Verdict = Answered(outcome: Outcome) | Continue(visit: Visit)

  /** A host pattern is a literal name unless it holds a wildcard. */
  predicate HostHits(pattern: string, req: Request) {
    if '*' in pattern then req.hostGlob(pattern) else pattern == req.host
  }

  predicate Hits(m: Match, v: Visit) {
    && (m.host == [] || exists h :: h in m.host && HostHits(h, v.req))
    && (m.path == [] || exists p :: p in m.path && v.req.path(v.rewrites, p))
    && (m.verbs == [] || v.req.verb in m.verbs)
    && (forall n :: n in m.header ==> exists t :: t in m.header[n] && v.req.header(n, t))
    && (forall n :: n in m.headerRegexp ==> v.req.headerRegexp(n, m.headerRegexp[n]))
    && (forall n :: n in m.query ==> exists t :: t in m.query[n] && v.req.query(v.rewrites, n, t))
    && (m.remoteIP.Some? ==> exists r :: r in m.remoteIP.value && v.req.remoteIP(r))
    && (m.clientIP.Some? ==> exists r :: r in m.clientIP.value && v.req.clientIP(r))
    && (forall n :: n in m.nots ==> !Hits(n, v))
  }

  /** Blocks of one route are OR'd; a route without blocks takes everything. */
  predicate RouteHits(r: Route, v: Visit) {
    r.matches == [] || exists m :: m in r.matches && Hits(m, v)
  }

  function EvalHandler(h: Handler, v: Visit): Verdict
    decreases h, 0
  {
    match h
    case Guard(g) => if v.req.passes(g) then Continue(v) else Answered(Stopped(g))
    case Respond(status, headers, body) => Answered(Response(status, headers, body))
    case RewriteURI(rw) => Continue(v.(rewrites := v.rewrites + [rw]))
    case ReverseProxy(p) => Answered(Proxied(p, v.rewrites))
    case Subroute(rs) => EvalRoutes(rs, v)
  }

  function EvalChain(hs: seq<Handler>, v: Visit): Verdict
    decreases hs, 0
  {
    if hs == [] then Continue(v)
    else
      match EvalHandler(hs[0], v)
      case Answered(o) => Answered(o)
      case Continue(v') => EvalChain(hs[1..], v')
  }

  /** Routes run in order. The chain of a terminal route that answers nothing
      ends the walk; a non-terminal one hands over to the next route. */
  function EvalRoutes(rs: seq<Route>, v: Visit): Verdict
    decreases rs, 0
  {
    if rs == [] then Continue(v)
    else if !RouteHits(rs[0], v) then EvalRoutes(rs[1..], v)
    else
      match EvalChain(rs[0].handle, v)
      case Answered(o) => Answered(o)
      case Continue(v') => if rs[0].terminal then Answered(Unhandled) else EvalRoutes(rs[1..], v')
  }

  /** The answer of a server with these routes. */
  function Serve(routes: seq<Route>, req: Request): Outcome {
    match EvalRoutes(routes, Visit(req, []))
    case Answered(o) => o
    case Continue(_) => Unhandled
  }
}
