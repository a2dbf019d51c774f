/** HostsToCaddyConfig and its route builders: one outer route per served
    host, whose chain is the host's gates followed by a subroute holding the
    LAN gate, the rules and the default action. */
module RouteCompiler {
  import opened Basics
  import opened Panel
  import opened Caddy
  import opened Matchers

  const TEXT_PLAIN := "text/plain; charset=utf-8"

  const PRIVATE_RANGES := [
    "127.0.0.0/8", "::1/128", "10.0.0.0/8", "172.16.0.0/12", "192.168.0.0/16", "fc00::/7"]

  const LAN_REFUSAL := Handler.Respond(
    403, map["Content-Type" := TEXT_PLAIN], "Access denied: this host is restricted to local network\n")

  const LAN_GATE := Route([ANY.(nots := [ANY.(clientIP := Some(PRIVATE_RANGES))])], [LAN_REFUSAL], true)

  const NO_BACKEND := Handler.Respond(503, map["Content-Type" := TEXT_PLAIN], "no backend available\n")

  // ----- reverse proxies -----

  /** The dials of the enabled targets, in target order. */
  function Dials(ts: seq<Target>): seq<Upstream> {
    if ts == [] then []
    else
      var last := ts[|ts| - 1];
      Dials(ts[..|ts| - 1]) + if last.enabled then [Upstream(last.host, last.port)] else []
  }

  method BuildUpstreams(tg: TargetGroup) returns (out: seq<Upstream>)
    ensures out == Dials(tg.targets)
  {
    out := [];
    for i := 0 to |tg.targets|
      invariant out == Dials(tg.targets[..i])
    {
      var t := tg.targets[i];
      assert tg.targets[..i + 1][..i] == tg.targets[..i];
      if t.enabled {
        out := out + [Upstream(t.host, t.port)];
      }
    }
    assert tg.targets[..|tg.targets|] == tg.targets;
  }

  lemma {:induction false} DialsAreEnabledTargets(ts: seq<Target>)
    ensures forall u :: u in Dials(ts) <==> exists t :: t in ts && t.enabled && u == Upstream(t.host, t.port)
  {
    if ts != [] {
      var init, last := ts[..|ts| - 1], ts[|ts| - 1];
      DialsAreEnabledTargets(init);
      assert ts == init + [last];
    }
  }

  function PolicyName(algorithm: string): string {
    if algorithm in ["least_conn", "ip_hash", "random"] then algorithm else "round_robin"
  }

  function ProxyOf(tg: TargetGroup): Proxy {
    Proxy(Dials(tg.targets), PolicyName(tg.algorithm), if tg.https then Some(!tg.verifyTLS) else None, tg.preserveHost)
  }

  function ReverseProxyFromTG(tg: TargetGroup): Option<Proxy> {
    if Dials(tg.targets) == [] then None else Some(ProxyOf(tg))
  }

  // ----- rules -----

  function BuildRewrite(path: string, stripPrefix: string, query: string): Rewrite {
    var uri :=
      if path != "" && query != "" then path + "?" + query
      else if path != "" then path
      else if query != "" then "{http.request.uri.path}?" + query
      else "";
    Rewrite(uri, stripPrefix)
  }

  function TranslateAction(a: Action, defaultTG: TargetGroup, groups: map<int, TargetGroup>): Option<seq<Handler>> {
    match a
    case Forward(id) =>
      if id !in groups then None
      else
        (match ReverseProxyFromTG(groups[id])
         case None => None
         case Some(p) => Some([ReverseProxy(p)]))
    case Redirect(status, location) => Some([Respond(status, map["Location" := location], "")])
    case FixedResponse(status, body, contentType) =>
      var ct := TrimSpace(contentType);
      Some([Respond(status, map["Content-Type" := if ct == "" then TEXT_PLAIN else ct], body)])
    case Block => Some([Respond(403, map[], "")])
    case RewriteTo(path, stripPrefix, query) =>
      (match ReverseProxyFromTG(defaultTG)
       case None => None
       case Some(p) => Some([RewriteURI(BuildRewrite(path, stripPrefix, query)), ReverseProxy(p)]))
    case Undecodable => None
  }

  function BuildRuleRoute(h: Host, r: Rule, defaultTG: TargetGroup, groups: map<int, TargetGroup>): Option<Route> {
    match Translate(h.domain, r.matchers)
    case None => None
    case Some(m) =>
      match TranslateAction(r.action, defaultTG, groups)
      case None => None
      case Some(handlers) => Some(Route([m], handlers, true))
  }

  function BuildDefaultRoute(tg: TargetGroup): Route {
    match ReverseProxyFromTG(tg)
    case None => Route([], [NO_BACKEND], true)
    case Some(p) => Route([], [ReverseProxy(p)], true)
  }

  function RuleRoutes(h: Host, rs: seq<Rule>, defaultTG: TargetGroup, groups: map<int, TargetGroup>): seq<Route> {
    if rs == [] then []
    else
      var front := RuleRoutes(h, rs[..|rs| - 1], defaultTG, groups);
      match BuildRuleRoute(h, rs[|rs| - 1], defaultTG, groups)
      case None => front
      case Some(r) => front + [r]
  }

  function InnerRoutes(p: Panel, h: Host): seq<Route>
    requires p.Serves(h)
  {
    var tg := p.groups[h.groupId];
    (if h.lanOnly then [LAN_GATE] else [])
    + RuleRoutes(h, p.RulesOf(h), tg, p.groups)
    + [BuildDefaultRoute(tg)]
  }

  // ----- hosts -----

  function KeyPlaceholder(s: Security): Option<string> {
    match s.key
    case PerIP => Some("{http.request.remote.host}")
    case PerHeader => if s.headerName == "" then None else Some("{http.request.header." + s.headerName + "}")
    case Global => Some("global")
    case UnknownKey => None
  }

  function BuildRateLimitZone(hostId: int, s: Security): Option<Gate> {
    if !s.limitEnabled || s.requests <= 0 || s.windowSeconds <= 0 || KeyPlaceholder(s).None? then None
    else Some(RateLimit(hostId, KeyPlaceholder(s).value, s.windowSeconds, s.requests))
  }

  function Gates(p: Panel, h: Host): seq<Gate> {
    var s := p.SecurityOf(h);
    var zone := BuildRateLimitZone(h.id, s);
    (if p.crowdsec.enabled then [CrowdSec] + (if p.crowdsec.appSecURL != "" then [AppSec] else []) else [])
    + (if zone.Some? then [zone.value] else [])
    + (if s.wafEnabled then [Waf(s.directives)] else [])
    + (if h.authRequired then [ForwardAuth] else [])
  }

  function Guards(gs: seq<Gate>): seq<Handler> {
    seq(|gs|, i requires 0 <= i < |gs| => Guard(gs[i]))
  }

  function HostRoute(p: Panel, h: Host): Route
    requires p.Serves(h)
  {
    Route([ANY.(host := [h.domain])], Guards(Gates(p, h)) + [Subroute(InnerRoutes(p, h))], true)
  }

  function HostRoutes(p: Panel, hosts: seq<Host>): seq<Route> {
    if hosts == [] then []
    else
      var h := hosts[|hosts| - 1];
      HostRoutes(p, hosts[..|hosts| - 1]) + if p.Serves(h) then [HostRoute(p, h)] else []
  }

  /** The generated config: routes, the domains under an ACME policy, and the
      host ids whose certificate files Caddy is told to load. */
  datatype Config = Config(routes: seq<Route>, acmeSubjects: seq<string>, loadFiles: seq<int>)

  function AcmeSubjects(p: Panel, hosts: seq<Host>): seq<string> {
    if hosts == [] then []
    else
      var h := hosts[|hosts| - 1];
      AcmeSubjects(p, hosts[..|hosts| - 1]) + if p.Serves(h) && h.tlsMode.Auto? then [h.domain] else []
  }

  function LoadFiles(p: Panel, hosts: seq<Host>): seq<int> {
    if hosts == [] then []
    else
      var h := hosts[|hosts| - 1];
      LoadFiles(p, hosts[..|hosts| - 1]) + if p.Serves(h) && h.tlsMode.Manual? then [h.id] else []
  }

  function Compile(p: Panel): Config {
    Config(HostRoutes(p, p.hosts), AcmeSubjects(p, p.hosts), LoadFiles(p, p.hosts))
  }

  /** The inner loop: the LAN gate, one route per rule that can be realised, the default. */
  method BuildInnerRoutes(p: Panel, h: Host) returns (inner: seq<Route>)
    requires p.Serves(h)
    ensures inner == InnerRoutes(p, h)
  {
    hide BuildRuleRoute, BuildDefaultRoute;
    var tg, rules := p.groups[h.groupId], p.RulesOf(h);
    inner := [];
    if h.lanOnly {
      inner := inner + [LAN_GATE];
    }
    ghost var gate := inner;
    for k := 0 to |rules|
      invariant inner == gate + RuleRoutes(h, rules[..k], tg, p.groups)
    {
      assert rules[..k + 1][..k] == rules[..k];
      var r := BuildRuleRoute(h, rules[k], tg, p.groups);
      if r.Some? {
        inner := inner + [r.value];
      }
    }
    assert rules[..|rules|] == rules;
    inner := inner + [BuildDefaultRoute(tg)];
  }

  /** The host's handler chain: the gates it asks for, then the subroute. */
  method BuildHostHandlers(p: Panel, h: Host) returns (handlers: seq<Handler>)
    requires p.Serves(h)
    ensures handlers == HostRoute(p, h).handle
  {
    handlers := [];
    if p.crowdsec.enabled {
      handlers := handlers + [Guard(CrowdSec)];
      if p.crowdsec.appSecURL != "" {
        handlers := handlers + [Guard(AppSec)];
      }
    }
    var s := p.SecurityOf(h);
    var zone := BuildRateLimitZone(h.id, s);
    if zone.Some? {
      handlers := handlers + [Guard(zone.value)];
    }
    if s.wafEnabled {
      handlers := handlers + [Guard(Waf(s.directives))];
    }
    if h.authRequired {
      handlers := handlers + [Guard(ForwardAuth)];
    }
    assert handlers == Guards(Gates(p, h));
    var inner := BuildInnerRoutes(p, h);
    handlers := handlers + [Subroute(inner)];
  }

  lemma OneMoreHost(p: Panel, hosts: seq<Host>, i: nat)
    requires i < |hosts|
    ensures var h := hosts[i];
            && HostRoutes(p, hosts[..i + 1])
               == HostRoutes(p, hosts[..i]) + (if p.Serves(h) then [HostRoute(p, h)] else [])
            && AcmeSubjects(p, hosts[..i + 1])
               == AcmeSubjects(p, hosts[..i]) + (if p.Serves(h) && h.tlsMode.Auto? then [h.domain] else [])
            && LoadFiles(p, hosts[..i + 1])
               == LoadFiles(p, hosts[..i]) + if p.Serves(h) && h.tlsMode.Manual? then [h.id] else []
  {
    assert hosts[..i + 1][..i] == hosts[..i];
    hide HostRoute;
  }

  lemma RouteOfHost(p: Panel, h: Host, handlers: seq<Handler>)
    requires p.Serves(h) && handlers == HostRoute(p, h).handle
    ensures Route([ANY.(host := [h.domain])], handlers, true) == HostRoute(p, h)
  {
    hide Gates, InnerRoutes;
  }

  /** The outer loop over the hosts. */
  method HostsToCaddyConfig(p: Panel) returns (cfg: Config)
    ensures cfg == Compile(p)
  {
    var routes: seq<Route>, policies: seq<string>, files: seq<int> := [], [], [];
    for i := 0 to |p.hosts|
      invariant routes == HostRoutes(p, p.hosts[..i])
      invariant policies == AcmeSubjects(p, p.hosts[..i])
      invariant files == LoadFiles(p, p.hosts[..i])
    {
      var h := p.hosts[i];
      OneMoreHost(p, p.hosts, i);
      hide HostRoutes, AcmeSubjects, LoadFiles, HostRoute;
      if !h.enabled || h.groupId !in p.groups {
        continue;
      }
      var handlers := BuildHostHandlers(p, h);
      RouteOfHost(p, h, handlers);
      routes := routes + [Route([ANY.(host := [h.domain])], handlers, true)];
      match h.tlsMode {
        case Auto => policies := policies + [h.domain];
        case Manual => files := files + [h.id];
        case NoTLS =>
      }
    }
    assert p.hosts[..|p.hosts|] == p.hosts;
    return Config(routes, policies, files);
  }
}
