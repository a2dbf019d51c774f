/** What the panel means for a request, stated without routes or handlers, and
    the proof that the generated config answers every request that way. */
module CompilerCorrectness {
  import opened Basics
  import opened Panel
  import opened Caddy
  import opened Matchers
  import opened RouteCompiler

  // ----- the direct meaning -----

  predicate HasBackend(tg: TargetGroup) {
    exists t :: t in tg.targets && t.enabled
  }

  /** An action the panel can carry out now: a forward needs its group with an
      enabled target, a rewrite an enabled target in the host's own group. */
  predicate Doable(p: Panel, h: Host, a: Action)
    requires p.Serves(h)
  {
    match a
    case Forward(id) => id in p.groups && HasBackend(p.groups[id])
    case RewriteTo(_, _, _) => HasBackend(p.groups[h.groupId])
    case Undecodable => false
    case _ => true
  }

  /** The enabled targets, from the first one on. */
  function Backends(ts: seq<Target>): seq<Upstream> {
    if ts == [] then []
    else if ts[0].enabled then [Upstream(ts[0].host, ts[0].port)] + Backends(ts[1..])
    else Backends(ts[1..])
  }

  /** What proxying to a group is: its enabled targets, balanced as it says or
      round robin, over TLS for an https group, with or without a check of the
      certificate, and with the client's Host header if it is to be kept. */
  function ToGroup(tg: TargetGroup): Proxy {
    var policy :=
      match tg.algorithm
      case "least_conn" => "least_conn"
      case "ip_hash" => "ip_hash"
      case "random" => "random"
      case _ => "round_robin";
    var skipsCheck := if !tg.https then None else if tg.verifyTLS then Some(false) else Some(true);
    Proxy(Backends(tg.targets), policy, skipsCheck, tg.preserveHost)
  }

  /** The URI a rewrite asks for: a path, the request's own if only a query is given, and the query. */
  function WantedURI(path: string, query: string): string {
    (if path == "" && query != "" then "{http.request.uri.path}" else path)
    + (if query == "" then "" else "?" + query)
  }

  function Effect(p: Panel, h: Host, a: Action): Outcome
    requires p.Serves(h) && Doable(p, h, a)
  {
    match a
    case Forward(id) => Proxied(ToGroup(p.groups[id]), [])
    case Redirect(status, location) => Response(status, map["Location" := location], "")
    case FixedResponse(status, body, ct) =>
      Response(
        status, map["Content-Type" := if TrimSpace(ct) == "" then "text/plain; charset=utf-8" else TrimSpace(ct)], body)
    case Block => Response(403, map[], "")
    case RewriteTo(path, prefix, query) =>
      Proxied(ToGroup(p.groups[h.groupId]), [Rewrite(WantedURI(path, query), prefix)])
  }

  /** A rule that takes the request: it can be carried out and its matchers accept. */
  ghost predicate Takes(p: Panel, h: Host, r: Rule, req: Request)
    requires p.Serves(h)
  {
    && Malformed !in r.matchers
    && Doable(p, h, r.action)
    && MatchersMean(h.domain, r.matchers, Visit(req, []))
  }

  /** Rule `i` of `rs` is the first that takes the request. */
  ghost predicate Decides(p: Panel, h: Host, rs: seq<Rule>, i: int, req: Request)
    requires p.Serves(h)
  {
    && 0 <= i < |rs|
    && Takes(p, h, rs[i], req)
    && forall j :: 0 <= j < i ==> !Takes(p, h, rs[j], req)
  }

  /** Loopback, and the private ranges of RFC 1918 section 3 and RFC 4193 section 3. */
  predicate FromLan(req: Request) {
    || req.clientIP("127.0.0.0/8") || req.clientIP("::1/128")
    || req.clientIP("10.0.0.0/8") || req.clientIP("172.16.0.0/12") || req.clientIP("192.168.0.0/16")
    || req.clientIP("fc00::/7")
  }

  function ListedRules(p: Panel, h: Host): seq<Rule> {
    if h.id in p.rules then p.rules[h.id] else []
  }

  ghost predicate RulesMean(p: Panel, h: Host, req: Request, o: Outcome)
    requires p.Serves(h)
  {
    var rs := ListedRules(p, h);
    if exists i :: Decides(p, h, rs, i, req)
    then exists i :: Decides(p, h, rs, i, req) && o == Effect(p, h, rs[i].action)
    else if HasBackend(p.groups[h.groupId]) then o == Proxied(ToGroup(p.groups[h.groupId]), [])
    else o == Response(503, map["Content-Type" := "text/plain; charset=utf-8"], "no backend available\n")
  }

  ghost predicate BodyMeans(p: Panel, h: Host, req: Request, o: Outcome)
    requires p.Serves(h)
  {
    if h.lanOnly && !FromLan(req)
    then o == Response(403, map["Content-Type" := "text/plain; charset=utf-8"],
                       "Access denied: this host is restricted to local network\n")
    else RulesMean(p, h, req, o)
  }

  /** What a rate limit counts by: the client, a named header, or nothing. */
  predicate CountsBy(s: Security, key: string) {
    match s.key
    case PerIP => key == "{http.request.remote.host}"
    case PerHeader => s.headerName != "" && key == "{http.request.header." + s.headerName + "}"
    case Global => key == "global"
    case UnknownKey => false
  }

  /** The protections of a host, each with its place in the order they are asked. */
  predicate Applies(p: Panel, h: Host, g: Gate) {
    match g
    case CrowdSec => p.crowdsec.enabled
    case AppSec => p.crowdsec.enabled && p.crowdsec.appSecURL != ""
    case RateLimit(zone, key, window, events) =>
      && h.id in p.security
      && var s := p.security[h.id];
         && s.limitEnabled && s.requests == events > 0 && s.windowSeconds == window > 0
         && zone == h.id && CountsBy(s, key)
    case Waf(directives) =>
      h.id in p.security && p.security[h.id].wafEnabled && directives == p.security[h.id].directives
    case ForwardAuth => h.authRequired
  }

  function Place(g: Gate): nat {
    match g
    case CrowdSec => 0
    case AppSec => 1
    case RateLimit(_, _, _, _) => 2
    case Waf(_) => 3
    case ForwardAuth => 4
  }

  /** `g` is the first protection of the host that stops the request. */
  ghost predicate Stops(p: Panel, h: Host, req: Request, g: Gate) {
    && Applies(p, h, g)
    && !req.passes(g)
    && forall g' :: Applies(p, h, g') && Place(g') < Place(g) ==> req.passes(g')
  }

  ghost predicate HostOutcome(p: Panel, h: Host, req: Request, o: Outcome)
    requires p.Serves(h)
  {
    if exists g :: Applies(p, h, g) && !req.passes(g)
    then exists g :: Stops(p, h, req, g) && o == Stopped(g)
    else BodyMeans(p, h, req, o)
  }

  /** An enabled host whose group exists, asked for by its domain or its wildcard. */
  predicate Answers(p: Panel, h: Host, req: Request) {
    && h.enabled && h.groupId in p.groups
    && if '*' in h.domain then req.hostGlob(h.domain) else req.host == h.domain
  }

  /** Host `k` of `hosts` is the first served one whose domain the request asks for. */
  predicate Picks(p: Panel, hosts: seq<Host>, req: Request, k: int) {
    && 0 <= k < |hosts|
    && Answers(p, hosts[k], req)
    && forall j :: 0 <= j < k ==> !Answers(p, hosts[j], req)
  }

  ghost predicate Means(p: Panel, req: Request, o: Outcome) {
    if exists k :: Picks(p, p.hosts, req, k)
    then exists k :: Picks(p, p.hosts, req, k) && HostOutcome(p, p.hosts[k], req, o)
    else o == Unhandled
  }

  // ----- evaluation lemmas -----

  lemma {:induction false} ChainConcat(a: seq<Handler>, b: seq<Handler>, v: Visit)
    ensures EvalChain(a + b, v)
         == (match EvalChain(a, v) case Answered(o) => Answered(o) case Continue(v') => EvalChain(b, v'))
  {
    if a == [] {
      assert a + b == b;
    } else {
      assert (a + b)[1..] == a[1..] + b;
      var first := EvalHandler(a[0], v);
      if first.Continue? {
        ChainConcat(a[1..], b, first.visit);
      }
    }
  }

  lemma {:induction false} RoutesConcat(a: seq<Route>, b: seq<Route>, v: Visit)
    ensures EvalRoutes(a + b, v)
         == (match EvalRoutes(a, v) case Answered(o) => Answered(o) case Continue(v') => EvalRoutes(b, v'))
  {
    if a == [] {
      assert a + b == b;
    } else {
      assert (a + b)[1..] == a[1..] + b;
      if !RouteHits(a[0], v) {
        RoutesConcat(a[1..], b, v);
      } else {
        var first := EvalChain(a[0].handle, v);
        if first.Continue? && !a[0].terminal {
          RoutesConcat(a[1..], b, first.visit);
        }
      }
    }
  }

  lemma SingleHandler(h: Handler, v: Visit)
    ensures EvalChain([h], v) == EvalHandler(h, v)
  {
    assert [h][1..] == [];
  }

  lemma SingleRoute(r: Route, v: Visit)
    ensures EvalRoutes([r], v)
         == if !RouteHits(r, v) then Continue(v)
            else
              (match EvalChain(r.handle, v)
               case Answered(o) => Answered(o)
               case Continue(v') => if r.terminal then Answered(Unhandled) else Continue(v'))
  {
    assert [r][1..] == [];
  }

  predicate FirstClosed(gs: seq<Gate>, req: Request, i: int) {
    && 0 <= i < |gs|
    && !req.passes(gs[i])
    && forall j :: 0 <= j < i ==> req.passes(gs[j])
  }

  /** A chain of gates answers with the first one that stops the request. */
  lemma {:induction false} GuardsAnswer(gs: seq<Gate>, v: Visit)
    ensures if forall g :: g in gs ==> v.req.passes(g) then EvalChain(Guards(gs), v) == Continue(v)
            else exists i :: FirstClosed(gs, v.req, i) && EvalChain(Guards(gs), v) == Answered(Stopped(gs[i]))
  {
    if gs != [] {
      assert Guards(gs)[0] == Guard(gs[0]) && Guards(gs)[1..] == Guards(gs[1..]);
      GuardsAnswer(gs[1..], v);
      if !v.req.passes(gs[0]) {
        assert FirstClosed(gs, v.req, 0) && EvalChain(Guards(gs), v) == Answered(Stopped(gs[0]));
        assert !(forall g :: g in gs ==> v.req.passes(g));
      } else if !(forall g :: g in gs[1..] ==> v.req.passes(g)) {
        var i :| FirstClosed(gs[1..], v.req, i) && EvalChain(Guards(gs[1..]), v) == Answered(Stopped(gs[1..][i]));
        assert forall j :: 0 < j < |gs| ==> gs[j] == gs[1..][j - 1];
        assert gs[i + 1] == gs[1..][i];
        assert FirstClosed(gs, v.req, i + 1) && EvalChain(Guards(gs), v) == Answered(Stopped(gs[i + 1]));
        assert gs[i + 1] in gs;
      } else {
        assert forall g :: g in gs ==> g == gs[0] || g in gs[1..];
      }
    }
  }

  ghost predicate InOrder(gs: seq<Gate>) {
    forall i, j :: 0 <= i < j < |gs| ==> Place(gs[i]) < Place(gs[j])
  }

  /** Lists at places 0 to 1, 2, 3 and 4 make one list in order. */
  lemma OrderedParts(a: seq<Gate>, b: seq<Gate>, c: seq<Gate>, d: seq<Gate>)
    requires InOrder(a) && |b| <= 1 && |c| <= 1 && |d| <= 1
    requires forall g :: g in a ==> Place(g) <= 1
    requires (forall g :: g in b ==> Place(g) == 2) && (forall g :: g in c ==> Place(g) == 3)
    requires (forall g :: g in d ==> Place(g) == 4)
    ensures InOrder(a + b + c + d)
  {
    var all := a + b + c + d;
    forall i, j | 0 <= i < j < |all|
      ensures Place(all[i]) < Place(all[j])
    {
      assert j < |a| ==> all[i] == a[i] && all[j] == a[j];
      assert |a| <= j ==> all[j] in b || all[j] in c || all[j] in d;
      hide Place;
    }
  }

  /** The chain holds exactly the gates that apply. */
  lemma GatesApply(p: Panel, h: Host)
    ensures forall g :: g in Gates(p, h) <==> Applies(p, h, g)
  {
    hide Applies, BuildRateLimitZone;
    GateGroups(p, h);
    var s := p.SecurityOf(h);
    var zone := BuildRateLimitZone(h.id, s);
    forall g
      ensures g in Gates(p, h) <==> Applies(p, h, g)
    {
      var crowd := p.crowdsec.enabled && (g == CrowdSec || (p.crowdsec.appSecURL != "" && g == AppSec));
      var waf, auth := s.wafEnabled && g == Waf(s.directives), h.authRequired && g == ForwardAuth;
      assert g in Gates(p, h) <==> crowd || zone == Some(g) || waf || auth;
      hide Gates;
    }
  }

  /** The chain holds exactly the gates that apply, in their order. */
  lemma GatesInOrder(p: Panel, h: Host)
    ensures forall g :: g in Gates(p, h) <==> Applies(p, h, g)
    ensures InOrder(Gates(p, h))
  {
    GatesApply(p, h);
    var s := p.SecurityOf(h);
    var zone := BuildRateLimitZone(h.id, s);
    var crowd := if p.crowdsec.enabled then [CrowdSec] + (if p.crowdsec.appSecURL != "" then [AppSec] else []) else [];
    hide Applies;
    OrderedParts(crowd, if zone.Some? then [zone.value] else [], if s.wafEnabled then [Waf(s.directives)] else [],
                 if h.authRequired then [ForwardAuth] else []);
  }

  /** Which gates of the host apply, place by place. */
  lemma GateGroups(p: Panel, h: Host)
    ensures var s := p.SecurityOf(h); var zone := BuildRateLimitZone(h.id, s);
            && (Applies(p, h, CrowdSec) <==> p.crowdsec.enabled)
            && (Applies(p, h, AppSec) <==> p.crowdsec.enabled && p.crowdsec.appSecURL != "")
            && (forall g :: Applies(p, h, g) && Place(g) == 0 ==> g == CrowdSec)
            && (forall g :: Applies(p, h, g) && Place(g) == 1 ==> g == AppSec)
            && (forall g :: Applies(p, h, g) && Place(g) == 2 <==> zone == Some(g))
            && (forall g :: Applies(p, h, g) && Place(g) == 3 <==> s.wafEnabled && g == Waf(s.directives))
            && (forall g :: Applies(p, h, g) && Place(g) == 4 <==> h.authRequired && g == ForwardAuth)
            && (forall g :: Applies(p, h, g) ==> Place(g) <= 4)
  {
    KeysAgree(p.SecurityOf(h));
    hide KeyPlaceholder, CountsBy;
  }

  lemma KeysAgree(s: Security)
    ensures forall key :: CountsBy(s, key) <==> KeyPlaceholder(s) == Some(key)
  {
  }

  lemma {:induction false} DialsAre(ts: seq<Target>, init: seq<Target>, last: Target)
    requires ts == init + [last]
    ensures Backends(ts) == Backends(init) + if last.enabled then [Upstream(last.host, last.port)] else []
    decreases |ts|
  {
    if init == [] {
      assert ts[1..] == [];
    } else {
      assert ts[1..] == init[1..] + [last];
      DialsAre(ts[1..], init[1..], last);
    }
  }

  lemma {:induction false} DialsAreBackends(ts: seq<Target>)
    ensures Dials(ts) == Backends(ts)
  {
    if ts != [] {
      var init, last := ts[..|ts| - 1], ts[|ts| - 1];
      DialsAreBackends(init);
      DialsAre(ts, init, last);
    }
  }

  lemma ProxiesAgree(tg: TargetGroup)
    ensures ProxyOf(tg) == ToGroup(tg)
  {
    DialsAreBackends(tg.targets);
    hide Dials, Backends;
  }

  lemma RewritesAgree(path: string, prefix: string, query: string)
    ensures BuildRewrite(path, prefix, query) == Rewrite(WantedURI(path, query), prefix)
  {
  }

  lemma BackendIffProxy(tg: TargetGroup)
    ensures ReverseProxyFromTG(tg) == if HasBackend(tg) then Some(ToGroup(tg)) else None
  {
    ProxiesAgree(tg);
    hide ProxyOf, ToGroup;
    DialsAreEnabledTargets(tg.targets);
    if Dials(tg.targets) != [] {
      assert Dials(tg.targets)[0] in Dials(tg.targets);
    }
    if t :| t in tg.targets && t.enabled {
      assert Upstream(t.host, t.port) in Dials(tg.targets);
    }
  }

  /** The handlers of an action exist exactly when it can be carried out, and have its effect. */
  lemma ActionMeaning(p: Panel, h: Host, a: Action, req: Request)
    requires p.Serves(h)
    ensures TranslateAction(a, p.groups[h.groupId], p.groups).Some? <==> Doable(p, h, a)
    ensures Doable(p, h, a) ==>
              EvalChain(TranslateAction(a, p.groups[h.groupId], p.groups).value, Visit(req, []))
              == Answered(Effect(p, h, a))
  {
    BackendIffProxy(p.groups[h.groupId]);
    if a.Forward? && a.groupId in p.groups {
      BackendIffProxy(p.groups[a.groupId]);
    }
    if Doable(p, h, a) {
      var handlers := TranslateAction(a, p.groups[h.groupId], p.groups).value;
      if a.RewriteTo? {
        RewritesAgree(a.path, a.stripPrefix, a.query);
        hide BuildRewrite, WantedURI, ToGroup, ProxyOf;
        var v' := Visit(req, [handlers[0].rewrite]);
        assert handlers[1..] == [handlers[1]];
        SingleHandler(handlers[1], v');
        assert EvalHandler(handlers[0], Visit(req, [])) == Continue(v');
      } else {
        assert handlers == [handlers[0]];
        SingleHandler(handlers[0], Visit(req, []));
      }
    }
  }

  lemma RuleRouteMeaning(p: Panel, h: Host, r: Rule, req: Request)
    requires p.Serves(h)
    ensures var rr := BuildRuleRoute(h, r, p.groups[h.groupId], p.groups); var v := Visit(req, []);
            if Takes(p, h, r, req) then rr.Some? && EvalRoutes([rr.value], v) == Answered(Effect(p, h, r.action))
            else rr.Some? ==> EvalRoutes([rr.value], v) == Continue(v)
  {
    hide MatchersMean, Hits, Translate, TranslateAction, Effect;
    var v := Visit(req, []);
    TranslationMeaning(h.domain, r.matchers, v);
    ActionMeaning(p, h, r.action, req);
    var rr := BuildRuleRoute(h, r, p.groups[h.groupId], p.groups);
    if rr.Some? {
      SingleRoute(rr.value, v);
      assert rr.value.matches[0] in rr.value.matches;
    }
  }

  /** The routes of a rule list: the first rule that takes the request answers it. */
  lemma {:induction false} RuleRoutesMeaning(p: Panel, h: Host, rs: seq<Rule>, req: Request)
    requires p.Serves(h)
    ensures var out := EvalRoutes(RuleRoutes(h, rs, p.groups[h.groupId], p.groups), Visit(req, []));
            if forall i :: 0 <= i < |rs| ==> !Takes(p, h, rs[i], req) then out == Continue(Visit(req, []))
            else exists i :: Decides(p, h, rs, i, req) && out == Answered(Effect(p, h, rs[i].action))
  {
    hide MatchersMean, Effect, BuildRuleRoute, EvalRoutes;
    if rs == [] {
      assert EvalRoutes([], Visit(req, [])) == Continue(Visit(req, [])) by { EvalNoRoutes(Visit(req, [])); }
    } else {
      var init, last, tg, v := rs[..|rs| - 1], rs[|rs| - 1], p.groups[h.groupId], Visit(req, []);
      RuleRoutesMeaning(p, h, init, req);
      RuleRouteMeaning(p, h, last, req);
      var rr := BuildRuleRoute(h, last, tg, p.groups);
      if rr.Some? {
        RoutesConcat(RuleRoutes(h, init, tg, p.groups), [rr.value], v);
      }
      assert forall i :: 0 <= i < |init| ==> rs[i] == init[i];
      if forall i :: 0 <= i < |init| ==> !Takes(p, h, init[i], req) {
        if Takes(p, h, last, req) {
          assert Decides(p, h, rs, |rs| - 1, req);
        }
      } else {
        var i :| Decides(p, h, init, i, req)
              && EvalRoutes(RuleRoutes(h, init, tg, p.groups), v) == Answered(Effect(p, h, init[i].action));
        assert Decides(p, h, rs, i, req);
      }
    }
  }

  lemma EvalNoRoutes(v: Visit)
    ensures EvalRoutes([], v) == Continue(v)
  {
  }

  lemma RangesAreLan(req: Request)
    ensures InRanges(PRIVATE_RANGES, req.clientIP) <==> FromLan(req)
  {
    var rs := PRIVATE_RANGES;
    assert rs[0] == "127.0.0.0/8" && rs[1] == "::1/128" && rs[2] == "10.0.0.0/8";
    assert rs[3] == "172.16.0.0/12" && rs[4] == "192.168.0.0/16" && rs[5] == "fc00::/7" && |rs| == 6;
    assert forall i :: 0 <= i < |rs| ==> rs[i] in rs;
  }

  lemma LanGateMeaning(req: Request)
    ensures EvalRoutes([LAN_GATE], Visit(req, []))
         == if FromLan(req) then Continue(Visit(req, []))
            else Answered(Response(403, map["Content-Type" := "text/plain; charset=utf-8"],
                                   "Access denied: this host is restricted to local network\n"))
  {
    var v := Visit(req, []);
    var inner := ANY.(clientIP := Some(PRIVATE_RANGES));
    var block := ANY.(nots := [inner]);
    RangesAreLan(req);
    hide FromLan;
    assert Hits(inner, v) <==> FromLan(req);
    assert inner in block.nots;
    assert Hits(block, v) <==> !Hits(inner, v);
    assert LAN_GATE.matches == [block] && block in LAN_GATE.matches;
    SingleRoute(LAN_GATE, v);
    SingleHandler(LAN_REFUSAL, v);
  }

  lemma DefaultMeaning(tg: TargetGroup, req: Request)
    ensures EvalRoutes([BuildDefaultRoute(tg)], Visit(req, []))
         == Answered(if HasBackend(tg) then Proxied(ToGroup(tg), [])
                     else Response(503, map["Content-Type" := "text/plain; charset=utf-8"], "no backend available\n"))
  {
    BackendIffProxy(tg);
    SingleRoute(BuildDefaultRoute(tg), Visit(req, []));
    SingleHandler(BuildDefaultRoute(tg).handle[0], Visit(req, []));
  }

  /** The host's subroute always answers, and with what the host's body means. */
  lemma InnerMeaning(p: Panel, h: Host, req: Request)
    requires p.Serves(h)
    ensures var out := EvalRoutes(InnerRoutes(p, h), Visit(req, []));
            out.Answered? && BodyMeans(p, h, req, out.outcome)
  {
    hide EvalRoutes, Takes, RuleRoutes, BuildDefaultRoute, FromLan;
    var v, tg, rs := Visit(req, []), p.groups[h.groupId], ListedRules(p, h);
    assert rs == p.RulesOf(h);
    var gate := if h.lanOnly then [LAN_GATE] else [];
    var rules, rest := RuleRoutes(h, rs, tg, p.groups), [BuildDefaultRoute(tg)];
    assert InnerRoutes(p, h) == gate + (rules + rest);
    RoutesConcat(gate, rules + rest, v);
    RoutesConcat(rules, rest, v);
    EvalNoRoutes(v);
    LanGateMeaning(req);
    RuleRoutesMeaning(p, h, rs, req);
    DefaultMeaning(tg, req);
    assert (exists i :: Decides(p, h, rs, i, req)) ==> !(forall i :: 0 <= i < |rs| ==> !Takes(p, h, rs[i], req));
  }

  lemma HostRouteMeaning(p: Panel, h: Host, req: Request)
    requires p.Serves(h)
    ensures var out := EvalRoutes([HostRoute(p, h)], Visit(req, []));
            if HostHits(h.domain, req) then out.Answered? && HostOutcome(p, h, req, out.outcome)
            else out == Continue(Visit(req, []))
  {
    hide EvalRoutes, EvalChain, Gates, InnerRoutes, Applies, BodyMeans;
    var v, gs, r := Visit(req, []), Gates(p, h), HostRoute(p, h);
    var sub := Subroute(InnerRoutes(p, h));
    assert RouteHits(r, v) <==> HostHits(h.domain, req) by {
      assert r.matches[0] in r.matches && r.matches[0].host == [h.domain];
    }
    SingleRoute(r, v);
    ChainConcat(Guards(gs), [sub], v);
    GuardsAnswer(gs, v);
    GatesInOrder(p, h);
    if !(forall g :: g in gs ==> req.passes(g)) {
      var i :| FirstClosed(gs, req, i) && EvalChain(Guards(gs), v) == Answered(Stopped(gs[i]));
      FirstClosedStops(p, h, req, i);
      assert gs[i] in gs;
    } else {
      SingleHandler(sub, v);
      InnerMeaning(p, h, req);
    }
  }

  lemma FirstClosedStops(p: Panel, h: Host, req: Request, i: int)
    requires FirstClosed(Gates(p, h), req, i)
    ensures Stops(p, h, req, Gates(p, h)[i])
  {
    hide Gates, Applies;
    GatesInOrder(p, h);
    var gs := Gates(p, h);
    assert gs[i] in gs;
    forall g | Applies(p, h, g) && Place(g) < Place(gs[i])
      ensures req.passes(g)
    {
      var j :| 0 <= j < |gs| && gs[j] == g;
      assert j < i;
    }
  }

  lemma {:induction false} HostRoutesMeaning(p: Panel, hosts: seq<Host>, req: Request)
    ensures var out := EvalRoutes(HostRoutes(p, hosts), Visit(req, []));
            if forall i :: 0 <= i < |hosts| ==> !Answers(p, hosts[i], req) then out == Continue(Visit(req, []))
            else exists k :: Picks(p, hosts, req, k) && out.Answered? && HostOutcome(p, hosts[k], req, out.outcome)
  {
    hide EvalRoutes, HostOutcome, HostRoute;
    if hosts == [] {
      EvalNoRoutes(Visit(req, []));
    } else {
      var init, last, v := hosts[..|hosts| - 1], hosts[|hosts| - 1], Visit(req, []);
      HostRoutesMeaning(p, init, req);
      assert HostRoutes(p, init) + [] == HostRoutes(p, init);
      if p.Serves(last) {
        RoutesConcat(HostRoutes(p, init), [HostRoute(p, last)], v);
        HostRouteMeaning(p, last, req);
      }
      assert forall i :: 0 <= i < |init| ==> hosts[i] == init[i];
      if forall i :: 0 <= i < |init| ==> !Answers(p, init[i], req) {
        if Answers(p, last, req) {
          assert Picks(p, hosts, req, |hosts| - 1);
        }
      } else {
        var out := EvalRoutes(HostRoutes(p, init), v);
        var k :| Picks(p, init, req, k) && out.Answered? && HostOutcome(p, init[k], req, out.outcome);
        assert Picks(p, hosts, req, k);
      }
    }
  }

  // ----- main results -----

  /** The panel means one outcome for each request. */
  lemma MeaningIsUnique(p: Panel, req: Request, o1: Outcome, o2: Outcome)
    requires Means(p, req, o1) && Means(p, req, o2)
    ensures o1 == o2
  {
    hide HostOutcome;
    if exists k :: Picks(p, p.hosts, req, k) {
      var k1 :| Picks(p, p.hosts, req, k1) && HostOutcome(p, p.hosts[k1], req, o1);
      var k2 :| Picks(p, p.hosts, req, k2) && HostOutcome(p, p.hosts[k2], req, o2);
      HostOutcomeIsUnique(p, p.hosts[k1], req, o1, o2);
    }
  }

  lemma OneGatePerPlace(p: Panel, h: Host, g1: Gate, g2: Gate)
    requires Applies(p, h, g1) && Applies(p, h, g2) && Place(g1) == Place(g2)
    ensures g1 == g2
  {
  }

  lemma HostOutcomeIsUnique(p: Panel, h: Host, req: Request, o1: Outcome, o2: Outcome)
    requires p.Serves(h) && HostOutcome(p, h, req, o1) && HostOutcome(p, h, req, o2)
    ensures o1 == o2
  {
    hide Applies, Takes, Effect, BodyMeans;
    if exists g :: Applies(p, h, g) && !req.passes(g) {
      var g1 :| Stops(p, h, req, g1) && o1 == Stopped(g1);
      var g2 :| Stops(p, h, req, g2) && o2 == Stopped(g2);
      if Place(g1) == Place(g2) {
        OneGatePerPlace(p, h, g1, g2);
      }
    } else {
      BodyIsUnique(p, h, req, o1, o2);
    }
  }

  lemma DecidedOnce(p: Panel, h: Host, rs: seq<Rule>, i: int, j: int, req: Request)
    requires p.Serves(h) && Decides(p, h, rs, i, req) && Decides(p, h, rs, j, req)
    ensures i == j
  {
    hide Takes;
  }

  lemma RulesAreUnique(p: Panel, h: Host, req: Request, o1: Outcome, o2: Outcome)
    requires p.Serves(h) && RulesMean(p, h, req, o1) && RulesMean(p, h, req, o2)
    ensures o1 == o2
  {
    hide MatchersMean, Effect, HasBackend, ToGroup;
    var rs := ListedRules(p, h);
    if i :| Decides(p, h, rs, i, req) {
      forall j | Decides(p, h, rs, j, req)
        ensures i == j
      {
        DecidedOnce(p, h, rs, i, j, req);
      }
    }
  }

  lemma BodyIsUnique(p: Panel, h: Host, req: Request, o1: Outcome, o2: Outcome)
    requires p.Serves(h) && BodyMeans(p, h, req, o1) && BodyMeans(p, h, req, o2)
    ensures o1 == o2
  {
    hide RulesMean, FromLan;
    if !h.lanOnly || FromLan(req) {
      RulesAreUnique(p, h, req, o1, o2);
    }
  }

  /** Compilation preserves meaning: for every panel and every request, the
      generated config answers exactly what the panel means. */
  lemma CompilationPreservesMeaning(p: Panel, req: Request, o: Outcome)
    ensures Serve(Compile(p).routes, req) == o <==> Means(p, req, o)
  {
    hide HostOutcome;
    HostRoutesMeaning(p, p.hosts, req);
    assert (exists k :: Picks(p, p.hosts, req, k)) ==>
        !(forall i :: 0 <= i < |p.hosts| ==> !Answers(p, p.hosts[i], req));
    assert Means(p, req, Serve(Compile(p).routes, req));
    if Means(p, req, o) {
      MeaningIsUnique(p, req, o, Serve(Compile(p).routes, req));
    }
  }

  // ----- consequences -----

  /** What the rules of a host mean depends on them, the groups, and the host's
      own domain and group only. */
  lemma SameRules(p: Panel, h: Host, q: Panel, g: Host, req: Request, o: Outcome)
    requires p.Serves(h) && q.Serves(g)
    requires ListedRules(p, h) == ListedRules(q, g)
    requires p.groups == q.groups && h.groupId == g.groupId && h.domain == g.domain
    ensures RulesMean(p, h, req, o) <==> RulesMean(q, g, req, o)
  {
    var rs := ListedRules(p, h);
    hide MatchersMean;
    assert forall r :: Takes(p, h, r, req) <==> Takes(q, g, r, req);
    assert forall r :: Takes(p, h, r, req) ==> Effect(p, h, r.action) == Effect(q, g, r.action);
    hide Takes, Effect, Doable;
    assert forall i :: Decides(p, h, rs, i, req) <==> Decides(q, g, rs, i, req);
  }

  /** A host's outcome reads nothing of the other hosts. */
  lemma HostOutcomeIsLocal(p: Panel, hosts: seq<Host>, h: Host, req: Request, o: Outcome)
    requires p.Serves(h)
    ensures HostOutcome(p, h, req, o) <==> HostOutcome(p.(hosts := hosts), h, req, o)
  {
    var q := p.(hosts := hosts);
    assert forall g :: Applies(p, h, g) <==> Applies(q, h, g);
    assert forall g :: Stops(p, h, req, g) <==> Stops(q, h, req, g);
    SameRules(p, h, q, h, req, o);
    hide Applies, RulesMean, Stops, FromLan;
  }

  /** Host `k` is the only served host whose domain takes the request. */
  predicate OnlyAnswers(p: Panel, k: nat, req: Request) {
    && k < |p.hosts| && Answers(p, p.hosts[k], req)
    && forall i :: 0 <= i < |p.hosts| && i != k ==> !Answers(p, p.hosts[i], req)
  }

  /** What a domain answers that no other served host's pattern takes does not
      depend on the other hosts or on the order of the hosts. */
  lemma OutcomeIgnoresOtherHosts(p: Panel, k: nat, req: Request)
    requires OnlyAnswers(p, k, req)
    ensures Serve(Compile(p).routes, req) == Serve(Compile(p.(hosts := [p.hosts[k]])).routes, req)
  {
    hide HostOutcome, HostHits;
    var h, o := p.hosts[k], Serve(Compile(p).routes, req);
    var q := p.(hosts := [h]);
    assert Picks(p, p.hosts, req, k) && Picks(q, q.hosts, req, 0);
    CompilationPreservesMeaning(p, req, o);
    HostOutcomeIsLocal(p, [h], h, req, o);
    CompilationPreservesMeaning(q, req, o);
  }

  /** Hosts have different domains, none with a wildcard, as the API admits them. */
  predicate DistinctDomains(p: Panel) {
    && (forall i :: 0 <= i < |p.hosts| ==> '*' !in p.hosts[i].domain)
    && (forall i, j :: 0 <= i < j < |p.hosts| ==> p.hosts[i].domain != p.hosts[j].domain)
  }

  /** With distinct domains that holds for every domain served. */
  lemma DistinctDomainsAreIndependent(p: Panel, k: nat, req: Request)
    requires DistinctDomains(p) && k < |p.hosts| && p.Serves(p.hosts[k]) && req.host == p.hosts[k].domain
    ensures Serve(Compile(p).routes, req) == Serve(Compile(p.(hosts := [p.hosts[k]])).routes, req)
  {
    assert OnlyAnswers(p, k, req);
    hide OnlyAnswers;
    OutcomeIgnoresOtherHosts(p, k, req);
  }

  /** A LAN-only host gives a client from outside the private ranges its
      refusal or a gate's answer, never a rule's or an upstream's. */
  lemma LanOnlyShieldsOutsiders(p: Panel, k: int, req: Request)
    requires Picks(p, p.hosts, req, k) && p.hosts[k].lanOnly && !FromLan(req)
    ensures var o := Serve(Compile(p).routes, req);
            || o == Response(403, map["Content-Type" := "text/plain; charset=utf-8"],
                             "Access denied: this host is restricted to local network\n")
            || (o.Stopped? && Applies(p, p.hosts[k], o.gate) && !req.passes(o.gate))
  {
    hide MatchersMean, Applies;
    CompilationPreservesMeaning(p, req, Serve(Compile(p).routes, req));
  }

  /** For a client inside the private ranges the LAN-only flag changes nothing. */
  lemma LanOnlyIgnoresInsiders(p: Panel, k: int, req: Request)
    requires 0 <= k < |p.hosts| && FromLan(req)
    ensures Serve(Compile(p).routes, req)
         == Serve(Compile(p.(hosts := p.hosts[k := p.hosts[k].(lanOnly := false)])).routes, req)
  {
    var h := p.hosts[k];
    var g, o := h.(lanOnly := false), Serve(Compile(p).routes, req);
    var q := p.(hosts := p.hosts[k := g]);
    CompilationPreservesMeaning(p, req, o);
    CompilationPreservesMeaning(q, req, o);
    assert forall i :: 0 <= i < |p.hosts| ==> (Answers(p, p.hosts[i], req) <==> Answers(q, q.hosts[i], req));
    assert forall i :: Picks(p, p.hosts, req, i) <==> Picks(q, q.hosts, req, i);
    if i :| Picks(p, p.hosts, req, i) && HostOutcome(p, p.hosts[i], req, o) {
      hide HostOutcome;
      HostOutcomeIsLocal(p, q.hosts, p.hosts[i], req, o);
      if i == k {
        GateFlagOutcome(q, h, req, o);
      }
      assert HostOutcome(q, q.hosts[i], req, o);
    }
  }

  lemma GateFlagOutcome(p: Panel, h: Host, req: Request, o: Outcome)
    requires p.Serves(h) && FromLan(req)
    ensures HostOutcome(p, h, req, o) <==> HostOutcome(p, h.(lanOnly := false), req, o)
  {
    var g := h.(lanOnly := false);
    assert forall x :: Applies(p, h, x) <==> Applies(p, g, x);
    assert forall x :: Stops(p, h, req, x) <==> Stops(p, g, req, x);
    SameRules(p, h, p, g, req, o);
    hide Applies, RulesMean, Stops, FromLan;
  }

  // ----- what a proxied answer carries -----

  /** Three policies go by their own name, anything else is round robin. */
  predicate Balances(algorithm: string, policy: string) {
    && (policy == "least_conn" <==> algorithm == "least_conn")
    && (policy == "ip_hash" <==> algorithm == "ip_hash")
    && (policy == "random" <==> algorithm == "random")
    && (policy == "round_robin" <==> algorithm != "least_conn" && algorithm != "ip_hash" && algorithm != "random")
  }

  lemma GroupBalances(tg: TargetGroup)
    ensures Balances(tg.algorithm, ToGroup(tg).policy)
  {
    hide Backends;
  }

  /** The proxy goes to the group as its settings read, one by one. */
  ghost predicate SentTo(tg: TargetGroup, x: Proxy) {
    && x.upstreams != []
    && (forall u :: u in x.upstreams <==> exists t :: t in tg.targets && t.enabled && u == Upstream(t.host, t.port))
    && Balances(tg.algorithm, x.policy)
    && (x.tls.Some? <==> tg.https)
    && (x.tls == Some(true) <==> tg.https && !tg.verifyTLS)
    && (x.preserveHost <==> tg.preserveHost)
  }

  lemma SentToGroup(tg: TargetGroup)
    requires HasBackend(tg)
    ensures SentTo(tg, ToGroup(tg))
  {
    DialsAreBackends(tg.targets);
    DialsAreEnabledTargets(tg.targets);
    var t :| t in tg.targets && t.enabled;
    assert Upstream(t.host, t.port) in Dials(tg.targets);
    GroupBalances(tg);
    hide Dials, Backends, Balances;
  }

  /** The text up to the first question mark, all of it without one. */
  function BeforeMark(uri: string): string {
    if uri == "" || uri[0] == '?' then "" else [uri[0]] + BeforeMark(uri[1..])
  }

  /** The text behind the first question mark, if there is one. */
  function AfterMark(uri: string): Option<string> {
    if uri == "" then None else if uri[0] == '?' then Some(uri[1..]) else AfterMark(uri[1..])
  }

  lemma {:induction false} MarkSplits(base: string, rest: string)
    requires '?' !in base
    ensures BeforeMark(base) == base && AfterMark(base) == None
    ensures BeforeMark(base + "?" + rest) == base && AfterMark(base + "?" + rest) == Some(rest)
  {
    var all := base + "?" + rest;
    if base != "" {
      assert all[1..] == base[1..] + "?" + rest && all[0] == base[0];
      MarkSplits(base[1..], rest);
      assert base == [base[0]] + base[1..];
    } else {
      assert all[0] == '?' && all[1..] == rest;
    }
  }

  /** What a rewritten request asks the upstream for. */
  ghost predicate AsksFor(path: string, prefix: string, query: string, rw: Rewrite) {
    && rw.stripPathPrefix == prefix
    && (rw.uri == "" <==> path == "" && query == "")
    && ('?' !in path ==>
          && BeforeMark(rw.uri) == (if path == "" && query != "" then "{http.request.uri.path}" else path)
          && AfterMark(rw.uri) == if query == "" then None else Some(query))
    && path <= rw.uri
    && (query == "" ==> rw.uri == path)
    && (query != "" ==> |query| < |rw.uri| && rw.uri[|rw.uri| - |query| - 1..] == "?" + query)
    && (path != "" && query != "" ==> |rw.uri| == |path| + 1 + |query|)
  }

  lemma JoinedText(base: string, query: string)
    requires query != ""
    ensures var uri := base + ("?" + query);
            && uri == base + "?" + query && |uri| == |base| + 1 + |query| && base <= uri
            && uri[|uri| - |query| - 1..] == "?" + query
  {
    var uri := base + ("?" + query);
    assert uri[|base|..] == "?" + query;
  }

  lemma PlaceholderIsPlain()
    ensures '?' !in "{http.request.uri.path}"
  {
  }

  lemma WantedURIAsks(path: string, prefix: string, query: string)
    ensures AsksFor(path, prefix, query, Rewrite(WantedURI(path, query), prefix))
  {
    var base, uri := if path == "" && query != "" then "{http.request.uri.path}" else path, WantedURI(path, query);
    PlaceholderIsPlain();
    if '?' !in path {
      MarkSplits(base, query);
    }
    hide BeforeMark, AfterMark;
    if query == "" {
      assert uri == path;
    } else {
      JoinedText(base, query);
    }
  }

  /** Host `k` answers, no gate of it stops the request, and its rule `i` decides. */
  ghost predicate RuleDecides(p: Panel, k: int, i: int, req: Request) {
    && Picks(p, p.hosts, req, k)
    && (forall g :: Applies(p, p.hosts[k], g) ==> req.passes(g))
    && (p.hosts[k].lanOnly ==> FromLan(req))
    && Decides(p, p.hosts[k], ListedRules(p, p.hosts[k]), i, req)
  }

  lemma PickedOutcome(p: Panel, k: int, req: Request)
    requires Picks(p, p.hosts, req, k)
    ensures p.Serves(p.hosts[k]) && HostOutcome(p, p.hosts[k], req, Serve(Compile(p).routes, req))
  {
    hide HostOutcome, Compile, Serve;
    CompilationPreservesMeaning(p, req, Serve(Compile(p).routes, req));
  }

  lemma OpenOutcome(p: Panel, h: Host, req: Request, o: Outcome)
    requires p.Serves(h) && HostOutcome(p, h, req, o) && forall g :: Applies(p, h, g) ==> req.passes(g)
    requires h.lanOnly ==> FromLan(req)
    ensures RulesMean(p, h, req, o)
  {
    hide Applies, RulesMean, FromLan;
  }

  lemma DecidedEffect(p: Panel, h: Host, req: Request, o: Outcome, i: int)
    requires p.Serves(h) && RulesMean(p, h, req, o) && Decides(p, h, ListedRules(p, h), i, req)
    ensures o == Effect(p, h, ListedRules(p, h)[i].action)
  {
    hide Takes, Effect, MatchersMean;
  }

  lemma DecidedIsServed(p: Panel, k: int, i: int, req: Request)
    requires RuleDecides(p, k, i, req)
    ensures Serve(Compile(p).routes, req) == Effect(p, p.hosts[k], ListedRules(p, p.hosts[k])[i].action)
  {
    hide Applies, FromLan, Effect, Takes, HostOutcome, RulesMean, HostHits, Serve, Compile;
    PickedOutcome(p, k, req);
    OpenOutcome(p, p.hosts[k], req, Serve(Compile(p).routes, req));
    DecidedEffect(p, p.hosts[k], req, Serve(Compile(p).routes, req), i);
  }

  /** What the config answers to a request that a rewrite rule decides: it goes to
      the host's own group, with the path, the query and the prefix the rule gives. */
  lemma RewriteRuleAnswers(p: Panel, k: int, i: int, req: Request, path: string, prefix: string, query: string)
    requires RuleDecides(p, k, i, req) && ListedRules(p, p.hosts[k])[i].action == RewriteTo(path, prefix, query)
    ensures p.hosts[k].groupId in p.groups
    ensures var o := Serve(Compile(p).routes, req);
            && o.Proxied? && |o.rewrites| == 1 && AsksFor(path, prefix, query, o.rewrites[0])
            && SentTo(p.groups[p.hosts[k].groupId], o.proxy)
  {
    DecidedIsServed(p, k, i, req);
    WantedURIAsks(path, prefix, query);
    SentToGroup(p.groups[p.hosts[k].groupId]);
    hide Serve, Compile, MatchersMean, AsksFor, SentTo, ToGroup, WantedURI, Applies, FromLan;
  }

  /** A request for a served host always gets an answer from the config, and
      whatever is proxied goes to the enabled targets of one existing group, as
      that group's settings read: the host's own or the one a rule forwards to. */
  lemma ProxiedToEnabledTargets(p: Panel, k: int, req: Request)
    requires Picks(p, p.hosts, req, k)
    ensures var o := Serve(Compile(p).routes, req);
            && o != Unhandled
            && (o.Proxied? ==>
                  exists id :: id in p.groups && SentTo(p.groups[id], o.proxy)
                    && (id == p.hosts[k].groupId
                        || exists r :: r in ListedRules(p, p.hosts[k]) && r.action == Forward(id)))
  {
    hide MatchersMean, Applies, SentTo, ToGroup;
    var h, o := p.hosts[k], Serve(Compile(p).routes, req);
    CompilationPreservesMeaning(p, req, o);
    assert HostOutcome(p, h, req, o);
    if o.Proxied? {
      var rs := ListedRules(p, h);
      var id := h.groupId;
      if exists i :: Decides(p, h, rs, i, req) {
        var i :| Decides(p, h, rs, i, req) && o == Effect(p, h, rs[i].action);
        assert rs[i] in rs;
        if rs[i].action.Forward? {
          id := rs[i].action.groupId;
        }
      }
      assert HasBackend(p.groups[id]) && o.proxy == ToGroup(p.groups[id]);
      SentToGroup(p.groups[id]);
    }
  }
}
