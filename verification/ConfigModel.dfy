/** Export and import of the panel's configuration, stated on the configuration
    as seen by its natural keys: group names, host domains, channel names. Row
    ids do not occur here. */
module ConfigModel {
  import opened Basics
  import opened Upserts
  import opened Ordering

  datatype Mode = Replace | Merge

  // ----- rows -----

  datatype Target = Target(host: string, port: int, weight: int, enabled: bool)

  datatype GroupCols = GroupCols(
    protocol: string, verifyTLS: bool, algorithm: string, healthEnabled: bool, healthPath: string, healthMethod: string,
    expectStatus: string, interval: int, timeout: int, fails: int, passes: int)

  /** `preserveHost` is not part of a bundle. */
  datatype GroupRow = GroupRow(name: string, cols: GroupCols, targets: seq<Target>, preserveHost: bool)

  datatype HostCols = HostCols(tlsMode: string, tlsEmail: string, enabled: bool, acmeURL: string, challenge: string)

  /** The host columns a bundle does not carry. */
  datatype HostExtra = HostExtra(authRequired: bool, lanOnly: bool, trueDetect: bool, dnsProvider: string)

  function NewHostExtra(): HostExtra {
    HostExtra(false, false, false, "cloudflare")
  }

  /** Action and matchers are opaque; `decodes` says whether they decode to a
      known action type, which an insert requires. */
  datatype Rule = Rule(priority: int, name: string, enabled: bool, action: string, matchers: seq<string>, decodes: bool)

  datatype Security = Security(
    wafEnabled: bool, wafMode: string, paranoia: int, blockStatus: int, blockBody: string, limitEnabled: bool,
    requests: int, windowSeconds: int, limitKey: string, headerName: string, limitStatus: int)

  function DefaultSecurity(): Security {
    Security(false, "detect", 1, 403, "", false, 0, 0, "ip", "", 429)
  }

  datatype Exclusion = Exclusion(crsRule: int, path: string, reason: string, enabled: bool)

  datatype CustomRule = CustomRule(name: string, secRule: string, enabled: bool)

  /** A host with its child tables: rules by priority, exclusions by CRS rule, custom rules by age. */
  datatype HostView = HostView(
    group: string, cols: HostCols, extra: HostExtra, rules: seq<Rule>, security: Option<Security>,
    exclusions: seq<Exclusion>, customRules: seq<CustomRule>)

  datatype Value = Text(text: string) | Data(token: int)

  datatype ChannelRow = ChannelRow(
    name: string, kind: string, enabled: bool, config: map<string, Value>, template: string, ratePerMinute: int)

  /** A notification rule; a filtered host is None when no row has its id. */
  datatype RuleView = RuleView(
    name: string, channel: string, event: string, hosts: seq<Option<string>>, severities: seq<string>, enabled: bool,
    throttle: int)

  datatype View = View(
    groups: map<string, GroupRow>, hosts: map<string, HostView>, channels: map<string, ChannelRow>,
    rules: seq<RuleView>, settings: map<string, string>)

  // ----- the bundle -----

  datatype GroupExport = GroupExport(name: string, cols: GroupCols, targets: seq<Target>)
  datatype HostExport = HostExport(domain: string, group: string, cols: HostCols)
  datatype RuleExport = RuleExport(host: string, rule: Rule)
  datatype SecurityExport = SecurityExport(host: string, row: Security, exclusions: seq<Exclusion>,
      customRules: seq<CustomRule>)
  datatype ChannelExport = ChannelExport(
    name: string, kind: string, enabled: bool, config: map<string, Value>, template: string, ratePerMinute: int)
  datatype NotifyExport = NotifyExport(
    name: string, channel: string, event: string, hosts: seq<string>, severities: seq<string>, enabled: bool,
    throttle: int)

  datatype Bundle = Bundle(
    groups: seq<GroupExport>, hosts: seq<HostExport>, rules: seq<RuleExport>, security: seq<SecurityExport>,
    channels: seq<ChannelExport>, notify: seq<NotifyExport>, settings: map<string, string>)

  /** The settings an import or export may touch. */
  predicate Exportable(key: string) {
    key in {
      "logs.retention_days", "logs.max_entries", "backup.schedule", "backup.retention_days", "backup.enabled",
      "notifications.retention_days", "notifications.max_entries", "notifications.vapid_contact_email"}
  }

  // ----- secrets -----

  function Placeholder(): Value {
    Text("__REDACTED__")
  }

  function SecretField(kind: string): Option<string> {
    if kind == "webhook" then Some("headers")
    else if kind == "email" then Some("smtp_password")
    else if kind == "telegram" then Some("bot_token")
    else None
  }

  /** The prefix of a ciphertext with something behind it. */
  predicate IsEncrypted(v: Value) {
    v.Text? && HasPrefix(v.text, "argos1:") && |v.text| > |"argos1:"|
  }

  function Redact(kind: string, config: map<string, Value>): map<string, Value> {
    match SecretField(kind)
    case Some(f) => if f in config then config[f := Placeholder()] else config
    case None => config
  }

  /** The ciphertext of field `f` kept by the previous channel of that name. */
  function KeptSecret(previous: Option<ChannelRow>, f: string): Option<Value> {
    if previous.Some? && SecretField(previous.value.kind) == Some(f) && f in previous.value.config
       && IsEncrypted(previous.value.config[f])
    then Some(previous.value.config[f]) else None
  }

  /** upsertChannel: a redacted secret is taken from the previous row, else
      emptied and the channel disabled. */
  function WriteChannel(mode: Mode): Write<ChannelExport, ChannelRow> {
    (c: ChannelExport, previous: Option<ChannelRow>) =>
      var f := SecretField(c.kind);
      if f.None? || f.value !in c.config || c.config[f.value] != Placeholder() then
        ChannelRow(c.name, c.kind, c.enabled, c.config, c.template, c.ratePerMinute)
      else
        var kept := KeptSecret(previous, f.value);
        if mode.Merge? && kept.Some? then
          ChannelRow(c.name, c.kind, c.enabled, c.config[f.value := kept.value], c.template, c.ratePerMinute)
        else
          ChannelRow(c.name, c.kind, false, c.config[f.value := Text("")], c.template, c.ratePerMinute)
  }

  // ----- constraints -----

  function Normal(g: GroupCols): GroupCols {
    g.(protocol := if g.protocol == "" then "http" else g.protocol,
       algorithm := if g.algorithm == "" then "round_robin" else g.algorithm,
       healthMethod := if g.healthMethod == "" then "GET" else g.healthMethod,
       expectStatus := if g.expectStatus == "" then "200" else g.expectStatus)
  }

  function NormalHost(h: HostCols): HostCols {
    h.(challenge := if h.challenge == "" then "dns" else h.challenge)
  }

  predicate DistinctTargets(ts: seq<Target>) {
    forall i, j :: 0 <= i < j < |ts| ==> ts[i].host != ts[j].host || ts[i].port != ts[j].port
  }

  predicate GroupFits(cols: GroupCols, targets: seq<Target>) {
    && cols.protocol in {"http", "https"}
    && cols.algorithm in {"round_robin", "least_conn", "ip_hash", "random"}
    && cols.healthMethod in {"GET", "HEAD", "POST"}
    && DistinctTargets(targets)
  }

  predicate HostFits(cols: HostCols) {
    cols.tlsMode in {"auto", "none", "manual"} && cols.challenge in {"dns", "http", "tls-alpn"}
  }

  predicate SecurityFits(s: Security) {
    s.wafMode in {"detect", "block"} && 1 <= s.paranoia <= 4 && s.limitKey in {"ip", "header", "global"}
  }

  predicate ChannelFits(kind: string) {
    kind in {"webhook", "email", "telegram", "browser_push"}
  }

  // ----- import -----

  const GROUP_NAME: GroupExport -> string := (x: GroupExport) => x.name
  const HOST_NAME: HostExport -> string := (x: HostExport) => x.domain
  const CHANNEL_NAME: ChannelExport -> string := (x: ChannelExport) => x.name
  const GROUP_OK: GroupExport -> bool := (x: GroupExport) => GroupFits(Normal(x.cols), x.targets)
  const CHANNEL_OK: ChannelExport -> bool := (x: ChannelExport) => ChannelFits(x.kind)

  function HostOk(groups: set<string>): HostExport -> bool {
    (x: HostExport) => x.group in groups && HostFits(NormalHost(x.cols))
  }

  const WRITE_GROUP: Write<GroupExport, GroupRow> :=
    (x: GroupExport, was: Option<GroupRow>) =>
      GroupRow(x.name, Normal(x.cols), x.targets, was.Some? && was.value.preserveHost)

  const WRITE_HOST: Write<HostExport, HostView> :=
    (x: HostExport, was: Option<HostView>) =>
      if was.Some? then was.value.(group := x.group, cols := NormalHost(x.cols))
      else HostView(x.group, NormalHost(x.cols), NewHostExtra(), [], None, [], [])

  const BY_PRIORITY: (Rule, Rule) -> bool := (a: Rule, b: Rule) => a.priority < b.priority
  const BY_CRS: (Exclusion, Exclusion) -> bool := (a: Exclusion, b: Exclusion) => a.crsRule < b.crsRule

  function AddRule(rules: seq<Rule>, r: Rule): Option<seq<Rule>> {
    if !r.decodes || (exists q :: q in rules && q.priority == r.priority) then None
        else Some(Insert(rules, r, BY_PRIORITY))
  }

  const ADD_EXCLUSION: (seq<Exclusion>, Exclusion) -> Option<seq<Exclusion>> :=
    (es: seq<Exclusion>, e: Exclusion) =>
      if e.crsRule <= 0 || (exists d :: d in es && d.crsRule == e.crsRule && d.path == e.path) then None
      else Some(Insert(es, e, BY_CRS))

  datatype SecurityPart = SecurityPart(row: Option<Security>, exclusions: seq<Exclusion>, customRules: seq<CustomRule>)

  function AddSecurity(s: SecurityPart, x: SecurityExport): Option<SecurityPart> {
    if !SecurityFits(x.row) then None
    else
      match Fold(s.exclusions, x.exclusions, ADD_EXCLUSION)
      case None => None
      case Some(es) => Some(SecurityPart(Some(x.row), es, s.customRules + x.customRules))
  }

  const RULES: Part<RuleExport, HostView, seq<Rule>> :=
    Part((x: RuleExport) => x.host, [], (h: HostView) => h.rules, (h: HostView, rs: seq<Rule>) => h.(rules := rs),
         (rs: seq<Rule>, x: RuleExport) => AddRule(rs, x.rule))

  const SECURITY: Part<SecurityExport, HostView, SecurityPart> :=
    Part((x: SecurityExport) => x.host, SecurityPart(None, [], []),
         (h: HostView) => SecurityPart(h.security, h.exclusions, h.customRules),
         (h: HostView, s: SecurityPart) => h.(security := s.row, exclusions := s.exclusions,
             customRules := s.customRules),
         (s: SecurityPart, x: SecurityExport) => AddSecurity(s, x))

  function Without(rules: seq<RuleView>, name: string): seq<RuleView> {
    if rules == [] then []
    else
      var last := rules[|rules| - 1];
      Without(rules[..|rules| - 1], name) + if last.name == name then [] else [last]
  }

  lemma WithoutOneMore(rules: seq<RuleView>, r: RuleView, name: string)
    ensures Without(rules + [r], name) == if r.name == name then Without(rules, name) else Without(rules, name) + [r]
  {
    assert (rules + [r])[..|rules|] == rules;
  }

  function FoundHosts(domains: seq<string>, hosts: set<string>): seq<Option<string>> {
    if domains == [] then []
    else
      var d := domains[|domains| - 1];
      FoundHosts(domains[..|domains| - 1], hosts) + if d in hosts then [Some(d)] else []
  }

  function NotifyView(x: NotifyExport, hosts: set<string>): RuleView {
    RuleView(x.name, x.channel, x.event, FoundHosts(x.hosts, hosts), x.severities, x.enabled, x.throttle)
  }

  /** A rule for an unknown channel is skipped; merging replaces all rules of its name. */
  function PutNotify(
      rules: seq<RuleView>, x: NotifyExport, channels: set<string>, hosts: set<string>, mode: Mode): seq<RuleView> {
    if x.channel !in channels then rules
    else (if mode.Merge? then Without(rules, x.name) else rules) + [NotifyView(x, hosts)]
  }

  function PutNotifies(
      rules: seq<RuleView>, xs: seq<NotifyExport>, channels: set<string>, hosts: set<string>,
      mode: Mode): seq<RuleView> {
    if xs == [] then rules
    else PutNotify(PutNotifies(rules, xs[..|xs| - 1], channels, hosts, mode), xs[|xs| - 1], channels, hosts, mode)
  }

  function PutSettings(settings: map<string, string>, given: map<string, string>): map<string, string> {
    settings + map k | k in given && Exportable(k) :: given[k]
  }

  /** The wipe of replace mode; settings stay. */
  function Wiped(v: View, mode: Mode): View {
    if mode.Replace? then View(map[], map[], map[], [], v.settings) else v
  }

  function HostsImported(v: View, groups: set<string>, b: Bundle, mode: Mode): Option<map<string, HostView>> {
    var named := KeysOf(b.hosts, HOST_NAME);
    match Fold(v.hosts, b.hosts, Upsert(HOST_NAME, HostOk(groups), WRITE_HOST, mode.Replace?, None))
    case None => None
    case Some(hosts) =>
      match Fold(Filling(hosts, {}), b.rules, Fill(RULES, named, mode.Merge?))
      case None => None
      case Some(ruled) =>
        match Fold(Filling(ruled.rows, {}), b.security, Fill(SECURITY, named, mode.Merge?))
        case None => None
        case Some(secured) => Some(secured.rows)
  }

  /** What an import makes of a configuration; None when it fails and is rolled back. */
  function Imported(before: View, b: Bundle, mode: Mode): Option<View> {
    var v := Wiped(before, mode);
    match Fold(v.groups, b.groups, Upsert(GROUP_NAME, GROUP_OK, WRITE_GROUP, mode.Replace?, None))
    case None => None
    case Some(groups) =>
      match HostsImported(v, groups.Keys, b, mode)
      case None => None
      case Some(hosts) =>
        match Fold(v.channels, b.channels,
            Upsert(CHANNEL_NAME, CHANNEL_OK, WriteChannel(mode), mode.Replace?, Some(v.channels)))
        case None => None
        case Some(channels) =>
          Some(View(groups, hosts, channels, PutNotifies(v.rules, b.notify, channels.Keys, hosts.Keys, mode),
                    PutSettings(v.settings, b.settings)))
  }

  // ----- export -----

  function GroupExports(v: View, names: seq<string>): seq<GroupExport>
    requires forall i :: 0 <= i < |names| ==> names[i] in v.groups
  {
    seq(|names|, i requires 0 <= i < |names| => var g := v.groups[names[i]]; GroupExport(names[i], g.cols, g.targets))
  }

  function HostExports(v: View, names: seq<string>): seq<HostExport>
    requires forall i :: 0 <= i < |names| ==> names[i] in v.hosts
  {
    seq(|names|, i requires 0 <= i < |names| => HostExport(names[i], v.hosts[names[i]].group, v.hosts[names[i]].cols))
  }

  function RulesOfHost(name: string, rules: seq<Rule>): seq<RuleExport> {
    seq(|rules|, i requires 0 <= i < |rules| => RuleExport(name, rules[i]))
  }

  function RuleExports(v: View, names: seq<string>): seq<RuleExport>
    requires forall i :: 0 <= i < |names| ==> names[i] in v.hosts
  {
    if names == [] then []
    else
      RuleExports(v, names[..|names| - 1]) + RulesOfHost(names[|names| - 1], v.hosts[names[|names| - 1]].rules)
  }

  /** GetHostSecurity: a host without a row has the defaults. */
  function Effective(s: Option<Security>): Security {
    if s.Some? then s.value else DefaultSecurity()
  }

  function SecurityExports(v: View, names: seq<string>): seq<SecurityExport>
    requires forall i :: 0 <= i < |names| ==> names[i] in v.hosts
  {
    seq(|names|, i requires 0 <= i < |names| =>
      var h := v.hosts[names[i]];
      SecurityExport(names[i], Effective(h.security), h.exclusions, h.customRules))
  }

  function ChannelExports(v: View, names: seq<string>): seq<ChannelExport>
    requires forall i :: 0 <= i < |names| ==> names[i] in v.channels
  {
    seq(|names|, i requires 0 <= i < |names| =>
      var c := v.channels[names[i]];
      ChannelExport(names[i], c.kind, c.enabled, Redact(c.kind, c.config), c.template, c.ratePerMinute))
  }

  function Domains(hosts: seq<Option<string>>): seq<string> {
    if hosts == [] then []
    else
      var h := hosts[|hosts| - 1];
      Domains(hosts[..|hosts| - 1]) + if h.Some? then [h.value] else []
  }

  function NotifyOf(r: RuleView): NotifyExport {
    NotifyExport(r.name, r.channel, r.event, Domains(r.hosts), r.severities, r.enabled, r.throttle)
  }

  const BY_NAME: (NotifyExport, NotifyExport) -> bool := (a: NotifyExport, b: NotifyExport) => Less(a.name, b.name)

  /** ListRules gives the youngest first; the bundle is sorted by name, stably. */
  function Youngest(rules: seq<RuleView>): seq<NotifyExport> {
    if rules == [] then [] else [NotifyOf(rules[|rules| - 1])] + Youngest(rules[..|rules| - 1])
  }

  function Exported(v: View): Bundle {
    var groups, hosts, channels := Listing(v.groups.Keys), Listing(v.hosts.Keys), Listing(v.channels.Keys);
    ListingIndexes(v.groups.Keys);
    ListingIndexes(v.hosts.Keys);
    ListingIndexes(v.channels.Keys);
    Bundle(
      GroupExports(v, groups), HostExports(v, hosts), RuleExports(v, hosts), SecurityExports(v, hosts),
      ChannelExports(v, channels), InsertAll([], Youngest(v.rules), BY_NAME),
      map k | k in v.settings && Exportable(k) :: v.settings[k])
  }
}
