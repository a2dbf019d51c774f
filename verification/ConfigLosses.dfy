/** What a round trip through one's own export loses: the filters on hosts that
    are gone, secrets that are no ciphertexts, and empty expected statuses, each
    with a configuration that shows it. */
module ConfigLosses {
  import opened Basics
  import opened Upserts
  import opened Ordering
  import opened ConfigModel
  import opened ConfigLaws
  import opened ConfigRoundTrip
  import opened ConfigTables
  import opened StrayFilters

  // ----- which events a rule matches -----

  /** matchesFilters for an event about the host of that domain; an empty filter matches all. */
  predicate Matches(r: RuleView, host: string, severity: string) {
    (r.hosts == [] || Some(host) in r.hosts) && MatchesSeverity(r, severity)
  }

  predicate MatchesSeverity(r: RuleView, severity: string) {
    r.severities == [] || severity in r.severities
  }

  /** The rule filters on hosts, and all of them are gone. */
  predicate OnlyLostHosts(r: RuleView) {
    r.hosts != [] && forall i :: 0 <= i < |r.hosts| ==> r.hosts[i] == None
  }

  lemma {:induction false} PresentMembers(hosts: seq<Option<string>>)
    ensures forall h :: h in Present(hosts) <==> h in hosts && h.Some?
    ensures Present(hosts) == [] <==> forall i :: 0 <= i < |hosts| ==> hosts[i] == None
  {
    if hosts != [] {
      var front, last := hosts[..|hosts| - 1], hosts[|hosts| - 1];
      PresentMembers(front);
      assert hosts == front + [last];
      assert forall i :: 0 <= i < |front| ==> hosts[i] == front[i];
    }
  }

  lemma SomeSeverity(r: RuleView) returns (s: string)
    ensures MatchesSeverity(r, s)
  {
    s := if r.severities == [] then "" else r.severities[0];
  }

  /** The rule that comes back matches the same events as the rule that went out
      exactly when it does not filter only on hosts that are gone. */
  lemma FilterComesBackIff(r: RuleView)
    ensures (forall host, severity :: Matches(BackRule(r), host, severity) <==> Matches(r, host, severity))
            <==> !OnlyLostHosts(r)
  {
    PresentMembers(r.hosts);
    if OnlyLostHosts(r) {
      var s := SomeSeverity(r);
      assert Matches(BackRule(r), "", s) && !Matches(r, "", s);
    }
  }

  lemma RulesComeBack(v: View, w: View, mode: Mode)
    requires ComesBackAs(v, w, mode)
    ensures multiset(w.rules) == multiset(BackRules(v.rules))
  {
  }

  lemma BackRuleListed(rules: seq<RuleView>, r: RuleView)
    requires r in rules
    ensures BackRule(r) in BackRules(rules)
  {
    var i :| 0 <= i < |rules| && rules[i] == r;
    assert BackRules(rules)[i] == BackRule(r);
    hide BackRule;
  }

  lemma BackRuleIsThere(v: View, mode: Mode, r: RuleView)
    requires Sane(v) && (mode.Merge? ==> UniqueRuleNames(v.rules)) && r in v.rules
    ensures Imported(v, Exported(v), mode).Some? && BackRule(r) in Imported(v, Exported(v), mode).value.rules
  {
    hide *;
    OwnExportComesBack(v, mode);
    RulesComeBack(v, Imported(v, Exported(v), mode).value, mode);
    BackRuleListed(v.rules, r);
    assert BackRule(r) in multiset(BackRules(v.rules));
  }

  /** A rule that filtered only on deleted hosts matched no host's events; after
      a round trip it matches every host's, severities permitting. */
  lemma LostFilterMatchesAll(v: View, mode: Mode, r: RuleView)
    requires Sane(v) && (mode.Merge? ==> UniqueRuleNames(v.rules)) && r in v.rules && OnlyLostHosts(r)
    ensures Imported(v, Exported(v), mode).Some?
    ensures exists back :: back in Imported(v, Exported(v), mode).value.rules && back == r.(hosts := [])
    ensures forall host, severity :: !Matches(r, host, severity)
    ensures forall host, severity :: Matches(r.(hosts := []), host, severity) <==> MatchesSeverity(r, severity)
  {
    BackRuleIsThere(v, mode, r);
    PresentMembers(r.hosts);
    assert BackRule(r) == r.(hosts := []);
    hide Imported, Exported, Sane, BackRule, UniqueRuleNames;
  }

  // ----- configurations that do not come back -----

  function Hook(secret: string): ChannelRow {
    ChannelRow("hook", "webhook", true, map["headers" := Text(secret)], "", 0)
  }

  /** One enabled channel with a secret, and the given notification rules. */
  function OneChannel(secret: string, rules: seq<RuleView>): View {
    View(map[], map[], map["hook" := Hook(secret)], rules, map[])
  }

  function LostRule(): RuleView {
    RuleView("alert", "hook", "host_down", [None], [], true, 0)
  }

  function OneGroup(status: string): View {
    View(map["web" := GroupRow("web", GroupCols("http", false, "round_robin", false, "/", "GET", status, 10, 5, 3, 2),
        [], false)],
         map[], map[], [], map[])
  }

  lemma BarePrefix()
    ensures !IsEncrypted(Text("argos1:")) && !IsEncrypted(Text("plain")) && IsEncrypted(Text("argos1:x"))
  {
    assert "plain"[0] != "argos1:"[0];
  }

  /** Merging its own export disables a channel whose secret is plain text, or
      nothing but the prefix of a ciphertext. */
  lemma PlainSecretIsLost(secret: string)
    requires secret == "plain" || secret == "argos1:"
    ensures var v := OneChannel(secret, []);
            && Sane(v) && !Settled(v) && Imported(v, Exported(v), Merge).Some?
            && var w := Imported(v, Exported(v), Merge).value;
               "hook" in w.channels && w.channels["hook"] == Hook("").(enabled := false) && !Same(v, w)
  {
    var v := OneChannel(secret, []);
    BarePrefix();
    var c := v.channels["hook"];
    assert SecretPresent(c) && !SecretKept(c);
    assert c.config["headers" := Text("")] == Hook("").config;
    assert BackChannel(c, Merge) == Hook("").(enabled := false);
    hide Imported, Exported;
    OwnExportComesBack(v, Merge);
    MergingOwnExportIsNoOpIff(v);
  }

  lemma LostRuleIsSane()
    ensures var v := OneChannel("argos1:x", [LostRule()]);
            && Sane(v) && UniqueRuleNames(v.rules) && !Settled(v) && LostRule() in v.rules && OnlyLostHosts(LostRule())
  {
    var v := OneChannel("argos1:x", [LostRule()]);
    assert v.rules[0] == LostRule() && LostRule().hosts[0] == None;
    assert None in v.rules[0].hosts;
  }

  /** So merging turns a rule on a deleted host into a rule for all hosts. */
  lemma DeletedHostFilterIsLost(host: string, severity: string)
    ensures var v := OneChannel("argos1:x", [LostRule()]);
            && Sane(v) && Imported(v, Exported(v), Merge).Some?
            && var w := Imported(v, Exported(v), Merge).value;
               && LostRule() in v.rules && !Matches(LostRule(), host, severity)
               && (exists back :: back in w.rules && back == LostRule().(hosts := []) && Matches(back, host, severity))
               && !Same(v, w)
  {
    var v := OneChannel("argos1:x", [LostRule()]);
    assert MatchesSeverity(LostRule(), severity);
    LostRuleIsSane();
    hide *;
    LostFilterMatchesAll(v, Merge, LostRule());
    MergingOwnExportIsNoOpIff(v);
    var w := Imported(v, Exported(v), Merge).value;
    var back :| back in w.rules && back == LostRule().(hosts := []);
    assert Matches(back, host, severity);
  }

  /** An empty expected status comes back as 200, in both modes. */
  lemma EmptyStatusIsLost(mode: Mode)
    ensures var v := OneGroup("");
            && Sane(v) && !Settled(v) && Imported(v, Exported(v), mode).Some?
            && var w := Imported(v, Exported(v), mode).value;
               "web" in w.groups && w.groups["web"] == OneGroup("200").groups["web"] && !Same(v, w)
               && (mode.Replace? ==> !SameBundle(Exported(v), Exported(w)))
  {
    var v := OneGroup("");
    assert "web" in v.groups && v.groups["web"].cols.expectStatus == "";
    assert BackGroup(v.groups["web"], mode) == OneGroup("200").groups["web"];
    assert Sane(v);
    hide Imported, Exported, SameBundle;
    OwnExportComesBack(v, mode);
    ReplaceRoundTrip(v);
  }

  // ----- a filter that comes alive -----

  /** A rule of the only channel, filtering on host 5 alone. */
  predicate StrayRow(r: NotifyRow) {
    r.channelId == 1 && r.hostIds == [5] && r.severities == []
  }

  /** A database of one group, one channel and one notification rule, whose next host will get the id 5. */
  function StrayDb(g: GroupRow, c: ChannelRow, r: NotifyRow): Db {
    Db(map[1 := g], map[], map[1 := c], [r], map[], 2, 5, 2)
  }

  function HostBundle(x: HostExport): Bundle {
    Bundle([], [x], [], [], [], [], map[])
  }

  lemma OneRow<R, V>(id: int, r: R, name: R -> string, see: R -> V)
    ensures Unique(map[id := r], name) && Index(map[id := r], name, see) == map[name(r) := see(r)]
    ensures Unique(map[], name) && Index<R, V>(map[], name, see) == map[]
  {
    var t := map[id := r];
    assert t[id] == r;
  }

  lemma StrayDbIsValid(g: GroupRow, c: ChannelRow, r: NotifyRow)
    requires StrayRow(r)
    ensures Valid(StrayDb(g, c, r))
  {
    OneRow(1, g, GROUP, SAME_GROUP);
    OneRow(1, c, CHANNEL, SAME_CHANNEL);
    EmptyHosts(StrayDb(g, c, r).groups);
    hide Unique, Index;
  }

  lemma StrayDbTables(g: GroupRow, c: ChannelRow, r: NotifyRow)
    requires StrayRow(r)
    ensures Valid(StrayDb(g, c, r))
    ensures ViewOf(StrayDb(g, c, r)).groups.Keys == {g.name} && ViewOf(StrayDb(g, c, r)).hosts == map[]
  {
    hide *;
    StrayDbIsValid(g, c, r);
    StrayParts(g, c, r);
    SeenTables(StrayDb(g, c, r), g);
  }

  lemma StrayParts(g: GroupRow, c: ChannelRow, r: NotifyRow)
    ensures var d := StrayDb(g, c, r);
            d.groups == map[1 := g] && d.hosts == map[] && d.notify == [r] && d.nextHost == 5
  {
  }

  lemma SeenTables(d: Db, g: GroupRow)
    requires Valid(d) && d.groups == map[1 := g] && d.hosts == map[]
    ensures ViewOf(d).groups.Keys == {g.name} && ViewOf(d).hosts == map[]
  {
    hide *;
    SeenIndexes(d);
    OneRow(1, g, GROUP, SAME_GROUP);
    EmptyHosts(d.groups);
    GroupName(g);
  }

  lemma GroupName(g: GroupRow)
    ensures GROUP(g) == g.name
  {
  }

  lemma SeenIndexes(d: Db)
    requires Valid(d)
    ensures Unique(d.groups, GROUP) && ViewOf(d).groups == Index(d.groups, GROUP, SAME_GROUP)
    ensures Unique(d.hosts, HOST) && ViewOf(d).hosts == Index(d.hosts, HOST, SeeHost(d.groups))
  {
    hide Index, Unique, SeeRules, SeeHost;
  }

  lemma EmptyHosts(groups: map<int, GroupRow>)
    ensures Unique(map[], HOST) && Index(map[], HOST, SeeHost(groups)) == map[]
  {
  }

  lemma FoldOne<S, X>(s: S, x: X, step: (S, X) -> Option<S>)
    ensures Fold(s, [x], step) == step(s, x)
    ensures Fold(s, [], step) == Some(s)
  {
    assert [x][..0] == [];
    assert Fold(s, [], step) == Some(s);
  }

  lemma HostBundleMerges(v: View, x: HostExport)
    requires v.groups.Keys == {x.group} && v.hosts == map[] && HostFits(NormalHost(x.cols))
    ensures Imported(v, HostBundle(x), Merge).Some?
  {
    FoldOne(v.hosts, x, Upsert(HOST_NAME, HostOk(v.groups.Keys), WRITE_HOST, false, None));
    assert HostOk(v.groups.Keys)(x);
    hide PutNotifies, PutSettings, WriteChannel, HostFits, NormalHost;
  }

  lemma OneNewHost(known: set<string>, x: HostExport)
    requires known == {}
    ensures Fresh(known, KeysOf(HostBundle(x).hosts, HOST_NAME)) == 1
  {
    var xs := HostBundle(x).hosts;
    assert KeysOf(xs, HOST_NAME) == {x.domain} by {
      assert HOST_NAME(xs[0]) == x.domain;
    }
    assert {x.domain} - known == {x.domain};
  }

  lemma NothingWritten(channels: set<string>)
    ensures WrittenNames([], channels) == {}
  {
  }

  lemma StrayRowStays(d: Db, b: Bundle, r: NotifyRow)
    requires Valid(d) && d.notify == [r] && StrayRow(r) && d.nextHost == 5 && NewHosts(d, b) == 1 && b.notify == []
    ensures HasStrayFilter(d, b)
  {
    hide *;
    var channels := ViewOf(d).channels.Keys + KeysOf(b.channels, CHANNEL_NAME);
    NothingWritten(channels);
    StrayIs(d, b, channels, 6);
    StrayRowNames(r);
    assert d.notify[0] == r;
  }

  lemma StrayRowNames(r: NotifyRow)
    requires StrayRow(r)
    ensures NamesAny(r.hostIds, 5, 6)
  {
    assert r.hostIds[0] == 5;
  }

  lemma StrayRowSeen(hosts: map<int, HostRow>, channels: map<int, ChannelRow>, r: NotifyRow)
    requires StrayRow(r)
    ensures SeeNotify(hosts, channels, r).hosts == [if 5 in hosts then Some(hosts[5].domain) else None]
    ensures SeeNotify(hosts, channels, r).severities == []
  {
    assert [5][..0] == [] && SeeIds(hosts, []) == [];
    hide NameOf;
  }

  /** Merging a bundle with one new host gives it id 5: the rule, which matched no
      host, matches the new one. */
  lemma StrayFilterComesAlive(
      g: GroupRow, c: ChannelRow, r: NotifyRow, x: HostExport, hosts: map<int, HostRow>, severity: string)
    requires StrayRow(r) && x.group == g.name && HostFits(NormalHost(x.cols)) && 5 in hosts
    requires hosts[5].domain == x.domain
    ensures var d, b := StrayDb(g, c, r), HostBundle(x);
            && Valid(d) && Imported(ViewOf(d), b, Merge).Some? && HasStrayFilter(d, b)
            && !Matches(SeeNotify(d.hosts, d.channels, r), x.domain, severity)
            && Matches(SeeNotify(hosts, d.channels, r), x.domain, severity)
  {
    hide *;
    var d, b := StrayDb(g, c, r), HostBundle(x);
    StrayDbTables(g, c, r);
    StrayParts(g, c, r);
    StrayRowMatches(d.hosts, d.channels, r, x.domain, severity);
    StrayRowMatches(hosts, d.channels, r, x.domain, severity);
    HostBundleMerges(ViewOf(d), x);
    OneNewHost(ViewOf(d).hosts.Keys, x);
    NewHostsIs(d, b);
    HostBundleIs(x);
    StrayRowStays(d, b, r);
  }

  lemma StrayRowMatches(
      hosts: map<int, HostRow>, channels: map<int, ChannelRow>, r: NotifyRow, host: string, severity: string)
    requires StrayRow(r)
    ensures Matches(SeeNotify(hosts, channels, r), host, severity) <==> 5 in hosts && hosts[5].domain == host
  {
    StrayRowSeen(hosts, channels, r);
    hide SeeNotify;
  }

  lemma HostBundleIs(x: HostExport)
    ensures HostBundle(x).hosts == [x] && HostBundle(x).notify == []
  {
  }

  lemma NewHostsIs(d: Db, b: Bundle)
    requires Valid(d)
    ensures NewHosts(d, b) == Fresh(ViewOf(d).hosts.Keys, KeysOf(b.hosts, HOST_NAME))
  {
    hide Valid, ViewOf, Fresh, KeysOf;
  }
}
