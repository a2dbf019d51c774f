/** What importing a configuration's own export does to it, in both modes. */
module ConfigRoundTrip {
  import opened Basics
  import opened Upserts
  import opened Ordering
  import opened ConfigModel
  import opened ConfigLaws

  // ----- what the schema keeps true -----

  predicate RulesFit(rules: seq<Rule>) {
    && (forall i :: 0 <= i < |rules| ==> rules[i].decodes)
    && (forall i, j :: 0 <= i < j < |rules| ==> rules[i].priority < rules[j].priority)
  }

  predicate ExclusionsFit(es: seq<Exclusion>) {
    && (forall i :: 0 <= i < |es| ==> 0 < es[i].crsRule)
    && (forall i, j :: 0 <= i < j < |es| ==> es[i].crsRule <= es[j].crsRule)
    && (forall i, j :: 0 <= i < j < |es| ==> es[i].crsRule != es[j].crsRule || es[i].path != es[j].path)
  }

  predicate HostRowFits(h: HostView, groups: set<string>) {
    && h.group in groups && HostFits(h.cols) && RulesFit(h.rules) && ExclusionsFit(h.exclusions)
    && (h.security.Some? ==> SecurityFits(h.security.value))
  }

  predicate RuleFits(r: RuleView, channels: set<string>, hosts: set<string>) {
    && r.channel in channels
    && forall i :: 0 <= i < |r.hosts| && r.hosts[i].Some? ==> r.hosts[i].value in hosts
  }

  /** Every row meets its constraints and every reference leads to a row. */
  predicate Sane(v: View) {
    && (forall n :: n in v.groups ==> v.groups[n].name == n && GroupFits(v.groups[n].cols, v.groups[n].targets))
    && (forall n :: n in v.hosts ==> HostRowFits(v.hosts[n], v.groups.Keys))
    && (forall n :: n in v.channels ==> v.channels[n].name == n && ChannelFits(v.channels[n].kind))
    && (forall i :: 0 <= i < |v.rules| ==> RuleFits(v.rules[i], v.channels.Keys, v.hosts.Keys))
  }

  // ----- lists of entries, one per name -----

  ghost predicate OnePerName<X>(xs: seq<X>, names: seq<string>, key: X -> string) {
    && |xs| == |names|
    && (forall i :: 0 <= i < |xs| ==> key(xs[i]) == names[i])
    && (forall i, j :: 0 <= i < j < |names| ==> names[i] != names[j])
  }

  lemma ListedKeys<X>(xs: seq<X>, s: set<string>, key: X -> string)
    requires OnePerName(xs, Listing(s), key)
    ensures KeysOf(xs, key) == s && DistinctKeys(xs, key)
    ensures forall k :: k in s ==> exists i :: 0 <= i < |xs| && key(xs[i]) == k
  {
    ListingLists(s);
    forall k | k in s
      ensures exists i :: 0 <= i < |xs| && key(xs[i]) == k
    {
      assert k in Listing(s);
    }
    forall k | k in KeysOf(xs, key)
      ensures k in s
    {
      var i :| 0 <= i < |xs| && key(xs[i]) == k;
      assert Listing(s)[i] in Listing(s);
    }
  }

  lemma GroupsListed(v: View, s: set<string>)
    requires s == v.groups.Keys
    ensures forall i :: 0 <= i < |Listing(s)| ==> Listing(s)[i] in v.groups
    ensures OnePerName(GroupExports(v, Listing(s)), Listing(s), GROUP_NAME)
  {
    ListingLists(s);
    ListingIndexes(s);
  }

  lemma HostsListed(v: View, s: set<string>)
    requires s == v.hosts.Keys
    ensures forall i :: 0 <= i < |Listing(s)| ==> Listing(s)[i] in v.hosts
    ensures OnePerName(HostExports(v, Listing(s)), Listing(s), HOST_NAME)
    ensures OnePerName(SecurityExports(v, Listing(s)), Listing(s), SECURITY.key)
  {
    ListingLists(s);
    ListingIndexes(s);
  }

  lemma ChannelsListed(v: View, s: set<string>)
    requires s == v.channels.Keys
    ensures forall i :: 0 <= i < |Listing(s)| ==> Listing(s)[i] in v.channels
    ensures OnePerName(ChannelExports(v, Listing(s)), Listing(s), CHANNEL_NAME)
  {
    ListingLists(s);
    ListingIndexes(s);
  }

  /** The last entry of a name is its only one. */
  lemma ListedLast<X>(xs: seq<X>, s: set<string>, key: X -> string, i: nat)
    requires OnePerName(xs, Listing(s), key) && i < |xs|
    ensures LastOf(xs, key, key(xs[i])) == Some(xs[i])
  {
    LastOfDistinct(xs, key, i);
  }

  // ----- groups and channels -----

  /** The row an import makes of an exported group: `kept` says whether the old row is there. */
  function BackGroup(g: GroupRow, mode: Mode): GroupRow {
    g.(cols := Normal(g.cols), preserveHost := g.preserveHost && mode.Merge?)
  }

  predicate SecretPresent(c: ChannelRow) {
    SecretField(c.kind).Some? && SecretField(c.kind).value in c.config
  }

  /** A ciphertext survives merging; any other secret is emptied and its channel disabled. */
  function BackChannel(c: ChannelRow, mode: Mode): ChannelRow {
    if !SecretPresent(c) || (mode.Merge? && IsEncrypted(c.config[SecretField(c.kind).value])) then c
    else c.(enabled := false, config := c.config[SecretField(c.kind).value := Text("")])
  }

  /** A loop of upserts over one entry per name writes each row once. */
  lemma ListedUpserts<X(!new), V(!new)>(
      m: map<string, V>, xs: seq<X>, s: set<string>, key: X -> string, ok: X -> bool, write: Write<X, V>, replace: bool,
      from: Option<map<string, V>>)
    requires OnePerName(xs, Listing(s), key) && (forall i :: 0 <= i < |xs| ==> ok(xs[i]))
    requires if from.Some? then from.value == m else Absorbs(write)
    requires m.Keys <= s && (replace ==> m == map[])
    ensures var r := Fold(m, xs, Upsert(key, ok, write, replace, from));
            && r.Some? && r.value.Keys == s
            && forall i :: 0 <= i < |xs| ==> key(xs[i]) in s && r.value[key(xs[i])] == write(xs[i], Get(m, key(xs[i])))
  {
    hide Fold, Upsert, Upserted, Listing, KeysOf, Absorbs;
    ListedKeys(xs, s, key);
    UpsertLoop(m, xs, key, ok, write, replace, from);
    UpsertedKeys(m, m, xs, key, write);
    forall i | 0 <= i < |xs|
      ensures Get(Upserted(m, m, xs, key, write), key(xs[i])) == Some(write(xs[i], Get(m, key(xs[i]))))
    {
      ListedLast(xs, s, key, i);
      UpsertedAt(m, m, xs, key, write, key(xs[i]));
    }
  }

  lemma GroupBack(g: GroupRow, mode: Mode, previous: Option<GroupRow>)
    requires GroupFits(g.cols, g.targets) && previous == if mode.Merge? then Some(g) else None
    ensures GROUP_OK(GroupExport(g.name, g.cols, g.targets))
    ensures WRITE_GROUP(GroupExport(g.name, g.cols, g.targets), previous) == BackGroup(g, mode)
  {
  }

  lemma GroupsBack(v: View, mode: Mode)
    requires Sane(v)
    ensures var w := Wiped(v, mode).groups;
            var r := Fold(w, Exported(v).groups, Upsert(GROUP_NAME, GROUP_OK, WRITE_GROUP, mode.Replace?, None));
            r.Some? && r.value.Keys == v.groups.Keys && forall n :: n in v.groups ==>
              r.value[n] == BackGroup(v.groups[n], mode)
  {
    var w, s := Wiped(v, mode).groups, v.groups.Keys;
    GroupsListed(v, s);
    var xs := GroupExports(v, Listing(s));
    GroupWritesAbsorb();
    hide Listing, Absorbs, Settles, Upsert, Fold, GroupFits, BackGroup, Normal;
    forall i | 0 <= i < |xs|
      ensures GROUP_OK(xs[i])
      ensures WRITE_GROUP(xs[i], Get(w, GROUP_NAME(xs[i]))) == BackGroup(v.groups[GROUP_NAME(xs[i])], mode)
    {
      GroupBack(v.groups[Listing(s)[i]], mode, Get(w, Listing(s)[i]));
    }
    ListedUpserts(w, xs, s, GROUP_NAME, GROUP_OK, WRITE_GROUP, mode.Replace?, None);
    ListedKeys(xs, s, GROUP_NAME);
    forall n | n in v.groups
      ensures Fold(w, xs, Upsert(GROUP_NAME, GROUP_OK, WRITE_GROUP, mode.Replace?, None)).value[n]
           == BackGroup(v.groups[n], mode)
    {
      var i :| 0 <= i < |xs| && GROUP_NAME(xs[i]) == n;
    }
  }

  lemma ChannelBack(c: ChannelRow, mode: Mode, previous: Option<ChannelRow>)
    requires mode.Merge? ==> previous == Some(c)
    ensures WriteChannel(mode)(ExportOf(c), previous) == BackChannel(c, mode)
  {
    var f := SecretField(c.kind);
    if SecretPresent(c) {
      assert Redact(c.kind, c.config)[f.value := Text("")] == c.config[f.value := Text("")];
      assert Redact(c.kind, c.config)[f.value := c.config[f.value]] == c.config;
    }
    hide SecretField, IsEncrypted;
  }

  function ExportOf(c: ChannelRow): ChannelExport {
    ChannelExport(c.name, c.kind, c.enabled, Redact(c.kind, c.config), c.template, c.ratePerMinute)
  }

  lemma ChannelEntries(v: View, s: set<string>)
    requires Sane(v) && s == v.channels.Keys
    ensures var xs := Exported(v).channels;
            && OnePerName(xs, Listing(s), CHANNEL_NAME)
            && forall i :: 0 <= i < |xs| ==>
                 CHANNEL_OK(xs[i]) && CHANNEL_NAME(xs[i]) in v.channels
                 && xs[i] == ExportOf(v.channels[CHANNEL_NAME(xs[i])])
  {
    ChannelsListed(v, s);
    var xs := ChannelExports(v, Listing(s));
    assert xs == Exported(v).channels;
    hide Listing, Redact, Exported, ChannelFits;
  }

  lemma ChannelsBack(v: View, mode: Mode)
    requires Sane(v)
    ensures var w := Wiped(v, mode).channels;
            var r := Fold(w, Exported(v).channels,
                Upsert(CHANNEL_NAME, CHANNEL_OK, WriteChannel(mode), mode.Replace?, Some(w)));
            r.Some? && r.value.Keys == v.channels.Keys && forall n :: n in v.channels ==>
              r.value[n] == BackChannel(v.channels[n], mode)
  {
    var w, s, xs := Wiped(v, mode).channels, v.channels.Keys, Exported(v).channels;
    WipedChannels(v, mode);
    hide *;
    ChannelEntries(v, s);
    ListedUpserts(w, xs, s, CHANNEL_NAME, CHANNEL_OK, WriteChannel(mode), mode.Replace?, Some(w));
    ListedKeys(xs, s, CHANNEL_NAME);
    forall n | n in v.channels
      ensures Fold(w, xs, Upsert(CHANNEL_NAME, CHANNEL_OK, WriteChannel(mode), mode.Replace?, Some(w))).value[n]
           == BackChannel(v.channels[n], mode)
    {
      var i :| 0 <= i < |xs| && CHANNEL_NAME(xs[i]) == n;
      ChannelBack(v.channels[n], mode, Get(w, n));
    }
  }

  lemma WipedChannels(v: View, mode: Mode)
    ensures var w := Wiped(v, mode).channels;
            w.Keys <= v.channels.Keys && (mode.Replace? ==> w == map[])
            && (mode.Merge? ==> forall n :: n in v.channels ==> Get(w, n) == Some(v.channels[n]))
  {
  }

  // ----- hosts -----

  /** The host an import makes of an exported one: its security spelled out and,
      when replaced, the columns outside the bundle at their defaults. */
  function BackHost(h: HostView, mode: Mode): HostView {
    h.(security := Some(Effective(h.security)), extra := if mode.Merge? then h.extra else NewHostExtra())
  }

  lemma AppendInOrder(front: seq<Rule>, last: Rule)
    requires RulesFit(front + [last])
    ensures RulesFit(front) && AddRule(front, last) == Some(front + [last])
  {
    var all := front + [last];
    assert all[..|front|] == front && all[|front|] == last;
    forall i | 0 <= i < |front|
      ensures front[i] == all[i] && front[i].priority < last.priority
    {
      assert all[i].priority < all[|front|].priority;
    }
  }

  lemma {:induction false} GatherOneHost(xs: seq<RuleExport>, name: string, rules: seq<Rule>, k: string)
    requires RulesFit(rules) && (k == name ==> Gathered(RULES, xs, k) == Some([]))
    ensures Gathered(RULES, xs + RulesOfHost(name, rules), k)
         == if k == name then Some(rules) else Gathered(RULES, xs, k)
  {
    hide Gathered, RulesFit, AddRule;
    if rules == [] {
      assert xs + RulesOfHost(name, rules) == xs;
    } else {
      var front, last := rules[..|rules| - 1], rules[|rules| - 1];
      assert front + [last] == rules;
      AppendInOrder(front, last);
      GatherOneHost(xs, name, front, k);
      var before := xs + RulesOfHost(name, front);
      assert xs + RulesOfHost(name, rules) == before + [RuleExport(name, last)];
      hide RulesOfHost;
      GatheredOneMore(RULES, before, RuleExport(name, last), k);
    }
  }

  lemma NoEntries<X, V, A>(p: Part<X, V, A>, k: string)
    ensures Gathered(p, [], k) == Some(p.empty)
  {
  }

  lemma {:induction false} GatherHosts(v: View, names: seq<string>, k: string)
    requires forall i :: 0 <= i < |names| ==> names[i] in v.hosts && RulesFit(v.hosts[names[i]].rules)
    requires forall i, j :: 0 <= i < j < |names| ==> names[i] != names[j]
    ensures k in names ==> k in v.hosts
    ensures Gathered(RULES, RuleExports(v, names), k) == Some(if k in names then v.hosts[k].rules else [])
  {
    hide Gathered, RulesFit, RulesOfHost;
    if names == [] {
      NoEntries(RULES, k);
    } else {
      var front, last := names[..|names| - 1], names[|names| - 1];
      GatherHosts(v, front, k);
      assert last !in front && (k in names <==> k == last || k in front);
      var before, rules := RuleExports(v, front), v.hosts[last].rules;
      assert RuleExports(v, names) == before + RulesOfHost(last, rules);
      hide RuleExports;
      GatherOneHost(before, last, rules, k);
    }
  }

  lemma {:induction false} RuleHosts(v: View, names: seq<string>)
    requires forall i :: 0 <= i < |names| ==> names[i] in v.hosts
    ensures forall i :: 0 <= i < |RuleExports(v, names)| ==> RuleExports(v, names)[i].host in v.hosts
  {
    if names != [] {
      RuleHosts(v, names[..|names| - 1]);
    }
  }

  /** With one entry per name, a part is the one entry added to the empty part. */
  lemma {:induction false} GatherSingle<X, V, A>(p: Part<X, V, A>, xs: seq<X>, i: nat)
    requires i < |xs| && forall a, b :: 0 <= a < b < |xs| ==> p.key(xs[a]) != p.key(xs[b])
    ensures Gathered(p, xs, p.key(xs[i])) == p.add(p.empty, xs[i])
  {
    if i == |xs| - 1 {
      GatheredNothing(p, xs[..i], p.key(xs[i]));
    } else {
      GatherSingle(p, xs[..|xs| - 1], i);
    }
  }

  lemma {:induction false} ExclusionsBack(es: seq<Exclusion>)
    requires ExclusionsFit(es)
    ensures Fold([], es, ADD_EXCLUSION) == Some(es)
  {
    if es != [] {
      var front, last := es[..|es| - 1], es[|es| - 1];
      ExclusionsBack(front);
      hide Fold;
      FoldOneMore([], es, |es| - 1, ADD_EXCLUSION);
      assert front + [last] == es && es[..|es|] == es;
    }
  }

  lemma SecurityBack(h: HostView, name: string, groups: set<string>)
    requires HostRowFits(h, groups)
    ensures AddSecurity(SECURITY.empty, SecurityExport(name, Effective(h.security), h.exclusions, h.customRules))
         == Some(SecurityPart(Some(Effective(h.security)), h.exclusions, h.customRules))
  {
    ExclusionsBack(h.exclusions);
    hide Fold;
    assert SECURITY.empty == SecurityPart(None, [], []);
    assert [] + h.customRules == h.customRules;
  }

  lemma GatherSecurity(v: View, s: set<string>, k: string)
    requires Sane(v) && s == v.hosts.Keys
    ensures Gathered(SECURITY, Exported(v).security, k)
         == Some(if k in s
             then SecurityPart(Some(Effective(v.hosts[k].security)), v.hosts[k].exclusions, v.hosts[k].customRules)
                 else SECURITY.empty)
  {
    HostsListed(v, s);
    var xs := SecurityExports(v, Listing(s));
    assert xs == Exported(v).security;
    hide Listing, Gathered, KeysOf, Exported;
    ListedKeys(xs, s, SECURITY.key);
    if k in s {
      var i :| 0 <= i < |xs| && SECURITY.key(xs[i]) == k;
      GatherSingle(SECURITY, xs, i);
      SecurityBack(v.hosts[k], k, v.groups.Keys);
    } else {
      GatheredNothing(SECURITY, xs, k);
    }
  }

  lemma RulesGathered(v: View, s: set<string>, k: string)
    requires Sane(v) && s == v.hosts.Keys
    ensures Gathered(RULES, Exported(v).rules, k) == Some(if k in s then v.hosts[k].rules else [])
  {
    ListingLists(s);
    ListingIndexes(s);
    var names := Listing(s);
    assert forall i :: 0 <= i < |names| ==> HostRowFits(v.hosts[names[i]], v.groups.Keys);
    assert Exported(v).rules == RuleExports(v, names);
    hide Listing, RulesFit, Gathered, RuleExports, Exported, Sane;
    GatherHosts(v, names, k);
  }

  lemma HostFitsNormal(cols: HostCols)
    requires HostFits(cols)
    ensures NormalHost(cols) == cols
  {
  }

  lemma HostEntriesOk(v: View, s: set<string>)
    requires Sane(v) && s == v.hosts.Keys
    ensures forall x :: x in Exported(v).hosts ==> HostOk(v.groups.Keys)(x)
  {
    HostsListed(v, s);
    var xs := HostExports(v, Listing(s));
    forall i | 0 <= i < |xs|
      ensures HostOk(v.groups.Keys)(xs[i])
    {
      assert HostRowFits(v.hosts[Listing(s)[i]], v.groups.Keys);
      HostFitsNormal(xs[i].cols);
      hide HostFits, NormalHost;
    }
    hide HostOk, HostExports;
  }

  lemma EntryHosts(v: View, s: set<string>)
    requires s == v.hosts.Keys
    ensures forall x :: x in Exported(v).security ==> SECURITY.key(x) in s
    ensures forall x :: x in Exported(v).rules ==> RULES.key(x) in s
  {
    HostsListed(v, s);
    RuleHosts(v, Listing(s));
    var xs := SecurityExports(v, Listing(s));
    assert forall i :: 0 <= i < |xs| ==> SECURITY.key(xs[i]) in s;
    hide SecurityExports, RuleExports;
  }

  lemma AcceptableIf(b: Bundle, groups: set<string>)
    requires forall x :: x in b.hosts ==> HostOk(groups)(x)
    requires forall x :: x in b.rules ==> RULES.key(x) in KeysOf(b.hosts, HOST_NAME)
    requires forall x :: x in b.security ==> SECURITY.key(x) in KeysOf(b.hosts, HOST_NAME)
    requires forall k :: Gathered(RULES, b.rules, k).Some? && Gathered(SECURITY, b.security, k).Some?
    ensures HostsAcceptable(b, groups)
  {
    hide Gathered, KeysOf, HostOk;
  }

  lemma HostEntries(v: View, s: set<string>)
    requires Sane(v) && s == v.hosts.Keys && s == KeysOf(Exported(v).hosts, HOST_NAME)
    ensures HostsAcceptable(Exported(v), v.groups.Keys)
  {
    hide *;
    HostEntriesOk(v, s);
    EntryHosts(v, s);
    forall k
      ensures Gathered(RULES, Exported(v).rules, k).Some? && Gathered(SECURITY, Exported(v).security, k).Some?
    {
      RulesGathered(v, s, k);
      GatherSecurity(v, s, k);
    }
    AcceptableIf(Exported(v), v.groups.Keys);
  }

  /** A host whose every part comes from its own export. */
  lemma HostIsBack(h: HostView, k: string, before: map<string, HostView>, b: Bundle, row: HostView, mode: Mode)
    requires HostIs(h, k, before, b) && Get(before, k) == (if mode.Merge? then Some(row) else None)
    requires LastOf(b.hosts, HOST_NAME, k) == Some(HostExport(k, row.group, row.cols))
    requires NormalHost(row.cols) == row.cols
    requires Gathered(RULES, b.rules, k) == Some(row.rules)
    requires k in KeysOf(b.rules, RULES.key) || row.rules == []
    requires k in KeysOf(b.security, SECURITY.key)
    requires Gathered(SECURITY, b.security, k)
         == Some(SecurityPart(Some(Effective(row.security)), row.exclusions, row.customRules))
    ensures h == BackHost(row, mode)
  {
    hide Gathered, KeysOf, LastOf, NormalHost, Effective, NewHostExtra;
  }

  lemma WipedHost(v: View, mode: Mode, k: string)
    requires k in v.hosts
    ensures Get(Wiped(v, mode).hosts, k) == if mode.Merge? then Some(v.hosts[k]) else None
  {
  }

  lemma OwnHostEntry(v: View, k: string)
    requires Sane(v) && k in v.hosts
    ensures LastOf(Exported(v).hosts, HOST_NAME, k) == Some(HostExport(k, v.hosts[k].group, v.hosts[k].cols))
    ensures k in KeysOf(Exported(v).security, SECURITY.key)
  {
    var s := v.hosts.Keys;
    HostsListed(v, s);
    var xs := HostExports(v, Listing(s));
    assert xs == Exported(v).hosts && SecurityExports(v, Listing(s)) == Exported(v).security;
    hide Listing, KeysOf, LastOf, Exported, Sane;
    ListedKeys(xs, s, HOST_NAME);
    ListedKeys(Exported(v).security, s, SECURITY.key);
    var i :| 0 <= i < |xs| && HOST_NAME(xs[i]) == k;
    ListedLast(xs, s, HOST_NAME, i);
  }

  lemma NormalRow(v: View, k: string)
    requires Sane(v) && k in v.hosts
    ensures NormalHost(v.hosts[k].cols) == v.hosts[k].cols
  {
    assert HostRowFits(v.hosts[k], v.groups.Keys);
    HostFitsNormal(v.hosts[k].cols);
  }

  lemma EmptyRules()
    ensures RULES.empty == []
  {
  }

  lemma HostBack(v: View, mode: Mode, k: string, h: HostView)
    requires Sane(v) && k in v.hosts && HostIs(h, k, Wiped(v, mode).hosts, Exported(v))
    ensures h == BackHost(v.hosts[k], mode)
  {
    hide *;
    RulesGathered(v, v.hosts.Keys, k);
    GatherSecurity(v, v.hosts.Keys, k);
    GatheredNothing(RULES, Exported(v).rules, k);
    OwnHostEntry(v, k);
    NormalRow(v, k);
    WipedHost(v, mode, k);
    EmptyRules();
    HostIsBack(h, k, Wiped(v, mode).hosts, Exported(v), v.hosts[k], mode);
  }

  lemma HostNames(v: View)
    ensures KeysOf(Exported(v).hosts, HOST_NAME) == v.hosts.Keys && DistinctKeys(Exported(v).hosts, HOST_NAME)
  {
    HostsListed(v, v.hosts.Keys);
    hide Listing, KeysOf, DistinctKeys;
    ListedKeys(Exported(v).hosts, v.hosts.Keys, HOST_NAME);
  }

  lemma WipedHosts(v: View, mode: Mode)
    ensures Clearable(Wiped(v, mode).hosts, mode) && Wiped(v, mode).hosts.Keys + v.hosts.Keys == v.hosts.Keys
  {
  }

  lemma HostsBack(v: View, mode: Mode)
    requires Sane(v)
    ensures var r := HostsImported(Wiped(v, mode), v.groups.Keys, Exported(v), mode);
            r.Some? && r.value.Keys == v.hosts.Keys && forall n :: n in v.hosts ==>
              r.value[n] == BackHost(v.hosts[n], mode)
  {
    hide *;
    HostNames(v);
    WipedHosts(v, mode);
    HostEntries(v, v.hosts.Keys);
    HostSide(Wiped(v, mode), v.groups.Keys, Exported(v), mode);
    var r := HostsImported(Wiped(v, mode), v.groups.Keys, Exported(v), mode);
    forall n | n in v.hosts
      ensures r.value[n] == BackHost(v.hosts[n], mode)
    {
      HostBack(v, mode, n, r.value[n]);
    }
  }

  // ----- notification rules -----

  /** The rule an import makes of an exported one: filters on hosts that are gone are lost. */
  function BackRule(r: RuleView): RuleView {
    r.(hosts := Present(r.hosts))
  }

  function Present(hosts: seq<Option<string>>): seq<Option<string>> {
    if hosts == [] then []
    else Present(hosts[..|hosts| - 1]) + if hosts[|hosts| - 1].Some? then [hosts[|hosts| - 1]] else []
  }

  function BackRules(rules: seq<RuleView>): seq<RuleView> {
    seq(|rules|, i requires 0 <= i < |rules| => BackRule(rules[i]))
  }

  function NotifyViews(xs: seq<NotifyExport>, hosts: set<string>): seq<RuleView> {
    seq(|xs|, i requires 0 <= i < |xs| => NotifyView(xs[i], hosts))
  }

  lemma {:induction false} FiltersBack(filter: seq<Option<string>>, hosts: set<string>)
    requires forall i :: 0 <= i < |filter| && filter[i].Some? ==> filter[i].value in hosts
    ensures FoundHosts(Domains(filter), hosts) == Present(filter)
  {
    if filter != [] {
      var front, last := filter[..|filter| - 1], filter[|filter| - 1];
      FiltersBack(front, hosts);
      if last.Some? {
        var ds := Domains(front);
        assert (ds + [last.value])[..|ds|] == ds;
      } else {
        assert Domains(front) + [] == Domains(front);
      }
    }
  }

  lemma RuleBack(r: RuleView, channels: set<string>, hosts: set<string>)
    requires RuleFits(r, channels, hosts)
    ensures NotifyView(NotifyOf(r), hosts) == BackRule(r)
  {
    FiltersBack(r.hosts, hosts);
  }

  lemma ViewsOneMore(xs: seq<NotifyExport>, x: NotifyExport, hosts: set<string>)
    ensures NotifyViews(xs + [x], hosts) == NotifyViews(xs, hosts) + [NotifyView(x, hosts)]
  {
  }

  lemma {:induction false} InsertedViews(xs: seq<NotifyExport>, x: NotifyExport, hosts: set<string>)
    ensures multiset(NotifyViews(Insert(xs, x, BY_NAME), hosts))
         == multiset(NotifyViews(xs, hosts)) + multiset{NotifyView(x, hosts)}
  {
    if xs == [] || !BY_NAME(x, xs[|xs| - 1]) {
      ViewsOneMore(xs, x, hosts);
    } else {
      var front, last := xs[..|xs| - 1], xs[|xs| - 1];
      InsertedViews(front, x, hosts);
      hide NotifyViews, NotifyView;
      assert xs == front + [last];
      ViewsOneMore(front, last, hosts);
      ViewsOneMore(Insert(front, x, BY_NAME), last, hosts);
    }
  }

  lemma {:induction false} SortedViews(xs: seq<NotifyExport>, hosts: set<string>)
    ensures multiset(NotifyViews(InsertAll([], xs, BY_NAME), hosts)) == multiset(NotifyViews(xs, hosts))
  {
    if xs != [] {
      var front, last := xs[..|xs| - 1], xs[|xs| - 1];
      SortedViews(front, hosts);
      InsertedViews(InsertAll([], front, BY_NAME), last, hosts);
      assert xs == front + [last];
      ViewsOneMore(front, last, hosts);
    }
  }

  lemma {:induction false} YoungestViews(rules: seq<RuleView>, channels: set<string>, hosts: set<string>)
    requires forall i :: 0 <= i < |rules| ==> RuleFits(rules[i], channels, hosts)
    ensures multiset(NotifyViews(Youngest(rules), hosts)) == multiset(BackRules(rules))
  {
    if rules != [] {
      var front, last := rules[..|rules| - 1], rules[|rules| - 1];
      YoungestViews(front, channels, hosts);
      RuleBack(last, channels, hosts);
      hide RuleFits, NotifyView, BackRule;
      var rest := Youngest(front);
      assert NotifyViews([NotifyOf(last)] + rest, hosts) == [NotifyView(NotifyOf(last), hosts)]
          + NotifyViews(rest, hosts);
      assert BackRules(rules) == BackRules(front) + [BackRule(last)];
    }
  }

  /** Rules of different names. */
  predicate UniqueRuleNames(rules: seq<RuleView>) {
    forall i, j :: 0 <= i < j < |rules| ==> rules[i].name != rules[j].name
  }

  predicate UniqueEntries(xs: seq<NotifyExport>) {
    forall i, j :: 0 <= i < j < |xs| ==> xs[i].name != xs[j].name
  }

  predicate AllKnown(xs: seq<NotifyExport>, channels: set<string>) {
    forall i :: 0 <= i < |xs| ==> xs[i].channel in channels
  }

  lemma {:induction false} NothingToDrop(rules: seq<RuleView>, name: string)
    requires forall i :: 0 <= i < |rules| ==> rules[i].name != name
    ensures Without(rules, name) == rules
  {
    if rules != [] {
      var front, last := rules[..|rules| - 1], rules[|rules| - 1];
      NothingToDrop(front, name);
      assert rules == front + [last];
    }
  }

  /** Entries of different names for known channels are all inserted, in order. */
  lemma {:induction false} InsertedRules(xs: seq<NotifyExport>, channels: set<string>, hosts: set<string>, mode: Mode)
    requires AllKnown(xs, channels) && (mode.Merge? ==> UniqueEntries(xs))
    ensures PutNotifies([], xs, channels, hosts, mode) == NotifyViews(xs, hosts)
  {
    if xs != [] {
      var front, last := xs[..|xs| - 1], xs[|xs| - 1];
      InsertedRules(front, channels, hosts, mode);
      assert xs == front + [last];
      ViewsOneMore(front, last, hosts);
      if mode.Merge? {
        forall i | 0 <= i < |front|
          ensures NotifyViews(front, hosts)[i].name != last.name
        {
          assert front[i] == xs[i];
        }
        NothingToDrop(NotifyViews(front, hosts), last.name);
      }
    }
  }

  /** All rules go whose names the bundle brings. */
  lemma {:induction false} AllDropped(rules: seq<RuleView>, xs: seq<NotifyExport>, channels: set<string>)
    requires AllKnown(xs, channels)
    ensures forall r ::
              r in WithoutAll(rules, xs, channels)
              <==> r in rules && forall i :: 0 <= i < |xs| ==> xs[i].name != r.name
  {
    if xs != [] {
      var front, last := xs[..|xs| - 1], xs[|xs| - 1];
      AllDropped(rules, front, channels);
      WithoutKeeps(WithoutAll(rules, front, channels), last.name);
      assert xs == front + [last];
      forall r: RuleView
        ensures (forall i :: 0 <= i < |xs| ==> xs[i].name != r.name)
                <==> last.name != r.name && forall i :: 0 <= i < |front| ==> front[i].name != r.name
      {
        assert forall i :: 0 <= i < |front| ==> front[i] == xs[i];
        assert xs[|front|] == last;
      }
    }
  }

  lemma {:induction false} WithoutKeeps(rules: seq<RuleView>, name: string)
    ensures forall r :: r in Without(rules, name) <==> r in rules && r.name != name
  {
    if rules != [] {
      var front, last := rules[..|rules| - 1], rules[|rules| - 1];
      WithoutKeeps(front, name);
      assert rules == front + [last];
    }
  }

  lemma {:induction false} InsertedMembers(xs: seq<NotifyExport>, x: NotifyExport)
    ensures forall y :: y in Insert(xs, x, BY_NAME) <==> y == x || y in xs
  {
    if xs != [] && BY_NAME(x, xs[|xs| - 1]) {
      var front, last := xs[..|xs| - 1], xs[|xs| - 1];
      InsertedMembers(front, x);
      assert xs == front + [last];
    }
  }

  lemma {:induction false} InsertedUnique(xs: seq<NotifyExport>, x: NotifyExport)
    requires UniqueEntries(xs) && forall i :: 0 <= i < |xs| ==> xs[i].name != x.name
    ensures UniqueEntries(Insert(xs, x, BY_NAME))
  {
    if xs != [] && BY_NAME(x, xs[|xs| - 1]) {
      var front, last := xs[..|xs| - 1], xs[|xs| - 1];
      InsertedUnique(front, x);
      InsertedMembers(front, x);
      var r := Insert(front, x, BY_NAME);
      forall i | 0 <= i < |r|
        ensures r[i].name != last.name
      {
        assert r[i] in r;
        assert forall j :: 0 <= j < |front| ==> front[j] == xs[j];
      }
    }
  }

  lemma {:induction false} SortedEntries(xs: seq<NotifyExport>)
    ensures forall y :: y in InsertAll([], xs, BY_NAME) <==> y in xs
    ensures UniqueEntries(xs) ==> UniqueEntries(InsertAll([], xs, BY_NAME))
  {
    if xs != [] {
      var front, last := xs[..|xs| - 1], xs[|xs| - 1];
      SortedEntries(front);
      var sorted := InsertAll([], front, BY_NAME);
      InsertedMembers(sorted, last);
      assert xs == front + [last];
      if UniqueEntries(xs) {
        assert forall j :: 0 <= j < |front| ==> front[j] == xs[j];
        forall i | 0 <= i < |sorted|
          ensures sorted[i].name != last.name
        {
          assert sorted[i] in sorted;
        }
        InsertedUnique(sorted, last);
      }
    }
  }

  lemma {:induction false} YoungestEntries(rules: seq<RuleView>)
    ensures |Youngest(rules)| == |rules|
    ensures forall i :: 0 <= i < |rules| ==> Youngest(rules)[i] == NotifyOf(rules[|rules| - 1 - i])
  {
    if rules != [] {
      YoungestEntries(rules[..|rules| - 1]);
    }
  }

  lemma NameStays(r: RuleView)
    ensures NotifyOf(r).name == r.name
  {
  }

  lemma YoungestKnown(v: View, x: NotifyExport)
    requires Sane(v) && x in Youngest(v.rules)
    ensures x.channel in v.channels
  {
    var xs := Youngest(v.rules);
    YoungestEntries(v.rules);
    var k :| 0 <= k < |xs| && xs[k] == x;
    assert RuleFits(v.rules[|xs| - 1 - k], v.channels.Keys, v.hosts.Keys);
    hide Youngest;
  }

  lemma YoungestUnique(rules: seq<RuleView>)
    ensures UniqueRuleNames(rules) ==> UniqueEntries(Youngest(rules))
    ensures forall r :: r in rules ==> NotifyOf(r) in Youngest(rules)
  {
    var xs := Youngest(rules);
    YoungestEntries(rules);
    hide Youngest, NotifyOf;
    forall i | 0 <= i < |xs|
      ensures xs[i].name == rules[|xs| - 1 - i].name
    {
      NameStays(rules[|xs| - 1 - i]);
    }
    forall r | r in rules
      ensures NotifyOf(r) in xs
    {
      var k :| 0 <= k < |rules| && rules[k] == r;
      assert xs[|xs| - 1 - k] == NotifyOf(r);
    }
  }

  lemma ExportedEntries(v: View)
    requires Sane(v)
    ensures AllKnown(Exported(v).notify, v.channels.Keys)
    ensures UniqueRuleNames(v.rules) ==> UniqueEntries(Exported(v).notify)
    ensures forall r :: r in v.rules ==> NotifyOf(r) in Exported(v).notify
  {
    var xs, sorted := Youngest(v.rules), InsertAll([], Youngest(v.rules), BY_NAME);
    assert sorted == Exported(v).notify;
    hide Exported, Youngest, InsertAll, Sane, NotifyOf, UniqueEntries, UniqueRuleNames;
    YoungestUnique(v.rules);
    SortedEntries(xs);
    forall i | 0 <= i < |sorted|
      ensures sorted[i].channel in v.channels
    {
      assert sorted[i] in sorted;
      YoungestKnown(v, sorted[i]);
    }
  }

  /** Merging one's own export deletes every rule before it comes back. */
  lemma AllRulesGo(v: View)
    requires Sane(v)
    ensures WithoutAll(v.rules, Exported(v).notify, v.channels.Keys) == []
  {
    var xs, kept := Exported(v).notify, WithoutAll(v.rules, Exported(v).notify, v.channels.Keys);
    hide *;
    ExportedEntries(v);
    AllDropped(v.rules, xs, v.channels.Keys);
    forall r | r in v.rules
      ensures exists i :: 0 <= i < |xs| && xs[i].name == r.name
    {
      var i :| 0 <= i < |xs| && xs[i] == NotifyOf(r);
      NameStays(r);
    }
    FirstIsMember(kept);
  }

  lemma RulesBack(v: View, mode: Mode)
    requires Sane(v) && (mode.Merge? ==> UniqueRuleNames(v.rules))
    ensures multiset(PutNotifies(Wiped(v, mode).rules, Exported(v).notify, v.channels.Keys, v.hosts.Keys, mode))
         == multiset(BackRules(v.rules))
  {
    var xs, channels, hosts := Exported(v).notify, v.channels.Keys, v.hosts.Keys;
    assert xs == InsertAll([], Youngest(v.rules), BY_NAME);
    assert forall i :: 0 <= i < |v.rules| ==> RuleFits(v.rules[i], channels, hosts);
    assert mode.Replace? ==> Wiped(v, mode).rules == [];
    assert mode.Merge? ==> Wiped(v, mode).rules == v.rules;
    hide *;
    ExportedEntries(v);
    SortedViews(Youngest(v.rules), hosts);
    YoungestViews(v.rules, channels, hosts);
    InsertedRules(xs, channels, hosts, mode);
    if mode.Merge? {
      MergedRules(v.rules, xs, channels, hosts);
      AllRulesGo(v);
      assert [] + NotifyViews(xs, hosts) == NotifyViews(xs, hosts);
    }
  }

  lemma FirstIsMember<T>(s: seq<T>)
    ensures s != [] ==> s[0] in s
  {
  }

  // ----- main results -----

  /** The configuration an import of one's own export leads to. */
  ghost predicate ComesBackAs(v: View, w: View, mode: Mode) {
    && w.groups.Keys == v.groups.Keys && (forall n :: n in v.groups ==> w.groups[n] == BackGroup(v.groups[n], mode))
    && w.hosts.Keys == v.hosts.Keys && (forall n :: n in v.hosts ==> w.hosts[n] == BackHost(v.hosts[n], mode))
    && w.channels.Keys == v.channels.Keys
        && (forall n :: n in v.channels ==> w.channels[n] == BackChannel(v.channels[n], mode))
    && multiset(w.rules) == multiset(BackRules(v.rules))
    && w.settings == v.settings
  }

  /** Importing one's own export succeeds, and what every row becomes. */
  lemma OwnExportComesBack(v: View, mode: Mode)
    requires Sane(v) && (mode.Merge? ==> UniqueRuleNames(v.rules))
    ensures Imported(v, Exported(v), mode).Some?
    ensures ComesBackAs(v, Imported(v, Exported(v), mode).value, mode)
  {
    var b, w := Exported(v), Wiped(v, mode);
    GroupsBack(v, mode);
    HostsBack(v, mode);
    ChannelsBack(v, mode);
    RulesBack(v, mode);
    SettingsBack(v);
    hide *;
    var groups := Fold(w.groups, b.groups, Upsert(GROUP_NAME, GROUP_OK, WRITE_GROUP, mode.Replace?, None)).value;
    var hosts := HostsImported(w, v.groups.Keys, b, mode).value;
    var channels := Fold(w.channels, b.channels,
        Upsert(CHANNEL_NAME, CHANNEL_OK, WriteChannel(mode), mode.Replace?, Some(w.channels))).value;
    ImportedFrom(v, b, mode, groups, hosts, channels);
    assert w.settings == v.settings by { WipedKeepsSettings(v, mode); }
    ComesBackIf(v, Imported(v, b, mode).value, mode);
  }

  lemma WipedKeepsSettings(v: View, mode: Mode)
    ensures Wiped(v, mode).settings == v.settings
  {
  }

  lemma SettingsBack(v: View)
    ensures PutSettings(v.settings, Exported(v).settings) == v.settings
  {
    hide Exportable;
  }

  lemma ImportedFrom(
      v: View, b: Bundle, mode: Mode, groups: map<string, GroupRow>, hosts: map<string, HostView>,
      channels: map<string, ChannelRow>)
    requires var w := Wiped(v, mode);
             && Fold(w.groups, b.groups, Upsert(GROUP_NAME, GROUP_OK, WRITE_GROUP, mode.Replace?, None)) == Some(groups)
             && HostsImported(w, groups.Keys, b, mode) == Some(hosts)
             && Fold(w.channels, b.channels,
                 Upsert(CHANNEL_NAME, CHANNEL_OK, WriteChannel(mode), mode.Replace?, Some(w.channels)))
                == Some(channels)
    ensures var w := Wiped(v, mode);
            Imported(v, b, mode)
            == Some(View(groups, hosts, channels, PutNotifies(w.rules, b.notify, channels.Keys, hosts.Keys, mode),
                         PutSettings(w.settings, b.settings)))
  {
    hide Fold, Upsert, HostsImported, Wiped, PutNotifies, PutSettings, WriteChannel;
  }

  lemma ComesBackIf(v: View, w: View, mode: Mode)
    requires w.groups.Keys == v.groups.Keys && forall n :: n in v.groups ==> w.groups[n] == BackGroup(v.groups[n], mode)
    requires w.hosts.Keys == v.hosts.Keys && forall n :: n in v.hosts ==> w.hosts[n] == BackHost(v.hosts[n], mode)
    requires w.channels.Keys == v.channels.Keys && forall n :: n in v.channels ==>
              w.channels[n] == BackChannel(v.channels[n], mode)
    requires multiset(w.rules) == multiset(BackRules(v.rules)) && w.settings == v.settings
    ensures ComesBackAs(v, w, mode)
  {
  }

  /** Hosts without a security row count as having the default one. */
  ghost predicate Same(v: View, w: View) {
    && w.groups == v.groups && w.channels == v.channels && w.settings == v.settings
    && w.hosts.Keys == v.hosts.Keys
    && (forall n :: n in v.hosts ==> w.hosts[n] == v.hosts[n].(security := Some(Effective(v.hosts[n].security))))
    && multiset(w.rules) == multiset(v.rules)
  }

  /** What an operator can check before merging: no group expects an empty
      status, every stored secret is a ciphertext, or empty in a channel that is
      off anyway, and no rule filters on a host that is gone. */
  predicate Settled(v: View) {
    && (forall n :: n in v.groups ==> v.groups[n].cols.expectStatus != "")
    && (forall n :: n in v.channels ==> SecretKept(v.channels[n]))
    && (forall i :: 0 <= i < |v.rules| ==> None !in v.rules[i].hosts)
  }

  predicate SecretKept(c: ChannelRow) {
    SecretPresent(c) ==>
      var secret := c.config[SecretField(c.kind).value];
      IsEncrypted(secret) || (secret == Text("") && !c.enabled)
  }

  lemma ChannelStaysIff(c: ChannelRow)
    ensures BackChannel(c, Merge) == c <==> SecretKept(c)
  {
    if SecretPresent(c) {
      var f := SecretField(c.kind).value;
      assert c.config[f := c.config[f]] == c.config;
      assert c.config[f := Text("")][f] == Text("");
    }
    hide SecretField, IsEncrypted;
  }

  lemma GroupStaysIff(g: GroupRow)
    requires GroupFits(g.cols, g.targets)
    ensures BackGroup(g, Merge) == g <==> g.cols.expectStatus != ""
  {
  }

  lemma {:induction false} PresentIff(hosts: seq<Option<string>>)
    ensures None !in Present(hosts)
    ensures None !in hosts ==> Present(hosts) == hosts
  {
    if hosts != [] {
      var front, last := hosts[..|hosts| - 1], hosts[|hosts| - 1];
      PresentIff(front);
      assert hosts == front + [last];
    }
  }

  lemma RulesStayIff(rules: seq<RuleView>)
    ensures multiset(BackRules(rules)) == multiset(rules) <==> forall i :: 0 <= i < |rules| ==> None !in rules[i].hosts
  {
    var back := BackRules(rules);
    forall i | 0 <= i < |rules|
      ensures None !in back[i].hosts
      ensures None !in rules[i].hosts ==> back[i] == rules[i]
    {
      PresentIff(rules[i].hosts);
    }
    hide BackRules, Present;
    forall r | r in multiset(back)
      ensures None !in r.hosts
    {
      assert r in back;
      var k :| 0 <= k < |back| && back[k] == r;
    }
    if forall i :: 0 <= i < |rules| ==> None !in rules[i].hosts {
      assert back == rules;
    } else {
      var i :| 0 <= i < |rules| && None in rules[i].hosts;
      assert rules[i] in multiset(rules);
    }
  }

  lemma GroupsStayIff(v: View, w: View)
    requires Sane(v) && ComesBackAs(v, w, Merge)
    ensures w.groups == v.groups <==> forall n :: n in v.groups ==> v.groups[n].cols.expectStatus != ""
  {
    assert forall n :: n in v.groups ==> GroupFits(v.groups[n].cols, v.groups[n].targets);
    hide BackGroup, BackChannel, BackHost, BackRules, Sane, GroupFits;
    forall n | n in v.groups
      ensures w.groups[n] == v.groups[n] <==> v.groups[n].cols.expectStatus != ""
    {
      GroupStaysIff(v.groups[n]);
    }
  }

  lemma ChannelsStayIff(v: View, w: View)
    requires ComesBackAs(v, w, Merge)
    ensures w.channels == v.channels <==> forall n :: n in v.channels ==> SecretKept(v.channels[n])
  {
    hide BackGroup, BackChannel, BackHost, BackRules, SecretKept;
    forall n | n in v.channels
      ensures w.channels[n] == v.channels[n] <==> SecretKept(v.channels[n])
    {
      ChannelStaysIff(v.channels[n]);
    }
  }

  lemma HostsStay(v: View, w: View)
    requires ComesBackAs(v, w, Merge)
    ensures w.hosts.Keys == v.hosts.Keys && w.settings == v.settings
    ensures multiset(w.rules) == multiset(BackRules(v.rules))
    ensures forall n :: n in v.hosts ==> w.hosts[n] == v.hosts[n].(security := Some(Effective(v.hosts[n].security)))
  {
    hide BackGroup, BackChannel, BackRules, Effective, NewHostExtra;
  }

  lemma SameIff(v: View, w: View)
    requires Sane(v) && ComesBackAs(v, w, Merge)
    ensures Same(v, w) <==> Settled(v)
  {
    hide BackRules, SecretKept, Sane, Effective, ComesBackAs;
    RulesStayIff(v.rules);
    GroupsStayIff(v, w);
    ChannelsStayIff(v, w);
    HostsStay(v, w);
  }

  /** Merging one's own export back is a no-op exactly on a settled configuration;
      columns a bundle does not carry, ciphertexts and flags stay in any case. */
  lemma MergingOwnExportIsNoOpIff(v: View)
    requires Sane(v) && UniqueRuleNames(v.rules)
    ensures Imported(v, Exported(v), Merge).Some?
    ensures Same(v, Imported(v, Exported(v), Merge).value) <==> Settled(v)
  {
    hide *;
    OwnExportComesBack(v, Merge);
    SameIff(v, Imported(v, Exported(v), Merge).value);
  }

  /** The channel without its secret, if it has one, and then disabled. */
  function Stripped(c: ChannelRow): ChannelRow {
    if SecretPresent(c) then c.(enabled := false, config := c.config[SecretField(c.kind).value := Text("")]) else c
  }

  /** Replacing a configuration by its own export gives it back with the same
      names and references; a channel with a secret comes back disabled and
      without it, columns outside the bundle at their defaults. */
  lemma ReplacingByOwnExport(v: View)
    requires Sane(v)
    ensures Imported(v, Exported(v), Replace).Some?
    ensures var w := Imported(v, Exported(v), Replace).value;
            && w.groups.Keys == v.groups.Keys
                && (forall n :: n in v.groups ==> w.groups[n].targets == v.groups[n].targets)
            && w.hosts.Keys == v.hosts.Keys
                && (forall n :: n in v.hosts ==> w.hosts[n] == BackHost(v.hosts[n], Replace))
            && w.channels.Keys == v.channels.Keys
                && (forall n :: n in v.channels ==> w.channels[n] == Stripped(v.channels[n]))
            && multiset(w.rules) == multiset(BackRules(v.rules)) && w.settings == v.settings
  {
    OwnExportComesBack(v, Replace);
    hide Imported, Exported, Sane, BackRules, BackHost;
  }

  // ----- exporting again -----

  lemma RedactHidesSecrets(c: ChannelRow)
    ensures Redact(c.kind, Stripped(c).config) == Redact(c.kind, c.config) && Stripped(c).kind == c.kind
  {
    hide SecretField;
  }

  lemma {:induction false} DomainsOfPresent(hosts: seq<Option<string>>)
    ensures Domains(Present(hosts)) == Domains(hosts)
  {
    if hosts != [] {
      var front, last := hosts[..|hosts| - 1], hosts[|hosts| - 1];
      DomainsOfPresent(front);
      if last.Some? {
        var p := Present(front);
        assert (p + [last])[..|p|] == p;
      } else {
        assert Present(front) + [] == Present(front);
      }
    }
  }

  lemma {:induction false} RuleExportsSame(v: View, w: View, names: seq<string>)
    requires forall i :: 0 <= i < |names| ==> names[i] in v.hosts && names[i] in w.hosts
    requires forall i :: 0 <= i < |names| ==> w.hosts[names[i]].rules == v.hosts[names[i]].rules
    ensures RuleExports(w, names) == RuleExports(v, names)
  {
    if names != [] {
      RuleExportsSame(v, w, names[..|names| - 1]);
    }
  }

  /** The entry of a channel whose secret is lost. */
  function DisabledIfSecret(c: ChannelExport): ChannelExport {
    c.(enabled := c.enabled && !(SecretField(c.kind).Some? && SecretField(c.kind).value in c.config))
  }

  ghost predicate SameChannels(a: seq<ChannelExport>, b: seq<ChannelExport>) {
    |a| == |b| && forall i :: 0 <= i < |a| ==> b[i] == DisabledIfSecret(a[i])
  }

  /** Equal bundles, but for channels with a secret field, which are off in the
      second one, and for the order of the notification rules. */
  ghost predicate SameBundle(a: Bundle, b: Bundle) {
    && a.groups == b.groups && a.hosts == b.hosts && a.rules == b.rules && a.security == b.security
    && a.settings == b.settings
    && SameChannels(a.channels, b.channels)
    && multiset(a.notify) == multiset(b.notify)
  }

  const NOTIFY_OF: RuleView -> NotifyExport := (r: RuleView) => NotifyOf(r)

  lemma {:induction false} YoungestElements(rules: seq<RuleView>)
    ensures multiset(Youngest(rules)) == multiset(Mapped(rules, NOTIFY_OF))
  {
    if rules != [] {
      var front, last := rules[..|rules| - 1], rules[|rules| - 1];
      YoungestElements(front);
      assert Mapped(rules, NOTIFY_OF) == Mapped(front, NOTIFY_OF) + [NotifyOf(last)];
    }
  }

  lemma ExportedNotify(v: View)
    ensures multiset(Exported(v).notify) == multiset(Mapped(v.rules, NOTIFY_OF))
  {
    InsertAllKeepsElements([], Youngest(v.rules), BY_NAME);
    YoungestElements(v.rules);
    assert Exported(v).notify == InsertAll([], Youngest(v.rules), BY_NAME);
    hide Exported, Youngest, InsertAll, Mapped;
  }

  lemma BackRulesExportSame(rules: seq<RuleView>)
    ensures Mapped(BackRules(rules), NOTIFY_OF) == Mapped(rules, NOTIFY_OF)
  {
    forall i | 0 <= i < |rules|
      ensures NotifyOf(BackRule(rules[i])) == NotifyOf(rules[i])
    {
      DomainsOfPresent(rules[i].hosts);
    }
    hide NotifyOf, BackRule;
  }

  lemma NotifySame(v: View, w: View)
    requires multiset(w.rules) == multiset(BackRules(v.rules))
    ensures multiset(Exported(w).notify) == multiset(Exported(v).notify)
  {
    hide *;
    ExportedNotify(v);
    ExportedNotify(w);
    MappedIgnoresOrder(w.rules, BackRules(v.rules), NOTIFY_OF);
    BackRulesExportSame(v.rules);
  }

  lemma GroupEntrySame(v: View, w: View, names: seq<string>, i: nat)
    requires Sane(v) && i < |names| && v.groups.Keys == w.groups.Keys && forall k :: 0 <= k < |names| ==>
              names[k] in v.groups
    requires w.groups[names[i]] == BackGroup(v.groups[names[i]], Replace)
    ensures GroupExports(w, names)[i] == GroupExports(v, names)[i] <==> v.groups[names[i]].cols.expectStatus != ""
  {
    GroupColsStay(v.groups[names[i]]);
    hide Normal, GroupFits;
  }

  lemma GroupListsSame(v: View, w: View, names: seq<string>)
    requires Sane(v) && v.groups.Keys == w.groups.Keys && forall k :: 0 <= k < |names| ==> names[k] in v.groups
    requires forall n :: n in v.groups ==> w.groups[n] == BackGroup(v.groups[n], Replace)
    ensures GroupExports(w, names) == GroupExports(v, names)
            <==> forall k :: 0 <= k < |names| ==> v.groups[names[k]].cols.expectStatus != ""
  {
    var a, b := GroupExports(v, names), GroupExports(w, names);
    assert |a| == |b| == |names|;
    hide GroupExports, Sane, BackGroup;
    forall i | 0 <= i < |names|
      ensures b[i] == a[i] <==> v.groups[names[i]].cols.expectStatus != ""
    {
      GroupEntrySame(v, w, names, i);
    }
  }

  lemma GroupsSame(v: View, w: View, s: set<string>)
    requires Sane(v) && s == v.groups.Keys == w.groups.Keys && forall n :: n in v.groups ==>
              w.groups[n] == BackGroup(v.groups[n], Replace)
    ensures Exported(w).groups == Exported(v).groups
            <==> forall n :: n in v.groups ==> v.groups[n].cols.expectStatus != ""
  {
    ListingLists(s);
    ListingIndexes(s);
    var names := Listing(s);
    assert Exported(v).groups == GroupExports(v, names) && Exported(w).groups == GroupExports(w, names);
    hide Listing, GroupExports, Sane, BackGroup, Exported;
    GroupListsSame(v, w, names);
    if n :| n in v.groups && v.groups[n].cols.expectStatus == "" {
      var i :| 0 <= i < |names| && names[i] == n;
    }
  }

  lemma GroupColsStay(g: GroupRow)
    requires GroupFits(g.cols, g.targets)
    ensures Normal(g.cols) == g.cols <==> g.cols.expectStatus != ""
  {
  }

  lemma HostsSame(v: View, w: View, s: set<string>)
    requires s == v.hosts.Keys == w.hosts.Keys && forall n :: n in v.hosts ==>
              w.hosts[n] == BackHost(v.hosts[n], Replace)
    ensures Exported(w).hosts == Exported(v).hosts && Exported(w).rules == Exported(v).rules
    ensures Exported(w).security == Exported(v).security
  {
    HostsListed(v, s);
    HostsListed(w, s);
    var names := Listing(s);
    hide Listing, NewHostExtra;
    RuleExportsSame(v, w, names);
    assert HostExports(w, names) == HostExports(v, names);
    assert SecurityExports(w, names) == SecurityExports(v, names);
  }

  lemma ChannelsSame(v: View, w: View, s: set<string>)
    requires Sane(v) && s == v.channels.Keys == w.channels.Keys && forall n :: n in v.channels ==>
              w.channels[n] == Stripped(v.channels[n])
    ensures SameChannels(Exported(v).channels, Exported(w).channels)
  {
    ChannelsListed(v, s);
    ChannelsListed(w, s);
    var names, a, b := Listing(s), ChannelExports(v, Listing(s)), ChannelExports(w, Listing(s));
    forall i | 0 <= i < |names|
      ensures b[i] == DisabledIfSecret(a[i])
    {
      ChannelSame(v.channels[names[i]]);
      hide Redact, Stripped;
    }
    hide Listing, ChannelExports;
  }

  lemma ChannelSame(c: ChannelRow)
    ensures ExportOf(Stripped(c)) == DisabledIfSecret(ExportOf(c))
  {
    RedactHidesSecrets(c);
    hide SecretField;
  }

  /** Exporting the replaced configuration again gives the first bundle, but for
      the disabled channels and the order of same-named rules, exactly when no
      group expected an empty status. */
  lemma ReplaceRoundTrip(v: View)
    requires Sane(v)
    ensures Imported(v, Exported(v), Replace).Some?
    ensures SameBundle(Exported(v), Exported(Imported(v, Exported(v), Replace).value))
            <==> forall n :: n in v.groups ==> v.groups[n].cols.expectStatus != ""
  {
    OwnExportComesBack(v, Replace);
    ReplacingByOwnExport(v);
    var w := Imported(v, Exported(v), Replace).value;
    hide Imported, BackGroup, BackHost, BackRules, Stripped, Sane;
    GroupsSame(v, w, v.groups.Keys);
    HostsSame(v, w, v.hosts.Keys);
    ChannelsSame(v, w, v.channels.Keys);
    NotifySame(v, w);
    assert Exported(w).settings == Exported(v).settings by { hide Exportable; }
    hide Exported;
  }

  // ----- references -----

  /** Every reference leads to a row. */
  predicate Linked(v: View) {
    && (forall n :: n in v.hosts ==> v.hosts[n].group in v.groups)
    && (forall i :: 0 <= i < |v.rules| ==> RuleFits(v.rules[i], v.channels.Keys, v.hosts.Keys))
  }

  ghost predicate AllFit(rules: seq<RuleView>, channels: set<string>, hosts: set<string>) {
    forall r :: r in rules ==> RuleFits(r, channels, hosts)
  }

  lemma {:induction false} FoundInHosts(domains: seq<string>, hosts: set<string>)
    ensures forall i :: 0 <= i < |FoundHosts(domains, hosts)| && FoundHosts(domains, hosts)[i].Some? ==>
              FoundHosts(domains, hosts)[i].value in hosts
  {
    if domains != [] {
      FoundInHosts(domains[..|domains| - 1], hosts);
    }
  }

  lemma {:induction false} PutNotifiesFit(
      rules: seq<RuleView>, xs: seq<NotifyExport>, channels: set<string>, hosts: set<string>, mode: Mode)
    requires AllFit(rules, channels, hosts)
    ensures AllFit(PutNotifies(rules, xs, channels, hosts, mode), channels, hosts)
  {
    if xs != [] {
      var front, x := xs[..|xs| - 1], xs[|xs| - 1];
      PutNotifiesFit(rules, front, channels, hosts, mode);
      var before := PutNotifies(rules, front, channels, hosts, mode);
      WithoutKeeps(before, x.name);
      FoundInHosts(x.hosts, hosts);
      hide Without, FoundHosts;
    }
  }

  lemma HostsLinked(v: View, groups: set<string>, b: Bundle, mode: Mode)
    requires Clearable(v.hosts, mode) && HostsImported(v, groups, b, mode).Some?
    requires forall n :: n in v.hosts ==> v.hosts[n].group in groups
    ensures forall n :: n in HostsImported(v, groups, b, mode).value ==>
              HostsImported(v, groups, b, mode).value[n].group in groups
    ensures v.hosts.Keys <= HostsImported(v, groups, b, mode).value.Keys
  {
    HostSide(v, groups, b, mode);
    var w := HostsImported(v, groups, b, mode).value;
    hide HostsImported, Gathered, KeysOf, CanGather;
    forall n | n in w
      ensures w[n].group in groups
    {
      assert HostIs(w[n], n, v.hosts, b);
      LastOfIsThere(b.hosts, HOST_NAME, n);
      if LastOf(b.hosts, HOST_NAME, n).Some? {
        assert HostOk(groups)(LastOf(b.hosts, HOST_NAME, n).value);
      }
      hide LastOf, NormalHost, HostFits;
    }
  }

  lemma ImportedParts(v: View, b: Bundle, mode: Mode, w: View)
    requires Imported(v, b, mode) == Some(w)
    ensures var from := Wiped(v, mode);
            && HostsImported(from, w.groups.Keys, b, mode) == Some(w.hosts)
            && from.groups.Keys <= w.groups.Keys && from.channels.Keys <= w.channels.Keys
            && w.rules == PutNotifies(from.rules, b.notify, w.channels.Keys, w.hosts.Keys, mode)
  {
    var from := Wiped(v, mode);
    GroupWritesAbsorb();
    hide Fold, Upsert, Upserted, HostsImported, WriteChannel, KeysOf, Absorbs, Settles, PutNotifies, Wiped;
    UpsertLoop(from.groups, b.groups, GROUP_NAME, GROUP_OK, WRITE_GROUP, mode.Replace?, None);
    UpsertedKeys(from.groups, from.groups, b.groups, GROUP_NAME, WRITE_GROUP);
    UpsertLoop(from.channels, b.channels, CHANNEL_NAME, CHANNEL_OK, WriteChannel(mode), mode.Replace?,
        Some(from.channels));
    UpsertedKeys(from.channels, from.channels, b.channels, CHANNEL_NAME, WriteChannel(mode));
  }

  lemma WipedLinked(v: View, mode: Mode)
    requires Linked(v)
    ensures Linked(Wiped(v, mode)) && Clearable(Wiped(v, mode).hosts, mode)
  {
    hide RuleFits;
  }

  lemma StillFit(
      rules: seq<RuleView>, channels: set<string>, hosts: set<string>, more: set<string>, others: set<string>)
    requires (forall i :: 0 <= i < |rules| ==> RuleFits(rules[i], channels, hosts)) && channels <= more
    requires hosts <= others
    ensures AllFit(rules, more, others)
  {
    forall r | r in rules
      ensures RuleFits(r, more, others)
    {
      assert RuleFits(r, channels, hosts);
    }
  }

  /** No import leaves a host without its group, or a notification rule without
      its channel, whatever the bundle and the mode. */
  lemma ImportsKeepReferences(v: View, b: Bundle, mode: Mode, w: View)
    requires Linked(v) && Imported(v, b, mode) == Some(w)
    ensures Linked(w)
  {
    hide Imported, Wiped, HostsImported, PutNotifies, RuleFits, Clearable;
    var from := Wiped(v, mode);
    WipedLinked(v, mode);
    ImportedParts(v, b, mode, w);
    HostsLinked(from, w.groups.Keys, b, mode);
    StillFit(from.rules, from.channels.Keys, from.hosts.Keys, w.channels.Keys, w.hosts.Keys);
    PutNotifiesFit(from.rules, b.notify, w.channels.Keys, w.hosts.Keys, mode);
  }
}
