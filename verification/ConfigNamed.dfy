/** Imports and exports read entry by entry, with every default, constraint and
    secret field named: when an import succeeds, what each row holds afterwards,
    and what leaves with an export. */
module ConfigNamed {
  import opened Basics
  import opened Upserts
  import opened Ordering
  import opened ConfigModel
  import opened ConfigLaws
  import opened ConfigRoundTrip
  import opened ConfigFixpoint

  // ----- secrets -----

  /** The one secret of a channel of that kind. */
  predicate IsSecret(kind: string, field: string) {
    || (kind == "webhook" && field == "headers")
    || (kind == "email" && field == "smtp_password")
    || (kind == "telegram" && field == "bot_token")
  }

  lemma SecretsNamed(kind: string)
    ensures forall f :: IsSecret(kind, f) <==> SecretField(kind) == Some(f)
  {
  }

  /** What an export gives away of a channel. */
  ghost predicate SecretHidden(c: ChannelRow, x: ChannelExport) {
    && x.kind == c.kind && x.enabled == c.enabled && x.template == c.template && x.ratePerMinute == c.ratePerMinute
    && x.config.Keys == c.config.Keys
    && forall f :: f in c.config ==>
         x.config[f] == if IsSecret(c.kind, f) then Text("__REDACTED__") else c.config[f]
  }

  lemma RedactedNamed(c: ChannelRow)
    ensures SecretHidden(c, ExportOf(c))
  {
    SecretsNamed(c.kind);
    hide IsSecret, SecretField;
  }

  /** Every channel is exported once, and its secret is the placeholder whenever
      it has one; every other entry of its config leaves as it is. */
  lemma ExportHidesSecrets(v: View)
    requires Sane(v)
    ensures var xs := Exported(v).channels;
            && KeysOf(xs, CHANNEL_NAME) == v.channels.Keys && DistinctKeys(xs, CHANNEL_NAME)
            && forall i :: 0 <= i < |xs| ==> xs[i].name in v.channels && SecretHidden(v.channels[xs[i].name], xs[i])
  {
    var xs := Exported(v).channels;
    hide *;
    ChannelEntries(v, v.channels.Keys);
    ListedKeys(xs, v.channels.Keys, CHANNEL_NAME);
    forall i | 0 <= i < |xs|
      ensures xs[i].name in v.channels && SecretHidden(v.channels[xs[i].name], xs[i])
    {
      ChannelNameIs(xs[i]);
      RedactedNamed(v.channels[xs[i].name]);
    }
  }

  lemma ChannelNameIs(x: ChannelExport)
    ensures CHANNEL_NAME(x) == x.name
  {
  }

  /** A ciphertext the previous channel of that name has in its own secret field of that name. */
  ghost predicate HadCiphertext(was: Option<ChannelRow>, field: string) {
    && was.Some? && IsSecret(was.value.kind, field) && field in was.value.config
    && var secret := was.value.config[field];
       secret.Text? && |secret.text| > 7 && secret.text[..7] == "argos1:"
  }

  /** The row an import writes for a channel entry over the row of its name. */
  ghost predicate ChannelRead(x: ChannelExport, was: Option<ChannelRow>, c: ChannelRow) {
    && c.name == x.name && c.kind == x.kind && c.template == x.template && c.ratePerMinute == x.ratePerMinute
    && c.config.Keys == x.config.Keys
    && (forall f :: f in x.config && !(IsSecret(x.kind, f) && x.config[f] == Text("__REDACTED__")) ==>
          c.config[f] == x.config[f])
    && (forall f :: f in x.config && IsSecret(x.kind, f) && x.config[f] == Text("__REDACTED__") ==>
          if HadCiphertext(was, f) then c.config[f] == was.value.config[f] && c.enabled == x.enabled
          else c.config[f] == Text("") && !c.enabled)
    && ((forall f :: f in x.config && IsSecret(x.kind, f) ==> x.config[f] != Text("__REDACTED__")) ==>
          c.enabled == x.enabled)
  }

  lemma CiphertextNamed(was: Option<ChannelRow>, f: string)
    ensures KeptSecret(was, f) == if HadCiphertext(was, f) then Some(was.value.config[f]) else None
  {
    if was.Some? {
      SecretsNamed(was.value.kind);
    }
    hide SecretField, IsSecret;
    assert |"argos1:"| == 7;
  }

  lemma WrittenChannelRead(mode: Mode, x: ChannelExport, was: Option<ChannelRow>)
    requires mode.Replace? ==> was == None
    ensures ChannelRead(x, was, WriteChannel(mode)(x, was))
  {
    var c, s := WriteChannel(mode)(x, was), SecretField(x.kind);
    SecretsNamed(x.kind);
    hide SecretField, IsSecret, KeptSecret, HadCiphertext;
    assert c.config.Keys == x.config.Keys;
    if s.Some? && s.value in x.config && x.config[s.value] == Text("__REDACTED__") {
      CiphertextNamed(was, s.value);
      assert x.config[s.value] == Placeholder() && IsSecret(x.kind, s.value);
      assert forall f :: IsSecret(x.kind, f) ==> f == s.value;
      if HadCiphertext(was, s.value) {
        HadIsThere(was, s.value);
      }
    } else {
      assert s.Some? && s.value in x.config ==> x.config[s.value] != Placeholder();
      assert forall f :: IsSecret(x.kind, f) ==> s == Some(f);
    }
  }

  lemma HadIsThere(was: Option<ChannelRow>, f: string)
    requires HadCiphertext(was, f)
    ensures was.Some? && f in was.value.config
  {
  }

  /** The secret of an imported channel is never the placeholder. */
  lemma NoPlaceholderStays(x: ChannelExport, was: Option<ChannelRow>, c: ChannelRow, f: string)
    requires ChannelRead(x, was, c) && IsSecret(c.kind, f) && f in c.config
    ensures c.config[f] != Text("__REDACTED__")
  {
    if HadCiphertext(was, f) {
      assert was.value.config[f].text[0] == "argos1:"[0];
      assert "__REDACTED__"[0] != "argos1:"[0];
    }
  }

  lemma WrittenRow<X(!new), V(!new)>(m: map<string, V>, xs: seq<X>, key: X -> string, write: Write<X, V>, n: string)
    ensures var t := Upserted(m, m, xs, key, write);
            Get(t, n) == match LastOf(xs, key, n) case None => Get(m, n) case Some(x) => Some(write(x, Get(m, n)))
  {
    UpsertedAt(m, m, xs, key, write, n);
  }

  lemma WipedChannelAt(v: View, mode: Mode, n: string)
    ensures Get(Wiped(v, mode).channels, n) == if mode.Merge? then Get(v.channels, n) else None
    ensures Get(Wiped(v, mode).groups, n) == if mode.Merge? then Get(v.groups, n) else None
    ensures Get(Wiped(v, mode).hosts, n) == if mode.Merge? then Get(v.hosts, n) else None
  {
  }

  /** A channel after an import: as its last entry reads, over the channel of that
      name when merging; without an entry it stays when merging and is gone otherwise. */
  lemma ImportedChannel(v: View, b: Bundle, mode: Mode, w: View, n: string)
    requires Imported(v, b, mode) == Some(w)
    ensures var was, x := if mode.Merge? then Get(v.channels, n) else None, LastOf(b.channels, CHANNEL_NAME, n);
            if x.Some? then n in w.channels && ChannelRead(x.value, was, w.channels[n]) else Get(w.channels, n) == was
  {
    hide *;
    ImportedTables(v, b, mode, w);
    var m := Wiped(v, mode).channels;
    WipedChannelAt(v, mode, n);
    WrittenRow(m, b.channels, CHANNEL_NAME, WriteChannel(mode), n);
    GetIs(w.channels, n);
    if x :| LastOf(b.channels, CHANNEL_NAME, n) == Some(x) {
      WrittenChannelRead(mode, x, Get(m, n));
    }
  }

  lemma GetIs<V>(m: map<string, V>, n: string)
    ensures Get(m, n).Some? <==> n in m
    ensures n in m ==> Get(m, n) == Some(m[n])
  {
  }

  // ----- groups -----

  /** The row an import writes for a group entry over the row of its name. */
  ghost predicate GroupRead(x: GroupExport, was: Option<GroupRow>, g: GroupRow) {
    && g.name == x.name && g.targets == x.targets
    && g.cols.protocol == (if x.cols.protocol == "" then "http" else x.cols.protocol)
    && g.cols.algorithm == (if x.cols.algorithm == "" then "round_robin" else x.cols.algorithm)
    && g.cols.healthMethod == (if x.cols.healthMethod == "" then "GET" else x.cols.healthMethod)
    && g.cols.expectStatus == (if x.cols.expectStatus == "" then "200" else x.cols.expectStatus)
    && g.cols.verifyTLS == x.cols.verifyTLS && g.cols.healthEnabled == x.cols.healthEnabled
    && g.cols.healthPath == x.cols.healthPath && g.cols.interval == x.cols.interval && g.cols.timeout == x.cols.timeout
    && g.cols.fails == x.cols.fails && g.cols.passes == x.cols.passes
    && g.preserveHost == (was.Some? && was.value.preserveHost)
  }

  lemma WrittenGroupRead(x: GroupExport, was: Option<GroupRow>)
    ensures GroupRead(x, was, WRITE_GROUP(x, was))
  {
  }

  lemma ImportedGroup(v: View, b: Bundle, mode: Mode, w: View, n: string)
    requires Imported(v, b, mode) == Some(w)
    ensures var was, x := if mode.Merge? then Get(v.groups, n) else None, LastOf(b.groups, GROUP_NAME, n);
            if x.Some? then n in w.groups && GroupRead(x.value, was, w.groups[n]) else Get(w.groups, n) == was
  {
    hide *;
    ImportedTables(v, b, mode, w);
    var m := Wiped(v, mode).groups;
    WipedChannelAt(v, mode, n);
    WrittenRow(m, b.groups, GROUP_NAME, WRITE_GROUP, n);
    GetIs(w.groups, n);
    if x :| LastOf(b.groups, GROUP_NAME, n) == Some(x) {
      WrittenGroupRead(x, Get(m, n));
    }
  }

  // ----- settings -----

  /** The settings that may leave or enter the panel. */
  predicate Portable(key: string) {
    || key == "logs.retention_days" || key == "logs.max_entries"
    || key == "backup.schedule" || key == "backup.retention_days" || key == "backup.enabled"
    || key == "notifications.retention_days" || key == "notifications.max_entries"
    || key == "notifications.vapid_contact_email"
  }

  lemma PortableIsExportable(key: string)
    ensures Portable(key) <==> Exportable(key)
  {
  }

  lemma WipedSettings(v: View, mode: Mode)
    ensures Wiped(v, mode).settings == v.settings
  {
  }

  lemma ImportedSettingsAre(v: View, b: Bundle, mode: Mode, w: View)
    requires Imported(v, b, mode) == Some(w)
    ensures w.settings == PutSettings(v.settings, b.settings)
  {
    WipedSettings(v, mode);
    hide PutSettings, Wiped, Fold, HostsImported, PutNotifies;
  }

  /** An import writes just the portable settings of the bundle, whatever the mode; an export takes just these. */
  lemma SettingsNamed(v: View, b: Bundle, mode: Mode, w: View, key: string)
    requires Imported(v, b, mode) == Some(w)
    ensures Get(w.settings, key)
         == if key in b.settings && Portable(key) then Get(b.settings, key) else Get(v.settings, key)
    ensures Get(Exported(v).settings, key) == if Portable(key) then Get(v.settings, key) else None
  {
    ImportedSettingsAre(v, b, mode, w);
    PortableIsExportable(key);
    ExportedSettings(v, key);
    hide Imported, Exported, Exportable, Portable;
  }

  lemma ExportedSettings(v: View, key: string)
    ensures Get(Exported(v).settings, key) == if Exportable(key) then Get(v.settings, key) else None
  {
    hide Exportable;
    hide GroupExports, HostExports, RuleExports, SecurityExports, ChannelExports, Listing, Youngest, InsertAll;
  }

  // ----- hosts -----

  /** The entries of one host, in bundle order. */
  function RulesFor(xs: seq<RuleExport>, k: string): seq<Rule> {
    if xs == [] then []
    else RulesFor(xs[..|xs| - 1], k) + if xs[|xs| - 1].host == k then [xs[|xs| - 1].rule] else []
  }

  predicate DistinctPriorities(rules: seq<Rule>) {
    && (forall i :: 0 <= i < |rules| ==> rules[i].decodes)
    && forall i, j :: 0 <= i < j < |rules| ==> rules[i].priority != rules[j].priority
  }

  /** The rules in ascending priority are just those of the entries. */
  ghost predicate SortedFrom(rules: seq<Rule>, given: seq<Rule>) {
    && multiset(rules) == multiset(given)
    && forall i, j :: 0 <= i < j < |rules| ==> rules[i].priority < rules[j].priority
  }

  lemma LastDistinct(rules: seq<Rule>, r: Rule)
    ensures DistinctPriorities(rules + [r])
            <==> DistinctPriorities(rules) && r.decodes && forall q :: q in rules ==> q.priority != r.priority
  {
    var all := rules + [r];
    assert all[|rules|] == r && forall i :: 0 <= i < |rules| ==> all[i] == rules[i];
    if DistinctPriorities(all) {
      forall q | q in rules
        ensures q.priority != r.priority
      {
        var i :| 0 <= i < |rules| && rules[i] == q;
        assert all[i].priority != all[|rules|].priority;
      }
    } else if DistinctPriorities(rules) && r.decodes && forall q :: q in rules ==> q.priority != r.priority {
      assert forall i :: 0 <= i < |rules| ==> rules[i] in rules;
    }
  }

  lemma SameMembers<T>(a: seq<T>, b: seq<T>)
    requires multiset(a) == multiset(b)
    ensures forall x :: x in a <==> x in b
  {
    assert forall x :: x in a <==> x in multiset(a);
    assert forall x :: x in b <==> x in multiset(b);
  }

  /** The rules gathered for a host exist exactly when its entries decode and no
      two share a priority; they are these entries in ascending priority. */
  lemma {:induction false} GatheredRulesAre(xs: seq<RuleExport>, k: string)
    ensures Gathered(RULES, xs, k).Some? <==> DistinctPriorities(RulesFor(xs, k))
    ensures Gathered(RULES, xs, k).Some? ==> SortedFrom(Gathered(RULES, xs, k).value, RulesFor(xs, k))
  {
    GatheredRulesFit(xs, k);
    if xs != [] {
      var front, x := xs[..|xs| - 1], xs[|xs| - 1];
      GatheredRulesAre(front, k);
      var given, before := RulesFor(front, k), Gathered(RULES, front, k);
      LastDistinct(given, x.rule);
      hide DistinctPriorities;
      if x.host == k && before.Some? {
        SameMembers(before.value, given);
        assert AddRule(before.value, x.rule).Some? <==> x.rule.decodes && forall q :: q in given ==>
            q.priority != x.rule.priority;
        InsertKeepsElements(before.value, x.rule, BY_PRIORITY);
      }
      assert given + [] == given;
    }
  }

  function ExclusionsFor(xs: seq<SecurityExport>, k: string): seq<Exclusion> {
    if xs == [] then []
    else ExclusionsFor(xs[..|xs| - 1], k) + if xs[|xs| - 1].host == k then xs[|xs| - 1].exclusions else []
  }

  function CustomRulesFor(xs: seq<SecurityExport>, k: string): seq<CustomRule> {
    if xs == [] then []
    else CustomRulesFor(xs[..|xs| - 1], k) + if xs[|xs| - 1].host == k then xs[|xs| - 1].customRules else []
  }

  /** The settings of the host's last entry. */
  function SettingsFor(xs: seq<SecurityExport>, k: string): Option<Security> {
    if xs == [] then None
    else if xs[|xs| - 1].host == k then Some(xs[|xs| - 1].row)
    else SettingsFor(xs[..|xs| - 1], k)
  }

  predicate SecurityBounds(s: Security) {
    && (s.wafMode == "detect" || s.wafMode == "block") && 1 <= s.paranoia <= 4
    && (s.limitKey == "ip" || s.limitKey == "header" || s.limitKey == "global")
  }

  predicate DistinctExclusions(es: seq<Exclusion>) {
    && (forall i :: 0 <= i < |es| ==> 0 < es[i].crsRule)
    && forall i, j :: 0 <= i < j < |es| ==> es[i].crsRule != es[j].crsRule || es[i].path != es[j].path
  }

  lemma LastDistinctExclusion(es: seq<Exclusion>, e: Exclusion)
    ensures DistinctExclusions(es + [e]) <==> DistinctExclusions(es) && IsNew(es, e)
  {
    var all := es + [e];
    assert all[|es|] == e && forall i :: 0 <= i < |es| ==> all[i] == es[i];
    if DistinctExclusions(all) {
      forall d | d in es
        ensures d.crsRule != e.crsRule || d.path != e.path
      {
        var i :| 0 <= i < |es| && es[i] == d;
        assert all[i].crsRule != all[|es|].crsRule || all[i].path != all[|es|].path;
      }
    } else if DistinctExclusions(es) && IsNew(es, e) {
      assert forall i :: 0 <= i < |es| ==> es[i] in es;
    }
  }

  lemma {:induction false} PrefixDistinct(a: seq<Exclusion>, b: seq<Exclusion>)
    requires DistinctExclusions(a + b)
    ensures DistinctExclusions(a)
  {
    assert forall i :: 0 <= i < |a| ==> (a + b)[i] == a[i];
  }

  /** Adding the exclusions one by one fails just for a bad or a repeated one. */
  lemma {:induction false} AddedExclusionsAre(es: seq<Exclusion>, given: seq<Exclusion>, more: seq<Exclusion>)
    requires multiset(es) == multiset(given) && DistinctExclusions(given)
    ensures Fold(es, more, ADD_EXCLUSION).Some? <==> DistinctExclusions(given + more)
    ensures Fold(es, more, ADD_EXCLUSION).Some? ==>
              multiset(Fold(es, more, ADD_EXCLUSION).value) == multiset(given + more)
  {
    if more == [] {
      assert given + more == given;
    } else {
      var front, e := more[..|more| - 1], more[|more| - 1];
      AddedExclusionsAre(es, given, front);
      assert given + more == (given + front) + [e];
      LastDistinctExclusion(given + front, e);
      var before := Fold(es, front, ADD_EXCLUSION);
      hide DistinctExclusions;
      if before.Some? {
        SameMembers(before.value, given + front);
        assert ADD_EXCLUSION(before.value, e).Some? <==> IsNew(given + front, e);
        InsertKeepsElements(before.value, e, BY_CRS);
      }
    }
  }

  predicate AllBounded(xs: seq<SecurityExport>, k: string) {
    forall i :: 0 <= i < |xs| && xs[i].host == k ==> SecurityBounds(xs[i].row)
  }

  lemma BoundedOneMore(front: seq<SecurityExport>, x: SecurityExport, k: string)
    ensures AllBounded(front + [x], k) <==> AllBounded(front, k) && (x.host == k ==> SecurityBounds(x.row))
  {
    var all := front + [x];
    assert all[|front|] == x && forall i :: 0 <= i < |front| ==> all[i] == front[i];
    hide SecurityBounds;
  }

  lemma BoundsAreFits(s: Security)
    ensures SecurityBounds(s) <==> SecurityFits(s)
  {
  }

  /** The security part gathered for a host, and when there is one. */
  lemma {:induction false} GatheredSecurityIs(xs: seq<SecurityExport>, k: string)
    ensures Gathered(SECURITY, xs, k).Some? <==> AllBounded(xs, k) && DistinctExclusions(ExclusionsFor(xs, k))
    ensures Gathered(SECURITY, xs, k).Some? ==>
              var p := Gathered(SECURITY, xs, k).value;
              && p.row == SettingsFor(xs, k) && multiset(p.exclusions) == multiset(ExclusionsFor(xs, k))
              && p.customRules == CustomRulesFor(xs, k)
  {
    if xs != [] {
      var front, x := xs[..|xs| - 1], xs[|xs| - 1];
      GatheredSecurityIs(front, k);
      assert xs == front + [x];
      BoundedOneMore(front, x, k);
      BoundsAreFits(x.row);
      var given, before := ExclusionsFor(front, k), Gathered(SECURITY, front, k);
      hide DistinctExclusions, SecurityBounds, SecurityFits, Fold, AllBounded;
      if x.host == k {
        if before.Some? {
          AddedExclusionsAre(before.value.exclusions, given, x.exclusions);
        } else if AllBounded(front, k) && DistinctExclusions(given + x.exclusions) {
          PrefixDistinct(given, x.exclusions);
        }
      } else {
        assert given + [] == given;
      }
    }
  }

  /** A host after an import, from the entries that name it and the host before. */
  ghost predicate HostRead(b: Bundle, n: string, was: Option<HostView>, h: HostView) {
    var last := LastOf(b.hosts, HOST_NAME, n);
    && (last.Some? || was.Some?)
    && h.group == (if last.Some? then last.value.group else was.value.group)
    && (last.Some? ==>
          && h.cols.tlsMode == last.value.cols.tlsMode && h.cols.tlsEmail == last.value.cols.tlsEmail
          && h.cols.enabled == last.value.cols.enabled && h.cols.acmeURL == last.value.cols.acmeURL
          && h.cols.challenge == (if last.value.cols.challenge == "" then "dns" else last.value.cols.challenge))
    && (last.None? ==> h.cols == was.value.cols)
    && h.extra == (if was.Some? then was.value.extra else HostExtra(false, false, false, "cloudflare"))
    && (if RulesFor(b.rules, n) != [] then SortedFrom(h.rules, RulesFor(b.rules, n))
        else h.rules == if was.Some? then was.value.rules else [])
    && (if SettingsFor(b.security, n).Some? then
          && h.security == SettingsFor(b.security, n)
          && multiset(h.exclusions) == multiset(ExclusionsFor(b.security, n))
          && h.customRules == CustomRulesFor(b.security, n)
        else if was.Some? then
          h.security == was.value.security && h.exclusions == was.value.exclusions && h.customRules
              == was.value.customRules
        else h.security == None && h.exclusions == [] && h.customRules == [])
  }

  lemma {:induction false} RulesForSome(xs: seq<RuleExport>, k: string)
    ensures RulesFor(xs, k) != [] <==> k in KeysOf(xs, RULES.key)
  {
    if xs != [] {
      var front, x := xs[..|xs| - 1], xs[|xs| - 1];
      RulesForSome(front, k);
      assert xs == front + [x];
      KeysOfOneMore(front, x, RULES.key);
    }
  }

  lemma {:induction false} SettingsForSome(xs: seq<SecurityExport>, k: string)
    ensures SettingsFor(xs, k).Some? <==> k in KeysOf(xs, SECURITY.key)
  {
    if xs != [] {
      var front, x := xs[..|xs| - 1], xs[|xs| - 1];
      SettingsForSome(front, k);
      assert xs == front + [x];
      KeysOfOneMore(front, x, SECURITY.key);
    }
  }

  lemma HostIsRead(h: HostView, n: string, before: map<string, HostView>, b: Bundle)
    requires HostIs(h, n, before, b)
    requires Gathered(RULES, b.rules, n).Some? && Gathered(SECURITY, b.security, n).Some?
    ensures HostRead(b, n, Get(before, n), h)
  {
    RulesForSome(b.rules, n);
    SettingsForSome(b.security, n);
    GatheredRulesAre(b.rules, n);
    GatheredSecurityIs(b.security, n);
    hide RulesFor, SettingsFor, ExclusionsFor, CustomRulesFor, Gathered, KeysOf, LastOf, SortedFrom;
    hide DistinctPriorities, DistinctExclusions, AllBounded;
  }

  lemma GathersAll(b: Bundle, groups: set<string>, n: string)
    requires HostsAcceptable(b, groups)
    ensures Gathered(RULES, b.rules, n).Some? && Gathered(SECURITY, b.security, n).Some?
  {
    hide Gathered, KeysOf, HostOk;
  }

  /** What every host holds after an import. */
  lemma ImportedHost(v: View, b: Bundle, mode: Mode, w: View, n: string)
    requires Imported(v, b, mode) == Some(w)
    ensures n in w.hosts <==> n in KeysOf(b.hosts, HOST_NAME) || (mode.Merge? && n in v.hosts)
    ensures n in w.hosts ==> HostRead(b, n, if mode.Merge? then Get(v.hosts, n) else None, w.hosts[n])
  {
    hide *;
    var from := Wiped(v, mode);
    ImportedParts(v, b, mode, w);
    WipedClear(v, mode);
    HostSide(from, w.groups.Keys, b, mode);
    WipedChannelAt(v, mode, n);
    GetIs(from.hosts, n);
    GetIs(v.hosts, n);
    if n in w.hosts {
      GathersAll(b, w.groups.Keys, n);
      HostIsRead(w.hosts[n], n, from.hosts, b);
    }
  }

  lemma WipedClear(v: View, mode: Mode)
    ensures Clearable(Wiped(v, mode).hosts, mode)
  {
  }

  // ----- when an import succeeds -----

  predicate GroupBounds(x: GroupExport) {
    && (x.cols.protocol == "" || x.cols.protocol == "http" || x.cols.protocol == "https")
    && (x.cols.algorithm == "" || x.cols.algorithm == "round_robin" || x.cols.algorithm == "least_conn"
        || x.cols.algorithm == "ip_hash" || x.cols.algorithm == "random")
    && (x.cols.healthMethod == "" || x.cols.healthMethod == "GET" || x.cols.healthMethod == "HEAD"
        || x.cols.healthMethod == "POST")
    && forall i, j :: 0 <= i < j < |x.targets| ==>
         x.targets[i].host != x.targets[j].host || x.targets[i].port != x.targets[j].port
  }

  predicate HostBounds(x: HostExport) {
    && (x.cols.tlsMode == "auto" || x.cols.tlsMode == "none" || x.cols.tlsMode == "manual")
    && (x.cols.challenge == "" || x.cols.challenge == "dns" || x.cols.challenge == "http" || x.cols.challenge
        == "tls-alpn")
  }

  predicate ChannelBounds(x: ChannelExport) {
    x.kind == "webhook" || x.kind == "email" || x.kind == "telegram" || x.kind == "browser_push"
  }

  lemma GroupBoundsAreOk(x: GroupExport)
    ensures GroupBounds(x) <==> GROUP_OK(x)
  {
  }

  lemma HostBoundsAreOk(x: HostExport, groups: set<string>)
    ensures HostBounds(x) && x.group in groups <==> HostOk(groups)(x)
  {
  }

  lemma ChannelBoundsAreOk(x: ChannelExport)
    ensures ChannelBounds(x) <==> CHANNEL_OK(x)
  {
  }

  ghost predicate GroupsImport(b: Bundle, mode: Mode) {
    (forall x :: x in b.groups ==> GroupBounds(x)) && (mode.Replace? ==> DistinctKeys(b.groups, GROUP_NAME))
  }

  /** The groups there are once those of the bundle are in. */
  function GroupsAround(v: View, b: Bundle, mode: Mode): set<string> {
    KeysOf(b.groups, GROUP_NAME) + if mode.Merge? then v.groups.Keys else {}
  }

  ghost predicate HostsImport(b: Bundle, mode: Mode, groups: set<string>) {
    && (forall x :: x in b.hosts ==> HostBounds(x) && x.group in groups)
    && (mode.Replace? ==> DistinctKeys(b.hosts, HOST_NAME))
    && (forall x :: x in b.rules ==> x.host in KeysOf(b.hosts, HOST_NAME))
    && (forall k :: DistinctPriorities(RulesFor(b.rules, k)))
    && (forall x :: x in b.security ==> x.host in KeysOf(b.hosts, HOST_NAME))
    && (forall k :: AllBounded(b.security, k) && DistinctExclusions(ExclusionsFor(b.security, k)))
  }

  ghost predicate ChannelsImport(b: Bundle, mode: Mode) {
    (forall x :: x in b.channels ==> ChannelBounds(x)) && (mode.Replace? ==> DistinctKeys(b.channels, CHANNEL_NAME))
  }

  lemma GroupsImportIff(m: map<string, GroupRow>, b: Bundle, mode: Mode)
    requires mode.Replace? ==> m == map[]
    ensures var r := Fold(m, b.groups, Upsert(GROUP_NAME, GROUP_OK, WRITE_GROUP, mode.Replace?, None));
            && (r.Some? <==> GroupsImport(b, mode))
            && (r.Some? ==> r.value.Keys == m.Keys + KeysOf(b.groups, GROUP_NAME))
  {
    GroupWritesAbsorb();
    UpsertLoop(m, b.groups, GROUP_NAME, GROUP_OK, WRITE_GROUP, mode.Replace?, None);
    UpsertedKeys(m, m, b.groups, GROUP_NAME, WRITE_GROUP);
    forall x
      ensures GroupBounds(x) <==> GROUP_OK(x)
    {
      GroupBoundsAreOk(x);
    }
    hide Fold, Upsert, Upserted, KeysOf, DistinctKeys, Absorbs, Settles, GroupBounds, GroupFits, Normal;
  }

  lemma ChannelsImportIff(m: map<string, ChannelRow>, b: Bundle, mode: Mode)
    requires mode.Replace? ==> m == map[]
    ensures var r := Fold(m, b.channels, Upsert(CHANNEL_NAME, CHANNEL_OK, WriteChannel(mode), mode.Replace?, Some(m)));
            r.Some? <==> ChannelsImport(b, mode)
  {
    UpsertLoop(m, b.channels, CHANNEL_NAME, CHANNEL_OK, WriteChannel(mode), mode.Replace?, Some(m));
    forall x
      ensures ChannelBounds(x) <==> CHANNEL_OK(x)
    {
      ChannelBoundsAreOk(x);
    }
    hide Fold, Upsert, Upserted, KeysOf, DistinctKeys, ChannelBounds, ChannelFits, WriteChannel;
  }

  lemma AcceptableIff(b: Bundle, mode: Mode, groups: set<string>)
    ensures HostsAcceptable(b, groups) && (mode.Replace? ==> DistinctKeys(b.hosts, HOST_NAME))
            <==> HostsImport(b, mode, groups)
  {
    forall x
      ensures HostBounds(x) && x.group in groups <==> HostOk(groups)(x)
    {
      HostBoundsAreOk(x, groups);
    }
    forall k
      ensures Gathered(RULES, b.rules, k).Some? <==> DistinctPriorities(RulesFor(b.rules, k))
      ensures Gathered(SECURITY, b.security, k).Some?
              <==> AllBounded(b.security, k) && DistinctExclusions(ExclusionsFor(b.security, k))
    {
      GatheredRulesAre(b.rules, k);
      GatheredSecurityIs(b.security, k);
    }
    hide HostOk, HostBounds, Gathered, DistinctPriorities, AllBounded, DistinctExclusions, KeysOf, DistinctKeys,
        RulesFor;
    hide ExclusionsFor;
  }

  lemma WipedForReplace(v: View, mode: Mode)
    ensures mode.Replace? ==> Wiped(v, mode).groups == map[] && Wiped(v, mode).channels == map[]
    ensures mode.Merge? ==> Wiped(v, mode) == v
  {
  }

  lemma ImportedInParts(v: View, b: Bundle, mode: Mode)
    ensures var from := Wiped(v, mode);
            var groups := Fold(from.groups, b.groups, Upsert(GROUP_NAME, GROUP_OK, WRITE_GROUP, mode.Replace?, None));
            var channels :=
              Fold(from.channels, b.channels,
                  Upsert(CHANNEL_NAME, CHANNEL_OK, WriteChannel(mode), mode.Replace?, Some(from.channels)));
            Imported(v, b, mode).Some?
            <==> groups.Some? && HostsImported(from, groups.value.Keys, b, mode).Some? && channels.Some?
  {
    hide Wiped, Fold, Upsert, HostsImported, PutNotifies, PutSettings, WriteChannel;
  }

  /** An import succeeds exactly when every entry is in its bounds and names what
      is there, no host is given two rules of one priority or one exclusion twice,
      and, when replacing, no name comes twice. */
  lemma ImportSucceedsIff(v: View, b: Bundle, mode: Mode)
    ensures Imported(v, b, mode).Some?
            <==> GroupsImport(b, mode) && HostsImport(b, mode, GroupsAround(v, b, mode)) && ChannelsImport(b, mode)
  {
    hide *;
    var from := Wiped(v, mode);
    ImportedInParts(v, b, mode);
    WipedForReplace(v, mode);
    WipedClear(v, mode);
    GroupsImportIff(from.groups, b, mode);
    ChannelsImportIff(from.channels, b, mode);
    var groups := Fold(from.groups, b.groups, Upsert(GROUP_NAME, GROUP_OK, WRITE_GROUP, mode.Replace?, None));
    if groups.Some? {
      GroupsAroundAre(v, b, mode, groups.value.Keys);
      HostSide(from, groups.value.Keys, b, mode);
      AcceptableIff(b, mode, groups.value.Keys);
    }
  }

  lemma GroupsAroundAre(v: View, b: Bundle, mode: Mode, keys: set<string>)
    requires keys == Wiped(v, mode).groups.Keys + KeysOf(b.groups, GROUP_NAME)
    ensures keys == GroupsAround(v, b, mode)
  {
    hide KeysOf;
  }

  // ----- notification rules -----

  /** The rule an import writes for an entry: its columns, and of its filter the domains that are there. */
  ghost predicate NotifyRead(x: NotifyExport, hosts: set<string>, r: RuleView) {
    && r.name == x.name && r.channel == x.channel && r.event == x.event && r.severities == x.severities
    && r.enabled == x.enabled && r.throttle == x.throttle
    && (forall h :: h in r.hosts <==> h.Some? && h.value in x.hosts && h.value in hosts)
    && ((forall d :: d in x.hosts ==> d in hosts) ==>
          |r.hosts| == |x.hosts| && forall i :: 0 <= i < |x.hosts| ==> r.hosts[i] == Some(x.hosts[i]))
  }

  lemma {:induction false} FoundAre(domains: seq<string>, hosts: set<string>)
    ensures forall h :: h in FoundHosts(domains, hosts) <==> h.Some? && h.value in domains && h.value in hosts
    ensures (forall d :: d in domains ==> d in hosts) ==>
              && |FoundHosts(domains, hosts)| == |domains|
              && forall i :: 0 <= i < |domains| ==> FoundHosts(domains, hosts)[i] == Some(domains[i])
  {
    if domains != [] {
      var front, last := domains[..|domains| - 1], domains[|domains| - 1];
      FoundAre(front, hosts);
      assert domains == front + [last];
    }
  }

  lemma NotifyViewIsRead(x: NotifyExport, hosts: set<string>)
    ensures NotifyRead(x, hosts, NotifyView(x, hosts))
  {
    FoundAre(x.hosts, hosts);
    hide FoundHosts;
  }

  /** Entry `i` is written and, when merging, no later one of its name replaces it. */
  predicate Lasting(xs: seq<NotifyExport>, i: int, channels: set<string>, mode: Mode) {
    && 0 <= i < |xs| && xs[i].channel in channels
    && (mode.Merge? ==> forall j :: i < j < |xs| && xs[j].channel in channels ==> xs[j].name != xs[i].name)
  }

  /** No entry that is written has the name. */
  predicate Unwritten(xs: seq<NotifyExport>, channels: set<string>, name: string) {
    forall i :: 0 <= i < |xs| && xs[i].channel in channels ==> xs[i].name != name
  }

  ghost predicate FromEntry(xs: seq<NotifyExport>, channels: set<string>, hosts: set<string>, mode: Mode, r: RuleView) {
    exists i :: Lasting(xs, i, channels, mode) && r == NotifyView(xs[i], hosts)
  }

  lemma EntriesOneMore(
      xs: seq<NotifyExport>, x: NotifyExport, channels: set<string>, hosts: set<string>, mode: Mode, r: RuleView)
    ensures Unwritten(xs + [x], channels, r.name)
            <==> Unwritten(xs, channels, r.name) && (x.channel in channels ==> x.name != r.name)
    ensures FromEntry(xs + [x], channels, hosts, mode, r)
            <==> (|| (x.channel in channels && r == NotifyView(x, hosts))
                  || (&& FromEntry(xs, channels, hosts, mode, r)
                      && (mode.Merge? && x.channel in channels ==> x.name != r.name)))
  {
    var all := xs + [x];
    assert all[|xs|] == x && forall i :: 0 <= i < |xs| ==> all[i] == xs[i];
    assert forall y :: NotifyView(y, hosts).name == y.name;
    hide NotifyView;
    if x.channel in channels && r == NotifyView(x, hosts) {
      assert Lasting(all, |xs|, channels, mode);
    }
    if FromEntry(xs, channels, hosts, mode, r) && (mode.Merge? && x.channel in channels ==> x.name != r.name) {
      var i :| Lasting(xs, i, channels, mode) && r == NotifyView(xs[i], hosts);
      assert Lasting(all, i, channels, mode);
    }
    if FromEntry(all, channels, hosts, mode, r) {
      var i :| Lasting(all, i, channels, mode) && r == NotifyView(all[i], hosts);
      if i < |xs| {
        assert Lasting(xs, i, channels, mode);
      }
    }
  }

  lemma {:induction false} PutNotifiesAre(
      rules: seq<RuleView>, xs: seq<NotifyExport>, channels: set<string>, hosts: set<string>, mode: Mode, r: RuleView)
    ensures r in PutNotifies(rules, xs, channels, hosts, mode)
            <==> (|| (r in rules && (mode.Merge? ==> Unwritten(xs, channels, r.name)))
                  || FromEntry(xs, channels, hosts, mode, r))
  {
    if xs != [] {
      var front, x := xs[..|xs| - 1], xs[|xs| - 1];
      PutNotifiesAre(rules, front, channels, hosts, mode, r);
      assert xs == front + [x];
      EntriesOneMore(front, x, channels, hosts, mode, r);
      WithoutKeeps(PutNotifies(rules, front, channels, hosts, mode), x.name);
      assert NotifyView(x, hosts).name == x.name;
      hide Without, NotifyView, FromEntry, Unwritten;
    }
  }

  /** The notification rules after an import: those written by an entry for a
      known channel and, when merging, the old ones of other names. */
  lemma ImportedNotify(v: View, b: Bundle, mode: Mode, w: View, r: RuleView)
    requires Imported(v, b, mode) == Some(w)
    ensures r in w.rules
            <==> (|| (mode.Merge? && r in v.rules && Unwritten(b.notify, w.channels.Keys, r.name))
                  || FromEntry(b.notify, w.channels.Keys, w.hosts.Keys, mode, r))
  {
    hide *;
    ImportedParts(v, b, mode, w);
    WipedRules(v, mode);
    PutNotifiesAre(Wiped(v, mode).rules, b.notify, w.channels.Keys, w.hosts.Keys, mode, r);
  }

  lemma WipedRules(v: View, mode: Mode)
    ensures Wiped(v, mode).rules == if mode.Merge? then v.rules else []
  {
  }

  // ----- exported security -----

  /** Every host's security settings are exported once; a host without a row has
      the firewall off, detecting at level 1 and blocking with 403, and no limit,
      which would count by address and refuse with 429. */
  lemma ExportedSecurityIs(v: View)
    ensures var xs := Exported(v).security;
            && KeysOf(xs, SECURITY.key) == v.hosts.Keys && DistinctKeys(xs, SECURITY.key)
            && forall i :: 0 <= i < |xs| ==>
                 && xs[i].host in v.hosts
                 && var h := v.hosts[xs[i].host];
                    && xs[i].exclusions == h.exclusions && xs[i].customRules == h.customRules
                    && xs[i].row == (if h.security.Some? then h.security.value
                                     else Security(false, "detect", 1, 403, "", false, 0, 0, "ip", "", 429))
  {
    var s := v.hosts.Keys;
    HostsListed(v, s);
    var xs := SecurityExports(v, Listing(s));
    assert xs == Exported(v).security;
    hide Listing, Exported, KeysOf, DistinctKeys;
    ListedKeys(xs, s, SECURITY.key);
  }
}
