/** What every import leaves behind satisfies the constraints the round trips ask
    for, so that they can be repeated: a second round trip changes nothing more. */
module ConfigFixpoint {
  import opened Basics
  import opened Upserts
  import opened Ordering
  import opened ConfigModel
  import opened ConfigLaws
  import opened ConfigRoundTrip

  // ----- rules and exclusions of a host -----

  /** Inserting a rule of a new priority keeps the rules in ascending priority. */
  lemma {:induction false} InsertedRulesFit(rules: seq<Rule>, r: Rule)
    requires RulesFit(rules) && r.decodes && forall i :: 0 <= i < |rules| ==> rules[i].priority != r.priority
    ensures RulesFit(Insert(rules, r, BY_PRIORITY))
    ensures forall x :: x in Insert(rules, r, BY_PRIORITY) <==> x == r || x in rules
  {
    if rules != [] && BY_PRIORITY(r, rules[|rules| - 1]) {
      var front, last := rules[..|rules| - 1], rules[|rules| - 1];
      assert rules == front + [last];
      InsertedRulesFit(front, r);
      var s := Insert(front, r, BY_PRIORITY);
      forall i | 0 <= i < |s|
        ensures s[i].priority < last.priority
      {
        assert s[i] in s;
        assert forall j :: 0 <= j < |front| ==> front[j] == rules[j];
      }
    }
  }

  lemma {:induction false} GatheredRulesFit(xs: seq<RuleExport>, k: string)
    ensures Gathered(RULES, xs, k).Some? ==> RulesFit(Gathered(RULES, xs, k).value)
  {
    if xs != [] {
      var front, x := xs[..|xs| - 1], xs[|xs| - 1];
      GatheredRulesFit(front, k);
      var before := Gathered(RULES, front, k);
      if before.Some? && AddRule(before.value, x.rule).Some? {
        forall i | 0 <= i < |before.value|
          ensures before.value[i].priority != x.rule.priority
        {
          assert before.value[i] in before.value;
        }
        InsertedRulesFit(before.value, x.rule);
      }
      hide RulesFit;
    }
  }

  /** `e` may come last: its CRS rule is no smaller than those before and not yet listed for its path. */
  predicate ComesLast(es: seq<Exclusion>, e: Exclusion) {
    && 0 < e.crsRule
    && forall i :: 0 <= i < |es| ==>
         es[i].crsRule <= e.crsRule && (es[i].crsRule != e.crsRule || es[i].path != e.path)
  }

  lemma LastExclusion(es: seq<Exclusion>, e: Exclusion)
    ensures ExclusionsFit(es + [e]) <==> ExclusionsFit(es) && ComesLast(es, e)
  {
    var all := es + [e];
    assert all[|es|] == e;
    if ExclusionsFit(all) {
      forall i, j | 0 <= i < j < |es|
        ensures es[i].crsRule <= es[j].crsRule && (es[i].crsRule != es[j].crsRule || es[i].path != es[j].path)
      {
        assert all[i] == es[i] && all[j] == es[j];
      }
      forall i | 0 <= i < |es|
        ensures 0 < es[i].crsRule && es[i].crsRule <= e.crsRule && (es[i].crsRule != e.crsRule || es[i].path != e.path)
      {
        assert all[i] == es[i];
      }
    }
  }

  predicate IsNew(es: seq<Exclusion>, e: Exclusion) {
    0 < e.crsRule && forall d :: d in es ==> d.crsRule != e.crsRule || d.path != e.path
  }

  lemma ComesLastAmong(es: seq<Exclusion>, s: seq<Exclusion>, e: Exclusion, last: Exclusion)
    requires ComesLast(es, last) && IsNew(es + [last], e) && BY_CRS(e, last)
    requires forall x :: x in s <==> x == e || x in es
    ensures ComesLast(s, last)
  {
    forall i | 0 <= i < |s|
      ensures s[i].crsRule <= last.crsRule && (s[i].crsRule != last.crsRule || s[i].path != last.path)
    {
      assert s[i] in s;
    }
  }

  lemma {:induction false} InsertedExclusionsFit(es: seq<Exclusion>, e: Exclusion)
    requires ExclusionsFit(es) && IsNew(es, e)
    ensures ExclusionsFit(Insert(es, e, BY_CRS))
    ensures forall x :: x in Insert(es, e, BY_CRS) <==> x == e || x in es
  {
    if es == [] {
      LastExclusion([], e);
      assert [] + [e] == [e];
    } else {
      var front, last := es[..|es| - 1], es[|es| - 1];
      assert es == front + [last];
      LastExclusion(front, last);
      LastExclusion(es, e);
      if BY_CRS(e, last) {
        hide ExclusionsFit, ComesLast;
        InsertedExclusionsFit(front, e);
        ComesLastAmong(front, Insert(front, e, BY_CRS), e, last);
        LastExclusion(Insert(front, e, BY_CRS), last);
      } else {
        LastIsLargest(front, last, e);
      }
    }
  }

  lemma LastIsLargest(front: seq<Exclusion>, last: Exclusion, e: Exclusion)
    requires ComesLast(front, last) && IsNew(front + [last], e) && !BY_CRS(e, last)
    ensures ComesLast(front + [last], e)
  {
    var es := front + [last];
    forall i | 0 <= i < |es|
      ensures es[i].crsRule <= e.crsRule && (es[i].crsRule != e.crsRule || es[i].path != e.path)
    {
      assert es[i] in es;
    }
  }

  lemma {:induction false} AddedExclusionsFit(es: seq<Exclusion>, more: seq<Exclusion>)
    requires ExclusionsFit(es)
    ensures Fold(es, more, ADD_EXCLUSION).Some? ==> ExclusionsFit(Fold(es, more, ADD_EXCLUSION).value)
  {
    if more != [] {
      var front, e := more[..|more| - 1], more[|more| - 1];
      AddedExclusionsFit(es, front);
      var before := Fold(es, front, ADD_EXCLUSION);
      if before.Some? && ADD_EXCLUSION(before.value, e).Some? {
        assert IsNew(before.value, e);
        InsertedExclusionsFit(before.value, e);
      }
      hide ExclusionsFit;
    }
  }

  predicate PartFits(p: SecurityPart) {
    ExclusionsFit(p.exclusions) && (p.row.Some? ==> SecurityFits(p.row.value))
  }

  lemma {:induction false} GatheredSecurityFits(xs: seq<SecurityExport>, k: string)
    ensures Gathered(SECURITY, xs, k).Some? ==> PartFits(Gathered(SECURITY, xs, k).value)
  {
    if xs != [] {
      var front, x := xs[..|xs| - 1], xs[|xs| - 1];
      GatheredSecurityFits(front, k);
      var before := Gathered(SECURITY, front, k);
      if before.Some? {
        AddedExclusionsFit(before.value.exclusions, x.exclusions);
      }
      hide ExclusionsFit, SecurityFits, Fold;
    }
  }

  // ----- every row after an import -----

  lemma GroupRowsFit(m: map<string, GroupRow>, xs: seq<GroupExport>, n: string)
    requires forall x :: x in xs ==> GROUP_OK(x)
    requires forall k :: k in m ==> m[k].name == k && GroupFits(m[k].cols, m[k].targets)
    requires n in Upserted(m, m, xs, GROUP_NAME, WRITE_GROUP)
    ensures var g := Upserted(m, m, xs, GROUP_NAME, WRITE_GROUP)[n]; g.name == n && GroupFits(g.cols, g.targets)
    ensures n !in m ==> Upserted(m, m, xs, GROUP_NAME, WRITE_GROUP)[n].cols.expectStatus != ""
  {
    UpsertedAt(m, m, xs, GROUP_NAME, WRITE_GROUP, n);
    LastOfIsThere(xs, GROUP_NAME, n);
    hide Upserted, LastOf, GroupFits, KeysOf;
  }

  lemma WrittenChannel(mode: Mode, x: ChannelExport, was: Option<ChannelRow>)
    ensures WriteChannel(mode)(x, was).name == x.name && WriteChannel(mode)(x, was).kind == x.kind
  {
    hide IsEncrypted, SecretField;
  }

  lemma ChannelRowsFit(m: map<string, ChannelRow>, xs: seq<ChannelExport>, mode: Mode, n: string)
    requires forall x :: x in xs ==> CHANNEL_OK(x)
    requires forall k :: k in m ==> m[k].name == k && ChannelFits(m[k].kind)
    requires n in Upserted(m, m, xs, CHANNEL_NAME, WriteChannel(mode))
    ensures var c := Upserted(m, m, xs, CHANNEL_NAME, WriteChannel(mode))[n]; c.name == n && ChannelFits(c.kind)
  {
    UpsertedAt(m, m, xs, CHANNEL_NAME, WriteChannel(mode), n);
    LastOfIsThere(xs, CHANNEL_NAME, n);
    var last := LastOf(xs, CHANNEL_NAME, n);
    if last.Some? {
      WrittenChannel(mode, last.value, Get(m, n));
    }
    hide Upserted, LastOf, ChannelFits, WriteChannel, KeysOf;
  }

  /** The columns of a host after an import, without its parts. */
  lemma HostColsFit(h: HostView, k: string, before: map<string, HostView>, b: Bundle, groups: set<string>)
    requires HostIs(h, k, before, b)
    requires forall x :: x in b.hosts ==> HostOk(groups)(x)
    requires k in before ==> before[k].group in groups && HostFits(before[k].cols)
    ensures h.group in groups && HostFits(h.cols)
  {
    LastOfIsThere(b.hosts, HOST_NAME, k);
    hide LastOf, KeysOf, Gathered, HostFits, NormalHost;
  }

  lemma HostPartsFit(h: HostView, k: string, before: map<string, HostView>, b: Bundle)
    requires HostIs(h, k, before, b)
    requires k in before ==> RulesFit(before[k].rules) && PartFits(SECURITY.get(before[k]))
    ensures RulesFit(h.rules) && PartFits(SECURITY.get(h))
  {
    GatheredRulesFit(b.rules, k);
    GatheredSecurityFits(b.security, k);
    hide LastOf, KeysOf, Gathered, ExclusionsFit, SecurityFits, NormalHost;
    EmptyPartsFit();
    var last := LastOf(b.hosts, HOST_NAME, k);
    var base := if last.Some? then WRITE_HOST(last.value, Get(before, k)) else before[k];
    assert RulesFit(base.rules) && PartFits(SECURITY.get(base));
    hide RulesFit, PartFits;
  }

  lemma EmptyPartsFit()
    ensures RulesFit([]) && PartFits(SecurityPart(None, [], []))
  {
  }

  lemma PartsOfRow(h: HostView, groups: set<string>)
    ensures HostRowFits(h, groups)
            <==> h.group in groups && HostFits(h.cols) && RulesFit(h.rules) && PartFits(SECURITY.get(h))
  {
    hide HostFits, RulesFit, ExclusionsFit, SecurityFits;
  }

  lemma HostRowsFit(v: View, groups: set<string>, b: Bundle, mode: Mode)
    requires Clearable(v.hosts, mode) && HostsImported(v, groups, b, mode).Some?
    requires forall n :: n in v.hosts ==> HostRowFits(v.hosts[n], groups)
    ensures forall n :: n in HostsImported(v, groups, b, mode).value ==>
              HostRowFits(HostsImported(v, groups, b, mode).value[n], groups)
  {
    HostSide(v, groups, b, mode);
    var w := HostsImported(v, groups, b, mode).value;
    assert HostsAcceptable(b, groups);
    hide HostsImported, HostIs, HostRowFits, CanGather, HostOk, HostFits, RulesFit, PartFits;
    forall n | n in w
      ensures HostRowFits(w[n], groups)
    {
      if n in v.hosts {
        PartsOfRow(v.hosts[n], groups);
      }
      HostColsFit(w[n], n, v.hosts, b, groups);
      HostPartsFit(w[n], n, v.hosts, b);
      PartsOfRow(w[n], groups);
    }
  }

  lemma MoreGroups(h: HostView, groups: set<string>, more: set<string>)
    requires HostRowFits(h, groups) && groups <= more
    ensures HostRowFits(h, more)
  {
  }

  /** The group and channel loops of an import. */
  lemma ImportedTables(v: View, b: Bundle, mode: Mode, w: View)
    requires Imported(v, b, mode) == Some(w)
    ensures var from := Wiped(v, mode);
            && w.groups == Upserted(from.groups, from.groups, b.groups, GROUP_NAME, WRITE_GROUP)
            && w.channels == Upserted(from.channels, from.channels, b.channels, CHANNEL_NAME, WriteChannel(mode))
            && (forall x :: x in b.groups ==> GROUP_OK(x))
            && (forall x :: x in b.channels ==> CHANNEL_OK(x))
  {
    var from := Wiped(v, mode);
    GroupWritesAbsorb();
    hide Fold, Upsert, Upserted, HostsImported, WriteChannel, KeysOf, Absorbs, Settles, PutNotifies, Wiped,
        DistinctKeys;
    UpsertLoop(from.groups, b.groups, GROUP_NAME, GROUP_OK, WRITE_GROUP, mode.Replace?, None);
    UpsertLoop(from.channels, b.channels, CHANNEL_NAME, CHANNEL_OK, WriteChannel(mode), mode.Replace?,
        Some(from.channels));
  }

  lemma WipedSane(v: View, mode: Mode)
    requires Sane(v)
    ensures Sane(Wiped(v, mode)) && Clearable(Wiped(v, mode).hosts, mode) && Linked(Wiped(v, mode))
  {
    assert forall n :: n in v.hosts ==> HostRowFits(v.hosts[n], v.groups.Keys);
    hide HostFits, RulesFit, ExclusionsFit, SecurityFits, RuleFits, GroupFits, ChannelFits;
  }

  lemma SaneTables(v: View, b: Bundle, mode: Mode, w: View)
    requires Sane(v) && Imported(v, b, mode) == Some(w)
    ensures forall n :: n in w.groups ==> w.groups[n].name == n && GroupFits(w.groups[n].cols, w.groups[n].targets)
    ensures forall n :: n in w.channels ==> w.channels[n].name == n && ChannelFits(w.channels[n].kind)
    ensures mode.Replace? ==> forall n :: n in w.groups ==> w.groups[n].cols.expectStatus != ""
  {
    var from := Wiped(v, mode);
    WipedSane(v, mode);
    ImportedTables(v, b, mode, w);
    assert mode.Replace? ==> from.groups == map[];
    hide Imported, Wiped, Upserted, GroupFits, ChannelFits, HostRowFits, RuleFits, WriteChannel;
    forall n | n in w.groups
      ensures w.groups[n].name == n && GroupFits(w.groups[n].cols, w.groups[n].targets)
      ensures mode.Replace? ==> w.groups[n].cols.expectStatus != ""
    {
      GroupRowsFit(from.groups, b.groups, n);
    }
    forall n | n in w.channels
      ensures w.channels[n].name == n && ChannelFits(w.channels[n].kind)
    {
      ChannelRowsFit(from.channels, b.channels, mode, n);
    }
  }

  lemma SaneHosts(v: View, b: Bundle, mode: Mode, w: View)
    requires Sane(v) && Imported(v, b, mode) == Some(w)
    ensures forall n :: n in w.hosts ==> HostRowFits(w.hosts[n], w.groups.Keys)
  {
    var from := Wiped(v, mode);
    WipedSane(v, mode);
    ImportedParts(v, b, mode, w);
    hide Imported, Wiped, HostsImported, HostRowFits, Clearable, GroupFits, ChannelFits, RuleFits, PutNotifies;
    forall n | n in from.hosts
      ensures HostRowFits(from.hosts[n], w.groups.Keys)
    {
      MoreGroups(from.hosts[n], from.groups.Keys, w.groups.Keys);
    }
    HostRowsFit(from, w.groups.Keys, b, mode);
  }

  /** Every import that succeeds leaves a configuration whose rows meet their
      constraints and whose references lead to rows. */
  lemma ImportsKeepSane(v: View, b: Bundle, mode: Mode, w: View)
    requires Sane(v) && Imported(v, b, mode) == Some(w)
    ensures Sane(w)
  {
    SaneTables(v, b, mode, w);
    SaneHosts(v, b, mode, w);
    WipedSane(v, Merge);
    assert Wiped(v, Merge) == v;
    ImportsKeepReferences(v, b, mode, w);
    hide Imported, HostRowFits, GroupFits, ChannelFits, RuleFits;
  }

  /** The configuration of a new panel. */
  lemma EmptyIsSane()
    ensures Sane(View(map[], map[], map[], [], map[]))
  {
  }

  // ----- the second round trip -----

  /** Equal bundles up to the order of the notification rules. */
  ghost predicate EqualBundles(a: Bundle, b: Bundle) {
    && a.groups == b.groups && a.hosts == b.hosts && a.rules == b.rules && a.security == b.security
    && a.channels == b.channels && a.settings == b.settings
    && multiset(a.notify) == multiset(b.notify)
  }

  /** What any replacing import leaves behind survives the round trip, but for channels with a secret. */
  lemma ReplacedComesBack(v: View, b: Bundle, w: View)
    requires Sane(v) && Imported(v, b, Replace) == Some(w)
    ensures Sane(w) && Imported(w, Exported(w), Replace).Some?
    ensures SameBundle(Exported(w), Exported(Imported(w, Exported(w), Replace).value))
  {
    hide *;
    ImportsKeepSane(v, b, Replace, w);
    SaneTables(v, b, Replace, w);
    ReplaceRoundTrip(w);
  }

  lemma OffStaysOff(c: ChannelRow)
    ensures DisabledIfSecret(ExportOf(Stripped(c))) == ExportOf(Stripped(c))
  {
    ChannelSame(c);
    hide ExportOf, Stripped;
  }

  lemma StrippedChannels(v: View, w: View)
    requires Sane(w) && forall n :: n in w.channels ==> n in v.channels && w.channels[n] == Stripped(v.channels[n])
    ensures forall i :: 0 <= i < |Exported(w).channels| ==>
              DisabledIfSecret(Exported(w).channels[i]) == Exported(w).channels[i]
  {
    hide *;
    ChannelEntries(w, w.channels.Keys);
    var xs := Exported(w).channels;
    forall i | 0 <= i < |xs|
      ensures DisabledIfSecret(xs[i]) == xs[i]
    {
      OffStaysOff(v.channels[CHANNEL_NAME(xs[i])]);
    }
  }

  lemma EqualIf(a: Bundle, b: Bundle)
    requires SameBundle(a, b) && forall i :: 0 <= i < |a.channels| ==> DisabledIfSecret(a.channels[i]) == a.channels[i]
    ensures EqualBundles(a, b)
  {
    hide DisabledIfSecret;
  }

  /** One round trip reaches a fixpoint: replacing a configuration by its own
      export, the next one exports the same bundle again. */
  lemma RoundTripReachesFixpoint(v: View)
    requires Sane(v)
    ensures Imported(v, Exported(v), Replace).Some?
    ensures var w := Imported(v, Exported(v), Replace).value;
            && Sane(w) && Imported(w, Exported(w), Replace).Some?
            && EqualBundles(Exported(w), Exported(Imported(w, Exported(w), Replace).value))
  {
    hide *;
    ReplacingByOwnExport(v);
    var w := Imported(v, Exported(v), Replace).value;
    ReplacedComesBack(v, Exported(v), w);
    StrippedChannels(v, w);
    EqualIf(Exported(w), Exported(Imported(w, Exported(w), Replace).value));
  }
}
