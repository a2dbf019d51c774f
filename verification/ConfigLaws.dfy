/** Laws of export and import: merging twice is merging once, merging one's own
    export back changes nothing, replacing by one's own export restores it. */
module ConfigLaws {
  import opened Basics
  import opened Upserts
  import opened Ordering
  import opened ConfigModel

  // ----- the writes -----

  lemma GroupWritesAbsorb()
    ensures Absorbs(WRITE_GROUP) && Settles(WRITE_GROUP)
  {
  }

  lemma HostWritesAbsorb()
    ensures Absorbs(WRITE_HOST)
  {
  }

  lemma ChannelWritesSettle()
    ensures Settles(WriteChannel(Merge))
  {
    forall c: ChannelExport, o: Option<ChannelRow>
      ensures WriteChannel(Merge)(c, Some(WriteChannel(Merge)(c, o))) == WriteChannel(Merge)(c, o)
    {
      ChannelSettles(c, o);
    }
  }

  lemma PlainTexts()
    ensures !IsEncrypted(Text("")) && !IsEncrypted(Placeholder())
  {
    assert "__REDACTED__"[0] != "argos1:"[0];
  }

  lemma ChannelSettles(c: ChannelExport, o: Option<ChannelRow>)
    ensures WriteChannel(Merge)(c, Some(WriteChannel(Merge)(c, o))) == WriteChannel(Merge)(c, o)
  {
    var f := SecretField(c.kind);
    if f.Some? && f.value in c.config && c.config[f.value] == Placeholder() {
      PlainTexts();
      hide SecretField;
    }
  }

  lemma PartsAreFields()
    ensures IsField(RULES) && IsField(SECURITY)
  {
  }

  // ----- hosts after an import -----

  /** The conditions under which the host side of an import succeeds. */
  ghost predicate HostsAcceptable(b: Bundle, groups: set<string>) {
    && (forall x :: x in b.hosts ==> HostOk(groups)(x))
    && CanGather(RULES, b.rules, KeysOf(b.hosts, HOST_NAME))
    && CanGather(SECURITY, b.security, KeysOf(b.hosts, HOST_NAME))
  }

  /** The host of a row before an import, with the bundle's entries put into it. */
  ghost predicate HostIs(h: HostView, k: string, before: map<string, HostView>, b: Bundle) {
    var last := LastOf(b.hosts, HOST_NAME, k);
    var base := if last.Some? then Some(WRITE_HOST(last.value, Get(before, k))) else Get(before, k);
    && base.Some?
    && h == (var ruled := if k in KeysOf(b.rules, RULES.key) && Gathered(RULES, b.rules, k).Some?
                          then base.value.(rules := Gathered(RULES, b.rules, k).value) else base.value;
             if k in KeysOf(b.security, SECURITY.key) && Gathered(SECURITY, b.security, k).Some?
             then SECURITY.put(ruled, Gathered(SECURITY, b.security, k).value) else ruled)
  }

  /** Fresh hosts have empty parts, which a replacing import relies on. */
  ghost predicate Clearable(before: map<string, HostView>, mode: Mode) {
    mode.Merge? || before == map[]
  }

  lemma HostLoop(v: View, groups: set<string>, b: Bundle, mode: Mode)
    requires Clearable(v.hosts, mode)
    ensures var hosts := Fold(v.hosts, b.hosts, Upsert(HOST_NAME, HostOk(groups), WRITE_HOST, mode.Replace?, None));
            && (hosts.Some? <==> (forall x :: x in b.hosts ==> HostOk(groups)(x))
                                 && (mode.Replace? ==> DistinctKeys(b.hosts, HOST_NAME)))
            && (hosts.Some? ==> hosts.value == Upserted(v.hosts, v.hosts, b.hosts, HOST_NAME, WRITE_HOST)
                                && hosts.value.Keys == v.hosts.Keys + KeysOf(b.hosts, HOST_NAME)
                                && (mode.Replace? ==> forall k :: k in hosts.value ==> Untouched(hosts.value[k])))
  {
    HostWritesAbsorb();
    UpsertLoop(v.hosts, b.hosts, HOST_NAME, HostOk(groups), WRITE_HOST, mode.Replace?, None);
    UpsertedKeys(v.hosts, v.hosts, b.hosts, HOST_NAME, WRITE_HOST);
    hide Upserted, Upsert, HostOk, KeysOf, DistinctKeys, Absorbs;
    if mode.Replace? {
      var hosts := Upserted(v.hosts, v.hosts, b.hosts, HOST_NAME, WRITE_HOST);
      forall k | k in hosts
        ensures Untouched(hosts[k])
      {
        UpsertedAt(v.hosts, v.hosts, b.hosts, HOST_NAME, WRITE_HOST, k);
      }
    }
  }

  predicate Untouched(h: HostView) {
    h.rules == [] && h.security == None && h.exclusions == [] && h.customRules == []
  }

  lemma StillEmpty(hosts: map<string, HostView>, b: Bundle, ruled: map<string, HostView>, k: string)
    requires FilledRow(RULES, hosts, b.rules, ruled, k) && Untouched(hosts[k])
    ensures SECURITY.get(ruled[k]) == SECURITY.empty
  {
    hide Gathered, KeysOf;
  }

  lemma HostBecomes(
      before: map<string, HostView>, hosts: map<string, HostView>, b: Bundle, ruled: map<string, HostView>,
      secured: map<string, HostView>, k: string)
    requires hosts == Upserted(before, before, b.hosts, HOST_NAME, WRITE_HOST)
    requires FilledRow(RULES, hosts, b.rules, ruled, k) && FilledRow(SECURITY, ruled, b.security, secured, k)
    ensures HostIs(secured[k], k, before, b)
  {
    hide Gathered, KeysOf, Upserted, LastOf;
    UpsertedAt(before, before, b.hosts, HOST_NAME, WRITE_HOST, k);
  }

  /** The host side of an import: when it succeeds and what each host becomes. */
  lemma HostSide(v: View, groups: set<string>, b: Bundle, mode: Mode)
    requires Clearable(v.hosts, mode)
    ensures var r := HostsImported(v, groups, b, mode);
            && (r.Some? <==> HostsAcceptable(b, groups) && (mode.Replace? ==> DistinctKeys(b.hosts, HOST_NAME)))
            && (r.Some? ==> r.value.Keys == v.hosts.Keys + KeysOf(b.hosts, HOST_NAME)
                            && forall k :: k in r.value ==> HostIs(r.value[k], k, v.hosts, b))
  {
    var named := KeysOf(b.hosts, HOST_NAME);
    HostLoop(v, groups, b, mode);
    PartsAreFields();
    var hosts := Fold(v.hosts, b.hosts, Upsert(HOST_NAME, HostOk(groups), WRITE_HOST, mode.Replace?, None));
    hide IsField, Upsert, HostOk, CanGather, DistinctKeys, Gathered, KeysOf, Fill, Fold, HostIs, FilledRow, Upserted;
    if hosts.Some? {
      FillLoop(RULES, hosts.value, b.rules, named, mode.Merge?);
      var ruled := Fold(Filling(hosts.value, {}), b.rules, Fill(RULES, named, mode.Merge?));
      if ruled.Some? {
        forall k | mode.Replace? && k in named
          ensures SECURITY.get(ruled.value.rows[k]) == SECURITY.empty
        {
          assert FilledRow(RULES, hosts.value, b.rules, ruled.value.rows, k);
          StillEmpty(hosts.value, b, ruled.value.rows, k);
        }
        FillLoop(SECURITY, ruled.value.rows, b.security, named, mode.Merge?);
        var secured := Fold(Filling(ruled.value.rows, {}), b.security, Fill(SECURITY, named, mode.Merge?));
        if secured.Some? {
          forall k | k in secured.value.rows
            ensures HostIs(secured.value.rows[k], k, v.hosts, b)
          {
            assert FilledRow(RULES, hosts.value, b.rules, ruled.value.rows, k);
            assert FilledRow(SECURITY, ruled.value.rows, b.security, secured.value.rows, k);
            HostBecomes(v.hosts, hosts.value, b, ruled.value.rows, secured.value.rows, k);
          }
        }
      }
    }
  }

  // ----- merging twice -----

  /** A host that already is what the bundle makes of it stays as it is. */
  lemma HostStays(
      h: HostView, again: HostView, k: string, before: map<string, HostView>, w: map<string, HostView>, b: Bundle)
    requires k in w && w[k] == h && HostIs(h, k, before, b) && HostIs(again, k, w, b)
    ensures again == h
  {
    hide Gathered, KeysOf;
  }

  lemma HostsMergeTwice(v: View, w: View, groups: set<string>, b: Bundle)
    requires HostsImported(v, groups, b, Merge) == Some(w.hosts)
    ensures HostsImported(w, groups, b, Merge) == Some(w.hosts)
  {
    hide HostsImported, HostIs, HostsAcceptable;
    HostSide(v, groups, b, Merge);
    HostSide(w, groups, b, Merge);
    assert HostsImported(w, groups, b, Merge).Some?;
    var again := HostsImported(w, groups, b, Merge).value;
    forall k | k in w.hosts
      ensures k in again && again[k] == w.hosts[k]
    {
      HostStays(w.hosts[k], again[k], k, v.hosts, w.hosts, b);
    }
    assert again.Keys == w.hosts.Keys;
    assert again == w.hosts;
  }

  lemma {:induction false} WithoutConcat(a: seq<RuleView>, b: seq<RuleView>, name: string)
    ensures Without(a + b, name) == Without(a, name) + Without(b, name)
  {
    hide Without;
    if b == [] {
      assert a + b == a;
      NothingWithout(name);
    } else {
      var front, last := b[..|b| - 1], b[|b| - 1];
      WithoutConcat(a, front, name);
      assert a + b == (a + front) + [last] && b == front + [last];
      WithoutOneMore(a + front, last, name);
      WithoutOneMore(front, last, name);
    }
  }

  lemma {:induction false} WithoutTwice(rules: seq<RuleView>, n: string, m: string)
    ensures Without(Without(rules, n), m) == Without(Without(rules, m), n)
    ensures Without(Without(rules, n), n) == Without(rules, n)
  {
    if rules != [] {
      var front, last := rules[..|rules| - 1], rules[|rules| - 1];
      assert rules == front + [last];
      WithoutTwice(front, n, m);
      hide Without;
      WithoutOneMore(front, last, n);
      WithoutOneMore(front, last, m);
      WithoutOneMore(Without(front, n), last, m);
      WithoutOneMore(Without(front, n), last, n);
      WithoutOneMore(Without(front, m), last, n);
    }
  }

  /** The rules without those of all names the bundle writes. */
  function WithoutAll(rules: seq<RuleView>, xs: seq<NotifyExport>, channels: set<string>): seq<RuleView> {
    if xs == [] then rules
    else
      var rest := WithoutAll(rules, xs[..|xs| - 1], channels);
      if xs[|xs| - 1].channel in channels then Without(rest, xs[|xs| - 1].name) else rest
  }

  lemma {:induction false} WithoutLast(rules: seq<RuleView>, xs: seq<NotifyExport>, channels: set<string>, n: string)
    ensures Without(WithoutAll(rules, xs, channels), n) == WithoutAll(Without(rules, n), xs, channels)
  {
    if xs != [] {
      var front, x := xs[..|xs| - 1], xs[|xs| - 1];
      WithoutLast(rules, front, channels, n);
      WithoutTwice(WithoutAll(rules, front, channels), x.name, n);
    }
  }

  /** Merging notification rules: the named ones go, those of the bundle come last. */
  lemma {:induction false} MergedRules(
      rules: seq<RuleView>, xs: seq<NotifyExport>, channels: set<string>, hosts: set<string>)
    ensures PutNotifies(rules, xs, channels, hosts, Merge)
         == WithoutAll(rules, xs, channels) + PutNotifies([], xs, channels, hosts, Merge)
  {
    if xs == [] {
      assert rules + [] == rules;
    } else {
      var front, x := xs[..|xs| - 1], xs[|xs| - 1];
      MergedRules(rules, front, channels, hosts);
      hide Without;
      var kept, put := WithoutAll(rules, front, channels), PutNotifies([], front, channels, hosts, Merge);
      WithoutConcat(kept, put, x.name);
      assert (Without(kept, x.name) + Without(put, x.name)) + [NotifyView(x, hosts)]
          == Without(kept, x.name) + (Without(put, x.name) + [NotifyView(x, hosts)]);
    }
  }

  /** None of the rules the bundle brings survives the deletions it asks for. */
  lemma {:induction false} BroughtRulesGo(xs: seq<NotifyExport>, channels: set<string>, hosts: set<string>)
    ensures WithoutAll(PutNotifies([], xs, channels, hosts, Merge), xs, channels) == []
  {
    if xs != [] {
      var front, x := xs[..|xs| - 1], xs[|xs| - 1];
      BroughtRulesGo(front, channels, hosts);
      var put := PutNotifies([], front, channels, hosts, Merge);
      if x.channel in channels {
        hide PutNotifies, Without;
        WithoutLast(Without(put, x.name) + [NotifyView(x, hosts)], front, channels, x.name);
        WithoutOneMore(Without(put, x.name), NotifyView(x, hosts), x.name);
        WithoutTwice(put, x.name, x.name);
        WithoutLast(put, front, channels, x.name);
        assert Without([], x.name) == [] by { NothingWithout(x.name); }
      }
    }
  }

  lemma NothingWithout(n: string)
    ensures Without([], n) == []
  {
  }

  lemma RulesMergeTwice(rules: seq<RuleView>, xs: seq<NotifyExport>, channels: set<string>, hosts: set<string>)
    ensures var w := PutNotifies(rules, xs, channels, hosts, Merge); PutNotifies(w, xs, channels, hosts, Merge) == w
  {
    var put, w := PutNotifies([], xs, channels, hosts, Merge), PutNotifies(rules, xs, channels, hosts, Merge);
    MergedRules(rules, xs, channels, hosts);
    MergedRules(w, xs, channels, hosts);
    WithoutAllConcat(WithoutAll(rules, xs, channels), put, xs, channels);
    BroughtRulesGo(xs, channels, hosts);
    WithoutAllTwice(rules, xs, channels);
  }

  lemma {:induction false} WithoutAllConcat(
      a: seq<RuleView>, b: seq<RuleView>, xs: seq<NotifyExport>, channels: set<string>)
    ensures WithoutAll(a + b, xs, channels) == WithoutAll(a, xs, channels) + WithoutAll(b, xs, channels)
  {
    if xs != [] {
      var front, x := xs[..|xs| - 1], xs[|xs| - 1];
      WithoutAllConcat(a, b, front, channels);
      WithoutConcat(WithoutAll(a, front, channels), WithoutAll(b, front, channels), x.name);
    }
  }

  lemma {:induction false} WithoutAllTwice(rules: seq<RuleView>, xs: seq<NotifyExport>, channels: set<string>)
    ensures WithoutAll(WithoutAll(rules, xs, channels), xs, channels) == WithoutAll(rules, xs, channels)
  {
    if xs != [] {
      var front, x := xs[..|xs| - 1], xs[|xs| - 1];
      WithoutAllTwice(rules, front, channels);
      if x.channel in channels {
        WithoutLast(WithoutAll(rules, front, channels), front, channels, x.name);
        WithoutTwice(WithoutAll(rules, front, channels), x.name, x.name);
      }
    }
  }

  lemma SettingsTwice(settings: map<string, string>, given: map<string, string>)
    ensures PutSettings(PutSettings(settings, given), given) == PutSettings(settings, given)
  {
    hide Exportable;
  }

  /** Merging a bundle a second time succeeds and changes nothing. */
  lemma MergingTwiceIsMergingOnce(v: View, b: Bundle, w: View)
    requires Imported(v, b, Merge) == Some(w)
    ensures Imported(w, b, Merge) == Some(w)
  {
    GroupWritesAbsorb();
    ChannelWritesSettle();
    UpsertLoop(v.groups, b.groups, GROUP_NAME, GROUP_OK, WRITE_GROUP, false, None);
    UpsertLoop(w.groups, b.groups, GROUP_NAME, GROUP_OK, WRITE_GROUP, false, None);
    UpsertedTwice(v.groups, b.groups, GROUP_NAME, WRITE_GROUP);
    HostsMergeTwice(v, w, w.groups.Keys, b);
    UpsertLoop(v.channels, b.channels, CHANNEL_NAME, CHANNEL_OK, WriteChannel(Merge), false, Some(v.channels));
    UpsertLoop(w.channels, b.channels, CHANNEL_NAME, CHANNEL_OK, WriteChannel(Merge), false, Some(w.channels));
    UpsertedTwice(v.channels, b.channels, CHANNEL_NAME, WriteChannel(Merge));
    RulesMergeTwice(v.rules, b.notify, w.channels.Keys, w.hosts.Keys);
    SettingsTwice(v.settings, b.settings);
    hide PutSettings, Fold, Upsert, Upserted, HostsImported, PutNotifies, WriteChannel, Absorbs, Settles, Exportable;
  }
}
