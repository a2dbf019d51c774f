/** The order of an exported bundle: every list is sorted as its readers see it,
    and rules of one name keep the youngest first. */
module ExportOrder {
  import opened Basics
  import opened Upserts
  import opened Ordering
  import opened ConfigModel
  import opened ConfigLaws
  import opened ConfigRoundTrip

  /** `a` runs out, or is smaller, at the first place where the two differ. */
  ghost predicate Before(a: string, b: string) {
    exists k: nat :: DiffersAt(a, b, k)
  }

  predicate DiffersAt(a: string, b: string, k: nat) {
    k <= |a| && k < |b| && a[..k] == b[..k] && (k == |a| || a[k] < b[k])
  }

  lemma {:induction false} BeforeIsLess(a: string, b: string)
    ensures Less(a, b) <==> Before(a, b)
  {
    if b != "" && a != "" && a[0] == b[0] {
      BeforeIsLess(a[1..], b[1..]);
      if Less(a, b) {
        var k: nat :| DiffersAt(a[1..], b[1..], k);
        assert a[..k + 1] == [a[0]] + a[1..][..k] && b[..k + 1] == [b[0]] + b[1..][..k];
        assert DiffersAt(a, b, k + 1);
      }
      if k: nat :| DiffersAt(a, b, k) {
        assert a[1..][..k - 1] == a[..k][1..] && b[1..][..k - 1] == b[..k][1..];
        assert DiffersAt(a[1..], b[1..], k - 1);
      }
    } else {
      if Less(a, b) {
        assert DiffersAt(a, b, 0);
      }
      if k: nat :| DiffersAt(a, b, k) && k > 0 {
        assert a[..k][0] == b[..k][0];
      }
    }
  }

  ghost predicate Ascend(names: seq<string>) {
    forall i, j :: 0 <= i < j < |names| ==> Before(names[i], names[j])
  }

  lemma ListingAscends(s: set<string>)
    ensures Ascend(Listing(s))
  {
    ListingLists(s);
    forall i, j | 0 <= i < j < |Listing(s)|
      ensures Before(Listing(s)[i], Listing(s)[j])
    {
      BeforeIsLess(Listing(s)[i], Listing(s)[j]);
    }
    hide Before, Less, Listing;
  }

  lemma NamesAscend<X>(xs: seq<X>, s: set<string>, key: X -> string)
    requires OnePerName(xs, Listing(s), key)
    ensures Ascend(Mapped(xs, key))
  {
    ListingAscends(s);
    assert Mapped(xs, key) == Listing(s);
    hide Before;
  }

  /** By host, and within a host by priority. */
  ghost predicate RulesAscend(xs: seq<RuleExport>) {
    forall i, j :: 0 <= i < j < |xs| ==>
      Before(xs[i].host, xs[j].host) || (xs[i].host == xs[j].host && xs[i].rule.priority < xs[j].rule.priority)
  }

  lemma {:induction false} RuleListAscends(v: View, names: seq<string>)
    requires Ascend(names)
    requires forall i :: 0 <= i < |names| ==> names[i] in v.hosts && RulesFit(v.hosts[names[i]].rules)
    ensures RulesAscend(RuleExports(v, names)) && forall x :: x in RuleExports(v, names) ==> x.host in names
  {
    if names != [] {
      var front, last := names[..|names| - 1], names[|names| - 1];
      assert names == front + [last];
      RuleListAscends(v, front);
      var earlier, own := RuleExports(v, front), RulesOfHost(last, v.hosts[last].rules);
      assert RuleExports(v, names) == earlier + own;
      hide RuleExports, Before;
      forall i | 0 <= i < |earlier|
        ensures earlier[i].host in front && Before(earlier[i].host, last)
      {
        assert earlier[i] in earlier;
        var k :| 0 <= k < |front| && front[k] == earlier[i].host;
        assert names[k] == front[k] && names[|front|] == last;
      }
    }
  }

  // ----- notification rules -----

  const RULE_NAME: NotifyExport -> string := (x: NotifyExport) => x.name

  lemma {:induction false} InsertedNames(xs: seq<NotifyExport>, x: NotifyExport)
    ensures Mapped(Insert(xs, x, BY_NAME), RULE_NAME) == Insert(Mapped(xs, RULE_NAME), x.name, IN_ORDER)
  {
    if xs != [] {
      var front, last := xs[..|xs| - 1], xs[|xs| - 1];
      InsertedNames(front, x);
      assert Mapped(front, RULE_NAME) == Mapped(xs, RULE_NAME)[..|xs| - 1];
    }
  }

  lemma {:induction false} SortedNames(xs: seq<NotifyExport>)
    ensures Mapped(InsertAll([], xs, BY_NAME), RULE_NAME) == SortStrings(Mapped(xs, RULE_NAME))
  {
    if xs != [] {
      var front, last := xs[..|xs| - 1], xs[|xs| - 1];
      SortedNames(front);
      InsertedNames(InsertAll([], front, BY_NAME), last);
      assert Mapped(front, RULE_NAME) == Mapped(xs, RULE_NAME)[..|xs| - 1];
    }
  }

  /** The entries of one name, in order. */
  function OfName(xs: seq<NotifyExport>, n: string): seq<NotifyExport> {
    if xs == [] then []
    else OfName(xs[..|xs| - 1], n) + if xs[|xs| - 1].name == n then [xs[|xs| - 1]] else []
  }

  lemma OfNameOneMore(xs: seq<NotifyExport>, x: NotifyExport, n: string)
    ensures OfName(xs + [x], n) == OfName(xs, n) + if x.name == n then [x] else []
  {
    assert (xs + [x])[..|xs|] == xs;
  }

  lemma {:induction false} InsertedOfName(xs: seq<NotifyExport>, x: NotifyExport, n: string)
    ensures OfName(Insert(xs, x, BY_NAME), n) == OfName(xs, n) + if x.name == n then [x] else []
  {
    if xs == [] || !BY_NAME(x, xs[|xs| - 1]) {
      OfNameOneMore(xs, x, n);
    } else {
      var front, last := xs[..|xs| - 1], xs[|xs| - 1];
      InsertedOfName(front, x, n);
      OfNameOneMore(Insert(front, x, BY_NAME), last, n);
      Irreflexive(x.name);
    }
  }

  lemma {:induction false} SortedOfName(xs: seq<NotifyExport>, n: string)
    ensures OfName(InsertAll([], xs, BY_NAME), n) == OfName(xs, n)
  {
    if xs != [] {
      SortedOfName(xs[..|xs| - 1], n);
      InsertedOfName(InsertAll([], xs[..|xs| - 1], BY_NAME), xs[|xs| - 1], n);
    }
  }

  /** The rules of one name, oldest first. */
  function RulesOfName(rules: seq<RuleView>, n: string): seq<RuleView> {
    if rules == [] then []
    else RulesOfName(rules[..|rules| - 1], n) + if rules[|rules| - 1].name == n then [rules[|rules| - 1]] else []
  }

  lemma OfNameInFront(x: NotifyExport, xs: seq<NotifyExport>, n: string)
    ensures OfName([x] + xs, n) == (if x.name == n then [x] else []) + OfName(xs, n)
  {
    if xs != [] {
      var front := xs[..|xs| - 1];
      OfNameInFront(x, front, n);
      assert ([x] + xs)[..|xs|] == [x] + front;
    }
  }

  lemma {:induction false} YoungestOfName(rules: seq<RuleView>, n: string)
    ensures OfName(Youngest(rules), n) == Youngest(RulesOfName(rules, n))
  {
    if rules != [] {
      var front, last := rules[..|rules| - 1], rules[|rules| - 1];
      YoungestOfName(front, n);
      OfNameInFront(NotifyOf(last), Youngest(front), n);
      var kept := RulesOfName(front, n);
      assert (kept + [last])[..|kept|] == kept;
      assert kept + [] == kept && [] + Youngest(kept) == Youngest(kept);
      assert [] + OfName(Youngest(front), n) == OfName(Youngest(front), n);
      NameStays(last);
      hide NotifyOf;
    }
  }

  /** Hosts, groups, security entries and channels leave in ascending order of
      their names, rules by host and priority, and notification rules by name,
      those of one name the youngest first. */
  lemma ExportIsSorted(v: View, n: string)
    requires Sane(v)
    ensures var b := Exported(v);
            && Ascend(Mapped(b.groups, GROUP_NAME))
            && Ascend(Mapped(b.hosts, HOST_NAME))
            && Ascend(Mapped(b.security, SECURITY.key))
            && Ascend(Mapped(b.channels, CHANNEL_NAME))
            && RulesAscend(b.rules)
            && (forall i, j :: 0 <= i < j < |b.notify| ==> !Before(b.notify[j].name, b.notify[i].name))
            && var own := RulesOfName(v.rules, n);
               && |OfName(b.notify, n)| == |own|
               && forall i :: 0 <= i < |own| ==> OfName(b.notify, n)[i] == NotifyOf(own[|own| - 1 - i])
  {
    var b, xs := Exported(v), Youngest(v.rules);
    var groups, hosts, channels := v.groups.Keys, v.hosts.Keys, v.channels.Keys;
    GroupsListed(v, groups);
    HostsListed(v, hosts);
    ChannelsListed(v, channels);
    NamesAscend(b.groups, groups, GROUP_NAME);
    NamesAscend(b.hosts, hosts, HOST_NAME);
    NamesAscend(b.security, hosts, SECURITY.key);
    NamesAscend(b.channels, channels, CHANNEL_NAME);
    ListingAscends(hosts);
    RuleListAscends(v, Listing(hosts));
    assert b.notify == InsertAll([], xs, BY_NAME);
    hide *;
    NotifyIsSorted(xs);
    SortedOfName(xs, n);
    YoungestOfName(v.rules, n);
    YoungestEntries(RulesOfName(v.rules, n));
  }

  lemma NotifyIsSorted(xs: seq<NotifyExport>)
    ensures var s := InsertAll([], xs, BY_NAME);
            forall i, j :: 0 <= i < j < |s| ==> !Before(s[j].name, s[i].name)
  {
    var s := InsertAll([], xs, BY_NAME);
    SortedNames(xs);
    SortAscends(Mapped(xs, RULE_NAME));
    forall i, j | 0 <= i < j < |s|
      ensures !Before(s[j].name, s[i].name)
    {
      assert Mapped(s, RULE_NAME)[i] == s[i].name && Mapped(s, RULE_NAME)[j] == s[j].name;
      BeforeIsLess(s[j].name, s[i].name);
    }
    hide Before, Less, InsertAll;
  }
}
