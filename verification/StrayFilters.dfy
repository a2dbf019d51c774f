/** Notification rules that filter on host ids no host had when they were stored:
    what an import that gives out such an id does to them. */
module StrayFilters {
  import opened Basics
  import opened Upserts
  import opened ConfigModel
  import opened ConfigTables
  import opened ConfigLaws

  // ----- which rules a merge keeps -----

  /** The rules whose name is not among `names`. */
  function Unnamed(rules: seq<RuleView>, names: set<string>): seq<RuleView> {
    if rules == [] then []
    else
      var last := rules[|rules| - 1];
      Unnamed(rules[..|rules| - 1], names) + if last.name in names then [] else [last]
  }

  /** The names of the entries an import writes. */
  function WrittenNames(xs: seq<NotifyExport>, channels: set<string>): set<string> {
    set k | 0 <= k < |xs| && xs[k].channel in channels :: xs[k].name
  }

  lemma {:induction false} UnnamedOneMore(rules: seq<RuleView>, names: set<string>, n: string)
    ensures Unnamed(rules, {}) == rules
    ensures Without(Unnamed(rules, names), n) == Unnamed(rules, names + {n})
  {
    if rules != [] {
      var front, last := rules[..|rules| - 1], rules[|rules| - 1];
      UnnamedOneMore(front, names, n);
      assert rules == front + [last] && Unnamed(rules, {}) == Unnamed(front, {}) + [last];
      if last.name in names {
        assert Unnamed(rules, names) == Unnamed(front, names);
      } else {
        assert Unnamed(rules, names) == Unnamed(front, names) + [last];
        WithoutOneMore(Unnamed(front, names), last, n);
      }
      hide Without;
    }
  }

  lemma WrittenOneMore(xs: seq<NotifyExport>, x: NotifyExport, channels: set<string>)
    ensures WrittenNames(xs + [x], channels)
         == WrittenNames(xs, channels) + if x.channel in channels then {x.name} else {}
  {
    var all := xs + [x];
    assert all[|xs|] == x && forall k :: 0 <= k < |xs| ==> all[k] == xs[k];
  }

  /** All deletions of a merge at once. */
  lemma {:induction false} WithoutAllIs(rules: seq<RuleView>, xs: seq<NotifyExport>, channels: set<string>)
    ensures WithoutAll(rules, xs, channels) == Unnamed(rules, WrittenNames(xs, channels))
  {
    if xs == [] {
      assert WrittenNames(xs, channels) == {};
      UnnamedOneMore(rules, {}, "");
    } else {
      var front, x := xs[..|xs| - 1], xs[|xs| - 1];
      WithoutAllIs(rules, front, channels);
      assert xs == front + [x];
      WrittenOneMore(front, x, channels);
      UnnamedOneMore(rules, WrittenNames(front, channels), x.name);
      hide Unnamed, WrittenNames, Without;
      assert WrittenNames(front, channels) + {} == WrittenNames(front, channels);
    }
  }

  ghost predicate SameNames(a: seq<RuleView>, b: seq<RuleView>) {
    |a| == |b| && forall k :: 0 <= k < |a| ==> a[k].name == b[k].name
  }

  /** The rules agree but for the named ones. */
  ghost predicate AgreeBut(a: seq<RuleView>, b: seq<RuleView>, names: set<string>)
    requires |a| == |b|
  {
    forall k :: 0 <= k < |a| && a[k].name !in names ==> a[k] == b[k]
  }

  lemma AgreeOneMore(a: seq<RuleView>, x: RuleView, b: seq<RuleView>, y: RuleView, names: set<string>)
    requires |a| == |b|
    ensures AgreeBut(a + [x], b + [y], names) <==> AgreeBut(a, b, names) && (x.name !in names ==> x == y)
  {
    var c, d := a + [x], b + [y];
    assert c[|a|] == x && d[|b|] == y && forall k :: 0 <= k < |a| ==> c[k] == a[k] && d[k] == b[k];
  }

  lemma UnnamedLast(a: seq<RuleView>, x: RuleView, names: set<string>)
    ensures Unnamed(a + [x], names) == if x.name in names then Unnamed(a, names) else Unnamed(a, names) + [x]
  {
    assert (a + [x])[..|a|] == a;
  }

  /** Dropping the named rules leaves equal lists exactly when the others are equal. */
  lemma {:induction false} UnnamedSameIff(a: seq<RuleView>, b: seq<RuleView>, names: set<string>)
    requires SameNames(a, b)
    ensures |Unnamed(a, names)| == |Unnamed(b, names)|
    ensures Unnamed(a, names) == Unnamed(b, names) <==> AgreeBut(a, b, names)
  {
    if a != [] {
      var x, y, fa, fb := a[|a| - 1], b[|b| - 1], a[..|a| - 1], b[..|b| - 1];
      assert SameNames(fa, fb) && x.name == y.name && a == fa + [x] && b == fb + [y];
      hide *;
      UnnamedSameIff(fa, fb, names);
      UnnamedLast(fa, x, names);
      UnnamedLast(fb, y, names);
      AgreeOneMore(fa, x, fb, y, names);
      LastsSame(Unnamed(fa, names), x, Unnamed(fb, names), y);
    }
  }

  lemma LastsSame(a: seq<RuleView>, x: RuleView, b: seq<RuleView>, y: RuleView)
    requires |a| == |b|
    ensures a + [x] == b + [y] <==> a == b && x == y
  {
    assert (a + [x])[..|a|] == a && (b + [y])[..|b|] == b;
    assert (a + [x])[|a|] == x && (b + [y])[|b|] == y;
  }

  // ----- what new hosts change in the filters -----

  /** Between the two host tables the ids from `first` up to `next` were given out, and nothing
      else changed but columns. */
  ghost predicate GaveOut(hosts: map<int, HostRow>, others: map<int, HostRow>, first: int, next: int) {
    && first <= next
    && (forall i :: i in others <==> i in hosts || first <= i < next)
    && (forall i :: i in hosts ==> i < first && others[i].domain == hosts[i].domain)
  }

  predicate NamesAny(ids: seq<int>, first: int, next: int) {
    exists k :: 0 <= k < |ids| && first <= ids[k] < next
  }

  lemma {:induction false} FilterStaysIff(
      hosts: map<int, HostRow>, others: map<int, HostRow>, first: int, next: int, ids: seq<int>)
    requires GaveOut(hosts, others, first, next)
    ensures |SeeIds(hosts, ids)| == |SeeIds(others, ids)| == |ids|
    ensures SeeIds(hosts, ids) == SeeIds(others, ids) <==> !NamesAny(ids, first, next)
  {
    if ids != [] {
      var front, last := ids[..|ids| - 1], ids[|ids| - 1];
      FilterStaysIff(hosts, others, first, next, front);
      assert ids == front + [last];
      var x := if last in hosts then Some(hosts[last].domain) else None;
      var y := if last in others then Some(others[last].domain) else None;
      assert x == y <==> !(first <= last < next);
      var a, b := SeeIds(hosts, front), SeeIds(others, front);
      assert (a + [x])[..|a|] == a && (b + [y])[..|b|] == b && (a + [x])[|a|] == x && (b + [y])[|b|] == y;
      assert NamesAny(ids, first, next) <==> NamesAny(front, first, next) || first <= last < next by {
        assert forall k :: 0 <= k < |front| ==> ids[k] == front[k];
      }
    }
  }

  lemma {:induction false} SeenRules(hosts: map<int, HostRow>, channels: map<int, ChannelRow>, rows: seq<NotifyRow>)
    ensures |SeeRules(hosts, channels, rows)| == |rows|
    ensures forall k :: 0 <= k < |rows| ==> SeeRules(hosts, channels, rows)[k] == SeeNotify(hosts, channels, rows[k])
  {
    if rows != [] {
      SeenRules(hosts, channels, rows[..|rows| - 1]);
    }
  }

  ghost predicate NamesStay(channels: map<int, ChannelRow>, others: map<int, ChannelRow>) {
    forall i :: i in channels ==> i in others && others[i].name == channels[i].name
  }

  /** Each rule is seen as before exactly when it filters on no id given out. */
  lemma RulesStayIff(
      hosts: map<int, HostRow>, others: map<int, HostRow>, first: int, next: int, channels: map<int, ChannelRow>,
      named: map<int, ChannelRow>, rows: seq<NotifyRow>)
    requires GaveOut(hosts, others, first, next) && NamesStay(channels, named) && RulesLinked(rows, channels)
    ensures SameNames(SeeRules(hosts, channels, rows), SeeRules(others, named, rows))
    ensures |SeeRules(hosts, channels, rows)| == |SeeRules(others, named, rows)| == |rows|
    ensures forall k :: 0 <= k < |rows| ==>
              SeeRules(hosts, channels, rows)[k].name == rows[k].name
              && (SeeRules(hosts, channels, rows)[k] == SeeRules(others, named, rows)[k]
                  <==> !NamesAny(rows[k].hostIds, first, next))
  {
    SeenRules(hosts, channels, rows);
    SeenRules(others, named, rows);
    hide SeeRules, GaveOut;
    forall k | 0 <= k < |rows|
      ensures SeeNotify(hosts, channels, rows[k]) == SeeNotify(others, named, rows[k])
              <==> !NamesAny(rows[k].hostIds, first, next)
    {
      FilterStaysIff(hosts, others, first, next, rows[k].hostIds);
      hide SeeIds;
    }
  }

  // ----- before an import -----

  /** How many of the keys are not known yet. */
  function Fresh(known: set<string>, keys: set<string>): nat {
    |keys - known|
  }

  /** How many hosts a bundle adds, each of which gets a new id. */
  ghost function NewHosts(d: Db, b: Bundle): nat
    requires Valid(d)
  {
    Fresh(ViewOf(d).hosts.Keys, KeysOf(b.hosts, HOST_NAME))
  }

  /** The names of the rules a merge of the bundle writes. */
  ghost function NamesToWrite(d: Db, b: Bundle): set<string>
    requires Valid(d)
  {
    WrittenNames(b.notify, ViewOf(d).channels.Keys + KeysOf(b.channels, CHANNEL_NAME))
  }

  /** A rule the bundle does not replace filters on an id its new hosts will get. */
  ghost predicate HasStrayFilter(d: Db, b: Bundle)
    requires Valid(d)
  {
    exists k :: 0 <= k < |d.notify| && d.notify[k].name !in NamesToWrite(d, b)
                && NamesAny(d.notify[k].hostIds, d.nextHost, d.nextHost + NewHosts(d, b))
  }

  lemma StrayIs(d: Db, b: Bundle, channels: set<string>, next: int)
    requires Valid(d) && channels == ViewOf(d).channels.Keys + KeysOf(b.channels, CHANNEL_NAME)
    requires next == d.nextHost + NewHosts(d, b)
    ensures HasStrayFilter(d, b)
            <==> exists k :: 0 <= k < |d.notify| && d.notify[k].name !in WrittenNames(b.notify, channels)
                             && NamesAny(d.notify[k].hostIds, d.nextHost, next)
  {
    hide Valid, ViewOf, KeysOf, Fresh, WrittenNames, NamesAny;
  }

  /** A merge makes the same rules of both views of the stored rows exactly when no kept one is affected. */
  lemma MergedSameIff(
      rows: seq<NotifyRow>, a: seq<RuleView>, c: seq<RuleView>, xs: seq<NotifyExport>, channels: set<string>,
      hosts: set<string>,
      first: int, next: int)
    requires SameNames(a, c) && |a| == |rows|
    requires forall k :: 0 <= k < |rows| ==>
               a[k].name == rows[k].name && (a[k] == c[k] <==> !NamesAny(rows[k].hostIds, first, next))
    ensures PutNotifies(a, xs, channels, hosts, Merge) == PutNotifies(c, xs, channels, hosts, Merge)
            <==> !exists k :: 0 <= k < |rows| && rows[k].name !in WrittenNames(xs, channels)
                              && NamesAny(rows[k].hostIds, first, next)
  {
    hide PutNotifies, WithoutAll, Unnamed, WrittenNames, NamesAny;
    MergedRules(a, xs, channels, hosts);
    MergedRules(c, xs, channels, hosts);
    WithoutAllIs(a, xs, channels);
    WithoutAllIs(c, xs, channels);
    var names := WrittenNames(xs, channels);
    UnnamedSameIff(a, c, names);
    var put := PutNotifies([], xs, channels, hosts, Merge);
    FrontsSame(Unnamed(a, names), Unnamed(c, names), put);
  }

  lemma FrontsSame(a: seq<RuleView>, b: seq<RuleView>, c: seq<RuleView>)
    requires |a| == |b|
    ensures a + c == b + c <==> a == b
  {
    assert (a + c)[..|a|] == a && (b + c)[..|b|] == b;
  }
}
