/** Import and export working on the configuration tables the way the source
    does: name lookups, inserts, updates, id maps. What each step does is stated
    on the configuration the tables stand for. */
module ConfigStore {
  import opened Basics
  import opened Upserts
  import opened Ordering
  import opened ConfigModel
  import opened ConfigTables
  import opened ConfigLaws
  import opened StrayFilters

  // ----- target groups -----

  /** A name-to-id map filled during an import: each id holds the row of its name. */
  ghost predicate Ids<R>(ids: map<string, int>, t: map<int, R>, name: R -> string) {
    forall n :: n in ids ==> ids[n] in t && name(t[ids[n]]) == n
  }

  ghost predicate NamesKept<R>(t: map<int, R>, u: map<int, R>, name: R -> string) {
    forall i :: i in t ==> i in u && name(u[i]) == name(t[i])
  }

  lemma IdsAdd<R>(ids: map<string, int>, t: map<int, R>, u: map<int, R>, name: R -> string, id: int)
    requires Ids(ids, t, name) && NamesKept(t, u, name) && id in u
    ensures Ids(ids[name(u[id]) := id], u, name)
  {
    forall n | n in ids
      ensures ids[n] in u && name(u[ids[n]]) == n
    {
      var i := ids[n];
      assert i in t && name(t[i]) == n;
      assert i in u;
    }
  }

  lemma NewWritable<R>(t: map<int, R>, name: R -> string, id: int, r: R)
    requires Unique(t, name) && Before(t, id) && Find(t, name, name(r)).None?
    ensures Writable(t, name, id, r) && id !in t
  {
  }

  lemma ViewNames<R, V>(t: map<int, R>, name: R -> string, see: R -> V, id: int)
    requires Unique(t, name) && id in t
    ensures name(t[id]) in Index(t, name, see) && Index(t, name, see)[name(t[id])] == see(t[id])
  {
  }

  lemma FindIsId<R>(t: map<int, R>, name: R -> string, id: int)
    requires Unique(t, name) && id in t
    ensures Find(t, name, name(t[id])) == Some(id)
  {
  }

  function GroupStep(mode: Mode): (map<string, GroupRow>, GroupExport) -> Option<map<string, GroupRow>> {
    Upsert(GROUP_NAME, GROUP_OK, WRITE_GROUP, mode.Replace?, None)
  }

  ghost predicate OtherTables(d: Db, d': Db) {
    d'.hosts == d.hosts && d'.nextHost == d.nextHost && d'.channels == d.channels && d'.notify == d.notify
  }

  /** What writing one group did: `r` is its id, None a failure. */
  ghost predicate GroupOutcome(d: Db, x: GroupExport, mode: Mode, r: Option<int>, d': Db) {
    && Valid(d)
    && match GroupStep(mode)(TablesOf(d).groups, x)
       case None => r.None?
       case Some(groups) =>
         && r.Some? && Valid(d') && TablesOf(d') == TablesOf(d).(groups := groups)
         && r.value in d'.groups && d'.groups[r.value].name == x.name && NamesKept(d.groups, d'.groups, GROUP)
         && OtherTables(d, d')
  }

  lemma GroupRefused(d: Db, x: GroupExport, mode: Mode)
    requires Valid(d)
    requires !GroupFits(Normal(x.cols), x.targets) || (mode.Replace? && Find(d.groups, GROUP, x.name).Some?)
    ensures GroupOutcome(d, x, mode, None, d)
  {
    IndexFind(d.groups, GROUP, SAME_GROUP, x.name);
    hide Index, Unique, Find;
  }

  /** The write that an accepted group asks for: in place under its name, or a new row. */
  ghost predicate GroupRowIs(d: Db, x: GroupExport, mode: Mode, id: int, row: GroupRow)
    requires Unique(d.groups, GROUP)
  {
    match Find(d.groups, GROUP, x.name)
    case Some(i) => mode.Merge? && id == i && row == WRITE_GROUP(x, Some(d.groups[i]))
    case None => id == d.nextGroup && row == WRITE_GROUP(x, None)
  }

  lemma GroupStepIs(d: Db, x: GroupExport, mode: Mode, id: int, row: GroupRow)
    requires Valid(d) && GroupFits(Normal(x.cols), x.targets) && GroupRowIs(d, x, mode, id, row)
    ensures GroupStep(mode)(TablesOf(d).groups, x) == Some(TablesOf(d).groups[x.name := row])
  {
    IndexFind(d.groups, GROUP, SAME_GROUP, x.name);
    hide Index, Unique, Find, GroupFits;
  }

  lemma GroupWriteIs(d: Db, x: GroupExport, mode: Mode, id: int, row: GroupRow)
    requires Valid(d) && GroupRowIs(d, x, mode, id, row)
    ensures GroupWrite(d, id, row) && row.name == x.name && NamesKept(d.groups, d.groups[id := row], GROUP)
  {
    if Find(d.groups, GROUP, x.name).None? {
      NewWritable(d.groups, GROUP, id, row);
    }
    hide Unique, Find, HostsLinked, RulesLinked;
  }

  lemma GroupWritten(d: Db, x: GroupExport, mode: Mode, id: int, row: GroupRow)
    requires Valid(d) && GroupFits(Normal(x.cols), x.targets) && GroupRowIs(d, x, mode, id, row)
    ensures GroupOutcome(d, x, mode, Some(id), WithGroup(d, id, row))
  {
    hide Valid, TablesOf, GroupStep, GroupFits, GroupRowIs, GroupWrite, NamesKept;
    GroupStepIs(d, x, mode, id, row);
    GroupWriteIs(d, x, mode, id, row);
    PutGroup(d, id, row);
  }

  /** What the loop over the groups did. */
  ghost predicate GroupsOutcome(d: Db, xs: seq<GroupExport>, mode: Mode, r: Option<map<string, int>>, d': Db) {
    && Valid(d)
    && match Fold(TablesOf(d).groups, xs, GroupStep(mode))
       case None => r.None?
       case Some(groups) =>
         && r.Some? && Valid(d') && TablesOf(d') == TablesOf(d).(groups := groups)
         && Ids(r.value, d'.groups, GROUP) && r.value.Keys == KeysOf(xs, GROUP_NAME) && OtherTables(d, d')
  }

  lemma GroupsOneMore(
      d: Db, xs: seq<GroupExport>, i: nat, mode: Mode, ids: map<string, int>, m: Db, r: Option<int>, d': Db)
    requires i < |xs| && GroupsOutcome(d, xs[..i], mode, Some(ids), m) && GroupOutcome(m, xs[i], mode, r, d')
    ensures r.None? ==> GroupsOutcome(d, xs, mode, None, d')
    ensures r.Some? ==> GroupsOutcome(d, xs[..i + 1], mode, Some(ids[xs[i].name := r.value]), d')
  {
    hide Valid, TablesOf, GroupStep, NamesKept, Ids;
    FoldOneMore(TablesOf(d).groups, xs, i, GroupStep(mode));
    if r.None? {
      FailedPrefix(TablesOf(d).groups, xs, i + 1, GroupStep(mode));
    } else {
      assert xs[..i + 1] == xs[..i] + [xs[i]];
      KeysOfOneMore(xs[..i], xs[i], GROUP_NAME);
      IdsAdd(ids, m.groups, d'.groups, GROUP, r.value);
    }
  }

  // ----- hosts -----

  function HostStep(
      groups: set<string>, mode: Mode): (map<string, HostView>, HostExport) -> Option<map<string, HostView>> {
    Upsert(HOST_NAME, HostOk(groups), WRITE_HOST, mode.Replace?, None)
  }

  /** Only host rows were written, and no host lost its name. */
  ghost predicate OnlyHosts(d: Db, d': Db, hosts: map<string, HostView>)
    requires Valid(d)
  {
    && Valid(d') && TablesOf(d') == TablesOf(d).(hosts := hosts) && d'.groups == d.groups
        && NamesKept(d.hosts, d'.hosts, HOST)
    && d'.channels == d.channels && d'.notify == d.notify && GaveOut(d.hosts, d'.hosts, d.nextHost, d'.nextHost)
  }

  ghost predicate HostOutcome(d: Db, x: HostExport, mode: Mode, r: Option<int>, d': Db) {
    && Valid(d)
    && match HostStep(TablesOf(d).groups.Keys, mode)(TablesOf(d).hosts, x)
       case None => r.None?
       case Some(hosts) =>
         && r.Some? && OnlyHosts(d, d', hosts) && r.value in d'.hosts && d'.hosts[r.value].domain == x.domain
         && d'.nextHost == d.nextHost + if x.domain in TablesOf(d).hosts then 0 else 1
  }

  lemma GroupNames(d: Db)
    requires Valid(d)
    ensures forall n :: n in TablesOf(d).groups <==> Find(d.groups, GROUP, n).Some?
  {
    forall n {
      IndexFind(d.groups, GROUP, SAME_GROUP, n);
    }
    hide Index, Find, Unique;
  }

  lemma HostStepFails(groups: set<string>, mode: Mode, m: map<string, HostView>, x: HostExport)
    requires x.group !in groups || !HostFits(NormalHost(x.cols)) || (mode.Replace? && x.domain in m)
    ensures HostStep(groups, mode)(m, x).None?
  {
  }

  lemma HostRefused(d: Db, x: HostExport, mode: Mode)
    requires Valid(d)
    requires Find(d.groups, GROUP, x.group).None? || !HostFits(NormalHost(x.cols))
          || (mode.Replace? && Find(d.hosts, HOST, x.domain).Some?)
    ensures HostOutcome(d, x, mode, None, d)
  {
    hide Index, Find, Unique, HostFits, OnlyHosts, HostStep;
    GroupNames(d);
    IndexFind(d.hosts, HOST, SeeHost(d.groups), x.domain);
    HostStepFails(TablesOf(d).groups.Keys, mode, TablesOf(d).hosts, x);
  }

  function HostRowFor(x: HostExport, groupId: int, was: Option<HostRow>): HostRow {
    match was
    case Some(h) => h.(groupId := groupId, cols := NormalHost(x.cols))
    case None => HostRow(x.domain, groupId, NormalHost(x.cols), NewHostExtra(), [], None, [], [])
  }

  ghost predicate HostRowIs(d: Db, x: HostExport, groupId: int, mode: Mode, id: int, row: HostRow)
    requires Unique(d.hosts, HOST)
  {
    && groupId in d.groups && d.groups[groupId].name == x.group
    && match Find(d.hosts, HOST, x.domain)
       case Some(i) => mode.Merge? && id == i && row == HostRowFor(x, groupId, Some(d.hosts[i]))
       case None => id == d.nextHost && row == HostRowFor(x, groupId, None)
  }

  lemma HostStepIs(d: Db, x: HostExport, groupId: int, mode: Mode, id: int, row: HostRow)
    requires Valid(d) && HostFits(NormalHost(x.cols)) && HostRowIs(d, x, groupId, mode, id, row)
    ensures HostStep(TablesOf(d).groups.Keys, mode)(TablesOf(d).hosts, x)
         == Some(TablesOf(d).hosts[x.domain := SeeHost(d.groups)(row)])
  {
    IndexFind(d.hosts, HOST, SeeHost(d.groups), x.domain);
    ViewNames(d.groups, GROUP, SAME_GROUP, groupId);
    hide Index, Unique, Find, HostFits;
  }

  lemma HostWriteIs(d: Db, x: HostExport, groupId: int, mode: Mode, id: int, row: HostRow)
    requires Valid(d) && HostRowIs(d, x, groupId, mode, id, row)
    ensures HostWrite(d, id, row) && row.domain == x.domain && NamesKept(d.hosts, d.hosts[id := row], HOST)
  {
    if Find(d.hosts, HOST, x.domain).None? {
      NewWritable(d.hosts, HOST, id, row);
    }
    hide Unique, Find, HostsLinked, RulesLinked;
  }

  lemma HostIdFound(d: Db, x: HostExport, groupId: int, mode: Mode, id: int, row: HostRow)
    requires Valid(d) && HostRowIs(d, x, groupId, mode, id, row)
    ensures x.domain in TablesOf(d).hosts ==> id in d.hosts && id < d.nextHost && row.domain == d.hosts[id].domain
    ensures x.domain !in TablesOf(d).hosts ==> id == d.nextHost
  {
    IndexFind(d.hosts, HOST, SeeHost(d.groups), x.domain);
    hide Unique, HostsLinked, RulesLinked, Index, Find;
  }

  lemma GaveOutOne(hosts: map<int, HostRow>, first: int, id: int, row: HostRow)
    requires Before(hosts, first) && (id == first || (id in hosts && row.domain == hosts[id].domain))
    ensures GaveOut(hosts, hosts[id := row], first, Next(first, id))
  {
  }

  /** Only an unknown domain takes a new id. */
  lemma HostIdIs(d: Db, x: HostExport, groupId: int, mode: Mode, id: int, row: HostRow)
    requires Valid(d) && HostRowIs(d, x, groupId, mode, id, row)
    ensures GaveOut(d.hosts, d.hosts[id := row], d.nextHost, WithHost(d, id, row).nextHost)
    ensures WithHost(d, id, row).nextHost == d.nextHost + if x.domain in TablesOf(d).hosts then 0 else 1
  {
    HostIdFound(d, x, groupId, mode, id, row);
    assert Before(d.hosts, d.nextHost);
    hide Valid, TablesOf, HostRowIs, GaveOut, Before;
    GaveOutOne(d.hosts, d.nextHost, id, row);
  }

  lemma HostWritten(d: Db, x: HostExport, groupId: int, mode: Mode, id: int, row: HostRow)
    requires Valid(d) && HostFits(NormalHost(x.cols)) && HostRowIs(d, x, groupId, mode, id, row)
    ensures HostOutcome(d, x, mode, Some(id), WithHost(d, id, row))
  {
    hide Valid, TablesOf, HostStep, HostFits, HostRowIs, HostWrite, NamesKept, SeeHost, GaveOut;
    HostStepIs(d, x, groupId, mode, id, row);
    HostWriteIs(d, x, groupId, mode, id, row);
    HostIdIs(d, x, groupId, mode, id, row);
    PutHost(d, id, row);
  }

  ghost predicate HostsOutcome(d: Db, xs: seq<HostExport>, mode: Mode, r: Option<map<string, int>>, d': Db) {
    && Valid(d)
    && match Fold(TablesOf(d).hosts, xs, HostStep(TablesOf(d).groups.Keys, mode))
       case None => r.None?
       case Some(hosts) =>
         && r.Some? && OnlyHosts(d, d', hosts) && Ids(r.value, d'.hosts, HOST) && r.value.Keys == KeysOf(xs, HOST_NAME)
         && hosts.Keys == TablesOf(d).hosts.Keys + KeysOf(xs, HOST_NAME)
         && d'.nextHost == d.nextHost + Fresh(TablesOf(d).hosts.Keys, KeysOf(xs, HOST_NAME))
  }

  lemma OnlyHostsView(d: Db, m: Db, hosts: map<string, HostView>)
    requires Valid(d) && OnlyHosts(d, m, hosts)
    ensures Valid(m) && TablesOf(m).hosts == hosts && TablesOf(m).groups == TablesOf(d).groups
  {
    hide Valid, TablesOf;
  }

  lemma OnlyHostsChain(d: Db, m: Db, e: Db, hosts: map<string, HostView>, more: map<string, HostView>)
    requires Valid(d) && OnlyHosts(d, m, hosts) && Valid(m) && OnlyHosts(m, e, more)
    ensures OnlyHosts(d, e, more)
  {
    hide Valid, TablesOf;
  }

  lemma HostStepKeys(groups: set<string>, mode: Mode, m: map<string, HostView>, x: HostExport)
    ensures var r := HostStep(groups, mode)(m, x); r.Some? ==> r.value.Keys == m.Keys + {x.domain}
  {
  }

  /** How many of the keys so far were new. */
  lemma NewKeysOneMore(known: set<string>, keys: set<string>, n: string)
    ensures Fresh(known, keys + {n}) == Fresh(known, keys) + if n in known + keys then 0 else 1
  {
    if n in known + keys {
      assert keys + {n} - known == keys - known;
    } else {
      assert keys + {n} - known == (keys - known) + {n};
    }
  }

  lemma HostsOutcomeIs(d: Db, xs: seq<HostExport>, mode: Mode, r: Option<map<string, int>>, m: Db)
    requires HostsOutcome(d, xs, mode, r, m)
    ensures Valid(d)
    ensures var hosts := Fold(TablesOf(d).hosts, xs, HostStep(TablesOf(d).groups.Keys, mode));
            && (r.Some? <==> hosts.Some?)
            && (hosts.Some? ==>
                  && OnlyHosts(d, m, hosts.value) && Ids(r.value, m.hosts, HOST)
                  && r.value.Keys == KeysOf(xs, HOST_NAME)
                  && hosts.value.Keys == TablesOf(d).hosts.Keys + KeysOf(xs, HOST_NAME)
                  && m.nextHost == d.nextHost + Fresh(TablesOf(d).hosts.Keys, KeysOf(xs, HOST_NAME)))
  {
    hide Valid, TablesOf, HostStep, Ids, OnlyHosts, Fold, KeysOf, Fresh;
  }

  lemma HostsOutcomeIf(
      d: Db, xs: seq<HostExport>, mode: Mode, hosts: map<string, HostView>, ids: map<string, int>, m: Db)
    requires Valid(d) && Fold(TablesOf(d).hosts, xs, HostStep(TablesOf(d).groups.Keys, mode)) == Some(hosts)
    requires OnlyHosts(d, m, hosts) && Ids(ids, m.hosts, HOST) && ids.Keys == KeysOf(xs, HOST_NAME)
    requires hosts.Keys == TablesOf(d).hosts.Keys + KeysOf(xs, HOST_NAME)
    requires m.nextHost == d.nextHost + Fresh(TablesOf(d).hosts.Keys, KeysOf(xs, HOST_NAME))
    ensures HostsOutcome(d, xs, mode, Some(ids), m)
  {
    hide Valid, TablesOf, HostStep, Ids, OnlyHosts, Fold, KeysOf, Fresh;
  }

  lemma HostsFail(d: Db, xs: seq<HostExport>, mode: Mode, m: Db)
    requires Valid(d) && Fold(TablesOf(d).hosts, xs, HostStep(TablesOf(d).groups.Keys, mode)).None?
    ensures HostsOutcome(d, xs, mode, None, m)
  {
    hide Valid, TablesOf, HostStep, Fold;
  }

  lemma HostOutcomeIs(
      m: Db, groups: set<string>, hosts: map<string, HostView>, x: HostExport, mode: Mode, r: Option<int>, d': Db)
    requires HostOutcome(m, x, mode, r, d') && TablesOf(m).groups.Keys == groups && TablesOf(m).hosts == hosts
    ensures Valid(m)
    ensures var after := HostStep(groups, mode)(hosts, x);
            && (r.Some? <==> after.Some?)
            && (after.Some? ==>
                  && OnlyHosts(m, d', after.value) && r.value in d'.hosts && d'.hosts[r.value].domain == x.domain
                  && d'.nextHost == m.nextHost + if x.domain in hosts then 0 else 1)
  {
    hide Valid, TablesOf, HostStep, OnlyHosts;
  }

  lemma HostsOneMore(
      d: Db, xs: seq<HostExport>, i: nat, mode: Mode, ids: map<string, int>, m: Db, r: Option<int>, d': Db)
    requires i < |xs| && HostsOutcome(d, xs[..i], mode, Some(ids), m) && HostOutcome(m, xs[i], mode, r, d')
    ensures r.None? ==> HostsOutcome(d, xs, mode, None, d')
    ensures r.Some? ==> HostsOutcome(d, xs[..i + 1], mode, Some(ids[xs[i].domain := r.value]), d')
  {
    hide *;
    HostsOutcomeIs(d, xs[..i], mode, Some(ids), m);
    var groups, v := TablesOf(d).groups.Keys, TablesOf(d).hosts;
    var step, x := HostStep(groups, mode), xs[i];
    var before := Fold(v, xs[..i], step).value;
    OnlyHostsView(d, m, before);
    FoldOneMore(v, xs, i, step);
    HostOutcomeIs(m, groups, before, x, mode, r, d');
    if r.None? {
      FailedPrefix(v, xs, i + 1, step);
      HostsFail(d, xs, mode, d');
    } else {
      var after := step(before, x).value;
      assert xs[..i + 1] == xs[..i] + [x] && HOST_NAME(x) == x.domain by { LastEntry(xs, i); }
      KeysOfOneMore(xs[..i], x, HOST_NAME);
      NewKeysOneMore(v.Keys, KeysOf(xs[..i], HOST_NAME), x.domain);
      HostStepKeys(groups, mode, before, x);
      OnlyHostsNames(m, d', after);
      assert HOST(d'.hosts[r.value]) == x.domain by { HostName(d'.hosts[r.value]); }
      IdsAdd(ids, m.hosts, d'.hosts, HOST, r.value);
      OnlyHostsChain(d, m, d', before, after);
      HostsOutcomeIf(d, xs[..i + 1], mode, after, ids[x.domain := r.value], d');
    }
  }

  lemma LastEntry(xs: seq<HostExport>, i: nat)
    requires i < |xs|
    ensures xs[..i + 1] == xs[..i] + [xs[i]] && HOST_NAME(xs[i]) == xs[i].domain
  {
  }

  lemma HostName(h: HostRow)
    ensures HOST(h) == h.domain
  {
  }

  lemma NoneGivenOut(d: Db)
    requires Valid(d)
    ensures GaveOut(d.hosts, d.hosts, d.nextHost, d.nextHost)
  {
  }

  lemma NoKeysYet(known: set<string>)
    ensures KeysOf<HostExport>([], HOST_NAME) == {} && Fresh(known, {}) == 0
  {
    assert {} - known == {};
  }

  lemma OnlyHostsSelf(d: Db)
    requires Valid(d)
    ensures OnlyHosts(d, d, TablesOf(d).hosts)
  {
    NoneGivenOut(d);
    hide Valid, TablesOf, GaveOut;
  }

  lemma FoldNone<S, X>(s: S, step: (S, X) -> Option<S>)
    ensures Fold(s, [], step) == Some(s)
  {
  }

  lemma NoIds<R>(t: map<int, R>, name: R -> string)
    ensures Ids(map[], t, name)
  {
  }

  lemma HostsStart(d: Db, mode: Mode)
    requires Valid(d)
    ensures HostsOutcome(d, [], mode, Some(map[]), d)
  {
    hide *;
    OnlyHostsSelf(d);
    NoKeysYet(TablesOf(d).hosts.Keys);
    FoldNone(TablesOf(d).hosts, HostStep(TablesOf(d).groups.Keys, mode));
    NoIds(d.hosts, HOST);
    HostsOutcomeIf(d, [], mode, TablesOf(d).hosts, map[], d);
  }

  lemma HostsSoFar(d: Db, xs: seq<HostExport>, mode: Mode, ids: map<string, int>, m: Db)
    requires HostsOutcome(d, xs, mode, Some(ids), m)
    ensures Valid(m) && m.groups == d.groups && Ids(ids, m.hosts, HOST)
  {
    hide Valid, TablesOf, HostStep;
  }

  lemma OnlyHostsNames(d: Db, d': Db, hosts: map<string, HostView>)
    requires Valid(d) && OnlyHosts(d, d', hosts)
    ensures NamesKept(d.hosts, d'.hosts, HOST) && d'.groups == d.groups
  {
    hide Valid, TablesOf;
  }

  // ----- rules and security of hosts -----

  /** A host row changed in place, name and group aside. */
  lemma HostEdited(d: Db, id: int, row: HostRow)
    requires Valid(d) && id in d.hosts && row.domain == d.hosts[id].domain && row.groupId == d.hosts[id].groupId
    ensures OnlyHosts(d, WithHost(d, id, row), TablesOf(d).hosts[row.domain := SeeHost(d.groups)(row)])
    ensures WithHost(d, id, row).nextHost == d.nextHost
    ensures row.domain in TablesOf(d).hosts && TablesOf(d).hosts[row.domain] == SeeHost(d.groups)(d.hosts[id])
  {
    HostEditable(d, id, row);
    HostShown(d, id);
    hide Valid, TablesOf, HostWrite, NamesKept, SeeHost, GaveOut;
    PutHost(d, id, row);
  }

  lemma HostEditable(d: Db, id: int, row: HostRow)
    requires Valid(d) && id in d.hosts && row.domain == d.hosts[id].domain && row.groupId == d.hosts[id].groupId
    ensures HostWrite(d, id, row) && NamesKept(d.hosts, d.hosts[id := row], HOST)
    ensures GaveOut(d.hosts, d.hosts[id := row], d.nextHost, d.nextHost) && WithHost(d, id, row).nextHost == d.nextHost
  {
    assert Before(d.hosts, d.nextHost);
    GaveOutOne(d.hosts, d.nextHost, id, row);
    hide RulesLinked, GaveOut;
  }

  lemma HostShown(d: Db, id: int)
    requires Valid(d) && id in d.hosts
    ensures d.hosts[id].domain in TablesOf(d).hosts
    ensures TablesOf(d).hosts[d.hosts[id].domain] == SeeHost(d.groups)(d.hosts[id])
  {
    ViewNames(d.hosts, HOST, SeeHost(d.groups), id);
    hide Unique, Before, HostsLinked, RulesLinked, SeeHost;
  }

  /** What one entry of a loop that fills a part of the hosts did; `r` is the new set of domains met. */
  ghost predicate EntryOutcome<X, A>(
    p: Part<X, HostView, A>, d: Db, met: set<string>, named: set<string>, x: X, clear: bool, r: Option<set<string>>,
    d': Db)
  {
    && Valid(d)
    && match Fill(p, named, clear)(Filling(TablesOf(d).hosts, met), x)
       case None => r.None?
       case Some(f) => r == Some(f.met) && OnlyHosts(d, d', f.rows) && d'.nextHost == d.nextHost
  }

  ghost predicate EntriesOutcome<X, A>(
    p: Part<X, HostView, A>, d: Db, named: set<string>, xs: seq<X>, clear: bool, r: Option<set<string>>, d': Db)
  {
    && Valid(d)
    && match Fold(Filling(TablesOf(d).hosts, {}), xs, Fill(p, named, clear))
       case None => r.None?
       case Some(f) => r == Some(f.met) && OnlyHosts(d, d', f.rows) && d'.nextHost == d.nextHost
  }

  /** The part an entry is added to. */
  function Base<X, A>(p: Part<X, HostView, A>, d: Db, met: set<string>, id: int, clear: bool): A
    requires id in d.hosts
  {
    if clear && d.hosts[id].domain !in met then p.empty else p.get(SeeHost(d.groups)(d.hosts[id]))
  }

  lemma EntryUnknown<X, A>(p: Part<X, HostView, A>, d: Db, met: set<string>, named: set<string>, x: X, clear: bool)
    requires Valid(d) && p.key(x) !in named
    ensures EntryOutcome(p, d, met, named, x, clear, None, d)
  {
  }

  lemma EntryRefused<X, A>(
      p: Part<X, HostView, A>, d: Db, met: set<string>, named: set<string>, x: X, clear: bool, id: int)
    requires Valid(d) && id in d.hosts && d.hosts[id].domain == p.key(x) && p.add(Base(p, d, met, id, clear), x).None?
    ensures EntryOutcome(p, d, met, named, x, clear, None, d)
  {
    HostEdited(d, id, d.hosts[id]);
    hide Valid, TablesOf, OnlyHosts;
  }

  lemma EntryWritten<X, A>(
      p: Part<X, HostView, A>, d: Db, met: set<string>, named: set<string>, x: X, clear: bool, id: int, row: HostRow,
      a: A)
    requires Valid(d) && id in d.hosts && d.hosts[id].domain == p.key(x) == row.domain && p.key(x) in named
    requires row.groupId == d.hosts[id].groupId && p.add(Base(p, d, met, id, clear), x) == Some(a)
    requires SeeHost(d.groups)(row) == p.put(SeeHost(d.groups)(d.hosts[id]), a)
    ensures EntryOutcome(p, d, met, named, x, clear, Some(met + {p.key(x)}), WithHost(d, id, row))
  {
    HostEdited(d, id, row);
    hide Valid, TablesOf, OnlyHosts, SeeHost;
  }

  lemma EntriesOneMore<X, A>(
      p: Part<X, HostView, A>, d: Db, named: set<string>, xs: seq<X>, i: nat, clear: bool, met: set<string>, m: Db,
      r: Option<set<string>>, d': Db)
    requires i < |xs| && EntriesOutcome(p, d, named, xs[..i], clear, Some(met), m)
    requires EntryOutcome(p, m, met, named, xs[i], clear, r, d')
    ensures r.None? ==> EntriesOutcome(p, d, named, xs, clear, None, d')
    ensures r.Some? ==> EntriesOutcome(p, d, named, xs[..i + 1], clear, r, d')
  {
    hide Valid, TablesOf, OnlyHosts, Fill;
    var s, step := Filling(TablesOf(d).hosts, {}), Fill(p, named, clear);
    var before := Fold(s, xs[..i], step).value;
    FoldOneMore(s, xs, i, step);
    OnlyHostsView(d, m, before.rows);
    match step(before, xs[i]) {
      case None => FailedPrefix(s, xs, i + 1, step);
      case Some(after) => OnlyHostsChain(d, m, d', before.rows, after.rows);
    }
  }

  lemma EntriesStart<X, A>(p: Part<X, HostView, A>, d: Db, named: set<string>, clear: bool)
    requires Valid(d)
    ensures EntriesOutcome(p, d, named, [], clear, Some({}), d)
  {
    NoneGivenOut(d);
    assert NamesKept(d.hosts, d.hosts, HOST) by { hide Valid, TablesOf; }
    assert TablesOf(d) == TablesOf(d).(hosts := TablesOf(d).hosts) by { hide Index; }
    hide Valid, TablesOf, Fill, GaveOut, NamesKept;
  }

  lemma EntriesSoFar<X, A>(
      p: Part<X, HostView, A>, d: Db, named: set<string>, xs: seq<X>, clear: bool, met: set<string>, m: Db)
    requires EntriesOutcome(p, d, named, xs, clear, Some(met), m)
    ensures Valid(m)
  {
    hide Valid, TablesOf, Fill;
  }

  /** The ids seen so far are those of the domains met so far. */
  ghost predicate SeenIs(seen: set<int>, met: set<string>, hosts: map<int, HostRow>) {
    forall i :: i in hosts ==> (i in seen <==> hosts[i].domain in met)
  }

  lemma SeenOneMore(d: Db, seen: set<int>, met: set<string>, id: int, row: HostRow)
    requires Valid(d) && SeenIs(seen, met, d.hosts) && id in d.hosts && row.domain == d.hosts[id].domain
    ensures SeenIs(seen + {id}, met + {row.domain}, WithHost(d, id, row).hosts)
  {
  }

  lemma IdsStay(d: Db, ids: map<string, int>, id: int, row: HostRow)
    requires Ids(ids, d.hosts, HOST) && id in d.hosts && row.domain == d.hosts[id].domain
    ensures Ids(ids, WithHost(d, id, row).hosts, HOST)
  {
  }

  // ----- notification channels and rules -----

  function ChannelStep(mode: Mode, before: map<string, ChannelRow>)
    : (map<string, ChannelRow>, ChannelExport) -> Option<map<string, ChannelRow>>
  {
    Upsert(CHANNEL_NAME, CHANNEL_OK, WriteChannel(mode), mode.Replace?, Some(before))
  }

  ghost predicate OnlyChannels(d: Db, d': Db, channels: map<string, ChannelRow>)
    requires Valid(d)
  {
    && Valid(d') && TablesOf(d') == TablesOf(d).(channels := channels) && NamesStay(d.channels, d'.channels)
    && d'.hosts == d.hosts && d'.nextHost == d.nextHost && d'.notify == d.notify
  }

  /** `before` is the channel table as it was before the loop over the channels. */
  ghost predicate ChannelOutcome(
      d: Db, before: map<string, ChannelRow>, x: ChannelExport, mode: Mode, ok: bool, d': Db) {
    && Valid(d)
    && match ChannelStep(mode, before)(TablesOf(d).channels, x)
       case None => !ok
       case Some(channels) => ok && OnlyChannels(d, d', channels)
  }

  ghost predicate ChannelsOutcome(d: Db, xs: seq<ChannelExport>, mode: Mode, ok: bool, d': Db) {
    && Valid(d)
    && match Fold(TablesOf(d).channels, xs, ChannelStep(mode, TablesOf(d).channels))
       case None => !ok
       case Some(channels) => ok && OnlyChannels(d, d', channels)
  }

  lemma ChannelRefused(d: Db, before: map<string, ChannelRow>, x: ChannelExport, mode: Mode)
    requires Valid(d) && (!ChannelFits(x.kind) || (mode.Replace? && Find(d.channels, CHANNEL, x.name).Some?))
    ensures ChannelOutcome(d, before, x, mode, false, d)
  {
    IndexFind(d.channels, CHANNEL, SAME_CHANNEL, x.name);
    hide Index, Unique, Find, WriteChannel;
  }

  lemma ChannelWritten(d: Db, before: map<string, ChannelRow>, x: ChannelExport, mode: Mode, id: int, row: ChannelRow)
    requires Valid(d) && ChannelFits(x.kind)
    requires match Find(d.channels, CHANNEL, x.name)
             case Some(i) => mode.Merge? && id == i
             case None => id == d.nextChannel
    requires row == WriteChannel(mode)(x, Get(before, x.name)) && row.name == x.name
    ensures ChannelOutcome(d, before, x, mode, true, WithChannel(d, id, row))
  {
    hide Valid, TablesOf, Find, WriteChannel, ChannelStep, ChannelWrite, NamesStay, ChannelFits;
    ChannelStepIs(d, before, x, mode);
    ChannelWriteIs(d, x, mode, id, row);
    PutChannel(d, id, row);
  }

  lemma ChannelWriteIs(d: Db, x: ChannelExport, mode: Mode, id: int, row: ChannelRow)
    requires Valid(d) && row.name == x.name
    requires match Find(d.channels, CHANNEL, x.name)
             case Some(i) => mode.Merge? && id == i
             case None => id == d.nextChannel
    ensures ChannelWrite(d, id, row) && NamesStay(d.channels, d.channels[id := row])
  {
    if Find(d.channels, CHANNEL, x.name).None? {
      NewWritable(d.channels, CHANNEL, id, row);
    }
    hide Unique, Find, HostsLinked, RulesLinked;
  }

  lemma ChannelStepIs(d: Db, before: map<string, ChannelRow>, x: ChannelExport, mode: Mode)
    requires Valid(d) && ChannelFits(x.kind) && (Find(d.channels, CHANNEL, x.name).Some? ==> mode.Merge?)
    ensures ChannelStep(mode, before)(TablesOf(d).channels, x)
         == Some(TablesOf(d).channels[x.name := WriteChannel(mode)(x, Get(before, x.name))])
  {
    IndexFind(d.channels, CHANNEL, SAME_CHANNEL, x.name);
    hide Index, Unique, Find, WriteChannel;
  }

  lemma OnlyChannelsChain(d: Db, m: Db, e: Db, channels: map<string, ChannelRow>, more: map<string, ChannelRow>)
    requires Valid(d) && OnlyChannels(d, m, channels) && Valid(m) && OnlyChannels(m, e, more)
    ensures OnlyChannels(d, e, more) && TablesOf(m).channels == channels
  {
    hide Valid, TablesOf;
  }

  lemma ChannelsOneMore(d: Db, xs: seq<ChannelExport>, i: nat, mode: Mode, m: Db, ok: bool, d': Db)
    requires i < |xs| && ChannelsOutcome(d, xs[..i], mode, true, m)
    requires ChannelOutcome(m, TablesOf(d).channels, xs[i], mode, ok, d')
    ensures !ok ==> ChannelsOutcome(d, xs, mode, false, d')
    ensures ok ==> ChannelsOutcome(d, xs[..i + 1], mode, true, d')
  {
    var v, step := TablesOf(d).channels, ChannelStep(mode, TablesOf(d).channels);
    hide Valid, TablesOf, ChannelStep, OnlyChannels, Fold;
    FoldOneMore(v, xs, i, step);
    var before := Fold(v, xs[..i], step).value;
    OnlyChannelsTable(d, m, before);
    match step(before, xs[i]) {
      case None => FailedPrefix(v, xs, i + 1, step);
      case Some(after) => OnlyChannelsChain(d, m, d', before, after);
    }
  }

  lemma OnlyChannelsTable(d: Db, m: Db, channels: map<string, ChannelRow>)
    requires Valid(d) && OnlyChannels(d, m, channels)
    ensures Valid(m) && TablesOf(m).channels == channels
  {
    hide Valid, TablesOf;
  }

  lemma ChannelsStart(d: Db, mode: Mode)
    requires Valid(d)
    ensures ChannelsOutcome(d, [], mode, true, d)
  {
    hide Valid, TablesOf, ChannelStep;
  }

  lemma ChannelsSoFar(d: Db, xs: seq<ChannelExport>, mode: Mode, m: Db)
    requires ChannelsOutcome(d, xs, mode, true, m)
    ensures Valid(m) && m.hosts == d.hosts
  {
    hide Valid, TablesOf, ChannelStep;
  }

  /** Only notification rules were written. */
  ghost predicate OnlyRules(d: Db, d': Db, rules: seq<RuleView>)
    requires Valid(d)
  {
    Valid(d') && ViewOf(d') == ViewOf(d).(rules := rules) && d'.hosts == d.hosts && d'.channels == d.channels
  }

  function WithNotify(d: Db, rows: seq<NotifyRow>): Db {
    d.(notify := rows)
  }

  lemma RulesDropped(d: Db, name: string)
    requires Valid(d)
    ensures OnlyRules(d, WithNotify(d, Dropped(d.notify, name)), Without(ViewOf(d).rules, name))
  {
    DropRules(d.hosts, d.channels, d.notify, name);
    var rows := Dropped(d.notify, name);
    forall k | 0 <= k < |rows|
      ensures rows[k].channelId in d.channels
    {
      assert rows[k] in d.notify;
    }
    hide Index, SeeRules, Unique, Without, Dropped;
  }

  lemma RuleAppended(d: Db, r: NotifyRow)
    requires Valid(d) && r.channelId in d.channels
    ensures OnlyRules(d, WithNotify(d, d.notify + [r]), ViewOf(d).rules + [SeeNotify(d.hosts, d.channels, r)])
  {
    AppendRule(d.hosts, d.channels, d.notify, r);
    hide Index, SeeRules, Unique, SeeNotify;
  }

  lemma HostNames(d: Db)
    requires Valid(d)
    ensures forall n :: n in ViewOf(d).hosts <==> Find(d.hosts, HOST, n).Some?
  {
    forall n {
      IndexFind(d.hosts, HOST, SeeHost(d.groups), n);
    }
    hide Index, Find, Unique;
  }

  lemma ChannelNames(d: Db)
    requires Valid(d)
    ensures forall n :: n in ViewOf(d).channels <==> Find(d.channels, CHANNEL, n).Some?
  {
    forall n {
      IndexFind(d.channels, CHANNEL, SAME_CHANNEL, n);
    }
    hide Index, Find, Unique;
  }

  ghost predicate NotifyOutcome(d: Db, x: NotifyExport, mode: Mode, d': Db) {
    Valid(d) && OnlyRules(d, d', PutNotify(ViewOf(d).rules, x, ViewOf(d).channels.Keys, ViewOf(d).hosts.Keys, mode))
  }

  lemma NotifySkipped(d: Db, x: NotifyExport, mode: Mode)
    requires Valid(d) && Find(d.channels, CHANNEL, x.channel).None?
    ensures NotifyOutcome(d, x, mode, d)
  {
    ChannelNames(d);
    hide Index, Find, Unique;
  }

  lemma NotifyWritten(d: Db, m: Db, x: NotifyExport, mode: Mode, r: NotifyRow)
    requires Valid(d) && OnlyRules(d, m, if mode.Merge? then Without(ViewOf(d).rules, x.name) else ViewOf(d).rules)
    requires r.channelId in m.channels && Find(d.channels, CHANNEL, x.channel).Some?
    requires SeeNotify(m.hosts, m.channels, r) == NotifyView(x, ViewOf(d).hosts.Keys)
    ensures NotifyOutcome(d, x, mode, WithNotify(m, m.notify + [r]))
  {
    ChannelNames(d);
    hide Valid, ViewOf, SeeNotify, NotifyView, Find, Without;
    RuleAppended(m, r);
  }

  ghost predicate NotifiesOutcome(d: Db, xs: seq<NotifyExport>, mode: Mode, d': Db) {
    Valid(d) && OnlyRules(d, d', PutNotifies(ViewOf(d).rules, xs, ViewOf(d).channels.Keys, ViewOf(d).hosts.Keys, mode))
  }

  lemma NotifiesStart(d: Db, mode: Mode)
    requires Valid(d)
    ensures NotifiesOutcome(d, [], mode, d)
  {
    hide Valid, ViewOf;
  }

  lemma NotifiesOneMore(d: Db, xs: seq<NotifyExport>, i: nat, mode: Mode, m: Db, d': Db)
    requires i < |xs| && NotifiesOutcome(d, xs[..i], mode, m) && NotifyOutcome(m, xs[i], mode, d')
    ensures NotifiesOutcome(d, xs[..i + 1], mode, d')
  {
    hide Valid, ViewOf, PutNotify;
    assert xs[..i + 1][..i] == xs[..i];
  }

  lemma NotifiesSoFar(d: Db, xs: seq<NotifyExport>, mode: Mode, m: Db)
    requires NotifiesOutcome(d, xs, mode, m)
    ensures Valid(m) && m.hosts == d.hosts && m.channels == d.channels
  {
    hide Valid, ViewOf;
  }

  lemma {:induction false} FoundHostsOneMore(domains: seq<string>, i: nat, hosts: set<string>)
    requires i < |domains|
    ensures FoundHosts(domains[..i + 1], hosts)
         == FoundHosts(domains[..i], hosts) + if domains[i] in hosts then [Some(domains[i])] else []
  {
    assert domains[..i + 1][..i] == domains[..i];
  }

  lemma SeeIdsOneMore(hosts: map<int, HostRow>, ids: seq<int>, id: int)
    requires id in hosts
    ensures SeeIds(hosts, ids + [id]) == SeeIds(hosts, ids) + [Some(hosts[id].domain)]
  {
    assert (ids + [id])[..|ids|] == ids;
  }

  // ----- settings -----

  lemma SettingsView(d: Db, settings: map<string, string>)
    requires Valid(d)
    ensures Valid(d.(settings := settings)) && ViewOf(d.(settings := settings)) == ViewOf(d).(settings := settings)
  {
    hide Index, SeeRules, Unique;
  }

  // ----- the whole import -----

  function WipedDb(d: Db, mode: Mode): Db {
    if mode.Replace? then d.(groups := map[], hosts := map[], channels := map[], notify := []) else d
  }

  lemma EmptyIndex<R, V>(name: R -> string, see: R -> V)
    ensures Unique(map[], name) && Index(map[], name, see) == map[]
  {
  }

  lemma EmptyTables(d: Db)
    requires d.groups == map[] && d.hosts == map[] && d.channels == map[] && d.notify == []
    ensures Valid(d) && ViewOf(d) == View(map[], map[], map[], [], d.settings)
  {
    EmptyIndex(GROUP, SAME_GROUP);
    EmptyIndex(HOST, SeeHost(map[]));
    EmptyIndex(CHANNEL, SAME_CHANNEL);
    hide Unique, Index;
  }

  lemma WipeView(d: Db, mode: Mode)
    requires Valid(d)
    ensures Valid(WipedDb(d, mode)) && ViewOf(WipedDb(d, mode)) == Wiped(ViewOf(d), mode)
  {
    SettingsOf(d);
    if mode.Replace? {
      EmptyTables(WipedDb(d, mode));
    }
    hide Valid, ViewOf;
  }

  lemma ReplacedNames(w: Db, xs: seq<GroupExport>, ids: map<string, int>, g: Db)
    requires GroupsOutcome(w, xs, Replace, Some(ids), g) && TablesOf(w).groups == map[]
    ensures Valid(g) && TablesOf(g).groups.Keys == ids.Keys
  {
    hide Valid, TablesOf, Ids, Upserted, Upsert;
    UpsertLoop(TablesOf(w).groups, xs, GROUP_NAME, GROUP_OK, WRITE_GROUP, true, None);
    UpsertedKeys(TablesOf(w).groups, TablesOf(w).groups, xs, GROUP_NAME, WRITE_GROUP);
  }

  /** After a wipe the groups in the table are those of the bundle. */
  lemma ReplacedGroups(w: Db, xs: seq<GroupExport>, ids: map<string, int>, g: Db)
    requires GroupsOutcome(w, xs, Replace, Some(ids), g) && TablesOf(w).groups == map[]
    ensures forall i :: i in g.groups ==> g.groups[i].name in ids
  {
    hide GroupsOutcome, Index, Unique;
    ReplacedNames(w, xs, ids, g);
    forall i | i in g.groups
      ensures g.groups[i].name in ids
    {
      ViewNames(g.groups, GROUP, SAME_GROUP, i);
    }
  }

  lemma GroupsStart(d: Db, mode: Mode)
    requires Valid(d)
    ensures GroupsOutcome(d, [], mode, Some(map[]), d)
  {
    hide Valid, TablesOf, GroupStep;
  }

  lemma GroupsDone(d: Db, xs: seq<GroupExport>, mode: Mode, ids: map<string, int>, g: Db)
    requires GroupsOutcome(d, xs, mode, Some(ids), g)
    ensures Valid(g) && Ids(ids, g.groups, GROUP)
  {
    hide Valid, TablesOf, GroupStep;
  }

  lemma SettingsOf(d: Db)
    requires Valid(d)
    ensures ViewOf(d).settings == d.settings
  {
  }

  /** Hosts, rules and security together. */
  ghost predicate HostSideOutcome(d: Db, b: Bundle, mode: Mode, r: Option<map<string, int>>, d': Db) {
    && Valid(d)
    && match HostsImported(TablesOf(d), TablesOf(d).groups.Keys, b, mode)
       case None => r.None?
       case Some(hosts) =>
         && r.Some? && OnlyHosts(d, d', hosts) && Ids(r.value, d'.hosts, HOST)
         && d'.nextHost == d.nextHost + Fresh(TablesOf(d).hosts.Keys, KeysOf(b.hosts, HOST_NAME))
  }

  lemma HostSideFails(d: Db, b: Bundle, mode: Mode, d': Db)
    requires HostsOutcome(d, b.hosts, mode, None, d')
    ensures HostSideOutcome(d, b, mode, None, d')
  {
    hide Valid, TablesOf, Fill, Fold, OnlyHosts;
  }

  lemma HostSideRuled(
      d: Db, b: Bundle, mode: Mode, ids: map<string, int>, h: Db, ruled: Option<set<string>>, r: Db,
      secured: Option<set<string>>, s: Db)
    requires HostsOutcome(d, b.hosts, mode, Some(ids), h)
    requires EntriesOutcome(RULES, h, ids.Keys, b.rules, mode.Merge?, ruled, r)
    requires ruled.Some? ==> EntriesOutcome(SECURITY, r, ids.Keys, b.security, mode.Merge?, secured, s)
    requires ruled.Some? && secured.Some? ==> Ids(ids, s.hosts, HOST)
    ensures HostSideOutcome(d, b, mode, if ruled.Some? && secured.Some? then Some(ids) else None, s)
  {
    hide Valid, TablesOf, Fill, Fold, Ids, KeysOf, OnlyHosts, Upsert;
    var hosts := Fold(TablesOf(d).hosts, b.hosts, HostStep(TablesOf(d).groups.Keys, mode)).value;
    OnlyHostsView(d, h, hosts);
    if ruled.Some? {
      var rows := Fold(Filling(TablesOf(h).hosts, {}), b.rules, Fill(RULES, ids.Keys, mode.Merge?)).value.rows;
      OnlyHostsView(h, r, rows);
      OnlyHostsChain(d, h, r, hosts, rows);
      if secured.Some? {
        OnlyHostsChain(d, r, s, rows,
            Fold(Filling(TablesOf(r).hosts, {}), b.security, Fill(SECURITY, ids.Keys, mode.Merge?)).value.rows);
      }
    }
  }

  lemma HostSideDone(d: Db, b: Bundle, mode: Mode, r: Option<map<string, int>>, d': Db)
    requires HostSideOutcome(d, b, mode, r, d') && r.Some?
    ensures Valid(d') && Ids(r.value, d'.hosts, HOST)
  {
    hide Valid, TablesOf, HostsImported;
  }

  lemma HostsImportedReads(v: View, u: View, groups: set<string>, b: Bundle, mode: Mode)
    requires v.hosts == u.hosts
    ensures HostsImported(v, groups, b, mode) == HostsImported(u, groups, b, mode)
  {
  }

  lemma TablesAreView(d: Db)
    requires Valid(d)
    ensures TablesOf(d) == ViewOf(d).(rules := [])
  {
  }

  /** How far an import came: failed at the groups, on the host side, at the channels, or not at all. */
  lemma ImportFails(
      w: Db, v: View, b: Bundle, mode: Mode, g: Db, groupIds: Option<map<string, int>>, s: Db,
      hostIds: Option<map<string, int>>, c: Db)
    requires Valid(w) && ViewOf(w) == Wiped(v, mode) && GroupsOutcome(w, b.groups, mode, groupIds, g)
    requires groupIds.Some? ==> HostSideOutcome(g, b, mode, hostIds, s)
    requires groupIds.Some? && hostIds.Some? ==> ChannelsOutcome(s, b.channels, mode, false, c)
    ensures Imported(v, b, mode).None?
  {
    hide Valid, ViewOf, TablesOf, Fold, HostsImported, Ids, NamesKept, Wiped, Upsert, KeysOf, Fresh, OtherTables;
    TablesAreView(w);
    if groupIds.Some? {
      assert TablesOf(g).hosts == Wiped(v, mode).hosts;
      HostsImportedReads(Wiped(v, mode), TablesOf(g), TablesOf(g).groups.Keys, b, mode);
    }
  }

  /** The steps of a successful import put together, on views. */
  lemma ImportedInSteps(
      w: View, v: View, b: Bundle, mode: Mode, groups: map<string, GroupRow>, hosts: map<string, HostView>,
      channels: map<string, ChannelRow>)
    requires w == Wiped(v, mode)
    requires Fold(w.groups, b.groups, GroupStep(mode)) == Some(groups)
    requires HostsImported(w, groups.Keys, b, mode) == Some(hosts)
    requires Fold(w.channels, b.channels, ChannelStep(mode, w.channels)) == Some(channels)
    ensures Imported(v, b, mode)
         == Some(View(groups, hosts, channels, PutNotifies(w.rules, b.notify, channels.Keys, hosts.Keys, mode),
                      PutSettings(w.settings, b.settings)))
  {
    hide Fold, HostsImported, Wiped, PutNotifies, PutSettings, Upsert;
  }

  lemma GroupsView(w: Db, xs: seq<GroupExport>, mode: Mode, ids: map<string, int>, g: Db)
    requires GroupsOutcome(w, xs, mode, Some(ids), g)
    ensures Valid(w) && Valid(g) && Fold(TablesOf(w).groups, xs, GroupStep(mode)) == Some(TablesOf(g).groups)
    ensures TablesOf(g) == TablesOf(w).(groups := TablesOf(g).groups) && OtherTables(w, g)
  {
    hide Valid, TablesOf, Fold, GroupStep;
  }

  lemma HostSideView(g: Db, b: Bundle, mode: Mode, ids: map<string, int>, s: Db)
    requires HostSideOutcome(g, b, mode, Some(ids), s)
    ensures Valid(g) && Valid(s)
    ensures HostsImported(TablesOf(g), TablesOf(g).groups.Keys, b, mode) == Some(TablesOf(s).hosts)
    ensures TablesOf(s) == TablesOf(g).(hosts := TablesOf(s).hosts)
    ensures s.channels == g.channels && s.notify == g.notify && GaveOut(g.hosts, s.hosts, g.nextHost, s.nextHost)
    ensures s.nextHost == g.nextHost + Fresh(TablesOf(g).hosts.Keys, KeysOf(b.hosts, HOST_NAME))
  {
    hide Valid, TablesOf, HostsImported;
  }

  lemma ChannelsView(s: Db, xs: seq<ChannelExport>, mode: Mode, c: Db)
    requires ChannelsOutcome(s, xs, mode, true, c)
    ensures Valid(s) && Valid(c)
    ensures Fold(TablesOf(s).channels, xs, ChannelStep(mode, TablesOf(s).channels)) == Some(TablesOf(c).channels)
    ensures TablesOf(c) == TablesOf(s).(channels := TablesOf(c).channels)
    ensures NamesStay(s.channels, c.channels) && c.hosts == s.hosts && c.nextHost == s.nextHost && c.notify == s.notify
  {
    hide Valid, TablesOf, Fold, ChannelStep;
  }

  lemma NotifiesView(c: Db, xs: seq<NotifyExport>, mode: Mode, n: Db)
    requires NotifiesOutcome(c, xs, mode, n)
    ensures Valid(c) && Valid(n) && TablesOf(n) == TablesOf(c) && n.hosts == c.hosts && n.channels == c.channels
    ensures ViewOf(n).rules
         == PutNotifies(SeeRules(c.hosts, c.channels, c.notify), xs, TablesOf(c).channels.Keys, TablesOf(c).hosts.Keys,
             mode)
  {
    TablesAreView(c);
    TablesAreView(n);
    assert ViewOf(c).rules == SeeRules(c.hosts, c.channels, c.notify);
    hide Valid, ViewOf, TablesOf, PutNotifies;
  }

  /** What the notification loop makes of the rules `before`, over the other tables of `after`. */
  ghost function RulesAfter(before: seq<RuleView>, b: Bundle, mode: Mode, after: View): seq<RuleView> {
    PutNotifies(before, b.notify, after.channels.Keys, after.hosts.Keys, mode)
  }

  /** The configuration after an import, its rules read through the new tables. */
  ghost predicate Landed(w: Db, v: View, b: Bundle, mode: Mode, c: Db, e: Db) {
    && Valid(w) && Valid(c) && Valid(e) && c.notify == w.notify
    && Imported(v, b, mode) == Some(ViewOf(e).(rules := RulesAfter(ViewOf(w).rules, b, mode, ViewOf(e))))
    && ViewOf(e).rules == RulesAfter(SeeRules(c.hosts, c.channels, w.notify), b, mode, ViewOf(e))
    && GaveOut(w.hosts, c.hosts, w.nextHost, c.nextHost) && NamesStay(w.channels, c.channels)
    && c.nextHost == w.nextHost + Fresh(ViewOf(w).hosts.Keys, KeysOf(b.hosts, HOST_NAME))
    && ViewOf(e).channels.Keys == ViewOf(w).channels.Keys + KeysOf(b.channels, CHANNEL_NAME)
    && e.hosts == c.hosts && e.channels == c.channels
  }

  lemma ChannelKeys(s: map<string, ChannelRow>, xs: seq<ChannelExport>, mode: Mode, c: map<string, ChannelRow>)
    requires Fold(s, xs, ChannelStep(mode, s)) == Some(c)
    ensures c.Keys == s.Keys + KeysOf(xs, CHANNEL_NAME)
  {
    hide Fold, Upsert, Upserted, WriteChannel, KeysOf;
    UpsertLoop(s, xs, CHANNEL_NAME, CHANNEL_OK, WriteChannel(mode), mode.Replace?, Some(s));
    UpsertedKeys(s, s, xs, CHANNEL_NAME, WriteChannel(mode));
  }

  lemma ImportSucceeds(
      w: Db, v: View, b: Bundle, mode: Mode, g: Db, groupIds: map<string, int>, s: Db, hostIds: map<string, int>, c: Db,
      n: Db, e: Db)
    requires Valid(w) && ViewOf(w) == Wiped(v, mode) && GroupsOutcome(w, b.groups, mode, Some(groupIds), g)
    requires HostSideOutcome(g, b, mode, Some(hostIds), s) && ChannelsOutcome(s, b.channels, mode, true, c)
    requires NotifiesOutcome(c, b.notify, mode, n)
    requires Valid(n) && Valid(e) && ViewOf(e) == ViewOf(n).(settings := PutSettings(ViewOf(n).settings, b.settings))
    requires e.hosts == n.hosts && e.channels == n.channels
    ensures Landed(w, v, b, mode, c, e)
  {
    hide Valid, ViewOf, TablesOf, GroupsOutcome, HostSideOutcome, ChannelsOutcome, NotifiesOutcome, Imported, GaveOut,
        NamesStay;
    hide GroupStep, HostsImported, ChannelStep, Fold, KeysOf, PutNotifies, PutSettings, SeeRules, Wiped;
    GroupsView(w, b.groups, mode, groupIds, g);
    HostSideView(g, b, mode, hostIds, s);
    ChannelsView(s, b.channels, mode, c);
    NotifiesView(c, b.notify, mode, n);
    TablesAreView(w);
    TablesAreView(n);
    HostsImportedReads(ViewOf(w), TablesOf(g), TablesOf(g).groups.Keys, b, mode);
    ChannelKeys(TablesOf(s).channels, b.channels, mode, TablesOf(c).channels);
    ImportedInSteps(ViewOf(w), v, b, mode, TablesOf(g).groups, TablesOf(s).hosts, TablesOf(c).channels);
  }

  lemma NoRowsNoRules(hosts: map<int, HostRow>, channels: map<int, ChannelRow>)
    ensures SeeRules(hosts, channels, []) == []
  {
  }

  lemma RulesOf(d: Db)
    requires Valid(d)
    ensures ViewOf(d).rules == SeeRules(d.hosts, d.channels, d.notify) && RulesLinked(d.notify, d.channels)
  {
  }

  /** A merge leads to the imported view exactly when no kept rule filters on an
      id it gives out to a host; a replacing import always does. */
  lemma StrayLaw(d: Db, b: Bundle, mode: Mode, c: Db, e: Db)
    requires Valid(d) && Landed(WipedDb(d, mode), ViewOf(d), b, mode, c, e)
    ensures Valid(e) && Imported(ViewOf(d), b, mode).Some?
    ensures ViewOf(e) == Imported(ViewOf(d), b, mode).value <==> mode.Replace? || !HasStrayFilter(d, b)
  {
    var w := WipedDb(d, mode);
    RulesOf(w);
    if mode.Replace? {
      hide Valid, ViewOf, Imported, PutNotifies, SeeRules, GaveOut, NamesStay, KeysOf, Fresh;
      NoRowsNoRules(w.hosts, w.channels);
      NoRowsNoRules(c.hosts, c.channels);
    } else {
      assert w == d;
      StrayRules(d, b, c, e);
      hide Valid, ViewOf, Imported, RulesAfter, SeeRules, GaveOut, NamesStay, KeysOf, HasStrayFilter, Fresh;
    }
  }

  lemma LandedIs(w: Db, v: View, b: Bundle, mode: Mode, c: Db, e: Db)
    requires Landed(w, v, b, mode, c, e)
    ensures Valid(w) && Valid(e) && c.notify == w.notify
    ensures GaveOut(w.hosts, c.hosts, w.nextHost, c.nextHost) && NamesStay(w.channels, c.channels)
    ensures c.nextHost == w.nextHost + NewHosts(w, b)
    ensures ViewOf(e).channels.Keys == ViewOf(w).channels.Keys + KeysOf(b.channels, CHANNEL_NAME)
  {
    hide Valid, ViewOf, RulesAfter, GaveOut, NamesStay, KeysOf, Fresh, Imported;
  }

  lemma RulesAfterIs(before: seq<RuleView>, b: Bundle, mode: Mode, after: View)
    ensures RulesAfter(before, b, mode, after)
         == PutNotifies(before, b.notify, after.channels.Keys, after.hosts.Keys, mode)
  {
  }

  lemma StrayRules(d: Db, b: Bundle, c: Db, e: Db)
    requires Valid(d) && Landed(d, ViewOf(d), b, Merge, c, e)
    ensures RulesAfter(ViewOf(d).rules, b, Merge, ViewOf(e))
            == RulesAfter(SeeRules(c.hosts, c.channels, d.notify), b, Merge, ViewOf(e))
            <==> !HasStrayFilter(d, b)
  {
    hide *;
    RulesOf(d);
    LandedIs(d, ViewOf(d), b, Merge, c, e);
    var now, later := SeeRules(d.hosts, d.channels, d.notify), SeeRules(c.hosts, c.channels, d.notify);
    var channels, hosts := ViewOf(e).channels.Keys, ViewOf(e).hosts.Keys;
    RulesStayIff(d.hosts, c.hosts, d.nextHost, c.nextHost, d.channels, c.channels, d.notify);
    MergedSameIff(d.notify, now, later, b.notify, channels, hosts, d.nextHost, c.nextHost);
    StrayIs(d, b, channels, c.nextHost);
    RulesAfterIs(now, b, Merge, ViewOf(e));
    RulesAfterIs(later, b, Merge, ViewOf(e));
  }

  // ----- export -----

  /** The entry of one rule, in front of those of the older ones. */
  lemma YoungestRule(d: Db, i: nat)
    requires Valid(d) && i < |d.notify|
    ensures var r := d.notify[i];
            && r.channelId in d.channels
            && Youngest(SeeRules(d.hosts, d.channels, d.notify[..i + 1]))
               == [NotifyExport(r.name, d.channels[r.channelId].name, r.event, Domains(SeeIds(d.hosts, r.hostIds)),
                                r.severities, r.enabled, r.throttle)]
                                    + Youngest(SeeRules(d.hosts, d.channels, d.notify[..i]))
  {
    var r, front := d.notify[i], SeeRules(d.hosts, d.channels, d.notify[..i]);
    hide Valid, SeeRules;
    assert d.notify[..i + 1] == d.notify[..i] + [r];
    AppendRule(d.hosts, d.channels, d.notify[..i], r);
    assert (front + [SeeNotify(d.hosts, d.channels, r)])[..|front|] == front;
  }

  lemma MoveOver<T>(a: seq<T>, x: T, b: seq<T>)
    ensures a + ([x] + b) == (a + [x]) + b
  {
  }

  lemma NoRules(d: Db)
    ensures Youngest(SeeRules(d.hosts, d.channels, d.notify[..0])) == []
  {
  }

  // The row found under a name is the one the view shows.

  lemma GroupSeen(d: Db, names: seq<string>, k: nat)
    requires Valid(d) && k < |names| && forall i :: 0 <= i < |names| ==> names[i] in ViewOf(d).groups
    ensures var i := Find(d.groups, GROUP, names[k]);
            i.Some? && (var g := d.groups[i.value];
                        GroupExports(ViewOf(d), names)[k] == GroupExport(g.name, g.cols, g.targets))
  {
    IndexFind(d.groups, GROUP, SAME_GROUP, names[k]);
    hide Index, Unique, Find;
  }

  lemma HostSeen(d: Db, n: string)
    requires Valid(d) && n in ViewOf(d).hosts
    ensures var i := Find(d.hosts, HOST, n);
            i.Some? && d.hosts[i.value].domain == n && ViewOf(d).hosts[n] == SeeHost(d.groups)(d.hosts[i.value])
  {
    IndexFind(d.hosts, HOST, SeeHost(d.groups), n);
    hide Index, Unique, Find, SeeHost;
  }

  lemma HostExportSeen(d: Db, names: seq<string>, k: nat)
    requires Valid(d) && k < |names| && forall i :: 0 <= i < |names| ==> names[i] in ViewOf(d).hosts
    ensures var i := Find(d.hosts, HOST, names[k]);
            i.Some? && (var h := d.hosts[i.value];
                        HostExports(ViewOf(d), names)[k]
                            == HostExport(h.domain, NameOf(d.groups, GROUP, h.groupId), h.cols))
  {
    HostSeen(d, names[k]);
    hide Valid, ViewOf, Find;
  }

  lemma SecuritySeen(d: Db, names: seq<string>, k: nat)
    requires Valid(d) && k < |names| && forall i :: 0 <= i < |names| ==> names[i] in ViewOf(d).hosts
    ensures var i := Find(d.hosts, HOST, names[k]);
            i.Some? && (var h := d.hosts[i.value];
                        SecurityExports(ViewOf(d), names)[k]
                        == SecurityExport(h.domain, Effective(h.security), h.exclusions, h.customRules))
  {
    HostSeen(d, names[k]);
    hide Valid, ViewOf, Find;
  }

  lemma RulesSeen(d: Db, names: seq<string>, k: nat)
    requires Valid(d) && k < |names| && forall i :: 0 <= i < |names| ==> names[i] in ViewOf(d).hosts
    ensures var i := Find(d.hosts, HOST, names[k]);
            i.Some? && RuleExports(ViewOf(d), names[..k + 1])
                       == RuleExports(ViewOf(d), names[..k])
                           + RulesOfHost(d.hosts[i.value].domain, d.hosts[i.value].rules)
  {
    HostSeen(d, names[k]);
    hide Valid, ViewOf, Find;
    assert names[..k + 1][..k] == names[..k];
  }

  lemma ChannelSeen(d: Db, names: seq<string>, k: nat)
    requires Valid(d) && k < |names| && forall i :: 0 <= i < |names| ==> names[i] in ViewOf(d).channels
    ensures var i := Find(d.channels, CHANNEL, names[k]);
            i.Some? && (var c := d.channels[i.value];
                        ChannelExports(ViewOf(d), names)[k]
                        == ChannelExport(c.name, c.kind, c.enabled, Redact(c.kind, c.config), c.template,
                            c.ratePerMinute))
  {
    IndexFind(d.channels, CHANNEL, SAME_CHANNEL, names[k]);
    hide Index, Unique, Find, Redact;
  }

  function NamesIn<R>(t: map<int, R>, name: R -> string): set<string> {
    set i | i in t :: name(t[i])
  }

  lemma IndexKeys<R, V>(t: map<int, R>, name: R -> string, see: R -> V)
    requires Unique(t, name)
    ensures Index(t, name, see).Keys == NamesIn(t, name)
  {
  }

  lemma ViewKeys(d: Db)
    requires Valid(d)
    ensures ViewOf(d).groups.Keys == NamesIn(d.groups, GROUP)
    ensures ViewOf(d).hosts.Keys == NamesIn(d.hosts, HOST)
    ensures ViewOf(d).channels.Keys == NamesIn(d.channels, CHANNEL)
    ensures ViewOf(d).settings == d.settings
  {
    hide Index, Unique, SeeRules, RulesLinked, NamesIn;
    IndexKeys(d.groups, GROUP, SAME_GROUP);
    IndexKeys(d.hosts, HOST, SeeHost(d.groups));
    IndexKeys(d.channels, CHANNEL, SAME_CHANNEL);
  }

  method InsertTargets(ts: seq<Target>) returns (ok: bool)
    ensures ok <==> DistinctTargets(ts)
  {
    var rows: seq<Target> := [];
    for i := 0 to |ts|
      invariant rows == ts[..i] && DistinctTargets(rows)
    {
      if exists r :: r in rows && r.host == ts[i].host && r.port == ts[i].port {
        var k :| 0 <= k < |rows| && rows[k].host == ts[i].host && rows[k].port == ts[i].port;
        assert ts[k].host == ts[i].host && ts[k].port == ts[i].port;
        return false;
      }
      rows := rows + [ts[i]];
    }
    assert ts[..|ts|] == ts;
    return true;
  }

  method InsertExclusions(rows: seq<Exclusion>, xs: seq<Exclusion>) returns (r: Option<seq<Exclusion>>)
    ensures r == Fold(rows, xs, ADD_EXCLUSION)
  {
    r := Some(rows);
    for i := 0 to |xs|
      invariant r.Some? && r == Fold(rows, xs[..i], ADD_EXCLUSION)
    {
      FoldOneMore(rows, xs, i, ADD_EXCLUSION);
      var e, es := xs[i], r.value;
      if e.crsRule <= 0 || exists d :: d in es && d.crsRule == e.crsRule && d.path == e.path {
        FailedPrefix(rows, xs, i + 1, ADD_EXCLUSION);
        return None;
      }
      r := Some(Insert(es, e, BY_CRS));
    }
    assert xs[..|xs|] == xs;
  }

  method WriteSettings(settings: map<string, string>, given: map<string, string>) returns (r: map<string, string>)
    ensures r == PutSettings(settings, given)
  {
    hide Exportable;
    r := settings;
    var rest := given.Keys;
    while rest != {}
      invariant rest <= given.Keys
      invariant r.Keys == settings.Keys + set k | k in given && k !in rest && Exportable(k)
      invariant forall k :: k in r ==>
                r[k] == if k in given && k !in rest && Exportable(k) then given[k] else settings[k]
      decreases rest
    {
      var k :| k in rest;
      rest := rest - {k};
      if Exportable(k) {
        r := r[k := given[k]];
      }
    }
    assert r.Keys == PutSettings(settings, given).Keys;
  }

  // ----- apply -----

  /** The transaction of an import: `db` is its uncommitted state. */
  class Store {
    var db: Db

    constructor (db: Db)
      ensures this.db == db
    {
      this.db := db;
    }

    method UpsertTargetGroup(x: GroupExport, mode: Mode) returns (r: Option<int>)
      requires Valid(db)
      modifies this
      ensures GroupOutcome(old(db), x, mode, r, db)
    {
      hide Valid, GroupOutcome;
      var cols := Normal(x.cols);
      var distinct := InsertTargets(x.targets);
      var found := FindGroup(x.name);
      if !distinct || !GroupFits(cols, x.targets) || (found.Some? && mode.Replace?) {
        GroupRefused(db, x, mode);
        return None;
      }
      var id, row := db.nextGroup, GroupRow(x.name, cols, x.targets, false);
      if found.Some? {
        id := found.value;
        row := db.groups[id].(cols := cols, targets := x.targets);
      }
      GroupWritten(db, x, mode, id, row);
      db := WithGroup(db, id, row);
      return Some(id);
    }

    method FindGroup(name: string) returns (id: Option<int>)
      requires Valid(db)
      ensures Unique(db.groups, GROUP) && id == Find(db.groups, GROUP, name)
      ensures id.Some? ==> id.value in db.groups && db.groups[id.value].name == name
    {
      id := Find(db.groups, GROUP, name);
    }

    method ImportGroups(xs: seq<GroupExport>, mode: Mode) returns (r: Option<map<string, int>>)
      requires Valid(db)
      modifies this
      ensures GroupsOutcome(old(db), xs, mode, r, db)
    {
      var ids: map<string, int> := map[];
      GroupsStart(db, mode);
      assert xs[..0] == [];
      hide Valid, GroupsOutcome, GroupOutcome;
      for i := 0 to |xs|
        invariant GroupsOutcome(old(db), xs[..i], mode, Some(ids), db)
      {
        ghost var m := db;
        GroupsDone(old(db), xs[..i], mode, ids, m);
        var id := UpsertTargetGroup(xs[i], mode);
        GroupsOneMore(old(db), xs, i, mode, ids, m, id, db);
        if id.None? {
          return None;
        }
        ids := ids[xs[i].name := id.value];
      }
      assert xs[..|xs|] == xs;
      return Some(ids);
    }

    /** The group a host refers to: from the bundle, or when merging from the table. */
    method ResolveGroup(name: string, ids: map<string, int>, mode: Mode) returns (r: Option<int>)
      requires Valid(db) && Ids(ids, db.groups, GROUP)
      requires mode.Replace? ==> forall i :: i in db.groups ==> db.groups[i].name in ids
      ensures Valid(db) && (r.Some? <==> Find(db.groups, GROUP, name).Some?)
      ensures r.Some? ==> r.value in db.groups && db.groups[r.value].name == name
    {
      ghost var found := Find(db.groups, GROUP, name);
      if name in ids {
        FindIsId(db.groups, GROUP, ids[name]);
      }
      assert mode.Replace? && found.Some? ==> name in ids;
      if name in ids {
        return Some(ids[name]);
      }
      if mode.Merge? {
        r := FindGroup(name);
        return;
      }
      return None;
    }

    method UpsertHost(x: HostExport, groupId: int, mode: Mode) returns (r: Option<int>)
      requires Valid(db) && groupId in db.groups && db.groups[groupId].name == x.group
      modifies this
      ensures HostOutcome(old(db), x, mode, r, db)
    {
      var found := FindHost(x.domain);
      hide Valid, HostOutcome;
      var cols := NormalHost(x.cols);
      if !HostFits(cols) || (found.Some? && mode.Replace?) {
        HostRefused(db, x, mode);
        return None;
      }
      var id, row := db.nextHost, HostRow(x.domain, groupId, cols, NewHostExtra(), [], None, [], []);
      if found.Some? {
        id := found.value;
        row := db.hosts[id].(groupId := groupId, cols := cols);
      }
      HostWritten(db, x, groupId, mode, id, row);
      db := WithHost(db, id, row);
      return Some(id);
    }

    method FindHost(domain: string) returns (id: Option<int>)
      requires Valid(db)
      ensures Unique(db.hosts, HOST) && id == Find(db.hosts, HOST, domain)
      ensures id.Some? ==> id.value in db.hosts && db.hosts[id.value].domain == domain
    {
      id := Find(db.hosts, HOST, domain);
    }

    method ImportHosts(
        xs: seq<HostExport>, groupIds: map<string, int>, mode: Mode) returns (r: Option<map<string, int>>)
      requires Valid(db) && Ids(groupIds, db.groups, GROUP)
      requires mode.Replace? ==> forall i :: i in db.groups ==> db.groups[i].name in groupIds
      modifies this
      ensures HostsOutcome(old(db), xs, mode, r, db)
    {
      var ids: map<string, int> := map[];
      HostsStart(db, mode);
      assert xs[..0] == [];
      hide Valid, HostsOutcome;
      for i := 0 to |xs|
        invariant db.groups == old(db).groups
        invariant HostsOutcome(old(db), xs[..i], mode, Some(ids), db)
      {
        ghost var m := db;
        HostsSoFar(old(db), xs[..i], mode, ids, m);
        var groupId := ResolveGroup(xs[i].group, groupIds, mode);
        var id := None;
        if groupId.None? {
          HostRefused(m, xs[i], mode);
        } else {
          id := UpsertHost(xs[i], groupId.value, mode);
        }
        HostsOneMore(old(db), xs, i, mode, ids, m, id, db);
        if id.None? {
          return None;
        }
        HostsSoFar(old(db), xs[..i + 1], mode, ids[xs[i].domain := id.value], db);
        ids := ids[xs[i].domain := id.value];
      }
      assert xs[..|xs|] == xs;
      return Some(ids);
    }

    /** One entry of the rules loop: `seen` are the hosts whose rules were deleted before. */
    method InsertRule(x: RuleExport, ids: map<string, int>, seen: set<int>, ghost met: set<string>, mode: Mode)
      returns (r: Option<set<int>>)
      requires Valid(db) && Ids(ids, db.hosts, HOST) && (mode.Merge? ==> SeenIs(seen, met, db.hosts))
      modifies this
      ensures EntryOutcome(RULES, old(db), met, ids.Keys, x, mode.Merge?, if r.Some? then Some(met + {x.host})
          else None, db)
      ensures r.Some? ==> Ids(ids, db.hosts, HOST) && (mode.Merge? ==> SeenIs(r.value, met + {x.host}, db.hosts))
    {
      hide Valid, EntryOutcome;
      if x.host !in ids {
        EntryUnknown(RULES, db, met, ids.Keys, x, mode.Merge?);
        return None;
      }
      var id := ids[x.host];
      var row := db.hosts[id];
      var rules := row.rules;
      if mode.Merge? && id !in seen {
        rules := [];
      }
      assert rules == Base(RULES, db, met, id, mode.Merge?);
      if !x.rule.decodes || exists q :: q in rules && q.priority == x.rule.priority {
        EntryRefused(RULES, db, met, ids.Keys, x, mode.Merge?, id);
        return None;
      }
      rules := Insert(rules, x.rule, BY_PRIORITY);
      hide SeenIs, Ids;
      row := row.(rules := rules);
      EntryWritten(RULES, db, met, ids.Keys, x, mode.Merge?, id, row, rules);
      if mode.Merge? {
        SeenOneMore(db, seen, met, id, row);
      }
      IdsStay(db, ids, id, row);
      db := WithHost(db, id, row);
      return Some(seen + {id});
    }

    method ImportRules(xs: seq<RuleExport>, ids: map<string, int>, mode: Mode) returns (ok: bool)
      requires Valid(db) && Ids(ids, db.hosts, HOST)
      modifies this
      ensures exists met :: EntriesOutcome(RULES, old(db), ids.Keys, xs, mode.Merge?, if ok then Some(met) else None,
          db)
      ensures ok ==> Ids(ids, db.hosts, HOST)
    {
      var seen: set<int> := {};
      ghost var met: set<string> := {};
      EntriesStart(RULES, db, ids.Keys, mode.Merge?);
      assert xs[..0] == [];
      hide Valid, EntriesOutcome, Ids;
      for i := 0 to |xs|
        invariant EntriesOutcome(RULES, old(db), ids.Keys, xs[..i], mode.Merge?, Some(met), db)
        invariant Ids(ids, db.hosts, HOST) && (mode.Merge? ==> SeenIs(seen, met, db.hosts))
      {
        ghost var m := db;
        EntriesSoFar(RULES, old(db), ids.Keys, xs[..i], mode.Merge?, met, m);
        var r := InsertRule(xs[i], ids, seen, met, mode);
        EntriesOneMore(RULES, old(db), ids.Keys, xs, i, mode.Merge?, met, m, if r.Some? then Some(met + {xs[i].host})
            else None, db);
        if r.None? {
          return false;
        }
        seen, met := r.value, met + {xs[i].host};
      }
      assert xs[..|xs|] == xs;
      return true;
    }

    method InsertSecurity(x: SecurityExport, ids: map<string, int>, seen: set<int>, ghost met: set<string>, mode: Mode)
      returns (r: Option<set<int>>)
      requires Valid(db) && Ids(ids, db.hosts, HOST) && (mode.Merge? ==> SeenIs(seen, met, db.hosts))
      modifies this
      ensures EntryOutcome(SECURITY, old(db), met, ids.Keys, x, mode.Merge?, if r.Some? then Some(met + {x.host})
          else None, db)
      ensures r.Some? ==> Ids(ids, db.hosts, HOST) && (mode.Merge? ==> SeenIs(r.value, met + {x.host}, db.hosts))
    {
      hide Valid, EntryOutcome;
      if x.host !in ids {
        EntryUnknown(SECURITY, db, met, ids.Keys, x, mode.Merge?);
        return None;
      }
      var id := ids[x.host];
      var row := db.hosts[id];
      var exclusions, customRules := row.exclusions, row.customRules;
      if mode.Merge? && id !in seen {
        exclusions, customRules := [], [];
      }
      ghost var base := Base(SECURITY, db, met, id, mode.Merge?);
      assert base.exclusions == exclusions && base.customRules == customRules;
      var added := InsertExclusions(exclusions, x.exclusions);
      if !SecurityFits(x.row) || added.None? {
        EntryRefused(SECURITY, db, met, ids.Keys, x, mode.Merge?, id);
        return None;
      }
      hide SeenIs, Ids;
      row := row.(security := Some(x.row), exclusions := added.value, customRules := customRules + x.customRules);
      EntryWritten(SECURITY, db, met, ids.Keys, x, mode.Merge?, id, row,
                   SecurityPart(row.security, row.exclusions, row.customRules));
      if mode.Merge? {
        SeenOneMore(db, seen, met, id, row);
      }
      IdsStay(db, ids, id, row);
      db := WithHost(db, id, row);
      return Some(seen + {id});
    }

    method ImportSecurity(xs: seq<SecurityExport>, ids: map<string, int>, mode: Mode) returns (ok: bool)
      requires Valid(db) && Ids(ids, db.hosts, HOST)
      modifies this
      ensures exists met :: EntriesOutcome(SECURITY, old(db), ids.Keys, xs, mode.Merge?, if ok then Some(met) else None,
          db)
      ensures ok ==> Ids(ids, db.hosts, HOST)
    {
      var seen: set<int> := {};
      ghost var met: set<string> := {};
      EntriesStart(SECURITY, db, ids.Keys, mode.Merge?);
      assert xs[..0] == [];
      hide Valid, EntriesOutcome, Ids;
      for i := 0 to |xs|
        invariant EntriesOutcome(SECURITY, old(db), ids.Keys, xs[..i], mode.Merge?, Some(met), db)
        invariant Ids(ids, db.hosts, HOST) && (mode.Merge? ==> SeenIs(seen, met, db.hosts))
      {
        ghost var m := db;
        EntriesSoFar(SECURITY, old(db), ids.Keys, xs[..i], mode.Merge?, met, m);
        var r := InsertSecurity(xs[i], ids, seen, met, mode);
        EntriesOneMore(SECURITY, old(db), ids.Keys, xs, i, mode.Merge?, met, m, if r.Some? then Some(met + {xs[i].host})
            else None, db);
        if r.None? {
          return false;
        }
        seen, met := r.value, met + {xs[i].host};
      }
      assert xs[..|xs|] == xs;
      return true;
    }

    method FindChannel(name: string) returns (id: Option<int>)
      requires Valid(db)
      ensures id == Find(db.channels, CHANNEL, name)
      ensures id.Some? ==> id.value in db.channels && db.channels[id.value].name == name
    {
      id := Find(db.channels, CHANNEL, name);
    }

    /** `before` is the channel table before the loop, which the previous ciphertexts come from. */
    method UpsertChannel(x: ChannelExport, before: map<int, ChannelRow>, mode: Mode) returns (ok: bool)
      requires Valid(db) && Unique(before, CHANNEL)
      modifies this
      ensures ChannelOutcome(old(db), Index(before, CHANNEL, SAME_CHANNEL), x, mode, ok, db)
    {
      var prev := Find(before, CHANNEL, x.name);
      IndexFind(before, CHANNEL, SAME_CHANNEL, x.name);
      ghost var table := Index(before, CHANNEL, SAME_CHANNEL);
      hide Valid, Index, ChannelOutcome;
      var config, enabled := x.config, x.enabled;
      var f := SecretField(x.kind);
      if f.Some? && f.value in config && config[f.value] == Placeholder() {
        var kept := KeptSecret(if prev.Some? then Some(before[prev.value]) else None, f.value);
        if mode.Merge? && kept.Some? {
          config := config[f.value := kept.value];
        } else {
          config, enabled := config[f.value := Text("")], false;
        }
      }
      var row := ChannelRow(x.name, x.kind, enabled, config, x.template, x.ratePerMinute);
      assert row == WriteChannel(mode)(x, Get(table, x.name));
      hide WriteChannel, SecretField, KeptSecret;
      var found := FindChannel(x.name);
      if !ChannelFits(x.kind) || (found.Some? && mode.Replace?) {
        ChannelRefused(db, table, x, mode);
        return false;
      }
      var id := if found.Some? then found.value else db.nextChannel;
      ChannelWritten(db, table, x, mode, id, row);
      db := WithChannel(db, id, row);
      return true;
    }

    method ImportChannels(xs: seq<ChannelExport>, mode: Mode) returns (ok: bool)
      requires Valid(db)
      modifies this
      ensures ChannelsOutcome(old(db), xs, mode, ok, db)
    {
      var before := db.channels;
      assert Unique(before, CHANNEL) && Index(before, CHANNEL, SAME_CHANNEL) == TablesOf(db).channels;
      ChannelsStart(db, mode);
      assert xs[..0] == [];
      hide Valid, ChannelsOutcome, Index, TablesOf, Unique;
      for i := 0 to |xs|
        invariant ChannelsOutcome(old(db), xs[..i], mode, true, db)
      {
        ghost var m := db;
        ChannelsSoFar(old(db), xs[..i], mode, m);
        ok := UpsertChannel(xs[i], before, mode);
        ChannelsOneMore(old(db), xs, i, mode, m, ok, db);
        if !ok {
          return;
        }
      }
      assert xs[..|xs|] == xs;
      return true;
    }

    /** Filtered domains become the ids of the hosts that exist. */
    method ResolveHosts(domains: seq<string>, ids: map<string, int>) returns (r: seq<int>)
      requires Valid(db) && Ids(ids, db.hosts, HOST)
      ensures SeeIds(db.hosts, r) == FoundHosts(domains, ViewOf(db).hosts.Keys)
      ensures forall i :: i in r ==> i in db.hosts
    {
      r := [];
      HostNames(db);
      ghost var names := ViewOf(db).hosts.Keys;
      hide ViewOf;
      for i := 0 to |domains|
        invariant SeeIds(db.hosts, r) == FoundHosts(domains[..i], names)
        invariant forall j :: j in r ==> j in db.hosts
      {
        FoundHostsOneMore(domains, i, names);
        var id := None;
        if domains[i] in ids {
          id := Some(ids[domains[i]]);
          FindIsId(db.hosts, HOST, id.value);
        } else {
          id := FindHost(domains[i]);
        }
        hide Valid, SeeIds, FoundHosts;
        if id.Some? {
          SeeIdsOneMore(db.hosts, r, id.value);
          r := r + [id.value];
        }
      }
      assert domains[..|domains|] == domains;
    }

    method InsertNotify(x: NotifyExport, hostIds: map<string, int>, mode: Mode)
      requires Valid(db) && Ids(hostIds, db.hosts, HOST)
      modifies this
      ensures NotifyOutcome(old(db), x, mode, db)
    {
      var channel := FindChannel(x.channel);
      if channel.None? {
        NotifySkipped(db, x, mode);
        return;
      }
      var ids := ResolveHosts(x.hosts, hostIds);
      var row := NotifyRow(x.name, channel.value, x.event, ids, x.severities, x.enabled, x.throttle);
      assert SeeNotify(db.hosts, db.channels, row) == NotifyView(x, ViewOf(db).hosts.Keys);
      ghost var d := db;
      RulesDropped(db, x.name);
      hide Valid, ViewOf, SeeNotify, NotifyView, NotifyOutcome;
      if mode.Merge? {
        db := WithNotify(db, Dropped(db.notify, x.name));
      }
      NotifyWritten(d, db, x, mode, row);
      db := WithNotify(db, db.notify + [row]);
    }

    method ImportNotify(xs: seq<NotifyExport>, hostIds: map<string, int>, mode: Mode)
      requires Valid(db) && Ids(hostIds, db.hosts, HOST)
      modifies this
      ensures NotifiesOutcome(old(db), xs, mode, db)
    {
      NotifiesStart(db, mode);
      assert xs[..0] == [];
      hide Valid, NotifiesOutcome;
      for i := 0 to |xs|
        invariant NotifiesOutcome(old(db), xs[..i], mode, db)
      {
        ghost var m := db;
        NotifiesSoFar(old(db), xs[..i], mode, m);
        InsertNotify(xs[i], hostIds, mode);
        NotifiesOneMore(old(db), xs, i, mode, m, db);
      }
      assert xs[..|xs|] == xs;
    }

    method ImportSettings(given: map<string, string>)
      requires Valid(db)
      modifies this
      ensures Valid(db) && ViewOf(db) == ViewOf(old(db)).(settings := PutSettings(old(db).settings, given))
      ensures db.hosts == old(db).hosts && db.channels == old(db).channels
    {
      var settings := WriteSettings(db.settings, given);
      SettingsOf(db);
      hide *;
      SettingsView(db, settings);
      db := db.(settings := settings);
    }

    method ImportHostSide(b: Bundle, groupIds: map<string, int>, mode: Mode) returns (r: Option<map<string, int>>)
      requires Valid(db) && Ids(groupIds, db.groups, GROUP)
      requires mode.Replace? ==> forall i :: i in db.groups ==> db.groups[i].name in groupIds
      modifies this
      ensures HostSideOutcome(old(db), b, mode, r, db)
    {
      ghost var d := db;
      hide Valid, HostsOutcome, EntriesOutcome, HostSideOutcome;
      r := ImportHosts(b.hosts, groupIds, mode);
      if r.None? {
        HostSideFails(d, b, mode, db);
        return;
      }
      ghost var h := db;
      HostsSoFar(d, b.hosts, mode, r.value, h);
      var ok := ImportRules(b.rules, r.value, mode);
      ghost var ruled :| EntriesOutcome(RULES, h, r.value.Keys, b.rules, mode.Merge?, if ok then Some(ruled) else None,
          db);
      if !ok {
        HostSideRuled(d, b, mode, r.value, h, None, db, None, db);
        return None;
      }
      ghost var m := db;
      EntriesSoFar(RULES, h, r.value.Keys, b.rules, mode.Merge?, ruled, m);
      ok := ImportSecurity(b.security, r.value, mode);
      ghost var secured :| EntriesOutcome(SECURITY, m, r.value.Keys, b.security, mode.Merge?, if ok then Some(secured)
          else None, db);
      HostSideRuled(d, b, mode, r.value, h, Some(ruled), m, if ok then Some(secured) else None, db);
      if !ok {
        return None;
      }
    }

    /** Apply: all of the bundle in one transaction, or none of it. */
    method Apply(b: Bundle, mode: Mode) returns (ok: bool)
      requires Valid(db)
      modifies this
      ensures Valid(db)
      ensures ok <==> Imported(ViewOf(old(db)), b, mode).Some?
      ensures ok ==> ViewOf(db).(rules := []) == Imported(ViewOf(old(db)), b, mode).value.(rules := [])
      ensures ok ==>
                ViewOf(db).rules
                    == RulesAfter(SeeRules(db.hosts, db.channels, WipedDb(old(db), mode).notify), b, mode, ViewOf(db))
      ensures ok ==>
                (ViewOf(db) == Imported(ViewOf(old(db)), b, mode).value
                 <==> mode.Replace? || !HasStrayFilter(old(db), b))
      ensures !ok ==> db == old(db)
    {
      var before := db;
      ghost var v := ViewOf(db);
      WipeView(db, mode);
      if mode.Replace? {
        db := db.(groups := map[], hosts := map[], channels := map[], notify := []);
      }
      ghost var w := db;
      var groupIds := ImportGroups(b.groups, mode);
      ghost var g := db;
      if groupIds.None? {
        ImportFails(w, v, b, mode, g, None, g, None, g);
        db := before;
        return false;
      }
      if mode.Replace? {
        ReplacedGroups(w, b.groups, groupIds.value, g);
      }
      hide Valid, GroupsOutcome, HostSideOutcome, ChannelsOutcome, NotifiesOutcome, Imported;
      GroupsDone(w, b.groups, mode, groupIds.value, g);
      var hostIds := ImportHostSide(b, groupIds.value, mode);
      ghost var s := db;
      if hostIds.None? {
        ImportFails(w, v, b, mode, g, groupIds, s, None, s);
        db := before;
        return false;
      }
      HostSideDone(g, b, mode, hostIds, s);
      ok := ImportChannels(b.channels, mode);
      ghost var c := db;
      if !ok {
        ImportFails(w, v, b, mode, g, groupIds, s, hostIds, c);
        db := before;
        return;
      }
      ChannelsSoFar(s, b.channels, mode, c);
      ImportNotify(b.notify, hostIds.value, mode);
      ghost var n := db;
      NotifiesSoFar(c, b.notify, mode, n);
      SettingsOf(n);
      ImportSettings(b.settings);
      ImportSucceeds(w, v, b, mode, g, groupIds.value, s, hostIds.value, c, n, db);
      StrayLaw(before, b, mode, c, db);
    }

    // ----- export -----

    method ExportGroups(names: seq<string>) returns (out: seq<GroupExport>)
      requires Valid(db) && forall i :: 0 <= i < |names| ==> names[i] in ViewOf(db).groups
      ensures out == GroupExports(ViewOf(db), names)
    {
      ghost var goal := GroupExports(ViewOf(db), names);
      out := [];
      hide *;
      for i := 0 to |names|
        invariant out == goal[..i]
      {
        GroupSeen(db, names, i);
        var id := FindGroup(names[i]);
        var g := db.groups[id.value];
        out := out + [GroupExport(g.name, g.cols, g.targets)];
        assert goal[..i + 1] == goal[..i] + [goal[i]];
      }
    }

    method ExportHosts(names: seq<string>) returns (out: seq<HostExport>)
      requires Valid(db) && forall i :: 0 <= i < |names| ==> names[i] in ViewOf(db).hosts
      ensures out == HostExports(ViewOf(db), names)
    {
      ghost var goal := HostExports(ViewOf(db), names);
      out := [];
      hide *;
      for i := 0 to |names|
        invariant out == goal[..i]
      {
        HostExportSeen(db, names, i);
        var id := FindHost(names[i]);
        var h := db.hosts[id.value];
        out := out + [HostExport(h.domain, NameOf(db.groups, GROUP, h.groupId), h.cols)];
        assert goal[..i + 1] == goal[..i] + [goal[i]];
      }
    }

    method ExportRules(names: seq<string>) returns (out: seq<RuleExport>)
      requires Valid(db) && forall i :: 0 <= i < |names| ==> names[i] in ViewOf(db).hosts
      ensures out == RuleExports(ViewOf(db), names)
    {
      ghost var v := ViewOf(db);
      assert RuleExports(v, names[..0]) == [];
      out := [];
      hide *;
      for i := 0 to |names|
        invariant out == RuleExports(v, names[..i])
      {
        RulesSeen(db, names, i);
        var id := FindHost(names[i]);
        var more := ExportRulesOf(db.hosts[id.value]);
        out := out + more;
      }
      assert names[..|names|] == names;
    }

    method ExportRulesOf(h: HostRow) returns (out: seq<RuleExport>)
      ensures out == RulesOfHost(h.domain, h.rules)
    {
      out := [];
      for k := 0 to |h.rules|
        invariant out == RulesOfHost(h.domain, h.rules[..k])
      {
        out := out + [RuleExport(h.domain, h.rules[k])];
      }
      assert h.rules[..|h.rules|] == h.rules;
    }

    method ExportSecurity(names: seq<string>) returns (out: seq<SecurityExport>)
      requires Valid(db) && forall i :: 0 <= i < |names| ==> names[i] in ViewOf(db).hosts
      ensures out == SecurityExports(ViewOf(db), names)
    {
      ghost var goal := SecurityExports(ViewOf(db), names);
      out := [];
      hide *;
      for i := 0 to |names|
        invariant out == goal[..i]
      {
        SecuritySeen(db, names, i);
        var id := FindHost(names[i]);
        var h := db.hosts[id.value];
        out := out + [SecurityExport(h.domain, Effective(h.security), h.exclusions, h.customRules)];
        assert goal[..i + 1] == goal[..i] + [goal[i]];
      }
    }

    method ExportChannels(names: seq<string>) returns (out: seq<ChannelExport>)
      requires Valid(db) && forall i :: 0 <= i < |names| ==> names[i] in ViewOf(db).channels
      ensures out == ChannelExports(ViewOf(db), names)
    {
      ghost var goal := ChannelExports(ViewOf(db), names);
      out := [];
      hide *;
      for i := 0 to |names|
        invariant out == goal[..i]
      {
        ChannelSeen(db, names, i);
        var id := FindChannel(names[i]);
        var c := db.channels[id.value];
        out := out + [ChannelExport(c.name, c.kind, c.enabled, Redact(c.kind, c.config), c.template, c.ratePerMinute)];
        assert goal[..i + 1] == goal[..i] + [goal[i]];
      }
    }

    /** Filter ids become domains; ids without a host are passed over. */
    method ExportDomains(ids: seq<int>) returns (out: seq<string>)
      ensures out == Domains(SeeIds(db.hosts, ids))
    {
      out := [];
      for i := 0 to |ids|
        invariant out == Domains(SeeIds(db.hosts, ids[..i]))
      {
        assert ids[..i + 1][..i] == ids[..i];
        var seen := SeeIds(db.hosts, ids[..i + 1]);
        assert seen[..|seen| - 1] == SeeIds(db.hosts, ids[..i]);
        if ids[i] in db.hosts {
          out := out + [db.hosts[ids[i]].domain];
        }
      }
      assert ids[..|ids|] == ids;
    }

    /** From the youngest rule to the oldest, then sorted by name. */
    method ExportNotify() returns (out: seq<NotifyExport>)
      requires Valid(db)
      ensures out == InsertAll([], Youngest(ViewOf(db).rules), BY_NAME)
    {
      var listed := ListNotify();
      assert ViewOf(db).rules == SeeRules(db.hosts, db.channels, db.notify);
      hide *;
      out := SortByName(listed);
    }

    method ListNotify() returns (listed: seq<NotifyExport>)
      requires Valid(db)
      ensures listed == Youngest(SeeRules(db.hosts, db.channels, db.notify))
    {
      hide *;
      listed := [];
      var i := |db.notify|;
      ghost var goal := Youngest(SeeRules(db.hosts, db.channels, db.notify));
      assert db.notify[..i] == db.notify;
      while i > 0
        invariant i <= |db.notify|
        invariant listed + Youngest(SeeRules(db.hosts, db.channels, db.notify[..i])) == goal
      {
        i := i - 1;
        var r := db.notify[i];
        YoungestRule(db, i);
        var domains := ExportDomains(r.hostIds);
        var x := NotifyExport(r.name, db.channels[r.channelId].name, r.event, domains, r.severities, r.enabled,
            r.throttle);
        MoveOver(listed, x, Youngest(SeeRules(db.hosts, db.channels, db.notify[..i])));
        listed := listed + [x];
      }
      NoRules(db);
    }

    method SortByName(listed: seq<NotifyExport>) returns (out: seq<NotifyExport>)
      ensures out == InsertAll([], listed, BY_NAME)
    {
      out := [];
      for k := 0 to |listed|
        invariant out == InsertAll([], listed[..k], BY_NAME)
      {
        assert listed[..k + 1][..k] == listed[..k];
        out := Insert(out, listed[k], BY_NAME);
      }
      assert listed[..|listed|] == listed;
    }

    /** Export: the bundle reads the tables only through their natural keys. */
    method Export() returns (b: Bundle)
      requires Valid(db)
      ensures b == Exported(ViewOf(db))
    {
      var groupNames, hostNames, channelNames := NamesIn(db.groups, GROUP), NamesIn(db.hosts, HOST),
          NamesIn(db.channels, CHANNEL);
      ViewKeys(db);
      hide ViewOf, Valid, NamesIn, Listing, GroupExports, HostExports, RuleExports, SecurityExports, ChannelExports,
          Youngest;
      ListingIndexes(groupNames);
      ListingIndexes(hostNames);
      ListingIndexes(channelNames);
      var groups := ExportGroups(Listing(groupNames));
      var hosts := ExportHosts(Listing(hostNames));
      var rules := ExportRules(Listing(hostNames));
      var security := ExportSecurity(Listing(hostNames));
      var channels := ExportChannels(Listing(channelNames));
      var notify := ExportNotify();
      b := Bundle(groups, hosts, rules, security, channels, notify,
                  map k | k in db.settings && Exportable(k) :: db.settings[k]);
    }
  }
}
