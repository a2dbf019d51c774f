/** The configuration tables with their row ids, the configuration they stand
    for, and what the write of one row does to it. */
module ConfigTables {
  import opened Basics
  import opened Upserts
  import opened Ordering
  import opened ConfigModel

  datatype HostRow = HostRow(
    domain: string, groupId: int, cols: HostCols, extra: HostExtra, rules: seq<Rule>, security: Option<Security>,
    exclusions: seq<Exclusion>, customRules: seq<CustomRule>)

  datatype NotifyRow = NotifyRow(
    name: string, channelId: int, event: string, hostIds: seq<int>, severities: seq<string>, enabled: bool,
    throttle: int)

  /** Notification rules are held in the order of their ids, which nothing refers
      to. The next id of a table is beyond every id given out in it, as
      AUTOINCREMENT makes it. */
  datatype Db = Db(
    groups: map<int, GroupRow>, hosts: map<int, HostRow>, channels: map<int, ChannelRow>, notify: seq<NotifyRow>,
    settings: map<string, string>, nextGroup: int, nextHost: int, nextChannel: int)

  // ----- tables under a unique name -----

  ghost predicate Unique<R>(t: map<int, R>, name: R -> string) {
    forall i, j :: i in t && j in t && name(t[i]) == name(t[j]) ==> i == j
  }

  ghost function Index<R, V>(t: map<int, R>, name: R -> string, see: R -> V): map<string, V>
    requires Unique(t, name)
  {
    map i | i in t :: name(t[i]) := see(t[i])
  }

  /** SELECT id FROM t WHERE name = ? */
  function Find<R>(t: map<int, R>, name: R -> string, n: string): (r: Option<int>)
    requires Unique(t, name)
    ensures r.Some? <==> exists i :: i in t && name(t[i]) == n
    ensures r.Some? ==> r.value in t && name(t[r.value]) == n
  {
    if i :| i in t && name(t[i]) == n then Some(i) else None
  }

  /** A row written under its name: an update in place or a new row. */
  ghost predicate Writable<R>(t: map<int, R>, name: R -> string, id: int, r: R) {
    if id in t then name(t[id]) == name(r) else forall i :: i in t ==> name(t[i]) != name(r)
  }

  /** `m` is the table as seen under its names. */
  ghost predicate Indexes<R, V>(m: map<string, V>, t: map<int, R>, name: R -> string, see: R -> V) {
    && (forall i :: i in t ==> name(t[i]) in m && m[name(t[i])] == see(t[i]))
    && (forall k :: k in m ==> exists i :: i in t && name(t[i]) == k)
  }

  lemma IndexIndexes<R, V>(t: map<int, R>, name: R -> string, see: R -> V)
    requires Unique(t, name)
    ensures Indexes(Index(t, name, see), t, name, see)
  {
  }

  lemma OneIndex<R, V>(m: map<string, V>, n: map<string, V>, t: map<int, R>, name: R -> string, see: R -> V)
    requires Indexes(m, t, name, see) && Indexes(n, t, name, see)
    ensures m == n
  {
    forall k
      ensures Get(m, k) == Get(n, k)
    {
    }
    SameMaps(m, n);
  }

  lemma IndexesPut<R, V>(m: map<string, V>, t: map<int, R>, name: R -> string, see: R -> V, id: int, r: R)
    requires Unique(t, name) && Writable(t, name, id, r) && Indexes(m, t, name, see)
    ensures Unique(t[id := r], name)
    ensures Indexes(m[name(r) := see(r)], t[id := r], name, see)
  {
    var u, n := t[id := r], m[name(r) := see(r)];
    assert u[id] == r;
    forall k | k in n
      ensures exists i :: i in u && name(u[i]) == k
    {
      if k != name(r) {
        var i :| i in t && name(t[i]) == k;
        assert u[i] == t[i];
      }
    }
  }

  lemma UniquePut<R>(t: map<int, R>, name: R -> string, id: int, r: R)
    requires Unique(t, name) && Writable(t, name, id, r)
    ensures Unique(t[id := r], name)
  {
  }

  lemma IndexPut<R, V>(t: map<int, R>, name: R -> string, see: R -> V, id: int, r: R)
    requires Unique(t, name) && Writable(t, name, id, r)
    ensures Unique(t[id := r], name)
    ensures Index(t[id := r], name, see) == Index(t, name, see)[name(r) := see(r)]
  {
    hide Index, Indexes, Writable;
    IndexIndexes(t, name, see);
    IndexesPut(Index(t, name, see), t, name, see, id, r);
    IndexIndexes(t[id := r], name, see);
    OneIndex(Index(t[id := r], name, see), Index(t, name, see)[name(r) := see(r)], t[id := r], name, see);
  }

  lemma IndexSees<R, V>(t: map<int, R>, name: R -> string, see: R -> V, other: R -> V)
    requires Unique(t, name) && forall i :: i in t ==> see(t[i]) == other(t[i])
    ensures Index(t, name, see) == Index(t, name, other)
  {
  }

  lemma IndexFind<R, V>(t: map<int, R>, name: R -> string, see: R -> V, n: string)
    requires Unique(t, name)
    ensures n in Index(t, name, see) <==> Find(t, name, n).Some?
    ensures Find(t, name, n).Some? ==> Index(t, name, see)[n] == see(t[Find(t, name, n).value])
  {
  }

  // ----- the view -----

  const GROUP: GroupRow -> string := (g: GroupRow) => g.name
  const HOST: HostRow -> string := (h: HostRow) => h.domain
  const CHANNEL: ChannelRow -> string := (c: ChannelRow) => c.name
  const SAME_GROUP: GroupRow -> GroupRow := (g: GroupRow) => g
  const SAME_CHANNEL: ChannelRow -> ChannelRow := (c: ChannelRow) => c

  function NameOf<R>(t: map<int, R>, name: R -> string, id: int): string {
    if id in t then name(t[id]) else ""
  }

  function SeeHost(groups: map<int, GroupRow>): HostRow -> HostView {
    (h: HostRow) =>
      HostView(NameOf(groups, GROUP, h.groupId), h.cols, h.extra, h.rules, h.security, h.exclusions, h.customRules)
  }

  function SeeIds(hosts: map<int, HostRow>, ids: seq<int>): seq<Option<string>> {
    if ids == [] then []
    else
      var last := ids[|ids| - 1];
      SeeIds(hosts, ids[..|ids| - 1]) + [if last in hosts then Some(hosts[last].domain) else None]
  }

  function SeeNotify(hosts: map<int, HostRow>, channels: map<int, ChannelRow>, r: NotifyRow): RuleView {
    RuleView(r.name, NameOf(channels, CHANNEL, r.channelId), r.event, SeeIds(hosts, r.hostIds), r.severities, r.enabled,
        r.throttle)
  }

  function SeeRules(hosts: map<int, HostRow>, channels: map<int, ChannelRow>, rows: seq<NotifyRow>): seq<RuleView> {
    if rows == [] then []
    else SeeRules(hosts, channels, rows[..|rows| - 1]) + [SeeNotify(hosts, channels, rows[|rows| - 1])]
  }

  ghost predicate Before<R>(t: map<int, R>, nextId: int) {
    forall i :: i in t ==> i < nextId
  }

  ghost predicate HostsLinked(hosts: map<int, HostRow>, groups: map<int, GroupRow>) {
    forall i :: i in hosts ==> hosts[i].groupId in groups
  }

  ghost predicate RulesLinked(rows: seq<NotifyRow>, channels: map<int, ChannelRow>) {
    forall k :: 0 <= k < |rows| ==> rows[k].channelId in channels
  }

  /** The constraints of the schema: unique names, foreign keys, ids given out
      before. The host ids a notification rule filters on are plain text, so they
      may be any numbers. */
  ghost predicate Valid(db: Db) {
    && Unique(db.groups, GROUP) && Unique(db.hosts, HOST) && Unique(db.channels, CHANNEL)
    && Before(db.groups, db.nextGroup) && Before(db.hosts, db.nextHost) && Before(db.channels, db.nextChannel)
    && HostsLinked(db.hosts, db.groups) && RulesLinked(db.notify, db.channels)
  }

  /** The configuration without its notification rules. */
  ghost function TablesOf(db: Db): View
    requires Valid(db)
  {
    View(Index(db.groups, GROUP, SAME_GROUP), Index(db.hosts, HOST, SeeHost(db.groups)),
         Index(db.channels, CHANNEL, SAME_CHANNEL), [], db.settings)
  }

  ghost function ViewOf(db: Db): View
    requires Valid(db)
  {
    TablesOf(db).(rules := SeeRules(db.hosts, db.channels, db.notify))
  }

  // ----- single writes -----

  function Next(next: int, id: int): int {
    if id < next then next else id + 1
  }

  function WithGroup(db: Db, id: int, g: GroupRow): Db {
    db.(groups := db.groups[id := g], nextGroup := Next(db.nextGroup, id))
  }

  function WithHost(db: Db, id: int, h: HostRow): Db {
    db.(hosts := db.hosts[id := h], nextHost := Next(db.nextHost, id))
  }

  function WithChannel(db: Db, id: int, c: ChannelRow): Db {
    db.(channels := db.channels[id := c], nextChannel := Next(db.nextChannel, id))
  }

  ghost predicate GroupWrite(db: Db, id: int, g: GroupRow) {
    Valid(db) && Writable(db.groups, GROUP, id, g) && (id in db.groups || db.nextGroup <= id)
  }

  ghost predicate HostWrite(db: Db, id: int, h: HostRow) {
    Valid(db) && Writable(db.hosts, HOST, id, h) && (id in db.hosts || db.nextHost <= id) && h.groupId in db.groups
  }

  ghost predicate ChannelWrite(db: Db, id: int, c: ChannelRow) {
    Valid(db) && Writable(db.channels, CHANNEL, id, c) && (id in db.channels || db.nextChannel <= id)
  }

  lemma GroupValid(db: Db, id: int, g: GroupRow)
    requires GroupWrite(db, id, g)
    ensures Valid(WithGroup(db, id, g))
  {
    UniquePut(db.groups, GROUP, id, g);
    hide Unique, Index, Writable, RulesLinked;
  }

  lemma HostValid(db: Db, id: int, h: HostRow)
    requires HostWrite(db, id, h)
    ensures Valid(WithHost(db, id, h))
  {
    UniquePut(db.hosts, HOST, id, h);
    hide Unique, Index, Writable, RulesLinked;
  }

  lemma ChannelValid(db: Db, id: int, c: ChannelRow)
    requires ChannelWrite(db, id, c)
    ensures Valid(WithChannel(db, id, c))
  {
    UniquePut(db.channels, CHANNEL, id, c);
    hide Unique, Index, Writable;
  }

  lemma HostsSeenAlike(db: Db, id: int, g: GroupRow)
    requires GroupWrite(db, id, g)
    ensures Index(db.hosts, HOST, SeeHost(db.groups[id := g])) == Index(db.hosts, HOST, SeeHost(db.groups))
  {
    forall i | i in db.hosts
      ensures SeeHost(db.groups[id := g])(db.hosts[i]) == SeeHost(db.groups)(db.hosts[i])
    {
      assert db.hosts[i].groupId in db.groups;
    }
    hide Index, Unique;
    IndexSees(db.hosts, HOST, SeeHost(db.groups[id := g]), SeeHost(db.groups));
  }

  lemma PutGroup(db: Db, id: int, g: GroupRow)
    requires GroupWrite(db, id, g)
    ensures Valid(WithGroup(db, id, g))
    ensures TablesOf(WithGroup(db, id, g)) == TablesOf(db).(groups := TablesOf(db).groups[g.name := g])
  {
    GroupValid(db, id, g);
    HostsSeenAlike(db, id, g);
    hide Index, Unique, RulesLinked, Before, HostsLinked;
    IndexPut(db.groups, GROUP, SAME_GROUP, id, g);
  }

  lemma PutHost(db: Db, id: int, h: HostRow)
    requires HostWrite(db, id, h)
    ensures Valid(WithHost(db, id, h))
    ensures TablesOf(WithHost(db, id, h))
         == TablesOf(db).(hosts := TablesOf(db).hosts[h.domain := SeeHost(db.groups)(h)])
  {
    HostValid(db, id, h);
    hide Index, Unique, RulesLinked, Before, HostsLinked;
    IndexPut(db.hosts, HOST, SeeHost(db.groups), id, h);
  }

  lemma PutChannel(db: Db, id: int, c: ChannelRow)
    requires ChannelWrite(db, id, c)
    ensures Valid(WithChannel(db, id, c))
    ensures TablesOf(WithChannel(db, id, c)) == TablesOf(db).(channels := TablesOf(db).channels[c.name := c])
  {
    ChannelValid(db, id, c);
    hide Index, Unique, RulesLinked, Before, HostsLinked;
    IndexPut(db.channels, CHANNEL, SAME_CHANNEL, id, c);
  }

  function Dropped(rows: seq<NotifyRow>, name: string): seq<NotifyRow> {
    if rows == [] then []
    else
      var last := rows[|rows| - 1];
      if last.name == name then Dropped(rows[..|rows| - 1], name) else Dropped(rows[..|rows| - 1], name) + [last]
  }

  lemma AppendRule(hosts: map<int, HostRow>, channels: map<int, ChannelRow>, rows: seq<NotifyRow>, r: NotifyRow)
    ensures SeeRules(hosts, channels, rows + [r]) == SeeRules(hosts, channels, rows) + [SeeNotify(hosts, channels, r)]
  {
    assert (rows + [r])[..|rows|] == rows;
  }

  lemma {:induction false} DropRules(
      hosts: map<int, HostRow>, channels: map<int, ChannelRow>, rows: seq<NotifyRow>, name: string)
    ensures SeeRules(hosts, channels, Dropped(rows, name)) == Without(SeeRules(hosts, channels, rows), name)
    ensures forall r :: r in Dropped(rows, name) ==> r in rows
  {
    if rows != [] {
      var front, last := rows[..|rows| - 1], rows[|rows| - 1];
      assert rows == front + [last];
      DropRules(hosts, channels, front, name);
      hide SeeRules, Without;
      AppendRule(hosts, channels, front, last);
      AppendRule(hosts, channels, Dropped(front, name), last);
      WithoutOneMore(SeeRules(hosts, channels, front), SeeNotify(hosts, channels, last), name);
    }
  }
}
