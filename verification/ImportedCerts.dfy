/** What a configuration import, which knows nothing of certificate rows, does to
    them: the host rows it writes, and when mode and certificate row still agree. */
module ImportedCerts {
  import opened Basics
  import opened Upserts
  import opened ConfigModel
  import opened ConfigTables
  import opened ConfigLaws
  import opened ConfigRoundTrip
  import Panel
  import ManualCerts

  type State = ManualCerts.State

  const DOMAIN: Panel.Host -> string := (h: Panel.Host) => h.domain

  function ModeOf(text: string): Panel.TLSMode {
    if text == "manual" then Panel.Manual else if text == "auto" then Panel.Auto else Panel.NoTLS
  }

  /** The host rows are those of the configuration, under the same domains and with the same modes. */
  ghost predicate Shows(s: State, v: View) {
    && (forall i :: i in s.hosts ==>
          s.hosts[i].domain in v.hosts && s.hosts[i].tlsMode == ModeOf(v.hosts[s.hosts[i].domain].cols.tlsMode))
    && (forall d :: d in v.hosts ==> HasHost(s, d))
  }

  ghost predicate HasHost(s: State, d: string) {
    exists i :: i in s.hosts && s.hosts[i].domain == d
  }

  // ----- the host rows an import writes -----

  function GroupId(groups: map<string, int>, name: string): int {
    if name in groups then groups[name] else 0
  }

  /** upsertHost: the row of the domain is updated in place, an unknown domain gets a new row. */
  function WithEntry(s: State, x: HostExport, groups: map<string, int>): (t: State)
    requires ConfigTables.Unique(s.hosts, DOMAIN)
    ensures ConfigTables.Unique(t.hosts, DOMAIN)
  {
    var mode, group := ModeOf(x.cols.tlsMode), GroupId(groups, x.group);
    match ConfigTables.Find(s.hosts, DOMAIN, x.domain)
    case Some(i) => s.(hosts := s.hosts[i := s.hosts[i].(tlsMode := mode, enabled := x.cols.enabled, groupId := group)])
    case None =>
      s.(hosts := s.hosts[s.nextId := Panel.Host(s.nextId, x.domain, x.cols.enabled, group, false, false, mode)],
          nextId := s.nextId + 1)
  }

  function WithEntries(s: State, xs: seq<HostExport>, groups: map<string, int>): (t: State)
    requires ConfigTables.Unique(s.hosts, DOMAIN)
    ensures ConfigTables.Unique(t.hosts, DOMAIN)
  {
    if xs == [] then s else WithEntry(WithEntries(s, xs[..|xs| - 1], groups), xs[|xs| - 1], groups)
  }

  /** Replacing deletes the host rows first, and the certificate rows fall with them. */
  function Cleared(s: State, mode: Mode): State {
    if mode.Replace? then s.(hosts := map[], certs := map[]) else s
  }

  /** The rows after an import that succeeds. */
  function AfterImport(s: State, b: Bundle, mode: Mode, groups: map<string, int>): State
    requires ConfigTables.Unique(s.hosts, DOMAIN)
  {
    WithEntries(Cleared(s, mode), b.hosts, groups)
  }

  /** The mode a host has after the entries: that of its last one, else its own. */
  function ModeAfter(xs: seq<HostExport>, h: Panel.Host): Panel.TLSMode {
    match LastOf(xs, HOST_NAME, h.domain)
    case Some(x) => ModeOf(x.cols.tlsMode)
    case None => h.tlsMode
  }

  /** Old rows keep id and domain, new rows have new ids and domains of the
      bundle, every domain named has a row, and the last entry sets the mode. */
  ghost predicate Rewritten(s: State, t: State, xs: seq<HostExport>) {
    && t.certs == s.certs && t.crt == s.crt && t.keys == s.keys && s.nextId <= t.nextId
    && (forall i :: i in s.hosts ==>
          i in t.hosts && t.hosts[i].domain == s.hosts[i].domain && t.hosts[i].tlsMode == ModeAfter(xs, s.hosts[i]))
    && (forall i :: i in t.hosts ==> t.hosts[i].id == i < t.nextId)
    && (forall i :: i in t.hosts && i !in s.hosts ==>
          && s.nextId <= i && t.hosts[i].domain in KeysOf(xs, HOST_NAME)
          && t.hosts[i].tlsMode == ModeAfter(xs, t.hosts[i]))
    && (forall d :: d in KeysOf(xs, HOST_NAME) ==> HasHost(t, d))
  }

  ghost predicate Numbered(s: State) {
    ConfigTables.Unique(s.hosts, DOMAIN) && forall i :: i in s.hosts ==> s.hosts[i].id == i < s.nextId
  }

  lemma LastOneMore(front: seq<HostExport>, x: HostExport, d: string)
    ensures LastOf(front + [x], HOST_NAME, d) == if x.domain == d then Some(x) else LastOf(front, HOST_NAME, d)
  {
    assert (front + [x])[..|front|] == front;
  }

  /** One entry sets the mode of the one row of its domain and leaves all others alone. */
  ghost predicate EntryPut(t: State, u: State, x: HostExport) {
    && Numbered(u) && u.certs == t.certs && u.crt == t.crt && u.keys == t.keys && t.nextId <= u.nextId
    && (forall i :: i in t.hosts ==>
          && i in u.hosts && u.hosts[i].domain == t.hosts[i].domain
          && u.hosts[i].tlsMode == if x.domain == t.hosts[i].domain then ModeOf(x.cols.tlsMode) else t.hosts[i].tlsMode)
    && (forall i :: i in u.hosts && i !in t.hosts ==>
          t.nextId <= i && u.hosts[i].domain == x.domain && u.hosts[i].tlsMode == ModeOf(x.cols.tlsMode))
    && HasHost(u, x.domain)
  }

  lemma EntryUpdates(t: State, x: HostExport, groups: map<string, int>, i: int)
    requires Numbered(t) && ConfigTables.Find(t.hosts, DOMAIN, x.domain) == Some(i)
    ensures EntryPut(t, WithEntry(t, x, groups), x)
  {
    hide ModeOf;
    var u := WithEntry(t, x, groups);
    assert DOMAIN(t.hosts[i]) == x.domain;
    assert i in u.hosts && u.hosts[i].domain == x.domain;
    forall j | j in t.hosts && t.hosts[j].domain == x.domain
      ensures i == j
    {
      assert DOMAIN(t.hosts[j]) == x.domain;
    }
    hide ConfigTables.Find, GroupId;
  }

  lemma EntryInserts(t: State, x: HostExport, groups: map<string, int>)
    requires Numbered(t) && ConfigTables.Find(t.hosts, DOMAIN, x.domain).None?
    ensures EntryPut(t, WithEntry(t, x, groups), x)
  {
    hide ModeOf;
    var u := WithEntry(t, x, groups);
    forall i | i in t.hosts
      ensures t.hosts[i].domain != x.domain
    {
      assert DOMAIN(t.hosts[i]) != x.domain;
    }
    assert t.nextId in u.hosts && u.hosts[t.nextId].domain == x.domain;
    hide ConfigTables.Find, GroupId;
  }

  lemma EntryWritten(t: State, x: HostExport, groups: map<string, int>)
    requires Numbered(t)
    ensures EntryPut(t, WithEntry(t, x, groups), x)
  {
    match ConfigTables.Find(t.hosts, DOMAIN, x.domain) {
      case Some(i) => EntryUpdates(t, x, groups, i);
      case None => EntryInserts(t, x, groups);
    }
    hide EntryPut, WithEntry;
  }

  lemma StillHosts(t: State, u: State, x: HostExport)
    requires EntryPut(t, u, x)
    ensures forall d :: HasHost(t, d) ==> HasHost(u, d)
  {
    forall d | HasHost(t, d)
      ensures HasHost(u, d)
    {
      var i :| i in t.hosts && t.hosts[i].domain == d;
      assert i in u.hosts && u.hosts[i].domain == d;
    }
  }

  lemma ModeOneMore(front: seq<HostExport>, x: HostExport, h: Panel.Host)
    ensures ModeAfter(front + [x], h) == if x.domain == h.domain then ModeOf(x.cols.tlsMode) else ModeAfter(front, h)
  {
    LastOneMore(front, x, h.domain);
    hide LastOf, ModeOf;
  }

  /** A mode set by an entry does not depend on the mode before. */
  lemma ModeNamed(xs: seq<HostExport>, h: Panel.Host, g: Panel.Host)
    requires h.domain == g.domain && h.domain in KeysOf(xs, HOST_NAME)
    ensures ModeAfter(xs, h) == ModeAfter(xs, g)
  {
    LastOfIsThere(xs, HOST_NAME, h.domain);
    hide LastOf, ModeOf;
  }

  lemma RewrittenOneMore(s: State, t: State, u: State, front: seq<HostExport>, x: HostExport)
    requires Rewritten(s, t, front) && EntryPut(t, u, x)
    ensures Rewritten(s, u, front + [x])
  {
    var xs := front + [x];
    KeysOfOneMore(front, x, HOST_NAME);
    StillHosts(t, u, x);
    hide KeysOf, ModeOf, ModeAfter, ConfigTables.Unique, HasHost;
    forall i | i in s.hosts
      ensures i in u.hosts && u.hosts[i].domain == s.hosts[i].domain && u.hosts[i].tlsMode == ModeAfter(xs, s.hosts[i])
    {
      ModeOneMore(front, x, s.hosts[i]);
    }
    forall i | i in u.hosts && i !in s.hosts
      ensures s.nextId <= i && u.hosts[i].domain in KeysOf(xs, HOST_NAME)
      ensures u.hosts[i].tlsMode == ModeAfter(xs, u.hosts[i])
    {
      ModeOneMore(front, x, u.hosts[i]);
      if i in t.hosts {
        ModeNamed(front, t.hosts[i], u.hosts[i]);
      }
    }
  }

  lemma NumberedAfter(t: State, u: State, x: HostExport)
    requires EntryPut(t, u, x)
    ensures Numbered(u)
  {
    hide Numbered;
  }

  lemma {:induction false} EntriesWritten(s: State, xs: seq<HostExport>, groups: map<string, int>)
    requires Numbered(s)
    ensures Rewritten(s, WithEntries(s, xs, groups), xs) && Numbered(WithEntries(s, xs, groups))
  {
    if xs != [] {
      var front, x := xs[..|xs| - 1], xs[|xs| - 1];
      EntriesWritten(s, front, groups);
      EntryWritten(WithEntries(s, front, groups), x, groups);
      assert xs == front + [x];
      hide WithEntry, EntryPut, Rewritten;
      RewrittenOneMore(s, WithEntries(s, front, groups), WithEntries(s, xs, groups), front, x);
      NumberedAfter(WithEntries(s, front, groups), WithEntries(s, xs, groups), x);
    }
  }

  // ----- the rows show the imported configuration -----

  lemma ClearedRows(s: State, v: View, mode: Mode)
    requires Numbered(s) && Shows(s, v)
    ensures Numbered(Cleared(s, mode)) && Shows(Cleared(s, mode), Wiped(v, mode))
  {
    if mode.Merge? {
      assert Cleared(s, mode) == s && Wiped(v, mode) == v;
    } else {
      hide ModeOf, HasHost;
    }
  }

  /** Rules and security settings of a bundle leave the host columns alone. */
  lemma ModeImported(h: HostView, k: string, before: map<string, HostView>, b: Bundle)
    requires HostIs(h, k, before, b)
    ensures LastOf(b.hosts, HOST_NAME, k).Some? || k in before
    ensures h.cols.tlsMode == match LastOf(b.hosts, HOST_NAME, k)
                              case Some(x) => x.cols.tlsMode
                              case None => before[k].cols.tlsMode
  {
    hide LastOf, Gathered, KeysOf;
  }

  lemma ShownIf(s: State, t: State, v: View, w: View, b: Bundle)
    requires Shows(s, v) && Rewritten(s, t, b.hosts)
    requires w.hosts.Keys == v.hosts.Keys + KeysOf(b.hosts, HOST_NAME)
    requires forall k :: k in w.hosts ==> HostIs(w.hosts[k], k, v.hosts, b)
    ensures Shows(t, w)
  {
    hide HostIs, LastOf, KeysOf, ModeOf;
    forall i | i in t.hosts
      ensures t.hosts[i].domain in w.hosts && t.hosts[i].tlsMode == ModeOf(w.hosts[t.hosts[i].domain].cols.tlsMode)
    {
      var d := t.hosts[i].domain;
      LastOfIsThere(b.hosts, HOST_NAME, d);
      ModeImported(w.hosts[d], d, v.hosts, b);
    }
    forall d | d in w.hosts
      ensures HasHost(t, d)
    {
      if d in v.hosts {
        var i :| i in s.hosts && s.hosts[i].domain == d;
        assert i in t.hosts && t.hosts[i].domain == d;
      }
    }
  }

  /** The host rows an import writes are those of the configuration it leads to. */
  lemma ImportShown(s: State, v: View, b: Bundle, mode: Mode, w: View, groups: map<string, int>)
    requires Numbered(s) && Shows(s, v) && Imported(v, b, mode) == Some(w)
    ensures Shows(AfterImport(s, b, mode, groups), w)
  {
    hide *;
    var from := Wiped(v, mode);
    ClearedRows(s, v, mode);
    UniqueNumbered(s);
    UniqueNumbered(Cleared(s, mode));
    EntriesWritten(Cleared(s, mode), b.hosts, groups);
    ImportedParts(v, b, mode, w);
    WipedClearable(v, mode);
    HostSide(from, w.groups.Keys, b, mode);
    assert AfterImport(s, b, mode, groups)
        == WithEntries(Cleared(s, mode), b.hosts, groups) by { AfterIs(s, b, mode, groups); }
    ShownIf(Cleared(s, mode), AfterImport(s, b, mode, groups), from, w, b);
  }

  lemma WipedClearable(v: View, mode: Mode)
    ensures Clearable(Wiped(v, mode).hosts, mode)
  {
  }

  lemma UniqueNumbered(s: State)
    requires Numbered(s)
    ensures ConfigTables.Unique(s.hosts, DOMAIN)
  {
  }

  lemma AfterIs(s: State, b: Bundle, mode: Mode, groups: map<string, int>)
    requires Numbered(s) && ConfigTables.Unique(Cleared(s, mode).hosts, DOMAIN)
    ensures AfterImport(s, b, mode, groups) == WithEntries(Cleared(s, mode), b.hosts, groups)
  {
  }

  // ----- when mode and certificate row still agree -----

  /** A manual host of that domain, so one with a certificate row. */
  ghost predicate ManualDomain(s: State, d: string) {
    exists i :: i in s.hosts && s.hosts[i].domain == d && s.hosts[i].tlsMode.Manual?
  }

  /** What can be read off the bundle and the host rows before an import: a
      replacing bundle has no manual host; a merging one names the manual hosts
      it contains as manual, and no other domain, known or new. */
  ghost predicate LeavesManual(s: State, b: Bundle, mode: Mode) {
    forall d :: d in KeysOf(b.hosts, HOST_NAME) && LastOf(b.hosts, HOST_NAME, d).Some? ==>
      (LastOf(b.hosts, HOST_NAME, d).value.cols.tlsMode == "manual" <==> mode.Merge? && ManualDomain(s, d))
  }

  lemma NumberedRows(s: State)
    requires ManualCerts.RowsMatch(s)
    ensures Numbered(s)
  {
    forall i, j | i in s.hosts && j in s.hosts && DOMAIN(s.hosts[i]) == DOMAIN(s.hosts[j])
      ensures i == j
    {
      assert s.hosts[i].domain == s.hosts[j].domain;
    }
  }

  lemma ModesManual(text: string)
    ensures ModeOf(text).Manual? <==> text == "manual"
  {
  }

  lemma ClearedMatch(s: State, mode: Mode)
    requires ManualCerts.RowsMatch(s)
    ensures ManualCerts.RowsMatch(Cleared(s, mode))
    ensures forall d :: ManualDomain(Cleared(s, mode), d) <==> mode.Merge? && ManualDomain(s, d)
  {
  }

  /** The last entry of a domain is manual just if a host of that domain was. */
  ghost predicate Keeps(s: State, xs: seq<HostExport>, d: string) {
    d in KeysOf(xs, HOST_NAME) && LastOf(xs, HOST_NAME, d).Some? ==>
      (LastOf(xs, HOST_NAME, d).value.cols.tlsMode == "manual" <==> ManualDomain(s, d))
  }

  lemma OneHost(t: State, i: int, j: int)
    requires Numbered(t) && i in t.hosts && j in t.hosts && t.hosts[i].domain == t.hosts[j].domain
    ensures i == j
  {
    assert DOMAIN(t.hosts[i]) == DOMAIN(t.hosts[j]);
  }

  lemma WasManual(s: State, t: State, xs: seq<HostExport>, i: int)
    requires ManualCerts.RowsMatch(s) && Rewritten(s, t, xs) && Numbered(t) && i in t.hosts
    ensures ManualDomain(s, t.hosts[i].domain) <==> i in t.certs
  {
    hide LastOf, KeysOf, ModeAfter;
    var d := t.hosts[i].domain;
    if ManualDomain(s, d) {
      var j :| j in s.hosts && s.hosts[j].domain == d && s.hosts[j].tlsMode.Manual?;
      OneHost(t, i, j);
    }
    if i in t.certs {
      assert s.hosts[i].domain == d && s.hosts[i].tlsMode.Manual?;
    }
  }

  lemma RowAgreesIff(s: State, t: State, xs: seq<HostExport>, i: int)
    requires ManualCerts.RowsMatch(s) && Rewritten(s, t, xs) && Numbered(t) && i in t.hosts
    ensures (t.hosts[i].tlsMode.Manual? <==> i in t.certs) <==> Keeps(s, xs, t.hosts[i].domain)
  {
    var d := t.hosts[i].domain;
    WasManual(s, t, xs, i);
    LastOfIsThere(xs, HOST_NAME, d);
    hide LastOf, KeysOf, ManualDomain;
    if LastOf(xs, HOST_NAME, d).Some? {
      ModesManual(LastOf(xs, HOST_NAME, d).value.cols.tlsMode);
    }
  }

  /** The rows agree after the entries exactly when each domain's last entry is
      manual just for the domains that were. */
  lemma EntriesKeepRowsIff(s: State, t: State, xs: seq<HostExport>)
    requires ManualCerts.RowsMatch(s) && Rewritten(s, t, xs) && Numbered(t)
    ensures ManualCerts.RowsMatch(t) <==> forall d :: Keeps(s, xs, d)
  {
    forall i | i in t.hosts
      ensures (t.hosts[i].tlsMode.Manual? <==> i in t.certs) <==> Keeps(s, xs, t.hosts[i].domain)
    {
      RowAgreesIff(s, t, xs, i);
    }
    forall i, j | i in t.hosts && j in t.hosts && t.hosts[i].domain == t.hosts[j].domain
      ensures i == j
    {
      OneHost(t, i, j);
    }
    forall i | i in t.certs
      ensures i in t.hosts
    {
      assert i in s.certs.Keys && i in s.hosts.Keys && i in s.hosts;
    }
    forall d
      ensures (d !in KeysOf(xs, HOST_NAME) ==> Keeps(s, xs, d)) && (d in KeysOf(xs, HOST_NAME) ==> HasHost(t, d))
    {
    }
    hide LastOf, KeysOf, ModeAfter, Keeps;
  }

  /** After an import every host is manual exactly when it has a certificate row
      if and only if the bundle leaves the manual hosts as they are. */
  lemma ImportKeepsRowsIff(s: State, v: View, b: Bundle, mode: Mode, w: View, groups: map<string, int>)
    requires ManualCerts.RowsMatch(s) && Shows(s, v) && Imported(v, b, mode) == Some(w)
    ensures Numbered(s) && Shows(AfterImport(s, b, mode, groups), w)
    ensures ManualCerts.RowsMatch(AfterImport(s, b, mode, groups)) <==> LeavesManual(s, b, mode)
  {
    hide *;
    NumberedRows(s);
    UniqueNumbered(s);
    ImportShown(s, v, b, mode, w, groups);
    ClearedMatch(s, mode);
    ClearedRows(s, v, mode);
    UniqueNumbered(Cleared(s, mode));
    EntriesWritten(Cleared(s, mode), b.hosts, groups);
    AfterIs(s, b, mode, groups);
    EntriesKeepRowsIff(Cleared(s, mode), AfterImport(s, b, mode, groups), b.hosts);
    LeavesManualIs(s, b, mode);
  }

  lemma LeavesManualIs(s: State, b: Bundle, mode: Mode)
    requires forall d :: ManualDomain(Cleared(s, mode), d) <==> mode.Merge? && ManualDomain(s, d)
    ensures LeavesManual(s, b, mode) <==> forall d :: Keeps(Cleared(s, mode), b.hosts, d)
  {
    hide ManualDomain, LastOf, KeysOf, Cleared;
    if LeavesManual(s, b, mode) {
      forall d
        ensures Keeps(Cleared(s, mode), b.hosts, d)
      {
      }
    } else {
      var d :| d in KeysOf(b.hosts, HOST_NAME) && LastOf(b.hosts, HOST_NAME, d).Some?
               && !(LastOf(b.hosts, HOST_NAME, d).value.cols.tlsMode == "manual"
                    <==> mode.Merge? && ManualDomain(s, d));
      assert !Keeps(Cleared(s, mode), b.hosts, d);
    }
  }

  // ----- one bundle -----

  function Web(): GroupRow {
    GroupRow("web", GroupCols("http", false, "round_robin", false, "/", "GET", "200", 10, 5, 3, 2), [], false)
  }

  /** A configuration of one group and no host. */
  function OnlyGroup(): View {
    View(map["web" := Web()], map[], map[], [], map[])
  }

  function NewHost(): HostExport {
    HostExport("a.example", "web", HostCols("manual", "", true, "", "dns"))
  }

  function NewHostBundle(): Bundle {
    Bundle([], [NewHost()], [], [], [], [], map[])
  }

  function NoRows(): State {
    ManualCerts.State(map[], map[], map[], map[], 1)
  }

  lemma FoldOne<S, X>(s: S, x: X, step: (S, X) -> Option<S>)
    ensures Fold(s, [x], step) == step(s, x)
  {
    assert [x][..0] == [];
  }

  lemma NewHostImported()
    ensures HostsImported(OnlyGroup(), {"web"}, NewHostBundle(), Merge).Some?
  {
    var x, m, b := NewHost(), OnlyGroup().hosts, NewHostBundle();
    FoldOne(m, x, Upsert(HOST_NAME, HostOk({"web"}), WRITE_HOST, false, None));
    assert HostOk({"web"})(x);
  }

  /** A bundle that brings a new host in manual mode merges and leaves it without a certificate row. */
  lemma NewManualHostHasNoRow()
    ensures ManualCerts.RowsMatch(NoRows()) && Shows(NoRows(), OnlyGroup()) && Numbered(NoRows())
    ensures Imported(OnlyGroup(), NewHostBundle(), Merge).Some?
    ensures !ManualCerts.RowsMatch(AfterImport(NoRows(), NewHostBundle(), Merge, map["web" := 1]))
  {
    NewHostImported();
    assert OnlyGroup().groups.Keys == {"web"};
    var b := NewHostBundle();
    assert !LeavesManual(NoRows(), b, Merge) by {
      assert [NewHost()][0] == NewHost();
      LastOfDistinct(b.hosts, HOST_NAME, 0);
      assert "a.example" in KeysOf(b.hosts, HOST_NAME) by {
        assert HOST_NAME(b.hosts[0]) == "a.example";
      }
    }
    hide HostsImported, LeavesManual;
    ImportKeepsRowsIff(NoRows(), OnlyGroup(), b, Merge, Imported(OnlyGroup(), b, Merge).value, map["web" := 1]);
  }
}
