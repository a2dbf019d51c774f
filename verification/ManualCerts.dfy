/** Manually uploaded certificates: the host row, the certificate row, the two
    files on the shared volume, and what the generated config makes of them. */
module ManualCerts {
  import opened Basics
  import opened Panel
  import RouteCompiler
  import opened Upserts

  // ----- rows and files -----

  /** A key as stored: readable again under the master key it was sealed with. */
  datatype Sealed = Sealed(master: int, key: string)

  function Decrypt(master: int, s: Sealed): Option<string> {
    if s.master == master then Some(s.key) else None
  }

  datatype Cert = Cert(pem: string, chain: string, key: Sealed)

  function Closed(s: string): string {
    if HasSuffix(s, "\n") then s else s + "\n"
  }

  /** Leaf first, then the chain, in one file. */
  function FullChain(c: Cert): string {
    Closed(if c.chain != "" then Closed(c.pem) + c.chain else c.pem)
  }

  /** `crt` and `keys` are the files by host id. A certificate row falls with its host row. */
  datatype State = State(hosts: map<int, Host>, certs: map<int, Cert>, crt: map<int, string>, keys: map<int, string>,
      nextId: int)

  predicate DomainFree(s: State, domain: string, id: int) {
    forall i :: i in s.hosts && i != id ==> s.hosts[i].domain != domain
  }

  // ----- the handlers, on states -----

  function Created(s: State, h: Host): State {
    if h.tlsMode.Manual? || !DomainFree(s, h.domain, s.nextId) then s
    else s.(hosts := s.hosts[s.nextId := h.(id := s.nextId)], nextId := s.nextId + 1)
  }

  /** Going into manual is refused, and so is another host's domain. */
  predicate Updatable(s: State, id: int, h: Host) {
    id in s.hosts && (h.tlsMode.Manual? ==> s.hosts[id].tlsMode.Manual?) && DomainFree(s, h.domain, id)
  }

  /** Going out of manual drops the certificate and its files. */
  function Updated(s: State, id: int, h: Host): State {
    if !Updatable(s, id, h) then s
    else
      var s' := s.(hosts := s.hosts[id := h.(id := id)]);
      if s.hosts[id].tlsMode.Manual? && !h.tlsMode.Manual? then WithoutCert(s', id) else s'
  }

  function WithoutCert(s: State, id: int): State {
    s.(certs := s.certs - {id}, crt := s.crt - {id}, keys := s.keys - {id})
  }

  function Toggled(s: State, id: int): State {
    if id !in s.hosts then s else s.(hosts := s.hosts[id := s.hosts[id].(enabled := !s.hosts[id].enabled)])
  }

  /** The files of a deleted host stay behind. */
  function Deleted(s: State, id: int): State {
    s.(hosts := s.hosts - {id}, certs := s.certs - {id})
  }

  function WithFiles(s: State, id: int, c: Cert, key: string): State {
    s.(crt := s.crt[id := FullChain(c)], keys := s.keys[id := Closed(key)])
  }

  /** A validated upload. */
  function Uploaded(s: State, master: int, id: int, pem: string, chain: string, key: string): State {
    if id !in s.hosts then s
    else
      var c := Cert(pem, chain, Sealed(master, key));
      WithFiles(s.(certs := s.certs[id := c], hosts := s.hosts[id := s.hosts[id].(tlsMode := Manual)]), id, c, key)
  }

  function CertDeleted(s: State, id: int, revert: TLSMode): State {
    if id !in s.hosts || revert.Manual? || id !in s.certs then s
    else WithoutCert(s, id).(hosts := s.hosts[id := s.hosts[id].(tlsMode := revert)])
  }

  // ----- the boot reconcile -----

  predicate FilesThere(s: State, id: int) {
    id in s.crt && id in s.keys
  }

  /** A row the reconcile can serve: its files are there, or its key opens and the write works. */
  predicate Recoverable(s: State, master: int, failing: set<int>, id: int) {
    id in s.certs && (FilesThere(s, id) || (Decrypt(master, s.certs[id].key).Some? && id !in failing))
  }

  function Reconciled(s: State, master: int, failing: set<int>): State {
    s.(crt := map i | i in s.crt.Keys + s.certs.Keys && (i in s.crt || Recoverable(s, master, failing, i)) ::
                if i in s.certs && !FilesThere(s, i) && Recoverable(s, master, failing, i) then FullChain(s.certs[i])
                    else s.crt[i],
       keys := map i | i in s.keys.Keys + s.certs.Keys && (i in s.keys || Recoverable(s, master, failing, i)) ::
                 if i in s.certs && !FilesThere(s, i) && Recoverable(s, master, failing, i)
                 then Closed(s.certs[i].key.key) else s.keys[i])
  }

  /** The volume loses some files. */
  function Lost(s: State, crt: set<int>, keys: set<int>): State {
    s.(crt := s.crt - crt, keys := s.keys - keys)
  }

  /** Writing the files of exactly the rows that need and get them is the reconcile. */
  lemma SameFiles(s: State, master: int, failing: set<int>, done: set<int>, t: State)
    requires t.hosts == s.hosts && t.certs == s.certs && t.nextId == s.nextId
    requires forall i :: i in done <==> i in s.certs && !FilesThere(s, i) && Recoverable(s, master, failing, i)
    requires forall i :: i !in done ==> Get(t.crt, i) == Get(s.crt, i) && Get(t.keys, i) == Get(s.keys, i)
    requires forall i :: i in done ==>
              Get(t.crt, i) == Some(FullChain(s.certs[i])) && Get(t.keys, i) == Some(Closed(s.certs[i].key.key))
    ensures t == Reconciled(s, master, failing)
  {
    var r := Reconciled(s, master, failing);
    hide FullChain, Closed;
    forall i
      ensures Get(t.crt, i) == Get(r.crt, i) && Get(t.keys, i) == Get(r.keys, i)
    {
    }
    SameFileMaps(t.crt, r.crt);
    SameFileMaps(t.keys, r.keys);
  }

  lemma SameFileMaps(m: map<int, string>, n: map<int, string>)
    requires forall i :: Get(m, i) == Get(n, i)
    ensures m == n
  {
    forall i
      ensures i in m <==> i in n
      ensures i in m ==> m[i] == n[i]
    {
      assert Get(m, i) == Get(n, i);
    }
    assert m.Keys == n.Keys;
  }

  // ----- the objects -----

  /** The database, the volume and the handlers that change them. */
  class Registry {
    var hosts: map<int, Host>
    var certs: map<int, Cert>
    var crt: map<int, string>
    var keys: map<int, string>
    var nextId: int
    const master: int

    ghost function Contents(): State
      reads this
    {
      State(hosts, certs, crt, keys, nextId)
    }

    constructor (master: int)
      ensures this.master == master && Contents() == State(map[], map[], map[], map[], 0)
    {
      this.master := master;
      hosts, certs, crt, keys, nextId := map[], map[], map[], map[], 0;
    }

    method CreateHost(h: Host) returns (ok: bool)
      modifies this
      ensures Contents() == Created(old(Contents()), h)
      ensures ok <==> !h.tlsMode.Manual? && DomainFree(old(Contents()), h.domain, old(nextId))
    {
      if h.tlsMode.Manual? || exists i :: i in hosts && i != nextId && hosts[i].domain == h.domain {
        return false;
      }
      hosts := hosts[nextId := h.(id := nextId)];
      nextId := nextId + 1;
      return true;
    }

    method UpdateHost(id: int, h: Host) returns (ok: bool)
      modifies this
      ensures Contents() == Updated(old(Contents()), id, h)
      ensures ok <==> Updatable(old(Contents()), id, h)
    {
      if id !in hosts {
        return false;
      }
      var current := hosts[id];
      if !current.tlsMode.Manual? && h.tlsMode.Manual? {
        return false;
      }
      var cascade := current.tlsMode.Manual? && !h.tlsMode.Manual?;
      if exists i :: i in hosts && i != id && hosts[i].domain == h.domain {
        return false;
      }
      hosts := hosts[id := h.(id := id)];
      if cascade {
        certs := certs - {id};
        RemoveFiles(id);
      }
      return true;
    }

    method RemoveFiles(id: int)
      modifies this`crt, this`keys
      ensures crt == old(crt) - {id} && keys == old(keys) - {id}
    {
      crt := crt - {id};
      keys := keys - {id};
    }

    method ToggleHost(id: int)
      modifies this`hosts
      ensures Contents() == Toggled(old(Contents()), id)
    {
      if id in hosts {
        hosts := hosts[id := hosts[id].(enabled := !hosts[id].enabled)];
      }
    }

    method DeleteHost(id: int)
      modifies this`hosts, this`certs
      ensures Contents() == Deleted(old(Contents()), id)
    {
      hosts := hosts - {id};
      certs := certs - {id};
    }

    /** One transaction for the row and the mode, then the two files. */
    method UploadManualCert(id: int, pem: string, chain: string, key: string) returns (ok: bool)
      modifies this
      ensures Contents() == Uploaded(old(Contents()), master, id, pem, chain, key)
      ensures ok <==> id in old(hosts)
    {
      if id !in hosts {
        return false;
      }
      var c := Cert(pem, chain, Sealed(master, key));
      certs, hosts := certs[id := c], hosts[id := hosts[id].(tlsMode := Manual)];
      WriteFiles(id, c, key);
      return true;
    }

    method WriteFiles(id: int, c: Cert, key: string)
      modifies this`crt, this`keys
      ensures Contents() == WithFiles(old(Contents()), id, c, key)
    {
      crt := crt[id := FullChain(c)];
      keys := keys[id := Closed(key)];
    }

    method DeleteManualCert(id: int, revert: TLSMode) returns (ok: bool)
      modifies this
      ensures Contents() == CertDeleted(old(Contents()), id, revert)
      ensures ok <==> id in old(hosts) && !revert.Manual? && id in old(certs)
    {
      if id !in hosts || revert.Manual? || id !in certs {
        return false;
      }
      certs := certs - {id};
      RemoveFiles(id);
      hosts := hosts[id := hosts[id].(tlsMode := revert)];
      return true;
    }

    /** The rows in any order; `failing` are the hosts whose files cannot be written. */
    method ReconcileManualCerts(failing: set<int>) returns (done: set<int>, failed: set<int>)
      modifies this`crt, this`keys
      ensures Contents() == Reconciled(old(Contents()), master, failing)
      ensures forall i :: i in failed <==> i in certs && !Recoverable(old(Contents()), master, failing, i)
      ensures forall i :: i in done <==> i in certs && !FilesThere(old(Contents()), i) && i !in failed
    {
      done, failed := {}, {};
      ghost var s := Contents();
      hide FullChain, Closed;
      var rest := certs.Keys;
      while rest != {}
        invariant rest <= certs.Keys && hosts == s.hosts && certs == s.certs && nextId == s.nextId
        invariant forall i :: i in failed <==> i in s.certs && i !in rest && !Recoverable(s, master, failing, i)
        invariant forall i ::
                    i in done <==> i in s.certs && i !in rest && !FilesThere(s, i) && Recoverable(s, master, failing, i)
        invariant forall i :: i !in done ==> Get(crt, i) == Get(s.crt, i) && Get(keys, i) == Get(s.keys, i)
        invariant forall i :: i in done ==>
                  Get(crt, i) == Some(FullChain(s.certs[i])) && Get(keys, i) == Some(Closed(s.certs[i].key.key))
        decreases rest
      {
        SomeId(rest);
        var i :| i in rest;
        var there := i in crt && i in keys;
        var key := Decrypt(master, certs[i].key);
        assert i !in done && there == FilesThere(s, i);
        assert Recoverable(s, master, failing, i) <==> there || (key.Some? && i !in failing);
        hide Recoverable, FilesThere;
        rest := rest - {i};
        if there {
          continue;
        }
        if key.None? || i in failing {
          failed := failed + {i};
          continue;
        }
        WriteFiles(i, certs[i], key.value);
        done := done + {i};
      }
      SameFiles(s, master, failing, done, Contents());
    }
  }

  // ----- what every run keeps -----

  /** The rows: a host is manual exactly when it has a certificate row. */
  predicate RowsMatch(s: State) {
    && (forall i :: i in s.hosts ==> s.hosts[i].id == i < s.nextId)
    && (forall i, j :: i in s.hosts && j in s.hosts && s.hosts[i].domain == s.hosts[j].domain ==> i == j)
    && s.certs.Keys <= s.hosts.Keys
    && (forall i :: i in s.hosts ==> (s.hosts[i].tlsMode.Manual? <==> i in s.certs))
  }

  /** The files of every certificate row are there and hold what the row says. */
  predicate FilesMatch(s: State, master: int) {
    forall i :: i in s.certs ==>
      && s.certs[i].key.master == master
      && i in s.crt && s.crt[i] == FullChain(s.certs[i])
      && i in s.keys && s.keys[i] == Closed(s.certs[i].key.key)
  }

  datatype Step =
    | Create(host: Host)
    | Update(id: int, host: Host)
    | Toggle(id: int)
    | Delete(id: int)
    | Upload(id: int, pem: string, chain: string, key: string)
    | DeleteCert(id: int, revert: TLSMode)
    | Boot(lostCrt: set<int>, lostKeys: set<int>)

  function Apply(s: State, master: int, step: Step): State {
    match step
    case Create(h) => Created(s, h)
    case Update(id, h) => Updated(s, id, h)
    case Toggle(id) => Toggled(s, id)
    case Delete(id) => Deleted(s, id)
    case Upload(id, pem, chain, key) => Uploaded(s, master, id, pem, chain, key)
    case DeleteCert(id, revert) => CertDeleted(s, id, revert)
    case Boot(crt, keys) => Reconciled(Lost(s, crt, keys), master, {})
  }

  function Run(master: int, steps: seq<Step>): State {
    if steps == [] then State(map[], map[], map[], map[], 0)
    else Apply(Run(master, steps[..|steps| - 1]), master, steps[|steps| - 1])
  }

  lemma StepKeepsRows(s: State, master: int, step: Step)
    requires RowsMatch(s)
    ensures RowsMatch(Apply(s, master, step))
  {
    hide Closed, FullChain;
  }

  lemma StepKeepsFiles(s: State, master: int, step: Step)
    requires RowsMatch(s) && FilesMatch(s, master)
    ensures FilesMatch(Apply(s, master, step), master)
  {
    hide Closed, FullChain;
  }

  /** Over every run of the handlers and of boots that lose any part of the
      volume: a host is manual exactly when it has a certificate row, and every
      certificate row has both its files with the right content. */
  lemma {:induction false} RunsKeepCertificates(master: int, steps: seq<Step>)
    ensures RowsMatch(Run(master, steps)) && FilesMatch(Run(master, steps), master)
  {
    if steps != [] {
      var before := Run(master, steps[..|steps| - 1]);
      RunsKeepCertificates(master, steps[..|steps| - 1]);
      StepKeepsRows(before, master, steps[|steps| - 1]);
      StepKeepsFiles(before, master, steps[|steps| - 1]);
    }
  }

  // ----- the generated config -----

  /** The panel lists the host rows. */
  predicate Lists(p: Panel, s: State) {
    forall k :: 0 <= k < |p.hosts| ==> p.hosts[k].id in s.hosts && s.hosts[p.hosts[k].id] == p.hosts[k]
  }

  lemma {:induction false} LoadedHosts(p: Panel, hosts: seq<Host>)
    ensures forall id ::
              id in RouteCompiler.LoadFiles(p, hosts)
              <==> exists k ::
                     0 <= k < |hosts| && p.Serves(hosts[k]) && hosts[k].tlsMode.Manual? && hosts[k].id == id
  {
    if hosts != [] {
      var front, last := hosts[..|hosts| - 1], hosts[|hosts| - 1];
      LoadedHosts(p, front);
      assert forall k :: 0 <= k < |front| ==> front[k] == hosts[k];
    }
  }

  lemma {:induction false} ManagedHosts(p: Panel, hosts: seq<Host>)
    ensures forall d ::
              d in RouteCompiler.AcmeSubjects(p, hosts)
              <==> exists k ::
                     0 <= k < |hosts| && p.Serves(hosts[k]) && hosts[k].tlsMode.Auto? && hosts[k].domain == d
  {
    if hosts != [] {
      var front, last := hosts[..|hosts| - 1], hosts[|hosts| - 1];
      ManagedHosts(p, front);
      assert forall k :: 0 <= k < |front| ==> front[k] == hosts[k];
    }
  }

  /** Whatever the volume lost, after a reconcile without errors every file the
      generated config loads is there. */
  lemma LoadedFilesExist(s: State, master: int, failing: set<int>, p: Panel, id: int)
    requires RowsMatch(s) && Lists(p, s)
    requires forall i :: i in s.certs ==> Recoverable(s, master, failing, i)
    requires id in RouteCompiler.Compile(p).loadFiles
    ensures FilesThere(Reconciled(s, master, failing), id)
  {
    LoadedHosts(p, p.hosts);
    hide FullChain, Closed;
  }

  /** No domain is under an ACME policy and served from uploaded files at once. */
  lemma NoHostInBoth(s: State, p: Panel, k: nat)
    requires RowsMatch(s) && Lists(p, s) && k < |p.hosts| && p.hosts[k].id in RouteCompiler.Compile(p).loadFiles
    ensures p.hosts[k].domain !in RouteCompiler.Compile(p).acmeSubjects
  {
    LoadedHosts(p, p.hosts);
    ManagedHosts(p, p.hosts);
    var j :| 0 <= j < |p.hosts| && p.hosts[j].tlsMode.Manual? && p.hosts[j].id == p.hosts[k].id;
    assert p.hosts[j] == p.hosts[k];
  }

  // ----- what each handler does, row by row and file by file -----

  /** Nothing but host `id` and its certificate row and files differs. */
  ghost predicate OthersStay(s: State, t: State, id: int) {
    forall i :: i != id ==>
      Get(t.hosts, i) == Get(s.hosts, i) && Get(t.certs, i) == Get(s.certs, i)
      && Get(t.crt, i) == Get(s.crt, i) && Get(t.keys, i) == Get(s.keys, i)
  }

  /** The certificate row and both files of the host are as they were. */
  ghost predicate CertStays(s: State, t: State, id: int) {
    Get(t.certs, id) == Get(s.certs, id) && Get(t.crt, id) == Get(s.crt, id) && Get(t.keys, id) == Get(s.keys, id)
  }

  predicate DomainTaken(s: State, domain: string, id: int) {
    exists i :: i in s.hosts && i != id && s.hosts[i].domain == domain
  }

  /** A created host gets the next id and has all it was given; manual mode and a taken domain are refused. */
  lemma CreateEffect(s: State, h: Host)
    ensures var t, refused := Created(s, h), h.tlsMode.Manual? || DomainTaken(s, h.domain, s.nextId);
            && (refused ==> t == s)
            && (!refused ==>
                  && OthersStay(s, t, s.nextId) && CertStays(s, t, s.nextId) && t.nextId == s.nextId + 1
                  && s.nextId in t.hosts && t.hosts[s.nextId] == h.(id := s.nextId))
  {
  }

  /** An updated host has all it was given. Coming out of manual mode drops the
      certificate row and the files; going into it is refused, and so are an
      unknown host and another host's domain. */
  lemma UpdateEffect(s: State, id: int, h: Host)
    ensures var t := Updated(s, id, h);
            var refused := id !in s.hosts || (h.tlsMode.Manual? && !s.hosts[id].tlsMode.Manual?)
                || DomainTaken(s, h.domain, id);
            && (refused ==> t == s)
            && (!refused ==>
                  && OthersStay(s, t, id) && t.nextId == s.nextId && id in t.hosts && t.hosts[id] == h.(id := id)
                  && if s.hosts[id].tlsMode.Manual? && !h.tlsMode.Manual?
                     then id !in t.certs && id !in t.crt && id !in t.keys
                     else CertStays(s, t, id))
  {
  }

  lemma ToggleEffect(s: State, id: int)
    ensures var t := Toggled(s, id);
            && OthersStay(s, t, id) && CertStays(s, t, id) && t.nextId == s.nextId && (id in t.hosts <==> id in s.hosts)
            && (id in s.hosts ==>
                  (t.hosts[id].enabled <==> !s.hosts[id].enabled) && t.hosts[id].(enabled := true)
                      == s.hosts[id].(enabled := true))
  {
  }

  /** A deleted host is gone with its certificate row; its files are left behind. */
  lemma DeleteEffect(s: State, id: int)
    ensures var t := Deleted(s, id);
            && OthersStay(s, t, id) && t.nextId == s.nextId && id !in t.hosts && id !in t.certs
            && Get(t.crt, id) == Get(s.crt, id) && Get(t.keys, id) == Get(s.keys, id)
  {
  }

  /** An upload puts the host into manual mode, with a row that opens under the
      master key and both files written. */
  lemma UploadEffect(s: State, master: int, id: int, pem: string, chain: string, key: string)
    ensures var t := Uploaded(s, master, id, pem, chain, key);
            && OthersStay(s, t, id) && t.nextId == s.nextId && (id in t.hosts <==> id in s.hosts)
            && (id !in s.hosts ==> t == s)
            && (id in s.hosts ==>
                  && t.hosts[id].tlsMode.Manual? && t.hosts[id].(tlsMode := NoTLS) == s.hosts[id].(tlsMode := NoTLS)
                  && id in t.certs && t.certs[id].pem == pem && t.certs[id].chain == chain
                  && Decrypt(master, t.certs[id].key) == Some(key)
                  && id in t.crt && IsChainFile(t.crt[id], pem, chain) && id in t.keys && IsKeyFile(t.keys[id], key))
  {
    ChainFileIs(Cert(pem, chain, Sealed(master, key)));
    KeyFileIs(key);
    hide FullChain, Closed, IsChainFile, IsKeyFile;
  }

  /** Deleting a certificate drops row and files and sets the mode it reverts to,
      which must not be manual. */
  lemma DeleteCertEffect(s: State, id: int, revert: TLSMode)
    ensures var t, refused := CertDeleted(s, id, revert), id !in s.hosts || revert.Manual? || id !in s.certs;
            && (refused ==> t == s)
            && (!refused ==>
                  && OthersStay(s, t, id) && t.nextId == s.nextId
                  && id in t.hosts && t.hosts[id] == s.hosts[id].(tlsMode := revert)
                  && id !in t.certs && id !in t.crt && id !in t.keys)
  {
  }

  /** The reconcile changes files only: it writes both of a row that lacks one, if
      the key opens and the host's files can be written. */
  lemma ReconcileEffect(s: State, master: int, failing: set<int>, id: int)
    ensures var t := Reconciled(s, master, failing);
            && t.hosts == s.hosts && t.certs == s.certs && t.nextId == s.nextId
            && var served := id in s.certs && !(id in s.crt && id in s.keys) && s.certs[id].key.master == master
                && id !in failing;
               && (!served ==> Get(t.crt, id) == Get(s.crt, id) && Get(t.keys, id) == Get(s.keys, id))
               && (served ==>
                     && id in t.crt && IsChainFile(t.crt[id], s.certs[id].pem, s.certs[id].chain)
                     && id in t.keys && IsKeyFile(t.keys[id], s.certs[id].key.key))
  {
    if id in s.certs {
      ChainFileIs(s.certs[id]);
      KeyFileIs(s.certs[id].key.key);
    }
    hide FullChain, Closed, IsChainFile, IsKeyFile;
  }

  /** The text with a line end, added if it has none. */
  predicate EndsLine(text: string, line: string) {
    |line| > 0 && line[|line| - 1] == '\n'
    && if |text| > 0 && text[|text| - 1] == '\n' then line == text else |line| == |text| + 1 && line[..|text|] == text
  }

  /** The leaf and, if there is one, the chain behind it, each ending its line. */
  ghost predicate IsChainFile(file: string, pem: string, chain: string) {
    if chain == "" then EndsLine(pem, file)
    else exists leaf, rest :: EndsLine(pem, leaf) && EndsLine(chain, rest) && file == leaf + rest
  }

  predicate IsKeyFile(file: string, key: string) {
    EndsLine(key, file)
  }

  lemma ClosedEnds(text: string)
    ensures EndsLine(text, Closed(text))
  {
    assert HasSuffix(text, "\n") <==> |text| > 0 && text[|text| - 1] == '\n' by {
      if |text| > 0 {
        assert text[|text| - 1..] == [text[|text| - 1]];
      }
    }
  }

  lemma KeyFileIs(key: string)
    ensures IsKeyFile(Closed(key), key)
  {
    ClosedEnds(key);
  }

  lemma ChainFileIs(c: Cert)
    ensures IsChainFile(FullChain(c), c.pem, c.chain)
  {
    ClosedEnds(c.pem);
    ClosedEnds(c.chain);
    if c.chain != "" {
      assert FullChain(c) == Closed(c.pem) + Closed(c.chain) by {
        ClosedJoin(Closed(c.pem), c.chain);
      }
    }
    hide EndsLine;
  }

  lemma ClosedJoin(front: string, text: string)
    requires text != ""
    ensures Closed(front + text) == front + Closed(text)
  {
    var all := front + text;
    assert all[|all| - 1..] == text[|text| - 1..];
    assert all + "\n" == front + (text + "\n");
  }
}
