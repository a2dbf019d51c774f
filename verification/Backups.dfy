/** The boot-time reconcile of the backups table with the backup directory. */
module Backups {
  import opened Basics

  datatype Kind = ManualRun | Scheduled | Orphan

  /** What the metadata embedded in an archive says. */
  datatype Metadata = Metadata(kind: Kind, createdAt: Option<int>, note: string)

  /** One file of the backup directory: whether it can be read through, its
      modification time, and its embedded metadata if that decodes. */
  datatype File = File(isDir: bool, readable: bool, modified: int, meta: Option<Metadata>)

  datatype Backup = Backup(kind: Kind, createdAt: int, note: string)

  const ORPHAN_NOTE := "recovered during reconcile"

  /** Finished archives only: hidden names are uploads and restores in flight. */
  predicate IsArchive(name: string, f: File) {
    !f.isDir && HasSuffix(name, ".tar.gz") && !HasPrefix(name, ".")
  }

  function Archives(dir: map<string, File>): set<string> {
    set n | n in dir && IsArchive(n, dir[n])
  }

  /** What the process finds where the backup directory should be. */
  datatype Directory = Missing | Failing | Listed(files: map<string, File>)

  /** The row insertOrphan writes at `now` for a file it can read. Metadata
      without a date count as made now; without metadata the file's own time counts. */
  function OrphanRow(f: File, now: int): Backup {
    match f.meta
    case None => Backup(Orphan, f.modified, ORPHAN_NOTE)
    case Some(m) =>
      Backup(m.kind, if m.createdAt.Some? then m.createdAt.value else now,
             if m.note != "" && m.kind != Orphan then m.note else ORPHAN_NOTE)
  }

  /** The table a reconcile should leave: the rows whose archive is there, as
      they were, and a recovered row for every other archive that can be read. */
  function Reconciled(dir: map<string, File>, table: map<string, Backup>, now: int): map<string, Backup> {
    map n | n in Archives(dir) && (n in table || dir[n].readable) :: if n in table then table[n]
        else OrphanRow(dir[n], now)
  }

  /** Those of `names` that the table lacks and that can be read. */
  function Orphans(dir: map<string, File>, names: set<string>, table: map<string, Backup>): set<string> {
    set n | n in names && n in dir && n !in table && dir[n].readable
  }

  /** The table with the rows recovered for `names`. */
  function Grown(
      dir: map<string, File>, names: set<string>, table: map<string, Backup>, now: int): map<string, Backup> {
    map n | n in table.Keys + Orphans(dir, names, table) :: if n in table then table[n] else OrphanRow(dir[n], now)
  }

  function AddedCount(dir: map<string, File>, names: set<string>, table: map<string, Backup>): nat {
    |Orphans(dir, names, table)|
  }

  function KeptCount(names: set<string>, table: map<string, Backup>): nat {
    |table.Keys * names|
  }

  datatype Counts = Counts(added: nat, pruned: nat, kept: nat)

  function CountsOf(dir: map<string, File>, table: map<string, Backup>): Counts {
    Counts(AddedCount(dir, Archives(dir), table), |table.Keys - Archives(dir)|, KeptCount(Archives(dir), table))
  }

  class Manager {
    var table: map<string, Backup>

    /** A missing directory means there is nothing to compare with. */
    method Reconcile(dir: Directory, now: int) returns (ok: bool, counts: Counts)
      modifies this
      ensures ok <==> !dir.Failing?
      ensures dir.Listed? ==>
                table == Reconciled(dir.files, old(table), now) && counts == CountsOf(dir.files, old(table))
      ensures !dir.Listed? ==> table == old(table) && counts == Counts(0, 0, 0)
    {
      if !dir.Listed? {
        return dir.Missing?, Counts(0, 0, 0);
      }
      var inDB := table;
      hide *;
      var added, kept := AddOrphans(dir.files, now);
      var pruned := PruneMissing(Archives(dir.files), inDB.Keys);
      ReconciledMap(dir.files, inDB, now);
      return true, Counts(added, pruned, kept);
    }

    /** From the disk view to the table. */
    method AddOrphans(dir: map<string, File>, now: int) returns (added: nat, kept: nat)
      modifies this
      ensures table == Grown(dir, Archives(dir), old(table), now)
      ensures added == AddedCount(dir, Archives(dir), old(table)) && kept == KeptCount(Archives(dir), old(table))
    {
      var inDB, onDisk := table, Archives(dir);
      var rest := onDisk;
      ghost var seen: set<string> := {};
      added, kept := 0, 0;
      ArchivesAreFiles(dir);
      NothingGrown(dir, inDB, now);
      AllLeft(onDisk);
      hide *;
      while rest != {}
        invariant Left(onDisk, rest, seen)
        invariant table == Grown(dir, seen, inDB, now)
        invariant added == AddedCount(dir, seen, inDB) && kept == KeptCount(seen, inDB)
        decreases rest
      {
        var name :| name in rest;
        StillLeft(onDisk, rest, seen, name);
        rest := rest - {name};
        OneMoreName(dir, seen, inDB, name, now);
        TakenIs(dir, inDB, name);
        seen := seen + {name};
        if name in inDB {
          kept := kept + 1;
        } else if dir[name].readable {
          table, added := table[name := OrphanRow(dir[name], now)], added + 1;
        }
      }
      NoneLeft(onDisk, seen);
    }

    /** From the table view taken before the first loop to the disk. */
    method PruneMissing(onDisk: set<string>, inDB: set<string>) returns (pruned: nat)
      modifies this
      ensures table == old(table) - (inDB - onDisk) && pruned == |inDB - onDisk|
    {
      var names := inDB;
      pruned := 0;
      ghost var seen: set<string> := {};
      AllLeft(inDB);
      hide *;
      while names != {}
        invariant Left(inDB, names, seen)
        invariant table == old(table) - (seen - onDisk) && pruned == |seen - onDisk|
        decreases names
      {
        var name :| name in names;
        StillLeft(inDB, names, seen, name);
        names := names - {name};
        assert name in onDisk ==> (seen + {name}) - onDisk == seen - onDisk;
        assert name !in onDisk ==> (seen + {name}) - onDisk == (seen - onDisk) + {name};
        seen := seen + {name};
        if name !in onDisk {
          table, pruned := table - {name}, pruned + 1;
        }
      }
      NoneLeft(inDB, seen);
    }
  }

  /** A loop over `all` has seen all but the rest. */
  predicate Left(all: set<string>, rest: set<string>, seen: set<string>) {
    rest <= all && seen == all - rest
  }

  lemma AllLeft(all: set<string>)
    ensures Left(all, all, {})
  {
  }

  lemma StillLeft(all: set<string>, rest: set<string>, seen: set<string>, name: string)
    requires Left(all, rest, seen) && name in rest
    ensures Left(all, rest - {name}, seen + {name}) && name !in seen && name in all
  {
  }

  lemma NoneLeft(all: set<string>, seen: set<string>)
    requires Left(all, {}, seen)
    ensures seen == all
  {
  }

  lemma ArchivesAreFiles(dir: map<string, File>)
    ensures Archives(dir) <= dir.Keys
  {
  }

  lemma NothingGrown(dir: map<string, File>, table: map<string, Backup>, now: int)
    ensures Grown(dir, {}, table, now) == table && AddedCount(dir, {}, table) == 0 == KeptCount({}, table)
  {
    hide OrphanRow;
  }

  predicate Taken(dir: map<string, File>, table: map<string, Backup>, name: string) {
    name in dir && name !in table && dir[name].readable
  }

  lemma TakenIs(dir: map<string, File>, table: map<string, Backup>, name: string)
    ensures Taken(dir, table, name) <==> name in dir && name !in table && dir[name].readable
  {
  }

  lemma OrphansOneMore(dir: map<string, File>, seen: set<string>, table: map<string, Backup>, name: string)
    requires name !in seen && name in dir
    ensures Orphans(dir, seen + {name}, table)
         == Orphans(dir, seen, table) + if Taken(dir, table, name) then {name} else {}
    ensures name !in Orphans(dir, seen, table)
  {
  }

  lemma GrownOneMore(dir: map<string, File>, seen: set<string>, table: map<string, Backup>, name: string, now: int)
    requires name !in seen && name in dir
    ensures Grown(dir, seen + {name}, table, now)
         == if Taken(dir, table, name) then Grown(dir, seen, table, now)[name := OrphanRow(dir[name], now)]
             else Grown(dir, seen, table, now)
  {
    OrphansOneMore(dir, seen, table, name);
    hide OrphanRow;
  }

  lemma KeysOneMore(keys: set<string>, seen: set<string>, name: string)
    requires name !in seen
    ensures |keys * (seen + {name})| == |keys * seen| + if name in keys then 1 else 0
  {
    if name in keys {
      assert keys * (seen + {name}) == keys * seen + {name};
    } else {
      assert keys * (seen + {name}) == keys * seen;
    }
  }

  lemma OneMoreName(dir: map<string, File>, seen: set<string>, table: map<string, Backup>, name: string, now: int)
    requires name !in seen && name in dir
    ensures Grown(dir, seen + {name}, table, now)
         == if Taken(dir, table, name) then Grown(dir, seen, table, now)[name := OrphanRow(dir[name], now)]
             else Grown(dir, seen, table, now)
    ensures AddedCount(dir, seen + {name}, table)
         == AddedCount(dir, seen, table) + if Taken(dir, table, name) then 1 else 0
    ensures KeptCount(seen + {name}, table) == KeptCount(seen, table) + if name in table then 1 else 0
  {
    hide Orphans, Grown, Taken, OrphanRow;
    GrownOneMore(dir, seen, table, name, now);
    OrphansOneMore(dir, seen, table, name);
    KeysOneMore(table.Keys, seen, name);
  }

  lemma ReconciledMap(dir: map<string, File>, table: map<string, Backup>, now: int)
    ensures Grown(dir, Archives(dir), table, now) - (table.Keys - Archives(dir)) == Reconciled(dir, table, now)
    ensures CountsOf(dir, table)
         == Counts(AddedCount(dir, Archives(dir), table), |table.Keys - Archives(dir)|, KeptCount(Archives(dir), table))
  {
    hide OrphanRow, IsArchive;
    assert Archives(dir) <= dir.Keys;
  }

  /** After a reconcile the table lists exactly the archives when every file can
      be read; known rows are untouched and a second reconcile, at any later
      time, changes nothing. */
  lemma ReconcileSettles(dir: map<string, File>, table: map<string, Backup>, now: int, later: int)
    ensures Reconciled(dir, Reconciled(dir, table, now), later) == Reconciled(dir, table, now)
    ensures Reconciled(dir, table, now).Keys == Archives(dir)
            <==> forall n :: n in Archives(dir) && n !in table ==> dir[n].readable
    ensures forall n :: n in table && n in Archives(dir) ==> Reconciled(dir, table, now)[n] == table[n]
  {
    var once := Reconciled(dir, table, now);
    assert forall n :: n in Archives(dir) && n !in table && !dir[n].readable ==> n !in once;
  }

  /** The counters account for every row: what was there is kept or pruned, and
      what is there afterwards was kept or added. */
  lemma CountersBalance(dir: map<string, File>, table: map<string, Backup>, now: int)
    ensures var c := CountsOf(dir, table);
            && |table| == c.kept + c.pruned
            && |Reconciled(dir, table, now)| == c.kept + c.added
  {
    var archives, orphans := Archives(dir), Orphans(dir, Archives(dir), table);
    ReconciledKeys(dir, table, now);
    hide *;
    Parts(table.Keys, table.Keys * archives, table.Keys - archives);
    Parts(Reconciled(dir, table, now).Keys, table.Keys * archives, orphans);
  }

  lemma ReconciledKeys(dir: map<string, File>, table: map<string, Backup>, now: int)
    ensures Reconciled(dir, table, now).Keys == table.Keys * Archives(dir) + Orphans(dir, Archives(dir), table)
    ensures table.Keys * Archives(dir) !! Orphans(dir, Archives(dir), table)
    ensures CountsOf(dir, table)
         == Counts(|Orphans(dir, Archives(dir), table)|, |table.Keys - Archives(dir)|, |table.Keys * Archives(dir)|)
  {
    hide OrphanRow, IsArchive;
  }

  lemma Parts(all: set<string>, a: set<string>, b: set<string>)
    requires all == a + b && a !! b
    ensures |all| == |a| + |b|
  {
  }

  /** Files that count: named like a finished archive, not hidden, no directory. */
  lemma ArchivesNamed(dir: map<string, File>, n: string)
    ensures n in Archives(dir)
            <==> n in dir && !dir[n].isDir && |n| >= 7 && n[|n| - 7..] == ".tar.gz" && n[0] != '.'
  {
    assert |".tar.gz"| == 7;
    assert HasPrefix(n, ".") <==> n != "" && n[0] == '.';
  }

  /** A recovered row: kind, date and note of the metadata as far as they are
      there, else an orphan of the file's own time with the standard note. */
  lemma OrphanRowIs(f: File, now: int)
    ensures var r := OrphanRow(f, now);
            && (f.meta == None ==> r == Backup(Orphan, f.modified, "recovered during reconcile"))
            && (f.meta.Some? ==>
                  && r.kind == f.meta.value.kind
                  && (f.meta.value.createdAt.Some? ==> r.createdAt == f.meta.value.createdAt.value)
                  && (f.meta.value.createdAt.None? ==> r.createdAt == now)
                  && (f.meta.value.note != "" && f.meta.value.kind != Orphan ==> r.note == f.meta.value.note)
                  && (f.meta.value.note == "" || f.meta.value.kind == Orphan ==>
                        r.note == "recovered during reconcile"))
  {
  }

  /** Each row after a reconcile: a known archive's stays, an unknown one's is
      recovered if it can be read, and there are no others. */
  lemma ReconciledRow(dir: map<string, File>, table: map<string, Backup>, now: int, n: string)
    ensures var t := Reconciled(dir, table, now);
            && (n in t <==> n in Archives(dir) && (n in table || dir[n].readable))
            && (n in t && n in table ==> t[n] == table[n])
            && (n in t && n !in table ==> t[n] == OrphanRow(dir[n], now))
  {
    hide OrphanRow, IsArchive;
  }
}
