/** Restoring a backup at boot. ApplyPending is a sequence of file operations;
    the process may die between any two of them, in the middle of the copy, or
    in the middle of the cleanup, and starts over at the next boot. */
module Restore {
  import opened Basics

  /** A database file: gone, cut short, or whole. */
  datatype DbFile = Missing | Partial | Whole(content: int)

  /** `flag` is the restore flag file; `payload` and `metadata` are the files of
      the extracted backup it points to. */
  datatype Disk = Disk(
    flag: bool, payload: Option<int>, metadata: bool, live: DbFile, wal: bool, shm: bool)

  /** Where ApplyPending is. */
  datatype Point =
    | ReadFlag
    | StatPayload
    | DropFlagOnly
    | RemoveLive
    | RemoveWal
    | RemoveShm
    | OpenLive
    | Copying
    | RemovePayload
    | DropFlag
    | Completed(applied: bool)

  datatype Machine = Machine(disk: Disk, at: Point)

  /** What happens next: the operation at the current point, one more piece of
      the copy or of the directory removal, or a crash followed by a new boot. */
  datatype Event = Proceed | CopyPiece | RemoveMetadata | RemoveDb | Crash

  predicate Enabled(m: Machine, e: Event) {
    match e
    case Proceed =>
      !m.at.Completed? && (m.at.Copying? || m.at.OpenLive? ==> m.disk.payload.Some?)
    case CopyPiece => m.at.Copying?
    case RemoveMetadata => m.at.RemovePayload?
    case RemoveDb => m.at.RemovePayload?
    case Crash => !m.at.Completed?
  }

  function Next(m: Machine, e: Event): Machine
    requires Enabled(m, e)
  {
    var d := m.disk;
    match e
    case Crash => m.(at := ReadFlag)
    case CopyPiece => m.(disk := d.(live := Partial))
    case RemoveMetadata => m.(disk := d.(metadata := false))
    case RemoveDb => m.(disk := d.(payload := None))
    case Proceed =>
      match m.at
      case ReadFlag => m.(at := if d.flag then StatPayload else Completed(false))
      case StatPayload => m.(at := if d.payload.Some? then RemoveLive else DropFlagOnly)
      case DropFlagOnly => Machine(d.(flag := false), Completed(false))
      case RemoveLive => Machine(d.(live := Missing), RemoveWal)
      case RemoveWal => Machine(d.(wal := false), RemoveShm)
      case RemoveShm => Machine(d.(shm := false), OpenLive)
      case OpenLive => Machine(d.(live := Partial), Copying)
      case Copying => Machine(d.(live := Whole(d.payload.value)), RemovePayload)
      case RemovePayload => Machine(d.(payload := None, metadata := false), DropFlag)
      case DropFlag => Machine(d.(flag := false), Completed(true))
  }

  /** A restore was requested: the flag is there and so is the whole payload. */
  predicate Requested(m: Machine, content: int) {
    m.at == ReadFlag && m.disk.flag && m.disk.payload == Some(content)
  }

  /** The live database is the backup, clean to open. */
  predicate Replaced(d: Disk, content: int) {
    d.live == Whole(content) && !d.wal && !d.shm
  }

  /** What holds at every moment of every boot. */
  predicate Recoverable(m: Machine, content: int) {
    var d := m.disk;
    && (d.payload.Some? ==> d.payload.value == content)
    && (d.flag && d.payload.None? ==> Replaced(d, content))
    && (!d.flag ==> Replaced(d, content) && m.at.Completed?)
    && match m.at
       case ReadFlag => d.flag
       case StatPayload => d.flag
       case DropFlagOnly => d.flag && d.payload.None?
       case RemoveLive => d.payload.Some?
       case RemoveWal => d.payload.Some? && d.live.Missing?
       case RemoveShm => d.payload.Some? && d.live.Missing? && !d.wal
       case OpenLive => d.payload.Some? && d.live.Missing? && !d.wal && !d.shm
       case Copying => d.payload.Some? && d.live.Partial? && !d.wal && !d.shm
       case RemovePayload => Replaced(d, content)
       case DropFlag => Replaced(d, content)
       case Completed(_) => Replaced(d, content) && !d.flag
  }

  lemma StepKeepsRecoverable(m: Machine, e: Event, content: int)
    requires Recoverable(m, content) && Enabled(m, e)
    ensures Recoverable(Next(m, e), content)
  {
  }

  /** A history of boots: events one after the other from a requested restore. */
  predicate IsHistory(ms: seq<Machine>, es: seq<Event>, content: int) {
    && |ms| == |es| + 1
    && Requested(ms[0], content)
    && forall i :: 0 <= i < |es| ==> Enabled(ms[i], es[i]) && ms[i + 1] == Next(ms[i], es[i])
  }

  lemma {:induction false} HistoryIsRecoverable(ms: seq<Machine>, es: seq<Event>, content: int, i: nat)
    requires IsHistory(ms, es, content) && i < |ms|
    ensures Recoverable(ms[i], content)
  {
    if i > 0 {
      HistoryIsRecoverable(ms, es, content, i - 1);
      StepKeepsRecoverable(ms[i - 1], es[i - 1], content);
    }
  }

  /** However many boots crash and wherever they do, the first one that
      completes leaves the backup as the live database, no stale WAL or SHM
      beside it, and no flag. */
  lemma CompletedBootRestores(ms: seq<Machine>, es: seq<Event>, content: int, i: nat)
    requires IsHistory(ms, es, content) && i < |ms| && ms[i].at.Completed?
    ensures Replaced(ms[i].disk, content) && !ms[i].disk.flag
  {
    HistoryIsRecoverable(ms, es, content, i);
  }

  /** As long as the live database is missing or cut short, the flag and the
      whole payload are still there to start over from. */
  lemma DamageIsRepairable(ms: seq<Machine>, es: seq<Event>, content: int, i: nat)
    requires IsHistory(ms, es, content) && i < |ms|
    requires ms[i].disk.live.Missing? || ms[i].disk.live.Partial?
    ensures ms[i].disk.flag && ms[i].disk.payload == Some(content)
  {
    HistoryIsRecoverable(ms, es, content, i);
  }

  /** The boot that runs undisturbed from a disk, as a bound on its operations. */
  function Boot(m: Machine, steps: nat): Machine
    decreases steps
  {
    if steps == 0 || !Enabled(m, Proceed) then m else Boot(Next(m, Proceed), steps - 1)
  }

  /** From any moment of any history, one undisturbed boot completes. */
  lemma OneQuietBootSuffices(ms: seq<Machine>, es: seq<Event>, content: int, i: nat)
    requires IsHistory(ms, es, content) && i < |ms| && ms[i].disk.flag
    ensures var m := Boot(Machine(ms[i].disk, ReadFlag), 9);
            m.at.Completed? && Replaced(m.disk, content) && !m.disk.flag
  {
    HistoryIsRecoverable(ms, es, content, i);
    var m0 := Machine(ms[i].disk, ReadFlag);
    assert Recoverable(m0, content);
    var m1 := Next(m0, Proceed);
    var m2 := Next(m1, Proceed);
    if m2.at == DropFlagOnly {
      assert Boot(m2, 7) == Boot(Next(m2, Proceed), 6);
    } else {
      var m3 := Next(m2, Proceed);
      var m4 := Next(m3, Proceed);
      var m5 := Next(m4, Proceed);
      var m6 := Next(m5, Proceed);
      var m7 := Next(m6, Proceed);
      var m8 := Next(m7, Proceed);
      assert Boot(m8, 1) == Boot(Next(m8, Proceed), 0);
      assert Boot(m6, 3) == Boot(m7, 2) == Boot(m8, 1);
      assert Boot(m4, 5) == Boot(m5, 4) == Boot(m6, 3);
      assert Boot(m2, 7) == Boot(m3, 6) == Boot(m4, 5);
    }
  }

  // ----- boots without a restore to do -----

  /** The disk as it was, but for the flag, and nothing past the check of the payload. */
  predicate Untouched(m: Machine, before: Disk) {
    && (before.flag ==> before.payload.None?)
    && m.disk.(flag := before.flag) == before && (m.disk.flag ==> before.flag)
    && match m.at
       case ReadFlag => true
       case StatPayload => before.flag
       case DropFlagOnly => before.flag
       case Completed(applied) => !applied && !m.disk.flag
       case _ => false
  }

  predicate Follows(ms: seq<Machine>, es: seq<Event>) {
    && |ms| == |es| + 1
    && forall i :: 0 <= i < |es| ==> Enabled(ms[i], es[i]) && ms[i + 1] == Next(ms[i], es[i])
  }

  lemma StepKeepsUntouched(m: Machine, e: Event, before: Disk)
    requires Untouched(m, before) && Enabled(m, e)
    ensures Untouched(Next(m, e), before)
  {
  }

  /** Without a flag, or with one whose payload is gone, no boot touches any other
      file, crashes or not, and a boot that completes reports no restore and
      leaves no flag. */
  lemma {:induction false} IdleBootsTouchNothing(ms: seq<Machine>, es: seq<Event>, i: nat)
    requires Follows(ms, es) && i < |ms|
    requires ms[0].at == ReadFlag && (ms[0].disk.flag ==> ms[0].disk.payload.None?)
    ensures Untouched(ms[i], ms[0].disk)
    ensures ms[i].disk == ms[0].disk || ms[i].disk == ms[0].disk.(flag := false)
    ensures ms[i].at.Completed? ==> !ms[i].at.applied && !ms[i].disk.flag
  {
    if i > 0 {
      IdleBootsTouchNothing(ms, es, i - 1);
      StepKeepsUntouched(ms[i - 1], es[i - 1], ms[0].disk);
    }
  }

  datatype Applied = NoFlag | PayloadMissing | AppliedFrom(labelled: bool)

  /** Schema versions are compared only when both are known. */
  predicate Newer(backup: Option<int>, current: Option<int>) {
    backup.Some? && current.Some? && backup.value > current.value
  }

  /** The files ApplyPending works on, and ApplyPending itself when nothing dies. */
  class Files {
    var flag: bool
    var payload: Option<int>
    var metadata: bool
    var live: DbFile
    var wal: bool
    var shm: bool

    ghost function State(): Disk
      reads this
    {
      Disk(flag, payload, metadata, live, wal, shm)
    }

    /** Manager.Apply: refuses a second restore and a newer schema, else sets the flag. */
    method RequestRestore(
        backupSchema: Option<int>, currentSchema: Option<int>, content: int, extractedMetadata: bool) returns (ok: bool)
      modifies this
      ensures ok <==> && !old(flag)
                      && !(backupSchema.Some? && currentSchema.Some? && currentSchema.value < backupSchema.value)
      ensures State() == if ok then old(State()).(flag := true, payload := Some(content), metadata := extractedMetadata)
                         else old(State())
    {
      if Newer(backupSchema, currentSchema) || flag {
        return false;
      }
      payload, metadata := Some(content), extractedMetadata;
      flag := true;
      return true;
    }

    method ApplyPending() returns (r: Applied)
      modifies this
      ensures r
           == if !old(flag) then NoFlag else if old(payload).None? then PayloadMissing else AppliedFrom(old(metadata))
      ensures State() == Boot(Machine(old(State()), ReadFlag), 9).disk
      ensures State()
           == if !old(flag) then old(State())
              else if old(payload).None? then old(State()).(flag := false)
              else Disk(false, None, false, Whole(old(payload).value), false, false)
    {
      ghost var m0 := Machine(State(), ReadFlag);
      if !flag {
        return NoFlag;
      }
      if payload.None? {
        flag := false;
        assert Boot(m0, 9) == Boot(Next(m0, Proceed), 8) == Boot(Next(Next(m0, Proceed), Proceed), 7);
        return PayloadMissing;
      }
      r := AppliedFrom(metadata);
      live := Missing;
      wal := false;
      shm := false;
      live := Partial;
      live := Whole(payload.value);
      payload, metadata := None, false;
      flag := false;
      BootApplies(m0.disk);
    }
  }

  lemma BootStep(m: Machine, steps: nat)
    requires 0 < steps && Enabled(m, Proceed)
    ensures Boot(m, steps) == Boot(Next(m, Proceed), steps - 1)
  {
  }

  /** The first half of an undisturbed boot: the old database goes. */
  lemma BootRemoves(d: Disk)
    requires d.flag && d.payload.Some?
    ensures Boot(Machine(d, ReadFlag), 9)
         == Boot(Machine(d.(live := Missing, wal := false, shm := false), OpenLive), 4)
  {
    BootStep(Machine(d, ReadFlag), 9);
    BootStep(Machine(d, StatPayload), 8);
    BootStep(Machine(d, RemoveLive), 7);
    BootStep(Machine(d.(live := Missing), RemoveWal), 6);
    BootStep(Machine(d.(live := Missing, wal := false), RemoveShm), 5);
    hide Boot;
  }

  /** The second half: the payload takes its place and the restore is over. */
  lemma BootCopies(d: Disk)
    requires d.payload.Some?
    ensures Boot(Machine(d, OpenLive), 4)
         == Machine(Disk(false, None, false, Whole(d.payload.value), d.wal, d.shm), Completed(true))
  {
    var whole := d.(live := Whole(d.payload.value));
    BootStep(Machine(d, OpenLive), 4);
    BootStep(Machine(d.(live := Partial), Copying), 3);
    BootStep(Machine(whole, RemovePayload), 2);
    BootStep(Machine(whole.(payload := None, metadata := false), DropFlag), 1);
  }

  /** An undisturbed boot with flag and payload, from start to end. */
  lemma BootApplies(d: Disk)
    requires d.flag && d.payload.Some?
    ensures Boot(Machine(d, ReadFlag), 9)
         == Machine(Disk(false, None, false, Whole(d.payload.value), false, false), Completed(true))
  {
    hide Boot;
    BootRemoves(d);
    BootCopies(d.(live := Missing, wal := false, shm := false));
  }
}
