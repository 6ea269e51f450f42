/** internal/state/state.go: the exclusive writer and its atomic replace sequence, on a disk that may lose power. */
module Store {
  import opened Basics
  import opened State

  datatype Content = Encoded(record: Record) | Undecodable

  /** `synced` says whether the data reached the disk, or only the kernel's cache. */
  datatype Inode = Inode(content: Content, synced: bool)

  /** `entry` is what the path names now; `older` holds what it named before renames whose directory entry has not been
      synced since, any of which a power loss may bring back. `temps` counts temporary files. */
  datatype Disk = Disk(entry: Option<Inode>, older: set<Option<Inode>>, temps: nat)

  datatype LoadError = Corrupt | UnsupportedSchema | WrongIdentity | InvalidRecord

  datatype LoadResult = NotFound | Loaded(record: Record) | Broken(error: LoadError)

  /** `load`, on the content found at the path. */
  function LoadContent(key: Key, content: Option<Content>): LoadResult {
    match content
    case None => NotFound
    case Some(Undecodable) => Broken(Corrupt)
    case Some(Encoded(r)) =>
      if r.schema != SCHEMA_VERSION then Broken(UnsupportedSchema)
      else if r.account != key.account || r.target != key.target then Broken(WrongIdentity)
      else if !Valid(r) then Broken(InvalidRecord)
      else Loaded(r)
  }

  function Visible(disk: Disk): Option<Content> {
    if disk.entry.Some? then Some(disk.entry.value.content) else None
  }

  function Load(key: Key, disk: Disk): LoadResult {
    LoadContent(key, Visible(disk))
  }

  /** The content is not a record of this key that the program could have saved. */
  predicate Unfit(key: Key, content: Content) {
    || content.Undecodable?
    || content.record.schema != SCHEMA_VERSION
    || content.record.account != key.account || content.record.target != key.target
    || Blank(content.record.account) || Blank(content.record.target)
    || content.record.phase.Unsupported? || content.record.updatedAt == 0
  }

  /** There is no record exactly when there is no file, and a file is read as a record, the one it holds, exactly when
      nothing is wrong with it; otherwise the first thing that is wrong is reported. */
  lemma LoadExactly(key: Key, disk: Disk)
    ensures Load(key, disk).NotFound? <==> disk.entry.None?
    ensures Load(key, disk).Broken? <==> disk.entry.Some? && Unfit(key, disk.entry.value.content)
    ensures Load(key, disk).Loaded? ==> disk.entry.value.content == Encoded(Load(key, disk).record)
    ensures Load(key, disk) == Broken(Corrupt) <==> disk.entry.Some? && disk.entry.value.content.Undecodable?
    ensures Load(key, disk) == Broken(UnsupportedSchema) <==>
      disk.entry.Some? && disk.entry.value.content.Encoded? && disk.entry.value.content.record.schema != 1
    ensures Load(key, disk) == Broken(InvalidRecord) ==>
      var r := disk.entry.value.content.record;
      r.schema == 1 && r.account == key.account && r.target == key.target
  {
    hide Blank;
  }

  /** After a power loss an unsynced file may hold anything. */
  predicate EntrySurvives(entry: Option<Inode>, content: Option<Content>) {
    match entry
    case None => content.None?
    case Some(inode) => content.Some? && (inode.synced ==> content.value == inode.content)
  }

  /** `content` is what the path may show once power returns. */
  predicate Survives(disk: Disk, content: Option<Content>) {
    EntrySurvives(disk.entry, content) || exists entry | entry in disk.older :: EntrySurvives(entry, content)
  }

  datatype Step = CreateTemp | Restrict | WriteData | SyncData | CloseTemp | Rename | OpenDirectory | SyncDirectory

  /** How a save goes: through, or one step returns an error, or the process dies just before one step. */
  datatype Fate = Completes | Fails(step: Step) | Dies(step: Step)

  datatype SaveResult = Nil | NotOwner | Mismatch | Invalid | Broke(step: Step) | Died(step: Step)

  /** Whether a save with this result replaced the file. */
  predicate Wrote(r: SaveResult) {
    r.Nil? || ((r.Broke? || r.Died?) && r.step in {OpenDirectory, SyncDirectory})
  }

  lemma AllSteps(fate: Fate)
    ensures fate.Completes? || fate.step in
      {CreateTemp, Restrict, WriteData, SyncData, CloseTemp, Rename, OpenDirectory, SyncDirectory}
  {
    if !fate.Completes? {
      match fate.step
      case CreateTemp =>
      case _ =>
    }
  }

  class Files {
    var disk: Disk
    var writer: Locked?

    constructor ()
      ensures disk == Disk(None, {}, 0) && writer == null
    {
      disk, writer := Disk(None, {}, 0), null;
    }

    /** `Store.TryLock`; `usable` is false when the path, its directory or the lock file cannot be prepared. */
    method TryLock(key: Key, usable: bool) returns (locked: Locked?)
      modifies this`writer
      ensures locked != null <==> old(writer) == null && usable
      ensures locked != null ==> fresh(locked) && locked.Owns() && locked.files == this && locked.key == key
      ensures locked == null ==> writer == old(writer)
    {
      locked := null;
      if writer == null && usable {
        locked := new Locked(this, key);
        writer := locked;
      }
    }
  }

  class Locked {
    const files: Files
    const key: Key
    var closed: bool

    constructor (files: Files, key: Key)
      ensures this.files == files && this.key == key && !closed
    {
      this.files, this.key, closed := files, key, false;
    }

    /** Still the exclusive writer. */
    ghost predicate Owns()
      reads this, files
    {
      !closed && files.writer == this
    }

    /** `Locked.Close`: idempotent, and the only way a writer gives the lock up while it lives. */
    method Close()
      modifies this`closed, files`writer
      ensures closed && files.disk == old(files.disk)
      ensures files.writer == if old(Owns()) then null else old(files.writer)
    {
      if !closed {
        closed := true;
        if files.writer == this {
          files.writer := null;
        }
      }
    }

    /** `Locked.Save`, step by step. Whatever the fate, the path shows exactly the old or the new record, and the new
        one exactly when the result says so; a power loss adds nothing but entries that were already at risk before. */
    method Save(value: Record, fate: Fate) returns (r: SaveResult)
      modifies files`disk
      ensures var new' := Encoded(value.(schema := SCHEMA_VERSION));
        && (Wrote(r) ==> Accept(key, value).Some? && Load(key, files.disk) == Loaded(Accept(key, value).value)
                         && Visible(files.disk) == Some(new'))
        && (!Wrote(r) ==> files.disk.(temps := 0) == old(files.disk).(temps := 0))
        && (forall c | Survives(files.disk, c) :: old(Survives(files.disk, c)) || c == Some(new'))
        && (r.Nil? ==> forall c | Survives(files.disk, c) :: c == Some(new'))
      ensures r.NotOwner? <==> !old(Owns())
      ensures old(Owns()) && Accept(key, value).None? <==> r.Mismatch? || r.Invalid?
      ensures old(Owns()) && Accept(key, value).Some? ==>
        r == match fate case Completes => Nil case Fails(s) => Broke(s) case Dies(s) => Died(s)
      ensures !r.Died? ==> files.disk.temps == old(files.disk.temps)
    {
      if closed || files.writer != this {
        return NotOwner;
      }
      if value.account != key.account || value.target != key.target {
        return Mismatch;
      }
      var stamped := value.(schema := SCHEMA_VERSION);
      if !Valid(stamped) {
        return Invalid;
      }
      if fate == Dies(CreateTemp) { return Died(CreateTemp); }
      if fate == Fails(CreateTemp) { return Broke(CreateTemp); }
      files.disk := files.disk.(temps := files.disk.temps + 1);
      var temp := Inode(Undecodable, false);
      if fate == Dies(Restrict) { return Died(Restrict); }
      if fate == Fails(Restrict) { Remove(); return Broke(Restrict); }
      if fate == Dies(WriteData) { return Died(WriteData); }
      if fate == Fails(WriteData) { Remove(); return Broke(WriteData); }
      temp := Inode(Encoded(stamped), false);
      if fate == Dies(SyncData) { return Died(SyncData); }
      if fate == Fails(SyncData) { Remove(); return Broke(SyncData); }
      temp := temp.(synced := true);
      if fate == Dies(CloseTemp) { return Died(CloseTemp); }
      if fate == Fails(CloseTemp) { Remove(); return Broke(CloseTemp); }
      if fate == Dies(Rename) { return Died(Rename); }
      if fate == Fails(Rename) { Remove(); return Broke(Rename); }
      files.disk := Disk(Some(temp), files.disk.older + {files.disk.entry}, files.disk.temps - 1);
      if fate == Dies(OpenDirectory) { return Died(OpenDirectory); }
      if fate == Fails(OpenDirectory) { return Broke(OpenDirectory); }
      if fate == Dies(SyncDirectory) { return Died(SyncDirectory); }
      if fate == Fails(SyncDirectory) { return Broke(SyncDirectory); }
      files.disk := files.disk.(older := {});
      AllSteps(fate);
      return Nil;
    }

    /** The deferred removal of the temporary file. */
    method Remove()
      requires files.disk.temps > 0
      modifies files`disk
      ensures files.disk == old(files.disk).(temps := old(files.disk.temps) - 1)
    {
      files.disk := files.disk.(temps := files.disk.temps - 1);
    }
  }

  function Readable(r: Option<Record>): LoadResult {
    if r.Some? then Loaded(r.value) else NotFound
  }

  /** One cycle of any of the four clients: lock, load, compute, save, close. Seen through `Load`, before and after,
      it is `State.After` with the outcome its result tells; without a result nothing was saved. A file that cannot be
      read as this record is never overwritten. A power loss can only bring back what it could before, or the record
      saved now. The lock is free afterwards if it was before: closed, or released by the system when the process
      dies. */
  method ReadModifyWrite(files: Files, key: Key, w: Write, ghost before: Option<Record>, now: Time, usable: bool,
                         fate: Fate)
    returns (r: Option<SaveResult>)
    requires files.disk.entry.None? ==> before.None?
    requires files.disk.entry.Some? && !Unfit(key, files.disk.entry.value.content) ==>
      before.Some? && files.disk.entry.value.content == Encoded(before.value)
    modifies files
    ensures old(files.disk.entry.Some? && Unfit(key, files.disk.entry.value.content)) ==>
      r.None? && files.disk == old(files.disk)
    ensures !old(files.disk.entry.Some? && Unfit(key, files.disk.entry.value.content)) ==>
      var out := if r.Some? then Outcome(Wrote(r.value), r.value.Nil?) else Outcome(false, false);
      && Feasible(key, w, before, now, out)
      && Load(key, files.disk) == Readable(After(key, w, before, now, out))
    ensures old(files.writer == null && (files.disk.entry.Some? ==> !Unfit(key, files.disk.entry.value.content))) ==>
      (r.Some? <==> usable && Change(key, w, before, now).Some?)
    ensures r.Some? ==> Change(key, w, before, now).Some?
    ensures r.Some? && Accept(key, Change(key, w, before, now).value).Some? ==>
      r.value == match fate case Completes => Nil case Fails(s) => Broke(s) case Dies(s) => Died(s)
    ensures old(files.writer) == null ==> files.writer == null
    ensures old(files.writer) != null ==> r.None? && files.writer == old(files.writer)
    ensures forall c | Survives(files.disk, c) :: old(Survives(files.disk, c)) || c == Visible(files.disk)
    ensures r.Some? && r.value.Nil? ==> forall c | Survives(files.disk, c) :: c == Visible(files.disk)
  {
    LoadExactly(key, files.disk);
    hide Unfit;
    var locked := files.TryLock(key, usable);
    if locked == null {
      return None;
    }
    var loaded := Load(key, files.disk);
    if loaded.Broken? {
      locked.Close();
      return None;
    }
    var current := if loaded.Loaded? then Some(loaded.record) else None;
    var value := Change(key, w, current, now);
    if value.None? {
      locked.Close();
      return None;
    }
    var saved := locked.Save(value.value, fate);
    if saved.Died? {
      files.writer := null;
    } else {
      locked.Close();
    }
    r := Some(saved);
  }
}
