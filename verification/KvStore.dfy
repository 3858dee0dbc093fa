/**
 * The key-value store's persistence: a snapshot file, a write-ahead log and the in-memory table. A data
 * directory outlives the processes that open it, and remembers every content it has ever shown, because a
 * process can die right after any of its file operations.
 */
module KvStore {
  import opened Basics

  datatype Op = Put(key: string, value: string) | Delete(key: string)

  datatype Entry = Entry(lsn: int, op: Op)

  /** One line of the log: an entry written in full, or bytes that do not parse. */
  datatype Line = Whole(entry: Entry) | Torn

  /** A table and the sequence number it stands at; also the content of a snapshot file. */
  datatype Image = Image(data: map<string, string>, lsn: int)

  datatype Disk = Disk(snapshot: Option<Image>, wal: Option<seq<Line>>)

  const EMPTY_DISK := Disk(None, None)

  datatype Memory = Memory(image: Image, committed: int)

  // ---------------------------------------------------------------- reading the files

  function Applied(data: map<string, string>, op: Op): map<string, string>
  {
    match op
    case Put(key, value) => data[key := value]
    case Delete(key) => data - {key}
  }

  /** What an operation means for lookups: its own key is set or gone, and every other key is as it was. */
  predicate OnlyChanges(before: map<string, string>, after: map<string, string>, op: Op)
  {
    && (match op
        case Put(key, value) => key in after && after[key] == value
        case Delete(key) => key !in after)
    && (forall key :: key in before && key != op.key ==> key in after && after[key] == before[key])
    && (forall key :: key in after && key != op.key ==> key in before)
  }

  /** One entry applied in memory: the sequence number never goes back. */
  function Advanced(image: Image, entry: Entry): Image
  {
    Image(Applied(image.data, entry.op), if entry.lsn > image.lsn then entry.lsn else image.lsn)
  }

  function Loaded(disk: Disk): Image
  {
    if disk.snapshot.Some? then disk.snapshot.value else Image(map[], 0)
  }

  function LogLines(disk: Disk): seq<Line>
  {
    if disk.wal.Some? then disk.wal.value else []
  }

  /** Replay: entries not newer than the table are skipped, and the first unreadable line ends it. */
  function Replayed(image: Image, lines: seq<Line>): Image
    decreases |lines|
  {
    if lines == [] || lines[0].Torn? then image
    else Replayed(if lines[0].entry.lsn > image.lsn then Advanced(image, lines[0].entry) else image, lines[1..])
  }

  /** Replay for a rollback: unreadable lines and entries above the target are passed over. */
  function ReplayedUpTo(image: Image, lines: seq<Line>, target: int): Image
    decreases |lines|
  {
    if lines == [] then image
    else if lines[0].Whole? && image.lsn < lines[0].entry.lsn <= target then
      ReplayedUpTo(Advanced(image, lines[0].entry), lines[1..], target)
    else ReplayedUpTo(image, lines[1..], target)
  }

  /** The longest run of readable lines from the start. */
  function Readable(lines: seq<Line>): seq<Line>
  {
    if lines == [] || lines[0].Torn? then [] else [lines[0]] + Readable(lines[1..])
  }

  lemma {:induction false} ReadableIs(lines: seq<Line>, n: nat)
    requires n <= |lines| && forall i :: 0 <= i < n ==> lines[i].Whole?
    requires n == |lines| || lines[n].Torn?
    ensures Readable(lines) == lines[..n]
    decreases |lines|
  {
    if n > 0 { ReadableIs(lines[1..], n - 1); }
  }

  function KeptUpTo(lines: seq<Line>, target: int): seq<Line>
  {
    if lines == [] then []
    else if lines[0].Whole? && lines[0].entry.lsn <= target then [lines[0]] + KeptUpTo(lines[1..], target)
    else KeptUpTo(lines[1..], target)
  }

  // ---------------------------------------------------------------- what each operation does

  /** The memory an operation leaves, and every content the directory shows while it runs. */
  datatype Effect = Effect(memory: Memory, shown: seq<Disk>)

  /** The directory after the first `n` file operations. */
  function DiskAfter(disk: Disk, shown: seq<Disk>, n: nat): Disk
    requires n <= |shown|
  {
    if n == 0 then disk else shown[n - 1]
  }

  function Opening(disk: Disk): Effect
  {
    var created := if disk.wal.Some? then [] else [disk.(wal := Some([]))];
    Effect(Memory(Replayed(Loaded(disk), LogLines(disk)), Loaded(disk).lsn),
           created + [disk.(wal := Some(Readable(LogLines(disk))))])
  }

  function Applying(memory: Memory, disk: Disk, entry: Entry): Effect
  {
    Effect(memory.(image := Advanced(memory.image, entry)),
           [disk.(wal := Some(LogLines(disk) + [Torn])), disk.(wal := Some(LogLines(disk) + [Whole(entry)]))])
  }

  function Checkpointing(memory: Memory, disk: Disk): Effect
  {
    if memory.committed < memory.image.lsn then Effect(memory, [])
    else Effect(memory, [Disk(Some(memory.image), disk.wal), Disk(Some(memory.image), Some([]))])
  }

  function RollingBack(memory: Memory, disk: Disk, target: int): Effect
  {
    Effect(memory.(image := ReplayedUpTo(Loaded(disk), LogLines(disk), target)),
           [disk.(wal := Some(KeptUpTo(LogLines(disk), target)))])
  }

  // ---------------------------------------------------------------- the directory

  class DataDirectory {
    var snapshot: Option<Image>
    var wal: Option<seq<Line>>
    /** Which file the log's name stands for: renaming over it makes a new one. */
    var inode: nat
    ghost var shown: seq<Disk>

    ghost function Content(): Disk
      reads this
    {
      Disk(snapshot, wal)
    }

    constructor ()
      ensures Content() == EMPTY_DISK && shown == []
    {
      snapshot, wal, inode, shown := None, None, 0, [];
    }

    method LoadSnapshot() returns (image: Image)
      ensures image == Loaded(Content())
    {
      image := if snapshot.Some? then snapshot.value else Image(map[], 0);
    }

    /** Opens the log for appending, creating it when there is none. */
    method OpenAppend() returns (handle: nat)
      modifies this
      ensures handle == inode && wal.Some? && snapshot == old(snapshot)
      ensures wal == Some(LogLines(old(Content())))
      ensures old(wal).Some? ==> inode == old(inode) && shown == old(shown)
      ensures old(wal).None? ==> shown == old(shown) + [Content()]
    {
      if wal.None? {
        wal, inode := Some([]), inode + 1;
        shown := shown + [Content()];
      }
      handle := inode;
    }

    /** Appends through a handle; bytes written to a replaced file are lost with it. */
    method Append(handle: nat, entry: Entry)
      requires wal.Some?
      modifies this`wal, this`shown
      ensures handle != inode ==> wal == old(wal) && shown == old(shown)
      ensures handle == inode ==>
                wal == Some(old(wal).value + [Whole(entry)])
                && shown == old(shown) + [Disk(snapshot, Some(old(wal).value + [Torn])), Content()]
    {
      if handle == inode {
        shown := shown + [Disk(snapshot, Some(wal.value + [Torn]))];
        wal := Some(wal.value + [Whole(entry)]);
        shown := shown + [Content()];
      }
    }

    /** The temporary snapshot renamed over the old one. */
    method ReplaceSnapshot(image: Image)
      modifies this`snapshot, this`shown
      ensures snapshot == Some(image) && shown == old(shown) + [Content()]
    {
      snapshot := Some(image);
      shown := shown + [Content()];
    }

    /** The temporary log renamed over the old one. */
    method ReplaceLog(lines: seq<Line>)
      modifies this`wal, this`inode, this`shown
      ensures wal == Some(lines) && inode != old(inode) && shown == old(shown) + [Content()]
    {
      wal, inode := Some(lines), inode + 1;
      shown := shown + [Content()];
    }

    /** The log emptied in place. */
    method EmptyLog() returns (handle: nat)
      modifies this`wal, this`shown
      ensures wal == Some([]) && handle == inode && shown == old(shown) + [Content()]
    {
      wal, handle := Some([]), inode;
      shown := shown + [Content()];
    }
  }

  // ---------------------------------------------------------------- the store

  class KvState {
    var data: map<string, string>
    var lastAppliedLsn: int
    var committedLsn: int
    var walWriter: nat
    const dir: DataDirectory

    ghost function State(): Memory
      reads this
    {
      Memory(Image(data, lastAppliedLsn), committedLsn)
    }

    /** The log exists and this store appends to the file the directory shows. */
    ghost predicate Attached()
      reads this, dir
    {
      dir.wal.Some? && walWriter == dir.inode
    }

    constructor Open(dir: DataDirectory)
      modifies dir
      ensures this.dir == dir && Attached()
      ensures committedLsn == if old(dir.snapshot).Some? then old(dir.snapshot).value.lsn else 0
      ensures var effect := Opening(old(dir.Content()));
              && State() == effect.memory
              && dir.shown == old(dir.shown) + effect.shown
              && dir.Content() == DiskAfter(old(dir.Content()), effect.shown, |effect.shown|)
    {
      this.dir := dir;
      var handle := dir.OpenAppend();
      walWriter := handle;
      var loaded := dir.LoadSnapshot();
      data, lastAppliedLsn, committedLsn := loaded.data, loaded.lsn, loaded.lsn;
      new;
      ReplayWal();
      TruncateWalToValid();
      walWriter := dir.OpenAppend();
    }

    method ReplayWal()
      modifies this`data, this`lastAppliedLsn
      ensures Image(data, lastAppliedLsn)
              == Replayed(Image(old(data), old(lastAppliedLsn)), LogLines(dir.Content()))
    {
      if dir.wal.None? { return; }
      var lines, i := dir.wal.value, 0;
      ghost var goal := Replayed(Image(data, lastAppliedLsn), lines);
      while i < |lines| && lines[i].Whole?
        invariant 0 <= i <= |lines|
        invariant Replayed(Image(data, lastAppliedLsn), lines[i..]) == goal
      {
        assert lines[i..][1..] == lines[i + 1..];
        if lines[i].entry.lsn > lastAppliedLsn {
          ApplyOpInMemory(lines[i].entry);
        }
        i := i + 1;
      }
    }

    method TruncateWalToValid()
      modifies dir
      ensures dir.snapshot == old(dir.snapshot)
      ensures old(dir.wal).None? ==> dir.wal.None? && dir.inode == old(dir.inode) && dir.shown == old(dir.shown)
      ensures old(dir.wal).Some? ==> dir.wal == Some(Readable(old(dir.wal).value))
                                     && dir.shown == old(dir.shown) + [dir.Content()]
    {
      if dir.wal.None? { return; }
      var valid := ReadValid(dir.wal.value);
      dir.ReplaceLog(valid);
    }

    static method ReadValid(lines: seq<Line>) returns (valid: seq<Line>)
      ensures valid == Readable(lines)
    {
      valid := [];
      var i := 0;
      while i < |lines| && lines[i].Whole?
        invariant 0 <= i <= |lines|
        invariant valid == lines[..i] && forall j :: 0 <= j < i ==> lines[j].Whole?
      {
        valid := valid + [lines[i]];
        i := i + 1;
      }
      ReadableIs(lines, i);
    }

    static method ReadUpTo(lines: seq<Line>, target: int) returns (kept: seq<Line>)
      ensures kept == KeptUpTo(lines, target)
    {
      kept := [];
      var i := 0;
      while i < |lines|
        invariant 0 <= i <= |lines|
        invariant kept + KeptUpTo(lines[i..], target) == KeptUpTo(lines, target)
      {
        var line := lines[i];
        assert lines[i..][1..] == lines[i + 1..];
        ghost var rest := KeptUpTo(lines[i + 1..], target);
        if line.Whole? && line.entry.lsn <= target {
          assert kept + ([line] + rest) == kept + [line] + rest;
          kept := kept + [line];
        }
        i := i + 1;
      }
      assert kept + KeptUpTo(lines[i..], target) == kept;
    }

    method ApplyOpInMemory(entry: Entry)
      modifies this`data, this`lastAppliedLsn
      ensures Image(data, lastAppliedLsn) == Advanced(Image(old(data), old(lastAppliedLsn)), entry)
      ensures OnlyChanges(old(data), data, entry.op) && lastAppliedLsn == Max(old(lastAppliedLsn), entry.lsn)
    {
      match entry.op {
        case Put(key, value) => data := data[key := value];
        case Delete(key) => data := data - {key};
      }
      if entry.lsn > lastAppliedLsn {
        lastAppliedLsn := entry.lsn;
      }
    }

    method ApplyOp(entry: Entry)
      requires Attached()
      modifies this`data, this`lastAppliedLsn, dir
      ensures Attached() && OnlyChanges(old(data), data, entry.op)
      ensures lastAppliedLsn == Max(old(lastAppliedLsn), entry.lsn)
      ensures var effect := Applying(old(State()), old(dir.Content()), entry);
              && State() == effect.memory
              && dir.shown == old(dir.shown) + effect.shown
              && dir.Content() == DiskAfter(old(dir.Content()), effect.shown, |effect.shown|)
    {
      ApplyOpInMemory(entry);
      dir.Append(walWriter, entry);
    }

    method SetCommittedLsn(lsn: int)
      modifies this`committedLsn
      ensures committedLsn == Max(old(committedLsn), lsn)
    {
      if lsn > committedLsn {
        committedLsn := lsn;
      }
    }

    method Checkpoint()
      requires Attached()
      modifies this`walWriter, dir
      ensures Attached()
      // Everything applied is in the snapshot and out of the log, exactly if all of it is committed.
      ensures if old(committedLsn) >= old(lastAppliedLsn)
              then dir.snapshot == Some(Image(data, lastAppliedLsn)) && dir.wal == Some([])
              else dir.Content() == old(dir.Content())
      ensures var effect := Checkpointing(old(State()), old(dir.Content()));
              && State() == effect.memory
              && dir.shown == old(dir.shown) + effect.shown
              && dir.Content() == DiskAfter(old(dir.Content()), effect.shown, |effect.shown|)
    {
      if committedLsn < lastAppliedLsn { return; }
      dir.ReplaceSnapshot(Image(data, lastAppliedLsn));
      walWriter := dir.EmptyLog();
    }

    method RollbackTo(target: int)
      requires Attached()
      modifies this`data, this`lastAppliedLsn, this`walWriter, dir
      ensures Attached()
      ensures var effect := RollingBack(old(State()), old(dir.Content()), target);
              && State() == effect.memory
              && dir.shown == old(dir.shown) + effect.shown
              && dir.Content() == DiskAfter(old(dir.Content()), effect.shown, |effect.shown|)
    {
      var loaded := dir.LoadSnapshot();
      data, lastAppliedLsn := loaded.data, loaded.lsn;
      var lines, i := dir.wal.value, 0;
      ghost var goal := ReplayedUpTo(loaded, lines, target);
      while i < |lines|
        modifies this`data, this`lastAppliedLsn
        invariant 0 <= i <= |lines|
        invariant ReplayedUpTo(Image(data, lastAppliedLsn), lines[i..], target) == goal
      {
        assert lines[i..][1..] == lines[i + 1..];
        if lines[i].Whole? && lines[i].entry.lsn > lastAppliedLsn && lines[i].entry.lsn <= target {
          ApplyOpInMemory(lines[i].entry);
        }
        i := i + 1;
      }
      RewriteWalUpTo(target);
    }

    method RewriteWalUpTo(target: int)
      requires dir.wal.Some?
      modifies this`walWriter, dir
      ensures Attached() && dir.snapshot == old(dir.snapshot)
      ensures dir.wal == Some(KeptUpTo(old(dir.wal).value, target))
      ensures dir.shown == old(dir.shown) + [dir.Content()]
    {
      var kept := ReadUpTo(dir.wal.value, target);
      dir.ReplaceLog(kept);
      walWriter := dir.OpenAppend();
    }
  }
}
