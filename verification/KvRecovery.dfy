/**
 * Crash recovery of the key-value store. A node is a data directory together with the process that may have
 * it open; a process can die before or after any file operation of any call, also while it opens. The log of
 * surviving operations is a history variable: what recovery has to reproduce, and nothing reads it.
 */
module KvRecovery {
  import opened Basics
  import opened KvStore

  /** The reference: the logged operations applied one after the other to an empty table. */
  function Fold(log: seq<Entry>): Image
  {
    if log == [] then Image(map[], 0)
    else Image(Applied(Fold(log[..|log| - 1]).data, log[|log| - 1].op), log[|log| - 1].lsn)
  }

  /** The last entry of the log that names the key. */
  predicate LastNaming(log: seq<Entry>, key: string, i: int)
  {
    0 <= i < |log| && log[i].op.key == key && forall j :: i < j < |log| ==> log[j].op.key != key
  }

  /** The lookup of a key gives the value exactly if the last entry naming the key puts it there. */
  ghost predicate Answers(data: map<string, string>, log: seq<Entry>, key: string, value: string)
  {
    (key in data && data[key] == value) <==> exists i :: LastNaming(log, key, i) && log[i].op == Put(key, value)
  }

  ghost predicate AnswersFrom(data: map<string, string>, log: seq<Entry>)
  {
    forall key, value :: Answers(data, log, key, value)
  }

  lemma {:induction false} FoldAnswers(log: seq<Entry>, key: string, value: string)
    ensures Answers(Fold(log).data, log, key, value)
  {
    if log != [] {
      var n, before := |log| - 1, log[..|log| - 1];
      FoldAnswers(before, key, value);
      if log[n].op.key == key {
        assert LastNaming(log, key, n);
        assert forall i :: LastNaming(log, key, i) ==> i == n;
      } else {
        assert forall i :: i < n ==> (LastNaming(log, key, i) <==> LastNaming(before, key, i));
      }
    }
  }

  /** The fold is what the operations mean: every lookup is answered by the last entry that names the key. */
  lemma {:induction false} FoldAnswersLookups(log: seq<Entry>)
    ensures AnswersFrom(Fold(log).data, log)
    ensures Fold(log).lsn == if log == [] then 0 else log[|log| - 1].lsn
  {
    forall key, value ensures Answers(Fold(log).data, log, key, value) { FoldAnswers(log, key, value); }
  }

  predicate Increasing(log: seq<Entry>)
  {
    && (forall i :: 0 <= i < |log| ==> 0 < log[i].lsn)
    && (forall i, j :: 0 <= i < j < |log| ==> log[i].lsn < log[j].lsn)
  }

  function Lines(log: seq<Entry>): (r: seq<Line>)
    ensures |r| == |log| && forall i :: 0 <= i < |r| ==> r[i] == Whole(log[i])
  {
    seq(|log|, i requires 0 <= i < |log| => Whole(log[i]))
  }

  /** The operations at or below a sequence number. */
  function UpTo(log: seq<Entry>, target: int): seq<Entry>
  {
    if log == [] then []
    else if log[0].lsn <= target then [log[0]] + UpTo(log[1..], target)
    else UpTo(log[1..], target)
  }

  lemma {:induction false} InUpTo(log: seq<Entry>, target: int)
    ensures forall e :: e in UpTo(log, target) <==> e in log && e.lsn <= target
  {
    if log != [] { InUpTo(log[1..], target); }
  }

  // ---------------------------------------------------------------- what a directory stands for

  predicate AllWhole(lines: seq<Line>)
  {
    forall i :: 0 <= i < |lines| ==> lines[i].Whole?
  }

  predicate AllOld(lines: seq<Line>, lsn: int)
  {
    forall i :: 0 <= i < |lines| ==> lines[i].Whole? && lines[i].entry.lsn <= lsn
  }

  /**
   * The image is the fold of the first `k` operations; the lines hold entries it already covers, and then
   * exactly the remaining operations.
   */
  predicate Splits(image: Image, lines: seq<Line>, log: seq<Entry>, stale: nat, k: nat)
  {
    && stale <= |lines| && k <= |log|
    && image == Fold(log[..k])
    && AllOld(lines[..stale], image.lsn)
    && lines[stale..] == Lines(log[k..])
  }

  predicate RepresentsAt(disk: Disk, log: seq<Entry>, stale: nat, k: nat)
  {
    Splits(Loaded(disk), Readable(LogLines(disk)), log, stale, k)
  }

  ghost predicate Represents(disk: Disk, log: seq<Entry>)
  {
    exists stale: nat, k: nat :: RepresentsAt(disk, log, stale, k)
  }

  lemma {:induction false} WholeReads(lines: seq<Line>)
    requires AllWhole(lines)
    ensures Readable(lines) == lines
  {
    ReadableIs(lines, |lines|);
  }

  lemma {:induction false} SplitOf(disk: Disk, log: seq<Entry>) returns (stale: nat, k: nat)
    requires Represents(disk, log) && AllWhole(LogLines(disk))
    ensures Splits(Loaded(disk), LogLines(disk), log, stale, k)
  {
    stale, k :| RepresentsAt(disk, log, stale, k);
    WholeReads(LogLines(disk));
  }

  lemma {:induction false} SplitRepresents(disk: Disk, log: seq<Entry>, stale: nat, k: nat)
    requires Splits(Loaded(disk), LogLines(disk), log, stale, k) && AllWhole(LogLines(disk))
    ensures Represents(disk, log)
  {
    WholeReads(LogLines(disk));
    assert RepresentsAt(disk, log, stale, k);
  }

  // ---------------------------------------------------------------- replay is the fold

  lemma {:induction false} ReplayStopsAtTorn(image: Image, lines: seq<Line>)
    ensures Replayed(image, lines) == Replayed(image, Readable(lines))
    decreases |lines|
  {
    if lines != [] && lines[0].Whole? {
      var next := if lines[0].entry.lsn > image.lsn then Advanced(image, lines[0].entry) else image;
      ReplayStopsAtTorn(next, lines[1..]);
      assert Readable(lines)[1..] == Readable(lines[1..]);
    }
  }

  lemma {:induction false} ReplaySkipsOld(image: Image, old_: seq<Line>, rest: seq<Line>)
    requires AllOld(old_, image.lsn)
    ensures Replayed(image, old_ + rest) == Replayed(image, rest)
    decreases |old_|
  {
    if old_ == [] {
      assert old_ + rest == rest;
    } else {
      assert (old_ + rest)[1..] == old_[1..] + rest;
      ReplaySkipsOld(image, old_[1..], rest);
    }
  }

  lemma {:induction false} ReplayCatchesUp(log: seq<Entry>, k: nat)
    requires Increasing(log) && k <= |log|
    ensures Replayed(Fold(log[..k]), Lines(log[k..])) == Fold(log)
    decreases |log| - k
  {
    if k == |log| {
      assert log[..k] == log;
    } else {
      assert log[..k + 1][..k] == log[..k];
      assert Fold(log[..k + 1]) == Advanced(Fold(log[..k]), log[k]);
      assert Lines(log[k..])[1..] == Lines(log[k + 1..]);
      ReplayCatchesUp(log, k + 1);
    }
  }

  /** Opening a directory recovers the fold of the operations it stands for. */
  lemma {:induction false} RecoveryIsTheFold(disk: Disk, log: seq<Entry>)
    requires Increasing(log) && Represents(disk, log)
    ensures Replayed(Loaded(disk), LogLines(disk)) == Fold(log)
  {
    var stale: nat, k: nat :| RepresentsAt(disk, log, stale, k);
    ReplayStopsAtTorn(Loaded(disk), LogLines(disk));
    SplitReplays(Loaded(disk), Readable(LogLines(disk)), log, stale, k);
  }

  lemma {:induction false} SplitReplays(image: Image, lines: seq<Line>, log: seq<Entry>, stale: nat, k: nat)
    requires Increasing(log) && Splits(image, lines, log, stale, k)
    ensures Replayed(image, lines) == Fold(log)
  {
    assert lines == lines[..stale] + lines[stale..];
    ReplaySkipsOld(image, lines[..stale], lines[stale..]);
    ReplayCatchesUp(log, k);
  }

  // ---------------------------------------------------------------- rollback

  lemma {:induction false} KeepingSplits(a: seq<Line>, b: seq<Line>, target: int)
    ensures KeptUpTo(a + b, target) == KeptUpTo(a, target) + KeptUpTo(b, target)
    decreases |a|
  {
    if a == [] {
      assert a + b == b;
    } else {
      assert (a + b)[1..] == a[1..] + b;
      KeepingSplits(a[1..], b, target);
    }
  }

  lemma {:induction false} KeepingOld(a: seq<Line>, lsn: int, target: int)
    requires AllOld(a, lsn)
    ensures AllOld(KeptUpTo(a, target), lsn)
    decreases |a|
  {
    if a != [] { KeepingOld(a[1..], lsn, target); }
  }

  lemma {:induction false} KeepingWhole(lines: seq<Line>, target: int)
    ensures AllWhole(KeptUpTo(lines, target))
  {
    if lines != [] { KeepingWhole(lines[1..], target); }
  }

  lemma {:induction false} KeepingLines(log: seq<Entry>, target: int)
    ensures KeptUpTo(Lines(log), target) == Lines(UpTo(log, target))
    decreases |log|
  {
    if log != [] {
      assert Lines(log)[1..] == Lines(log[1..]);
      KeepingLines(log[1..], target);
    }
  }

  lemma {:induction false} UpToConcat(a: seq<Entry>, b: seq<Entry>, target: int)
    ensures UpTo(a + b, target) == UpTo(a, target) + UpTo(b, target)
    decreases |a|
  {
    if a == [] {
      assert a + b == b;
    } else {
      assert (a + b)[1..] == a[1..] + b;
      UpToConcat(a[1..], b, target);
    }
  }

  lemma {:induction false} UpToAll(log: seq<Entry>, target: int)
    requires forall i :: 0 <= i < |log| ==> log[i].lsn <= target
    ensures UpTo(log, target) == log
    decreases |log|
  {
    if log != [] { UpToAll(log[1..], target); }
  }

  lemma {:induction false} UpToAgrees(log: seq<Entry>, a: int, b: int)
    requires forall i :: 0 <= i < |log| ==> (log[i].lsn <= a <==> log[i].lsn <= b)
    ensures UpTo(log, a) == UpTo(log, b)
    decreases |log|
  {
    if log != [] { UpToAgrees(log[1..], a, b); }
  }

  /** Keeping all of a covered prefix, and of the rest what the target covers. */
  lemma {:induction false} UpToSplits(log: seq<Entry>, k: nat, target: int)
    requires Increasing(log) && k <= |log|
    ensures UpTo(log, Max(target, Fold(log[..k]).lsn)) == log[..k] + UpTo(log[k..], target)
  {
    var a, b := log[..k], log[k..];
    SplitAround(log, k);
    UpToOfSplit(a, b, Fold(a).lsn, target);
    assert log == a + b;
  }

  lemma {:induction false} SplitAround(log: seq<Entry>, k: nat)
    requires Increasing(log) && k <= |log|
    ensures forall i :: 0 <= i < |log[..k]| ==> log[..k][i].lsn <= Fold(log[..k]).lsn
    ensures forall i :: 0 <= i < |log[k..]| ==> Fold(log[..k]).lsn < log[k..][i].lsn
  {
    FoldLsn(log, k);
  }

  lemma {:induction false} UpToOfSplit(a: seq<Entry>, b: seq<Entry>, s: int, target: int)
    requires forall i :: 0 <= i < |a| ==> a[i].lsn <= s
    requires forall i :: 0 <= i < |b| ==> s < b[i].lsn
    ensures UpTo(a + b, Max(target, s)) == a + UpTo(b, target)
  {
    UpToConcat(a, b, Max(target, s));
    UpToAll(a, Max(target, s));
    UpToAgrees(b, Max(target, s), target);
  }

  /** The fold of a prefix stands between what it covers and what it does not. */
  lemma {:induction false} FoldLsn(log: seq<Entry>, k: nat)
    requires Increasing(log) && k <= |log|
    ensures forall i :: 0 <= i < k ==> log[i].lsn <= Fold(log[..k]).lsn
    ensures forall i :: k <= i < |log| ==> Fold(log[..k]).lsn < log[i].lsn
    ensures Fold(log[..k]).lsn == if k == 0 then 0 else log[k - 1].lsn
    ensures Fold(log[..k]).lsn <= Fold(log).lsn
  {
    if k > 0 { assert log[..k][k - 1] == log[k - 1]; }
    if |log| > 0 { assert Fold(log).lsn == log[|log| - 1].lsn; }
  }

  lemma {:induction false} UpToIncreasing(log: seq<Entry>, target: int)
    requires Increasing(log)
    ensures Increasing(UpTo(log, target))
    decreases |log|
  {
    if log != [] {
      var rest := UpTo(log[1..], target);
      UpToIncreasing(log[1..], target);
      InUpTo(log[1..], target);
      forall e | e in rest ensures log[0].lsn < e.lsn { assert e in log[1..]; }
      ConsIncreasing(log[0], rest);
    }
  }

  lemma {:induction false} ConsIncreasing(first: Entry, rest: seq<Entry>)
    requires 0 < first.lsn && Increasing(rest) && forall e :: e in rest ==> first.lsn < e.lsn
    ensures Increasing([first] + rest)
  {
  }

  /** Replaying up to a target is replaying what the rewritten log keeps. */
  lemma {:induction false} RollbackReadsWhatItKeeps(image: Image, lines: seq<Line>, target: int)
    ensures ReplayedUpTo(image, lines, target) == Replayed(image, KeptUpTo(lines, target))
    decreases |lines|
  {
    if lines != [] {
      var line := lines[0];
      var next := if line.Whole? && image.lsn < line.entry.lsn <= target then Advanced(image, line.entry) else image;
      RollbackReadsWhatItKeeps(next, lines[1..], target);
      if line.Whole? && line.entry.lsn <= target {
        assert KeptUpTo(lines, target)[0] == line;
        assert KeptUpTo(lines, target)[1..] == KeptUpTo(lines[1..], target);
      }
    }
  }

  /** The operations a rollback leaves: those at or below the target, and all that the snapshot covers. */
  function RolledBack(disk: Disk, log: seq<Entry>, target: int): seq<Entry>
  {
    UpTo(log, Max(target, Loaded(disk).lsn))
  }

  lemma {:induction false} RollbackRepresents(memory: Memory, disk: Disk, log: seq<Entry>, target: int)
    requires Increasing(log) && Represents(disk, log) && AllWhole(LogLines(disk))
    ensures var log' := RolledBack(disk, log, target);
            var effect := RollingBack(memory, disk, target);
            && Increasing(log')
            && Represents(effect.shown[0], log')
            && effect.memory.image == Fold(log')
            && effect.memory.committed == memory.committed
            && AllWhole(LogLines(effect.shown[0]))
  {
    var stale, k := SplitOf(disk, log);
    var lines, log', kept := LogLines(disk), RolledBack(disk, log, target), KeptUpTo(LogLines(disk), target);
    var disk' := RollingBack(memory, disk, target).shown[0];
    assert lines == lines[..stale] + lines[stale..];
    KeepingSplits(lines[..stale], lines[stale..], target);
    KeepingOld(lines[..stale], Loaded(disk).lsn, target);
    KeepingLines(log[k..], target);
    UpToSplits(log, k, target);
    UpToIncreasing(log, Max(target, Loaded(disk).lsn));
    var stale' := |KeptUpTo(lines[..stale], target)|;
    assert log'[..k] == log[..k] && log'[k..] == UpTo(log[k..], target);
    assert kept[..stale'] == KeptUpTo(lines[..stale], target);
    assert kept[stale'..] == Lines(log'[k..]);
    KeepingWhole(lines, target);
    SplitRepresents(disk', log', stale', k);
    RecoveryIsTheFold(disk', log');
    RollbackReadsWhatItKeeps(Loaded(disk), lines, target);
  }

  /** A rollback leaves exactly the operations at or below its target, if and only if no snapshot is above it. */
  lemma {:induction false} RollbackIsExact(memory: Memory, disk: Disk, log: seq<Entry>, target: int)
    requires Increasing(log) && Represents(disk, log) && AllWhole(LogLines(disk))
    ensures RollingBack(memory, disk, target).memory.image == Fold(UpTo(log, target))
            <==> Loaded(disk).lsn <= Max(target, 0)
  {
    RollbackRepresents(memory, disk, log, target);
    var s, kept, left := Loaded(disk).lsn, UpTo(log, target), RolledBack(disk, log, target);
    if s <= Max(target, 0) {
      UpToAgrees(log, Max(target, s), target);
    } else {
      var stale, k := SplitOf(disk, log);
      UpToSplits(log, k, target);
      FoldLsn(left, k);
      assert left[..k] == log[..k];
      InUpTo(log, target);
      FoldBelow(kept, Max(target, 0));
    }
  }

  lemma {:induction false} FoldBelow(log: seq<Entry>, target: int)
    requires 0 <= target && forall e :: e in log ==> e.lsn <= target
    ensures Fold(log).lsn <= target
  {
    if log != [] { assert log[|log| - 1] in log; }
  }

  /** A snapshot at 1, rolled back to 0: the operation stays. */
  lemma {:induction false} RollbackBelowASnapshotKeepsIt()
    ensures var log := [Entry(1, Put("k", "v"))];
            var disk := Disk(Some(Fold(log)), Some([]));
            && Increasing(log) && Represents(disk, log) && UpTo(log, 0) == []
            && forall memory ::
                 RollingBack(memory, disk, 0).memory.image.data == map["k" := "v"] != Fold(UpTo(log, 0)).data
  {
    var log := [Entry(1, Put("k", "v"))];
    assert log[..1] == log && log[1..] == [] && log[..0] == [];
    assert Fold(log).data == map["k" := "v"];
    assert "k" in Fold(log).data;
    assert RepresentsAt(Disk(Some(Fold(log)), Some([])), log, 0, 1);
  }

  // ---------------------------------------------------------------- runs

  datatype Node = Node(disk: Disk, process: Option<Memory>, log: seq<Entry>)

  datatype Event = Open | Apply(entry: Entry) | Commit(lsn: int) | Checkpoint | Rollback(target: int)

  /** A call completes, or the process dies after some of its file operations. */
  datatype Fate = Completes | DiesAfter(operations: nat)

  predicate Enabled(a: Node, event: Event)
  {
    match event
    case Open => a.process.None?
    case Apply(entry) => a.process.Some? && entry.lsn > a.process.value.image.lsn
    case _ => a.process.Some?
  }

  function EffectOf(a: Node, event: Event): Effect
    requires Enabled(a, event)
  {
    match event
    case Open => Opening(a.disk)
    case Apply(entry) => Applying(a.process.value, a.disk, entry)
    case Commit(lsn) => Effect(a.process.value.(committed := Max(a.process.value.committed, lsn)), [])
    case Checkpoint => Checkpointing(a.process.value, a.disk)
    case Rollback(target) => RollingBack(a.process.value, a.disk, target)
  }

  /** The surviving operations after `done` file operations of a call. */
  function LogAfter(a: Node, event: Event, done: nat): seq<Entry>
  {
    match event
    case Apply(entry) => if done == 2 then a.log + [entry] else a.log
    case Rollback(target) => if done == 1 then RolledBack(a.disk, a.log, target) else a.log
    case _ => a.log
  }

  predicate Step(a: Node, event: Event, fate: Fate, b: Node)
  {
    && Enabled(a, event)
    && var effect := EffectOf(a, event);
       var done := if fate.Completes? then |effect.shown| else fate.operations;
    && done <= |effect.shown|
    && b.disk == DiskAfter(a.disk, effect.shown, done)
    && b.process == (if fate.Completes? then Some(effect.memory) else None)
    && b.log == LogAfter(a, event, done)
  }

  predicate Run(nodes: seq<Node>, events: seq<Event>, fates: seq<Fate>)
  {
    && |nodes| == |events| + 1 == |fates| + 1
    && nodes[0] == Node(EMPTY_DISK, None, [])
    && forall i :: 0 <= i < |events| ==> Step(nodes[i], events[i], fates[i], nodes[i + 1])
  }

  ghost predicate Invariant(n: Node)
  {
    && Increasing(n.log)
    && Represents(n.disk, n.log)
    && (n.process.Some? ==>
          && n.disk.wal.Some?
          && AllWhole(LogLines(n.disk))
          && n.process.value.image == Fold(n.log)
          && Loaded(n.disk).lsn <= n.process.value.committed)
  }

  lemma {:induction false} ReadingTwice(lines: seq<Line>)
    ensures Readable(Readable(lines)) == Readable(lines) && AllWhole(Readable(lines))
  {
    if lines != [] && lines[0].Whole? {
      ReadingTwice(lines[1..]);
      assert Readable(lines)[1..] == Readable(lines[1..]);
    }
  }

  lemma {:induction false} TruncatingRepresents(disk: Disk, lines: seq<Line>, log: seq<Entry>)
    requires Represents(disk, log)
    requires lines == LogLines(disk) || lines == Readable(LogLines(disk))
    ensures Represents(disk.(wal := Some(lines)), log)
  {
    var stale: nat, k: nat :| RepresentsAt(disk, log, stale, k);
    ReadingTwice(LogLines(disk));
    assert RepresentsAt(disk.(wal := Some(lines)), log, stale, k);
  }

  lemma {:induction false} OpenOutcomes(a: Node, fate: Fate, b: Node)
    requires Step(a, Open, fate, b)
    ensures b.log == a.log
    ensures || b.disk == a.disk
            || b.disk == a.disk.(wal := Some(LogLines(a.disk)))
            || b.disk == a.disk.(wal := Some(Readable(LogLines(a.disk))))
    ensures b.process.Some? ==>
              && b.process.value == Opening(a.disk).memory
              && b.disk == a.disk.(wal := Some(Readable(LogLines(a.disk))))
  {
  }

  lemma {:induction false} OpenedIsInvariant(disk: Disk, log: seq<Entry>)
    requires Invariant(Node(disk, None, log))
    ensures Invariant(Node(disk.(wal := Some(Readable(LogLines(disk)))), Some(Opening(disk).memory), log))
  {
    TruncatingRepresents(disk, Readable(LogLines(disk)), log);
    ReadingTwice(LogLines(disk));
    RecoveryIsTheFold(disk, log);
  }

  lemma {:induction false} OpenKeepsInvariant(a: Node, fate: Fate, b: Node)
    requires Invariant(a) && Step(a, Open, fate, b)
    ensures Invariant(b)
  {
    OpenOutcomes(a, fate, b);
    OpenedIsInvariant(a.disk, a.log);
    TruncatingRepresents(a.disk, LogLines(a.disk), a.log);
    if b.process.Some? {
      assert b == Node(a.disk.(wal := Some(Readable(LogLines(a.disk)))), Some(Opening(a.disk).memory), a.log);
    } else {
      TruncatingRepresents(a.disk, Readable(LogLines(a.disk)), a.log);
    }
  }

  lemma {:induction false} AppendingSplits(image: Image, lines: seq<Line>, log: seq<Entry>, stale: nat, k: nat,
                                           entry: Entry)
    requires Splits(image, lines, log, stale, k)
    ensures Splits(image, lines + [Whole(entry)], log + [entry], stale, k)
  {
    assert (log + [entry])[..k] == log[..k] && (log + [entry])[k..] == log[k..] + [entry];
    assert (lines + [Whole(entry)])[..stale] == lines[..stale];
    assert (lines + [Whole(entry)])[stale..] == Lines((log + [entry])[k..]);
  }

  /** A snapshot of everything covers every line the log still holds. */
  lemma {:induction false} SnapshotSplits(image: Image, lines: seq<Line>, log: seq<Entry>, stale: nat, k: nat)
    requires Increasing(log) && Splits(image, lines, log, stale, k)
    ensures Splits(Fold(log), lines, log, |lines|, |log|)
  {
    FoldLsn(log, k);
    FoldLsn(log, |log|);
    assert log[..|log|] == log && lines[..|lines|] == lines;
    forall i | 0 <= i < |lines| ensures lines[i].Whole? && lines[i].entry.lsn <= Fold(log).lsn {
      if i < stale {
        assert lines[i] == lines[..stale][i];
      } else {
        assert lines[i] == lines[stale..][i - stale];
      }
    }
  }

  lemma {:induction false} AppendingFolds(log: seq<Entry>, entry: Entry)
    requires Increasing(log) && Fold(log).lsn < entry.lsn
    ensures Increasing(log + [entry]) && Fold(log + [entry]) == Advanced(Fold(log), entry)
  {
    FoldLsn(log, |log|);
    assert log[..|log|] == log == (log + [entry])[..|log|];
  }

  lemma {:induction false} WholeAppends(lines: seq<Line>, entry: Entry)
    requires AllWhole(lines)
    ensures AllWhole(lines + [Whole(entry)])
  {
  }

  lemma {:induction false} AppendedRepresents(disk: Disk, lines: seq<Line>, log: seq<Entry>, entry: Entry)
    requires Represents(disk, log) && AllWhole(lines) && disk.wal == Some(lines)
    ensures Represents(disk.(wal := Some(lines + [Whole(entry)])), log + [entry])
  {
    var stale, k := SplitOf(disk, log);
    AppendingSplits(Loaded(disk), lines, log, stale, k, entry);
    SplitRepresents(disk.(wal := Some(lines + [Whole(entry)])), log + [entry], stale, k);
  }

  lemma {:induction false} TornRepresents(disk: Disk, lines: seq<Line>, log: seq<Entry>)
    requires Represents(disk, log) && AllWhole(lines) && disk.wal == Some(lines)
    ensures Represents(disk.(wal := Some(lines + [Torn])), log)
  {
    var stale, k := SplitOf(disk, log);
    ReadableIs(lines + [Torn], |lines|);
    assert (lines + [Torn])[..|lines|] == lines;
    assert RepresentsAt(disk.(wal := Some(lines + [Torn])), log, stale, k);
  }

  lemma {:induction false} AppliedIsInvariant(disk: Disk, memory: Memory, log: seq<Entry>, entry: Entry)
    requires Invariant(Node(disk, Some(memory), log)) && memory.image.lsn < entry.lsn
    ensures Invariant(Node(Applying(memory, disk, entry).shown[1],
                           Some(Applying(memory, disk, entry).memory), log + [entry]))
  {
    AppendingFolds(log, entry);
    AppendedRepresents(disk, LogLines(disk), log, entry);
    WholeAppends(LogLines(disk), entry);
    var b := Node(disk.(wal := Some(LogLines(disk) + [Whole(entry)])), Some(Applying(memory, disk, entry).memory),
                  log + [entry]);
    assert Increasing(b.log) && Represents(b.disk, b.log) && AllWhole(LogLines(b.disk));
  }

  lemma {:induction false} TornIsInvariant(disk: Disk, memory: Memory, log: seq<Entry>, entry: Entry)
    requires Invariant(Node(disk, Some(memory), log))
    ensures Invariant(Node(Applying(memory, disk, entry).shown[0], None, log))
  {
    TornRepresents(disk, LogLines(disk), log);
  }

  /** A process that dies leaves what its directory stands for. */
  lemma {:induction false} DyingKeepsInvariant(disk: Disk, process: Option<Memory>, log: seq<Entry>)
    requires Invariant(Node(disk, process, log))
    ensures Invariant(Node(disk, None, log))
  {
  }

  lemma {:induction false} ApplyOutcomes(a: Node, entry: Entry, fate: Fate, b: Node)
    requires Step(a, Apply(entry), fate, b)
    ensures var effect := Applying(a.process.value, a.disk, entry);
            || b == Node(effect.shown[1], Some(effect.memory), a.log + [entry])
            || b == Node(effect.shown[1], None, a.log + [entry])
            || b == Node(effect.shown[0], None, a.log)
            || b == Node(a.disk, None, a.log)
  {
    if fate.DiesAfter? && fate.operations == 1 {
      assert b == Node(Applying(a.process.value, a.disk, entry).shown[0], None, a.log);
    }
  }

  lemma {:induction false} ApplyKeepsInvariant(a: Node, entry: Entry, fate: Fate, b: Node)
    requires Invariant(a) && Step(a, Apply(entry), fate, b)
    ensures Invariant(b)
  {
    var effect := Applying(a.process.value, a.disk, entry);
    ApplyOutcomes(a, entry, fate, b);
    if b.log == a.log {
      TornIsInvariant(a.disk, a.process.value, a.log, entry);
      DyingKeepsInvariant(a.disk, a.process, a.log);
    } else {
      AppliedIsInvariant(a.disk, a.process.value, a.log, entry);
      DyingKeepsInvariant(effect.shown[1], Some(effect.memory), a.log + [entry]);
    }
  }

  /** The new snapshot alone, and the new snapshot with the log emptied, both stand for the whole log. */
  lemma {:induction false} SnapshotRepresents(disk: Disk, lines: seq<Line>, log: seq<Entry>)
    requires Increasing(log) && Represents(disk, log) && AllWhole(lines) && disk.wal == Some(lines)
    ensures Represents(Disk(Some(Fold(log)), disk.wal), log)
    ensures Represents(Disk(Some(Fold(log)), Some([])), log)
  {
    var stale, k := SplitOf(disk, log);
    SnapshotSplits(Loaded(disk), lines, log, stale, k);
    SplitRepresents(Disk(Some(Fold(log)), disk.wal), log, |lines|, |log|);
    assert log[..|log|] == log && log[|log|..] == [];
    SplitRepresents(Disk(Some(Fold(log)), Some([])), log, 0, |log|);
  }

  lemma {:induction false} CheckpointedIsInvariant(disk: Disk, memory: Memory, log: seq<Entry>)
    requires Invariant(Node(disk, Some(memory), log)) && memory.image.lsn <= memory.committed
    ensures Invariant(Node(Disk(Some(memory.image), disk.wal), None, log))
    ensures Invariant(Node(Disk(Some(memory.image), Some([])), Some(memory), log))
  {
    SnapshotRepresents(disk, LogLines(disk), log);
  }

  lemma {:induction false} CheckpointKeepsInvariant(a: Node, fate: Fate, b: Node)
    requires Invariant(a) && Step(a, Checkpoint, fate, b)
    ensures Invariant(b)
  {
    var memory := a.process.value;
    DyingKeepsInvariant(a.disk, a.process, a.log);
    if memory.committed < memory.image.lsn {
      assert b == a || b == Node(a.disk, None, a.log);
    } else {
      CheckpointedIsInvariant(a.disk, memory, a.log);
      var emptied := Disk(Some(memory.image), Some([]));
      DyingKeepsInvariant(emptied, Some(memory), a.log);
      assert b == Node(emptied, Some(memory), a.log)
          || b == Node(emptied, None, a.log)
          || b == Node(Disk(Some(memory.image), a.disk.wal), None, a.log)
          || b == Node(a.disk, None, a.log);
    }
  }

  lemma {:induction false} StepKeepsInvariant(a: Node, event: Event, fate: Fate, b: Node)
    requires Invariant(a) && Step(a, event, fate, b)
    ensures Invariant(b)
  {
    match event
    case Open => OpenKeepsInvariant(a, fate, b);
    case Apply(entry) => ApplyKeepsInvariant(a, entry, fate, b);
    case Commit(_) =>
    case Checkpoint => CheckpointKeepsInvariant(a, fate, b);
    case Rollback(target) => RollbackRepresents(a.process.value, a.disk, a.log, target);
  }

  lemma {:induction false} RunsKeepInvariant(nodes: seq<Node>, events: seq<Event>, fates: seq<Fate>, i: nat)
    requires Run(nodes, events, fates) && i < |nodes|
    ensures Invariant(nodes[i])
  {
    if i == 0 {
      assert RepresentsAt(EMPTY_DISK, [], 0, 0);
    } else {
      RunsKeepInvariant(nodes, events, fates, i - 1);
      StepKeepsInvariant(nodes[i - 1], events[i - 1], fates[i - 1], nodes[i]);
    }
  }

  /**
   * After any run of opens, writes, commits, checkpoints, rollbacks and crashes at any file operation, the
   * directory recovers the fold of the surviving operations, so that the opened table answers every lookup from
   * the last of them that names the key; a live process stands at that fold, and no snapshot is ahead of the
   * committed sequence number.
   */
  lemma {:induction false} EveryRunRecovers(nodes: seq<Node>, events: seq<Event>, fates: seq<Fate>, i: nat)
    requires Run(nodes, events, fates) && i < |nodes|
    ensures Opening(nodes[i].disk).memory.image == Fold(nodes[i].log)
    ensures AnswersFrom(Opening(nodes[i].disk).memory.image.data, nodes[i].log)
    ensures nodes[i].process.Some? ==>
              nodes[i].process.value.image == Fold(nodes[i].log)
              && AnswersFrom(nodes[i].process.value.image.data, nodes[i].log)
              && Loaded(nodes[i].disk).lsn <= nodes[i].process.value.committed
  {
    RunsKeepInvariant(nodes, events, fates, i);
    RecoveryIsTheFold(nodes[i].disk, nodes[i].log);
    FoldAnswersLookups(nodes[i].log);
  }

  /** A write that returned is recovered at every later point, unless a rollback below it was asked for. */
  lemma {:induction false} ReturnedWritesSurvive(nodes: seq<Node>, events: seq<Event>, fates: seq<Fate>,
                                                 i: nat, j: nat)
    requires Run(nodes, events, fates) && i < j < |nodes|
    requires events[i].Apply? && fates[i].Completes?
    requires forall m :: i < m < j && events[m].Rollback? ==> events[i].entry.lsn <= events[m].target
    ensures events[i].entry in nodes[j].log && Opening(nodes[j].disk).memory.image == Fold(nodes[j].log)
  {
    EveryRunRecovers(nodes, events, fates, j);
    StepOfRun(nodes, events, fates, j - 1);
    if j == i + 1 {
      WriteIsLogged(nodes[i], events[i], nodes[j]);
    } else {
      ReturnedWritesSurvive(nodes, events, fates, i, j - 1);
      StepKeepsEntry(nodes[j - 1], events[j - 1], fates[j - 1], nodes[j], events[i].entry);
    }
  }

  lemma {:induction false} StepOfRun(nodes: seq<Node>, events: seq<Event>, fates: seq<Fate>, i: nat)
    requires Run(nodes, events, fates) && i < |events|
    ensures Step(nodes[i], events[i], fates[i], nodes[i + 1])
  {
  }

  lemma {:induction false} WriteIsLogged(a: Node, event: Event, b: Node)
    requires event.Apply? && Step(a, event, Completes, b)
    ensures event.entry in b.log
  {
  }

  lemma {:induction false} StepKeepsEntry(a: Node, event: Event, fate: Fate, b: Node, entry: Entry)
    requires Step(a, event, fate, b) && entry in a.log
    requires event.Rollback? ==> entry.lsn <= event.target
    ensures entry in b.log
  {
    if event.Rollback? { InUpTo(a.log, Max(event.target, Loaded(a.disk).lsn)); }
  }
}
