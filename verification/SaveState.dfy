/**
 The atomic checkpoint write: a private temp file, a short-write loop, fsync, an identity-checked rename and
 a directory fsync, over a disk that can lose power after any step.
 */
module SaveState {
  import opened Text

  newtype byte = x: int | 0 <= x < 256

  type Ino = nat

  /**
   A directory of names on a disk with a write-back cache: `stable` is the directory as last made durable,
   `synced` the inodes whose data has been made durable.
   */
  datatype Disk = Disk(names: map<string, Ino>, stable: map<string, Ino>, data: map<Ino, seq<byte>>, synced: set<Ino>, next: Ino)

  ghost predicate WellFormed(d: Disk) {
    && (forall n :: n in d.names ==> d.names[n] in d.data)
    && (forall n :: n in d.stable ==> d.stable[n] in d.data)
    && (forall i :: i in d.data ==> i < d.next)
  }

  function Content(d: Disk, path: string): Option<seq<byte>> {
    if path in d.names && d.names[path] in d.data then Some(d.data[d.names[path]]) else None
  }

  /** What a later run may find at the path: through either directory, and anything for data never synced. */
  ghost predicate FoundAfterCrash(d: Disk, path: string, found: Option<seq<byte>>) {
    FoundThrough(d, d.names, path, found) || FoundThrough(d, d.stable, path, found)
  }

  ghost predicate FoundThrough(d: Disk, names: map<string, Ino>, path: string, found: Option<seq<byte>>) {
    if path in names && names[path] in d.data then
      found.Some? && (names[path] in d.synced ==> found.value == d.data[names[path]])
    else found.None?
  }

  /** A power loss leaves at the path what a power loss at the start could leave, or exactly the content. */
  ghost predicate OldOrNew(start: Disk, d: Disk, path: string, content: seq<byte>) {
    forall found :: FoundAfterCrash(d, path, found) ==> FoundAfterCrash(start, path, found) || found == Some(content)
  }

  /** A power loss leaves nothing that a power loss at the start could not leave. */
  ghost predicate StillOld(start: Disk, d: Disk, path: string) {
    forall found :: FoundAfterCrash(d, path, found) ==> FoundAfterCrash(start, path, found)
  }

  /** The file at the path is durable: its name, and its data. */
  ghost predicate Durable(d: Disk, path: string) {
    if path in d.names then path in d.stable && d.stable[path] == d.names[path] && d.names[path] in d.synced
    else path !in d.stable
  }

  /** Over a durable file the old outcome is its exact content. */
  lemma DurableFound(d: Disk, path: string, found: Option<seq<byte>>)
    requires WellFormed(d) && Durable(d, path)
    ensures FoundAfterCrash(d, path, found) <==> found == Content(d, path)
  {
  }

  /** Others may use every name but the checkpoint's, and never write to existing files. */
  ghost predicate Tampered(path: string, d: Disk, e: Disk) {
    && WellFormed(e) && d.next <= e.next && d.synced <= e.synced
    && (path in d.names <==> path in e.names) && (path in d.names ==> e.names[path] == d.names[path])
    && (path in d.stable <==> path in e.stable) && (path in d.stable ==> e.stable[path] == d.stable[path])
    && (forall i :: i in d.data ==> i in e.data && e.data[i] == d.data[i])
  }

  datatype Failure =
    | TempExists | OpenFailed | StatFailed | SecureFailed | NoProgress | FsyncFailed | CloseFailed
    | TempPathChanged | RenameFailed | DirectoryFsyncFailed

  datatype SaveResult = Saved | Failed(failure: Failure)

  /** Which calls fail, what each write reports, and what others do before the temp path is looked at again. */
  datatype Env = Env(
    openFails: bool, statFails: bool, secureFails: bool, writes: nat -> int, fsyncFails: bool, closeFails: bool,
    renameFails: bool, dirFsyncFails: bool, others: Disk -> Disk)

  /** The disk when the temp is written, synced and closed. */
  function PreparedDisk(start: Disk, temp: string, content: seq<byte>): Disk {
    var ino := start.next;
    start.(names := start.names[temp := ino], data := start.data[ino := content], next := ino + 1, synced := start.synced + {ino})
  }

  /** The first thing that goes wrong before the rename, in the order of the calls, if anything does. */
  function Obstacle(start: Disk, temp: string, content: seq<byte>, env: Env): Option<Failure> {
    if temp in start.names then Some(TempExists)
    else if env.openFails then Some(OpenFailed)
    else if env.statFails then Some(StatFailed)
    else if env.secureFails then Some(SecureFailed)
    else if !Completes(|content|, env.writes, 0, 0) then Some(NoProgress)
    else if env.fsyncFails then Some(FsyncFailed)
    else if env.closeFails then Some(CloseFailed)
    else if !Names(env.others(PreparedDisk(start, temp, content)), temp, start.next) then Some(TempPathChanged)
    else None
  }

  /** No obstacle means that no call fails, the writes add up, and the temp name still leads to the written file. */
  lemma ObstacleMeaning(start: Disk, temp: string, content: seq<byte>, env: Env)
    ensures Obstacle(start, temp, content, env).None? <==>
              && temp !in start.names && !env.openFails && !env.statFails && !env.secureFails
              && Completes(|content|, env.writes, 0, 0) && !env.fsyncFails && !env.closeFails
              && Names(env.others(PreparedDisk(start, temp, content)), temp, start.next)
    ensures match Obstacle(start, temp, content, env)
            case None => true
            case Some(f) =>
              match f
              case TempExists => temp in start.names
              case OpenFailed => env.openFails
              case StatFailed => env.statFails
              case SecureFailed => env.secureFails
              case NoProgress => !Completes(|content|, env.writes, 0, 0)
              case FsyncFailed => env.fsyncFails
              case CloseFailed => env.closeFails
              case TempPathChanged => !Names(env.others(PreparedDisk(start, temp, content)), temp, start.next)
              case _ => false
  {
  }

  ghost predicate Cooperating(env: Env, path: string) {
    forall d :: WellFormed(d) ==> Tampered(path, d, env.others(d))
  }

  class Saver {
    const path: string
    const temp: string
    var disk: Disk
    /** Every disk state since the start. */
    ghost var history: seq<Disk>
    /** Inodes whose name this save has unlinked. */
    ghost var unlinked: set<Ino>

    constructor (path: string, temp: string, start: Disk)
      requires path != temp
      ensures this.path == path && this.temp == temp && disk == start && history == [start] && unlinked == {}
    {
      this.path, this.temp := path, temp;
      disk, history, unlinked := start, [start], {};
    }

    /** Since `before` nothing has touched the path's file, whatever else changed. */
    ghost predicate Quiet(start: Disk, before: seq<Disk>)
      reads this
    {
      Untouched(start, disk, path) && AllUntouched(before, history, start, path)
    }

    method Effect(next: Disk)
      modifies this`disk, this`history
      ensures disk == next && history == old(history) + [next]
    {
      disk := next;
      history := history + [next];
    }

    /** An effect that leaves the path's file alone. */
    method QuietEffect(next: Disk, ghost start: Disk, ghost before: seq<Disk>)
      requires Quiet(start, before) && Untouched(start, next, path)
      modifies this`disk, this`history
      ensures Quiet(start, before) && disk == next
    {
      hide Untouched;
      Effect(next);
    }

    /**
     Writes every byte, resuming after short writes. Each round makes progress or stops the loop, so it ends
     for every sequence of reported counts, and it succeeds exactly when the counts add up to the content.
     */
    method WriteAll(ino: Ino, content: seq<byte>, writes: nat -> int, ghost start: Disk, ghost before: seq<Disk>) returns (ok: bool)
      requires Quiet(start, before) && ino in disk.data && disk.data[ino] == [] && ino !in start.data
      modifies this`disk, this`history
      ensures ok <==> Completes(|content|, writes, 0, 0)
      ensures disk == old(disk).(data := disk.data)
      ensures ok ==> disk.data == old(disk).data[ino := content]
      ensures Quiet(start, before)
    {
      hide Untouched;
      var offset := 0;
      var round := 0;
      while offset < |content|
        invariant 0 <= offset <= |content|
        invariant disk == old(disk).(data := old(disk).data[ino := content[..offset]])
        invariant Completes(|content|, writes, 0, 0) <==> Completes(|content|, writes, round, offset)
        invariant Quiet(start, before)
        decreases |content| - offset
      {
        var written := writes(round);
        if written <= 0 || written > |content| - offset { return false; }
        DataUntouched(start, disk, path, ino, content[..offset + written]);
        QuietEffect(disk.(data := disk.data[ino := content[..offset + written]]), start, before);
        offset, round := offset + written, round + 1;
      }
      assert content[..offset] == content;
      return true;
    }

    /** Removes the temp file only while its name still leads to the inode this save made. */
    method RemoveOwnedTemp(ino: Ino, ghost start: Disk, ghost before: seq<Disk>)
      requires Quiet(start, before) && path != temp
      modifies this`disk, this`history, this`unlinked
      ensures Quiet(start, before)
      ensures disk == if Names(old(disk), temp, ino) then old(disk).(names := old(disk).names - {temp}) else old(disk)
      ensures unlinked == if Names(old(disk), temp, ino) then old(unlinked) + {ino} else old(unlinked)
    {
      if Names(disk, temp, ino) {
        unlinked := unlinked + {disk.names[temp]};
        QuietEffect(disk.(names := disk.names - {temp}), start, before);
      }
    }

    /** Other processes act. */
    method Interfere(env: Env, ghost start: Disk, ghost before: seq<Disk>)
      requires Quiet(start, before) && Cooperating(env, path)
      modifies this`disk, this`history
      ensures Quiet(start, before) && Tampered(path, old(disk), disk) && disk == env.others(old(disk))
    {
      TamperedUntouched(start, disk, env.others(disk), path);
      QuietEffect(env.others(disk), start, before);
    }

    /** Gives up: whatever others did meanwhile, only the own temp file is removed. */
    method Abandon(env: Env, ino: Ino, failure: Failure, ghost start: Disk, ghost before: seq<Disk>) returns (r: SaveResult)
      requires Quiet(start, before) && Cooperating(env, path) && path != temp
      modifies this`disk, this`history, this`unlinked
      ensures r == Failed(failure) && Quiet(start, before) && unlinked <= old(unlinked) + {ino}
      ensures !Names(disk, temp, ino)
    {
      hide Untouched, Tampered;
      Interfere(env, start, before);
      RemoveOwnedTemp(ino, start, before);
      return Failed(failure);
    }

    /**
     Everything before the rename: on success the temp name leads to the whole content, made durable. A temp
     whose identity could not be read is left where it is.
     */
    method Prepare(content: seq<byte>, env: Env, ghost start: Disk, ghost before: seq<Disk>) returns (r: Option<SaveResult>, ino: Ino)
      requires path != temp && disk == start && Cooperating(env, path) && Quiet(start, before)
      requires WellFormed(start)
      modifies this
      ensures Quiet(start, before) && ino == start.next && unlinked <= old(unlinked) + {ino}
      ensures r == match Obstacle(start, temp, content, env) case Some(f) => Some(Failed(f)) case None => None
      ensures r.Some? && r.value.failure != TempExists && r.value.failure != StatFailed ==> temp !in start.names && !Names(disk, temp, ino)
      ensures r.None? ==> Names(disk, temp, ino) && ino in disk.data && disk.data[ino] == content && ino in disk.synced
      ensures temp in start.names ==> r == Some(Failed(TempExists)) && disk == start
      ensures r == Some(Failed(StatFailed)) ==> unlinked == old(unlinked) && Names(disk, temp, ino) && disk.data[ino] == []
    {
      hide Untouched, Tampered, Cooperating;
      ino := disk.next;
      if temp in disk.names { return Some(Failed(TempExists)), ino; }
      if env.openFails { return Some(Failed(OpenFailed)), ino; }
      CreatedUntouched(start, path, temp);
      QuietEffect(disk.(names := disk.names[temp := ino], data := disk.data[ino := []], next := ino + 1), start, before);
      if env.statFails { return Some(Failed(StatFailed)), ino; }
      if env.secureFails {
        var f := Abandon(env, ino, SecureFailed, start, before);
        return Some(f), ino;
      }
      var written := WriteAll(ino, content, env.writes, start, before);
      if !written {
        var f := Abandon(env, ino, NoProgress, start, before);
        return Some(f), ino;
      }
      if env.fsyncFails {
        var f := Abandon(env, ino, FsyncFailed, start, before);
        return Some(f), ino;
      }
      SyncedUntouched(start, disk, path, ino);
      QuietEffect(disk.(synced := disk.synced + {ino}), start, before);
      if env.closeFails {
        var f := Abandon(env, ino, CloseFailed, start, before);
        return Some(f), ino;
      }
      ghost var prepared := disk;
      assert prepared == PreparedDisk(start, temp, content);
      Interfere(env, start, before);
      if !Names(disk, temp, ino) {
        var f := Abandon(env, ino, TempPathChanged, start, before);
        return Some(f), ino;
      }
      TamperedData(path, prepared, disk, ino);
      return None, ino;
    }

    /** The save: at every moment a power loss leaves the old outcome or exactly the new content at the path. */
    method Save(content: seq<byte>, env: Env) returns (r: SaveResult)
      requires path != temp && WellFormed(disk) && Cooperating(env, path)
      modifies this
      ensures AllOldOrNew(old(history), history, old(disk), path, content)
      ensures r.Saved? ==> Durable(disk, path) && Content(disk, path) == Some(content)
      ensures r.Failed? && r.failure != DirectoryFsyncFailed ==> StillOld(old(disk), disk, path)
      ensures r.Failed? && r.failure == DirectoryFsyncFailed ==> Content(disk, path) == Some(content)
      ensures temp in old(disk).names ==> r == Failed(TempExists) && disk == old(disk)
      ensures forall i :: i in unlinked ==> i in old(unlinked) || i == old(disk).next
      ensures r == Failed(StatFailed) ==> unlinked == old(unlinked) && Names(disk, temp, old(disk).next)
      ensures r != Failed(StatFailed) && r != Failed(TempExists) ==> !Names(disk, temp, old(disk).next)
      ensures r == match Obstacle(old(disk), temp, content, env)
                   case Some(f) => Failed(f)
                   case None => if env.renameFails then Failed(RenameFailed) else if env.dirFsyncFails then Failed(DirectoryFsyncFailed) else Saved
    {
      hide Untouched, Tampered, OldOrNew, StillOld, Durable, Cooperating, WellFormed;
      ghost var start, before := disk, history;
      UntouchedSelf(start, path);
      var stopped, ino := Prepare(content, env, start, before);
      StillHolds(before, history, start, disk, path, content);
      if stopped.Some? { return stopped.value; }
      if env.renameFails {
        r := Abandon(env, ino, RenameFailed, start, before);
        StillHolds(before, history, start, disk, path, content);
        return;
      }
      RenamedHolds(start, disk, path, temp, ino, content);
      Effect(disk.(names := (disk.names - {temp})[path := ino]));
      if env.dirFsyncFails { return Failed(DirectoryFsyncFailed); }
      Effect(disk.(stable := disk.names));
      return Saved;
    }
  }

  /** The path leads where it led at the start, to the same durable data. */
  ghost predicate Untouched(start: Disk, d: Disk, path: string) {
    && WellFormed(d) && start.next <= d.next && start.synced <= d.synced
    && (path in d.names <==> path in start.names) && (path in start.names ==> d.names[path] == start.names[path])
    && (path in d.stable <==> path in start.stable) && (path in start.stable ==> d.stable[path] == start.stable[path])
    && (forall i :: i in start.data ==> i in d.data && d.data[i] == start.data[i])
  }

  lemma UntouchedSelf(start: Disk, path: string)
    requires WellFormed(start)
    ensures Untouched(start, start, path)
  {
  }

  lemma TamperedUntouched(start: Disk, d: Disk, e: Disk, path: string)
    requires Untouched(start, d, path) && Tampered(path, d, e)
    ensures Untouched(start, e, path)
  {
  }

  lemma UntouchedHolds(start: Disk, d: Disk, path: string)
    requires WellFormed(start) && Untouched(start, d, path)
    ensures StillOld(start, d, path)
  {
  }

  ghost predicate AllUntouched(before: seq<Disk>, after: seq<Disk>, start: Disk, path: string) {
    before <= after && forall i :: |before| <= i < |after| ==> Untouched(start, after[i], path)
  }

  ghost predicate AllOldOrNew(before: seq<Disk>, after: seq<Disk>, start: Disk, path: string, content: seq<byte>) {
    before <= after && forall i :: |before| <= i < |after| ==> OldOrNew(start, after[i], path, content)
  }

  lemma CreatedUntouched(start: Disk, path: string, temp: string)
    requires Untouched(start, start, path) && path != temp && temp !in start.names
    ensures var ino := start.next;
            Untouched(start, start.(names := start.names[temp := ino], data := start.data[ino := []], next := ino + 1), path)
            && ino !in start.data
  {
  }

  lemma DataUntouched(start: Disk, d: Disk, path: string, ino: Ino, written: seq<byte>)
    requires Untouched(start, d, path) && ino in d.data && ino !in start.data
    ensures Untouched(start, d.(data := d.data[ino := written]), path)
  {
  }

  lemma SyncedUntouched(start: Disk, d: Disk, path: string, ino: Ino)
    requires Untouched(start, d, path)
    ensures Untouched(start, d.(synced := d.synced + {ino}), path)
  {
  }

  lemma TamperedData(path: string, d: Disk, e: Disk, ino: Ino)
    requires Tampered(path, d, e) && ino in d.data && ino in d.synced
    ensures ino in e.data && e.data[ino] == d.data[ino] && ino in e.synced
  {
  }

  lemma StillHolds(before: seq<Disk>, after: seq<Disk>, start: Disk, d: Disk, path: string, content: seq<byte>)
    requires WellFormed(start) && AllUntouched(before, after, start, path) && Untouched(start, d, path)
    ensures AllOldOrNew(before, after, start, path, content) && StillOld(start, d, path)
  {
    UntouchedHolds(start, d, path);
    forall i | |before| <= i < |after|
      ensures OldOrNew(start, after[i], path, content)
    {
      UntouchedHolds(start, after[i], path);
    }
  }

  /** After the rename the cached directory leads to the new data and the stable one still to the old. */
  lemma RenamedHolds(start: Disk, d: Disk, path: string, temp: string, ino: Ino, content: seq<byte>)
    requires WellFormed(start) && Untouched(start, d, path) && path != temp
    requires Names(d, temp, ino) && ino in d.data && d.data[ino] == content && ino in d.synced
    ensures var renamed := d.(names := (d.names - {temp})[path := ino]);
            var settled := renamed.(stable := renamed.names);
            && OldOrNew(start, renamed, path, content) && OldOrNew(start, settled, path, content)
            && Durable(settled, path)
  {
    UntouchedHolds(start, d, path);
    var renamed := d.(names := (d.names - {temp})[path := ino]);
    forall found | FoundAfterCrash(renamed, path, found)
      ensures FoundAfterCrash(start, path, found) || found == Some(content)
    {
      if FoundThrough(renamed, renamed.stable, path, found) {
        assert FoundThrough(d, d.stable, path, found);
      }
    }
  }

  /** The reported counts from a round on finish the content from an offset on. */
  predicate Completes(length: nat, writes: nat -> int, round: nat, offset: nat)
    requires offset <= length
    decreases length - offset
  {
    offset == length ||
    (1 <= writes(round) <= length - offset && Completes(length, writes, round + 1, offset + writes(round)))
  }

  predicate Names(d: Disk, path: string, ino: Ino) {
    path in d.names && d.names[path] == ino
  }
}
