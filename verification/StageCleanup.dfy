/**
 The ownership-bound cleanup of the staging directory as a function from a directory state and a set
 of failing calls to the states it passes through, and what holds in every one of them.
 */
module StageCleanup {
  import opened Text
  import opened KeyDisk

  /** The filesystem calls of a settlement pass; a failing call has no effect. */
  datatype Call =
    | ReadKeyPath | InspectStage | ReadStagedKey | RecheckStage | LinkKey | VerifyInstalled
    | LstatKeyPath | LstatStage | LstatCleanup | RenameStage | LstatMoved | SecureCleanup | ListCleanup
    | RemoveEmpty | LstatStagedKey | LstatKeyPathAgain | UnlinkStagedKey | RemoveCleanup | RestoreStage
    | MakeStage | VerifyStage

  /** The states behind each effect, in order, and whether the run succeeded. */
  datatype Run = Run(states: seq<Fs>, ok: bool)

  /** The state a run leaves behind. */
  function End(fs: Fs, states: seq<Fs>): Fs {
    if states == [] then fs else states[|states| - 1]
  }

  /** What restoring the quarantine adds; a failed restore leaves the cleanup directory in place. */
  function Restored(fs: Fs, faults: set<Call>): seq<Fs> {
    if RestoreStage in faults then []
    else match RenameDir(fs, CleanupDir, StageDir)
      case None => []
      case Some(restored) => [restored]
  }

  /** The single staged key in the quarantine is a regular file with the inode of the key path. */
  predicate OwnedKey(fs: Fs) {
    match (LstatIn(fs, CleanupDir, KEY_FILE), Lstat(fs, KeyPath))
    case (Some((staged, File(_))), Some((final, File(_)))) => staged == final
    case _ => false
  }

  /** The part of the cleanup that works on the quarantined directory. */
  function FinishCleanup(fs: Fs, faults: set<Call>): Run {
    match Lstat(fs, CleanupDir)
    case Some((_, Dir(entries))) =>
      if SecureCleanup in faults || ListCleanup in faults then Run([], false)
      else if entries == map[] then
        if RemoveEmpty in faults || Rmdir(fs, CleanupDir).None? then Run([], false)
        else Run([Rmdir(fs, CleanupDir).value], true)
      else if entries.Keys != {KEY_FILE} then Run(Restored(fs, faults), false)
      else if LstatStagedKey in faults || LstatKeyPathAgain in faults || !OwnedKey(fs) then Run(Restored(fs, faults), false)
      else if UnlinkStagedKey in faults || Unlink(fs, CleanupDir, KEY_FILE).None? then Run(Restored(fs, faults), false)
      else
        var unlinked := Unlink(fs, CleanupDir, KEY_FILE).value;
        if RemoveCleanup in faults || Rmdir(unlinked, CleanupDir).None? then Run([unlinked], false)
        else Run([unlinked, Rmdir(unlinked, CleanupDir).value], true)
    case _ => Run([], false)
  }

  function CleanupOwnedStage(fs: Fs, faults: set<Call>): Run {
    if LstatKeyPath in faults || LstatStage in faults || LstatCleanup in faults then Run([], false)
    else match Lstat(fs, KeyPath)
      case Some((_, File(_))) =>
        (match (Lstat(fs, StageDir), Lstat(fs, CleanupDir))
         case (Some(_), Some(_)) => Run([], false)
         case (None, None) => Run([], true)
         case (None, Some(_)) => FinishCleanup(fs, faults)
         case (Some((_, node)), None) =>
           if !node.Dir? || RenameStage in faults then Run([], false)
           else match RenameDir(fs, StageDir, CleanupDir)
             case None => Run([], false)
             case Some(moved) =>
               if LstatMoved in faults then Run([moved], false)
               else var rest := FinishCleanup(moved, faults);
                    Run([moved] + rest.states, rest.ok))
      case _ => Run([], false)
  }

  // ---- No file loses its last name ----

  lemma KeepsFilesSame(a: Fs)
    ensures KeepsFiles(a, a)
  {
  }

  lemma KeepsFilesTrans(a: Fs, b: Fs, c: Fs)
    requires KeepsFiles(a, b) && KeepsFiles(b, c)
    ensures KeepsFiles(a, c)
  {
  }

  /** A renamed directory takes its entries along. */
  lemma RenamedEntries(fs: Fs, from: Name, to: Name)
    requires WellFormed(fs) && RenameDir(fs, from, to).Some? && to !in fs.top
    ensures forall n :: n in fs.top ==> Entries(RenameDir(fs, from, to).value, if n == from then to else n) == Entries(fs, n)
  {
  }

  lemma RenameKeeps(fs: Fs, from: Name, to: Name)
    requires WellFormed(fs) && RenameDir(fs, from, to).Some? && to !in fs.top
    requires fs.nodes[fs.top[from]].Dir?
    ensures WellFormed(RenameDir(fs, from, to).value) && KeepsFiles(fs, RenameDir(fs, from, to).value)
  {
    hide KeepsFiles, Linked;
    var r := RenameDir(fs, from, to).value;
    RenamedEntries(fs, from, to);
    NamesKept(fs, r, n => if n == from then to else n);
  }

  lemma UnlinkKeeps(fs: Fs)
    requires WellFormed(fs) && OwnedKey(fs) && Unlink(fs, CleanupDir, KEY_FILE).Some?
    ensures WellFormed(Unlink(fs, CleanupDir, KEY_FILE).value) && KeepsFiles(fs, Unlink(fs, CleanupDir, KEY_FILE).value)
  {
    var r := Unlink(fs, CleanupDir, KEY_FILE).value;
    NamesKept(fs, r, n => n);
  }

  lemma RmdirKeeps(fs: Fs, name: Name)
    requires WellFormed(fs) && Rmdir(fs, name).Some?
    ensures WellFormed(Rmdir(fs, name).value) && KeepsFiles(fs, Rmdir(fs, name).value)
  {
    var r := Rmdir(fs, name).value;
    NamesKept(fs, r, n => n);
  }

  /** Every state keeps every file of `fs` and stays well-formed. */
  ghost predicate AllKeep(fs: Fs, states: seq<Fs>) {
    forall i :: 0 <= i < |states| ==> WellFormed(states[i]) && KeepsFiles(fs, states[i])
  }

  lemma AllKeepAfter(fs: Fs, next: Fs, rest: seq<Fs>)
    requires WellFormed(next) && KeepsFiles(fs, next) && AllKeep(next, rest)
    ensures AllKeep(fs, [next] + rest)
  {
    forall i | 0 <= i < |rest|
      ensures KeepsFiles(fs, rest[i])
    {
      KeepsFilesTrans(fs, next, rest[i]);
    }
  }

  lemma RestoredKeeps(fs: Fs, faults: set<Call>)
    requires WellFormed(fs) && StageDir !in fs.top && Lstat(fs, CleanupDir).Some? && Lstat(fs, CleanupDir).value.1.Dir?
    ensures AllKeep(fs, Restored(fs, faults))
  {
    if RestoreStage !in faults {
      RenameKeeps(fs, CleanupDir, StageDir);
    }
  }

  lemma FinishKeeps(fs: Fs, faults: set<Call>)
    requires WellFormed(fs) && StageDir !in fs.top
    ensures AllKeep(fs, FinishCleanup(fs, faults).states)
  {
    match Lstat(fs, CleanupDir) {
      case Some((_, Dir(entries))) =>
        RestoredKeeps(fs, faults);
        if entries == map[] {
          RmdirKeeps(fs, CleanupDir);
        } else if OwnedKey(fs) && Unlink(fs, CleanupDir, KEY_FILE).Some? {
          var unlinked := Unlink(fs, CleanupDir, KEY_FILE).value;
          UnlinkKeeps(fs);
          KeepsFilesSame(unlinked);
          if Rmdir(unlinked, CleanupDir).Some? {
            RmdirKeeps(unlinked, CleanupDir);
            AllKeepAfter(fs, unlinked, [Rmdir(unlinked, CleanupDir).value]);
          }
        }
      case _ =>
    }
  }

  /** Whatever call fails and wherever the run stops, no file that had a name loses its last one. */
  lemma CleanupKeeps(fs: Fs, faults: set<Call>)
    requires WellFormed(fs)
    ensures AllKeep(fs, CleanupOwnedStage(fs, faults).states)
  {
    if Lstat(fs, StageDir).None? && Lstat(fs, CleanupDir).Some? {
      FinishKeeps(fs, faults);
    } else if Lstat(fs, StageDir).Some? && Lstat(fs, StageDir).value.1.Dir? && Lstat(fs, CleanupDir).None? {
      var moved := RenameDir(fs, StageDir, CleanupDir).value;
      RenameKeeps(fs, StageDir, CleanupDir);
      FinishKeeps(moved, faults);
      AllKeepAfter(fs, moved, FinishCleanup(moved, faults).states);
      AllKeepAfter(fs, moved, []);
    }
  }

  // ---- Crashed and failed runs are finished by a later run ----

  predicate IsFile(node: Option<(Ino, Node)>) {
    node.Some? && node.value.1.File?
  }

  /** The name is absent, an empty directory, or a directory holding only a link to the key path's inode. */
  predicate OwnedDir(fs: Fs, dir: Name) {
    match Lstat(fs, dir)
    case None => true
    case Some((_, Dir(entries))) =>
      entries == map[] || (entries.Keys == {KEY_FILE} && LstatIn(fs, dir, KEY_FILE) == Lstat(fs, KeyPath))
    case Some(_) => false
  }

  /** What the directory needs for the cleanup to succeed. */
  predicate Cleanable(fs: Fs) {
    && IsFile(Lstat(fs, KeyPath))
    && (Lstat(fs, StageDir).None? || Lstat(fs, CleanupDir).None?)
    && OwnedDir(fs, StageDir) && OwnedDir(fs, CleanupDir)
  }

  /** `b` is `a` with the key file where it was and neither of the two private directories left. */
  ghost predicate Settled(a: Fs, b: Fs) {
    && Lstat(b, KeyPath) == Lstat(a, KeyPath)
    && Lstat(b, StageDir).None? && Lstat(b, CleanupDir).None?
    && forall n :: n != StageDir && n != CleanupDir ==> (n in b.top <==> n in a.top) && (n in a.top ==> b.top[n] == a.top[n])
  }

  lemma FinishSucceeds(fs: Fs)
    requires WellFormed(fs) && IsFile(Lstat(fs, KeyPath)) && StageDir !in fs.top && CleanupDir in fs.top
    ensures FinishCleanup(fs, {}).ok <==> OwnedDir(fs, CleanupDir)
    ensures FinishCleanup(fs, {}).ok ==> Settled(fs, End(fs, FinishCleanup(fs, {}).states))
  {
  }

  /** With no failing call the cleanup succeeds exactly on cleanable directories and leaves only the key. */
  lemma CleanupSucceeds(fs: Fs)
    requires WellFormed(fs)
    ensures CleanupOwnedStage(fs, {}).ok <==> Cleanable(fs)
    ensures CleanupOwnedStage(fs, {}).ok ==> Settled(fs, End(fs, CleanupOwnedStage(fs, {}).states))
  {
    if IsFile(Lstat(fs, KeyPath)) {
      if StageDir !in fs.top && CleanupDir in fs.top {
        FinishSucceeds(fs);
      } else if CleanupDir !in fs.top && StageDir in fs.top && Lstat(fs, StageDir).value.1.Dir? {
        var moved := RenameDir(fs, StageDir, CleanupDir).value;
        assert OwnedDir(moved, CleanupDir) <==> OwnedDir(fs, StageDir);
        RenameKeeps(fs, StageDir, CleanupDir);
        FinishSucceeds(moved);
      }
    }
  }

  /** A run that succeeds passed no failing call, so it is the fault-free run. */
  lemma SuccessIgnoresFaults(fs: Fs, faults: set<Call>)
    ensures CleanupOwnedStage(fs, faults).ok ==> CleanupOwnedStage(fs, faults) == CleanupOwnedStage(fs, {})
  {
  }

  /** The calls a cleanup makes on a directory it can clean. */
  function CallsMade(fs: Fs): set<Call> {
    var staged := Lstat(fs, StageDir).Some?;
    var entries := if staged then Entries(fs, StageDir) else Entries(fs, CleanupDir);
    {LstatKeyPath, LstatStage, LstatCleanup}
    + (if staged then {RenameStage, LstatMoved} else {})
    + (if !staged && Lstat(fs, CleanupDir).None? then {}
       else {SecureCleanup, ListCleanup}
            + if entries == map[] then {RemoveEmpty} else {LstatStagedKey, LstatKeyPathAgain, UnlinkStagedKey, RemoveCleanup})
  }

  /** A cleanup succeeds exactly on a cleanable directory when none of the calls it makes there fails. */
  lemma CleanupSucceedsUnder(fs: Fs, faults: set<Call>)
    requires WellFormed(fs)
    ensures CleanupOwnedStage(fs, faults).ok <==> Cleanable(fs) && faults !! CallsMade(fs)
  {
    CleanupSucceeds(fs);
    SuccessIgnoresFaults(fs, faults);
    if Cleanable(fs) && Lstat(fs, StageDir).Some? {
      MovedCleanup(fs, faults);
    }
  }

  lemma MovedCleanup(fs: Fs, faults: set<Call>)
    requires WellFormed(fs) && Cleanable(fs) && Lstat(fs, StageDir).Some?
    ensures CleanupOwnedStage(fs, faults).ok <==> faults !! CallsMade(fs)
  {
    var moved := RenameDir(fs, StageDir, CleanupDir).value;
    assert Entries(moved, CleanupDir) == Entries(fs, StageDir);
    assert OwnedKey(moved) <==> Entries(fs, StageDir) != map[];
  }

  /**
   A cleanup that is refused, or whose inspection or unlink of the staged key fails, leaves the private directory
   under the stage name with its content: what was quarantined is restored.
   */
  lemma RefusalRestores(fs: Fs, faults: set<Call>)
    requires WellFormed(fs) && IsFile(Lstat(fs, KeyPath)) && !CleanupOwnedStage(fs, faults).ok
    requires faults <= {LstatStagedKey, LstatKeyPathAgain, UnlinkStagedKey}
    ensures var end := End(fs, CleanupOwnedStage(fs, faults).states);
            && (Lstat(fs, StageDir).Some? ==> end == fs)
            && (Lstat(fs, StageDir).None? && Lstat(fs, CleanupDir).Some? && Lstat(fs, CleanupDir).value.1.Dir? ==>
                  end == RenameDir(fs, CleanupDir, StageDir).value && Lstat(end, StageDir) == Lstat(fs, CleanupDir) && Lstat(end, CleanupDir).None?)
  {
    if Lstat(fs, StageDir).Some? && Lstat(fs, CleanupDir).None? {
      MoveBack(fs, StageDir, CleanupDir);
    }
  }

  /** Moving a directory away and back restores the directory. */
  lemma MoveBack(fs: Fs, from: Name, to: Name)
    requires from in fs.top && to !in fs.top && from != to
    ensures RenameDir(fs, from, to).Some? && RenameDir(RenameDir(fs, from, to).value, to, from) == Some(fs)
  {
    var moved := RenameDir(fs, from, to).value;
    assert (moved.top - {to})[from := moved.top[to]] == fs.top;
  }

  /** A later fault-free cleanup ends where a fault-free cleanup of `fs` ends, with the same verdict. */
  predicate SameOutcome(fs: Fs, s: Fs) {
    CleanupOwnedStage(s, {}).ok == CleanupOwnedStage(fs, {}).ok &&
    End(s, CleanupOwnedStage(s, {}).states) == End(fs, CleanupOwnedStage(fs, {}).states)
  }

  /** From a quarantined directory, every state of a failing run leads to the same end. */
  lemma FinishConverges(fs: Fs, faults: set<Call>, k: nat)
    requires WellFormed(fs) && IsFile(Lstat(fs, KeyPath)) && StageDir !in fs.top && CleanupDir in fs.top
    requires k < |FinishCleanup(fs, faults).states|
    ensures SameOutcome(fs, FinishCleanup(fs, faults).states[k])
  {
    var entries := Entries(fs, CleanupDir);
    MoveBack(fs, CleanupDir, StageDir);
    var s := FinishCleanup(fs, faults).states[k];
    if s == RenameDir(fs, CleanupDir, StageDir).value {
      RestoredConverges(fs);
    } else if entries != map[] {
      var unlinked := Unlink(fs, CleanupDir, KEY_FILE).value;
      assert entries - {KEY_FILE} == map[];
      assert s == unlinked || s == Rmdir(unlinked, CleanupDir).value;
    }
  }

  /** A restored quarantine behaves like the quarantine it came from. */
  lemma RestoredConverges(fs: Fs)
    requires WellFormed(fs) && IsFile(Lstat(fs, KeyPath)) && StageDir !in fs.top && CleanupDir in fs.top
    requires Lstat(fs, CleanupDir).value.1.Dir?
    ensures RenameDir(fs, CleanupDir, StageDir).Some? && SameOutcome(fs, RenameDir(fs, CleanupDir, StageDir).value)
  {
    MoveBack(fs, CleanupDir, StageDir);
    var s := RenameDir(fs, CleanupDir, StageDir).value;
    assert RenameDir(s, StageDir, CleanupDir) == Some(fs);
  }

  /**
   Whichever calls fail and wherever the run stops, a later fault-free cleanup ends in the state and with
   the verdict of one uninterrupted cleanup.
   */
  lemma CleanupConverges(fs: Fs, faults: set<Call>, k: nat)
    requires WellFormed(fs) && k < |CleanupOwnedStage(fs, faults).states|
    ensures SameOutcome(fs, CleanupOwnedStage(fs, faults).states[k])
  {
    if Lstat(fs, StageDir).None? {
      FinishConverges(fs, faults, k);
    } else {
      MoveBack(fs, StageDir, CleanupDir);
      var moved := RenameDir(fs, StageDir, CleanupDir).value;
      RenameKeeps(fs, StageDir, CleanupDir);
      MovedConverges(fs);
      if k > 0 {
        FinishConverges(moved, faults, k - 1);
      }
    }
  }

  lemma MovedConverges(fs: Fs)
    requires WellFormed(fs) && IsFile(Lstat(fs, KeyPath)) && CleanupDir !in fs.top
    requires Lstat(fs, StageDir).Some? && Lstat(fs, StageDir).value.1.Dir?
    ensures RenameDir(fs, StageDir, CleanupDir).Some? && SameOutcome(fs, RenameDir(fs, StageDir, CleanupDir).value)
  {
  }
}
