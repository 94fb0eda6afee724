/**
 What a setup leaves behind: the durable checkpoint, the key directory, and the remote resources, with
 the invariants that relate them in every state a run can be cut off in.
 */
module SetupWorld {
  import opened Text
  import opened KeyDisk
  import opened KeySettle
  import opened KeyConverge
  import opened SetupTypes
  import KeyList

  /** The eight checkpoint statuses with what each of them carries. */
  datatype Stage =
    | ProjectSelected
    | KeyStarted(baseline: seq<string>)
    | KeyReady(origin: KeyOrigin)
    | SheetStarted(marker: Marker, origin: KeyOrigin)
    | SheetCreated(id: DriveId, origin: KeyOrigin)
    | ShareStarted(id: DriveId, origin: KeyOrigin)
    | Shared(id: DriveId, origin: KeyOrigin, share: ShareOrigin)
    | Complete(id: DriveId, origin: KeyOrigin, share: ShareOrigin)

  datatype Checkpoint = Checkpoint(projectId: ProjectId, mode: ProjectMode, stage: Stage)

  /** A spreadsheet file with the private creation marker it was created with. */
  datatype Sheet = Sheet(id: DriveId, marker: Marker)

  /**
   `keyCreates` counts issued key creates, `wrote` is the key the create put into the staging directory,
   `baseline` the key list taken before it, `projects` the ids a project create was issued for, `granted`
   whether an attempt created or upgraded the writer permission. `disk` is the checkpoint a run finds, `stable` the
   one a power loss leaves, and `lost` whether a power loss has ever taken back the record of a remote change.
   */
  datatype World = World(
    disk: Option<Checkpoint>, fs: Fs, projects: set<string>,
    keyCreates: nat, wrote: Option<KeyMeta>, baseline: Option<seq<string>>,
    sheets: seq<Sheet>, granted: bool, envSheet: Option<string>,
    stable: Option<Checkpoint>, lost: bool)

  /** The fixed parts of a setup: account and key resource names are functions of the project. */
  datatype Setup = Setup(emailOf: string -> string, keyName: (string, string) -> string)

  function KeyInput(setup: Setup, projectId: string, baseline: seq<string>): Input {
    Input(projectId, setup.emailOf(projectId), keyId => setup.keyName(projectId, keyId), baseline)
  }

  function Rank(disk: Option<Checkpoint>): nat {
    match disk
    case None => 0
    case Some(c) =>
      match c.stage
      case ProjectSelected => 1
      case KeyStarted(_) => 2
      case KeyReady(_) => 3
      case SheetStarted(_, _) => 4
      case SheetCreated(_, _) => 5
      case ShareStarted(_, _) => 6
      case Shared(_, _, _) => 7
      case Complete(_, _, _) => 8
  }

  /** Some file that has a name holds this key. */
  ghost predicate HoldsKey(fs: Fs, meta: KeyMeta) {
    exists i :: i in fs.nodes && fs.nodes[i] == File(KeyFile(meta)) && Linked(fs, i)
  }

  lemma HoldsKeyKept(a: Fs, b: Fs, meta: KeyMeta)
    requires KeepsFiles(a, b) && HoldsKey(a, meta)
    ensures HoldsKey(b, meta)
  {
    var i :| i in a.nodes && a.nodes[i] == File(KeyFile(meta)) && Linked(a, i);
    assert i in b.nodes && b.nodes[i] == a.nodes[i];
  }

  /** A project create is only ever issued for the id the checkpoint has decided. */
  predicate ProjectInvariant(w: World) {
    w.projects <= match w.disk case None => {} case Some(c) => {c.projectId}
  }

  /** No key create before its checkpoint, one at the most, and what it wrote is never lost. */
  ghost predicate KeyInvariant(w: World) {
    && WellFormed(w.fs)
    && w.keyCreates <= 1
    && (Rank(w.disk) < 2 ==> w.keyCreates == 0 && w.baseline.None? && Lstat(w.fs, StageDir).None? && Lstat(w.fs, CleanupDir).None?)
    && (w.keyCreates == 0 ==> w.wrote.None?)
    && (w.wrote.Some? ==> HoldsKey(w.fs, w.wrote.value))
    && (w.disk.Some? && w.disk.value.stage.KeyStarted? ==> w.baseline == Some(w.disk.value.stage.baseline))
  }

  /** The create has written a key of this project and account. */
  predicate WroteOwn(setup: Setup, w: World) {
    w.disk.Some? && w.wrote.Some? && IsForThisSetup(KeyInput(setup, w.disk.value.projectId, []), w.wrote.value)
  }

  /**
   From `key_ready` on the key path holds a key of this project and account, the one the create wrote if it wrote
   one, and the recorded origin says whether it appeared after the baseline was taken.
   */
  predicate OriginInvariant(setup: Setup, w: World) {
    Rank(w.disk) >= 3 ==>
      var read := ReadKey(w.fs);
      && read.Ok? && IsForThisSetup(KeyInput(setup, w.disk.value.projectId, []), read.meta)
      && (w.disk.value.stage.origin.KeyCreated? <==>
            w.baseline.Some? && setup.keyName(w.disk.value.projectId, read.meta.keyId) !in w.baseline.value)
      && (w.baseline.None? ==> w.keyCreates == 0)
      && (WroteOwn(setup, w) ==> read.meta == w.wrote.value)
  }

  /**
   The provenance of the key: once a create has written a key of this setup, every later checkpoint stands for
   that very key at the key path, and records it as created exactly when the baseline did not list its name.
   */
  predicate Provenance(setup: Setup, w: World) {
    Rank(w.disk) >= 3 && WroteOwn(setup, w) ==> RecordsKey(setup, w, w.wrote.value)
  }

  /** The key is at the key path, recorded as created exactly when the baseline did not list its name. */
  predicate RecordsKey(setup: Setup, w: World, meta: KeyMeta) {
    && Rank(w.disk) >= 3 && ReadKey(w.fs) == KeyRead.Ok(meta) && w.baseline.Some?
    && (w.disk.value.stage.origin.KeyCreated? <==> setup.keyName(w.disk.value.projectId, meta.keyId) !in w.baseline.value)
  }

  /** One spreadsheet at the most, carrying the marker of the checkpoint or named by it. */
  predicate SheetInvariant(w: World) {
    && |w.sheets| <= 1
    && (Rank(w.disk) <= 3 ==> w.sheets == [])
    && (Rank(w.disk) == 4 && w.sheets != [] ==> w.sheets[0].marker == w.disk.value.stage.marker)
    && (Rank(w.disk) >= 5 ==> w.sheets != [] && w.sheets[0].id == w.disk.value.stage.id)
  }

  /** No permission before its checkpoint, and a permission this setup made is recorded as fresh. */
  predicate ShareInvariant(w: World) {
    && (w.granted ==> Rank(w.disk) >= 6)
    && (Rank(w.disk) >= 7 && w.granted ==> w.disk.value.stage.share.ShareFresh?)
    && (w.envSheet.Some? ==> Rank(w.disk) >= 7 && w.envSheet.value == w.disk.value.stage.id)
  }

  /**
   While the key is being settled, what the create wrote can be settled on: whatever key list shows it as the one
   key beyond the baseline, an undisturbed pass over that list succeeds, and the directory carries that key.
   */
  ghost predicate Recoverable(setup: Setup, w: World) {
    w.disk.Some? && w.disk.value.stage.KeyStarted? && w.wrote.Some? ==>
      SettlesOn(KeyInput(setup, w.disk.value.projectId, w.disk.value.stage.baseline), w.fs, w.wrote.value)
  }

  ghost predicate SettlesOn(input: Input, fs: Fs, meta: KeyMeta) {
    forall names :: Matches(input, names, meta) ==> Settleable(fs, input, names) && KeyOf(fs) == KeyRead.Ok(meta)
  }

  /** The names are the sorted list of exactly the keys that some output of the list command lists. */
  ghost predicate Listed(setup: Setup, projectId: string, names: seq<string>) {
    exists stdout :: KeyList.ReadsAs(stdout, projectId, setup.emailOf(projectId), names)
  }

  /** The recorded baseline was read from a key list of this project and account. */
  ghost predicate BaselineInvariant(setup: Setup, w: World) {
    w.disk.Some? && w.disk.value.stage.KeyStarted? ==> Listed(setup, w.disk.value.projectId, w.disk.value.stage.baseline)
  }

  /**
   A remote change was made under a checkpoint that is not synced: a project create with no synced checkpoint at all,
   a permission before the synced one records the share, or an environment file before it records the sharing.
   */
  predicate Premature(w: World) {
    || (w.stable.None? && w.projects != {})
    || (Rank(w.stable) < 6 && w.granted)
    || (Rank(w.stable) < 7 && w.envSheet.Some?)
  }

  /** A power loss takes back a checkpoint whose directory entry was never synced, and the baseline that only it held. */
  function PowerLoss(w: World): World {
    w.(disk := w.stable, baseline := if Rank(w.stable) < 2 then None else w.baseline, lost := w.lost || Premature(w))
  }

  /** Only the decided project is created, and an own permission is recorded as fresh, unless that record was lost. */
  predicate NothingLost(w: World) {
    !w.lost ==> ProjectInvariant(w) && ShareInvariant(w)
  }

  /** What holds of the key and the spreadsheet under the checkpoint a run finds. */
  ghost predicate Secured(setup: Setup, w: World) {
    BaselineInvariant(setup, w) && KeyInvariant(w) && Recoverable(setup, w) && OriginInvariant(setup, w) && SheetInvariant(w)
  }

  /** How far a synced checkpoint can be behind: a key create is under a synced one, and what it says is not revised. */
  predicate Behind(w: World) {
    && (w.stable == w.disk || Rank(w.disk) >= 3 || Rank(w.stable) < 2)
    && (w.disk.None? ==> w.stable.None?)
    && (w.stable.Some? && w.disk.Some? ==> w.stable.value.projectId == w.disk.value.projectId)
    && (Rank(w.stable) >= 7 ==>
          Rank(w.disk) >= 7 && w.stable.value.stage.share == w.disk.value.stage.share && w.stable.value.stage.id == w.disk.value.stage.id)
  }

  /** A world a run may be in: all is well with it now, and key and spreadsheet would be after a power loss. */
  ghost predicate Consistent(setup: Setup, w: World) {
    Secured(setup, w) && NothingLost(w) && Secured(setup, PowerLoss(w)) && Behind(w)
  }

  /** Under a synced checkpoint a power loss changes nothing. */
  lemma Synced(setup: Setup, w: World)
    requires Secured(setup, w) && NothingLost(w)
    ensures Consistent(setup, w.(stable := w.disk))
    ensures w.stable == w.disk ==> PowerLoss(w) == w
  {
    hide BaselineInvariant, Recoverable, OriginInvariant, SheetInvariant;
    assert PowerLoss(w.(stable := w.disk)) == w.(stable := w.disk);
    SameSecured(setup, w, w.(stable := w.disk));
  }

  /** Key and spreadsheet do not depend on the other parts of the world. */
  lemma SameSecured(setup: Setup, w: World, next: World)
    requires Secured(setup, w)
    requires next == w.(projects := next.projects, granted := next.granted, envSheet := next.envSheet, stable := next.stable, lost := next.lost)
    ensures Secured(setup, next)
  {
  }

  /** A new checkpoint does not change what a power loss leaves of key and spreadsheet. */
  lemma Lagging(setup: Setup, w: World, next: World)
    requires Consistent(setup, w) && Secured(setup, next) && NothingLost(next) && Behind(next)
    requires next == w.(disk := next.disk, baseline := next.baseline, projects := next.projects, granted := next.granted, envSheet := next.envSheet)
    requires next.baseline == w.baseline || Rank(w.stable) < 2
    ensures Consistent(setup, next)
  {
    hide Secured, NothingLost;
    SameSecured(setup, PowerLoss(w), PowerLoss(next));
  }

  /**
   What a power loss breaks: the project and share promises survive it exactly when no remote change was made under
   a checkpoint that is not synced.
   */
  lemma LossBreaksExactly(setup: Setup, w: World)
    requires Consistent(setup, w) && !w.lost
    ensures ProjectInvariant(PowerLoss(w)) && ShareInvariant(PowerLoss(w)) <==> !Premature(w)
  {
    hide Secured;
  }

  /** After a power loss the world is one a run may be in. */
  lemma LossConsistent(setup: Setup, w: World)
    requires Consistent(setup, w)
    ensures Consistent(setup, PowerLoss(w))
  {
    hide Secured, ProjectInvariant, ShareInvariant, Premature;
    if !PowerLoss(w).lost {
      LossBreaksExactly(setup, w);
    }
    Synced(setup, PowerLoss(w));
  }

  /**
   How one recorded step may change the world: the status only falls from `spreadsheet_create_started` to
   `key_ready`; every remote change happens under the checkpoint written ahead of it; nothing remote is
   undone; a decided project and a known spreadsheet stay.
   */
  ghost predicate Advances(a: World, b: World) {
    && (Rank(a.disk) <= Rank(b.disk) || (Rank(a.disk) == 4 && Rank(b.disk) == 3 && a.sheets == []))
    && (a.disk.Some? ==> b.disk.Some? && b.disk.value.projectId == a.disk.value.projectId && b.disk.value.mode == a.disk.value.mode)
    && (Rank(a.disk) >= 5 ==> b.disk.value.stage.id == a.disk.value.stage.id)
    && (Rank(a.disk) >= 3 ==> b.disk.value.stage.origin == a.disk.value.stage.origin && b.fs == a.fs)
    && a.keyCreates <= b.keyCreates && (a.keyCreates < b.keyCreates ==> Rank(a.disk) == Rank(b.disk) == 2)
    && a.sheets <= b.sheets && (a.sheets < b.sheets ==> Rank(a.disk) == Rank(b.disk) == 4)
    && b.lost == a.lost && (a.wrote.Some? ==> b.wrote == a.wrote) && (a.baseline.Some? ==> b.baseline == a.baseline)
    && (a.granted ==> b.granted) && (!a.granted && b.granted ==> Rank(a.disk) == Rank(b.disk) == 6)
    && a.projects <= b.projects
  }
}
