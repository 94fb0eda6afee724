/**
 The directory around the service-account key, as names linked to inodes: the key path and its
 two private siblings, the staging and the cleanup directory. The calls follow POSIX.1-2017:
 link never replaces a name, rename is atomic, rmdir removes an empty directory only.
 */
module KeyDisk {
  import opened Text

  type Ino = nat

  /** Names in the directory that holds the key path. */
  datatype Name = KeyPath | StageDir | CleanupDir | Sibling(name: string)

  /** The name of the staged key inside the staging directory. */
  const KEY_FILE := "key.json"

  /** Non-secret identity of a service-account key file. */
  datatype KeyMeta = KeyMeta(projectId: string, clientEmail: string, keyId: string)

  /** File contents: a file that validates as a key, or anything else. */
  datatype FileData = KeyFile(meta: KeyMeta) | OtherBytes(bytes: string)

  datatype Node = File(data: FileData) | Dir(entries: map<string, Ino>) | Symlink

  /** `top` maps the directory's names to inodes; `next` is above every inode in use. */
  datatype Fs = Fs(top: map<Name, Ino>, nodes: map<Ino, Node>, next: Ino)

  ghost predicate WellFormed(fs: Fs) {
    && (forall n :: n in fs.top ==> fs.top[n] in fs.nodes)
    && (forall i :: i in fs.nodes ==> i < fs.next)
    && (forall i, e :: i in fs.nodes && fs.nodes[i].Dir? && e in fs.nodes[i].entries ==> fs.nodes[i].entries[e] in fs.nodes)
  }

  /** lstat of a name: the inode and its node, never following. */
  function Lstat(fs: Fs, name: Name): Option<(Ino, Node)> {
    if name in fs.top && fs.top[name] in fs.nodes then Some((fs.top[name], fs.nodes[fs.top[name]])) else None
  }

  function Entries(fs: Fs, dir: Name): map<string, Ino> {
    match Lstat(fs, dir)
    case Some((_, Dir(entries))) => entries
    case _ => map[]
  }

  /** lstat of an entry inside a directory. */
  function LstatIn(fs: Fs, dir: Name, entry: string): Option<(Ino, Node)> {
    var entries := Entries(fs, dir);
    if entry in entries && entries[entry] in fs.nodes then Some((entries[entry], fs.nodes[entries[entry]])) else None
  }

  /** mkdir: a new empty directory, or nothing when the name exists. */
  function Mkdir(fs: Fs, name: Name): Option<Fs> {
    if name in fs.top then None
    else Some(Fs(fs.top[name := fs.next], fs.nodes[fs.next := Dir(map[])], fs.next + 1))
  }

  /** A subprocess writes a new file into a directory. */
  function WriteNew(fs: Fs, dir: Name, entry: string, data: FileData): Fs {
    match Lstat(fs, dir)
    case Some((d, Dir(entries))) =>
      Fs(fs.top, fs.nodes[fs.next := File(data)][d := Dir(entries[entry := fs.next])], fs.next + 1)
    case _ => fs
  }

  /** link of a directory entry to a name of the outer directory. */
  function Link(fs: Fs, dir: Name, entry: string, to: Name): Option<Fs> {
    var entries := Entries(fs, dir);
    if entry !in entries || to in fs.top then None else Some(fs.(top := fs.top[to := entries[entry]]))
  }

  /** rename of a directory: atomic; an existing target must be an empty directory. */
  function RenameDir(fs: Fs, from: Name, to: Name): Option<Fs> {
    if from !in fs.top || from == to then None
    else
      match Lstat(fs, to)
      case None => Some(fs.(top := (fs.top - {from})[to := fs.top[from]]))
      case Some((_, Dir(entries))) =>
        if entries == map[] then Some(fs.(top := (fs.top - {from})[to := fs.top[from]])) else None
      case Some(_) => None
  }

  /** unlink of an entry inside a directory. */
  function Unlink(fs: Fs, dir: Name, entry: string): Option<Fs> {
    match Lstat(fs, dir)
    case Some((d, Dir(entries))) =>
      if entry in entries then Some(fs.(nodes := fs.nodes[d := Dir(entries - {entry})])) else None
    case _ => None
  }

  /** rmdir of an empty directory. The inode stays in the table without a name. */
  function Rmdir(fs: Fs, name: Name): Option<Fs> {
    match Lstat(fs, name)
    case Some((_, Dir(entries))) => if entries == map[] then Some(fs.(top := fs.top - {name})) else None
    case _ => None
  }

  /** Some name, of the outer directory or of a directory in it, leads to this inode. */
  ghost predicate Linked(fs: Fs, ino: Ino) {
    (exists n :: n in fs.top && fs.top[n] == ino) || (exists n, e :: LinkedIn(fs, n, e, ino))
  }

  predicate LinkedIn(fs: Fs, dir: Name, entry: string, ino: Ino) {
    entry in Entries(fs, dir) && Entries(fs, dir)[entry] == ino
  }

  /** Every file that had a name in `a` has one in `b` and holds the same data. */
  ghost predicate KeepsFiles(a: Fs, b: Fs) {
    forall i :: i in a.nodes && a.nodes[i].File? && Linked(a, i) ==> i in b.nodes && b.nodes[i] == a.nodes[i] && Linked(b, i)
  }

  /** Every file name of the outer directory still leads to the same inode. */
  ghost predicate OuterKept(a: Fs, b: Fs) {
    forall n :: n in a.top && a.top[n] in a.nodes && a.nodes[a.top[n]].File? ==> n in b.top && b.top[n] == a.top[n]
  }

  /** A file keeps its entry in a directory that may have moved, unless an outer name leads to it too. */
  ghost predicate InnerKept(a: Fs, b: Fs, moved: Name -> Name) {
    forall n, e, i :: LinkedIn(a, n, e, i) && i in a.nodes && a.nodes[i].File? ==>
      LinkedIn(b, moved(n), e, i) || exists m :: m in a.top && a.top[m] == i
  }

  /** Kept data under kept names: no file loses its last name. */
  lemma NamesKept(a: Fs, b: Fs, moved: Name -> Name)
    requires OuterKept(a, b) && InnerKept(a, b, moved)
    requires forall i :: i in a.nodes && a.nodes[i].File? ==> i in b.nodes && b.nodes[i] == a.nodes[i]
    ensures KeepsFiles(a, b)
  {
    forall i | i in a.nodes && a.nodes[i].File? && Linked(a, i)
      ensures Linked(b, i)
    {
      if m :| m in a.top && a.top[m] == i {
        assert m in b.top && b.top[m] == i;
      } else {
        var n, e :| LinkedIn(a, n, e, i);
        assert LinkedIn(b, moved(n), e, i);
      }
    }
  }

  // ---- Reading key files ----

  datatype KeyRead = Absent | Ok(meta: KeyMeta) | Invalid

  function ReadNode(node: Option<(Ino, Node)>): KeyRead {
    match node
    case None => Absent
    case Some((_, File(KeyFile(meta)))) => KeyRead.Ok(meta)
    case Some(_) => Invalid
  }

  /** What a secure read of the key path finds. */
  function ReadKey(fs: Fs): KeyRead {
    ReadNode(Lstat(fs, KeyPath))
  }

  /** What a secure read of the staged key finds; an absent stage holds no staged key. */
  function ReadStaged(fs: Fs): KeyRead {
    ReadNode(LstatIn(fs, StageDir, KEY_FILE))
  }
}
