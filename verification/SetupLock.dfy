/**
 The exclusive setup lock: an empty directory owned through an open descriptor. Processes interleave freely,
 inode numbers are reused as soon as nothing names or holds them, and outsiders may remove the directory.
 */
module SetupLock {
  import opened Text

  type Pid = nat

  /** A directory: its inode number, and a serial number that is never reused. */
  datatype Dir = Dir(ino: nat, birth: nat)

  /** What is at the lock path: a directory, or an entry that is none. */
  datatype Entry = Directory(dir: Dir) | Foreign

  /** A registered acquisition: the process and its token. */
  datatype Owner = Owner(pid: Pid, token: nat)

  /**
   `owners` maps each registered acquisition to the directory its descriptor refers to, `making` each process
   that is between its mkdir and its open to the directory it made, `tokens` each process to its last token,
   `makers` each directory to its process.
   */
  datatype State = State(
    entry: Option<Entry>, owners: map<Owner, Dir>, making: map<Pid, nat>, tokens: map<Pid, nat>, makers: seq<Pid>)

  /** What fails in a release: reading the owned descriptor, opening or reading the path, or the removal. */
  datatype ReleaseFault = NoFault | OwnedLost | PathUnreadable | RemoveFails

  datatype Step =
    | Mkdir(pid: Pid, ino: nat)
    | Open(pid: Pid, fails: bool)
    | Release(pid: Pid, token: nat, fault: ReleaseFault)
    | Die(pid: Pid)
    | OutsideRemove
    | OutsidePlant

  /** The inode is in use: named by the path or held open. */
  predicate Live(s: State, ino: nat) {
    || (s.entry.Some? && s.entry.value.Directory? && s.entry.value.dir.ino == ino)
    || exists o :: o in s.owners && s.owners[o].ino == ino
  }

  function LastToken(s: State, pid: Pid): nat {
    if pid in s.tokens then s.tokens[pid] else 0
  }

  function Next(s: State, step: Step): State {
    match step
    case Mkdir(pid, ino) =>
      if s.entry.Some? || pid in s.making || Live(s, ino) then s
      else State(Some(Directory(Dir(ino, |s.makers|))), s.owners, s.making[pid := |s.makers|], s.tokens, s.makers + [pid])
    case Open(pid, fails) =>
      if pid !in s.making then s
      else if s.entry.None? || s.entry.value.Foreign? then s.(making := s.making - {pid})
      else if fails then s.(entry := None, making := s.making - {pid})
      else
        var token := LastToken(s, pid) + 1;
        s.(owners := s.owners[Owner(pid, token) := s.entry.value.dir], making := s.making - {pid}, tokens := s.tokens[pid := token])
    case Release(pid, token, fault) =>
      if Owner(pid, token) !in s.owners then s
      else
        var mine := s.entry.Some? && s.entry.value.Directory? && s.entry.value.dir.ino == s.owners[Owner(pid, token)].ino;
        s.(owners := s.owners - {Owner(pid, token)}, entry := if fault.NoFault? && mine then None else s.entry)
    case Die(pid) =>
      s.(owners := map o | o in s.owners && o.pid != pid :: s.owners[o], making := s.making - {pid})
    case OutsideRemove => s.(entry := None)
    case OutsidePlant => if s.entry.None? then s.(entry := Some(Foreign)) else s
  }

  function Run(s: State, steps: seq<Step>): State
    decreases |steps|
  {
    if steps == [] then s else Run(Next(s, steps[0]), steps[1..])
  }

  const START := State(None, map[], map[], map[], [])

  // ---- Invariants ----

  /** An inode in use belongs to one directory. */
  ghost predicate InodesUnique(s: State) {
    && (forall o, p :: o in s.owners && p in s.owners && s.owners[o].ino == s.owners[p].ino ==> s.owners[o] == s.owners[p])
    && (s.entry.Some? && s.entry.value.Directory? ==>
          forall o :: o in s.owners && s.owners[o].ino == s.entry.value.dir.ino ==> s.owners[o] == s.entry.value.dir)
  }

  /** Every acquisition holds a directory its own process made, no two the same one. */
  ghost predicate OwnersMade(s: State) {
    && (forall o :: o in s.owners ==> s.owners[o].birth < |s.makers| && s.makers[s.owners[o].birth] == o.pid)
    && (forall o, p :: o in s.owners && p in s.owners && s.owners[o] == s.owners[p] ==> o == p)
    && (s.entry.Some? && s.entry.value.Directory? ==> s.entry.value.dir.birth < |s.makers|)
    && (forall o :: o in s.owners ==> o.token <= LastToken(s, o.pid))
  }

  /** A directory between its mkdir and its open is still at the path, and nobody has it registered. */
  ghost predicate MakingIntact(s: State) {
    forall pid :: pid in s.making ==>
      && s.entry.Some? && s.entry.value.Directory? && s.entry.value.dir.birth == s.making[pid]
      && s.making[pid] < |s.makers| && s.makers[s.making[pid]] == pid
      && forall o :: o in s.owners ==> s.owners[o].birth != s.making[pid]
  }

  ghost predicate Invariant(s: State) {
    InodesUnique(s) && OwnersMade(s) && MakingIntact(s)
  }

  /** Nobody removes the directory of a process that is between its mkdir and its open. */
  predicate Considerate(s: State, step: Step) {
    step.OutsideRemove? ==> s.making == map[]
  }

  ghost predicate AllConsiderate(s: State, steps: seq<Step>)
    decreases |steps|
  {
    steps != [] ==> Considerate(s, steps[0]) && AllConsiderate(Next(s, steps[0]), steps[1..])
  }

  lemma MkdirKeeps(s: State, pid: Pid, ino: nat)
    requires Invariant(s)
    ensures Invariant(Next(s, Mkdir(pid, ino)))
  {
  }

  lemma OpenInodes(s: State, pid: Pid, fails: bool)
    requires InodesUnique(s)
    ensures InodesUnique(Next(s, Open(pid, fails)))
  {
  }

  lemma OpenOwners(s: State, pid: Pid, fails: bool)
    requires OwnersMade(s) && MakingIntact(s)
    ensures OwnersMade(Next(s, Open(pid, fails)))
  {
    hide OwnersMade;
    if pid in s.making && s.entry.Some? && s.entry.value.Directory? && !fails {
      OwnerAdded(s, Owner(pid, LastToken(s, pid) + 1), s.entry.value.dir);
    } else {
      OwnersUnmoved(s, Next(s, Open(pid, fails)));
    }
  }

  lemma OwnersUnmoved(s: State, n: State)
    requires OwnersMade(s) && n.owners == s.owners && n.tokens == s.tokens && n.makers == s.makers
    requires n.entry == s.entry || n.entry == None
    ensures OwnersMade(n)
  {
  }

  /** An acquisition with a new token of a directory nobody holds and its process made. */
  lemma OwnerAdded(s: State, owner: Owner, dir: Dir)
    requires OwnersMade(s) && dir.birth < |s.makers| && s.makers[dir.birth] == owner.pid && owner.token == LastToken(s, owner.pid) + 1
    requires forall o :: o in s.owners ==> s.owners[o].birth != dir.birth
    ensures OwnersMade(s.(owners := s.owners[owner := dir], making := s.making - {owner.pid}, tokens := s.tokens[owner.pid := owner.token]))
  {
  }

  lemma OpenMaking(s: State, pid: Pid, fails: bool)
    requires MakingIntact(s)
    ensures MakingIntact(Next(s, Open(pid, fails)))
  {
  }

  lemma OpenKeeps(s: State, pid: Pid, fails: bool)
    requires Invariant(s)
    ensures Invariant(Next(s, Open(pid, fails)))
  {
    OpenInodes(s, pid, fails);
    OpenOwners(s, pid, fails);
    OpenMaking(s, pid, fails);
  }

  lemma ReleaseKeeps(s: State, pid: Pid, token: nat, fault: ReleaseFault)
    requires Invariant(s)
    ensures Invariant(Next(s, Release(pid, token, fault)))
  {
    ReleaseInodes(s, pid, token, fault);
    ReleaseOwners(s, pid, token, fault);
    ReleaseMaking(s, pid, token, fault);
    hide InodesUnique, OwnersMade, MakingIntact, Next;
  }

  lemma ReleaseInodes(s: State, pid: Pid, token: nat, fault: ReleaseFault)
    requires InodesUnique(s)
    ensures InodesUnique(Next(s, Release(pid, token, fault)))
  {
  }

  lemma ReleaseOwners(s: State, pid: Pid, token: nat, fault: ReleaseFault)
    requires OwnersMade(s)
    ensures OwnersMade(Next(s, Release(pid, token, fault)))
  {
  }

  lemma ReleaseMaking(s: State, pid: Pid, token: nat, fault: ReleaseFault)
    requires Invariant(s)
    ensures MakingIntact(Next(s, Release(pid, token, fault)))
  {
  }

  lemma OtherKeeps(s: State, step: Step)
    requires Invariant(s) && Considerate(s, step) && !step.Mkdir? && !step.Open? && !step.Release?
    ensures Invariant(Next(s, step))
  {
  }

  lemma StepKeeps(s: State, step: Step)
    requires Invariant(s) && Considerate(s, step)
    ensures Invariant(Next(s, step))
  {
    hide Next, Invariant;
    match step {
      case Mkdir(pid, ino) => MkdirKeeps(s, pid, ino);
      case Open(pid, fails) => OpenKeeps(s, pid, fails);
      case Release(pid, token, fault) => ReleaseKeeps(s, pid, token, fault);
      case _ => OtherKeeps(s, step);
    }
  }

  lemma {:induction false} RunKeeps(s: State, steps: seq<Step>)
    requires Invariant(s) && AllConsiderate(s, steps)
    ensures Invariant(Run(s, steps))
    decreases |steps|
  {
    hide Next, Invariant, Considerate;
    if steps != [] {
      StepKeeps(s, steps[0]);
      RunKeeps(Next(s, steps[0]), steps[1..]);
    }
  }

  // ---- What a release removes ----

  /** The process that made the directory at the lock path. */
  function MakerAt(s: State): Option<Pid> {
    if s.entry.Some? && s.entry.value.Directory? && s.entry.value.dir.birth < |s.makers| then Some(s.makers[s.entry.value.dir.birth])
    else None
  }

  /**
   After any interleaving, with outside removals at any time except between a process's mkdir and its open, a
   release removes nothing but the directory its own acquisition made, and nothing at all for a token that is
   not registered.
   */
  lemma ReleaseRemovesOwn(steps: seq<Step>, pid: Pid, token: nat, fault: ReleaseFault)
    requires AllConsiderate(START, steps)
    ensures var s := Run(START, steps);
            var n := Next(s, Release(pid, token, fault));
            && (n.entry != s.entry ==> Owner(pid, token) in s.owners && MakerAt(s) == Some(pid)
                                       && s.entry == Some(Directory(s.owners[Owner(pid, token)])))
            && (Owner(pid, token) !in s.owners ==> n == s)
            && Owner(pid, token) !in n.owners
  {
    RunKeeps(START, steps);
  }

  /** A released token never resolves again: every later release of it changes nothing. */
  lemma {:induction false} ReleasedStaysReleased(s: State, pid: Pid, token: nat, steps: seq<Step>, fault: ReleaseFault)
    requires Owner(pid, token) !in s.owners && token <= LastToken(s, pid)
    ensures var n := Run(s, steps);
            Owner(pid, token) !in n.owners && Next(n, Release(pid, token, fault)) == n
    decreases |steps|
  {
    if steps != [] {
      var n := Next(s, steps[0]);
      assert Owner(pid, token) !in n.owners && token <= LastToken(n, pid);
      ReleasedStaysReleased(n, pid, token, steps[1..], fault);
    }
  }

  /**
   The condition is needed. When the directory is removed from outside between the mkdir and the open, the
   process registers the directory another process has made meanwhile, and its release removes it.
   */
  lemma RemovedWhileOpening()
    ensures var s := Run(START, [Mkdir(1, 7), OutsideRemove, Mkdir(2, 8), Open(1, false)]);
            && MakerAt(s) == Some(2) && s.owners == map[Owner(1, 1) := Dir(8, 1)]
            && Next(s, Release(1, 1, NoFault)).entry == None
  {
    var a := Next(START, Mkdir(1, 7));
    assert a == State(Some(Directory(Dir(7, 0))), map[], map[1 := 0], map[], [1]);
    var b := Next(a, OutsideRemove);
    var c := Next(b, Mkdir(2, 8));
    assert c == State(Some(Directory(Dir(8, 1))), map[], map[1 := 0, 2 := 1], map[], [1, 2]);
    var d := Next(c, Open(1, false));
    var steps := [Mkdir(1, 7), OutsideRemove, Mkdir(2, 8), Open(1, false)];
    assert steps[1..] == [OutsideRemove, Mkdir(2, 8), Open(1, false)];
    assert steps[1..][1..] == [Mkdir(2, 8), Open(1, false)] && steps[1..][1..][1..] == [Open(1, false)];
    assert steps[1..][1..][1..][1..] == [];
    assert Run(c, [Open(1, false)]) == d;
    assert Run(b, [Mkdir(2, 8), Open(1, false)]) == d;
    assert Run(a, [OutsideRemove, Mkdir(2, 8), Open(1, false)]) == d;
  }

  /**
   What holds with outsiders at any time: inodes in use are told apart, every process knows what it made, and
   no acquisition has a token its process has not given out.
   */
  ghost predicate Accounted(s: State) {
    InodesUnique(s) && Registered(s)
  }

  ghost predicate Registered(s: State) {
    && (forall o :: o in s.owners ==> s.owners[o].birth < |s.makers|)
    && (s.entry.Some? && s.entry.value.Directory? ==> s.entry.value.dir.birth < |s.makers|)
    && (forall pid :: pid in s.making ==> s.making[pid] < |s.makers| && s.makers[s.making[pid]] == pid)
    && (forall o :: o in s.owners ==> o.token <= LastToken(s, o.pid))
  }

  lemma StepAccounted(s: State, step: Step)
    requires Accounted(s)
    ensures Accounted(Next(s, step))
  {
    StepInodes(s, step);
    StepRegistered(s, step);
    hide InodesUnique, Registered, Next;
  }

  lemma StepInodes(s: State, step: Step)
    requires InodesUnique(s)
    ensures InodesUnique(Next(s, step))
  {
  }

  lemma StepRegistered(s: State, step: Step)
    requires Registered(s)
    ensures Registered(Next(s, step))
  {
  }

  lemma {:induction false} RunAccounted(s: State, steps: seq<Step>)
    requires Accounted(s)
    ensures Accounted(Run(s, steps))
    decreases |steps|
  {
    hide Next, Accounted;
    if steps != [] {
      StepAccounted(s, steps[0]);
      RunAccounted(Next(s, steps[0]), steps[1..]);
    }
  }

  /** The acquisition holds a directory that another process made. */
  predicate HoldsForeign(s: State, owner: Owner) {
    owner in s.owners && s.owners[owner].birth < |s.makers| && s.makers[s.owners[owner].birth] != owner.pid
  }

  /**
   With outsiders at any time, an undisturbed release removes a directory another process made exactly when its
   acquisition holds that very directory, and an acquire comes to hold one exactly when its open finds it at
   the path in place of its own.
   */
  lemma ForeignReleaseExactly(steps: seq<Step>, pid: Pid, token: nat)
    ensures var s := Run(START, steps);
            var n := Next(s, Release(pid, token, NoFault));
            && (n.entry != s.entry && MakerAt(s) != Some(pid) <==>
                  HoldsForeign(s, Owner(pid, token)) && s.entry == Some(Directory(s.owners[Owner(pid, token)])))
    ensures var s := Run(START, steps);
            var n := Next(s, Open(pid, false));
            var owner := Owner(pid, LastToken(s, pid) + 1);
            pid in s.making ==>
              (HoldsForeign(n, owner) <==> MakerAt(s).Some? && MakerAt(s) != Some(pid))
  {
    RunAccounted(START, steps);
    hide Run;
    var s := Run(START, steps);
    ForeignRelease(s, pid, token);
    if pid in s.making {
      ForeignOpen(s, pid);
    }
    hide Next, MakerAt, HoldsForeign, Accounted;
  }

  lemma ForeignRelease(s: State, pid: Pid, token: nat)
    requires Accounted(s)
    ensures Next(s, Release(pid, token, NoFault)).entry != s.entry && MakerAt(s) != Some(pid) <==>
              HoldsForeign(s, Owner(pid, token)) && s.entry == Some(Directory(s.owners[Owner(pid, token)]))
  {
  }

  lemma ForeignOpen(s: State, pid: Pid)
    requires Accounted(s) && pid in s.making
    ensures HoldsForeign(Next(s, Open(pid, false)), Owner(pid, LastToken(s, pid) + 1)) <==> MakerAt(s).Some? && MakerAt(s) != Some(pid)
  {
  }

  /**
   A process that meets no other gets the free lock and gives it back: its release empties the path and its token is
   gone, so that it or another process can acquire again.
   */
  lemma AcquireAndRelease(s: State, pid: Pid, ino: nat)
    requires s.entry.None? && pid !in s.making && !Live(s, ino)
    ensures var token := LastToken(s, pid) + 1;
            var held := Next(Next(s, Mkdir(pid, ino)), Open(pid, false));
            var free := Next(held, Release(pid, token, NoFault));
            && held.entry == Some(Directory(Dir(ino, |s.makers|))) && Owner(pid, token) in held.owners
            && free.entry.None? && Owner(pid, token) !in free.owners && pid !in free.making && LastToken(free, pid) == token
  {
  }

  // ---- One holder ----

  /** Nobody outside touches the lock path. */
  ghost predicate NoOutsiders(steps: seq<Step>) {
    forall step :: step in steps ==> !step.OutsideRemove?
  }

  /** Every holder, and every process about to hold, is the one whose directory is at the path. */
  ghost predicate OneHolder(s: State) {
    && (forall o :: o in s.owners ==> s.entry == Some(Directory(s.owners[o])))
    && (forall o, p :: o in s.owners && p in s.owners ==> o == p)
    && (forall o, pid :: o in s.owners && pid in s.making ==> false)
    && (forall p, q :: p in s.making && q in s.making ==> p == q)
  }

  lemma StepOneHolder(s: State, step: Step)
    requires Invariant(s) && OneHolder(s) && !step.OutsideRemove?
    ensures OneHolder(Next(s, step))
  {
  }

  /** Cooperating processes alone never have two holders, whatever their interleaving and whichever calls fail. */
  lemma {:induction false} AtMostOneHolder(s: State, steps: seq<Step>)
    requires Invariant(s) && OneHolder(s) && NoOutsiders(steps)
    ensures OneHolder(Run(s, steps)) && Invariant(Run(s, steps))
    decreases |steps|
  {
    hide Next, Invariant, OneHolder;
    if steps != [] {
      assert steps[0] in steps;
      StepKeeps(s, steps[0]);
      StepOneHolder(s, steps[0]);
      AtMostOneHolder(Next(s, steps[0]), steps[1..]);
    }
  }

  // ---- The two operations ----

  /** The identity a run keeps: the inode it saw and its process-local token. */
  datatype Identity = Identity(ino: nat, token: nat)

  datatype LockResult = Held(identity: Identity) | Busy | Failed

  class SetupLocks {
    var entry: Option<Entry>
    var owners: map<Owner, Dir>
    var making: map<Pid, nat>
    var tokens: map<Pid, nat>
    var makers: seq<Pid>

    constructor ()
      ensures Now() == START
    {
      entry, owners, making, tokens, makers := None, map[], map[], map[], [];
    }

    function Now(): State
      reads this
    {
      State(entry, owners, making, tokens, makers)
    }

    /** Makes the directory, then opens it and registers the descriptor; a directory it cannot open is removed again. */
    method AcquireSetupLock(pid: Pid, ino: nat, mkdirFails: bool, openFails: bool) returns (r: LockResult)
      requires pid !in making && !Live(Now(), ino)
      modifies this
      ensures old(entry).Some? && !mkdirFails ==> r == Busy
      ensures r.Held? <==> old(entry).None? && !mkdirFails && !openFails
      ensures Now() == if mkdirFails then old(Now()) else Next(Next(old(Now()), Mkdir(pid, ino)), Open(pid, openFails))
      ensures r.Held? ==> owners == old(owners)[Owner(pid, r.identity.token) := Dir(ino, |old(makers)|)]
      ensures r.Held? ==> r.identity.ino == ino && r.identity.token == old(LastToken(Now(), pid)) + 1
    {
      if mkdirFails { return Failed; }
      if entry.Some? { return Busy; }
      entry := Some(Directory(Dir(ino, |makers|)));
      makers := makers + [pid];
      assert making[pid := |makers| - 1] - {pid} == making;
      if openFails {
        entry := None;
        return Failed;
      }
      var token := (if pid in tokens then tokens[pid] else 0) + 1;
      tokens := tokens[pid := token];
      owners := owners[Owner(pid, token) := entry.value.dir];
      return Held(Identity(ino, token));
    }

    /** Removes the directory at the path when it is the one the registered descriptor refers to. */
    method ReleaseSetupLock(pid: Pid, identity: Identity, fault: ReleaseFault)
      modifies this`entry, this`owners
      ensures Now() == Next(old(Now()), Release(pid, identity.token, fault))
    {
      var owner := Owner(pid, identity.token);
      if owner !in owners { return; }
      var owned := owners[owner];
      if fault != OwnedLost && fault != PathUnreadable && entry.Some? && entry.value.Directory? {
        if entry.value.dir.ino == owned.ino && fault != RemoveFails {
          entry := None;
        }
      }
      owners := owners - {owner};
    }
  }
}
