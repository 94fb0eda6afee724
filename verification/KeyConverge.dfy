/**
 Crashes during settlement: whatever the earlier passes saw, whichever of their calls failed and wherever
 they stopped, a later uninterrupted pass ends like one that was never interrupted.
 */
module KeyConverge {
  import opened Text
  import opened KeyDisk
  import opened StageCleanup
  import opened KeySettle

  /** A pass over any list, with any failing calls, cut off after `stop` of its effects. */
  datatype Attempt = Attempt(list: Option<seq<string>>, faults: set<Call>, stop: nat)

  /** The directory an attempt leaves behind. */
  function AfterAttempt(fs: Fs, input: Input, a: Attempt): Fs {
    var states := EvidencePass(fs, input, a.list, a.faults).states;
    End(fs, if a.stop < |states| then states[..a.stop] else states)
  }

  function AfterAttempts(fs: Fs, input: Input, attempts: seq<Attempt>): Fs
    decreases |attempts|
  {
    if attempts == [] then fs else AfterAttempts(AfterAttempt(fs, input, attempts[0]), input, attempts[1..])
  }

  lemma AttemptEnd(fs: Fs, input: Input, a: Attempt)
    ensures var states := EvidencePass(fs, input, a.list, a.faults).states;
            AfterAttempt(fs, input, a) == fs || exists i :: 0 <= i < |states| && AfterAttempt(fs, input, a) == states[i]
  {
    var states := EvidencePass(fs, input, a.list, a.faults).states;
    if a.stop < |states| && a.stop > 0 {
      assert states[..a.stop][a.stop - 1] == states[a.stop - 1];
    }
  }

  lemma AttemptKeeps(fs: Fs, input: Input, a: Attempt)
    requires WellFormed(fs)
    ensures WellFormed(AfterAttempt(fs, input, a)) && KeepsFiles(fs, AfterAttempt(fs, input, a))
  {
    PassKeeps(fs, input, a.list, a.faults);
    AttemptEnd(fs, input, a);
    KeepsFilesSame(fs);
  }

  /** Over any sequence of interrupted passes no file that had a name is lost or altered. */
  lemma {:induction false} AttemptsKeep(fs: Fs, input: Input, attempts: seq<Attempt>)
    requires WellFormed(fs)
    ensures WellFormed(AfterAttempts(fs, input, attempts)) && KeepsFiles(fs, AfterAttempts(fs, input, attempts))
    decreases |attempts|
  {
    if attempts == [] {
      KeepsFilesSame(fs);
    } else {
      var next := AfterAttempt(fs, input, attempts[0]);
      AttemptKeeps(fs, input, attempts[0]);
      AttemptsKeep(next, input, attempts[1..]);
      KeepsFilesTrans(fs, next, AfterAttempts(fs, input, attempts));
    }
  }

  /** The key a directory carries: the one at the key path, else the staged one. */
  function KeyOf(fs: Fs): KeyRead {
    if ReadKey(fs).Ok? then ReadKey(fs) else ReadStaged(fs)
  }

  /** The directories carry the same key, and an uninterrupted pass over `names` ends alike from both. */
  ghost predicate SamePass(fs: Fs, s: Fs, input: Input, names: seq<string>) {
    && KeyOf(s) == KeyOf(fs)
    && EvidencePass(s, input, Some(names), {}).verdict == EvidencePass(fs, input, Some(names), {}).verdict
    && End(s, EvidencePass(s, input, Some(names), {}).states) == End(fs, EvidencePass(fs, input, Some(names), {}).states)
  }

  /** With the key installed, every state of a cleanup leads to the same end. */
  lemma CleanupStateSettles(fs: Fs, input: Input, names: seq<string>, faults: set<Call>, k: nat)
    requires WellFormed(fs) && FinalUsable(fs, input, names) && k < |CleanupOwnedStage(fs, faults).states|
    ensures var s := CleanupOwnedStage(fs, faults).states[k];
            WellFormed(s) && FinalUsable(s, input, names) && ReadKey(s) == ReadKey(fs) && SameOutcome(fs, s)
  {
    var s := CleanupOwnedStage(fs, faults).states[k];
    CleanupKeeps(fs, faults);
    CleanupConverges(fs, faults, k);
    CleanupSucceeds(fs);
    CleanupSucceeds(s);
  }

  lemma SameFinal(fs: Fs, s: Fs, input: Input, names: seq<string>)
    requires WellFormed(fs) && FinalUsable(fs, input, names) && WellFormed(s) && FinalUsable(s, input, names)
    requires ReadKey(s) == ReadKey(fs) && SameOutcome(fs, s)
    ensures SamePass(fs, s, input, names)
  {
    FinalSucceeds(fs, input, names);
    FinalSucceeds(s, input, names);
  }

  /** An interrupted pass over an installed key. */
  lemma FinalKept(fs: Fs, input: Input, names: seq<string>, list: Option<seq<string>>, faults: set<Call>, k: nat)
    requires WellFormed(fs) && FinalUsable(fs, input, names) && k < |EvidencePass(fs, input, list, faults).states|
    ensures var s := EvidencePass(fs, input, list, faults).states[k];
            WellFormed(s) && FinalUsable(s, input, names) && SamePass(fs, s, input, names)
  {
    assert Link(fs, StageDir, KEY_FILE, KeyPath).None?;
    assert [] + CleanupOwnedStage(fs, faults).states == CleanupOwnedStage(fs, faults).states;
    CleanupStateSettles(fs, input, names, faults, k);
    SameFinal(fs, CleanupOwnedStage(fs, faults).states[k], input, names);
  }

  /** The states of a pass over a staged key: the installed directory, then those of its cleanup. */
  lemma InstallableStates(fs: Fs, input: Input, names: seq<string>, list: Option<seq<string>>, faults: set<Call>, k: nat)
    requires WellFormed(fs) && Installable(fs, input, names) && k < |EvidencePass(fs, input, list, faults).states|
    requires Link(fs, StageDir, KEY_FILE, KeyPath).Some?
    ensures var r := Link(fs, StageDir, KEY_FILE, KeyPath).value;
            var s := EvidencePass(fs, input, list, faults).states[k];
            if k == 0 then s == r else k - 1 < |CleanupOwnedStage(r, faults).states| && s == CleanupOwnedStage(r, faults).states[k - 1]
  {
  }

  /** An interrupted pass over a staged key that is not installed yet. */
  lemma StagedKept(fs: Fs, input: Input, names: seq<string>, list: Option<seq<string>>, faults: set<Call>, k: nat)
    requires WellFormed(fs) && Installable(fs, input, names) && k < |EvidencePass(fs, input, list, faults).states|
    ensures var s := EvidencePass(fs, input, list, faults).states[k];
            WellFormed(s) && FinalUsable(s, input, names) && SamePass(fs, s, input, names)
  {
    InstalledIsCleanable(fs, input, names);
    LinkKeeps(fs);
    InstallableStates(fs, input, names, list, faults, k);
    InstalledKept(fs, Link(fs, StageDir, KEY_FILE, KeyPath).value, input, names, faults, EvidencePass(fs, input, list, faults).states[k], k);
  }

  lemma InstalledKept(fs: Fs, r: Fs, input: Input, names: seq<string>, faults: set<Call>, s: Fs, k: nat)
    requires WellFormed(fs) && Installable(fs, input, names) && Link(fs, StageDir, KEY_FILE, KeyPath) == Some(r)
    requires WellFormed(r) && FinalUsable(r, input, names)
    requires if k == 0 then s == r else k - 1 < |CleanupOwnedStage(r, faults).states| && s == CleanupOwnedStage(r, faults).states[k - 1]
    ensures WellFormed(s) && FinalUsable(s, input, names) && SamePass(fs, s, input, names)
  {
    hide FinalUsable, Installable, EvidencePass, CleanupOwnedStage, Link, WellFormed, SamePass, SameOutcome, ReadKey;
    InstalledSame(fs, r, input, names);
    if k > 0 {
      CleanupStateSettles(r, input, names, faults, k - 1);
      SameFinal(r, s, input, names);
      SamePassTrans(fs, r, s, input, names);
    }
  }

  lemma SamePassTrans(a: Fs, b: Fs, c: Fs, input: Input, names: seq<string>)
    requires SamePass(a, b, input, names) && SamePass(b, c, input, names)
    ensures SamePass(a, c, input, names)
  {
    hide EvidencePass;
  }

  /** A pass over a staged key and a pass over that key installed end alike. */
  lemma InstalledSame(fs: Fs, r: Fs, input: Input, names: seq<string>)
    requires WellFormed(fs) && Installable(fs, input, names) && Link(fs, StageDir, KEY_FILE, KeyPath) == Some(r)
    requires WellFormed(r) && FinalUsable(r, input, names)
    ensures SamePass(fs, r, input, names)
  {
    InstallableSucceeds(fs, input, names);
    InstalledIsCleanable(fs, input, names);
    FinalSucceeds(r, input, names);
  }

  /** Every state of a pass over a settleable directory is settleable and leads to the same end. */
  lemma PassStateConverges(fs: Fs, input: Input, names: seq<string>, list: Option<seq<string>>, faults: set<Call>, k: nat)
    requires WellFormed(fs) && Settleable(fs, input, names) && k < |EvidencePass(fs, input, list, faults).states|
    ensures var s := EvidencePass(fs, input, list, faults).states[k];
            WellFormed(s) && Settleable(s, input, names) && SamePass(fs, s, input, names)
  {
    if Installable(fs, input, names) {
      StagedKept(fs, input, names, list, faults, k);
    } else {
      FinalKept(fs, input, names, list, faults, k);
    }
  }

  lemma AttemptConverges(fs: Fs, input: Input, names: seq<string>, a: Attempt)
    requires WellFormed(fs) && Settleable(fs, input, names)
    ensures var s := AfterAttempt(fs, input, a);
            WellFormed(s) && Settleable(s, input, names) && SamePass(fs, s, input, names)
  {
    AttemptEnd(fs, input, a);
    var s := AfterAttempt(fs, input, a);
    if s != fs {
      var k :| 0 <= k < |EvidencePass(fs, input, a.list, a.faults).states| && s == EvidencePass(fs, input, a.list, a.faults).states[k];
      PassStateConverges(fs, input, names, a.list, a.faults, k);
    }
  }

  /**
   Once a matching key is staged or installed, any number of interrupted passes over any lists followed by
   one uninterrupted pass that sees the key listed ends as that pass alone would: success with the key at
   the key path and neither private directory.
   */
  lemma {:induction false} AttemptsConverge(fs: Fs, input: Input, names: seq<string>, attempts: seq<Attempt>)
    requires WellFormed(fs) && Settleable(fs, input, names)
    ensures var s := AfterAttempts(fs, input, attempts);
            var p := EvidencePass(s, input, Some(names), {});
            && SamePass(fs, s, input, names) && p.verdict.PassOk?
            && KeySettled(End(s, p.states), input, names, p.verdict.keyReused)
    decreases |attempts|
  {
    if attempts == [] {
      PassSucceeds(fs, input, names);
      PassOkMeaning(fs, input, Some(names), {});
    } else {
      AttemptConverges(fs, input, names, attempts[0]);
      AttemptsConverge(AfterAttempt(fs, input, attempts[0]), input, names, attempts[1..]);
    }
  }

  /** A key the create has just written into the empty staging directory is installable once it is listed. */
  lemma FreshKeyInstallable(fs: Fs, input: Input, names: seq<string>, meta: KeyMeta)
    requires WellFormed(fs) && Lstat(fs, KeyPath).None? && Lstat(fs, CleanupDir).None?
    requires Lstat(fs, StageDir).Some? && Lstat(fs, StageDir).value.1 == Dir(map[])
    requires Matches(input, names, meta)
    ensures var s := WriteNew(fs, StageDir, KEY_FILE, KeyFile(meta));
            WellFormed(s) && Installable(s, input, names) && ReadStaged(s) == KeyRead.Ok(meta)
  {
  }

  /** An uninterrupted pass over a staged key ends with that very key at the key path. */
  lemma InstalledKey(fs: Fs, input: Input, names: seq<string>)
    requires WellFormed(fs) && Installable(fs, input, names)
    ensures ReadKey(End(fs, EvidencePass(fs, input, Some(names), {}).states)) == ReadStaged(fs)
  {
    InstallableSucceeds(fs, input, names);
    InstalledIsCleanable(fs, input, names);
    CleanupSucceeds(Link(fs, StageDir, KEY_FILE, KeyPath).value);
  }
}
