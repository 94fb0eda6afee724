/**
 Settlement of the service-account key: what one evidence pass decides and does, and the bounded
 sequence of passes. The cloud key list of each pass is arbitrary, and any filesystem call may fail.
 */
module KeySettle {
  import opened Text
  import opened KeyDisk
  import opened StageCleanup

  datatype ErrorCode = KeyCreateFailed | KeyCreateUncertain

  /** `nameOf` is the resource name of a key id for this project and service account. */
  datatype Input = Input(projectId: string, saEmail: string, nameOf: string -> string, baseline: seq<string>)

  /** What one pass decides from its evidence. */
  datatype Decision = Fail(code: ErrorCode) | Wait(code: ErrorCode) | Clean(reused: bool) | Install(reused: bool) | NoEvidence

  datatype Verdict = PassOk(keyReused: bool) | PassError(code: ErrorCode) | PassRetry(exhausted: ErrorCode)

  /** The states behind each effect of a pass, its verdict, and whether it found no evidence at all. */
  datatype Pass = Pass(states: seq<Fs>, verdict: Verdict, noEvidence: bool)

  predicate IsForThisSetup(input: Input, meta: KeyMeta) {
    meta.projectId == input.projectId && meta.clientEmail == input.saEmail
  }

  predicate IsActive(input: Input, names: seq<string>, meta: KeyMeta) {
    input.nameOf(meta.keyId) in names
  }

  predicate BaselineIncludes(input: Input, meta: KeyMeta) {
    input.nameOf(meta.keyId) in input.baseline
  }

  predicate Foreign(input: Input, read: KeyRead) {
    read.Ok? && !IsForThisSetup(input, read.meta)
  }

  predicate Represents(input: Input, read: KeyRead, name: string) {
    read.Ok? && input.nameOf(read.meta.keyId) == name
  }

  predicate HasDelta(input: Input, names: seq<string>) {
    exists n :: n in names && n !in input.baseline
  }

  /** The code of a local obstacle: uncertain as soon as a post-baseline key is listed. */
  function GuidanceCode(input: Input, names: seq<string>): ErrorCode {
    if HasDelta(input, names) then KeyCreateUncertain else KeyCreateFailed
  }

  function Decide(input: Input, final: KeyRead, staged: KeyRead, names: seq<string>): Decision {
    if Foreign(input, final) || Foreign(input, staged) then Fail(GuidanceCode(input, names))
    else if exists n :: n in names && n !in input.baseline && !Represents(input, final, n) && !Represents(input, staged, n) then
      Fail(KeyCreateUncertain)
    else if final.Ok? && staged.Ok? then
      if final.meta.keyId != staged.meta.keyId then Fail(KeyCreateUncertain)
      else if IsActive(input, names, final.meta) then Clean(BaselineIncludes(input, final.meta))
      else Wait(GuidanceCode(input, names))
    else if staged.Ok? && IsActive(input, names, staged.meta) then Install(BaselineIncludes(input, staged.meta))
    else if final.Invalid? || staged.Invalid? then Fail(GuidanceCode(input, names))
    else if final.Ok? then
      if IsActive(input, names, final.meta) then Clean(BaselineIncludes(input, final.meta))
      else Wait(GuidanceCode(input, names))
    else if staged.Ok? then Wait(GuidanceCode(input, names))
    else NoEvidence
  }

  function CleanPass(before: seq<Fs>, run: Run, reused: bool): Pass {
    Pass(before + run.states, if run.ok then PassOk(reused) else PassError(KeyCreateFailed), false)
  }

  function InstallPass(fs: Fs, staged: KeyRead, reused: bool, faults: set<Call>): Pass {
    var installed := Link(fs, StageDir, KEY_FILE, KeyPath);
    if RecheckStage in faults || LinkKey in faults || installed.None? then Pass([], PassError(KeyCreateFailed), false)
    else if VerifyInstalled in faults || !staged.Ok? || !ReadKey(installed.value).Ok?
            || ReadKey(installed.value).meta.keyId != staged.meta.keyId then
      Pass([installed.value], PassError(KeyCreateFailed), false)
    else CleanPass([installed.value], CleanupOwnedStage(installed.value, faults), reused)
  }

  /** What the pass reads at the key path; a failing read counts as an unusable file. */
  function FinalRead(fs: Fs, faults: set<Call>): KeyRead {
    if ReadKeyPath in faults then Invalid else ReadKey(fs)
  }

  function StagedRead(fs: Fs, faults: set<Call>): KeyRead {
    if Lstat(fs, StageDir).None? then Absent else if ReadStagedKey in faults then Invalid else ReadStaged(fs)
  }

  /** One evidence pass that never creates. `list` is none when listing the keys failed. */
  function EvidencePass(fs: Fs, input: Input, list: Option<seq<string>>, faults: set<Call>): Pass {
    var stage := Lstat(fs, StageDir);
    if InspectStage in faults || (stage.Some? && !stage.value.1.Dir?) then Pass([], PassError(KeyCreateFailed), false)
    else if list.None? then Pass([], PassError(KeyCreateUncertain), false)
    else
      match Decide(input, FinalRead(fs, faults), StagedRead(fs, faults), list.value)
      case Fail(code) => Pass([], PassError(code), false)
      case Wait(code) => Pass([], PassRetry(code), false)
      case NoEvidence => Pass([], PassRetry(KeyCreateUncertain), true)
      case Clean(reused) => CleanPass([], CleanupOwnedStage(fs, faults), reused)
      case Install(reused) => InstallPass(fs, StagedRead(fs, faults), reused, faults)
  }

  // ---- Safety of a pass ----

  lemma LinkKeeps(fs: Fs)
    requires WellFormed(fs) && Link(fs, StageDir, KEY_FILE, KeyPath).Some?
    ensures WellFormed(Link(fs, StageDir, KEY_FILE, KeyPath).value) && KeepsFiles(fs, Link(fs, StageDir, KEY_FILE, KeyPath).value)
  {
    var r := Link(fs, StageDir, KEY_FILE, KeyPath).value;
    NamesKept(fs, r, n => n);
  }

  lemma InstallKeeps(fs: Fs, staged: KeyRead, reused: bool, faults: set<Call>)
    requires WellFormed(fs)
    ensures AllKeep(fs, InstallPass(fs, staged, reused, faults).states)
  {
    if Link(fs, StageDir, KEY_FILE, KeyPath).Some? {
      var installed := Link(fs, StageDir, KEY_FILE, KeyPath).value;
      LinkKeeps(fs);
      CleanupKeeps(installed, faults);
      AllKeepAfter(fs, installed, CleanupOwnedStage(installed, faults).states);
      AllKeepAfter(fs, installed, []);
    }
  }

  /** In every state a pass goes through, each file that had a name still has one and holds the same data. */
  lemma PassKeeps(fs: Fs, input: Input, list: Option<seq<string>>, faults: set<Call>)
    requires WellFormed(fs)
    ensures AllKeep(fs, EvidencePass(fs, input, list, faults).states)
  {
    if list.Some? {
      var d := Decide(input, FinalRead(fs, faults), StagedRead(fs, faults), list.value);
      if d.Clean? {
        CleanupKeeps(fs, faults);
        assert [] + CleanupOwnedStage(fs, faults).states == CleanupOwnedStage(fs, faults).states;
      } else if d.Install? {
        InstallKeeps(fs, StagedRead(fs, faults), d.reused, faults);
      }
    }
  }

  /** The key is for this setup, listed, and the only post-baseline key that is listed. */
  ghost predicate Matches(input: Input, names: seq<string>, meta: KeyMeta) {
    && IsForThisSetup(input, meta) && IsActive(input, names, meta)
    && forall n :: n in names && n !in input.baseline ==> n == input.nameOf(meta.keyId)
  }

  /** The key path holds a key that matches, and both private directories are gone. */
  ghost predicate KeySettled(fs: Fs, input: Input, names: seq<string>, reused: bool) {
    && ReadKey(fs).Ok? && Matches(input, names, ReadKey(fs).meta)
    && Lstat(fs, StageDir).None? && Lstat(fs, CleanupDir).None?
    && (reused <==> BaselineIncludes(input, ReadKey(fs).meta))
  }

  /** A cleanup that reports success left the key where it was and neither private directory. */
  lemma CleanupOkMeaning(fs: Fs, faults: set<Call>)
    requires WellFormed(fs) && CleanupOwnedStage(fs, faults).ok
    ensures Settled(fs, End(fs, CleanupOwnedStage(fs, faults).states))
  {
    SuccessIgnoresFaults(fs, faults);
    CleanupSucceeds(fs);
  }

  /** Linking the staged key makes the key path read as the staged key does. */
  lemma LinkReads(fs: Fs)
    requires WellFormed(fs) && Link(fs, StageDir, KEY_FILE, KeyPath).Some?
    ensures ReadKey(Link(fs, StageDir, KEY_FILE, KeyPath).value) == ReadStaged(fs)
  {
  }

  lemma EndAfter(fs: Fs, next: Fs, rest: seq<Fs>)
    ensures End(fs, [next] + rest) == End(next, rest)
  {
  }

  lemma InstallOkMeaning(fs: Fs, reused: bool, faults: set<Call>)
    requires WellFormed(fs)
    ensures var p := InstallPass(fs, ReadStaged(fs), reused, faults);
            p.verdict.PassOk? ==>
              && p.verdict.keyReused == reused && ReadStaged(fs).Ok? && ReadKey(End(fs, p.states)) == ReadStaged(fs)
              && Lstat(End(fs, p.states), StageDir).None? && Lstat(End(fs, p.states), CleanupDir).None?
  {
    var installed := Link(fs, StageDir, KEY_FILE, KeyPath);
    if InstallPass(fs, ReadStaged(fs), reused, faults).verdict.PassOk? {
      LinkKeeps(fs);
      LinkReads(fs);
      CleanupOkMeaning(installed.value, faults);
      EndAfter(fs, installed.value, CleanupOwnedStage(installed.value, faults).states);
    }
  }

  /** A decision to finish names a local key that matches what is listed. */
  lemma DecisionMatches(input: Input, final: KeyRead, staged: KeyRead, names: seq<string>)
    ensures var d := Decide(input, final, staged, names);
            && (d.Clean? ==> final.Ok? && Matches(input, names, final.meta) && d.reused == BaselineIncludes(input, final.meta))
            && (d.Install? ==> staged.Ok? && !final.Ok? && Matches(input, names, staged.meta) && d.reused == BaselineIncludes(input, staged.meta))
  {
  }

  /** The one key of this setup the directory carries, with nothing unusable or different beside it. */
  function OneLocalKey(input: Input, final: KeyRead, staged: KeyRead): Option<KeyMeta> {
    match (final, staged)
    case (Ok(f), Ok(s)) => if IsForThisSetup(input, f) && IsForThisSetup(input, s) && s.keyId == f.keyId then Some(f) else None
    case (Ok(f), Absent) => if IsForThisSetup(input, f) then Some(f) else None
    case (Absent, Ok(s)) => if IsForThisSetup(input, s) then Some(s) else None
    case _ => None
  }

  /** The directory carries one key of this setup, and neither it nor any key beyond the baseline is listed yet. */
  predicate NotListedYet(input: Input, final: KeyRead, staged: KeyRead, names: seq<string>) {
    var key := OneLocalKey(input, final, staged);
    key.Some? && !IsActive(input, names, key.value) && !HasDelta(input, names)
  }

  /**
   Exactly when a pass goes on to clean up, to install, or to the create, and when it waits: with one key of this
   setup in the directory that the list does not show yet, and no key beyond the baseline in it. Every other
   evidence is an obstacle.
   */
  lemma DecisionExactly(input: Input, final: KeyRead, staged: KeyRead, names: seq<string>)
    ensures var d := Decide(input, final, staged, names);
            && (d.Clean? <==> final.Ok? && Matches(input, names, final.meta)
                              && (staged.Absent? || (staged.Ok? && IsForThisSetup(input, staged.meta) && staged.meta.keyId == final.meta.keyId)))
            && (d.Install? <==> !final.Ok? && staged.Ok? && Matches(input, names, staged.meta))
            && (d.NoEvidence? <==> final.Absent? && staged.Absent? && !HasDelta(input, names))
            && (d.Wait? <==> NotListedYet(input, final, staged, names))
  {
  }

  /** What a pass reports on obstacles, and exactly when it asks to try again; asking again changes nothing. */
  lemma PassAsksAgain(fs: Fs, input: Input, list: Option<seq<string>>, faults: set<Call>)
    ensures var p := EvidencePass(fs, input, list, faults);
            var final, staged := FinalRead(fs, faults), StagedRead(fs, faults);
            var looked := InspectStage !in faults && (Lstat(fs, StageDir).None? || Lstat(fs, StageDir).value.1.Dir?);
            && (!looked ==> p.verdict == PassError(KeyCreateFailed) && p.states == [])
            && (looked && list.None? ==> p.verdict == PassError(KeyCreateUncertain) && p.states == [])
            && (p.verdict.PassRetry? <==>
                  looked && list.Some? && ((final.Absent? && staged.Absent? && !HasDelta(input, list.value))
                                           || NotListedYet(input, final, staged, list.value)))
            && (p.verdict.PassRetry? ==> p.states == [] && p.noEvidence == (final.Absent? && staged.Absent?)
                                         && p.verdict.exhausted == if p.noEvidence then KeyCreateUncertain else KeyCreateFailed)
            && (p.noEvidence ==> p.verdict.PassRetry?)
  {
    if list.Some? {
      DecisionExactly(input, FinalRead(fs, faults), StagedRead(fs, faults), list.value);
      DecisionCodes(input, FinalRead(fs, faults), StagedRead(fs, faults), list.value);
    }
    hide Decide, OneLocalKey;
  }

  /**
   An obstacle is reported as uncertain exactly when a key beyond the baseline is listed or two different
   keys of this setup lie in the directory.
   */
  lemma DecisionCodes(input: Input, final: KeyRead, staged: KeyRead, names: seq<string>)
    ensures var d := Decide(input, final, staged, names);
            d.Fail? || d.Wait? ==>
              (d.code == KeyCreateUncertain <==>
                 || HasDelta(input, names)
                 || (final.Ok? && staged.Ok? && !Foreign(input, final) && !Foreign(input, staged) && final.meta.keyId != staged.meta.keyId))
  {
  }

  /** A pass reports success only over a settled key, whatever failed on the way. */
  lemma PassOkMeaning(fs: Fs, input: Input, list: Option<seq<string>>, faults: set<Call>)
    requires WellFormed(fs)
    ensures var p := EvidencePass(fs, input, list, faults);
            p.verdict.PassOk? ==> list.Some? && KeySettled(End(fs, p.states), input, list.value, p.verdict.keyReused)
  {
    var p := EvidencePass(fs, input, list, faults);
    if p.verdict.PassOk? {
      DecisionMatches(input, FinalRead(fs, faults), StagedRead(fs, faults), list.value);
      var d := Decide(input, FinalRead(fs, faults), StagedRead(fs, faults), list.value);
      if d.Clean? {
        assert [] + CleanupOwnedStage(fs, faults).states == CleanupOwnedStage(fs, faults).states;
        CleanupOkMeaning(fs, faults);
      } else {
        InstallOkMeaning(fs, d.reused, faults);
      }
    }
  }

  // ---- When a pass succeeds, and that crashes do not change it ----

  /** The directory holds one usable copy of a matching key and nothing the cleanup would refuse. */
  ghost predicate Settleable(fs: Fs, input: Input, names: seq<string>) {
    FinalUsable(fs, input, names) || Installable(fs, input, names)
  }

  ghost predicate FinalUsable(fs: Fs, input: Input, names: seq<string>) {
    ReadKey(fs).Ok? && Matches(input, names, ReadKey(fs).meta) && Cleanable(fs)
  }

  ghost predicate Installable(fs: Fs, input: Input, names: seq<string>) {
    && Lstat(fs, KeyPath).None? && Lstat(fs, CleanupDir).None?
    && Entries(fs, StageDir).Keys == {KEY_FILE}
    && ReadStaged(fs).Ok? && Matches(input, names, ReadStaged(fs).meta)
  }

  lemma InstalledIsCleanable(fs: Fs, input: Input, names: seq<string>)
    requires WellFormed(fs) && Installable(fs, input, names)
    ensures Link(fs, StageDir, KEY_FILE, KeyPath).Some?
    ensures var r := Link(fs, StageDir, KEY_FILE, KeyPath).value;
            WellFormed(r) && Cleanable(r) && ReadKey(r) == ReadStaged(fs)
  {
    LinkKeeps(fs);
    var r := Link(fs, StageDir, KEY_FILE, KeyPath).value;
    assert Lstat(r, StageDir) == Lstat(fs, StageDir) && LstatIn(r, StageDir, KEY_FILE) == LstatIn(fs, StageDir, KEY_FILE);
    assert Lstat(r, CleanupDir).None?;
  }

  /** The stage of a cleanable directory holds no key or the very file at the key path. */
  lemma CleanableStage(fs: Fs)
    requires WellFormed(fs) && Cleanable(fs)
    ensures StagedRead(fs, {}).Absent? || StagedRead(fs, {}) == ReadKey(fs)
  {
    if Lstat(fs, StageDir).Some? && Entries(fs, StageDir) != map[] {
      assert KEY_FILE in Entries(fs, StageDir);
    }
  }

  /** With no failing call a pass succeeds exactly on settleable directories. */
  lemma PassSucceeds(fs: Fs, input: Input, names: seq<string>)
    requires WellFormed(fs)
    ensures EvidencePass(fs, input, Some(names), {}).verdict.PassOk? <==> Settleable(fs, input, names)
  {
    if Settleable(fs, input, names) {
      SettleableSucceeds(fs, input, names);
    } else if EvidencePass(fs, input, Some(names), {}).verdict.PassOk? {
      PassOkNeedsSettleable(fs, input, names);
    }
  }

  lemma SettleableSucceeds(fs: Fs, input: Input, names: seq<string>)
    requires WellFormed(fs) && Settleable(fs, input, names)
    ensures EvidencePass(fs, input, Some(names), {}).verdict.PassOk?
  {
    if Installable(fs, input, names) {
      InstallableSucceeds(fs, input, names);
    } else {
      FinalSucceeds(fs, input, names);
    }
  }

  lemma InstallableSucceeds(fs: Fs, input: Input, names: seq<string>)
    requires WellFormed(fs) && Installable(fs, input, names)
    ensures Link(fs, StageDir, KEY_FILE, KeyPath).Some?
    ensures var r := Link(fs, StageDir, KEY_FILE, KeyPath).value;
            && EvidencePass(fs, input, Some(names), {}).verdict == PassOk(BaselineIncludes(input, ReadKey(r).meta))
            && End(fs, EvidencePass(fs, input, Some(names), {}).states) == End(r, CleanupOwnedStage(r, {}).states)
  {
    InstalledIsCleanable(fs, input, names);
    var r := Link(fs, StageDir, KEY_FILE, KeyPath).value;
    CleanupSucceeds(r);
    EndAfter(fs, r, CleanupOwnedStage(r, {}).states);
  }

  lemma FinalSucceeds(fs: Fs, input: Input, names: seq<string>)
    requires WellFormed(fs) && FinalUsable(fs, input, names)
    ensures EvidencePass(fs, input, Some(names), {}).verdict == PassOk(BaselineIncludes(input, ReadKey(fs).meta))
    ensures EvidencePass(fs, input, Some(names), {}).states == CleanupOwnedStage(fs, {}).states
  {
    CleanableStage(fs);
    CleanupSucceeds(fs);
    DecisionExactly(input, FinalRead(fs, {}), StagedRead(fs, {}), names);
    DecisionMatches(input, FinalRead(fs, {}), StagedRead(fs, {}), names);
    hide Decide, Matches, CleanupOwnedStage, Cleanable;
    assert [] + CleanupOwnedStage(fs, {}).states == CleanupOwnedStage(fs, {}).states;
  }

  /** The calls a pass makes to settle on the key at the key path. */
  function FinalCalls(fs: Fs): set<Call> {
    {ReadKeyPath, InspectStage} + (if Lstat(fs, StageDir).Some? then {ReadStagedKey} else {}) + CallsMade(fs)
  }

  /** The calls a pass makes to install the staged key. A failing read of the key path is not among them. */
  function InstallCalls(fs: Fs): set<Call>
    requires Link(fs, StageDir, KEY_FILE, KeyPath).Some?
  {
    {InspectStage, ReadStagedKey, RecheckStage, LinkKey, VerifyInstalled} + CallsMade(Link(fs, StageDir, KEY_FILE, KeyPath).value)
  }

  /** A pass succeeds exactly over a readable list on a settleable directory when none of the calls that takes fails. */
  lemma PassSucceedsUnder(fs: Fs, input: Input, list: Option<seq<string>>, faults: set<Call>)
    requires WellFormed(fs)
    ensures EvidencePass(fs, input, list, faults).verdict.PassOk? <==>
              && list.Some?
              && ((FinalUsable(fs, input, list.value) && faults !! FinalCalls(fs))
                  || (Installable(fs, input, list.value) && Link(fs, StageDir, KEY_FILE, KeyPath).Some? && faults !! InstallCalls(fs)))
  {
    if list.Some? && InspectStage !in faults {
      DecisionExactly(input, FinalRead(fs, faults), StagedRead(fs, faults), list.value);
      var d := Decide(input, FinalRead(fs, faults), StagedRead(fs, faults), list.value);
      hide Decide;
      if d.Install? && Link(fs, StageDir, KEY_FILE, KeyPath).Some? {
        InstallUnder(fs, input, list.value, d.reused, faults);
      } else if d.Clean? {
        CleanUnder(fs, input, list.value, faults);
      }
    }
  }

  lemma InstallUnder(fs: Fs, input: Input, names: seq<string>, reused: bool, faults: set<Call>)
    requires WellFormed(fs) && Link(fs, StageDir, KEY_FILE, KeyPath).Some?
    requires Lstat(fs, StageDir).Some? && ReadStagedKey !in faults && ReadStaged(fs).Ok? && Matches(input, names, ReadStaged(fs).meta)
    requires InspectStage !in faults
    ensures InstallPass(fs, ReadStaged(fs), reused, faults).verdict.PassOk? <==> Installable(fs, input, names) && faults !! InstallCalls(fs)
  {
    LinkKeeps(fs);
    LinkReads(fs);
    CleanupSucceedsUnder(Link(fs, StageDir, KEY_FILE, KeyPath).value, faults);
    hide Matches, CleanupOwnedStage, CallsMade;
  }

  lemma CleanUnder(fs: Fs, input: Input, names: seq<string>, faults: set<Call>)
    requires WellFormed(fs) && ReadKey(fs).Ok? && Matches(input, names, ReadKey(fs).meta) && ReadKeyPath !in faults && InspectStage !in faults
    requires StagedRead(fs, faults).Absent? || StagedRead(fs, faults).Ok?
    ensures CleanupOwnedStage(fs, faults).ok <==> FinalUsable(fs, input, names) && faults !! FinalCalls(fs)
  {
    CleanupSucceedsUnder(fs, faults);
    hide Matches, CleanupOwnedStage, CallsMade;
  }

  lemma PassOkNeedsSettleable(fs: Fs, input: Input, names: seq<string>)
    requires WellFormed(fs) && EvidencePass(fs, input, Some(names), {}).verdict.PassOk?
    ensures Settleable(fs, input, names)
  {
  }
}
