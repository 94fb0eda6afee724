/**
 The service-account key protocol run against one directory: the ownership-bound cleanup, a settlement
 pass with its single create, and the bounded settlement loop, each doing what its specification says.
 */
module KeyProvision {
  import opened Text
  import opened KeyDisk
  import opened StageCleanup
  import opened KeySettle
  import opened KeyConverge

  /** Progress reports of the settlement; attempts count from 1. */
  datatype Event = CheckStarted(attempt: nat) | CheckCompleted(attempt: nat) | WaitStarted(attempt: nat, delayMs: nat)

  const POLL_DELAYS_MS: seq<nat> := [2000, 4000, 8000, 16000, 30000, 30000, 30000]
  const MAX_ATTEMPTS := |POLL_DELAYS_MS| + 1

  /** What a pass meets: the key list, the failing calls, and what a create would leave in the stage. */
  datatype PassEnv = PassEnv(list: Option<seq<string>>, faults: set<Call>, wrote: Option<FileData>)

  /** States behind each effect, keys created and verdict of a pass that may create. */
  datatype CreatePass = CreatePass(states: seq<Fs>, creates: nat, verdict: Verdict)

  datatype Outcome = Done(keyReused: bool) | Failed(code: ErrorCode)

  /** A settlement: states, creates, progress events, outcome, and the number of the last pass. */
  datatype Settlement = Settlement(states: seq<Fs>, creates: nat, events: seq<Event>, outcome: Outcome, last: nat)

  // ---- Specification ----

  function Written(fs: Fs, wrote: Option<FileData>): seq<Fs> {
    match wrote
    case None => []
    case Some(data) => [WriteNew(fs, StageDir, KEY_FILE, data)]
  }

  /** The only place that issues a create: into the prepared and re-verified staging directory. */
  function CreateBranch(fs: Fs, env: PassEnv): CreatePass {
    if MakeStage in env.faults then CreatePass([], 0, PassError(KeyCreateFailed))
    else match Mkdir(fs, StageDir)
      case Some(made) =>
        if VerifyStage in env.faults then CreatePass([made], 0, PassError(KeyCreateFailed))
        else CreatePass([made] + Written(made, env.wrote), 1, PassRetry(KeyCreateUncertain))
      case None =>
        if VerifyStage in env.faults || Lstat(fs, StageDir).None? || !Lstat(fs, StageDir).value.1.Dir? then
          CreatePass([], 0, PassError(KeyCreateFailed))
        else CreatePass(Written(fs, env.wrote), 1, PassRetry(KeyCreateUncertain))
  }

  function SettlePass(fs: Fs, input: Input, env: PassEnv, mayCreate: bool): CreatePass {
    var p := EvidencePass(fs, input, env.list, env.faults);
    if p.noEvidence && mayCreate then CreateBranch(fs, env) else CreatePass(p.states, 0, p.verdict)
  }

  /** The evidence checks from number `attempt` on, none of which creates. */
  function Checks(fs: Fs, input: Input, env: nat -> PassEnv, attempt: nat): Settlement
    requires 1 <= attempt <= MAX_ATTEMPTS
    decreases MAX_ATTEMPTS - attempt
  {
    var p := EvidencePass(fs, input, env(attempt).list, env(attempt).faults);
    var events := [CheckStarted(attempt), CheckCompleted(attempt)];
    match p.verdict
    case PassOk(reused) => Settlement(p.states, 0, events, Done(reused), attempt)
    case PassError(code) => Settlement(p.states, 0, events, Failed(code), attempt)
    case PassRetry(exhausted) =>
      if attempt == MAX_ATTEMPTS then Settlement(p.states, 0, events, Failed(exhausted), attempt)
      else
        var rest := Checks(End(fs, p.states), input, env, attempt + 1);
        Settlement(p.states + rest.states, 0, events + ([WaitStarted(attempt, POLL_DELAYS_MS[attempt - 1])] + rest.events),
                   rest.outcome, rest.last)
  }

  /** The whole settlement; pass 0 is the pre-create pass of a fresh create. */
  function Settle(fs: Fs, input: Input, env: nat -> PassEnv, mayCreate: bool): Settlement {
    if mayCreate then
      var p := SettlePass(fs, input, env(0), true);
      match p.verdict
      case PassOk(reused) => Settlement(p.states, p.creates, [], Done(reused), 0)
      case PassError(code) => Settlement(p.states, p.creates, [], Failed(code), 0)
      case PassRetry(_) =>
        var rest := Checks(End(fs, p.states), input, env, 1);
        Settlement(p.states + rest.states, p.creates, rest.events, rest.outcome, rest.last)
    else Checks(fs, input, env, 1)
  }

  // ---- Safety ----

  lemma {:induction false} EndAppend(fs: Fs, a: seq<Fs>, b: seq<Fs>)
    ensures End(fs, a + b) == End(End(fs, a), b)
  {
    if b != [] {
      assert (a + b)[|a + b| - 1] == b[|b| - 1];
    } else {
      assert a + b == a;
    }
  }

  lemma AllKeepAppend(fs: Fs, a: seq<Fs>, b: seq<Fs>)
    requires WellFormed(fs) && AllKeep(fs, a) && AllKeep(End(fs, a), b)
    ensures AllKeep(fs, a + b)
  {
    KeepsFilesSame(fs);
    forall i | 0 <= i < |b|
      ensures KeepsFiles(fs, b[i])
    {
      KeepsFilesTrans(fs, End(fs, a), b[i]);
    }
  }

  lemma EndWellFormed(fs: Fs, states: seq<Fs>)
    requires WellFormed(fs) && AllKeep(fs, states)
    ensures WellFormed(End(fs, states))
  {
  }

  lemma MkdirKeeps(fs: Fs, name: Name)
    requires WellFormed(fs) && Mkdir(fs, name).Some?
    ensures WellFormed(Mkdir(fs, name).value) && KeepsFiles(fs, Mkdir(fs, name).value)
  {
    var r := Mkdir(fs, name).value;
    NamesKept(fs, r, n => n);
  }

  lemma WriteKeeps(fs: Fs, data: FileData)
    requires WellFormed(fs) && ReadStaged(fs).Absent?
    ensures WellFormed(WriteNew(fs, StageDir, KEY_FILE, data)) && KeepsFiles(fs, WriteNew(fs, StageDir, KEY_FILE, data))
  {
    var r := WriteNew(fs, StageDir, KEY_FILE, data);
    NamesKept(fs, r, n => n);
  }

  lemma CreateKeeps(fs: Fs, env: PassEnv)
    requires WellFormed(fs) && ReadStaged(fs).Absent?
    ensures AllKeep(fs, CreateBranch(fs, env).states)
  {
    if Mkdir(fs, StageDir).Some? {
      var made := Mkdir(fs, StageDir).value;
      MkdirKeeps(fs, StageDir);
      if env.wrote.Some? {
        WriteKeeps(made, env.wrote.value);
      }
      AllKeepAfter(fs, made, Written(made, env.wrote));
      AllKeepAfter(fs, made, []);
    } else if env.wrote.Some? {
      WriteKeeps(fs, env.wrote.value);
    }
  }

  lemma SettlePassKeeps(fs: Fs, input: Input, env: PassEnv, mayCreate: bool)
    requires WellFormed(fs)
    ensures AllKeep(fs, SettlePass(fs, input, env, mayCreate).states)
  {
    if EvidencePass(fs, input, env.list, env.faults).noEvidence && mayCreate {
      CreateKeeps(fs, env);
    } else {
      PassKeeps(fs, input, env.list, env.faults);
    }
  }

  lemma {:induction false} ChecksKeep(fs: Fs, input: Input, env: nat -> PassEnv, attempt: nat)
    requires WellFormed(fs) && 1 <= attempt <= MAX_ATTEMPTS
    ensures AllKeep(fs, Checks(fs, input, env, attempt).states)
    decreases MAX_ATTEMPTS - attempt
  {
    hide EvidencePass;
    var p := EvidencePass(fs, input, env(attempt).list, env(attempt).faults);
    PassKeeps(fs, input, env(attempt).list, env(attempt).faults);
    if p.verdict.PassRetry? && attempt < MAX_ATTEMPTS {
      EndWellFormed(fs, p.states);
      ChecksKeep(End(fs, p.states), input, env, attempt + 1);
      AllKeepAppend(fs, p.states, Checks(End(fs, p.states), input, env, attempt + 1).states);
    }
  }

  /** In every state a settlement reaches, each file that had a name still has one and holds the same data. */
  lemma SettleKeeps(fs: Fs, input: Input, env: nat -> PassEnv, mayCreate: bool)
    requires WellFormed(fs)
    ensures AllKeep(fs, Settle(fs, input, env, mayCreate).states)
  {
    hide EvidencePass, CreateBranch;
    if mayCreate {
      var p := SettlePass(fs, input, env(0), true);
      SettlePassKeeps(fs, input, env(0), true);
      EndWellFormed(fs, p.states);
      ChecksKeep(End(fs, p.states), input, env, 1);
      AllKeepAppend(fs, p.states, Checks(End(fs, p.states), input, env, 1).states);
    } else {
      ChecksKeep(fs, input, env, 1);
    }
  }

  lemma {:induction false} ChecksSettled(fs: Fs, input: Input, env: nat -> PassEnv, attempt: nat)
    requires WellFormed(fs) && 1 <= attempt <= MAX_ATTEMPTS
    ensures var r := Checks(fs, input, env, attempt);
            && attempt <= r.last <= MAX_ATTEMPTS
            && (r.outcome.Done? ==>
                  && env(r.last).list.Some?
                  && KeySettled(End(fs, r.states), input, env(r.last).list.value, r.outcome.keyReused))
    decreases MAX_ATTEMPTS - attempt
  {
    hide EvidencePass;
    var p := EvidencePass(fs, input, env(attempt).list, env(attempt).faults);
    PassOkMeaning(fs, input, env(attempt).list, env(attempt).faults);
    if p.verdict.PassRetry? && attempt < MAX_ATTEMPTS {
      PassKeeps(fs, input, env(attempt).list, env(attempt).faults);
      EndWellFormed(fs, p.states);
      ChecksSettled(End(fs, p.states), input, env, attempt + 1);
      EndAppend(fs, p.states, Checks(End(fs, p.states), input, env, attempt + 1).states);
    }
  }

  /**
   A settlement that reports success leaves the key of this project and account at the key path, listed by
   its last pass as the only key beyond the baseline, with neither private directory left.
   */
  lemma SettleOkMeaning(fs: Fs, input: Input, env: nat -> PassEnv, mayCreate: bool)
    requires WellFormed(fs)
    ensures var r := Settle(fs, input, env, mayCreate);
            && r.last <= MAX_ATTEMPTS
            && (r.outcome.Done? ==>
                  && env(r.last).list.Some?
                  && KeySettled(End(fs, r.states), input, env(r.last).list.value, r.outcome.keyReused))
  {
    hide EvidencePass;
    if mayCreate {
      var p := SettlePass(fs, input, env(0), true);
      PassOkMeaning(fs, input, env(0).list, env(0).faults);
      if p.verdict.PassRetry? {
        SettlePassKeeps(fs, input, env(0), true);
        EndWellFormed(fs, p.states);
        ChecksSettled(End(fs, p.states), input, env, 1);
        EndAppend(fs, p.states, Checks(End(fs, p.states), input, env, 1).states);
      }
    } else {
      ChecksSettled(fs, input, env, 1);
    }
  }

  /**
   A create is issued at most once, only with fresh permission, and only when neither a local key nor a
   post-baseline key is visible; a reconciling settlement never creates.
   */
  lemma CreatesOnce(fs: Fs, input: Input, env: nat -> PassEnv, mayCreate: bool)
    ensures var r := Settle(fs, input, env, mayCreate);
            && r.creates <= 1
            && (r.creates == 1 ==>
                  && mayCreate && env(0).list.Some? && !HasDelta(input, env(0).list.value)
                  && ReadKey(fs).Absent? && (Lstat(fs, StageDir).None? || ReadStaged(fs).Absent?))
  {
    if mayCreate {
      if EvidencePass(fs, input, env(0).list, env(0).faults).noEvidence {
        NoEvidenceMeaning(fs, input, env(0));
      }
      CreateBranchOnce(fs, env(0));
    } else {
      ChecksNeverCreate(fs, input, env, 1);
    }
  }

  /**
   A settlement creates exactly with fresh permission, over a readable list without a new key and a directory without
   any key, into a stage it can make or finds as a directory, when no call of that pass fails.
   */
  lemma CreatesExactly(fs: Fs, input: Input, env: nat -> PassEnv, mayCreate: bool)
    requires WellFormed(fs)
    ensures var first := env(0);
            Settle(fs, input, env, mayCreate).creates == 1 <==>
              && mayCreate && first.list.Some? && !HasDelta(input, first.list.value)
              && FinalRead(fs, first.faults).Absent? && StagedRead(fs, first.faults).Absent?
              && (Lstat(fs, StageDir).None? || Lstat(fs, StageDir).value.1.Dir?)
              && first.faults !! {InspectStage, MakeStage, VerifyStage}
  {
    PassAsksAgain(fs, input, env(0).list, env(0).faults);
    if mayCreate {
      CreateBranchExactly(fs, env(0));
    } else {
      ChecksNeverCreate(fs, input, env, 1);
    }
    hide EvidencePass, CreateBranch;
  }

  lemma CreateBranchExactly(fs: Fs, env: PassEnv)
    ensures CreateBranch(fs, env).creates <= 1
    ensures CreateBranch(fs, env).creates == 1 <==>
              && env.faults !! {MakeStage, VerifyStage}
              && (Mkdir(fs, StageDir).Some? || (Lstat(fs, StageDir).Some? && Lstat(fs, StageDir).value.1.Dir?))
  {
  }

  lemma CreateBranchOnce(fs: Fs, env: PassEnv)
    ensures CreateBranch(fs, env).creates <= 1
  {
  }

  /** A pass without evidence saw no key file, usable or not, and no key beyond the baseline. */
  lemma NoEvidenceMeaning(fs: Fs, input: Input, env: PassEnv)
    requires EvidencePass(fs, input, env.list, env.faults).noEvidence
    ensures env.list.Some? && !HasDelta(input, env.list.value)
    ensures ReadKey(fs).Absent? && (Lstat(fs, StageDir).None? || ReadStaged(fs).Absent?)
  {
  }

  lemma ChecksNeverCreate(fs: Fs, input: Input, env: nat -> PassEnv, attempt: nat)
    requires 1 <= attempt <= MAX_ATTEMPTS
    ensures Checks(fs, input, env, attempt).creates == 0
  {
  }

  // ---- The bounded schedule ----

  function Waited(events: seq<Event>): nat {
    if events == [] then 0
    else (if events[0].WaitStarted? then events[0].delayMs else 0) + Waited(events[1..])
  }

  /** The reports of checks `lo` to `hi`: each check bracketed, each wait numbered after the check before it. */
  function Schedule(lo: nat, hi: nat): seq<Event>
    requires 1 <= lo <= hi <= MAX_ATTEMPTS
    decreases MAX_ATTEMPTS - lo
  {
    var events := [CheckStarted(lo), CheckCompleted(lo)];
    if lo == hi then events else events + ([WaitStarted(lo, POLL_DELAYS_MS[lo - 1])] + Schedule(lo + 1, hi))
  }

  lemma {:induction false} ChecksSchedule(fs: Fs, input: Input, env: nat -> PassEnv, attempt: nat)
    requires 1 <= attempt <= MAX_ATTEMPTS
    ensures var r := Checks(fs, input, env, attempt);
            attempt <= r.last <= MAX_ATTEMPTS && r.events == Schedule(attempt, r.last)
    decreases MAX_ATTEMPTS - attempt
  {
    hide EvidencePass;
    var p := EvidencePass(fs, input, env(attempt).list, env(attempt).faults);
    if p.verdict.PassRetry? && attempt < MAX_ATTEMPTS {
      ChecksSchedule(End(fs, p.states), input, env, attempt + 1);
    }
  }

  lemma {:induction false} WaitedAppend(a: seq<Event>, b: seq<Event>)
    ensures Waited(a + b) == Waited(a) + Waited(b)
  {
    if a == [] {
      assert a + b == b;
    } else {
      assert (a + b)[1..] == a[1..] + b;
      WaitedAppend(a[1..], b);
    }
  }

  /** The first `n` delays together. */
  function DelaySum(n: nat): nat
    requires n <= |POLL_DELAYS_MS|
  {
    if n == 0 then 0 else DelaySum(n - 1) + POLL_DELAYS_MS[n - 1]
  }

  lemma ScheduleStep(lo: nat, rest: seq<Event>, delay: nat)
    ensures Waited([CheckStarted(lo), CheckCompleted(lo)]) == 0
    ensures Waited([CheckStarted(lo), CheckCompleted(lo)] + ([WaitStarted(lo, delay)] + rest)) == delay + Waited(rest)
  {
    var check, wait := [CheckStarted(lo), CheckCompleted(lo)], [WaitStarted(lo, delay)];
    assert check[1..] == [CheckCompleted(lo)];
    WaitedAppend(check, wait + rest);
    WaitedAppend(wait, rest);
  }

  lemma {:induction false} ScheduleWaits(lo: nat, hi: nat)
    requires 1 <= lo <= hi <= MAX_ATTEMPTS
    ensures DelaySum(lo - 1) + Waited(Schedule(lo, hi)) == DelaySum(hi - 1)
    decreases hi - lo
  {
    if lo < hi {
      ScheduleStep(lo, Schedule(lo + 1, hi), POLL_DELAYS_MS[lo - 1]);
      ScheduleWaits(lo + 1, hi);
    } else {
      ScheduleStep(lo, [], 0);
    }
  }

  lemma DelaySumBound(n: nat)
    requires n <= |POLL_DELAYS_MS|
    ensures DelaySum(n) <= 120000
    ensures DelaySum(n) == 120000 <==> n == |POLL_DELAYS_MS|
    ensures DelaySum(n) == [0, 2000, 6000, 14000, 30000, 60000, 90000, 120000][n]
  {
    assert DelaySum(1) == 2000 && DelaySum(2) == 6000;
    assert DelaySum(3) == 14000 && DelaySum(4) == 30000;
    assert DelaySum(5) == 60000 && DelaySum(6) == 90000;
  }

  /**
   A settlement makes at most eight numbered evidence checks with the fixed waits between them, 120 seconds
   of waiting at the most, and all of them exactly when every check asked to try again.
   */
  lemma SettleBounded(fs: Fs, input: Input, env: nat -> PassEnv, mayCreate: bool)
    ensures var r := Settle(fs, input, env, mayCreate);
            && r.last <= MAX_ATTEMPTS == 8
            && r.events == (if r.last == 0 then [] else Schedule(1, r.last))
            && Waited(r.events) <= 120000
            && (Waited(r.events) == 120000 <==> r.last == MAX_ATTEMPTS)
            && Waited(r.events) == [0, 0, 2000, 6000, 14000, 30000, 60000, 90000, 120000][r.last]
            && (r.last == 0 ==> mayCreate)
  {
    SettleSchedule(fs, input, env, mayCreate);
    hide Settle, Schedule, Waited;
    var r := Settle(fs, input, env, mayCreate);
    if r.last > 0 {
      ScheduleWaits(1, r.last);
      DelaySumBound(r.last - 1);
    } else {
      assert Waited([]) == 0 by { NothingWaited(); }
    }
  }

  lemma NothingWaited()
    ensures Waited([]) == 0 && DelaySum(0) == 0
  {
  }

  lemma SettleSchedule(fs: Fs, input: Input, env: nat -> PassEnv, mayCreate: bool)
    ensures var r := Settle(fs, input, env, mayCreate);
            && r.last <= MAX_ATTEMPTS
            && r.events == (if r.last == 0 then [] else Schedule(1, r.last))
            && (r.last == 0 ==> mayCreate)
  {
    hide EvidencePass, CreateBranch, Schedule;
    var p := SettlePass(fs, input, env(0), true);
    if !mayCreate {
      ChecksSchedule(fs, input, env, 1);
    } else if p.verdict.PassRetry? {
      ChecksSchedule(End(fs, p.states), input, env, 1);
    }
  }

  // ---- Which check decides ----

  /** What the settlement makes of the verdict of its last check. */
  function OutcomeOf(verdict: Verdict): Outcome {
    match verdict
    case PassOk(reused) => Done(reused)
    case PassError(code) => Failed(code)
    case PassRetry(exhausted) => Failed(exhausted)
  }

  /** Check number `k` over the directory asks to try again. */
  predicate AsksAgain(fs: Fs, input: Input, env: nat -> PassEnv, k: nat) {
    EvidencePass(fs, input, env(k).list, env(k).faults).verdict.PassRetry?
  }

  /**
   All checks look at the same directory: the first that does not ask to try again, or the eighth, decides the
   settlement, and only that one changes anything.
   */
  lemma {:induction false} FirstDecides(fs: Fs, input: Input, env: nat -> PassEnv, attempt: nat, n: nat)
    requires 1 <= attempt <= n <= MAX_ATTEMPTS
    requires forall k :: attempt <= k < n ==> AsksAgain(fs, input, env, k)
    requires n == MAX_ATTEMPTS || !AsksAgain(fs, input, env, n)
    ensures var r := Checks(fs, input, env, attempt);
            var p := EvidencePass(fs, input, env(n).list, env(n).faults);
            r.last == n && r.states == p.states && r.outcome == OutcomeOf(p.verdict)
    decreases MAX_ATTEMPTS - attempt
  {
    hide EvidencePass;
    if attempt < n {
      assert AsksAgain(fs, input, env, attempt);
      PassAsksAgain(fs, input, env(attempt).list, env(attempt).faults);
      FirstDecides(fs, input, env, attempt + 1, n);
    }
  }

  /** The key is listed by check number `n`, the first to show it; no check before meets a failing call or a new key. */
  ghost predicate ListedAt(input: Input, env: nat -> PassEnv, meta: KeyMeta, n: nat) {
    && 1 <= n <= MAX_ATTEMPTS && env(n).faults == {} && env(n).list.Some? && Matches(input, env(n).list.value, meta)
    && forall k :: 1 <= k < n ==> NotShown(input, env(k), meta)
  }

  ghost predicate NotShown(input: Input, env: PassEnv, meta: KeyMeta) {
    env.faults == {} && env.list.Some? && !HasDelta(input, env.list.value) && !IsActive(input, env.list.value, meta)
  }

  /**
   A key that is staged or installed but not listed yet is waited for: the settlement ends with it at the check that
   first lists it.
   */
  lemma SettlesWhenListed(fs: Fs, input: Input, env: nat -> PassEnv, meta: KeyMeta, n: nat)
    requires WellFormed(fs) && KeyOf(fs) == KeyRead.Ok(meta) && ListedAt(input, env, meta, n)
    requires Settleable(fs, input, env(n).list.value)
    ensures var r := Checks(fs, input, env, 1);
            && r.last == n && r.outcome == Done(BaselineIncludes(input, meta))
            && r.states == EvidencePass(fs, input, env(n).list, {}).states
  {
    forall k | 1 <= k < n
      ensures AsksAgain(fs, input, env, k)
    {
      assert NotShown(input, env(k), meta);
      WaitsForKey(fs, input, env(k), meta, env(n).list.value);
    }
    ReachedVerdict(fs, input, meta, env(n).list.value);
    hide EvidencePass, Checks, Settleable, KeyOf;
    FirstDecides(fs, input, env, 1, n);
  }

  lemma WaitsForKey(fs: Fs, input: Input, env: PassEnv, meta: KeyMeta, names: seq<string>)
    requires WellFormed(fs) && KeyOf(fs) == KeyRead.Ok(meta) && Settleable(fs, input, names) && NotShown(input, env, meta)
    ensures EvidencePass(fs, input, env.list, env.faults).verdict.PassRetry?
  {
    PassAsksAgain(fs, input, env.list, env.faults);
    if ReadKey(fs).Ok? {
      CleanableStage(fs);
    }
    hide EvidencePass;
  }

  lemma ReachedVerdict(fs: Fs, input: Input, meta: KeyMeta, names: seq<string>)
    requires WellFormed(fs) && KeyOf(fs) == KeyRead.Ok(meta) && Settleable(fs, input, names)
    ensures EvidencePass(fs, input, Some(names), {}).verdict == PassOk(BaselineIncludes(input, meta))
  {
    if Installable(fs, input, names) {
      InstallableSucceeds(fs, input, names);
      InstalledIsCleanable(fs, input, names);
    } else {
      FinalSucceeds(fs, input, names);
    }
    hide EvidencePass;
  }

  // ---- The created key is never lost ----

  lemma PassEndConverges(fs: Fs, input: Input, names: seq<string>, list: Option<seq<string>>, faults: set<Call>)
    requires WellFormed(fs) && Settleable(fs, input, names)
    ensures var s := End(fs, EvidencePass(fs, input, list, faults).states);
            WellFormed(s) && Settleable(s, input, names) && SamePass(fs, s, input, names)
  {
    var states := EvidencePass(fs, input, list, faults).states;
    if states != [] {
      PassStateConverges(fs, input, names, list, faults, |states| - 1);
    }
  }

  lemma CheckStates(fs: Fs, input: Input, env: nat -> PassEnv, attempt: nat, i: nat)
    requires 1 <= attempt <= MAX_ATTEMPTS && i < |Checks(fs, input, env, attempt).states|
    ensures var states := EvidencePass(fs, input, env(attempt).list, env(attempt).faults).states;
            var s := Checks(fs, input, env, attempt).states[i];
            if i < |states| then s == states[i]
            else
              && attempt < MAX_ATTEMPTS
              && i - |states| < |Checks(End(fs, states), input, env, attempt + 1).states|
              && s == Checks(End(fs, states), input, env, attempt + 1).states[i - |states|]
  {
  }

  lemma {:induction false} ChecksConverge(fs: Fs, input: Input, env: nat -> PassEnv, attempt: nat, names: seq<string>, i: nat)
    requires WellFormed(fs) && Settleable(fs, input, names) && 1 <= attempt <= MAX_ATTEMPTS
    requires i < |Checks(fs, input, env, attempt).states|
    ensures var s := Checks(fs, input, env, attempt).states[i];
            WellFormed(s) && Settleable(s, input, names) && SamePass(fs, s, input, names)
    decreases MAX_ATTEMPTS - attempt
  {
    var states := EvidencePass(fs, input, env(attempt).list, env(attempt).faults).states;
    CheckStates(fs, input, env, attempt, i);
    if i < |states| {
      PassStateConverges(fs, input, names, env(attempt).list, env(attempt).faults, i);
    } else {
      PassEndConverges(fs, input, names, env(attempt).list, env(attempt).faults);
      ChecksConverge(End(fs, states), input, env, attempt + 1, names, i - |states|);
    }
  }

  /** Over a staged or installed key every state of the checks carries that key and can still be settled on. */
  lemma ChecksSettleable(fs: Fs, input: Input, env: nat -> PassEnv, names: seq<string>)
    requires WellFormed(fs) && Settleable(fs, input, names)
    ensures forall i :: 0 <= i < |Checks(fs, input, env, 1).states| ==>
              Settleable(Checks(fs, input, env, 1).states[i], input, names) && KeyOf(Checks(fs, input, env, 1).states[i]) == KeyOf(fs)
  {
    hide Checks, Settleable, KeyOf, EvidencePass;
    forall i | 0 <= i < |Checks(fs, input, env, 1).states|
      ensures Settleable(Checks(fs, input, env, 1).states[i], input, names) && KeyOf(Checks(fs, input, env, 1).states[i]) == KeyOf(fs)
    {
      ChecksConverge(fs, input, env, 1, names, i);
    }
  }

  /**
   A create that wrote a key of this setup is waited for: the settlement ends with that key at the check that first
   lists it, having created once.
   */
  lemma SettlesCreated(fs: Fs, input: Input, env: nat -> PassEnv, meta: KeyMeta, n: nat)
    requires WellFormed(fs) && NothingLocal(fs) && env(0).wrote == Some(KeyFile(meta)) && ListedAt(input, env, meta, n)
    requires CreateBranch(fs, env(0)).creates == 1 && EvidencePass(fs, input, env(0).list, env(0).faults).noEvidence
    ensures var r := Settle(fs, input, env, true);
            r.creates == 1 && r.last == n && r.outcome == Done(BaselineIncludes(input, meta))
  {
    hide EvidencePass, Matches;
    CreatedIsInstallable(fs, input, env(0), env(n).list.value, meta);
    CreateAsks(fs, env(0));
    hide CreateBranch;
    SettlesWhenListed(End(fs, CreateBranch(fs, env(0)).states), input, env, meta, n);
  }

  lemma CreateAsks(fs: Fs, env: PassEnv)
    requires CreateBranch(fs, env).creates == 1
    ensures CreateBranch(fs, env).verdict.PassRetry?
  {
  }

  /** The staging directory is absent or empty, and no final key or quarantine exists. */
  predicate NothingLocal(fs: Fs) {
    && Lstat(fs, KeyPath).None? && Lstat(fs, CleanupDir).None?
    && (Lstat(fs, StageDir).None? || Lstat(fs, StageDir).value.1 == Dir(map[]))
  }

  lemma CreatedIsInstallable(fs: Fs, input: Input, env: PassEnv, names: seq<string>, meta: KeyMeta)
    requires WellFormed(fs) && NothingLocal(fs) && env.wrote == Some(KeyFile(meta)) && Matches(input, names, meta)
    requires CreateBranch(fs, env).creates == 1
    ensures var s := End(fs, CreateBranch(fs, env).states);
            WellFormed(s) && Installable(s, input, names) && ReadStaged(s) == KeyRead.Ok(meta)
  {
    if Mkdir(fs, StageDir).Some? {
      MkdirKeeps(fs, StageDir);
      FreshKeyInstallable(Mkdir(fs, StageDir).value, input, names, meta);
    } else {
      FreshKeyInstallable(fs, input, names, meta);
    }
  }

  lemma SettleSplit(fs: Fs, input: Input, env: nat -> PassEnv, p: CreatePass)
    requires p == SettlePass(fs, input, env(0), true) && p.verdict.PassRetry?
    ensures Settle(fs, input, env, true).states == p.states + Checks(End(fs, p.states), input, env, 1).states
  {
  }

  lemma SettleCreated(fs: Fs, input: Input, env: nat -> PassEnv)
    requires Settle(fs, input, env, true).creates == 1
    ensures SettlePass(fs, input, env(0), true) == CreateBranch(fs, env(0))
    ensures CreateBranch(fs, env(0)).creates == 1 && CreateBranch(fs, env(0)).verdict.PassRetry?
  {
  }

  lemma CreatedStates(fs: Fs, env: PassEnv)
    requires CreateBranch(fs, env).creates == 1 && env.wrote.Some?
    ensures CreateBranch(fs, env).states != []
  {
  }

  lemma RecoveredFrom(w: Fs, s: Fs, input: Input, names: seq<string>, attempts: seq<Attempt>)
    requires WellFormed(w) && Installable(w, input, names)
    requires WellFormed(s) && Settleable(s, input, names) && SamePass(w, s, input, names)
    ensures var t := AfterAttempts(s, input, attempts);
            var p := EvidencePass(t, input, Some(names), {});
            && p.verdict.PassOk? && KeySettled(End(t, p.states), input, names, p.verdict.keyReused)
            && ReadKey(End(t, p.states)) == ReadStaged(w)
  {
    AttemptsConverge(s, input, names, attempts);
    InstalledKey(w, input, names);
  }

  /**
   From any state after the create wrote its key, whatever the rest of the settlement does and however many
   interrupted passes follow, an uninterrupted pass that sees the key listed ends with exactly that key at
   the key path and neither private directory.
   */
  lemma CreatedKeyRecovered(fs: Fs, input: Input, env: nat -> PassEnv, names: seq<string>, meta: KeyMeta, i: nat,
                            attempts: seq<Attempt>)
    requires WellFormed(fs) && NothingLocal(fs) && env(0).wrote == Some(KeyFile(meta)) && Matches(input, names, meta)
    requires Settle(fs, input, env, true).creates == 1
    requires |CreateBranch(fs, env(0)).states| <= i + 1 <= |Settle(fs, input, env, true).states|
    ensures var s := AfterAttempts(Settle(fs, input, env, true).states[i], input, attempts);
            var p := EvidencePass(s, input, Some(names), {});
            && p.verdict.PassOk? && KeySettled(End(s, p.states), input, names, p.verdict.keyReused)
            && ReadKey(End(s, p.states)) == KeyRead.Ok(meta)
  {
    var n := |CreateBranch(fs, env(0)).states|;
    var w := End(fs, CreateBranch(fs, env(0)).states);
    SettleCreated(fs, input, env);
    SettleSplit(fs, input, env, CreateBranch(fs, env(0)));
    CreatedStates(fs, env(0));
    CreatedIsInstallable(fs, input, env(0), names, meta);
    if i >= n {
      ChecksConverge(w, input, env, 1, names, i - n);
    }
    RecoveredFrom(w, Settle(fs, input, env, true).states[i], input, names, attempts);
  }
}
