/**
 The host that runs the key protocol: its methods change the directory one call at a time, keep the
 history of states behind them, and are proved to do what the specification functions say.
 */
module KeyHost {
  import opened Text
  import opened KeyDisk
  import opened StageCleanup
  import opened KeySettle
  import opened KeyProvision

  class Host {
    var fs: Fs
    /** Key creates issued so far. */
    var creates: nat
    /** Progress reported so far. */
    var events: seq<Event>
    /** Every state an effect has led to. */
    ghost var history: seq<Fs>

    constructor (start: Fs)
      ensures fs == start && creates == 0 && events == [] && history == []
    {
      fs, creates, events, history := start, 0, [], [];
    }

    /** The host went through exactly these states since the old state. */
    twostate predicate Went(states: seq<Fs>)
      reads this
    {
      history == old(history) + states && fs == End(old(fs), states)
    }

    method Apply(next: Fs)
      modifies this`fs, this`history
      ensures Went([next])
    {
      fs := next;
      history := history + [next];
    }

    method RestoreQuarantine(faults: set<Call>)
      modifies this`fs, this`history
      ensures Went(Restored(old(fs), faults))
    {
      if RestoreStage in faults { return; }
      var restored := RenameDir(fs, CleanupDir, StageDir);
      if restored.Some? {
        Apply(restored.value);
      }
    }

    /** The work on the quarantined directory: every obstacle restores it, and only an owned link is removed. */
    method FinishQuarantine(faults: set<Call>) returns (ok: bool)
      modifies this`fs, this`history
      ensures ok == FinishCleanup(old(fs), faults).ok
      ensures Went(FinishCleanup(old(fs), faults).states)
    {
      var cleanupLst := Lstat(fs, CleanupDir);
      if cleanupLst.None? || !cleanupLst.value.1.Dir? { return false; }
      if SecureCleanup in faults || ListCleanup in faults { return false; }
      var entries := cleanupLst.value.1.entries;
      if entries == map[] {
        if RemoveEmpty in faults { return false; }
        var removed := Rmdir(fs, CleanupDir);
        if removed.None? { return false; }
        Apply(removed.value);
        return true;
      }
      if entries.Keys != {KEY_FILE} || LstatStagedKey in faults || LstatKeyPathAgain in faults || !OwnedKey(fs) {
        RestoreQuarantine(faults);
        return false;
      }
      var unlinked := Unlink(fs, CleanupDir, KEY_FILE);
      if UnlinkStagedKey in faults || unlinked.None? {
        RestoreQuarantine(faults);
        return false;
      }
      Apply(unlinked.value);
      var removed := Rmdir(fs, CleanupDir);
      if RemoveCleanup in faults || removed.None? { return false; }
      Apply(removed.value);
      return true;
    }

    method CleanupStage(faults: set<Call>) returns (ok: bool)
      modifies this`fs, this`history
      ensures ok == CleanupOwnedStage(old(fs), faults).ok
      ensures Went(CleanupOwnedStage(old(fs), faults).states)
    {
      if LstatKeyPath in faults || !IsFile(Lstat(fs, KeyPath)) { return false; }
      if LstatStage in faults || LstatCleanup in faults { return false; }
      var stageLst := Lstat(fs, StageDir);
      var cleanupLst := Lstat(fs, CleanupDir);
      if stageLst.Some? && cleanupLst.Some? { return false; }
      if stageLst.Some? {
        if !stageLst.value.1.Dir? || RenameStage in faults { return false; }
        var moved := RenameDir(fs, StageDir, CleanupDir);
        if moved.None? { return false; }
        Apply(moved.value);
        if LstatMoved in faults { return false; }
        cleanupLst := Lstat(fs, CleanupDir);
      }
      if cleanupLst.None? { return true; }
      ok := FinishQuarantine(faults);
    }

    method InstallAndClean(staged: KeyRead, reused: bool, faults: set<Call>) returns (verdict: Verdict)
      modifies this`fs, this`history
      ensures verdict == InstallPass(old(fs), staged, reused, faults).verdict
      ensures Went(InstallPass(old(fs), staged, reused, faults).states)
    {
      var installed := Link(fs, StageDir, KEY_FILE, KeyPath);
      if RecheckStage in faults || LinkKey in faults || installed.None? { return PassError(KeyCreateFailed); }
      Apply(installed.value);
      var verified := ReadKey(fs);
      if VerifyInstalled in faults || !staged.Ok? || !verified.Ok? || verified.meta.keyId != staged.meta.keyId {
        return PassError(KeyCreateFailed);
      }
      label linked:
      var cleaned := CleanupStage(faults);
      EndAfter(old(fs), installed.value, CleanupOwnedStage(installed.value, faults).states);
      return if cleaned then PassOk(reused) else PassError(KeyCreateFailed);
    }

    method CreateKey(env: PassEnv) returns (verdict: Verdict)
      modifies this`fs, this`history, this`creates
      ensures verdict == CreateBranch(old(fs), env).verdict
      ensures creates == old(creates) + CreateBranch(old(fs), env).creates
      ensures Went(CreateBranch(old(fs), env).states)
    {
      if MakeStage in env.faults { return PassError(KeyCreateFailed); }
      var made := Mkdir(fs, StageDir);
      if made.Some? {
        Apply(made.value);
      }
      var stage := Lstat(fs, StageDir);
      if VerifyStage in env.faults || (made.None? && (stage.None? || !stage.value.1.Dir?)) {
        return PassError(KeyCreateFailed);
      }
      creates := creates + 1;
      if env.wrote.Some? {
        Apply(WriteNew(fs, StageDir, KEY_FILE, env.wrote.value));
      }
      return PassRetry(KeyCreateUncertain);
    }

    /** One settlement pass: evidence first, then at most one action. */
    method RunPass(input: Input, env: PassEnv, mayCreate: bool) returns (verdict: Verdict)
      modifies this`fs, this`history, this`creates
      ensures verdict == SettlePass(old(fs), input, env, mayCreate).verdict
      ensures creates == old(creates) + SettlePass(old(fs), input, env, mayCreate).creates
      ensures Went(SettlePass(old(fs), input, env, mayCreate).states)
    {
      var final := FinalRead(fs, env.faults);
      var stage := Lstat(fs, StageDir);
      if InspectStage in env.faults || (stage.Some? && !stage.value.1.Dir?) { return PassError(KeyCreateFailed); }
      var staged := StagedRead(fs, env.faults);
      if env.list.None? { return PassError(KeyCreateUncertain); }
      match Decide(input, final, staged, env.list.value) {
        case Fail(code) => return PassError(code);
        case Wait(code) => return PassRetry(code);
        case Clean(reused) =>
          var cleaned := CleanupStage(env.faults);
          assert [] + CleanupOwnedStage(old(fs), env.faults).states == CleanupOwnedStage(old(fs), env.faults).states;
          return if cleaned then PassOk(reused) else PassError(KeyCreateFailed);
        case Install(reused) =>
          verdict := InstallAndClean(staged, reused, env.faults);
        case NoEvidence =>
          if mayCreate {
            verdict := CreateKey(env);
          } else {
            return PassRetry(KeyCreateUncertain);
          }
      }
    }

    /** A numbered evidence check, bracketed by its reports. */
    method Check(input: Input, env: PassEnv, attempt: nat) returns (verdict: Verdict)
      modifies this
      ensures verdict == EvidencePass(old(fs), input, env.list, env.faults).verdict
      ensures Went(EvidencePass(old(fs), input, env.list, env.faults).states)
      ensures creates == old(creates)
      ensures events == old(events) + [CheckStarted(attempt), CheckCompleted(attempt)]
    {
      events := events + [CheckStarted(attempt)];
      verdict := RunPass(input, env, false);
      events := events + [CheckCompleted(attempt)];
    }

    /** What is left of a settlement is what its evidence checks from this one on still have to do. */
    twostate predicate Remaining(spec: Settlement, rest: Settlement)
      reads this
    {
      && spec.outcome == rest.outcome
      && creates == old(creates)
      && old(events) + spec.events == events + rest.events
      && old(history) + spec.states == history + rest.states
      && End(old(fs), spec.states) == End(fs, rest.states)
    }

    /** The numbered evidence checks with the waits between them. */
    method Poll(input: Input, env: nat -> PassEnv) returns (outcome: Outcome)
      modifies this
      ensures outcome == Checks(old(fs), input, env, 1).outcome
      ensures creates == old(creates)
      ensures events == old(events) + Checks(old(fs), input, env, 1).events
      ensures Went(Checks(old(fs), input, env, 1).states)
    {
      hide EvidencePass, Checks, Next, End;
      ghost var spec, start := Checks(fs, input, env, 1), fs;
      ghost var events0, history0 := events, history;
      CheckThenNext(fs, input, env, 1);
      var verdict := Check(input, env(1), 1);
      ghost var p := EvidencePass(start, input, env(1).list, env(1).faults);
      ghost var next := Next(fs, input, env, 0, verdict);
      Regrouped(events0, CheckEvents(1), next.events);
      Regrouped(history0, p.states, next.states);
      var check := 0;
      while verdict.PassRetry? && check < |POLL_DELAYS_MS|
        invariant check <= |POLL_DELAYS_MS|
        invariant Remaining(spec, Next(fs, input, env, check, verdict))
        decreases |POLL_DELAYS_MS| - check
      {
        events0, history0, start := events, history, fs;
        WaitThenNext(fs, input, env, check, verdict.exhausted);
        events := events + [WaitStarted(check + 1, POLL_DELAYS_MS[check])];
        verdict := Check(input, env(check + 2), check + 2);
        Regrouped(events0, [WaitStarted(check + 1, POLL_DELAYS_MS[check])], CheckEvents(check + 2));
        check := check + 1;
        p := EvidencePass(start, input, env(check + 1).list, env(check + 1).faults);
        next := Next(fs, input, env, check, verdict);
        Regrouped(events0, [WaitStarted(check, POLL_DELAYS_MS[check - 1])] + CheckEvents(check + 1), next.events);
        Regrouped(history0, p.states, next.states);
      }
      NothingNext(fs, input, env, check, verdict);
      return OutcomeOf(verdict);
    }

    /** The settlement: with fresh permission a pass that may create, then evidence checks until one decides. */
    method SettleServiceAccountKey(input: Input, env: nat -> PassEnv, mayCreate: bool) returns (outcome: Outcome)
      modifies this
      ensures outcome == Settle(old(fs), input, env, mayCreate).outcome
      ensures creates == old(creates) + Settle(old(fs), input, env, mayCreate).creates
      ensures events == old(events) + Settle(old(fs), input, env, mayCreate).events
      ensures Went(Settle(old(fs), input, env, mayCreate).states)
    {
      hide EvidencePass, CreateBranch;
      if mayCreate {
        var first := RunPass(input, env(0), true);
        if first.PassOk? { return Done(first.keyReused); }
        if first.PassError? { return Failed(first.code); }
        EndAppend(old(fs), SettlePass(old(fs), input, env(0), true).states, Checks(fs, input, env, 1).states);
      } else {
        ChecksNeverCreate(fs, input, env, 1);
      }
      outcome := Poll(input, env);
    }
  }

  /** What follows the verdict of check number `check + 1`: nothing once it decided, else the next wait and checks. */
  function Next(fs: Fs, input: Input, env: nat -> PassEnv, check: nat, verdict: Verdict): Settlement
    requires check <= |POLL_DELAYS_MS|
  {
    match verdict
    case PassOk(reused) => Settlement([], 0, [], Done(reused), check + 1)
    case PassError(code) => Settlement([], 0, [], Failed(code), check + 1)
    case PassRetry(exhausted) =>
      if check == |POLL_DELAYS_MS| then Settlement([], 0, [], Failed(exhausted), check + 1)
      else
        var rest := Checks(fs, input, env, check + 2);
        rest.(events := [WaitStarted(check + 1, POLL_DELAYS_MS[check])] + rest.events)
  }

  function CheckEvents(attempt: nat): seq<Event> {
    [CheckStarted(attempt), CheckCompleted(attempt)]
  }

  lemma Regrouped<T>(a: seq<T>, b: seq<T>, c: seq<T>)
    ensures a + b + c == a + (b + c)
  {
  }

  /** `spec` is the pass `p` with its reports, followed by `next`. */
  ghost predicate Follows(fs: Fs, spec: Settlement, p: Pass, reports: seq<Event>, next: Settlement) {
    && spec.outcome == next.outcome
    && spec.states == p.states + next.states
    && spec.events == reports + next.events
    && End(fs, spec.states) == End(End(fs, p.states), next.states)
  }

  lemma CheckThenNext(fs: Fs, input: Input, env: nat -> PassEnv, attempt: nat)
    requires 1 <= attempt <= MAX_ATTEMPTS
    ensures var p := EvidencePass(fs, input, env(attempt).list, env(attempt).faults);
            Follows(fs, Checks(fs, input, env, attempt), p, CheckEvents(attempt),
                    Next(End(fs, p.states), input, env, attempt - 1, p.verdict))
  {
    hide EvidencePass;
    var p := EvidencePass(fs, input, env(attempt).list, env(attempt).faults);
    EndAppend(fs, p.states, Next(End(fs, p.states), input, env, attempt - 1, p.verdict).states);
  }

  lemma WaitThenNext(fs: Fs, input: Input, env: nat -> PassEnv, check: nat, exhausted: ErrorCode)
    requires check < |POLL_DELAYS_MS|
    ensures var p := EvidencePass(fs, input, env(check + 2).list, env(check + 2).faults);
            Follows(fs, Next(fs, input, env, check, PassRetry(exhausted)), p,
                    [WaitStarted(check + 1, POLL_DELAYS_MS[check])] + CheckEvents(check + 2),
                    Next(End(fs, p.states), input, env, check + 1, p.verdict))
  {
    hide EvidencePass, Checks;
    CheckThenNext(fs, input, env, check + 2);
    var p := EvidencePass(fs, input, env(check + 2).list, env(check + 2).faults);
    Regrouped([WaitStarted(check + 1, POLL_DELAYS_MS[check])], CheckEvents(check + 2),
              Next(End(fs, p.states), input, env, check + 1, p.verdict).events);
  }

  lemma NothingNext(fs: Fs, input: Input, env: nat -> PassEnv, check: nat, verdict: Verdict)
    requires check <= |POLL_DELAYS_MS| && (verdict.PassRetry? ==> check == |POLL_DELAYS_MS|)
    ensures var next := Next(fs, input, env, check, verdict);
            && next.states == [] && next.events == [] && End(fs, next.states) == fs
            && next.outcome == OutcomeOf(verdict)
  {
  }
}
