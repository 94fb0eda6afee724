/**
 The setup run: it writes the checkpoint ahead of every remote change, and each of its steps is recorded,
 so that a crash is a choice of one of the recorded worlds to start the next run from.
 */
module SetupFlow {
  import opened Text
  import opened KeyDisk
  import opened StageCleanup
  import opened KeySettle
  import opened KeyConverge
  import opened KeyProvision
  import opened SetupTypes
  import opened SetupWorld
  import KeyHost
  import KeyList
  import G = Paging
  import P = Progress

  datatype SaveReply = Saved | SaveFailed(written: bool)
  datatype Describe = Found | Missing | Unknown
  datatype CreateReply = Made | AlreadyExists | CreateFailed

  /** A create answered with a file, rejected up front with 400 or 403, or lost with or without a file. */
  datatype SheetReply = Created(id: DriveId) | Rejected | Lost(made: Option<DriveId>)

  /** A file of the marker lookup, and whether it passes the title, type and marker checks. */
  datatype ListedFile = ListedFile(id: DriveId, intact: bool)

  datatype WriterRole = RoleCreated | RoleUpgraded | RoleReused
  datatype ShareReply = Ensured(role: WriterRole) | ShareFailed(granted: bool)

  /** Everything a run does not decide itself. */
  datatype Env = Env(
    loggedIn: bool, driveAccess: bool, requested: Option<ProjectId>, generatedId: ProjectId, compatible: bool, keyReadFails: bool,
    describe: Describe, createProject: CreateReply, services: bool,
    keyList: Option<string>, passes: nat -> PassEnv,
    sheetMarker: Marker, createSheet: SheetReply, lookup: G.Server<ListedFile>,
    share: ShareReply, keyRead: bool, verified: bool, envWritten: bool,
    saves: nat -> SaveReply)

  datatype Stop =
    | NotLoggedIn | NoDriveAccess | StateInvalid | StateConflict | ProjectNotFound | ProjectCreateFailed | ServiceFailed
    | StateWriteFailed | KeyFailed(code: ErrorCode) | SheetCreateFailed | SheetCreateUncertain | SheetShareFailed
    | AccessVerifyFailed | OutputWriteFailed

  datatype Step<+T> = Go(value: T) | Halt(stop: Stop)

  class Flow {
    const setup: Setup
    /** The world as it is now. */
    var w: World
    /** Every recorded world of this run, the one it started in first. */
    var trace: seq<World>
    /** Checkpoint writes so far. */
    var saveCount: nat
    /** Phases and resumes reported so far. */
    var reports: seq<P.Event>

    ghost predicate Valid()
      reads this`w, this`trace
    {
      && trace != [] && trace[|trace| - 1] == w
      && AllConsistent(setup, trace) && Chained(trace)
    }

    constructor (setup: Setup, start: World)
      requires Consistent(setup, start)
      ensures Valid() && w == start && trace == [start] && this.setup == setup && saveCount == 0 && reports == []
    {
      this.setup := setup;
      w, trace, saveCount, reports := start, [start], 0, [];
    }

    /** Reports the start of a phase unless the checkpoint vouches for it. */
    method StartPhase(i: nat, vouched: nat)
      requires P.Reached(reports, P.AtLeast(i, vouched)) && i < 10
      modifies this`reports
      ensures P.UnderWay(reports, i, vouched) && P.AllAccepted(reports)
    {
      if vouched <= i {
        P.PhaseStarts(reports, i);
        reports := reports + [P.PhaseStarted(P.PHASES[i])];
      }
    }

    method EndPhase(i: nat, vouched: nat)
      requires P.UnderWay(reports, i, vouched)
      modifies this`reports
      ensures P.Reached(reports, P.AtLeast(i + 1, vouched)) && P.AllAccepted(reports)
    {
      if vouched <= i {
        P.PhaseEnds(reports, i);
        reports := reports + [P.PhaseCompleted(P.PHASES[i], P.Run)];
      }
    }

    method Record(next: World)
      requires Valid() && Consistent(setup, next) && Advances(w, next)
      modifies this`w, this`trace
      ensures Valid() && w == next && trace == old(trace) + [next]
    {
      hide IsDriveId, IsMarker, IsGcpName, Consistent, Advances;
      w := next;
      trace := trace + [next];
    }

    /**
     Writes the checkpoint. A saved one is there for good; a failed write may have put it where the next run finds
     it, but not where it survives a power loss.
     */
    method Persist(next: World, env: Env) returns (ok: bool)
      requires Valid() && Consistent(setup, next) && Advances(w, next) && next.stable == w.stable
      modifies this`w, this`trace, this`saveCount
      ensures Valid() && old(trace) <= trace && saveCount == old(saveCount) + 1
      ensures ok == env.saves(old(saveCount)).Saved?
      ensures ok ==> w == next.(stable := next.disk)
      ensures !ok ==> w == if env.saves(old(saveCount)).written then next else old(w)
    {
      hide Secured, NothingLost, PowerLoss, Behind;
      var reply := env.saves(saveCount);
      saveCount := saveCount + 1;
      if reply.Saved? {
        Synced(setup, next);
        Record(next.(stable := next.disk));
      } else if reply.written {
        Record(next);
      }
      return reply.Saved?;
    }

    /** Reports the phases a checkpoint vouches for. */
    method Resume(loaded: Option<Checkpoint>)
      requires P.Reached(reports, 2)
      modifies this`reports
      ensures P.Reached(reports, P.Vouched(loaded))
    {
      if loaded.Some? {
        var k := P.CheckpointCompleted(loaded.value.stage);
        P.ResumeSkips(reports, k);
        reports := reports + [P.Resumed(P.RESUMABLE[..k])];
      }
    }

    /** What the run finds at the key path, checked against the checkpoint or the requested project. */
    method InspectKey(env: Env, loaded: Option<Checkpoint>) returns (r: Step<bool>)
      requires Valid() && loaded == w.disk
      ensures r.Go? ==> KeyInspected(setup, env, loaded, w.fs, r.value)
      ensures r.Halt? ==> r.stop == StateConflict || r.stop == StateInvalid
      ensures r == Halt(StateConflict) <==>
                Rank(loaded) != 2 && !env.keyReadFails && ReadKey(w.fs).Ok? && !KeyInspected(setup, env, loaded, w.fs, true)
      ensures Rank(loaded) == 2 || (!env.keyReadFails && (Rank(loaded) >= 3 || KeyUsable(setup, env, loaded, w.fs))) ==> r.Go?
      ensures r == Halt(StateInvalid) ==> Refused(setup, env, w, StateInvalid)
    {
      if loaded.Some? && loaded.value.stage.KeyStarted? { return Go(false); }
      if env.keyReadFails { return Halt(StateInvalid); }
      match ReadKey(w.fs) {
        case Invalid => return Halt(StateInvalid);
        case Absent =>
          if Rank(loaded) > 1 { return Halt(StateInvalid); }
          return Go(false);
        case Ok(meta) =>
          var project := if loaded.Some? then Some(loaded.value.projectId) else env.requested;
          if project.None? || !IsForThisSetup(KeyInput(setup, project.value, []), meta) { return Halt(StateConflict); }
          return Go(true);
      }
    }

    /** The project phases: decide and create the project, select it, enable its services and make its account. */
    method SelectProject(env: Env, loaded: Option<Checkpoint>) returns (r: Step<ProjectId>)
      requires Valid() && loaded == w.disk
      requires env.requested.Some? && loaded.Some? ==> env.requested.value == loaded.value.projectId
      requires P.Reached(reports, P.Vouched(loaded))
      modifies this
      ensures P.AllAccepted(reports) && (r.Go? ==> P.Reached(reports, P.AtLeast(5, P.Vouched(loaded))))
      ensures Valid() && old(trace) <= trace
      ensures Rank(loaded) >= 2 ==> r == Go(loaded.value.projectId) && w == old(w)
      ensures Rank(loaded) < 2 ==> Selected(env, loaded, old(w), w, env.saves(old(saveCount)), r)
    {
      hide Valid, Consistent, Advances, IsGcpName, Decided, P.Reached, P.UnderWay, P.AllAccepted, P.Vouched, P.AtLeast;
      P.ReachedAccepted(reports, P.Vouched(loaded));
      P.VouchedProject(loaded);
      if Rank(loaded) >= 2 { return Go(loaded.value.projectId); }
      StartPhase(2, P.Vouched(loaded));
      r := DecideProject(env, loaded);
      if r.Halt? { return; }
      var enabled := EnableServices(env, P.Vouched(loaded));
      if !enabled { return Halt(ServiceFailed); }
    }

    /** The project: decided and recorded before it is created; an explicit one is never created. */
    method DecideProject(env: Env, loaded: Option<Checkpoint>) returns (r: Step<ProjectId>)
      requires Valid() && loaded == w.disk && Rank(loaded) < 2
      requires env.requested.Some? && loaded.Some? ==> env.requested.value == loaded.value.projectId
      modifies this`w, this`trace, this`saveCount
      ensures Valid() && old(trace) <= trace
      ensures Decided(env, loaded, old(w), w, env.saves(old(saveCount)), r)
    {
      hide Consistent, Advances, IsGcpName;
      var mode := if IsExplicit(env, loaded) then Explicit else Generated;
      var projectId := DecidedId(env, loaded);
      if mode.Explicit? && env.describe != Found { return Halt(ProjectNotFound); }
      if loaded.None? {
        ProjectDecidable(setup, w, Checkpoint(projectId, mode, ProjectSelected));
        var saved := Persist(w.(disk := Some(Checkpoint(projectId, mode, ProjectSelected))), env);
        if !saved { return Halt(StateWriteFailed); }
      }
      if mode.Generated? {
        var created := CreateProject(env, loaded);
        if !created { return Halt(ProjectCreateFailed); }
      }
      return Go(projectId);
    }

    /** A generated project is created unless it is found; when its state cannot be told nothing is created. */
    method CreateProject(env: Env, loaded: Option<Checkpoint>) returns (ok: bool)
      requires Valid() && w.disk.Some?
      modifies this`w, this`trace
      ensures Valid() && old(trace) <= trace
      ensures w == old(w).(projects := if loaded.Some? && env.describe != Missing then old(w).projects
                                       else old(w).projects + {old(w).disk.value.projectId})
      ensures ok <==> (loaded.Some? && env.describe == Found) || ((loaded.None? || env.describe == Missing) && !env.createProject.CreateFailed?)
    {
      hide Consistent, Advances;
      if loaded.Some? && env.describe == Found { return true; }
      if loaded.Some? && env.describe == Unknown { return false; }
      ProjectMade(setup, w);
      Record(w.(projects := w.projects + {w.disk.value.projectId}));
      return env.createProject != CreateFailed;
    }

    /** Selects the project, enables its services and makes its account. */
    method EnableServices(env: Env, vouched: nat) returns (ok: bool)
      requires P.UnderWay(reports, 2, vouched)
      modifies this`reports
      ensures ok == env.services && P.AllAccepted(reports)
      ensures ok ==> P.Reached(reports, P.AtLeast(5, vouched))
    {
      hide P.Reached, P.UnderWay, P.AllAccepted, P.AtLeast;
      EndPhase(2, vouched);
      StartPhase(3, vouched);
      if !env.services { return false; }
      EndPhase(3, vouched);
      StartPhase(4, vouched);
      EndPhase(4, vouched);
      return true;
    }

    /** Records the states of evidence passes. */
    method RecordStates(states: seq<Fs>)
      requires Valid() && Rank(w.disk) == 2 && AllKeep(w.fs, states) && AllRecoverable(setup, w, states)
      requires states == [] || w.stable == w.disk
      modifies this`w, this`trace
      ensures Valid() && old(trace) <= trace && w == old(w).(fs := End(old(w).fs, states))
    {
      ghost var start := w;
      for i := 0 to |states|
        invariant Valid() && old(trace) <= trace
        invariant w == start.(fs := End(start.fs, states[..i]))
      {
        KeepsConsistent(setup, start, states[i]);
        Record(w.(fs := states[i]));
      }
      assert states[..|states|] == states;
    }

    /** The pass that may create: the create is recorded between the prepared stage and what it wrote. */
    method CreateOnce(input: Input, env: PassEnv) returns (verdict: Verdict)
      requires Valid() && Rank(w.disk) == 2 && w.stable == w.disk && w.keyCreates == 0 && NothingLocal(w.fs)
      modifies this`w, this`trace
      ensures Valid() && old(trace) <= trace
      ensures verdict == SettlePass(old(w).fs, input, env, true).verdict
      ensures w.fs == End(old(w).fs, SettlePass(old(w).fs, input, env, true).states)
      ensures w == old(w).(fs := w.fs, keyCreates := w.keyCreates, wrote := w.wrote)
      ensures w.keyCreates == SettlePass(old(w).fs, input, env, true).creates
    {
      hide SettlePass, CreateBranch, WellFormed, Consistent, Advances, Recoverable, NothingLocal;
      NothingWrote(setup, w);
      var p := SettlePass(w.fs, input, env, true);
      SettlePassKeeps(w.fs, input, env, true);
      if p.creates == 0 {
        RecordStates(p.states);
        return p.verdict;
      }
      PreparedStage(w.fs, input, env);
      var made := Mkdir(w.fs, StageDir);
      if made.Some? {
        RecordStates([made.value]);
      }
      CreateCounted(setup, w);
      Record(w.(keyCreates := 1));
      if env.wrote.Some? {
        RecordWritten(env.wrote.value);
      }
      return p.verdict;
    }

    /** The created key appears in the prepared stage. */
    method RecordWritten(data: FileData)
      requires Valid() && Rank(w.disk) == 2 && w.stable == w.disk
      requires w.keyCreates == 1 && Writable(w.fs) && NothingLocal(w.fs) && w.wrote.None?
      modifies this`w, this`trace
      ensures Valid() && old(trace) <= trace
      ensures w == old(w).(fs := WriteNew(old(w).fs, StageDir, KEY_FILE, data), wrote := w.wrote)
      ensures data.KeyFile? ==> w.wrote == Some(data.meta)
    {
      hide Consistent, Advances;
      WrittenConsistent(setup, w, data);
      Record(w.(fs := WriteNew(w.fs, StageDir, KEY_FILE, data), wrote := if data.KeyFile? then Some(data.meta) else w.wrote));
    }

    /** Settles the key on a host, and records every state the host goes through. */
    method SettleKey(input: Input, passes: nat -> PassEnv, mayCreate: bool) returns (outcome: Outcome)
      requires Valid() && Rank(w.disk) == 2 && (mayCreate ==> w.stable == w.disk && w.keyCreates == 0 && NothingLocal(w.fs))
      requires input == KeyInput(setup, w.disk.value.projectId, w.disk.value.stage.baseline)
      modifies this`w, this`trace
      ensures Valid() && old(trace) <= trace
      ensures outcome == Settle(old(w).fs, input, passes, mayCreate).outcome
      ensures w.fs == End(old(w).fs, Settle(old(w).fs, input, passes, mayCreate).states)
      ensures w == old(w).(fs := w.fs, keyCreates := w.keyCreates, wrote := w.wrote)
      ensures w.keyCreates == old(w).keyCreates + Settle(old(w).fs, input, passes, mayCreate).creates
      ensures !mayCreate ==> w.keyCreates == old(w).keyCreates
    {
      hide Settle, Consistent;
      var host := new KeyHost.Host(w.fs);
      outcome := host.SettleServiceAccountKey(input, passes, mayCreate);
      RecordSettlement(input, passes, mayCreate);
      assert w.fs == host.fs && w.keyCreates == old(w).keyCreates + host.creates;
    }

    /** The settlement of `KeyProvision.Settle`, recorded state by state. */
    method RecordSettlement(input: Input, passes: nat -> PassEnv, mayCreate: bool)
      requires Valid() && Rank(w.disk) == 2 && (mayCreate ==> w.stable == w.disk && w.keyCreates == 0 && NothingLocal(w.fs))
      requires input == KeyInput(setup, w.disk.value.projectId, w.disk.value.stage.baseline)
      modifies this`w, this`trace
      ensures Valid() && old(trace) <= trace
      ensures w.fs == End(old(w).fs, Settle(old(w).fs, input, passes, mayCreate).states)
      ensures w == old(w).(fs := w.fs, keyCreates := w.keyCreates, wrote := w.wrote)
      ensures w.keyCreates == old(w).keyCreates + Settle(old(w).fs, input, passes, mayCreate).creates
      ensures !mayCreate ==> w.keyCreates == old(w).keyCreates
    {
      hide EvidencePass, SettlePass, Checks;
      if mayCreate {
        ghost var start := w.fs;
        var first := CreateOnce(input, passes(0));
        if !first.PassRetry? { return; }
        EndAppend(start, SettlePass(start, input, passes(0), true).states, Checks(w.fs, input, passes, 1).states);
      } else {
        ChecksNeverCreate(w.fs, input, passes, 1);
      }
      var rest := Checks(w.fs, input, passes, 1);
      ChecksKeep(w.fs, input, passes, 1);
      ChecksRecoverable(setup, w, input, passes);
      if w.stable != w.disk {
        NothingToSettle(setup, w, input, passes);
      }
      RecordStates(rest.states);
    }

    /** Settles a key whose create has been recorded; only the run that recorded it may create. */
    method SettleStarted(env: Env, projectId: string, baseline: seq<string>, mayCreate: bool) returns (outcome: Outcome)
      requires Valid() && Rank(w.disk) == 2 && w.disk.value.projectId == projectId && w.disk.value.stage.baseline == baseline
      requires mayCreate ==> w.stable == w.disk && w.keyCreates == 0
      requires mayCreate ==> ReadKey(w.fs).Absent? && Lstat(w.fs, StageDir).None? && Lstat(w.fs, CleanupDir).None?
      modifies this`w, this`trace
      ensures Valid() && old(trace) <= trace
      ensures w == old(w).(fs := w.fs, keyCreates := w.keyCreates, wrote := w.wrote)
      ensures !mayCreate ==> w.keyCreates == old(w).keyCreates
      ensures w.baseline == Some(baseline)
      ensures outcome.Done? ==> KeySecured(setup, w.fs, projectId, Some(baseline), outcome.keyReused)
      ensures !mayCreate && CleanReconcile(KeyInput(setup, projectId, baseline), old(w).fs, env.passes) ==> outcome.Done?
      ensures mayCreate && CleanCreate(KeyInput(setup, projectId, baseline), env.passes) ==> outcome.Done?
      ensures outcome == Settle(old(w).fs, KeyInput(setup, projectId, baseline), env.passes, mayCreate).outcome
    {
      hide EvidencePass, Settle, Settleable, Matches;
      var input := KeyInput(setup, projectId, baseline);
      SettledKey(setup, w.fs, projectId, baseline, env.passes, mayCreate);
      if !mayCreate && CleanReconcile(input, w.fs, env.passes) {
        ReconcileSucceeds(w.fs, input, env.passes);
      }
      if mayCreate && CleanCreate(input, env.passes) {
        CreateSucceeds(w.fs, input, env.passes);
      }
      outcome := SettleKey(input, env.passes, mayCreate);
    }

    /** Reads the baseline, records it with the started create, and settles what this run alone may create. */
    method CreateFresh(env: Env, projectId: string) returns (r: Step<bool>)
      requires Valid() && Rank(w.disk) == 1 && w.disk.value.projectId == projectId && ReadKey(w.fs).Absent?
      modifies this`w, this`trace, this`saveCount
      ensures Valid() && old(trace) <= trace
      ensures w.disk.Some? && w.disk.value.projectId == projectId && w.disk.value.mode == old(w.disk.value.mode)
      ensures r.Go? ==> Rank(w.disk) == 2 && KeySecured(setup, w.fs, projectId, w.baseline, r.value)
      ensures env.keyList.Some? && CleanList(setup, env, projectId, env.keyList.value) && AllSaved(env) ==> r.Go?
      ensures r.Halt? ==> r.stop.KeyFailed? || (r.stop == StateWriteFailed && !AllSaved(env))
      ensures env.keyList.None? || !KeyList.Readable(env.keyList.value, projectId, setup.emailOf(projectId)) ==> r == Halt(KeyFailed(KeyCreateFailed)) && w == old(w)
      ensures r.Go? || r.stop.KeyFailed? ==> env.keyList.None? || !KeyList.Readable(env.keyList.value, projectId, setup.emailOf(projectId)) || SettledAs(setup, env, old(w).fs, projectId, w.disk.value.stage, r)
    {
      hide EvidencePass, Settle, Consistent, Advances, CleanCreate, CleanReconcile, KeySecured, KeyList.ReadsAs, KeyList.Readable, IsGcpName;
      if env.keyList.None? { return Halt(KeyFailed(KeyCreateFailed)); }
      var listed := KeyList.ParseUserManagedKeyList(env.keyList.value, projectId, setup.emailOf(projectId));
      if listed.None? { return Halt(KeyFailed(KeyCreateFailed)); }
      var baseline := listed.value;
      NothingStaged(setup, w);
      KeyStartedConsistent(setup, w, baseline);
      var saved := Persist(Moved(w, KeyStarted(baseline)).(baseline := Some(baseline)), env);
      if !saved { return Halt(StateWriteFailed); }
      var outcome := SettleStarted(env, projectId, baseline, true);
      if outcome.Failed? { return Halt(KeyFailed(outcome.code)); }
      return Go(outcome.keyReused);
    }

    /** The key phase: at most one create, issued only by the run that has just written its checkpoint. */
    method SecureKey(env: Env, loaded: Option<Checkpoint>, projectId: string, found: bool) returns (r: Step<KeyOrigin>)
      requires Valid() && Rank(w.disk) >= 1 && w.disk.value.projectId == projectId
      requires if Rank(loaded) >= 1 then w.disk == loaded else Rank(w.disk) == 1
      requires if found then
                 Rank(loaded) != 2 && ReadKey(w.fs).Ok? && IsForThisSetup(KeyInput(setup, projectId, []), ReadKey(w.fs).meta)
               else Rank(loaded) == 2 || (Rank(loaded) <= 1 && ReadKey(w.fs).Absent?)
      modifies this`w, this`trace, this`saveCount
      ensures Valid() && old(trace) <= trace
      ensures w.disk.Some? && w.disk.value.projectId == projectId && w.disk.value.mode == old(w.disk.value.mode)
      ensures Rank(loaded) >= 3 ==> r == Go(loaded.value.stage.origin) && w == old(w)
      ensures r.Go? ==> if Rank(loaded) >= 3 then w.disk == loaded else w.disk.value.stage == KeyReady(r.value)
      ensures Rank(loaded) == 2 || found ==> w.keyCreates == old(w).keyCreates
      ensures CleanKey(setup, env, old(w), loaded, projectId, found) && AllSaved(env) ==> r.Go?
      ensures r.Halt? ==> Explained(env, loaded, r.stop)
      ensures Rank(loaded) == 2 && r.Halt? && r.stop.KeyFailed? ==> Settle(old(w).fs, KeyInput(setup, projectId, loaded.value.stage.baseline), env.passes, false).outcome == Failed(r.stop.code)
    {
      hide EvidencePass, Settle, Consistent, Advances, CleanList, CleanReconcile, IsGcpName, AllSaved, Explained;
      if Rank(loaded) >= 3 { return Go(loaded.value.stage.origin); }
      var reused := found;
      if Rank(loaded) == 2 {
        var outcome := SettleStarted(env, projectId, loaded.value.stage.baseline, false);
        if outcome.Failed? {
          KeyExplains(env, loaded, outcome.code);
          return Halt(KeyFailed(outcome.code));
        }
        reused := outcome.keyReused;
      } else if !found {
        var created := CreateFresh(env, projectId);
        if created.Halt? {
          FreshExplains(env, loaded, created.stop);
          return Halt(created.stop);
        }
        reused := created.value;
      } else {
        NothingStaged(setup, w);
      }
      var origin := if reused then KeyReused else KeyCreated;
      KeyReadyConsistent(setup, w, reused);
      SaveReplied(env, saveCount);
      var saved := Persist(Moved(w, KeyReady(origin)), env);
      if !saved {
        SaveExplains(env, loaded);
        return Halt(StateWriteFailed);
      }
      return Go(origin);
    }

    /** Promotes the file a lookup shows, or leaves the outcome uncertain. */
    method SettleMatches(env: Env, origin: KeyOrigin, matches: seq<ListedFile>) returns (r: Step<DriveId>)
      requires Valid() && Rank(w.disk) == 4 && w.disk.value.stage.origin == origin
      requires forall m :: m in matches ==> Sheet(m.id, w.disk.value.stage.marker) in w.sheets
      modifies this`w, this`trace, this`saveCount
      ensures Valid() && old(trace) <= trace && w == old(w).(disk := w.disk, stable := w.stable)
      ensures w.disk.Some? && w.disk.value.projectId == old(w.disk.value.projectId) && w.disk.value.mode == old(w.disk.value.mode)
      ensures r.Go? ==> w.disk.value.stage == SheetCreated(r.value, origin)
      ensures r.Go? <==> |matches| == 1 && matches[0].intact && env.saves(old(saveCount)).Saved?
      ensures r.Halt? && r.stop != StateWriteFailed ==> w == old(w) && r.stop == SheetCreateUncertain
      ensures r == Halt(StateWriteFailed) ==> |matches| == 1 && matches[0].intact && !env.saves(old(saveCount)).Saved?
    {
      hide IsDriveId, IsMarker, IsGcpName, Consistent, Advances;
      if |matches| != 1 || !matches[0].intact { return Halt(SheetCreateUncertain); }
      OneSheet(setup, w, Sheet(matches[0].id, w.disk.value.stage.marker));
      MoveStage(setup, w, SheetCreated(matches[0].id, origin));
      var saved := Persist(Moved(w, SheetCreated(matches[0].id, origin)), env);
      if !saved { return Halt(StateWriteFailed); }
      return Go(matches[0].id);
    }

    /** The files that carry the marker, or none when the listing breaks off. */
    method FindByMarker(env: Env, marker: Marker) returns (matches: Option<seq<ListedFile>>)
      requires Valid() && Rank(w.disk) == 4 && w.disk.value.stage.marker == marker
      ensures matches.Some? <==> WholeListing(env.lookup)
      ensures matches.Some? ==> forall m :: m in matches.value ==> Sheet(m.id, marker) in w.sheets
      ensures matches.Some? && w.sheets == [] ==> matches.value == []
      ensures matches.Some? && w.sheets != [] ==>
                (CleanLookup(env, w.sheets[0].id) <==> matches.value == [ListedFile(w.sheets[0].id, true)])
      ensures matches.None? && w.sheets != [] ==> !CleanLookup(env, w.sheets[0].id)
      ensures matches.Some? && w.sheets != [] ==> forall m :: m in matches.value ==> m.id == w.sheets[0].id
    {
      hide IsDriveId, IsMarker, IsGcpName, Consistent, G.Reads;
      var files, calls := G.ListAll(env.lookup);
      if files.None? { return None; }
      var shown := Matching(files.value, marker, w.sheets);
      if w.sheets != [] {
        MatchingOne(setup, w, env, calls);
      }
      return Some(shown);
    }

    /** Reconciles a create by its marker. A rejected create with no matching file goes back to `key_ready`. */
    method Reconcile(env: Env, marker: Marker, origin: KeyOrigin, rejected: bool) returns (r: Step<DriveId>)
      requires Valid() && Rank(w.disk) == 4 && w.disk.value.stage == SheetStarted(marker, origin)
      requires rejected ==> w.sheets == []
      modifies this`w, this`trace, this`saveCount
      ensures Valid() && old(trace) <= trace && w == old(w).(disk := w.disk, stable := w.stable)
      ensures w.disk.Some? && w.disk.value.projectId == old(w.disk.value.projectId) && w.disk.value.mode == old(w.disk.value.mode)
      ensures r.Go? ==> w.disk.value.stage == SheetCreated(r.value, origin)
      ensures r.Halt? && r.stop == SheetCreateFailed ==> rejected && w.disk.value.stage == KeyReady(origin)
      ensures r.Halt? && r.stop == SheetCreateUncertain ==> w == old(w)
      ensures !WholeListing(env.lookup) ==> r == Halt(SheetCreateUncertain)
      ensures rejected && WholeListing(env.lookup) ==> r == Halt(if env.saves(old(saveCount)).Saved? then SheetCreateFailed else StateWriteFailed)
      ensures r.Go? <==> w.sheets != [] && CleanLookup(env, w.sheets[0].id) && env.saves(old(saveCount)).Saved?
      ensures r == Halt(StateWriteFailed) ==> !env.saves(old(saveCount)).Saved?
      ensures r.Halt? ==> r.stop in {StateWriteFailed, SheetCreateFailed, SheetCreateUncertain}
    {
      hide IsDriveId, IsMarker, IsGcpName, Consistent, Advances, WholeListing, CleanLookup;
      var found := FindByMarker(env, marker);
      if found.None? { return Halt(SheetCreateUncertain); }
      var matches := found.value;
      if rejected && |matches| == 0 {
        MoveStage(setup, w, KeyReady(origin));
        var saved := Persist(Moved(w, KeyReady(origin)), env);
        return Halt(if saved then SheetCreateFailed else StateWriteFailed);
      }
      r := SettleMatches(env, origin, matches);
    }

    /** The one create attempt of a marker, after its checkpoint. */
    method CreateSheet(env: Env, origin: KeyOrigin) returns (r: Step<DriveId>)
      requires Valid() && Rank(w.disk) == 3 && w.disk.value.stage == KeyReady(origin)
      modifies this`w, this`trace, this`saveCount
      ensures Valid() && old(trace) <= trace && w == old(w).(disk := w.disk, sheets := w.sheets, stable := w.stable)
      ensures w.disk.Some? && w.disk.value.projectId == old(w.disk.value.projectId) && w.disk.value.mode == old(w.disk.value.mode)
      ensures r.Go? ==> w.disk.value.stage == SheetCreated(r.value, origin)
      ensures CleanCreateSheet(env) && AllSaved(env) ==> r.Go?
      ensures r.Go? ==> CleanCreateSheet(env)
      ensures env.createSheet.Rejected? && WholeListing(env.lookup) && AllSaved(env) ==> r == Halt(SheetCreateFailed)
      ensures r == Halt(SheetCreateFailed) ==> w == old(w).(disk := w.disk, stable := w.stable) && w.disk.value.stage == KeyReady(origin)
      ensures !env.saves(old(saveCount)).Saved? ==> r == Halt(StateWriteFailed)
      ensures r.Halt? ==> r.stop in {StateWriteFailed, SheetCreateFailed, SheetCreateUncertain}
      ensures r == Halt(StateWriteFailed) ==> !AllSaved(env)
      ensures r == Halt(SheetCreateUncertain) ==> !env.createSheet.Created?
      ensures r == Halt(SheetCreateFailed) ==> env.createSheet.Rejected?
    {
      hide IsDriveId, IsMarker, IsGcpName, Consistent, Advances;
      MoveStage(setup, w, SheetStarted(env.sheetMarker, origin));
      var saved := Persist(Moved(w, SheetStarted(env.sheetMarker, origin)), env);
      if !saved { return Halt(StateWriteFailed); }
      NoSheetYet(setup, old(w));
      match env.createSheet {
        case Rejected =>
          r := Reconcile(env, env.sheetMarker, origin, true);
        case Lost(made) =>
          r := SettleLost(env, made, origin);
        case Created(id) =>
          r := PromoteCreated(env, id, origin);
      }
    }

    /** A create whose reply is lost, with or without a file, is reconciled. */
    method SettleLost(env: Env, made: Option<DriveId>, origin: KeyOrigin) returns (r: Step<DriveId>)
      requires Valid() && w.disk.Some? && w.disk.value.stage == SheetStarted(env.sheetMarker, origin) && w.sheets == []
      requires w.stable == w.disk
      modifies this`w, this`trace, this`saveCount
      ensures Valid() && old(trace) <= trace && w == old(w).(disk := w.disk, sheets := w.sheets, stable := w.stable)
      ensures w.disk.Some? && w.disk.value.projectId == old(w.disk.value.projectId) && w.disk.value.mode == old(w.disk.value.mode)
      ensures r.Go? ==> w.disk.value.stage == SheetCreated(r.value, origin)
      ensures r.Go? <==> made.Some? && CleanLookup(env, made.value) && env.saves(old(saveCount)).Saved?
      ensures r != Halt(SheetCreateFailed)
      ensures r.Halt? ==> r.stop in {StateWriteFailed, SheetCreateFailed, SheetCreateUncertain}
      ensures r == Halt(StateWriteFailed) ==> !AllSaved(env)
    {
      hide IsDriveId, IsMarker, IsGcpName, Consistent, Advances, CleanLookup;
      if made.Some? {
        SheetMade(setup, w, Sheet(made.value, env.sheetMarker));
        Record(w.(sheets := [Sheet(made.value, env.sheetMarker)]));
      }
      r := Reconcile(env, env.sheetMarker, origin, false);
    }

    /** The spreadsheet of an answered create is recorded by its id. */
    method PromoteCreated(env: Env, id: DriveId, origin: KeyOrigin) returns (r: Step<DriveId>)
      requires Valid() && w.disk.Some? && w.disk.value.stage == SheetStarted(env.sheetMarker, origin) && w.sheets == []
      requires w.stable == w.disk
      modifies this`w, this`trace, this`saveCount
      ensures Valid() && old(trace) <= trace && w == old(w).(disk := w.disk, sheets := w.sheets, stable := w.stable)
      ensures w.disk.Some? && w.disk.value.projectId == old(w.disk.value.projectId) && w.disk.value.mode == old(w.disk.value.mode)
      ensures r.Go? ==> r.value == id && w.disk.value.stage == SheetCreated(id, origin)
      ensures r.Go? <==> env.saves(old(saveCount)).Saved?
      ensures r.Halt? ==> r.stop == StateWriteFailed
    {
      hide IsDriveId, IsMarker, IsGcpName, Consistent, Advances;
      SheetMade(setup, w, Sheet(id, env.sheetMarker));
      Record(w.(sheets := [Sheet(id, env.sheetMarker)]));
      MoveStage(setup, w, SheetCreated(id, origin));
      var promoted := Persist(Moved(w, SheetCreated(id, origin)), env);
      if !promoted { return Halt(StateWriteFailed); }
      r := Go(id);
    }

    /** The spreadsheet: by stored id, by marker, or by a fresh create. */
    method SecureSheet(env: Env, loaded: Option<Checkpoint>, origin: KeyOrigin) returns (r: Step<DriveId>)
      requires Valid() && Rank(w.disk) >= 3 && w.disk.value.stage.origin == origin
      requires if Rank(loaded) >= 3 then w.disk == loaded else w.disk.value.stage == KeyReady(origin)
      modifies this`w, this`trace, this`saveCount
      ensures Valid() && old(trace) <= trace && w == old(w).(disk := w.disk, sheets := w.sheets, stable := w.stable)
      ensures w.disk.Some? && w.disk.value.projectId == old(w.disk.value.projectId) && w.disk.value.mode == old(w.disk.value.mode)
      ensures Rank(loaded) >= 4 ==> w.sheets == old(w.sheets)
      ensures r.Go? ==> if Rank(loaded) >= 5 then w.disk == loaded && r.value == loaded.value.stage.id
                        else w.disk.value.stage == SheetCreated(r.value, origin)
      ensures Rank(loaded) >= 5 ==> r.Go?
      ensures Rank(loaded) == 4 && w.sheets != [] && CleanLookup(env, w.sheets[0].id) && AllSaved(env) ==> r.Go?
      ensures Rank(loaded) <= 3 && CleanCreateSheet(env) && AllSaved(env) ==> r.Go?
      ensures Rank(loaded) <= 3 && SheetRejected(env) && AllSaved(env) ==> r == Halt(SheetCreateFailed) && w.disk.value.stage == KeyReady(origin)
      ensures r.Halt? ==> Explained(env, loaded, r.stop)
      ensures Rank(loaded) == 4 && r.Halt? ==> r.stop == StateWriteFailed || (r.stop == SheetCreateUncertain && w == old(w))
    {
      hide IsDriveId, IsMarker, IsGcpName, Valid, Consistent, Advances, CleanLookup, CleanCreateSheet, WholeListing, AllSaved, Explained;
      if Rank(loaded) >= 5 { return Go(loaded.value.stage.id); }
      if Rank(loaded) == 4 {
        SaveReplied(env, saveCount);
        r := Reconcile(env, loaded.value.stage.marker, origin, false);
      } else {
        r := CreateSheet(env, origin);
      }
      if r.Halt? {
        SheetExplains(env, loaded, r.stop);
      }
    }

    /** The share: its provenance is fresh when this attempt, or an attempt before it, may have made the permission. */
    method ShareSheet(env: Env, loaded: Option<Checkpoint>, id: DriveId, origin: KeyOrigin) returns (r: Step<ShareOrigin>)
      requires Valid() && Rank(w.disk) >= 5 && w.disk.value.stage.origin == origin && w.disk.value.stage.id == id
      requires if Rank(loaded) >= 5 then w.disk == loaded else w.disk.value.stage == SheetCreated(id, origin)
      modifies this`w, this`trace, this`saveCount
      ensures Valid() && old(trace) <= trace && w == old(w).(disk := w.disk, granted := w.granted, stable := w.stable)
      ensures w.disk.Some? && w.disk.value.projectId == old(w.disk.value.projectId) && w.disk.value.mode == old(w.disk.value.mode)
      ensures Rank(w.disk) >= 5 && w.disk.value.stage.origin == origin && w.disk.value.stage.id == id
      ensures r.Go? ==> if Rank(loaded) >= 7 then w.disk == loaded && r.value == loaded.value.stage.share
                        else w.disk.value.stage == Shared(id, origin, r.value)
      ensures Rank(loaded) >= 7 || (env.share.Ensured? && AllSaved(env)) ==> r.Go?
      ensures r.Go? && Rank(loaded) < 7 ==>
                env.share.Ensured? && (r.value == ShareFresh <==> env.share.role != RoleReused || Rank(loaded) == 6)
      ensures Rank(loaded) <= 5 && env.saves(old(saveCount)) == SaveFailed(true) ==> w == old(w).(disk := Some(w.disk.value)) && Rank(w.disk) == 6
      ensures Rank(loaded) == 6 && env.share.Ensured? && env.share.role != RoleReused && env.saves(old(saveCount)) == SaveFailed(false) ==>
                w == old(w).(granted := true)
      ensures r.Halt? ==> Explained(env, loaded, r.stop)
    {
      hide IsDriveId, IsMarker, IsGcpName, Consistent, Advances;
      if Rank(loaded) >= 7 { return Go(loaded.value.stage.share); }
      var startedLoaded := Rank(loaded) == 6;
      if !startedLoaded {
        NotGranted(setup, w);
        MoveStage(setup, w, ShareStarted(id, origin));
        var saved := Persist(Moved(w, ShareStarted(id, origin)), env);
        if !saved { return Halt(StateWriteFailed); }
      }
      r := Ensure(env, id, origin, startedLoaded);
    }

    /** The idempotent permission ensure and the checkpoint after it. */
    method Ensure(env: Env, id: DriveId, origin: KeyOrigin, startedLoaded: bool) returns (r: Step<ShareOrigin>)
      requires Valid() && Rank(w.disk) == 6 && w.disk.value.stage == ShareStarted(id, origin)
      requires w.granted && !w.lost ==> startedLoaded
      modifies this`w, this`trace, this`saveCount
      ensures Valid() && old(trace) <= trace && w == old(w).(disk := w.disk, granted := w.granted, stable := w.stable)
      ensures w.disk.Some? && w.disk.value.projectId == old(w.disk.value.projectId) && w.disk.value.mode == old(w.disk.value.mode)
      ensures Rank(w.disk) >= 5 && w.disk.value.stage.origin == origin && w.disk.value.stage.id == id
      ensures r.Go? ==> w.disk.value.stage == Shared(id, origin, r.value)
      ensures env.share.Ensured? && AllSaved(env) ==> r.Go?
      ensures r == Halt(SheetShareFailed) <==> env.share.ShareFailed?
      ensures env.share.Ensured? && env.share.role != RoleReused && env.saves(old(saveCount)) == SaveFailed(false) ==>
                w == old(w).(granted := true)
      ensures r.Go? ==> (r.value == ShareFresh <==> env.share.role != RoleReused || startedLoaded)
      ensures r.Halt? ==> r.stop == SheetShareFailed || r.stop == StateWriteFailed
      ensures env.share.ShareFailed? ==> w == old(w).(granted := old(w).granted || env.share.granted)
    {
      hide IsDriveId, IsMarker, IsGcpName, Consistent, Advances;
      RecordGrant(env);
      if env.share.ShareFailed? { return Halt(SheetShareFailed); }
      var share := if env.share.role == RoleCreated || env.share.role == RoleUpgraded || startedLoaded then ShareFresh else ShareReused;
      MoveStage(setup, w, Shared(id, origin, share));
      var saved := Persist(Moved(w, Shared(id, origin, share)), env);
      if !saved { return Halt(StateWriteFailed); }
      return Go(share);
    }

    /** The attempt may make the permission, whether it is answered or not. */
    method RecordGrant(env: Env)
      requires Valid() && Rank(w.disk) == 6
      modifies this`w, this`trace
      ensures Valid() && old(trace) <= trace && w == old(w).(granted := old(w).granted || Grants(env.share))
    {
      hide Consistent, Advances;
      if Grants(env.share) {
        PermissionMade(setup, w);
        Record(w.(granted := true));
      }
    }

    /** The key must read the spreadsheet, unless an earlier run has completed; then the output phase starts. */
    method VerifyAccess(env: Env, loaded: Option<Checkpoint>) returns (ok: bool)
      requires P.Reached(reports, P.AtLeast(8, P.Vouched(loaded)))
      modifies this`reports
      ensures ok <==> Rank(loaded) == 8 || (env.keyRead && env.verified)
      ensures P.AllAccepted(reports) && (ok ==> P.UnderWay(reports, 9, P.Vouched(loaded)))
    {
      hide P.Reached, P.UnderWay, P.AllAccepted, P.AtLeast;
      StartPhase(8, P.Vouched(loaded));
      if Rank(loaded) != 8 && (!env.keyRead || !env.verified) { return false; }
      EndPhase(8, P.Vouched(loaded));
      StartPhase(9, P.Vouched(loaded));
      return true;
    }

    /** Verification, the environment file, and the completed checkpoint. */
    method Finish(env: Env, loaded: Option<Checkpoint>, id: DriveId, origin: KeyOrigin, share: ShareOrigin) returns (r: Step<string>)
      requires Valid() && Rank(w.disk) >= 7 && w.disk.value.stage.origin == origin
      requires w.disk.value.stage.id == id && w.disk.value.stage.share == share
      requires Rank(w.disk) == 8 <==> Rank(loaded) == 8
      requires P.Reached(reports, P.AtLeast(8, P.Vouched(loaded)))
      modifies this
      ensures P.AllAccepted(reports) && (r.Go? ==> P.Reached(reports, 10))
      ensures Valid() && old(trace) <= trace && w == old(w).(disk := w.disk, envSheet := w.envSheet, stable := w.stable)
      ensures w.disk.Some? && w.disk.value.projectId == old(w.disk.value.projectId) && w.disk.value.mode == old(w.disk.value.mode)
      ensures r.Go? ==> r.value == id && w.disk.value.stage == Complete(id, origin, share) && Delivered(w, id)
      ensures (Rank(loaded) == 8 || (env.keyRead && env.verified)) && env.envWritten && AllSaved(env) ==> r.Go?
      ensures r == Halt(AccessVerifyFailed) <==> Rank(loaded) != 8 && (!env.keyRead || !env.verified)
      ensures !env.envWritten ==> r.Halt? && w == old(w)
      ensures r.Halt? ==> r.stop in {AccessVerifyFailed, OutputWriteFailed, StateWriteFailed}
      ensures r == Halt(StateWriteFailed) ==> !AllSaved(env)
      ensures r == Halt(OutputWriteFailed) <==> (Rank(loaded) == 8 || (env.keyRead && env.verified)) && !env.envWritten
    {
      hide IsDriveId, IsMarker, IsGcpName, Consistent, Advances, P.Reached, P.UnderWay, P.AllAccepted;
      var accessible := VerifyAccess(env, loaded);
      if !accessible { return Halt(AccessVerifyFailed); }
      if !env.envWritten { return Halt(OutputWriteFailed); }
      EnvWritten(setup, w);
      Record(w.(envSheet := Some(id)));
      if Rank(loaded) != 8 {
        MoveStage(setup, w, Complete(id, origin, share));
        var saved := Persist(Moved(w, Complete(id, origin, share)), env);
        if !saved { return Halt(StateWriteFailed); }
      }
      EndPhase(9, P.Vouched(loaded));
      return Go(id);
    }

    /** The phases behind the spreadsheet: share, verification and output. */
    method ShareAndFinish(env: Env, loaded: Option<Checkpoint>, id: DriveId, origin: KeyOrigin) returns (r: Step<string>)
      requires Valid() && Rank(w.disk) >= 5 && w.disk.value.stage.origin == origin && w.disk.value.stage.id == id
      requires if Rank(loaded) >= 5 then w.disk == loaded else w.disk.value.stage == SheetCreated(id, origin)
      requires P.Reached(reports, P.AtLeast(7, P.Vouched(loaded)))
      modifies this
      ensures P.AllAccepted(reports) && (r.Go? ==> P.Reached(reports, 10))
      ensures Valid() && old(trace) <= trace
      ensures r.Go? ==> Delivered(w, r.value)
      ensures (Rank(loaded) <= 6 ==> env.share.Ensured?) && (Rank(loaded) <= 7 ==> env.keyRead && env.verified) && env.envWritten && AllSaved(env) ==>
                r.Go?
      ensures w.keyCreates == old(w).keyCreates && w.sheets == old(w).sheets
      ensures r.Halt? ==> Explained(env, loaded, r.stop)
    {
      hide IsDriveId, Valid, Consistent, Advances, AllConsistent, Chained, Delivered, AllSaved, Explained;
      hide P.Reached, P.UnderWay, P.AllAccepted, P.Vouched, P.AtLeast;
      StartPhase(7, P.Vouched(loaded));
      var share := ShareSheet(env, loaded, id, origin);
      if share.Halt? { return Halt(share.stop); }
      EndPhase(7, P.Vouched(loaded));
      r := Finish(env, loaded, id, origin, share.value);
      if r.Halt? {
        FinishExplains(env, loaded, r.stop);
      }
    }

    /** The phases behind the key: spreadsheet, share, verification and output. */
    method DeliverSheet(env: Env, loaded: Option<Checkpoint>, origin: KeyOrigin) returns (r: Step<string>)
      requires Valid() && Rank(w.disk) >= 3 && w.disk.value.stage.origin == origin
      requires if Rank(loaded) >= 3 then w.disk == loaded else w.disk.value.stage == KeyReady(origin)
      requires P.Reached(reports, P.AtLeast(6, P.Vouched(loaded)))
      modifies this
      ensures P.AllAccepted(reports) && (r.Go? ==> P.Reached(reports, 10))
      ensures Valid() && old(trace) <= trace
      ensures r.Go? ==> Delivered(w, r.value)
      ensures CleanDelivery(env, loaded, old(w)) && AllSaved(env) ==> r.Go?
      ensures Rank(loaded) <= 3 && SheetRejected(env) && AllSaved(env) ==> RolledBack(r, w)
      ensures w.keyCreates == old(w).keyCreates
      ensures Rank(loaded) >= 4 ==> w.sheets == old(w).sheets
      ensures r.Halt? ==> Explained(env, loaded, r.stop)
    {
      hide IsDriveId, IsMarker, IsGcpName, Valid, Consistent, Advances, AllConsistent, Chained, CleanLookup, CleanCreateSheet, SheetRejected, Delivered, AllSaved, P.Reached, P.UnderWay, P.AllAccepted, P.Vouched, P.AtLeast;
      StartPhase(6, P.Vouched(loaded));
      var sheet := SecureSheet(env, loaded, origin);
      if sheet.Halt? { return Halt(sheet.stop); }
      EndPhase(6, P.Vouched(loaded));
      r := ShareAndFinish(env, loaded, sheet.value, origin);
    }

    /** The key phase and those behind it. */
    method SecureAndDeliver(env: Env, loaded: Option<Checkpoint>, projectId: string, found: bool) returns (r: Step<string>)
      requires Valid() && Rank(w.disk) >= 1 && w.disk.value.projectId == projectId
      requires if Rank(loaded) >= 1 then w.disk == loaded else Rank(w.disk) == 1
      requires if found then
                 Rank(loaded) != 2 && ReadKey(w.fs).Ok? && IsForThisSetup(KeyInput(setup, projectId, []), ReadKey(w.fs).meta)
               else Rank(loaded) >= 2 || ReadKey(w.fs).Absent?
      requires Rank(loaded) >= 3 ==> found
      requires P.Reached(reports, P.AtLeast(5, P.Vouched(loaded)))
      modifies this
      ensures P.AllAccepted(reports) && (r.Go? ==> P.Reached(reports, 10))
      ensures Valid() && old(trace) <= trace
      ensures r.Go? ==> Delivered(w, r.value)
      ensures CleanKey(setup, env, old(w), loaded, projectId, found) && CleanDelivery(env, loaded, old(w)) && AllSaved(env) ==> r.Go?
      ensures CleanKey(setup, env, old(w), loaded, projectId, found) && Rank(loaded) <= 3 && SheetRejected(env) && AllSaved(env) ==> RolledBack(r, w)
      ensures Rank(loaded) >= 2 ==> w.keyCreates == old(w).keyCreates
      ensures Rank(loaded) >= 4 ==> w.sheets == old(w).sheets
      ensures r.Halt? ==> Explained(env, loaded, r.stop)
    {
      hide Valid, Consistent, Advances, AllConsistent, Chained, ReadKey, IsForThisSetup, CleanKey, CleanLookup, SheetRejected, Delivered, AllSaved;
      hide P.Reached, P.UnderWay, P.AllAccepted, P.Vouched, P.AtLeast;
      StartPhase(5, P.Vouched(loaded));
      var origin := SecureKey(env, loaded, projectId, found);
      if origin.Halt? { return Halt(origin.stop); }
      EndPhase(5, P.Vouched(loaded));
      r := DeliverSheet(env, loaded, origin.value);
    }

    /** Refuses a run whose options or key file do not go with the checkpoint. */
    method Admit(env: Env, loaded: Option<Checkpoint>) returns (r: Step<bool>)
      requires Valid() && loaded == w.disk
      ensures r.Halt? ==> Refused(setup, env, w, r.stop)
      ensures r.Go? ==> KeyInspected(setup, env, loaded, w.fs, r.value)
      ensures !OptionsMatch(env, loaded) ==> r == Halt(StateConflict)
      ensures r.Go? ==> OptionsMatch(env, loaded)
      ensures OptionsMatch(env, loaded) && (Rank(loaded) == 2 || (!env.keyReadFails && (Rank(loaded) >= 3 || KeyUsable(setup, env, loaded, w.fs)))) ==> r.Go?
    {
      if loaded.Some? && (!env.compatible || (env.requested.Some? && env.requested.value != loaded.value.projectId)) {
        return Halt(StateConflict);
      }
      r := InspectKey(env, loaded);
    }

    /**
     One run of the setup over whatever an earlier one left. It reports success only with the completed
     checkpoint and the environment file naming the one spreadsheet.
     */
    method RunSetupLocked(env: Env) returns (r: Step<string>)
      requires Valid() && |trace| == 1 && P.Reached(reports, 2)
      modifies this
      ensures P.AllAccepted(reports) && (r.Go? ==> P.Reached(reports, 10))
      ensures Valid() && old(trace) <= trace
      ensures r.Go? ==> Delivered(w, r.value)
      ensures CleanRun(setup, env, old(w)) ==> r.Go?
      ensures CleanToSheet(setup, env, old(w)) && Rank(old(w).disk) <= 3 && SheetRejected(env) ==> RolledBack(r, w)
      ensures old(w).disk.Some? && (!env.compatible || (env.requested.Some? && env.requested.value != old(w).disk.value.projectId)) ==>
                r == Halt(StateConflict) && w == old(w)
      ensures Rank(old(w).disk) >= 2 ==> w.keyCreates == old(w).keyCreates
      ensures Rank(old(w).disk) >= 4 ==> w.sheets == old(w).sheets
      ensures r.Halt? ==> Explained(env, old(w).disk, r.stop) || Refused(setup, env, old(w), r.stop)
    {
      hide Refused, Valid, Consistent, Advances, AllConsistent, Chained, ReadKey, IsForThisSetup, CleanToSheet, CleanDelivery, CleanProject, SheetRejected, Delivered, AllSaved, Explained, Selected;
      hide KeyInspected, CleanKey, KeyUsable, OptionsMatch, ProjectDecided;
      hide P.Reached, P.UnderWay, P.AllAccepted, P.Vouched, P.AtLeast;
      var loaded := w.disk;
      Resume(loaded);
      P.ReachedAccepted(reports, P.Vouched(loaded));
      ghost var start, k := w, saveCount;
      CleanMeans(setup, env, start);
      Mismatch(env, loaded);
      var found := Admit(env, loaded);
      if found.Halt? { return Halt(found.stop); }
      var project := SelectProject(env, loaded);
      if Rank(loaded) < 2 {
        SaveReplied(env, k);
        SelectedMeans(env, loaded, start, w, env.saves(k), project);
      }
      if project.Halt? { return Halt(project.stop); }
      ReadyForKey(setup, env, start, w, found.value, project.value);
      r := SecureAndDeliver(env, loaded, project.value, found.value);
    }

    /** The active account and its access to Drive. */
    method Preflight(env: Env) returns (stop: Option<Stop>)
      requires reports == []
      modifies this`reports
      ensures stop.None? <==> env.loggedIn && env.driveAccess
      ensures P.AllAccepted(reports) && (stop.None? ==> P.Reached(reports, 2))
      ensures stop.Some? ==> stop.value == if env.loggedIn then NoDriveAccess else NotLoggedIn
    {
      hide P.Reached, P.UnderWay, P.AllAccepted;
      P.NothingReported();
      StartPhase(0, 0);
      if !env.loggedIn { return Some(NotLoggedIn); }
      EndPhase(0, 0);
      StartPhase(1, 0);
      if !env.driveAccess { return Some(NoDriveAccess); }
      EndPhase(1, 0);
      return None;
    }

    /**
     A run with its preflight. Whatever it reports is accepted by the progress tracker, and a run that succeeds
     leaves the bar at ten of ten, from every checkpoint.
     */
    method RunSetup(env: Env) returns (r: Step<string>)
      requires Valid() && |trace| == 1 && reports == []
      modifies this
      ensures Valid() && old(trace) <= trace
      ensures P.AllAccepted(reports)
      ensures r.Go? ==> P.CompletedCount(P.Tracked(reports)) == 10
      ensures r.Go? ==> Delivered(w, r.value)
      ensures env.loggedIn && env.driveAccess && CleanRun(setup, env, old(w)) ==> r.Go?
      ensures env.loggedIn && env.driveAccess && CleanToSheet(setup, env, old(w)) && Rank(old(w).disk) <= 3 && SheetRejected(env) ==>
                RolledBack(r, w)
      ensures !env.loggedIn || !env.driveAccess ==> r.Halt? && w == old(w)
      ensures Rank(old(w).disk) >= 2 ==> w.keyCreates == old(w).keyCreates
      ensures Rank(old(w).disk) >= 4 ==> w.sheets == old(w).sheets
      ensures r.Halt? ==> Explained(env, old(w).disk, r.stop) || Refused(setup, env, old(w), r.stop)
    {
      hide AllConsistent, Chained, CleanRun, CleanToSheet, SheetRejected, P.Reached, P.UnderWay, P.AllAccepted;
      var stop := Preflight(env);
      if stop.Some? { return Halt(stop.value); }
      r := RunSetupLocked(env);
      if r.Go? {
        P.TenReached(reports);
      }
    }
  }

  /** The completed checkpoint, the environment file and the one spreadsheet agree. */
  predicate Delivered(w: World, id: string) {
    && w.disk.Some? && w.disk.value.stage.Complete? && w.disk.value.stage.id == id
    && w.envSheet == Some(id) && |w.sheets| == 1 && w.sheets[0].id == id
  }

  /** An attempt to share, answered or not, that makes or upgrades the permission. */
  predicate Grants(share: ShareReply) {
    match share
    case Ensured(role) => role != RoleReused
    case ShareFailed(granted) => granted
  }

  /** The options of the run are those of the checkpoint. */
  predicate OptionsMatch(env: Env, loaded: Option<Checkpoint>) {
    loaded.Some? ==> env.compatible && (env.requested.Some? ==> env.requested.value == loaded.value.projectId)
  }

  /** The checkpoint or the key at the key path stands against the run, or the key cannot be told. */
  predicate Refused(setup: Setup, env: Env, w: World, stop: Stop) {
    match stop
    case StateConflict =>
      || (w.disk.Some? && (!env.compatible || (env.requested.Some? && env.requested.value != w.disk.value.projectId)))
      || (Rank(w.disk) != 2 && !env.keyReadFails && ReadKey(w.fs).Ok? && !KeyInspected(setup, env, w.disk, w.fs, true))
    case StateInvalid => Rank(w.disk) != 2 && (env.keyReadFails || ReadKey(w.fs).Invalid? || (Rank(w.disk) >= 3 && ReadKey(w.fs).Absent?))
    case _ => false
  }

  /** What a later stop says: each has its own cause among the answers, at a status whose phases ask for them. */
  ghost predicate Explained(env: Env, loaded: Option<Checkpoint>, stop: Stop) {
    match stop
    case NotLoggedIn => !env.loggedIn
    case NoDriveAccess => env.loggedIn && !env.driveAccess
    case StateInvalid => false
    case StateConflict => false
    case ProjectNotFound => Rank(loaded) < 2 && IsExplicit(env, loaded) && env.describe != Found
    case ProjectCreateFailed =>
      Rank(loaded) < 2 && !IsExplicit(env, loaded) && (env.createProject.CreateFailed? || (loaded.Some? && env.describe == Unknown))
    case ServiceFailed => Rank(loaded) < 2 && !env.services
    case StateWriteFailed => !AllSaved(env)
    case KeyFailed(_) => Rank(loaded) <= 2
    case SheetCreateFailed => Rank(loaded) <= 3 && env.createSheet.Rejected?
    case SheetCreateUncertain => Rank(loaded) <= 4 && (Rank(loaded) <= 3 ==> !env.createSheet.Created?)
    case SheetShareFailed => Rank(loaded) <= 6 && env.share.ShareFailed?
    case AccessVerifyFailed => Rank(loaded) <= 7 && (!env.keyRead || !env.verified)
    case OutputWriteFailed => !env.envWritten
  }

  function DecidedId(env: Env, loaded: Option<Checkpoint>): ProjectId {
    if loaded.Some? then loaded.value.projectId else if env.requested.Some? then env.requested.value else env.generatedId
  }

  /**
   What deciding and creating the project does: an explicit project has to be found; a new decision is recorded before
   anything else; and a generated project is created when it is new or known to be missing.
   */
  predicate Decided(env: Env, loaded: Option<Checkpoint>, a: World, b: World, reply: SaveReply, r: Step<ProjectId>) {
    var id, explicit := DecidedId(env, loaded), IsExplicit(env, loaded);
    var decided := a.(disk := Some(Checkpoint(id, if explicit then Explicit else Generated, ProjectSelected)));
    if explicit && env.describe != Found then r == Halt(ProjectNotFound) && b == a
    else if loaded.None? && !reply.Saved? then r == Halt(StateWriteFailed) && b == if reply.written then decided else a
    else
      var kept := if loaded.None? then decided.(stable := decided.disk) else a;
      if explicit || (loaded.Some? && env.describe == Found) then r == Go(id) && b == kept
      else if loaded.Some? && env.describe == Unknown then r == Halt(ProjectCreateFailed) && b == kept
      else b == kept.(projects := kept.projects + {id}) && r == if env.createProject.CreateFailed? then Halt(ProjectCreateFailed) else Go(id)
  }

  /** The project decided and, with its services enabled, selected. */
  ghost predicate Selected(env: Env, loaded: Option<Checkpoint>, a: World, b: World, reply: SaveReply, r: Step<ProjectId>) {
    exists d :: Decided(env, loaded, a, b, reply, d) && r == if d.Go? && !env.services then Halt(ServiceFailed) else d
  }

  lemma SelectedMeans(env: Env, loaded: Option<Checkpoint>, a: World, b: World, reply: SaveReply, r: Step<ProjectId>)
    requires Selected(env, loaded, a, b, reply, r) && Rank(loaded) < 2 && loaded == a.disk
    requires reply.Saved? || !AllSaved(env)
    ensures b == a.(disk := b.disk, projects := b.projects, stable := b.stable)
    ensures r.Go? ==> ProjectDecided(env, loaded, b.disk, r.value)
    ensures CleanProject(env, loaded) && AllSaved(env) ==> r.Go?
    ensures r.Halt? ==> Explained(env, loaded, r.stop)
  {
    hide AllSaved;
  }

  lemma KeyExplains(env: Env, loaded: Option<Checkpoint>, code: ErrorCode)
    requires Rank(loaded) <= 2
    ensures Explained(env, loaded, KeyFailed(code))
  {
  }

  lemma FreshExplains(env: Env, loaded: Option<Checkpoint>, stop: Stop)
    requires Rank(loaded) <= 2 && (stop.KeyFailed? || (stop == StateWriteFailed && !AllSaved(env)))
    ensures Explained(env, loaded, stop)
  {
    hide AllSaved;
  }

  /** What stops the phases behind the spreadsheet. */
  lemma FinishExplains(env: Env, loaded: Option<Checkpoint>, stop: Stop)
    requires stop in {AccessVerifyFailed, OutputWriteFailed, StateWriteFailed}
    requires stop == AccessVerifyFailed ==> Rank(loaded) != 8 && (!env.keyRead || !env.verified)
    requires stop == OutputWriteFailed ==> !env.envWritten
    requires stop == StateWriteFailed ==> !AllSaved(env)
    ensures Explained(env, loaded, stop)
  {
    hide AllSaved;
  }

  /** What a clean run means for its first phases. */
  lemma CleanMeans(setup: Setup, env: Env, w: World)
    ensures CleanToSheet(setup, env, w) ==>
              && AllSaved(env) && CleanProject(env, w.disk) && OptionsMatch(env, w.disk)
              && (Rank(w.disk) == 2 || (!env.keyReadFails && (Rank(w.disk) >= 3 || KeyUsable(setup, env, w.disk, w.fs))))
  {
    hide AllSaved, CleanProject, CleanKey, KeyUsable;
  }

  lemma Mismatch(env: Env, loaded: Option<Checkpoint>)
    ensures loaded.Some? && (!env.compatible || (env.requested.Some? && env.requested.value != loaded.value.projectId)) <==> !OptionsMatch(env, loaded)
  {
  }

  /** With the key inspected and the project selected the key phase can start, and is clean if the run is. */
  lemma ReadyForKey(setup: Setup, env: Env, start: World, w: World, found: bool, projectId: ProjectId)
    requires KeyInspected(setup, env, start.disk, start.fs, found) && OptionsMatch(env, start.disk)
    requires if Rank(start.disk) >= 2 then w == start && projectId == start.disk.value.projectId
             else w == start.(disk := w.disk, projects := w.projects, stable := w.stable) && ProjectDecided(env, start.disk, w.disk, projectId)
    ensures Rank(w.disk) >= 1 && w.disk.value.projectId == projectId
    ensures if Rank(start.disk) >= 1 then w.disk == start.disk else Rank(w.disk) == 1
    ensures found ==> Rank(start.disk) != 2 && ReadKey(w.fs).Ok? && IsForThisSetup(KeyInput(setup, projectId, []), ReadKey(w.fs).meta)
    ensures !found ==> Rank(start.disk) >= 2 || ReadKey(w.fs).Absent?
    ensures Rank(start.disk) >= 3 ==> found
    ensures CleanToSheet(setup, env, start) ==> CleanKey(setup, env, w, start.disk, projectId, found)
    ensures CleanDelivery(env, start.disk, start) ==> CleanDelivery(env, start.disk, w)
  {
    hide AllSaved, CleanProject, CleanReconcile, CleanList;
  }

  /** What stops the spreadsheet phase. */
  lemma SheetExplains(env: Env, loaded: Option<Checkpoint>, stop: Stop)
    requires Rank(loaded) <= 4 && stop in {StateWriteFailed, SheetCreateFailed, SheetCreateUncertain}
    requires stop == StateWriteFailed ==> !AllSaved(env)
    requires stop == SheetCreateFailed ==> Rank(loaded) <= 3 && env.createSheet.Rejected?
    requires stop == SheetCreateUncertain ==> (Rank(loaded) <= 3 ==> !env.createSheet.Created?)
    ensures Explained(env, loaded, stop)
  {
    hide AllSaved;
  }

  lemma SaveReplied(env: Env, k: nat)
    ensures env.saves(k).Saved? || !AllSaved(env)
  {
  }

  lemma SaveExplains(env: Env, loaded: Option<Checkpoint>)
    requires !AllSaved(env)
    ensures Explained(env, loaded, StateWriteFailed)
  {
    hide AllSaved;
  }

  /** The fresh create settled over a baseline read from its list, and ended as its settlement did. */
  ghost predicate SettledAs(setup: Setup, env: Env, fs: Fs, projectId: string, stage: Stage, r: Step<bool>) {
    && stage.KeyStarted? && env.keyList.Some?
    && KeyList.ReadsAs(env.keyList.value, projectId, setup.emailOf(projectId), stage.baseline)
    && match Settle(fs, KeyInput(setup, projectId, stage.baseline), env.passes, true).outcome
       case Done(reused) => r == Go(reused)
       case Failed(code) => r == Halt(KeyFailed(code))
  }

  /** A requested project is never created, whatever an earlier run decided. */
  predicate IsExplicit(env: Env, loaded: Option<Checkpoint>) {
    env.requested.Some? || (loaded.Some? && loaded.value.mode.Explicit?)
  }

  /** No answer stands in the way of the project phase. */
  predicate CleanProject(env: Env, loaded: Option<Checkpoint>) {
    Rank(loaded) >= 2 ||
    (env.services &&
     if IsExplicit(env, loaded) then env.describe == Found
     else if loaded.None? then !env.createProject.CreateFailed?
     else env.describe == Found || (env.describe == Missing && !env.createProject.CreateFailed?))
  }

  /** A create that is answered, or whose lost file the lookup shows. */
  ghost predicate CleanCreateSheet(env: Env) {
    match env.createSheet
    case Created(_) => true
    case Rejected => false
    case Lost(made) => made.Some? && CleanLookup(env, made.value)
  }

  /** The create is rejected, and the lookup reads the whole listing. */
  ghost predicate SheetRejected(env: Env) {
    env.createSheet.Rejected? && WholeListing(env.lookup)
  }

  /** Before the key phase no key file is there, or one of the project's account. */
  predicate KeyUsable(setup: Setup, env: Env, loaded: Option<Checkpoint>, fs: Fs) {
    ReadKey(fs).Absent? || KeyInspected(setup, env, loaded, fs, true)
  }

  /** The lookup reads the whole listing within the page limit. */
  ghost predicate WholeListing(server: G.Server<ListedFile>) {
    exists n :: 1 <= n <= G.MAX_PAGES && G.Reads(server, n)
  }

  /** The lookup reads the whole listing, which shows the file with this id once, and it passes the checks. */
  ghost predicate CleanLookup(env: Env, id: DriveId) {
    exists n :: 1 <= n <= G.MAX_PAGES && G.Reads(env.lookup, n) && WithId(G.Items(env.lookup, n), id) == [ListedFile(id, true)]
  }

  function WithId(files: seq<ListedFile>, id: DriveId): seq<ListedFile> {
    if files == [] then [] else (if files[0].id == id then [files[0]] else []) + WithId(files[1..], id)
  }

  /** The listed files that are there and carry the marker. */
  function Matching(files: seq<ListedFile>, marker: Marker, sheets: seq<Sheet>): (r: seq<ListedFile>)
    ensures forall m :: m in r ==> m in files && Sheet(m.id, marker) in sheets
    ensures sheets == [] ==> r == []
  {
    if files == [] then []
    else (if Sheet(files[0].id, marker) in sheets then [files[0]] else []) + Matching(files[1..], marker, sheets)
  }

  lemma {:induction false} MatchingWithId(files: seq<ListedFile>, sheet: Sheet)
    ensures Matching(files, sheet.marker, [sheet]) == WithId(files, sheet.id)
  {
    if files != [] {
      MatchingWithId(files[1..], sheet);
    }
  }

  /** Some check lists the one key the directory can settle on, and no check before meets a failing call or a new key. */
  ghost predicate CleanReconcile(input: Input, fs: Fs, passes: nat -> PassEnv) {
    KeyOf(fs).Ok? && exists n :: ListedAt(input, passes, KeyOf(fs).meta, n) && Settleable(fs, input, passes(n).list.value)
  }

  /** A create that writes a key of this setup into the stage, and is listed by some check after it. */
  ghost predicate CleanCreate(input: Input, passes: nat -> PassEnv) {
    && passes(0).faults == {} && passes(0).list.Some? && !HasDelta(input, passes(0).list.value)
    && passes(0).wrote.Some? && passes(0).wrote.value.KeyFile?
    && exists n :: ListedAt(input, passes, passes(0).wrote.value.meta, n)
  }

  /** The key list is readable, and the create over it as the baseline is clean. */
  ghost predicate CleanList(setup: Setup, env: Env, projectId: string, stdout: string) {
    && KeyList.Readable(stdout, projectId, setup.emailOf(projectId))
    && forall baseline :: KeyList.ReadsAs(stdout, projectId, setup.emailOf(projectId), baseline) ==>
         CleanCreate(KeyInput(setup, projectId, baseline), env.passes)
  }

  /** No answer stands in the way of the key phase. */
  ghost predicate CleanKey(setup: Setup, env: Env, w: World, loaded: Option<Checkpoint>, projectId: string, found: bool) {
    if Rank(loaded) >= 3 || found then true
    else if Rank(loaded) == 2 then CleanReconcile(KeyInput(setup, projectId, loaded.value.stage.baseline), w.fs, env.passes)
    else env.keyList.Some? && CleanList(setup, env, projectId, env.keyList.value)
  }

  /**
   Every answer is good and nothing is lost: the key, once its create was started, is still there to be
   settled on, and so is the spreadsheet.
   */
  ghost predicate CleanRun(setup: Setup, env: Env, w: World) {
    CleanToSheet(setup, env, w) && CleanDelivery(env, w.disk, w)
  }

  /** A rejected create has been taken back: the next run starts a fresh one. */
  predicate RolledBack(r: Step<string>, w: World) {
    r == Halt(SheetCreateFailed) && w.disk.Some? && w.disk.value.stage.KeyReady?
  }

  /** No answer stands in the way of the phases before the spreadsheet. */
  ghost predicate CleanToSheet(setup: Setup, env: Env, w: World) {
    var projectId := if w.disk.Some? then w.disk.value.projectId else if env.requested.Some? then env.requested.value else env.generatedId;
    && AllSaved(env) && (w.disk.Some? ==> env.compatible) && CleanProject(env, w.disk)
    && (env.requested.Some? && w.disk.Some? ==> env.requested.value == projectId)
    && (Rank(w.disk) != 2 ==> !env.keyReadFails)
    && (Rank(w.disk) <= 1 ==> KeyUsable(setup, env, w.disk, w.fs))
    && CleanKey(setup, env, w, w.disk, projectId, Rank(w.disk) <= 1 && ReadKey(w.fs).Ok?)
  }

  /** No answer stands in the way of the phases behind the key. */
  ghost predicate CleanDelivery(env: Env, loaded: Option<Checkpoint>, w: World) {
    && (Rank(loaded) <= 3 ==> CleanCreateSheet(env))
    && (Rank(loaded) == 4 ==> w.sheets != [] && CleanLookup(env, w.sheets[0].id))
    && (Rank(loaded) <= 6 ==> env.share.Ensured?)
    && (Rank(loaded) <= 7 ==> env.keyRead && env.verified)
    && env.envWritten
  }

  /** Some check of a resumed run shows the created key as the one beyond the baseline, and none before it fails. */
  ghost predicate KeyListed(setup: Setup, env: Env, w: World)
    requires w.wrote.Some?
  {
    w.disk.Some? && w.disk.value.stage.KeyStarted? ==>
      exists n :: ListedAt(KeyInput(setup, w.disk.value.projectId, w.disk.value.stage.baseline), env.passes, w.wrote.value, n)
  }

  /** Every answer of a run is good; nothing is said about the key directory or the checkpoint it starts from. */
  ghost predicate GoodAnswers(setup: Setup, env: Env, w: World)
    requires w.wrote.Some?
  {
    && env.loggedIn && env.driveAccess && AllSaved(env) && env.compatible && !env.keyReadFails
    && (env.requested.Some? && w.disk.Some? ==> env.requested.value == w.disk.value.projectId)
    && KeyListed(setup, env, w) && CleanDelivery(env, w.disk, w)
  }

  /** Once a create has written its key, wherever a crash leaves the setup, a run with good answers is a clean run. */
  lemma CreatedKeyCompletes(setup: Setup, env: Env, w: World)
    requires Consistent(setup, w) && w.wrote.Some? && GoodAnswers(setup, env, w)
    ensures env.loggedIn && env.driveAccess && CleanRun(setup, env, w)
  {
    hide Matches, Settleable, CleanDelivery, AllSaved;
  }

  lemma ReconcileSucceeds(fs: Fs, input: Input, passes: nat -> PassEnv)
    requires WellFormed(fs) && CleanReconcile(input, fs, passes)
    ensures Settle(fs, input, passes, false).outcome.Done?
  {
    hide Checks, Settleable, Matches;
    var n :| ListedAt(input, passes, KeyOf(fs).meta, n) && Settleable(fs, input, passes(n).list.value);
    SettlesWhenListed(fs, input, passes, KeyOf(fs).meta, n);
  }

  lemma CreateSucceeds(fs: Fs, input: Input, passes: nat -> PassEnv)
    requires WellFormed(fs) && CleanCreate(input, passes)
    requires ReadKey(fs).Absent? && Lstat(fs, StageDir).None? && Lstat(fs, CleanupDir).None?
    ensures Settle(fs, input, passes, true).outcome.Done?
  {
    NothingThere(fs, input, passes(0));
    hide EvidencePass, ListedAt;
    var n :| ListedAt(input, passes, passes(0).wrote.value.meta, n);
    SettlesCreated(fs, input, passes, passes(0).wrote.value.meta, n);
  }

  lemma NothingThere(fs: Fs, input: Input, env: PassEnv)
    requires WellFormed(fs) && Lstat(fs, KeyPath).None? && Lstat(fs, StageDir).None?
    requires env.faults == {} && env.list.Some? && !HasDelta(input, env.list.value)
    ensures EvidencePass(fs, input, env.list, env.faults).noEvidence
  {
  }

  lemma NothingStaged(setup: Setup, w: World)
    requires Consistent(setup, w) && Rank(w.disk) < 2
    ensures WellFormed(w.fs) && Lstat(w.fs, StageDir).None? && Lstat(w.fs, CleanupDir).None?
    ensures w.keyCreates == 0 && w.baseline.None?
  {
  }

  ghost predicate AllSaved(env: Env) {
    forall i :: env.saves(i).Saved?
  }

  /** The key found at the start: usable for the project, or not there before the key phase, or left to reconciliation. */
  predicate KeyInspected(setup: Setup, env: Env, loaded: Option<Checkpoint>, fs: Fs, reused: bool) {
    var project := if loaded.Some? then Some(loaded.value.projectId) else env.requested;
    if reused then
      && Rank(loaded) != 2 && project.Some? && ReadKey(fs).Ok?
      && IsForThisSetup(KeyInput(setup, project.value, []), ReadKey(fs).meta)
    else Rank(loaded) == 2 || (Rank(loaded) <= 1 && ReadKey(fs).Absent?)
  }

  predicate ProjectDecided(env: Env, loaded: Option<Checkpoint>, disk: Option<Checkpoint>, projectId: string) {
    && disk.Some? && disk.value.projectId == projectId
    && (loaded.Some? ==> disk == loaded)
    && (loaded.None? ==> disk.value.stage.ProjectSelected? && (disk.value.mode.Explicit? <==> env.requested.Some?))
    && (loaded.None? ==> projectId == if env.requested.Some? then env.requested.value else env.generatedId)
  }

  function Moved(w: World, stage: Stage): World
    requires w.disk.Some?
  {
    w.(disk := Some(w.disk.value.(stage := stage)))
  }

  /** The checkpoint writes of the spreadsheet, share and output phases, and what each of them waits for. */
  predicate MayFollow(w: World, stage: Stage)
    requires w.disk.Some?
  {
    match (w.disk.value.stage, stage)
    case (KeyReady(o), SheetStarted(_, origin)) => o == origin
    case (SheetStarted(_, o), SheetCreated(id, origin)) => o == origin && w.sheets != [] && w.sheets[0].id == id
    case (SheetStarted(_, o), KeyReady(origin)) => o == origin && w.sheets == []
    case (SheetCreated(i, o), ShareStarted(id, origin)) => i == id && o == origin
    case (ShareStarted(i, o), Shared(id, origin, share)) => i == id && o == origin && (w.granted && !w.lost ==> share == ShareFresh)
    case (Shared(i, o, s), Complete(id, origin, share)) => i == id && o == origin && s == share
    case _ => false
  }

  lemma MoveStage(setup: Setup, w: World, stage: Stage)
    requires Consistent(setup, w) && w.disk.Some? && MayFollow(w, stage)
    ensures Consistent(setup, Moved(w, stage)) && Advances(w, Moved(w, stage))
  {
    MovedSecured(setup, w, stage);
    hide Secured, NothingLost, Behind;
    Lagging(setup, w, Moved(w, stage));
  }

  lemma MovedSecured(setup: Setup, w: World, stage: Stage)
    requires Secured(setup, w) && NothingLost(w) && Behind(w) && w.disk.Some? && MayFollow(w, stage)
    ensures Secured(setup, Moved(w, stage)) && NothingLost(Moved(w, stage)) && Behind(Moved(w, stage))
  {
    hide WellFormed, HoldsKey, ReadKey, Lstat, IsForThisSetup;
  }

  /** What only the project and share promises speak of may change under a checkpoint, synced or not. */
  lemma EffectConsistent(setup: Setup, w: World, next: World)
    requires Consistent(setup, w) && NothingLost(next)
    requires next == w.(projects := next.projects, granted := next.granted, envSheet := next.envSheet)
    ensures Consistent(setup, next)
  {
    SameSecured(setup, w, next);
    hide Secured, NothingLost;
    Lagging(setup, w, next);
  }

  lemma ProjectDecidable(setup: Setup, w: World, checkpoint: Checkpoint)
    requires Consistent(setup, w) && w.disk.None? && checkpoint.stage.ProjectSelected?
    ensures Consistent(setup, w.(disk := Some(checkpoint))) && Advances(w, w.(disk := Some(checkpoint)))
  {
    assert Secured(setup, w.(disk := Some(checkpoint)));
    hide Secured;
    Lagging(setup, w, w.(disk := Some(checkpoint)));
  }

  lemma ProjectMade(setup: Setup, w: World)
    requires Consistent(setup, w) && w.disk.Some?
    ensures var next := w.(projects := w.projects + {w.disk.value.projectId}); Consistent(setup, next) && Advances(w, next)
  {
    EffectConsistent(setup, w, w.(projects := w.projects + {w.disk.value.projectId}));
    hide Consistent;
  }

  lemma OneSheet(setup: Setup, w: World, m: Sheet)
    requires Consistent(setup, w) && m in w.sheets
    ensures w.sheets == [m]
  {
    hide KeyInvariant, OriginInvariant;
  }

  lemma NoSheetYet(setup: Setup, w: World)
    requires Consistent(setup, w) && Rank(w.disk) <= 3
    ensures w.sheets == []
  {
    hide KeyInvariant, OriginInvariant;
  }

  lemma MatchingOne(setup: Setup, w: World, env: Env, calls: nat)
    requires Consistent(setup, w) && Rank(w.disk) == 4 && w.sheets != [] && 1 <= calls <= G.MAX_PAGES && G.Reads(env.lookup, calls)
    ensures CleanLookup(env, w.sheets[0].id) <==>
              Matching(G.Items(env.lookup, calls), w.disk.value.stage.marker, w.sheets) == [ListedFile(w.sheets[0].id, true)]
    ensures forall m :: m in Matching(G.Items(env.lookup, calls), w.disk.value.stage.marker, w.sheets) ==> m.id == w.sheets[0].id
  {
    hide KeyInvariant, OriginInvariant, G.Reads;
    assert w.sheets == [w.sheets[0]];
    MatchingWithId(G.Items(env.lookup, calls), w.sheets[0]);
    if CleanLookup(env, w.sheets[0].id) {
      var n :| 1 <= n <= G.MAX_PAGES && G.Reads(env.lookup, n) && WithId(G.Items(env.lookup, n), w.sheets[0].id) == [ListedFile(w.sheets[0].id, true)];
      G.ReadsOnce(env.lookup, n, calls);
    }
  }

  lemma SheetMade(setup: Setup, w: World, sheet: Sheet)
    requires Consistent(setup, w) && Rank(w.disk) == 4 && w.sheets == [] && sheet.marker == w.disk.value.stage.marker
    requires w.stable == w.disk
    ensures Consistent(setup, w.(sheets := [sheet])) && Advances(w, w.(sheets := [sheet]))
  {
    hide WellFormed, HoldsKey, ReadKey, Lstat, IsForThisSetup;
    Synced(setup, w.(sheets := [sheet]));
  }

  lemma NotGranted(setup: Setup, w: World)
    requires Consistent(setup, w) && Rank(w.disk) < 6
    ensures !w.lost ==> !w.granted
  {
    hide KeyInvariant, OriginInvariant;
  }

  lemma PermissionMade(setup: Setup, w: World)
    requires Consistent(setup, w) && Rank(w.disk) == 6
    ensures Consistent(setup, w.(granted := true)) && Advances(w, w.(granted := true))
  {
    EffectConsistent(setup, w, w.(granted := true));
    hide Consistent;
  }

  lemma EnvWritten(setup: Setup, w: World)
    requires Consistent(setup, w) && Rank(w.disk) >= 7
    ensures var next := w.(envSheet := Some(w.disk.value.stage.id));
            Consistent(setup, next) && Advances(w, next) && |w.sheets| == 1 && w.sheets[0].id == w.disk.value.stage.id
  {
    EffectConsistent(setup, w, w.(envSheet := Some(w.disk.value.stage.id)));
    hide KeyInvariant, OriginInvariant;
  }

  lemma SettledKey(setup: Setup, fs: Fs, projectId: string, baseline: seq<string>, passes: nat -> PassEnv, mayCreate: bool)
    requires WellFormed(fs)
    ensures var r := Settle(fs, KeyInput(setup, projectId, baseline), passes, mayCreate);
            r.outcome.Done? ==> KeySecured(setup, End(fs, r.states), projectId, Some(baseline), r.outcome.keyReused)
  {
    SettleOkMeaning(fs, KeyInput(setup, projectId, baseline), passes, mayCreate);
  }

  /** The key path holds a key of the project's account; it was reused if no baseline or the baseline has it. */
  predicate KeySecured(setup: Setup, fs: Fs, projectId: string, baseline: Option<seq<string>>, reused: bool) {
    && ReadKey(fs).Ok? && IsForThisSetup(KeyInput(setup, projectId, []), ReadKey(fs).meta)
    && (reused <==> baseline.None? || setup.keyName(projectId, ReadKey(fs).meta.keyId) in baseline.value)
  }

  lemma KeyStartedConsistent(setup: Setup, w: World, baseline: seq<string>)
    requires Consistent(setup, w) && Rank(w.disk) == 1 && Listed(setup, w.disk.value.projectId, baseline)
    ensures var next := Moved(w, KeyStarted(baseline)).(baseline := Some(baseline));
            Consistent(setup, next) && Advances(w, next)
  {
    var next := Moved(w, KeyStarted(baseline)).(baseline := Some(baseline));
    assert Secured(setup, next) && w.baseline.None?;
    hide Secured;
    Lagging(setup, w, next);
  }

  lemma KeyReadyConsistent(setup: Setup, w: World, reused: bool)
    requires Consistent(setup, w) && 1 <= Rank(w.disk) <= 2
    requires KeySecured(setup, w.fs, w.disk.value.projectId, w.baseline, reused)
    ensures var next := Moved(w, KeyReady(if reused then KeyReused else KeyCreated));
            Consistent(setup, next) && Advances(w, next)
  {
    KeyReadySecured(setup, w, reused);
    hide Secured;
    Lagging(setup, w, Moved(w, KeyReady(if reused then KeyReused else KeyCreated)));
  }

  lemma KeyReadySecured(setup: Setup, w: World, reused: bool)
    requires Secured(setup, w) && 1 <= Rank(w.disk) <= 2
    requires KeySecured(setup, w.fs, w.disk.value.projectId, w.baseline, reused)
    ensures Secured(setup, Moved(w, KeyReady(if reused then KeyReused else KeyCreated)))
  {
    if WroteOwn(setup, w) {
      SettledIsWritten(setup, w);
    }
  }

  /** The key at the key path at the end of a settlement is the one the create wrote. */
  lemma SettledIsWritten(setup: Setup, w: World)
    requires Secured(setup, w) && 1 <= Rank(w.disk) <= 2 && ReadKey(w.fs).Ok? && WroteOwn(setup, w)
    ensures ReadKey(w.fs).meta == w.wrote.value
  {
    var input := KeyInput(setup, w.disk.value.projectId, w.disk.value.stage.baseline);
    var names := [input.nameOf(w.wrote.value.keyId)];
    assert Matches(input, names, w.wrote.value);
  }

  lemma KeepsConsistent(setup: Setup, start: World, next: Fs)
    requires Consistent(setup, start) && Rank(start.disk) == 2 && WellFormed(next) && KeepsFiles(start.fs, next)
    requires Recoverable(setup, start.(fs := next)) && start.stable == start.disk
    ensures Consistent(setup, start.(fs := next))
  {
    if start.wrote.Some? {
      HoldsKeyKept(start.fs, next, start.wrote.value);
    }
    Synced(setup, start.(fs := next));
  }

  lemma CreateCounted(setup: Setup, w: World)
    requires Consistent(setup, w) && Rank(w.disk) == 2 && w.stable == w.disk && w.keyCreates == 0
    ensures Consistent(setup, w.(keyCreates := 1)) && Advances(w, w.(keyCreates := 1))
  {
    Synced(setup, w.(keyCreates := 1));
  }

  lemma WrittenConsistent(setup: Setup, w: World, data: FileData)
    requires Consistent(setup, w) && Rank(w.disk) == 2 && w.stable == w.disk
    requires w.keyCreates == 1 && Writable(w.fs) && NothingLocal(w.fs) && w.wrote.None?
    ensures var next := w.(fs := WriteNew(w.fs, StageDir, KEY_FILE, data), wrote := if data.KeyFile? then Some(data.meta) else w.wrote);
            Consistent(setup, next) && Advances(w, next)
  {
    hide SettlesOn, NothingLocal;
    WriteKeeps(w.fs, data);
    KeepsConsistent(setup, w, WriteNew(w.fs, StageDir, KEY_FILE, data));
    if data.KeyFile? {
      WrittenKey(w.fs, data.meta);
      WrittenRecovers(w.fs, KeyInput(setup, w.disk.value.projectId, w.disk.value.stage.baseline), data.meta);
    }
    Synced(setup, w.(fs := WriteNew(w.fs, StageDir, KEY_FILE, data), wrote := if data.KeyFile? then Some(data.meta) else w.wrote));
  }

  /** Under an unsynced checkpoint no key is staged, and a settlement that may not create moves nothing. */
  lemma NothingToSettle(setup: Setup, w: World, input: Input, passes: nat -> PassEnv)
    requires Consistent(setup, w) && Rank(w.disk) == 2 && w.stable != w.disk
    ensures Checks(w.fs, input, passes, 1).states == []
  {
    NothingMoves(w.fs, input, passes, 1);
  }

  lemma {:induction false} NothingMoves(fs: Fs, input: Input, passes: nat -> PassEnv, attempt: nat)
    requires Lstat(fs, StageDir).None? && Lstat(fs, CleanupDir).None? && 1 <= attempt <= MAX_ATTEMPTS
    ensures Checks(fs, input, passes, attempt).states == []
    decreases MAX_ATTEMPTS - attempt
  {
    NothingPassed(fs, input, passes(attempt).list, passes(attempt).faults);
    hide EvidencePass;
    if attempt < MAX_ATTEMPTS {
      NothingMoves(fs, input, passes, attempt + 1);
    }
  }

  lemma NothingPassed(fs: Fs, input: Input, list: Option<seq<string>>, faults: set<Call>)
    requires Lstat(fs, StageDir).None? && Lstat(fs, CleanupDir).None?
    ensures EvidencePass(fs, input, list, faults).states == []
  {
  }

  ghost predicate AllRecoverable(setup: Setup, w: World, states: seq<Fs>) {
    forall i :: 0 <= i < |states| ==> Recoverable(setup, w.(fs := states[i]))
  }

  lemma NothingWrote(setup: Setup, w: World)
    requires Consistent(setup, w) && w.keyCreates == 0
    ensures WellFormed(w.fs) && w.wrote.None? && forall states :: AllRecoverable(setup, w, states)
  {
  }

  lemma ChecksRecoverable(setup: Setup, w: World, input: Input, passes: nat -> PassEnv)
    requires Consistent(setup, w) && Rank(w.disk) == 2
    requires input == KeyInput(setup, w.disk.value.projectId, w.disk.value.stage.baseline)
    ensures AllRecoverable(setup, w, Checks(w.fs, input, passes, 1).states)
  {
    hide Checks, Settleable, Matches;
    if w.wrote.Some? {
      var states := Checks(w.fs, input, passes, 1).states;
      forall i, names | 0 <= i < |states| && Matches(input, names, w.wrote.value)
        ensures Settleable(states[i], input, names) && KeyOf(states[i]) == KeyRead.Ok(w.wrote.value)
      {
        ChecksSettleable(w.fs, input, passes, names);
      }
    }
  }

  lemma WrittenRecovers(fs: Fs, input: Input, meta: KeyMeta)
    requires WellFormed(fs) && Writable(fs) && NothingLocal(fs)
    ensures SettlesOn(input, WriteNew(fs, StageDir, KEY_FILE, KeyFile(meta)), meta)
  {
    hide Matches, Installable;
    var next := WriteNew(fs, StageDir, KEY_FILE, KeyFile(meta));
    forall names | Matches(input, names, meta)
      ensures Settleable(next, input, names) && KeyOf(next) == KeyRead.Ok(meta)
    {
      FreshKeyInstallable(fs, input, names, meta);
    }
  }

  /** The stage is a directory without a key file. */
  predicate Writable(fs: Fs) {
    ReadStaged(fs).Absent? && Lstat(fs, StageDir).Some? && Lstat(fs, StageDir).value.1.Dir?
  }

  /** A pass that created prepared the stage first; what it wrote is all that followed. */
  lemma PreparedStage(fs: Fs, input: Input, env: PassEnv)
    requires WellFormed(fs) && SettlePass(fs, input, env, true).creates != 0
    ensures SettlePass(fs, input, env, true).creates == 1
    ensures Mkdir(fs, StageDir).Some? ==> AllKeep(fs, [Mkdir(fs, StageDir).value])
    ensures var made := if Mkdir(fs, StageDir).Some? then Mkdir(fs, StageDir).value else fs;
            && Writable(made) && (NothingLocal(fs) ==> NothingLocal(made))
            && End(fs, SettlePass(fs, input, env, true).states) ==
               if env.wrote.Some? then WriteNew(made, StageDir, KEY_FILE, env.wrote.value) else made
  {
    hide EvidencePass;
    NoEvidenceMeaning(fs, input, env);
    if Mkdir(fs, StageDir).Some? {
      MkdirKeeps(fs, StageDir);
    }
  }

  lemma WrittenKey(fs: Fs, meta: KeyMeta)
    requires WellFormed(fs) && Writable(fs)
    ensures var next := WriteNew(fs, StageDir, KEY_FILE, KeyFile(meta));
            WellFormed(next) && KeepsFiles(fs, next) && HoldsKey(next, meta)
  {
    WriteKeeps(fs, KeyFile(meta));
    var next := WriteNew(fs, StageDir, KEY_FILE, KeyFile(meta));
    assert LinkedIn(next, StageDir, KEY_FILE, fs.next);
    assert next.nodes[fs.next] == File(KeyFile(meta));
  }

  ghost predicate AllConsistent(setup: Setup, trace: seq<World>) {
    forall i :: 0 <= i < |trace| ==> Consistent(setup, trace[i])
  }

  ghost predicate Chained(trace: seq<World>) {
    forall i :: 0 <= i < |trace| - 1 ==> Advances(trace[i], trace[i + 1])
  }

  /** How a run ends: in one of the worlds it recorded, there or with the power lost. */
  datatype CutOff = CutOff(at: nat, powerLost: bool)

  /** One run, cut off. */
  method RunCutOff(setup: Setup, start: World, env: Env, cut: CutOff) returns (next: World)
    requires Consistent(setup, start)
    ensures Consistent(setup, next) && Remains(start, next)
    ensures !cut.powerLost ==> Follows(start, next)
  {
    hide Consistent, Advances, Follows, Remains, PowerLoss;
    var flow := new Flow(setup, start);
    var _ := flow.RunSetup(env);
    var k := if cut.at < |flow.trace| then cut.at else |flow.trace| - 1;
    assert flow.trace[0] == start;
    ChainFollows(flow.trace, k);
    next := flow.trace[k];
    FollowsRemains(start, next);
    if cut.powerLost {
      LossConsistent(setup, next);
      next := PowerLoss(next);
    }
  }

  /**
   Any number of runs, each started from a world its predecessor recorded, there or with the power lost: the last
   one, or an earlier one that a crash cut it off in. Every world is consistent and records the provenance of its
   key; there is one key create and one spreadsheet at the most; only the decided project is created and a
   permission of the setup is recorded as fresh, as long as no power loss took back the record of such a change; and
   without power loss the worlds the runs start from follow each other as steps do.
   */
  method ManyRuns(setup: Setup, start: World, envs: seq<Env>, cuts: seq<CutOff>) returns (starts: seq<World>)
    requires Consistent(setup, start) && |cuts| == |envs|
    ensures |starts| == |envs| + 1 && starts[0] == start && AllConsistent(setup, starts)
    ensures forall i :: 0 <= i < |envs| ==> Remains(starts[i], starts[i + 1]) && (!cuts[i].powerLost ==> Follows(starts[i], starts[i + 1]))
    ensures forall i :: 0 <= i < |starts| ==> Promises(setup, starts[i])
  {
    hide Consistent, Follows, Remains, Promises;
    starts := [start];
    for i := 0 to |envs|
      invariant |starts| == i + 1 && starts[0] == start && AllConsistent(setup, starts)
      invariant forall j :: 0 <= j < i ==> Remains(starts[j], starts[j + 1]) && (!cuts[j].powerLost ==> Follows(starts[j], starts[j + 1]))
    {
      var next := RunCutOff(setup, starts[i], envs[i], cuts[i]);
      starts := starts + [next];
    }
    forall i | 0 <= i < |starts|
      ensures Promises(setup, starts[i])
    {
      PromisesKept(setup, starts[i]);
    }
  }

  /** What the setup promises of every world its runs start from. */
  ghost predicate Promises(setup: Setup, w: World) {
    && w.keyCreates <= 1 && |w.sheets| <= 1 && Provenance(setup, w)
    && (!w.lost ==>
          && (w.disk.Some? ==> w.projects <= {w.disk.value.projectId}) && (w.disk.None? ==> w.projects == {})
          && (Rank(w.disk) >= 7 && w.granted ==> w.disk.value.stage.share.ShareFresh?))
  }

  lemma PromisesKept(setup: Setup, w: World)
    requires Consistent(setup, w)
    ensures Promises(setup, w)
  {
  }

  // ---- What an unsynced checkpoint can break ----

  /** The project phase of a run over what an earlier one left. */
  method ProjectPhase(setup: Setup, start: World, env: Env) returns (r: Step<ProjectId>, end: World)
    requires Consistent(setup, start) && env.loggedIn && env.driveAccess && env.requested.None?
    ensures Consistent(setup, end)
    ensures start.disk.None? && env.saves(0) == SaveFailed(true) ==>
              end == start.(disk := Some(Checkpoint(env.generatedId, Generated, ProjectSelected)))
    ensures CleanProject(env, start.disk) && AllSaved(env) ==> r.Go?
    ensures r.Go? ==> start.projects <= end.projects && (start.disk.Some? ==> end.stable == start.stable)
    ensures r.Go? ==> r.value == if start.disk.Some? then start.disk.value.projectId else env.generatedId
    ensures r.Go? && Rank(start.disk) < 2 && !IsExplicit(env, start.disk) && env.describe != Found ==> r.value in end.projects
  {
    hide Consistent, Advances, P.Reached, P.UnderWay, P.AllAccepted, Explained;
    var flow := new Flow(setup, start);
    var _ := flow.Preflight(env);
    flow.Resume(start.disk);
    r := flow.SelectProject(env, start.disk);
    end := flow.w;
    if Rank(start.disk) < 2 {
      SaveReplied(env, 0);
      SelectedMeans(env, start.disk, start, end, env.saves(0), r);
    }
    ChainFollows(flow.trace, |flow.trace| - 1);
  }

  /**
   A first run decides project `a`, but the directory sync of its checkpoint fails. The next run finds the checkpoint
   and creates `a`; then the power is lost, and the run after that creates `b`.
   */
  method SecondProject(setup: Setup, fs: Fs, first: Env, second: Env, third: Env) returns (end: World)
    requires WellFormed(fs) && Lstat(fs, StageDir).None? && Lstat(fs, CleanupDir).None?
    requires forall e :: e in [first, second, third] ==> e.loggedIn && e.driveAccess && e.requested.None?
    requires first.saves(0) == SaveFailed(true)
    requires AllSaved(second) && AllSaved(third) && second.describe == Missing && third.describe == Missing
    requires second.createProject.Made? && third.createProject.Made? && second.services && third.services
    ensures Consistent(setup, end) && {first.generatedId, third.generatedId} <= end.projects
  {
    hide Consistent;
    FirstWorldConsistent(setup, fs);
    assert first in [first, second, third] && second in [first, second, third] && third in [first, second, third];
    var _, decided := ProjectPhase(setup, World(None, fs, {}, 0, None, None, [], false, None, None, false), first);
    var _, created := ProjectPhase(setup, decided, second);
    LossConsistent(setup, created);
    var _, again := ProjectPhase(setup, PowerLoss(created), third);
    end := again;
  }

  /** The share phase of a run over what an earlier one left. */
  method SharePhase(setup: Setup, start: World, env: Env) returns (r: Step<ShareOrigin>, end: World)
    requires Consistent(setup, start) && 5 <= Rank(start.disk) <= 6
    ensures Consistent(setup, end) && (start.granted ==> end.granted) && end.disk.Some?
    ensures Rank(start.disk) == 5 && env.saves(0) == SaveFailed(true) ==> end == start.(disk := end.disk) && Rank(end.disk) == 6
    ensures Rank(start.disk) == 6 && env.share.Ensured? && env.share.role != RoleReused && env.saves(0) == SaveFailed(false) ==>
              end == start.(granted := true)
    ensures env.share.Ensured? && AllSaved(env) ==> r.Go?
    ensures r.Go? ==> end.disk.value.stage.Shared? && end.disk.value.stage.share == r.value
    ensures r.Go? && Rank(start.disk) == 5 && env.share == Ensured(RoleReused) ==> r.value == ShareReused
  {
    hide Consistent, Advances, AllSaved;
    var flow := new Flow(setup, start);
    r := flow.ShareSheet(env, start.disk, start.disk.value.stage.id, start.disk.value.stage.origin);
    end := flow.w;
    ChainFollows(flow.trace, |flow.trace| - 1);
  }

  /**
   A first run records the share, but the directory sync of its checkpoint fails. The next run finds the checkpoint
   and makes the permission; then the power is lost, and the run after that records the permission as reused.
   */
  method ShareForgotten(setup: Setup, start: World, first: Env, second: Env, third: Env) returns (end: World)
    requires Consistent(setup, start) && Rank(start.disk) == 5 && start.stable == start.disk
    requires first.saves(0) == SaveFailed(true) && second.saves(0) == SaveFailed(false) && AllSaved(third)
    requires second.share == Ensured(RoleCreated) && third.share == Ensured(RoleReused)
    ensures Consistent(setup, end) && end.granted && end.disk.Some? && end.disk.value.stage.Shared? && end.disk.value.stage.share == ShareReused
  {
    hide Consistent;
    var _, recorded := SharePhase(setup, start, first);
    var _, made := SharePhase(setup, recorded, second);
    LossConsistent(setup, made);
    var _, again := SharePhase(setup, PowerLoss(made), third);
    end := again;
  }

  /** What is remote stays, whatever is lost here. */
  ghost predicate Remains(a: World, b: World) {
    && a.keyCreates <= b.keyCreates && a.sheets <= b.sheets && (a.granted ==> b.granted) && a.projects <= b.projects
    && (a.wrote.Some? ==> b.wrote == a.wrote) && (a.lost ==> b.lost)
  }

  lemma FollowsRemains(a: World, b: World)
    requires Follows(a, b)
    ensures Remains(a, b) && Remains(a, PowerLoss(b))
  {
  }

  /**
   Crash recovery: after any number of runs cut off anywhere, with or without power loss, once a create has written its key, one run with
   good answers completes the setup, with no second create, and with that key at the key path and recorded as
   created, unless the baseline had listed it.
   */
  method ResumeAfterCrashes(setup: Setup, start: World, envs: seq<Env>, cuts: seq<CutOff>, last: Env)
      returns (interrupted: World, r: Step<string>, end: World)
    requires Consistent(setup, start) && |cuts| == |envs|
    ensures Consistent(setup, interrupted) && Consistent(setup, end) && Follows(interrupted, end)
    ensures interrupted.wrote.Some? && GoodAnswers(setup, last, interrupted) ==>
              r.Go?
    ensures r.Go? ==> Delivered(end, r.value)
    ensures interrupted.wrote.Some? ==> end.keyCreates == interrupted.keyCreates == 1 && end.wrote == interrupted.wrote
    ensures r.Go? && WroteOwn(setup, interrupted) ==> RecordsKey(setup, end, interrupted.wrote.value)
  {
    hide Consistent, Follows, CleanRun, GoodAnswers, Delivered, Provenance, RecordsKey, WroteOwn;
    var starts := ManyRuns(setup, start, envs, cuts);
    interrupted := starts[|envs|];
    WroteMeans(setup, interrupted);
    if interrupted.wrote.Some? && GoodAnswers(setup, last, interrupted) {
      CreatedKeyCompletes(setup, last, interrupted);
    }
    var flow := new Flow(setup, interrupted);
    r := flow.RunSetup(last);
    end := flow.w;
    ChainFollows(flow.trace, |flow.trace| - 1);
    CreatedKept(setup, interrupted, end);
    if r.Go? {
      DeliveredRecords(setup, end, r.value);
    }
    assert r.Go? && WroteOwn(setup, interrupted) ==> RecordsKey(setup, end, interrupted.wrote.value);
  }

  /**
   A rejected create is taken back, and one run with good answers then creates the spreadsheet and completes: the
   rejected marker does not block the setup.
   */
  method RejectedThenDelivered(setup: Setup, start: World, first: Env, second: Env) returns (between: World, r: Step<string>, end: World)
    requires Consistent(setup, start) && Rank(start.disk) <= 3 && first.loggedIn && first.driveAccess
    requires CleanToSheet(setup, first, start) && SheetRejected(first)
    requires second.loggedIn && second.driveAccess && AllSaved(second) && second.compatible && !second.keyReadFails && second.requested.None?
    requires CleanCreateSheet(second) && second.share.Ensured? && second.keyRead && second.verified && second.envWritten
    ensures Consistent(setup, between) && between.disk.Some? && between.disk.value.stage.KeyReady? && between.sheets == []
    ensures r.Go? && Consistent(setup, end) && Delivered(end, r.value) && end.keyCreates == between.keyCreates
  {
    hide Consistent, Follows, CleanToSheet, SheetRejected, CleanCreateSheet, AllSaved;
    var flow := new Flow(setup, start);
    var _ := flow.RunSetup(first);
    between := flow.w;
    ChainFollows(flow.trace, |flow.trace| - 1);
    NoSheetYet(setup, between);
    ReadyIsClean(setup, between, second);
    var again := new Flow(setup, between);
    r := again.RunSetup(second);
    end := again.w;
    ChainFollows(again.trace, |again.trace| - 1);
  }

  lemma ReadyIsClean(setup: Setup, w: World, env: Env)
    requires w.disk.Some? && w.disk.value.stage.KeyReady? && env.requested.None?
    requires AllSaved(env) && env.compatible && !env.keyReadFails
    requires CleanCreateSheet(env) && env.share.Ensured? && env.keyRead && env.verified && env.envWritten
    ensures CleanRun(setup, env, w)
  {
    hide CleanCreateSheet, AllSaved;
  }

  /**
   A checkpoint vouches for exactly the phases whose work is done: the account from the recorded baseline on, the key
   from `key_ready` on, the spreadsheet, the share and the access check with their own statuses. What they vouch for is
   there in every consistent world.
   */
  lemma VouchedIsDone(setup: Setup, w: World)
    requires Consistent(setup, w) && w.disk.Some?
    ensures var k := P.CheckpointCompleted(w.disk.value.stage);
            && (k >= 1 <==> Rank(w.disk) >= 2) && (k >= 3 <==> k >= 1)
            && (k >= 4 <==> Rank(w.disk) >= 3) && (k >= 4 ==> ReadKey(w.fs).Ok?)
            && (k >= 5 <==> Rank(w.disk) >= 5) && (k >= 5 ==> |w.sheets| == 1 && w.sheets[0].id == w.disk.value.stage.id)
            && (k >= 6 <==> Rank(w.disk) >= 7)
            && (k >= 7 <==> w.disk.value.stage.Complete?) && k <= 7
  {
    hide KeyInvariant, Recoverable, BaselineInvariant;
  }

  /** A written key stays the written key. */
  lemma CreatedKept(setup: Setup, a: World, b: World)
    requires Consistent(setup, a) && Consistent(setup, b) && Follows(a, b)
    ensures a.wrote.Some? ==> a.keyCreates == b.keyCreates == 1 && b.wrote == a.wrote
    ensures WroteOwn(setup, a) ==> WroteOwn(setup, b) && b.wrote == a.wrote
  {
  }

  lemma DeliveredRecords(setup: Setup, w: World, id: string)
    requires Consistent(setup, w) && Delivered(w, id)
    ensures WroteOwn(setup, w) ==> RecordsKey(setup, w, w.wrote.value)
  {
    CreatedIsRecorded(setup, w);
    hide Consistent;
  }

  lemma WroteMeans(setup: Setup, w: World)
    requires Consistent(setup, w)
    ensures w.wrote.Some? ==> w.keyCreates == 1 && Rank(w.disk) >= 2
  {
  }

  /** In every consistent world the checkpoint records the provenance of the key the create wrote. */
  lemma CreatedIsRecorded(setup: Setup, w: World)
    requires Consistent(setup, w)
    ensures Provenance(setup, w)
  {
  }

  /** Before the first run: no checkpoint, nothing created, and at most a key file in the directory. */
  lemma FirstWorldConsistent(setup: Setup, fs: Fs)
    requires WellFormed(fs) && Lstat(fs, StageDir).None? && Lstat(fs, CleanupDir).None?
    ensures Consistent(setup, World(None, fs, {}, 0, None, None, [], false, None, None, false))
  {
  }

  /** What any number of steps leads to: nothing remote is undone and a decided project or spreadsheet stays. */
  ghost predicate Follows(a: World, b: World) {
    && (a.disk.Some? ==> b.disk.Some? && b.disk.value.projectId == a.disk.value.projectId)
    && (Rank(a.disk) <= Rank(b.disk) || (Rank(a.disk) == 4 && Rank(b.disk) == 3 && a.sheets == []))
    && (Rank(a.disk) >= 5 ==> b.disk.value.stage.id == a.disk.value.stage.id)
    && (Rank(a.disk) >= 3 ==> b.disk.value.stage.origin == a.disk.value.stage.origin)
    && a.keyCreates <= b.keyCreates && (Rank(a.disk) >= 3 ==> a.keyCreates == b.keyCreates)
    && a.sheets <= b.sheets && (Rank(a.disk) >= 5 ==> a.sheets == b.sheets)
    && (a.wrote.Some? ==> b.wrote == a.wrote) && (a.baseline.Some? ==> b.baseline == a.baseline)
    && (a.granted ==> b.granted) && a.projects <= b.projects && b.lost == a.lost
  }

  lemma {:induction false} ChainFollows(trace: seq<World>, k: nat)
    requires Chained(trace) && k < |trace|
    ensures Follows(trace[0], trace[k])
  {
    if k > 0 {
      ChainFollows(trace, k - 1);
      assert Advances(trace[k - 1], trace[k - 1 + 1]);
    }
  }
}
