/**
 The validating progress tracker: it accepts or ignores every event, and whatever it is fed its state stays
 one that the progress bars can show.
 */
module Progress {
  import opened Text
  import K = KeyProvision
  import S = KeySettle
  import W = SetupWorld
  import KeyDisk

  datatype Phase =
    | CloudAuth | DriveAccess | Project | Apis | ServiceAccount | ServiceAccountKey | Spreadsheet | Share | SaAccess | Output
    | PoolExpansion | UnknownPhase

  /** The ten counted phases in execution order. */
  const PHASES := [CloudAuth, DriveAccess, Project, Apis, ServiceAccount, ServiceAccountKey, Spreadsheet, Share, SaAccess, Output]

  /** The phases a checkpoint can vouch for, in order. */
  const RESUMABLE := [Project, Apis, ServiceAccount, ServiceAccountKey, Spreadsheet, Share, SaAccess]

  const MAX_ATTEMPTS := 8

  datatype Source = Run | Checkpoint | OtherSource

  datatype RetryKind = KeySettlement | SaAccessCheck

  /** A fixed generic label, the label of a bounded check, or a value that is neither. */
  datatype Operation = Generic(name: nat) | Bounded(kind: RetryKind) | UnknownOperation

  datatype CheckInfo = CheckInfo(attempt: int, maxAttempts: int)

  datatype Event =
    | Resumed(list: seq<Phase>)
    | PhaseStarted(phase: Phase)
    | PhaseCompleted(phase: Phase, source: Source)
    | OperationStarted(phase: Phase, operation: Operation, check: Option<CheckInfo>)
    | OperationCompleted(phase: Phase, operation: Operation, check: Option<CheckInfo>)
    | RetryWaitStarted(phase: Phase, kind: RetryKind, info: CheckInfo, delayMs: int)
    | PhaseFailed(phase: Phase, stableCode: bool)

  /** What can be asked of the tracker: an event, the reset before a login retry, or a late failure. */
  datatype Input = Report(event: Event) | ResetTransient | MarkFailed(phase: Phase, stableCode: bool)

  datatype ActiveOperation = ActiveOperation(phase: Phase, operation: Operation, check: Option<CheckInfo>)
  datatype ActiveRetry = ActiveRetry(phase: Phase, kind: RetryKind, info: CheckInfo)

  datatype State = State(
    completed: set<Phase>, current: Option<Phase>, operation: Option<ActiveOperation>, retry: Option<ActiveRetry>,
    failed: Option<Phase>, resumed: bool, poolDone: bool)

  const START := State({}, None, None, None, None, false, false)

  /** The state after an input and whether the tracker accepted it. */
  datatype Outcome = Outcome(state: State, accepted: bool)

  function Index(phase: Phase): nat {
    match phase
    case CloudAuth => 0 case DriveAccess => 1 case Project => 2 case Apis => 3 case ServiceAccount => 4
    case ServiceAccountKey => 5 case Spreadsheet => 6 case Share => 7 case SaAccess => 8 case Output => 9
    case PoolExpansion => 10 case UnknownPhase => 11
  }

  predicate Counted(phase: Phase) {
    Index(phase) < 10
  }

  function KindOf(phase: Phase): Option<RetryKind> {
    match phase
    case ServiceAccountKey => Some(KeySettlement)
    case SaAccess => Some(SaAccessCheck)
    case _ => None
  }

  predicate AllEarlierCompleted(s: State, phase: Phase) {
    Counted(phase) && forall p: Phase :: Index(p) < Index(phase) ==> p in s.completed
  }

  predicate IsValidNextPhase(s: State, phase: Phase) {
    if phase == PoolExpansion then s.current.None? && !s.poolDone && Output in s.completed
    else s.current.None? && phase !in s.completed && AllEarlierCompleted(s, phase)
  }

  predicate IsValidCheck(info: CheckInfo) {
    1 <= info.attempt <= MAX_ATTEMPTS && info.maxAttempts == MAX_ATTEMPTS
  }

  predicate IsValidOperation(phase: Phase, operation: Operation, check: Option<CheckInfo>) {
    match check
    case Some(info) => IsValidCheck(info) && KindOf(phase).Some? && operation == Bounded(KindOf(phase).value)
    case None => operation != UnknownOperation
  }

  /** The state without what belongs to a phase that is over. */
  function Cleared(s: State, phase: Phase): State {
    s.(current := if s.current == Some(phase) then None else s.current,
       retry := if s.retry.Some? && s.retry.value.phase == phase then None else s.retry,
       operation := if s.operation.Some? && s.operation.value.phase == phase then None else s.operation)
  }

  function Failing(s: State, phase: Phase): State {
    s.(failed := Some(phase), current := None, retry := None, operation := None)
  }

  function Completing(s: State, phase: Phase, source: Source): Outcome {
    if source == OtherSource || phase == UnknownPhase then Outcome(s, false)
    else if phase == PoolExpansion then
      if s.poolDone || s.current != Some(PoolExpansion) then Outcome(s, false)
      else Outcome(Cleared(s, phase).(poolDone := true), true)
    else if phase in s.completed || (if source == Run then s.current != Some(phase) else !AllEarlierCompleted(s, phase)) then
      Outcome(s, false)
    else Outcome(Cleared(s, phase).(completed := s.completed + {phase}), true)
  }

  function Elements(list: seq<Phase>): set<Phase> {
    set p | p in list
  }

  function Next(s: State, event: Event): Outcome {
    match event
    case Resumed(list) =>
      if !(list <= RESUMABLE) then Outcome(s, false)
      else Outcome(s.(completed := s.completed + Elements(list), resumed := true), true)
    case PhaseStarted(phase) =>
      if !IsValidNextPhase(s, phase) then Outcome(s, false)
      else
        Outcome(s.(current := Some(phase), failed := None,
                   retry := if s.retry.Some? && s.retry.value.phase == phase then None else s.retry), true)
    case PhaseCompleted(phase, source) => Completing(s, phase, source)
    case OperationStarted(phase, operation, check) =>
      if s.current != Some(phase) || !IsValidOperation(phase, operation, check) then Outcome(s, false)
      else
        Outcome(s.(operation := Some(ActiveOperation(phase, operation, check)),
                   retry := if check.Some? then Some(ActiveRetry(phase, operation.kind, check.value)) else s.retry), true)
    case OperationCompleted(phase, operation, check) =>
      if s.current != Some(phase) || !IsValidOperation(phase, operation, check) ||
         s.operation != Some(ActiveOperation(phase, operation, check)) then Outcome(s, false)
      else
        Outcome(s.(operation := None,
                   retry := if check.Some? then Some(ActiveRetry(phase, operation.kind, check.value)) else s.retry), true)
    case RetryWaitStarted(phase, kind, info, delayMs) =>
      if s.current != Some(phase) || KindOf(phase) != Some(kind) || !IsValidCheck(info) || delayMs < 0 then Outcome(s, false)
      else Outcome(s.(retry := Some(ActiveRetry(phase, kind, info))), true)
    case PhaseFailed(phase, stableCode) =>
      if s.current != Some(phase) || !stableCode then Outcome(s, false) else Outcome(Failing(s, phase), true)
  }

  function Ask(s: State, input: Input): Outcome {
    match input
    case Report(event) => Next(s, event)
    case ResetTransient => Outcome(s.(current := None, operation := None, retry := None, failed := None), true)
    case MarkFailed(phase, stableCode) =>
      if phase == UnknownPhase || !stableCode then Outcome(s, false) else Outcome(Failing(s, phase), true)
  }

  function RunAll(s: State, inputs: seq<Input>): State
    decreases |inputs|
  {
    if inputs == [] then s else RunAll(Ask(s, inputs[0]).state, inputs[1..])
  }

  // ---- Invariants ----

  /**
   An operation or retry belongs to the current phase; the current phase comes after completed ones; only
   counted phases are completed, and each with all before it, or before it from `project` on; a finished pool
   had a finished output.
   */
  predicate Consistent(s: State) {
    && (s.operation.Some? ==> s.current == Some(s.operation.value.phase)
                              && IsValidOperation(s.operation.value.phase, s.operation.value.operation, s.operation.value.check))
    && (s.retry.Some? ==> s.current == Some(s.retry.value.phase) && KindOf(s.retry.value.phase) == Some(s.retry.value.kind)
                          && IsValidCheck(s.retry.value.info))
    && (s.current.Some? ==> if s.current.value == PoolExpansion then Output in s.completed && !s.poolDone
                            else AllEarlierCompleted(s, s.current.value))
    && (forall p: Phase :: p in s.completed ==> Counted(p) && InOrder(s, p))
    && (s.poolDone ==> Output in s.completed)
  }

  /** Everything before the phase is completed, or it is resumable and everything resumable before it is. */
  predicate InOrder(s: State, phase: Phase) {
    || (forall p: Phase :: Index(p) < Index(phase) ==> p in s.completed)
    || (2 <= Index(phase) <= 8 && forall p: Phase :: 2 <= Index(p) < Index(phase) ==> p in s.completed)
  }

  /** A valid list covers the resumable phases up to some point. */
  lemma PrefixElements(list: seq<Phase>, p: Phase)
    requires list <= RESUMABLE
    ensures p in list <==> 2 <= Index(p) < 2 + |list|
  {
    assert RESUMABLE[0] == Project && RESUMABLE[1] == Apis && RESUMABLE[2] == ServiceAccount && RESUMABLE[3] == ServiceAccountKey;
    assert RESUMABLE[4] == Spreadsheet && RESUMABLE[5] == Share && RESUMABLE[6] == SaAccess;
    if 2 <= Index(p) < 2 + |list| {
      assert list[Index(p) - 2] == p;
    }
  }

  lemma ResumedKeeps(s: State, list: seq<Phase>)
    requires Consistent(s)
    ensures Consistent(Next(s, Resumed(list)).state)
  {
    var n := Next(s, Resumed(list)).state;
    if list <= RESUMABLE {
      forall p: Phase | p in n.completed
        ensures Counted(p) && InOrder(n, p)
      {
        PrefixElements(list, p);
        if p in list {
          forall q: Phase | 2 <= Index(q) < Index(p)
            ensures q in n.completed
          {
            PrefixElements(list, q);
          }
        }
      }
    }
  }

  /** More completed phases leave the completed ones in order. */
  lemma InOrderGrows(s: State, n: State, phase: Phase)
    requires s.completed <= n.completed && InOrder(s, phase)
    ensures InOrder(n, phase)
  {
  }

  lemma CompletingOrder(s: State, phase: Phase, source: Source)
    requires Consistent(s)
    ensures var n := Completing(s, phase, source).state;
            forall p: Phase :: p in n.completed ==> Counted(p) && InOrder(n, p)
  {
    hide IsValidOperation, IsValidCheck, KindOf;
    var n := Completing(s, phase, source).state;
    forall p: Phase | p in n.completed
      ensures Counted(p) && InOrder(n, p)
    {
      if p in s.completed {
        hide InOrder;
        InOrderGrows(s, n, p);
      } else {
        assert AllEarlierCompleted(s, phase);
      }
    }
  }

  lemma CompletingKeeps(s: State, phase: Phase, source: Source)
    requires Consistent(s)
    ensures Consistent(Completing(s, phase, source).state)
  {
    CompletingOrder(s, phase, source);
    hide InOrder, IsValidOperation, IsValidCheck, KindOf;
  }

  /** Starting, failing, operations and retries leave what is completed alone. */
  lemma OtherKeeps(s: State, event: Event)
    requires Consistent(s) && !event.Resumed? && !event.PhaseCompleted?
    ensures Consistent(Next(s, event).state) && Next(s, event).state.completed == s.completed
  {
    hide KindOf, Index;
    var n := Next(s, event).state;
    assert n.completed == s.completed && n.poolDone == s.poolDone;
    assert forall p: Phase :: InOrder(n, p) == InOrder(s, p);
  }

  lemma FailingKeeps(s: State, phase: Phase)
    requires Consistent(s)
    ensures Consistent(Failing(s, phase)) && Consistent(s.(current := None, operation := None, retry := None, failed := None))
  {
    assert forall p: Phase :: InOrder(Failing(s, phase), p) == InOrder(s, p);
    assert forall p: Phase :: InOrder(s.(current := None, operation := None, retry := None, failed := None), p) == InOrder(s, p);
  }

  lemma AskKeeps(s: State, input: Input)
    requires Consistent(s)
    ensures Consistent(Ask(s, input).state) && s.completed <= Ask(s, input).state.completed
  {
    hide Consistent;
    match input {
      case Report(Resumed(list)) => ResumedKeeps(s, list);
      case Report(PhaseCompleted(phase, source)) => CompletingKeeps(s, phase, source);
      case Report(event) => OtherKeeps(s, event);
      case ResetTransient => FailingKeeps(s, CloudAuth);
      case MarkFailed(phase, _) => FailingKeeps(s, phase);
    }
  }

  /** Ten minus the phases that are missing; the bar shows it out of ten. */
  function CompletedCount(s: State): (n: nat)
    ensures n <= 10
  {
    var n := |s.completed|;
    if n > 10 then 10 else n
  }

  function AllPhases(): set<Phase> {
    {CloudAuth, DriveAccess, Project, Apis, ServiceAccount, ServiceAccountKey, Spreadsheet, Share, SaAccess, Output}
  }

  lemma AllCompleted(s: State)
    requires Consistent(s)
    ensures s.completed <= AllPhases()
    ensures Output in s.completed ==> s.completed == AllPhases()
  {
    if Output in s.completed {
      assert InOrder(s, Output);
      assert AllPhases() <= s.completed;
    }
  }

  lemma CountMeaning(s: State)
    requires Consistent(s)
    ensures CompletedCount(s) == |s.completed|
    ensures CompletedCount(s) == 10 <==> Output in s.completed
  {
    hide Consistent, InOrder;
    AllCompleted(s);
    assert |AllPhases()| == 10;
    SubsetSize(s.completed, AllPhases());
  }

  lemma SubsetSize(a: set<Phase>, b: set<Phase>)
    requires a <= b
    ensures |a| <= |b| && (|a| == |b| ==> a == b)
  {
    assert b == a + (b - a);
  }

  /**
   Over every sequence of inputs: the state stays consistent, the completed count never decreases, it is ten
   exactly when the output phase is completed, and a finished pool implies that.
   */
  lemma {:induction false} RunKeeps(s: State, inputs: seq<Input>)
    requires Consistent(s)
    ensures var n := RunAll(s, inputs);
            && Consistent(n) && CompletedCount(s) <= CompletedCount(n) <= 10
            && (CompletedCount(n) == 10 <==> Output in n.completed) && (n.poolDone ==> Output in n.completed)
    decreases |inputs|
  {
    hide Ask, Consistent;
    CountMeaning(s);
    if inputs != [] {
      var next := Ask(s, inputs[0]).state;
      AskKeeps(s, inputs[0]);
      CountMeaning(next);
      SubsetSize(s.completed, next.completed);
      RunKeeps(next, inputs[1..]);
    } else {
      PoolMeaning(s);
    }
  }

  lemma PoolMeaning(s: State)
    requires Consistent(s)
    ensures s.poolDone ==> Output in s.completed
  {
  }

  /** An ignored input changes nothing. */
  lemma IgnoredChangesNothing(s: State, input: Input)
    ensures !Ask(s, input).accepted ==> Ask(s, input).state == s
  {
  }

  /** An accepted operation is active, shows its check, and is completed by exactly the matching event. */
  lemma OperationsPair(s: State, phase: Phase, operation: Operation, check: Option<CheckInfo>, other: Event)
    requires Next(s, OperationStarted(phase, operation, check)).accepted && other.OperationCompleted?
    ensures var n := Next(s, OperationStarted(phase, operation, check)).state;
            && n.current == s.current == Some(phase)
            && (check.Some? ==> n.retry.Some? && n.retry.value.info == check.value && Some(n.retry.value.kind) == KindOf(phase))
            && (Next(n, other).accepted <==> other == OperationCompleted(phase, operation, check))
            && (Next(n, other).accepted ==> Next(n, other).state.operation.None? && Next(n, other).state.current == Some(phase))
  {
  }

  /** A phase starts only when nothing is under way and everything before it is done, and completes only once. */
  lemma PhasesInOrder(s: State, phase: Phase, source: Source)
    requires Consistent(s)
    ensures Next(s, PhaseStarted(phase)).accepted ==>
              s.current.None? && phase !in s.completed && (phase == PoolExpansion || AllEarlierCompleted(s, phase))
    ensures Next(s, PhaseCompleted(phase, source)).accepted ==>
              var n := Next(s, PhaseCompleted(phase, source)).state;
              && phase !in s.completed && !Next(n, PhaseCompleted(phase, source)).accepted
              && n.completed == if phase == PoolExpansion then s.completed else s.completed + {phase}
    ensures Next(s, PhaseCompleted(phase, Run)).accepted ==> s.current == Some(phase) && Next(s, PhaseCompleted(phase, Run)).state.current.None?
  {
  }

  /** The phase is one of the ten, and those listed before it are completed. */
  ghost predicate Turn(s: State, phase: Phase) {
    exists i :: 0 <= i < 10 && PHASES[i] == phase && forall j :: 0 <= j < i ==> PHASES[j] in s.completed
  }

  lemma TurnExactly(s: State, phase: Phase)
    ensures AllEarlierCompleted(s, phase) <==> Turn(s, phase)
  {
    assert forall i :: 0 <= i < 10 ==> Index(PHASES[i]) == i;
    assert forall p: Phase :: Index(p) < 10 ==> PHASES[Index(p)] == p;
    if Counted(phase) {
      assert PHASES[Index(phase)] == phase;
    }
  }

  /** A check is one of eight, and belongs to the key settlement of the key phase or to the access check. */
  predicate BoundedCheck(phase: Phase, kind: RetryKind, info: CheckInfo) {
    && 1 <= info.attempt <= 8 && info.maxAttempts == 8
    && ((phase == ServiceAccountKey && kind == KeySettlement) || (phase == SaAccess && kind == SaAccessCheck))
  }

  predicate Labelled(phase: Phase, operation: Operation, check: Option<CheckInfo>) {
    match check
    case None => operation != UnknownOperation
    case Some(info) => operation.Bounded? && BoundedCheck(phase, operation.kind, info)
  }

  /** Exactly which events are accepted. */
  lemma AcceptedExactly(s: State, event: Event)
    ensures Next(s, event).accepted <==>
            match event
            case Resumed(list) => |list| <= 7 && list == RESUMABLE[..|list|]
            case PhaseStarted(phase) =>
              s.current.None? && (if phase == PoolExpansion then !s.poolDone && Output in s.completed else phase !in s.completed && Turn(s, phase))
            case PhaseCompleted(phase, source) =>
              source != OtherSource && phase != UnknownPhase
              && (if phase == PoolExpansion then !s.poolDone && s.current == Some(PoolExpansion)
                  else phase !in s.completed && (if source == Run then s.current == Some(phase) else Turn(s, phase)))
            case OperationStarted(phase, operation, check) => s.current == Some(phase) && Labelled(phase, operation, check)
            case OperationCompleted(phase, operation, check) =>
              s.current == Some(phase) && Labelled(phase, operation, check) && s.operation == Some(ActiveOperation(phase, operation, check))
            case RetryWaitStarted(phase, kind, info, delayMs) => s.current == Some(phase) && BoundedCheck(phase, kind, info) && delayMs >= 0
            case PhaseFailed(phase, stableCode) => s.current == Some(phase) && stableCode
  {
    if event.PhaseStarted? || event.PhaseCompleted? {
      TurnExactly(s, event.phase);
    }
    hide AllEarlierCompleted, Turn;
  }

  /** What each accepted event shows: the bar, the phase, its operation, its retry and its failure. */
  lemma ShownAfter(s: State, event: Event)
    requires Next(s, event).accepted
    ensures var n := Next(s, event).state;
            match event
            case Resumed(list) => n == s.(completed := n.completed, resumed := true) && forall p :: p in n.completed <==> p in s.completed || p in list
            case PhaseStarted(phase) =>
              && n == s.(current := Some(phase), failed := None, retry := n.retry)
              && (n.retry == s.retry || (n.retry.None? && s.retry.value.phase == phase)) && (n.retry.Some? ==> n.retry.value.phase != phase)
            case PhaseCompleted(phase, _) =>
              && (s.current == Some(phase) ==> n.current.None?) && (s.current != Some(phase) ==> n.current == s.current)
              && (n.retry.Some? ==> n.retry == s.retry && n.retry.value.phase != phase)
              && (n.operation.Some? ==> n.operation == s.operation && n.operation.value.phase != phase)
              && (s.retry.Some? && s.retry.value.phase != phase ==> n.retry == s.retry)
              && (s.operation.Some? && s.operation.value.phase != phase ==> n.operation == s.operation)
              && n.failed == s.failed && n.resumed == s.resumed && (n.poolDone <==> s.poolDone || phase == PoolExpansion)
            case OperationStarted(phase, operation, check) =>
              && n == s.(operation := Some(ActiveOperation(phase, operation, check)), retry := n.retry)
              && (check.None? ==> n.retry == s.retry) && (check.Some? ==> n.retry == Some(ActiveRetry(phase, operation.kind, check.value)))
            case OperationCompleted(phase, operation, check) =>
              && n == s.(operation := None, retry := n.retry)
              && (check.None? ==> n.retry == s.retry) && (check.Some? ==> n.retry == Some(ActiveRetry(phase, operation.kind, check.value)))
            case RetryWaitStarted(phase, kind, info, _) => n == s.(retry := Some(ActiveRetry(phase, kind, info)))
            case PhaseFailed(phase, _) => n == s.(failed := Some(phase), current := None, retry := None, operation := None)
  {
    hide AllEarlierCompleted;
  }

  // ---- The current phase may be completed under a resume ----

  lemma CompletingCurrent(s: State, phase: Phase, source: Source)
    requires s.current.Some? ==> s.current.value !in s.completed
    ensures var n := Completing(s, phase, source).state;
            n.current.Some? ==> n.current == s.current && n.current.value !in n.completed
  {
    hide AllEarlierCompleted;
  }

  /** Only a resume that lists the current phase makes it a completed one. */
  lemma CurrentCompleted(s: State, input: Input)
    requires Consistent(s) && (s.current.Some? ==> s.current.value !in s.completed)
    ensures var n := Ask(s, input).state;
            n.current.Some? && n.current.value in n.completed <==>
              && input.Report? && input.event.Resumed? && input.event.list <= RESUMABLE
              && s.current.Some? && s.current.value in input.event.list
  {
    assert PoolExpansion !in s.completed;
    if input.Report? && input.event.PhaseCompleted? {
      CompletingCurrent(s, input.event.phase, input.event.source);
    }
    hide Consistent, AllEarlierCompleted, IsValidOperation, IsValidCheck, KindOf, Completing;
  }

  /**
   Then the phase is never left by its completion, and no phase can start: it is left exactly by its own failure, by
   a late failure of any phase, or by a reset.
   */
  lemma CompletedCurrentIsStuck(s: State, input: Input)
    requires Consistent(s) && s.current.Some? && s.current.value in s.completed
    ensures var n := Ask(s, input);
            && (n.state.current != s.current <==> Abandons(s.current.value, input))
            && (n.state.current != s.current ==> n.state.current.None? && n.state.completed == s.completed)
            && (input.Report? && (input.event.PhaseStarted? || (input.event.PhaseCompleted? && input.event.phase == s.current.value)) ==>
                  !n.accepted)
  {
  }

  /** A failure of the phase, a late failure of any known phase, each with a stable code, or a reset. */
  predicate Abandons(phase: Phase, input: Input) {
    match input
    case Report(event) => event.PhaseFailed? && event.phase == phase && event.stableCode
    case ResetTransient => true
    case MarkFailed(failed, stableCode) => failed != UnknownPhase && stableCode
  }

  // ---- The key settlement ----

  /** The progress events behind the reports of a bounded poll. */
  function Forwarded(phase: Phase, kind: RetryKind, report: K.Event): Event {
    match report
    case CheckStarted(attempt) => OperationStarted(phase, Bounded(kind), Some(CheckInfo(attempt, K.MAX_ATTEMPTS)))
    case CheckCompleted(attempt) => OperationCompleted(phase, Bounded(kind), Some(CheckInfo(attempt, K.MAX_ATTEMPTS)))
    case WaitStarted(attempt, delayMs) => RetryWaitStarted(phase, kind, CheckInfo(attempt, K.MAX_ATTEMPTS), delayMs)
  }

  /** Every report of the sequence is accepted, and the phase stays current. */
  predicate Accepted(s: State, phase: Phase, kind: RetryKind, reports: seq<K.Event>)
    decreases |reports|
  {
    reports == [] ||
    var n := Next(s, Forwarded(phase, kind, reports[0]));
    n.accepted && n.state.current == s.current && Accepted(n.state, phase, kind, reports[1..])
  }

  lemma AcceptedAppend(s: State, phase: Phase, kind: RetryKind, first: K.Event, rest: seq<K.Event>)
    ensures Accepted(s, phase, kind, [first] + rest) <==>
              var n := Next(s, Forwarded(phase, kind, first));
              n.accepted && n.state.current == s.current && Accepted(n.state, phase, kind, rest)
  {
    assert ([first] + rest)[1..] == rest;
  }

  lemma ScheduleParts(lo: nat, hi: nat)
    requires 1 <= lo <= hi <= K.MAX_ATTEMPTS
    ensures K.Schedule(lo, hi) == [K.CheckStarted(lo)] + ([K.CheckCompleted(lo)] +
              if lo == hi then [] else [K.WaitStarted(lo, K.POLL_DELAYS_MS[lo - 1])] + K.Schedule(lo + 1, hi))
  {
  }

  /** While the key phase is current the tracker accepts every report of the key settlement. */
  lemma {:induction false} ScheduleAccepted(s: State, lo: nat, hi: nat)
    requires s.current == Some(ServiceAccountKey) && 1 <= lo <= hi <= K.MAX_ATTEMPTS
    ensures Accepted(s, ServiceAccountKey, KeySettlement, K.Schedule(lo, hi))
    decreases hi - lo
  {
    CheckAccepted(s, lo);
    hide Next, Forwarded;
    ScheduleParts(lo, hi);
    var a := Next(s, Forwarded(ServiceAccountKey, KeySettlement, K.CheckStarted(lo))).state;
    var b := Next(a, Forwarded(ServiceAccountKey, KeySettlement, K.CheckCompleted(lo))).state;
    var rest: seq<K.Event> := [];
    if lo < hi {
      var wait := K.WaitStarted(lo, K.POLL_DELAYS_MS[lo - 1]);
      WaitAccepted(b, lo, K.POLL_DELAYS_MS[lo - 1]);
      ScheduleAccepted(Next(b, Forwarded(ServiceAccountKey, KeySettlement, wait)).state, lo + 1, hi);
      AcceptedAppend(b, ServiceAccountKey, KeySettlement, wait, K.Schedule(lo + 1, hi));
      rest := [wait] + K.Schedule(lo + 1, hi);
    }
    AcceptedAppend(a, ServiceAccountKey, KeySettlement, K.CheckCompleted(lo), rest);
    AcceptedAppend(s, ServiceAccountKey, KeySettlement, K.CheckStarted(lo), [K.CheckCompleted(lo)] + rest);
  }

  lemma CheckAccepted(s: State, attempt: nat)
    requires s.current == Some(ServiceAccountKey) && 1 <= attempt <= K.MAX_ATTEMPTS
    ensures var a := Next(s, Forwarded(ServiceAccountKey, KeySettlement, K.CheckStarted(attempt)));
            var b := Next(a.state, Forwarded(ServiceAccountKey, KeySettlement, K.CheckCompleted(attempt)));
            a.accepted && a.state.current == s.current && b.accepted && b.state.current == s.current
  {
  }

  lemma WaitAccepted(s: State, attempt: nat, delayMs: nat)
    requires s.current == Some(ServiceAccountKey) && 1 <= attempt <= K.MAX_ATTEMPTS
    ensures var a := Next(s, Forwarded(ServiceAccountKey, KeySettlement, K.WaitStarted(attempt, delayMs)));
            a.accepted && a.state.current == s.current
  {
  }

  /** Every report of a settlement, fresh or reconciling, is accepted while the key phase is current. */
  lemma SettleReportsAccepted(s: State, fs: KeyDisk.Fs, input: S.Input, env: nat -> K.PassEnv, mayCreate: bool)
    requires s.current == Some(ServiceAccountKey)
    ensures Accepted(s, ServiceAccountKey, KeySettlement, K.Settle(fs, input, env, mayCreate).events)
  {
    hide S.EvidencePass;
    K.SettleBounded(fs, input, env, mayCreate);
    var r := K.Settle(fs, input, env, mayCreate);
    if r.last > 0 {
      ScheduleAccepted(s, 1, r.last);
    }
  }

  // ---- A whole run ----

  /** How many resumable phases a checkpoint status vouches for. */
  function CheckpointCompleted(stage: W.Stage): (n: nat)
    ensures n <= |RESUMABLE|
  {
    match stage
    case ProjectSelected => 0
    case KeyStarted(_) => 3
    case KeyReady(_) => 4
    case SheetStarted(_, _) => 4
    case SheetCreated(_, _) => 5
    case ShareStarted(_, _) => 5
    case Shared(_, _, _) => 6
    case Complete(_, _, _) => 7
  }

  /** How many phases are behind a run once it has reported what its checkpoint vouches for. */
  function Vouched(disk: Option<W.Checkpoint>): (n: nat)
    ensures 2 <= n <= 9
  {
    2 + if disk.None? then 0 else CheckpointCompleted(disk.value.stage)
  }

  /** The tracker after the reports. */
  function Tracked(reports: seq<Event>): State {
    if reports == [] then START else Next(Tracked(reports[..|reports| - 1]), reports[|reports| - 1]).state
  }

  /** The tracker accepted every report. */
  predicate AllAccepted(reports: seq<Event>) {
    reports == [] ||
    (AllAccepted(reports[..|reports| - 1]) && Next(Tracked(reports[..|reports| - 1]), reports[|reports| - 1]).accepted)
  }

  lemma ReportNext(reports: seq<Event>, event: Event)
    ensures Tracked(reports + [event]) == Next(Tracked(reports), event).state
    ensures AllAccepted(reports + [event]) <==> AllAccepted(reports) && Next(Tracked(reports), event).accepted
  {
    assert (reports + [event])[..|reports|] == reports;
  }

  /** Nothing is under way, and exactly the first `i` phases are completed. */
  predicate Before(s: State, i: nat) {
    s.current.None? && forall p: Phase :: p in s.completed <==> Index(p) < i
  }

  lemma PhaseAt(i: nat)
    requires i < 10
    ensures Index(PHASES[i]) == i && forall p: Phase :: Index(p) == i ==> p == PHASES[i]
  {
  }

  /** Phase number `i` is under way, and exactly the phases before it are completed. */
  predicate During(s: State, i: nat) {
    i < 10 && s.current == Some(PHASES[i]) && forall p: Phase :: p in s.completed <==> Index(p) < i
  }

  /** After accepted reports nothing is under way and the first `i` phases are completed. */
  predicate Reached(reports: seq<Event>, i: nat) {
    AllAccepted(reports) && Before(Tracked(reports), i)
  }

  /** After accepted reports phase number `i` is under way. */
  predicate Running(reports: seq<Event>, i: nat) {
    AllAccepted(reports) && During(Tracked(reports), i)
  }

  lemma ReachedAccepted(reports: seq<Event>, i: nat)
    requires Reached(reports, i)
    ensures AllAccepted(reports)
  {
  }

  function AtLeast(a: nat, b: nat): nat {
    if a >= b then a else b
  }

  /** Phase number `i` is under way, unless the first `vouched` phases are behind and it is one of them. */
  predicate UnderWay(reports: seq<Event>, i: nat, vouched: nat) {
    if vouched <= i then Running(reports, i) else Reached(reports, vouched)
  }

  /** A checkpoint behind the project phases vouches for the first five. */
  lemma VouchedProject(disk: Option<W.Checkpoint>)
    ensures AtLeast(2, Vouched(disk)) == Vouched(disk)
    ensures W.Rank(disk) >= 2 ==> AtLeast(5, Vouched(disk)) == Vouched(disk)
  {
  }

  lemma NothingReported()
    ensures Reached([], 0)
  {
  }

  lemma PhaseStarts(reports: seq<Event>, i: nat)
    requires Reached(reports, i) && i < 10
    ensures Running(reports + [PhaseStarted(PHASES[i])], i)
  {
    ReportNext(reports, PhaseStarted(PHASES[i]));
    PhaseAt(i);
    var phase, s := PHASES[i], Tracked(reports);
    assert phase != PoolExpansion && phase != UnknownPhase;
    AcceptedExactly(s, PhaseStarted(phase));
    ShownAfter(s, PhaseStarted(phase));
    hide Next;
  }

  lemma PhaseEnds(reports: seq<Event>, i: nat)
    requires Running(reports, i)
    ensures Reached(reports + [PhaseCompleted(PHASES[i], Run)], i + 1)
  {
    ReportNext(reports, PhaseCompleted(PHASES[i], Run));
    PhaseAt(i);
    assert Next(Tracked(reports), PhaseCompleted(PHASES[i], Run)).state.completed == Tracked(reports).completed + {PHASES[i]};
  }

  /** Behind the first two phases a checkpoint stands in for the phases it vouches for. */
  lemma ResumeSkips(reports: seq<Event>, k: nat)
    requires Reached(reports, 2) && k <= |RESUMABLE|
    ensures Reached(reports + [Resumed(RESUMABLE[..k])], 2 + k)
  {
    ReportNext(reports, Resumed(RESUMABLE[..k]));
    forall p: Phase
      ensures p in RESUMABLE[..k] <==> 2 <= Index(p) < 2 + k
    {
      PrefixElements(RESUMABLE[..k], p);
    }
  }

  lemma AllTen(phases: set<Phase>)
    requires forall p: Phase :: p in phases <==> Index(p) < 10
    ensures phases == AllPhases() && |phases| == 10
  {
    assert |AllPhases()| == 10;
  }

  /** Ten phases reached are all of them: the bar stands at ten of ten. */
  lemma TenReached(reports: seq<Event>)
    requires Reached(reports, 10)
    ensures Tracked(reports).completed == AllPhases() && CompletedCount(Tracked(reports)) == 10
  {
    hide AllAccepted, Tracked, AllPhases;
    AllTen(Tracked(reports).completed);
  }

  // ---- The tracker ----

  class SetupProgressTracker {
    var completed: set<Phase>
    var current: Option<Phase>
    var operation: Option<ActiveOperation>
    var retry: Option<ActiveRetry>
    var failed: Option<Phase>
    var resumed: bool
    var poolDone: bool

    constructor ()
      ensures Now() == START && Consistent(Now())
    {
      completed, current, operation, retry, failed, resumed, poolDone := {}, None, None, None, None, false, false;
    }

    function Now(): State
      reads this
    {
      State(completed, current, operation, retry, failed, resumed, poolDone)
    }

    method ResetInProgress()
      requires Consistent(Now())
      modifies this
      ensures Now() == Ask(old(Now()), ResetTransient).state && Consistent(Now())
    {
      ghost var before := Now();
      current, operation, retry, failed := None, None, None, None;
      AskKeeps(before, ResetTransient);
    }

    method Fail(phase: Phase)
      modifies this
      ensures Now() == Failing(old(Now()), phase)
    {
      failed, current, retry, operation := Some(phase), None, None, None;
    }

    method LatePhaseFailure(phase: Phase, stableCode: bool) returns (accepted: bool)
      requires Consistent(Now())
      modifies this
      ensures Outcome(Now(), accepted) == Ask(old(Now()), MarkFailed(phase, stableCode)) && Consistent(Now())
    {
      ghost var before := Now();
      AskKeeps(before, MarkFailed(phase, stableCode));
      if phase == UnknownPhase || !stableCode { return false; }
      Fail(phase);
      return true;
    }

    method CompletePhase(phase: Phase, source: Source) returns (accepted: bool)
      modifies this
      ensures Outcome(Now(), accepted) == Completing(old(Now()), phase, source)
    {
      hide AllEarlierCompleted, Index, Counted;
      if source == OtherSource || phase == UnknownPhase { return false; }
      if phase == PoolExpansion {
        if poolDone || current != Some(PoolExpansion) { return false; }
        poolDone := true;
      } else {
        if phase in completed { return false; }
        if source == Run {
          if current != Some(phase) { return false; }
        } else if !AllEarlierCompleted(Now(), phase) {
          return false;
        }
        completed := completed + {phase};
      }
      ClearPhase(phase);
      return true;
    }

    /** Forgets what belongs to a phase that is over. */
    method ClearPhase(phase: Phase)
      modifies this
      ensures Now() == Cleared(old(Now()), phase)
    {
      if current == Some(phase) {
        current := None;
      }
      if retry.Some? && retry.value.phase == phase {
        retry := None;
      }
      if operation.Some? && operation.value.phase == phase {
        operation := None;
      }
    }

    /** Applies one event, or ignores it. */
    method Apply(event: Event) returns (accepted: bool)
      modifies this
      ensures Outcome(Now(), accepted) == Next(old(Now()), event)
      ensures old(Consistent(Now())) ==> Consistent(Now()) && old(CompletedCount(Now())) <= CompletedCount(Now())
    {
      NextKeeps(Now(), event);
      hide Consistent, AllEarlierCompleted, IsValidOperation, IsValidNextPhase;
      match event {
        case Resumed(list) =>
          if !(list <= RESUMABLE) { return false; }
          resumed := true;
          completed := completed + Elements(list);
          return true;
        case PhaseStarted(phase) =>
          if !IsValidNextPhase(Now(), phase) { return false; }
          current, failed := Some(phase), None;
          if retry.Some? && retry.value.phase == phase {
            retry := None;
          }
          return true;
        case PhaseCompleted(phase, source) =>
          accepted := CompletePhase(phase, source);
        case OperationStarted(phase, op, check) =>
          if current != Some(phase) || !IsValidOperation(phase, op, check) { return false; }
          operation := Some(ActiveOperation(phase, op, check));
          RemembersCheck(phase, op, check);
          if check.Some? {
            retry := Some(ActiveRetry(phase, op.kind, check.value));
          }
          return true;
        case OperationCompleted(phase, op, check) =>
          if current != Some(phase) || !IsValidOperation(phase, op, check) { return false; }
          if operation != Some(ActiveOperation(phase, op, check)) { return false; }
          RemembersCheck(phase, op, check);
          if check.Some? {
            retry := Some(ActiveRetry(phase, op.kind, check.value));
          }
          operation := None;
          return true;
        case RetryWaitStarted(phase, kind, info, delayMs) =>
          if current != Some(phase) || KindOf(phase) != Some(kind) || !IsValidCheck(info) || delayMs < 0 { return false; }
          retry := Some(ActiveRetry(phase, kind, info));
          return true;
        case PhaseFailed(phase, stableCode) =>
          if current != Some(phase) || !stableCode { return false; }
          Fail(phase);
          return true;
      }
    }
  }

  lemma NextKeeps(s: State, event: Event)
    ensures Consistent(s) ==> Consistent(Next(s, event).state) && CompletedCount(s) <= CompletedCount(Next(s, event).state)
  {
    hide Consistent;
    if Consistent(s) {
      AskKeeps(s, Report(event));
      SubsetSize(s.completed, Next(s, event).state.completed);
    }
  }

  lemma RemembersCheck(phase: Phase, operation: Operation, check: Option<CheckInfo>)
    requires IsValidOperation(phase, operation, check)
    ensures check.Some? ==> operation.Bounded?
  {
  }
}
