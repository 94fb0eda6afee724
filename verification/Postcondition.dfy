/**
 Response-loss recovery of one sheet effect: the classifier of a read-back, the planner a redrive goes
 through, and the two-stage delivery they both look at.
 */
module Postcondition {
  import opened Text
  import opened ReceiptCursor

  datatype Kind = Projection | CandidateReconcile(guarded: bool) | SystemRepair | Deletion

  /** An outbox effect. Contents are hashes of the effect's fields. */
  datatype Effect = Effect(
    kind: Kind, payloadHash: string, expectedHash: string, expectedRevision: nat, targetHash: string,
    createIfMissing: bool, repairGuard: Option<string>)

  datatype Disposition = Applied | Unapplied | Changed | Unavailable

  datatype Verdict = Verdict(disposition: Disposition, revision: Option<nat>, hash: Option<string>, reason: string)

  /** Classifies an effect from its receipt and the content of its target row. */
  function Classify(effect: Effect, receipt: Option<Evidence>, row: Option<string>): Verdict {
    if receipt.Some? && receipt.value.payloadHash != effect.payloadHash then Verdict(Changed, None, None, "")
    else if effect.kind.Deletion? then
      if receipt.Some? && row.None? then Verdict(Applied, Some(receipt.value.visibleRevision), Some(receipt.value.visibleHash), "")
      else if row.None? then Verdict(Unavailable, None, None, "")
      else if receipt.Some? then Verdict(Changed, None, row, "")
      else if row.value == effect.expectedHash then Verdict(Unapplied, Some(effect.expectedRevision), row, "")
      else Verdict(Changed, None, row, "")
    else if row.None? then
      Verdict(if receipt.Some? || !effect.createIfMissing then Changed else Unapplied, None, None,
              if receipt.None? then "" else "receipt_target_missing")
    else if row.value == effect.targetHash then
      if receipt.None? then Verdict(Unavailable, None, row, "receipt_missing")
      else Verdict(Applied, Some(receipt.value.visibleRevision), row, "")
    else if row.value == effect.expectedHash || effect.repairGuard == row then
      Verdict(Unapplied, Some(effect.expectedRevision), row, "")
    else Verdict(Changed, None, row, "")
  }

  // ---- Delivery ----

  datatype Mutation = NoWrite | WriteTarget | DeleteRow

  /** What one delivery attempt does: nothing, or a mutation followed by the receipt. */
  datatype Plan = AlreadyApplied | Rejected | Deliver(mutation: Mutation, receipt: Evidence)

  predicate ValidDeletion(effect: Effect) {
    !effect.createIfMissing && effect.expectedRevision >= 1 && effect.targetHash == effect.expectedHash
  }

  function ReceiptFor(effect: Effect): Evidence {
    if effect.kind.Deletion? then Evidence(effect.payloadHash, effect.expectedHash, effect.expectedRevision)
    else Evidence(effect.payloadHash, effect.targetHash, effect.expectedRevision + 1)
  }

  /** Plans one effect against what was read back: a receipt is replayed, everything else is guarded. */
  function PlanEffect(effect: Effect, receipt: Option<Evidence>, row: Option<string>): Plan {
    if receipt.Some? then
      if receipt.value.payloadHash != effect.payloadHash then Rejected
      else if effect.kind.Deletion? then if row.None? then AlreadyApplied else Rejected
      else if row == Some(effect.targetHash) then AlreadyApplied else Rejected
    else if row.None? && (!effect.createIfMissing || effect.expectedRevision != 0 || effect.expectedHash != "") then Rejected
    else if effect.kind.Deletion? then
      if !ValidDeletion(effect) || row != Some(effect.expectedHash) then Rejected else Deliver(DeleteRow, ReceiptFor(effect))
    else
      var current := if row.None? then effect.expectedHash else row.value;
      if effect.kind.CandidateReconcile? && effect.kind.guarded && row.Some? && current != effect.expectedHash then Rejected
      else if current == effect.targetHash then Deliver(if row.None? then WriteTarget else NoWrite, ReceiptFor(effect))
      else if effect.kind.SystemRepair? then
        if effect.repairGuard != Some(current) then Rejected else Deliver(WriteTarget, ReceiptFor(effect))
      else if current != effect.expectedHash then Rejected
      else Deliver(WriteTarget, ReceiptFor(effect))
  }

  /** What is still to be written of a delivery: the row and then the receipt. */
  datatype Pending = Idle | RowNext(mutation: Mutation, receipt: Evidence) | ReceiptNext(receipt: Evidence)

  /** The target row, this effect's receipt, the delivery under way, and the receipts this effect appended. */
  datatype Sheet = Sheet(row: Option<string>, receipt: Option<Evidence>, pending: Pending, appended: nat)

  /** One step: a (re)drive, its two writes, a crash, or a human edit or deletion of the target row. */
  datatype Step = Drive | WriteRow | WriteReceipt | Crash | HumanEdit(hash: string) | HumanDelete

  function Next(effect: Effect, s: Sheet, step: Step): Sheet {
    match step
    case Drive =>
      if !s.pending.Idle? then s
      else
        (match PlanEffect(effect, s.receipt, s.row)
         case Deliver(NoWrite, receipt) => s.(pending := ReceiptNext(receipt))
         case Deliver(mutation, receipt) => s.(pending := RowNext(mutation, receipt))
         case _ => s)
    case WriteRow =>
      (match s.pending
       case RowNext(mutation, receipt) =>
         s.(row := if mutation == DeleteRow then None else Some(effect.targetHash), pending := ReceiptNext(receipt))
       case _ => s)
    case WriteReceipt =>
      (match s.pending
       case ReceiptNext(receipt) => s.(receipt := Some(receipt), pending := Idle, appended := s.appended + 1)
       case _ => s)
    case Crash => s.(pending := Idle)
    case HumanEdit(hash) => s.(row := Some(hash))
    case HumanDelete => s.(row := None)
  }

  function Run(effect: Effect, s: Sheet, steps: seq<Step>): Sheet
    decreases |steps|
  {
    if steps == [] then s else Run(effect, Next(effect, s, steps[0]), steps[1..])
  }

  /** The receipt is this effect's own, appended once, and a delivery under way has no receipt yet. */
  predicate Delivering(effect: Effect, s: Sheet) {
    && (s.receipt == if s.appended == 0 then None else Some(ReceiptFor(effect)))
    && s.appended <= 1
    && (!s.pending.Idle? ==> s.appended == 0 && s.pending.receipt == ReceiptFor(effect))
  }

  lemma {:induction false} RunDelivers(effect: Effect, s: Sheet, steps: seq<Step>)
    requires Delivering(effect, s)
    ensures Delivering(effect, Run(effect, s, steps))
    decreases |steps|
  {
    if steps != [] {
      RunDelivers(effect, Next(effect, s, steps[0]), steps[1..]);
    }
  }

  /** The target is as the effect wants it. */
  predicate AsIntended(effect: Effect, row: Option<string>) {
    row == if effect.kind.Deletion? then None else Some(effect.targetHash)
  }

  /** The sheet before any delivery of this effect, with whatever content. */
  function Before(row: Option<string>): Sheet {
    Sheet(row, None, Idle, 0)
  }

  /**
   After any run of redrives, crashes between the two writes and human edits, the verdict is `applied` exactly
   when this effect appended its receipt and the target is as intended; it then carries the delivered revision.
   */
  lemma AppliedIsDelivered(effect: Effect, row: Option<string>, steps: seq<Step>)
    ensures var s := Run(effect, Before(row), steps);
            var v := Classify(effect, s.receipt, s.row);
            && (v.disposition == Applied <==> s.appended == 1 && AsIntended(effect, s.row))
            && (v.disposition == Applied ==>
                  if effect.kind.Deletion? then v.revision == Some(effect.expectedRevision) && v.hash == Some(effect.expectedHash)
                  else v.revision == Some(effect.expectedRevision + 1) && v.hash == Some(effect.targetHash))
            && (s.appended == 1 ==> s.receipt.Some? && s.receipt.value.payloadHash == effect.payloadHash)
  {
    RunDelivers(effect, Before(row), steps);
  }

  /** The other two verdicts, and the evidence every verdict reports. */
  lemma OtherVerdicts(effect: Effect, receipt: Option<Evidence>, row: Option<string>)
    requires receipt.Some? ==> receipt.value.payloadHash == effect.payloadHash
    ensures var v := Classify(effect, receipt, row);
            && (v.disposition == Unapplied <==>
                  && !AsIntended(effect, row)
                  && if effect.kind.Deletion? then receipt.None? && row == Some(effect.expectedHash)
                     else if row.None? then receipt.None? && effect.createIfMissing
                     else row == Some(effect.expectedHash) || row == effect.repairGuard)
            && (v.disposition == Applied <==> receipt.Some? && AsIntended(effect, row))
            && (v.disposition == Applied ==> v.revision == Some(receipt.value.visibleRevision))
            && (v.disposition == Unavailable <==> receipt.None? && AsIntended(effect, row))
            && (v.disposition == Unapplied && row.Some? ==> v.revision == Some(effect.expectedRevision))
            && (v.disposition == Changed ==> v.revision.None? && !AsIntended(effect, row))
            && (row.Some? ==> v.hash == row)
            && (row.None? && v.hash.Some? ==> v.disposition == Applied && v.hash.value == receipt.value.visibleHash)
            && (v.reason == "receipt_missing" <==> v.disposition == Unavailable && !effect.kind.Deletion?)
            && (v.reason == "receipt_target_missing" <==> receipt.Some? && row.None? && !effect.kind.Deletion?)
            && (v.reason == "" || v.reason == "receipt_missing" || v.reason == "receipt_target_missing")
            && (v.disposition == Unapplied && row.None? ==> v.revision.None?)
  {
  }

  /** What only the human steps make of the row. */
  function HumanRow(row: Option<string>, steps: seq<Step>): Option<string> {
    if steps == [] then row
    else
      match steps[|steps| - 1]
      case HumanEdit(hash) => Some(hash)
      case HumanDelete => None
      case _ => HumanRow(row, steps[..|steps| - 1])
  }

  lemma {:induction false} RunAppend(effect: Effect, s: Sheet, steps: seq<Step>, step: Step)
    ensures Run(effect, s, steps + [step]) == Next(effect, Run(effect, s, steps), step)
    decreases |steps|
  {
    if steps == [] {
      assert [step][1..] == [];
    } else {
      assert (steps + [step])[1..] == steps[1..] + [step];
      RunAppend(effect, Next(effect, s, steps[0]), steps[1..], step);
    }
  }

  /**
   An effect id reused with another payload is never delivered: over every run from a sheet that holds the
   other receipt nothing is written but by humans, and the verdict is changed.
   */
  lemma {:induction false} ForeignReceipt(effect: Effect, receipt: Evidence, row: Option<string>, steps: seq<Step>)
    requires receipt.payloadHash != effect.payloadHash
    ensures var s := Run(effect, Sheet(row, Some(receipt), Idle, 0), steps);
            && s == Sheet(HumanRow(row, steps), Some(receipt), Idle, 0)
            && Classify(effect, s.receipt, s.row) == Verdict(Changed, None, None, "")
  {
    if steps != [] {
      var before := steps[..|steps| - 1];
      assert steps == before + [steps[|steps| - 1]];
      ForeignReceipt(effect, receipt, row, before);
      RunAppend(effect, Sheet(row, Some(receipt), Idle, 0), before, steps[|steps| - 1]);
    }
  }

  /** The orphan of a crash between the two writes, or of a human who made the same change, is unavailable. */
  lemma OrphanIsUnavailable(effect: Effect, row: Option<string>, steps: seq<Step>)
    ensures var s := Run(effect, Before(row), steps);
            Classify(effect, s.receipt, s.row).disposition == Unavailable <==> s.appended == 0 && AsIntended(effect, s.row)
  {
    RunDelivers(effect, Before(row), steps);
  }

  /** A crash between the two writes leaves exactly the orphan. */
  lemma CrashLeavesOrphan(effect: Effect, row: Option<string>)
    requires PlanEffect(effect, None, row).Deliver? && PlanEffect(effect, None, row).mutation != NoWrite
    ensures var s := Run(effect, Before(row), [Drive, WriteRow, Crash]);
            AsIntended(effect, s.row) && Classify(effect, s.receipt, s.row).disposition == Unavailable
  {
    var steps := [Drive, WriteRow, Crash];
    assert steps[1..] == [WriteRow, Crash] && steps[1..][1..] == [Crash] && steps[1..][1..][1..] == [];
    var a := Next(effect, Before(row), Drive);
    var b := Next(effect, a, WriteRow);
    assert Run(effect, b, [Crash]) == Next(effect, b, Crash);
    assert Run(effect, a, [WriteRow, Crash]) == Run(effect, b, [Crash]);
  }

  /** The guard a redrive checks before it writes. */
  predicate GuardHolds(effect: Effect, row: Option<string>) {
    match row
    case None => effect.expectedRevision == 0 && effect.expectedHash == ""
                 && (effect.kind.SystemRepair? && effect.targetHash != "" ==> effect.repairGuard == Some(""))
    case Some(current) =>
      if effect.kind.Deletion? then
        !effect.createIfMissing && effect.expectedRevision >= 1 && effect.targetHash == effect.expectedHash
      else if effect.kind.SystemRepair? then effect.repairGuard == Some(current)
      else current == effect.expectedHash
  }

  /**
   An unapplied verdict sends the effect back to be driven. The redrive delivers exactly when no receipt is
   there and its own guard holds: the classifier also accepts a receipt whose row went back to the expected
   content, a repair whose row has the expected content instead of the guarded one, and a guard hash on an
   effect that is no repair.
   */
  lemma RedriveOfUnapplied(effect: Effect, receipt: Option<Evidence>, row: Option<string>)
    requires Classify(effect, receipt, row).disposition == Unapplied
    ensures PlanEffect(effect, receipt, row).Deliver? <==> receipt.None? && GuardHolds(effect, row)
  {
  }

  /** A deletion, and a guarded candidate that writes other content than it expects: no drive may find their target reached. */
  predicate Blocked(effect: Effect) {
    effect.kind.Deletion? || (effect.kind.CandidateReconcile? && effect.kind.guarded && effect.targetHash != effect.expectedHash)
  }

  /**
   What a drive does on each verdict: an applied effect is left alone and a changed one rejected; an orphan only gets
   its receipt, unless it is a deletion or a guarded candidate, which are rejected.
   */
  lemma DriveByVerdict(effect: Effect, receipt: Option<Evidence>, row: Option<string>)
    ensures var disposition := Classify(effect, receipt, row).disposition;
            var plan := PlanEffect(effect, receipt, row);
            && (disposition == Applied ==> plan == AlreadyApplied)
            && (disposition == Changed ==> plan == Rejected)
            && (disposition == Unavailable ==> plan == if Blocked(effect) then Rejected else Deliver(NoWrite, ReceiptFor(effect)))
            && (disposition == Unapplied ==> plan != AlreadyApplied)
  {
  }

  lemma {:induction false} RunAll(effect: Effect, s: Sheet, first: seq<Step>, rest: seq<Step>)
    ensures Run(effect, s, first + rest) == Run(effect, Run(effect, s, first), rest)
    decreases |first|
  {
    if first == [] {
      assert first + rest == rest;
    } else {
      assert (first + rest)[1..] == first[1..] + rest && (first + rest)[0] == first[0];
      RunAll(effect, Next(effect, s, first[0]), first[1..], rest);
    }
  }

  /** Two or three steps one after the other. */
  lemma RunThree(effect: Effect, s: Sheet, a: Step, b: Step, c: Step)
    ensures Run(effect, s, [a, b]) == Next(effect, Next(effect, s, a), b)
    ensures Run(effect, s, [a, b, c]) == Next(effect, Next(effect, Next(effect, s, a), b), c)
  {
    assert [a, b, c][1..] == [b, c] && [b, c][1..] == [c] && [c][1..] == [] && [a, b][1..] == [b] && [b][1..] == [];
    assert Run(effect, Next(effect, s, a), [b, c]) == Run(effect, Next(effect, Next(effect, s, a), b), [c]);
    assert Run(effect, Next(effect, s, a), [b]) == Run(effect, Next(effect, Next(effect, s, a), b), []);
  }

  /** A planned delivery, run to its end, is applied. */
  lemma DeliveryApplies(effect: Effect, row: Option<string>)
    requires PlanEffect(effect, None, row).Deliver?
    ensures var s := Run(effect, Before(row), [Drive, WriteRow, WriteReceipt]);
            && Classify(effect, s.receipt, s.row).disposition == Applied && s.appended == 1
            && s.receipt == Some(if effect.kind.Deletion? then Evidence(effect.payloadHash, effect.expectedHash, effect.expectedRevision)
                                 else Evidence(effect.payloadHash, effect.targetHash, effect.expectedRevision + 1))
            && (PlanEffect(effect, None, row).mutation == NoWrite ==> s.row == row)
  {
    RunThree(effect, Before(row), Drive, WriteRow, WriteReceipt);
  }

  /**
   A crash between the two writes is finished by the next drive, which appends the receipt and leaves the row as it
   is, exactly when the effect is no deletion and no guarded candidate.
   */
  lemma RedriveOfOrphan(effect: Effect, row: Option<string>)
    requires PlanEffect(effect, None, row).Deliver? && PlanEffect(effect, None, row).mutation != NoWrite
    ensures var orphan := Run(effect, Before(row), [Drive, WriteRow, Crash]);
            var s := Run(effect, Before(row), [Drive, WriteRow, Crash] + [Drive, WriteReceipt]);
            && s.row == orphan.row
            && (Classify(effect, s.receipt, s.row).disposition == Applied <==> !Blocked(effect))
            && (Blocked(effect) ==> s == orphan)
  {
    RunAll(effect, Before(row), [Drive, WriteRow, Crash], [Drive, WriteReceipt]);
    RunThree(effect, Before(row), Drive, WriteRow, Crash);
    var orphan := Run(effect, Before(row), [Drive, WriteRow, Crash]);
    RunThree(effect, orphan, Drive, WriteReceipt, Crash);
    DriveByVerdict(effect, orphan.receipt, orphan.row);
  }

  /** A delivered effect whose row a human puts back is called unapplied, and a redrive then rejects it. */
  lemma RevertedIsStuck(effect: Effect, before: string)
    requires effect.kind == Projection && before == effect.expectedHash && before != effect.targetHash
    ensures var s := Run(effect, Before(Some(before)), [Drive, WriteRow, WriteReceipt, HumanEdit(before)]);
            && Classify(effect, s.receipt, s.row).disposition == Unapplied
            && PlanEffect(effect, s.receipt, s.row) == Rejected
  {
    var steps := [Drive, WriteRow, WriteReceipt, HumanEdit(before)];
    var a := Next(effect, Before(Some(before)), Drive);
    var b := Next(effect, a, WriteRow);
    var c := Next(effect, b, WriteReceipt);
    assert steps[1..] == [WriteRow, WriteReceipt, HumanEdit(before)];
    assert steps[1..][1..] == [WriteReceipt, HumanEdit(before)] && steps[1..][1..][1..] == [HumanEdit(before)];
    assert steps[1..][1..][1..][1..] == [];
    assert Run(effect, c, [HumanEdit(before)]) == Next(effect, c, HumanEdit(before));
    assert Run(effect, b, [WriteReceipt, HumanEdit(before)]) == Run(effect, c, [HumanEdit(before)]);
    assert Run(effect, a, [WriteRow, WriteReceipt, HumanEdit(before)]) == Run(effect, b, [WriteReceipt, HumanEdit(before)]);
  }

  // ---- Classifying from the cursor memo ----

  function Lookup(receipts: map<string, Evidence>, effectId: string): Option<Evidence> {
    if effectId in receipts then Some(receipts[effectId]) else None
  }

  /**
   A probe that reads through a covering cursor finds the receipt a scan of the whole tab finds, and so the
   same verdict, whenever the coverage gate holds or the receipt was found. It misses a receipt exactly when a
   band ran over the ceiling and the receipt is above the band.
   */
  lemma ProbeMatchesScan(effect: Effect, effectId: string, row: Option<string>, rows: seq<Row>, env: ReadEnv,
                         row0: nat, memo0: map<string, Evidence>, r: ReadResult, row1: nat, memo1: map<string, Evidence>)
    requires Legal(rows) && Covers(row0, memo0, rows) && Answers(rows, env, row0, memo0, r, row1, memo1)
    ensures r.Exposed?
    ensures row0 < 2 || row1 >= 2 || effectId in r.receipts ==>
              Classify(effect, Lookup(r.receipts, effectId), row) == Classify(effect, Lookup(Scan(rows), effectId), row)
    ensures Lookup(r.receipts, effectId) ==
            if ReadsBand(rows, env, row0, memo0) && |Scan(rows)| > MAX_MEMO_RECEIPTS && effectId !in Scan(BandOf(rows, row0)) then None
            else Lookup(Scan(rows), effectId)
  {
    hide Classify, Legal, Scan, SentinelPresent, Covers, DropsCursor;
    CoveredAnswers(rows, env, row0, memo0, r, row1, memo1);
    UniqueIfLegal(rows);
    if ReadsBand(rows, env, row0, memo0) {
      BandBelow(rows, env, row0, memo0);
      CoversExactly(row0, memo0, rows);
      BandWithin(rows, row0);
    }
  }

  lemma BandBelow(rows: seq<Row>, env: ReadEnv, row0: nat, memo0: map<string, Evidence>)
    requires ReadsBand(rows, env, row0, memo0) && Covers(row0, memo0, rows)
    ensures 2 <= row0 <= |rows| + 1 && Within(memo0, Scan(rows))
  {
  }
}
