/**
 The receipt read cursor: a dispatch reads only the tail of the receipt tab and answers from a memo of
 everything read before. The memo must answer like a scan of the whole tab.
 */
module ReceiptCursor {
  import opened Text

  datatype Evidence = Evidence(payloadHash: string, visibleHash: string, visibleRevision: nat)

  /** A data row of the tab; the first data row is sheet row 2. */
  datatype Row = Blank | Receipt(effectId: string, evidence: Evidence) | Malformed

  const MAX_MEMO_RECEIPTS := 200_000

  /** What the whole tab says, later rows over earlier ones. */
  function Scan(rows: seq<Row>): map<string, Evidence> {
    if rows == [] then map[]
    else
      var last := rows[|rows| - 1];
      var before := Scan(rows[..|rows| - 1]);
      if last.Receipt? then before[last.effectId := last.evidence] else before
  }

  /** The tab has no malformed row and no effect twice. */
  ghost predicate Legal(rows: seq<Row>) {
    (forall i :: 0 <= i < |rows| ==> !rows[i].Malformed?) && Unique(rows)
  }

  ghost predicate Unique(rows: seq<Row>) {
    forall i, j :: 0 <= i < j < |rows| && rows[i].Receipt? && rows[j].Receipt? ==> rows[i].effectId != rows[j].effectId
  }

  ghost predicate Within(a: map<string, Evidence>, b: map<string, Evidence>) {
    forall k :: k in a ==> k in b && b[k] == a[k]
  }

  lemma {:induction false} ScanAppend(a: seq<Row>, b: seq<Row>)
    ensures Scan(a + b) == Scan(a) + Scan(b)
  {
    if b == [] {
      assert a + b == a;
    } else {
      assert (a + b)[..|a + b| - 1] == a + b[..|b| - 1];
      ScanAppend(a, b[..|b| - 1]);
    }
  }

  /** In a tab without repeated effects the map lists exactly the receipt rows. */
  lemma {:induction false} ScanOf(rows: seq<Row>, id: string)
    ensures id in Scan(rows) <==> exists i :: 0 <= i < |rows| && rows[i].Receipt? && rows[i].effectId == id
    ensures Unique(rows) ==>
              forall i :: 0 <= i < |rows| && rows[i].Receipt? && rows[i].effectId == id ==> id in Scan(rows) && Scan(rows)[id] == rows[i].evidence
  {
    if rows != [] {
      ScanOf(rows[..|rows| - 1], id);
    }
  }

  lemma ScanWithin(rows: seq<Row>, lo: nat, hi: nat)
    requires Unique(rows) && lo <= hi <= |rows|
    ensures Within(Scan(rows[lo..hi]), Scan(rows))
  {
    forall id | id in Scan(rows[lo..hi])
      ensures id in Scan(rows) && Scan(rows)[id] == Scan(rows[lo..hi])[id]
    {
      ScanOf(rows[lo..hi], id);
      ScanOf(rows, id);
      var i :| 0 <= i < hi - lo && rows[lo..hi][i].Receipt? && rows[lo..hi][i].effectId == id;
      assert rows[lo + i] == rows[lo..hi][i];
    }
  }

  /**
   The memo holds everything strictly above the cursor row and nothing that the tab does not hold. Row `row`
   of the sheet is data row `row - 2`; a cursor above the first data row has passed nothing.
   */
  ghost predicate Covers(row: nat, memo: map<string, Evidence>, rows: seq<Row>) {
    && row <= |rows| + 1
    && (row >= 2 ==> Within(Scan(rows[..row - 2]), memo))
    && Within(memo, Scan(rows))
  }

  /** The data rows from a sheet row on. */
  function BandOf(rows: seq<Row>, row: nat): seq<Row> {
    if 2 <= row <= |rows| + 1 then rows[row - 2..] else []
  }

  /**
   Coverage is exactly what makes a band read answer like a scan: a memo that says nothing wrong, together
   with the rows from the cursor row on, says everything if and only if it holds every row above the cursor.
   */
  lemma CoversExactly(row: nat, memo: map<string, Evidence>, rows: seq<Row>)
    requires Unique(rows) && 2 <= row <= |rows| + 1 && Within(memo, Scan(rows))
    ensures memo + Scan(BandOf(rows, row)) == Scan(rows) <==> Covers(row, memo, rows)
  {
    var head, band := rows[..row - 2], rows[row - 2..];
    assert rows == head + band;
    ScanAppend(head, band);
    ScanWithin(rows, row - 2, |rows|);
    assert rows[row - 2..|rows|] == band && rows[0..row - 2] == head;
    ScanWithin(rows, 0, row - 2);
    forall id | id in Scan(head)
      ensures id !in Scan(band)
    {
      Apart(rows, row - 2, id);
    }
  }

  /** No effect is both above and below a cut. */
  lemma Apart(rows: seq<Row>, cut: nat, id: string)
    requires Unique(rows) && cut <= |rows| && id in Scan(rows[..cut])
    ensures id !in Scan(rows[cut..])
  {
    ScanOf(rows[..cut], id);
    ScanOf(rows[cut..], id);
    var i :| 0 <= i < cut && rows[..cut][i].Receipt? && rows[..cut][i].effectId == id;
    assert forall j :: cut <= j < |rows| ==> rows[j] == rows[cut..][j - cut];
    assert rows[i] == rows[..cut][i];
  }

  lemma BandWithin(rows: seq<Row>, row: nat)
    requires Unique(rows)
    ensures Within(Scan(BandOf(rows, row)), Scan(rows))
  {
    if 2 <= row <= |rows| + 1 {
      ScanWithin(rows, row - 2, |rows|);
      assert rows[row - 2..|rows|] == BandOf(rows, row);
    }
  }

  /** Rows inserted at a position keep every row, those behind the position further down. */
  function Inserted(rows: seq<Row>, at: nat, more: seq<Row>): seq<Row>
    requires at <= |rows|
  {
    rows[..at] + more + rows[at..]
  }

  /** No inserted receipt lands above the sheet row. */
  predicate NoneLandsAbove(row: nat, at: nat, more: seq<Row>) {
    forall i :: 0 <= i < |more| && at + i < row - 2 ==> !more[i].Receipt?
  }

  /**
   A writer inserts at the row after the last one it read. The insertion keeps another reader's coverage, and
   so its next band read complete, exactly when no inserted receipt lands above that reader's cursor row. When
   the first inserted row is a receipt this means that the writer's read was at most one row behind the cursor.
   */
  lemma InsertKeepsCoverage(row: nat, memo: map<string, Evidence>, rows: seq<Row>, at: nat, more: seq<Row>)
    requires Covers(row, memo, rows) && at <= |rows| && Unique(Inserted(rows, at, more))
    ensures var after := Inserted(rows, at, more);
            && (Covers(row, memo, after) <==> NoneLandsAbove(row, at, more))
            && (row >= 2 ==> (memo + Scan(BandOf(after, row)) == Scan(after) <==> NoneLandsAbove(row, at, more)))
    ensures more != [] && more[0].Receipt? ==> (NoneLandsAbove(row, at, more) <==> row <= at + 2)
  {
    var after := Inserted(rows, at, more);
    InsertedWithin(rows, at, more);
    if row >= 2 {
      CoversExactly(row, memo, after);
      if NoneLandsAbove(row, at, more) {
        LandsBelow(row, rows, at, more);
      } else {
        var i :| 0 <= i < |more| && at + i < row - 2 && more[i].Receipt?;
        InsertedNew(rows, at, more, i);
        assert after[..row - 2][at + i] == more[i];
        ScanOf(after[..row - 2], more[i].effectId);
      }
    }
  }

  /** The effect is an inserted receipt above the sheet row. */
  predicate MissedAt(row: nat, at: nat, more: seq<Row>, id: string) {
    exists i :: 0 <= i < |more| && at + i < row - 2 && more[i].Receipt? && more[i].effectId == id
  }

  /** A receipt above the sheet row was inserted there, or was above it already. */
  lemma HeadOrMissed(row: nat, rows: seq<Row>, at: nat, more: seq<Row>, id: string)
    requires 2 <= row <= |rows| + 1 && at <= |rows| && Unique(Inserted(rows, at, more))
    requires id in Scan(Inserted(rows, at, more)[..row - 2]) && !MissedAt(row, at, more, id)
    ensures id in Scan(rows[..row - 2]) && Scan(rows[..row - 2])[id] == Scan(Inserted(rows, at, more)[..row - 2])[id]
  {
    hide Unique, MissedAt, Scan;
    var after, head := Inserted(rows, at, more), rows[..row - 2];
    InsertedUnique(rows, at, more);
    UniqueHead(rows, row - 2);
    UniqueHead(after, row - 2);
    ScanOf(after[..row - 2], id);
    ScanOf(head, id);
    var i :| 0 <= i < row - 2 && after[..row - 2][i].Receipt? && after[..row - 2][i].effectId == id;
    assert after[i] == after[..row - 2][i];
    if i < at {
      assert head[i] == rows[i] == after[i];
    } else if i < at + |more| {
      InsertedMissed(row, rows, at, more, id, i);
      assert false;
    } else {
      var k := i - |more|;
      assert head[k] == rows[k] == after[i];
    }
  }

  lemma UniqueHead(rows: seq<Row>, n: nat)
    requires Unique(rows) && n <= |rows|
    ensures Unique(rows[..n])
  {
  }

  lemma InsertedMissed(row: nat, rows: seq<Row>, at: nat, more: seq<Row>, id: string, i: nat)
    requires at <= |rows| && at <= i < row - 2 && i < at + |more|
    requires Inserted(rows, at, more)[i].Receipt? && Inserted(rows, at, more)[i].effectId == id
    ensures MissedAt(row, at, more, id)
  {
    assert Inserted(rows, at, more)[i] == more[i - at];
  }

  /** Inserted rows without receipts above the cursor leave the receipts above it as they were, or fewer. */
  lemma LandsBelow(row: nat, rows: seq<Row>, at: nat, more: seq<Row>)
    requires 2 <= row <= |rows| + 1 && at <= |rows| && Unique(Inserted(rows, at, more)) && NoneLandsAbove(row, at, more)
    ensures Within(Scan(Inserted(rows, at, more)[..row - 2]), Scan(rows[..row - 2]))
  {
    var was, now := Scan(rows[..row - 2]), Scan(Inserted(rows, at, more)[..row - 2]);
    forall id | id in now
      ensures id in was && was[id] == now[id]
    {
      HeadOrMissed(row, rows, at, more, id);
    }
  }

  /** What is inserted into a tab without repeated effects is new to it. */
  lemma InsertedNew(rows: seq<Row>, at: nat, more: seq<Row>, i: nat)
    requires at <= |rows| && Unique(Inserted(rows, at, more)) && i < |more| && more[i].Receipt?
    ensures more[i].effectId !in Scan(rows)
  {
    hide Inserted;
    InsertedMore(rows, at, more, i);
    ScanOf(rows, more[i].effectId);
    if more[i].effectId in Scan(rows) {
      var j :| 0 <= j < |rows| && rows[j].Receipt? && rows[j].effectId == more[i].effectId;
      InsertedAt(rows, at, more, j);
      assert false;
    }
  }

  lemma InsertedAt(rows: seq<Row>, at: nat, more: seq<Row>, i: nat)
    requires at <= |rows| && i < |rows|
    ensures var k := if i < at then i else i + |more|;
            k < |Inserted(rows, at, more)| && Inserted(rows, at, more)[k] == rows[i]
  {
  }

  lemma InsertedUnique(rows: seq<Row>, at: nat, more: seq<Row>)
    requires at <= |rows| && Unique(Inserted(rows, at, more))
    ensures Unique(rows)
  {
    hide Inserted;
    forall i, j | 0 <= i < j < |rows| && rows[i].Receipt? && rows[j].Receipt?
      ensures rows[i].effectId != rows[j].effectId
    {
      InsertedAt(rows, at, more, i);
      InsertedAt(rows, at, more, j);
    }
  }

  lemma InsertedWithin(rows: seq<Row>, at: nat, more: seq<Row>)
    requires at <= |rows| && Unique(Inserted(rows, at, more))
    ensures Within(Scan(rows), Scan(Inserted(rows, at, more)))
  {
    hide Inserted, Unique;
    var after := Inserted(rows, at, more);
    InsertedUnique(rows, at, more);
    forall id | id in Scan(rows)
      ensures id in Scan(after) && Scan(after)[id] == Scan(rows)[id]
    {
      ScanOf(rows, id);
      ScanOf(after, id);
      var i :| 0 <= i < |rows| && rows[i].Receipt? && rows[i].effectId == id;
      InsertedAt(rows, at, more, i);
    }
  }

  // ---- The cursor and the read that keeps it ----

  /** One parsed receipt of a read, in tab order. */
  datatype Entry = Entry(effectId: string, evidence: Evidence)

  /** A parsed read: its receipts, or none when a row is malformed or an effect appears twice. */
  datatype Parsed = Parsed(entries: seq<Entry>, firstRow: Option<nat>)

  function AsMap(entries: seq<Entry>): map<string, Evidence> {
    if entries == [] then map[]
    else AsMap(entries[..|entries| - 1])[entries[|entries| - 1].effectId := entries[|entries| - 1].evidence]
  }

  ghost predicate Distinct(entries: seq<Entry>) {
    forall i, j :: 0 <= i < j < |entries| ==> entries[i].effectId != entries[j].effectId
  }

  /** Parses rows read from sheet row `start` on. */
  method ReadReceipts(rows: seq<Row>, start: nat) returns (r: Option<Parsed>)
    ensures r.Some? <==> Legal(rows)
    ensures r.Some? ==> Distinct(r.value.entries) && AsMap(r.value.entries) == Scan(rows)
    ensures r.Some? ==> (r.value.firstRow == Some(start) <==> rows != [] && rows[0].Receipt?)
  {
    hide Legal, AsMap, Scan, Distinct;
    var entries: seq<Entry> := [];
    var firstRow: Option<nat> := None;
    NothingParsed(rows);
    for i := 0 to |rows|
      invariant ParsedSoFar(rows[..i], entries)
      invariant firstRow.Some? ==> start <= firstRow.value < start + i
      invariant i > 0 ==> (firstRow == Some(start) <==> rows[0].Receipt?)
    {
      ParseStep(rows, i, entries);
      match rows[i] {
        case Blank =>
        case Malformed => return None;
        case Receipt(effectId, evidence) =>
          if effectId in AsMap(entries) { return None; }
          if firstRow.None? {
            firstRow := Some(start + i);
          }
          entries := entries + [Entry(effectId, evidence)];
      }
    }
    assert rows[..|rows|] == rows;
    return Some(Parsed(entries, firstRow));
  }

  ghost predicate ParsedSoFar(rows: seq<Row>, entries: seq<Entry>) {
    Legal(rows) && Distinct(entries) && AsMap(entries) == Scan(rows)
  }

  lemma NothingParsed(rows: seq<Row>)
    ensures ParsedSoFar(rows[..0], [])
  {
  }

  lemma ParseStep(rows: seq<Row>, i: nat, entries: seq<Entry>)
    requires i < |rows| && ParsedSoFar(rows[..i], entries)
    ensures match rows[i]
            case Blank => ParsedSoFar(rows[..i + 1], entries)
            case Malformed => !Legal(rows)
            case Receipt(effectId, evidence) =>
              if effectId in AsMap(entries) then !Legal(rows)
              else ParsedSoFar(rows[..i + 1], entries + [Entry(effectId, evidence)])
  {
    hide Unique, Distinct;
    var now := rows[..i + 1];
    assert now == rows[..i] + [rows[i]] && now[..i] == rows[..i];
    LegalStep(rows, i);
    if rows[i].Receipt? && rows[i].effectId !in AsMap(entries) {
      var entry := Entry(rows[i].effectId, rows[i].evidence);
      DistinctAppend(entries, entry);
      assert (entries + [entry])[..|entries|] == entries;
    }
  }

  /** One more row keeps a tab legal unless it is malformed or repeats an effect. */
  lemma LegalStep(rows: seq<Row>, i: nat)
    requires i < |rows| && Legal(rows[..i])
    ensures Legal(rows[..i + 1]) <==> !rows[i].Malformed? && (rows[i].Receipt? ==> rows[i].effectId !in Scan(rows[..i]))
    ensures Legal(rows) ==> Legal(rows[..i + 1])
  {
    if rows[i].Receipt? {
      ScanOf(rows[..i], rows[i].effectId);
      if rows[i].effectId in Scan(rows[..i]) {
        var j :| 0 <= j < i && rows[..i][j].Receipt? && rows[..i][j].effectId == rows[i].effectId;
        assert rows[..i + 1][j] == rows[..i][j] && rows[..i + 1][i] == rows[i];
      }
    }
  }

  lemma DistinctAppend(entries: seq<Entry>, entry: Entry)
    requires Distinct(entries) && entry.effectId !in AsMap(entries)
    ensures Distinct(entries + [entry])
  {
    forall i | 0 <= i < |entries|
      ensures entries[i].effectId != entry.effectId
    {
      EntryIn(entries, entries[i]);
    }
  }

  /** What the API does with a dispatch: reject the band's range, or show a key gap that needs a whole read. */
  datatype ReadEnv = ReadEnv(rejected: bool, keyGap: bool)

  /** A refused dispatch, or the receipts it answers from and whether it read a band only. */
  datatype ReadResult = Refused | Exposed(receipts: map<string, Evidence>, banded: bool)

  /** The cursor row still holds a receipt. */
  predicate SentinelPresent(row: nat, rows: seq<Row>) {
    2 <= row <= |rows| + 1 && rows[row - 2].Receipt?
  }

  lemma NothingMerged(memo: map<string, Evidence>, entries: seq<Entry>)
    ensures Agrees(memo, entries[..0]) && AsMap(entries[..0]) == map[]
  {
  }

  /** One more entry of a read without repeated effects. */
  lemma MergeStep(memo: map<string, Evidence>, entries: seq<Entry>, i: nat)
    requires Distinct(entries) && i < |entries|
    ensures var e := entries[i];
            && AsMap(entries[..i + 1]) == AsMap(entries[..i])[e.effectId := e.evidence]
            && e.effectId !in AsMap(entries[..i])
            && (Agrees(memo, entries[..i + 1]) <==> Agrees(memo, entries[..i]) && (e.effectId in memo ==> memo[e.effectId] == e.evidence))
            && (Agrees(memo, entries) ==> Agrees(memo, entries[..i + 1]))
  {
    var before, now := entries[..i], entries[..i + 1];
    assert now == before + [entries[i]];
    assert now[..i] == before;
    NotBefore(entries, i, i);
  }

  lemma {:induction false} NotBefore(entries: seq<Entry>, n: nat, i: nat)
    requires Distinct(entries) && n <= i < |entries|
    ensures entries[i].effectId !in AsMap(entries[..n])
  {
    if n > 0 {
      assert entries[..n][..n - 1] == entries[..n - 1];
      NotBefore(entries, n - 1, i);
    }
  }

  /** Entries that do not contradict the memo. */
  ghost predicate Agrees(memo: map<string, Evidence>, entries: seq<Entry>) {
    forall e :: e in entries && e.effectId in memo ==> memo[e.effectId] == e.evidence
  }

  class ReceiptReadCursor {
    var lastVerifiedRow: nat
    var memo: map<string, Evidence>

    constructor ()
      ensures lastVerifiedRow == 0 && memo == map[]
    {
      lastVerifiedRow, memo := 0, map[];
    }

    function BandStartRow(): (r: Option<nat>)
      reads this
      ensures r.Some? ==> r.value == lastVerifiedRow >= 2
    {
      if lastVerifiedRow >= 2 then Some(lastVerifiedRow) else None
    }

    method AdvanceTo(verifiedRow: nat)
      modifies this`lastVerifiedRow
      ensures lastVerifiedRow == if verifiedRow > old(lastVerifiedRow) then verifiedRow else old(lastVerifiedRow)
    {
      if verifiedRow > lastVerifiedRow {
        lastVerifiedRow := verifiedRow;
      }
    }

    method Reset()
      modifies this
      ensures lastVerifiedRow == 0 && memo == map[]
    {
      lastVerifiedRow, memo := 0, map[];
    }

    /** Merges a read; a contradiction stops it with what was merged so far. */
    method MergeParsed(entries: seq<Entry>) returns (ok: bool)
      requires Distinct(entries)
      modifies this`memo
      ensures ok <==> Agrees(old(memo), entries)
      ensures ok ==> memo == old(memo) + AsMap(entries)
    {
      hide Agrees, Distinct, AsMap;
      NothingMerged(memo, entries);
      for i := 0 to |entries|
        invariant Agrees(old(memo), entries[..i]) && memo == old(memo) + AsMap(entries[..i])
      {
        var entry := entries[i];
        MergeStep(old(memo), entries, i);
        if entry.effectId in memo {
          if memo[entry.effectId] != entry.evidence { return false; }
        } else {
          memo := memo[entry.effectId := entry.evidence];
        }
      }
      assert entries[..|entries|] == entries;
      return true;
    }

    /** The receipts of one read, from the band when the cursor can be trusted, else from the whole tab. */
    method Fetch(rows: seq<Row>, env: ReadEnv) returns (parsed: Option<Parsed>, banded: bool)
      modifies this
      ensures Fetched(rows, env, old(lastVerifiedRow), old(memo), lastVerifiedRow, memo, parsed, banded)
    {
      if |memo| >= MAX_MEMO_RECEIPTS {
        Reset();
      }
      var bandStart := BandStartRow();
      banded := false;
      if bandStart.None? {
        parsed := ReadReceipts(rows, 2);
      } else if env.rejected {
        Reset();
        parsed := ReadReceipts(rows, 2);
      } else {
        var s := bandStart.value;
        var band := BandOf(rows, s);
        BandLegal(rows, s);
        parsed := ReadReceipts(band, s);
        if parsed.None? { return; }
        banded := true;
        if parsed.value.firstRow != Some(s) {
          Reset();
          banded := false;
          parsed := ReadReceipts(rows, 2);
        }
      }
      if parsed.Some? && env.keyGap {
        banded := false;
        parsed := ReadReceipts(rows, 2);
      }
    }

    /** Merges a read and advances, or drops cursor and memo together once the memo is over its ceiling. */
    method Absorb(entries: seq<Entry>, lastRow: nat, banded: bool) returns (r: ReadResult)
      requires Distinct(entries)
      modifies this
      ensures Absorbed(entries, lastRow, banded, old(lastVerifiedRow), old(memo), r, lastVerifiedRow, memo)
    {
      hide Agrees, Distinct, AsMap;
      var merged := MergeParsed(entries);
      if !merged { return Refused; }
      AdvanceTo(lastRow);
      if |memo| > MAX_MEMO_RECEIPTS {
        Reset();
        return Exposed(AsMap(entries), banded);
      }
      return Exposed(memo, banded);
    }

    /** One dispatch: read, absorb, and expose the memo. */
    method Dispatch(rows: seq<Row>, env: ReadEnv) returns (r: ReadResult)
      modifies this
      ensures Answers(rows, env, old(lastVerifiedRow), old(memo), r, lastVerifiedRow, memo)
    {
      hide Answers, Agrees, Distinct, SentinelPresent, BandOf, Legal, Scan, AsMap;
      var parsed, banded := Fetch(rows, env);
      ghost var row1, memo1 := lastVerifiedRow, memo;
      if parsed.Some? {
        r := Absorb(parsed.value.entries, |rows| + 1, banded);
      } else {
        r := Refused;
      }
      AnswerFollows(rows, env, old(lastVerifiedRow), old(memo), row1, memo1, parsed, banded, r, lastVerifiedRow, memo);
    }
  }

  /** The read finds its memo full, its range rejected or its sentinel gone, and drops cursor and memo together. */
  predicate DropsCursor(rows: seq<Row>, env: ReadEnv, row0: nat, memo0: map<string, Evidence>) {
    |memo0| >= MAX_MEMO_RECEIPTS || (row0 >= 2 && (env.rejected || !SentinelPresent(row0, rows)))
  }

  /** The read answers from the band: there is a cursor, nothing drops it, and no key gap asks for the whole tab. */
  predicate ReadsBand(rows: seq<Row>, env: ReadEnv, row0: nat, memo0: map<string, Evidence>) {
    row0 >= 2 && !DropsCursor(rows, env, row0, memo0) && !env.keyGap
  }

  /** The rows the answer is read from. */
  function RowsRead(rows: seq<Row>, env: ReadEnv, row0: nat, memo0: map<string, Evidence>): seq<Row> {
    if ReadsBand(rows, env, row0, memo0) then BandOf(rows, row0) else rows
  }

  /** The memo agrees with the tab, or is dropped before it matters. */
  ghost predicate Sound(rows: seq<Row>, env: ReadEnv, row0: nat, memo0: map<string, Evidence>) {
    Legal(rows) && (Within(memo0, Scan(rows)) || DropsCursor(rows, env, row0, memo0))
  }

  /**
   What a dispatch does over a legal tab its memo agrees with, in terms of what is known before the call: which
   rows it reads, what it answers, and what it leaves. Over the ceiling it answers from the rows it read alone.
   */
  ghost predicate Answers(rows: seq<Row>, env: ReadEnv, row0: nat, memo0: map<string, Evidence>, r: ReadResult,
                          row: nat, memo: map<string, Evidence>) {
    && (r.Refused? <==> || !ReadLegal(rows, env, row0, memo0)
                        || (!DropsCursor(rows, env, row0, memo0) && Contradicts(memo0, Scan(RowsRead(rows, env, row0, memo0)))))
    && (Sound(rows, env, row0, memo0) ==>
      var banded := ReadsBand(rows, env, row0, memo0);
      var fetched := Scan(RowsRead(rows, env, row0, memo0));
      var merged := if banded then memo0 + fetched else fetched;
      if |merged| > MAX_MEMO_RECEIPTS then r == Exposed(fetched, banded) && row == 0 && memo == map[]
      else r == Exposed(merged, banded) && row == |rows| + 1 && memo == merged)
  }

  /** What is read is legal: the band, and the whole tab when it comes to reading that. */
  ghost predicate ReadLegal(rows: seq<Row>, env: ReadEnv, row0: nat, memo0: map<string, Evidence>) {
    if row0 < 2 || |memo0| >= MAX_MEMO_RECEIPTS || env.rejected then Legal(rows)
    else Legal(BandOf(rows, row0)) && (!SentinelPresent(row0, rows) || env.keyGap ==> Legal(rows))
  }

  /** Some effect has different evidence in the two. */
  ghost predicate Contradicts(a: map<string, Evidence>, b: map<string, Evidence>) {
    exists k :: k in a && k in b && a[k] != b[k]
  }

  /** What a read fetched, and what was left of cursor and memo by then. */
  ghost predicate Fetched(rows: seq<Row>, env: ReadEnv, row0: nat, memo0: map<string, Evidence>,
                          row: nat, memo: map<string, Evidence>, parsed: Option<Parsed>, banded: bool) {
    && (parsed.Some? ==> Distinct(parsed.value.entries))
    && (parsed.Some? <==> ReadLegal(rows, env, row0, memo0))
    && (parsed.Some? ==>
          && banded == ReadsBand(rows, env, row0, memo0)
          && AsMap(parsed.value.entries) == Scan(RowsRead(rows, env, row0, memo0))
          && if DropsCursor(rows, env, row0, memo0) then row == 0 && memo == map[] else row == row0 && memo == memo0)
  }

  /** What absorbing a read leaves. */
  ghost predicate Absorbed(entries: seq<Entry>, lastRow: nat, banded: bool, row0: nat, memo0: map<string, Evidence>,
                           r: ReadResult, row: nat, memo: map<string, Evidence>) {
    if !Agrees(memo0, entries) then r.Refused?
    else
      var merged := memo0 + AsMap(entries);
      if |merged| > MAX_MEMO_RECEIPTS then r == Exposed(AsMap(entries), banded) && row == 0 && memo == map[]
      else r == Exposed(merged, banded) && memo == merged && row == if lastRow > row0 then lastRow else row0
  }

  lemma AnswerFollows(rows: seq<Row>, env: ReadEnv, row0: nat, memo0: map<string, Evidence>,
                      row1: nat, memo1: map<string, Evidence>, parsed: Option<Parsed>, banded: bool,
                      r: ReadResult, row: nat, memo: map<string, Evidence>)
    requires Fetched(rows, env, row0, memo0, row1, memo1, parsed, banded)
    requires if parsed.Some? then Absorbed(parsed.value.entries, |rows| + 1, banded, row1, memo1, r, row, memo) else r.Refused?
    ensures Answers(rows, env, row0, memo0, r, row, memo)
  {
    hide Legal, AsMap, Agrees, Distinct, Scan, Within, RowsRead, ReadLegal, Contradicts;
    if parsed.Some? {
      AgreesExactly(memo1, parsed.value.entries);
      NothingContradicts(AsMap(parsed.value.entries));
    }
    if Sound(rows, env, row0, memo0) {
      SoundLegal(rows, env, row0, memo0);
      FetchAgrees(rows, env, row0, memo0, memo1, parsed.value.entries);
    }
  }

  lemma SoundLegal(rows: seq<Row>, env: ReadEnv, row0: nat, memo0: map<string, Evidence>)
    requires Sound(rows, env, row0, memo0)
    ensures ReadLegal(rows, env, row0, memo0)
  {
    BandLegal(rows, row0);
  }

  lemma NothingContradicts(b: map<string, Evidence>)
    ensures !Contradicts(map[], b)
  {
  }

  /** A read agrees with the memo exactly when no effect has other evidence in it. */
  lemma AgreesExactly(memo: map<string, Evidence>, entries: seq<Entry>)
    requires Distinct(entries)
    ensures Agrees(memo, entries) <==> !Contradicts(memo, AsMap(entries))
  {
    if Agrees(memo, entries) {
      forall k | k in memo && k in AsMap(entries)
        ensures memo[k] == AsMap(entries)[k]
      {
        var e := EntryOf(entries, k);
        EntryIn(entries, e);
      }
    } else {
      var e :| e in entries && e.effectId in memo && memo[e.effectId] != e.evidence;
      EntryIn(entries, e);
    }
  }

  lemma {:induction false} EntryOf(entries: seq<Entry>, id: string) returns (e: Entry)
    requires id in AsMap(entries)
    ensures e in entries && e.effectId == id
  {
    var n := |entries| - 1;
    if entries[n].effectId == id {
      e := entries[n];
    } else {
      e := EntryOf(entries[..n], id);
    }
  }

  lemma BandLegal(rows: seq<Row>, row: nat)
    ensures Legal(rows) ==> Legal(BandOf(rows, row))
  {
  }

  /** What a read parsed does not contradict what is left of the memo. */
  lemma FetchAgrees(rows: seq<Row>, env: ReadEnv, row0: nat, memo0: map<string, Evidence>, memo: map<string, Evidence>,
                    entries: seq<Entry>)
    requires Sound(rows, env, row0, memo0) && memo == if DropsCursor(rows, env, row0, memo0) then map[] else memo0
    requires Distinct(entries) && AsMap(entries) == Scan(RowsRead(rows, env, row0, memo0))
    ensures Agrees(memo, entries)
    ensures memo + AsMap(entries) == if ReadsBand(rows, env, row0, memo0) then memo0 + AsMap(entries) else AsMap(entries)
  {
    hide Legal, DropsCursor, SentinelPresent, Distinct, Unique, BandOf, Scan, Within, AsMap, Agrees;
    UniqueIfLegal(rows);
    BandWithin(rows, row0);
    WithinSelf(Scan(rows));
    if DropsCursor(rows, env, row0, memo0) {
      NothingWithin(Scan(rows));
    }
    MemoAgrees(memo, entries, Scan(rows));
  }

  lemma NothingWithin(scan: map<string, Evidence>)
    ensures Within(map[], scan)
  {
  }

  /** What agrees with one tab agrees with itself. */
  lemma MemoAgrees(memo: map<string, Evidence>, entries: seq<Entry>, scan: map<string, Evidence>)
    requires Within(memo, scan) && Within(AsMap(entries), scan) && Distinct(entries)
    ensures Agrees(memo, entries)
    ensures AsMap(entries) == scan ==> memo + AsMap(entries) == AsMap(entries)
  {
    hide Distinct, AsMap;
    forall e | e in entries && e.effectId in memo
      ensures memo[e.effectId] == e.evidence
    {
      EntryIn(entries, e);
    }
  }

  lemma UniqueIfLegal(rows: seq<Row>)
    requires Legal(rows)
    ensures Unique(rows)
  {
  }

  lemma {:induction false} EntryIn(entries: seq<Entry>, e: Entry)
    requires Distinct(entries) && e in entries
    ensures e.effectId in AsMap(entries) && AsMap(entries)[e.effectId] == e.evidence
  {
    var n := |entries| - 1;
    if e != entries[n] {
      EntryIn(entries[..n], e);
      var i :| 0 <= i < n && entries[i] == e;
      assert entries[i].effectId != entries[n].effectId;
    }
  }

  // ---- Which dispatches answer like a scan ----

  predicate NoReceiptAbove(row: nat, rows: seq<Row>) {
    forall i :: 0 <= i < row - 2 && i < |rows| ==> !rows[i].Receipt?
  }

  /** A band alone is the whole tab exactly when no receipt lies above the cursor row. */
  lemma BandAloneComplete(rows: seq<Row>, row: nat)
    requires Unique(rows) && 2 <= row <= |rows| + 1
    ensures Scan(BandOf(rows, row)) == Scan(rows) <==> NoReceiptAbove(row, rows)
  {
    var head := rows[..row - 2];
    assert map[] + Scan(BandOf(rows, row)) == Scan(BandOf(rows, row));
    CoversExactly(row, map[], rows);
    if NoReceiptAbove(row, rows) {
      forall id
        ensures id !in Scan(head)
      {
        ScanOf(head, id);
      }
    } else {
      var i :| 0 <= i < row - 2 && i < |rows| && rows[i].Receipt?;
      assert head[i] == rows[i];
      ScanOf(head, rows[i].effectId);
    }
  }

  lemma SizeWithin(a: map<string, Evidence>, b: map<string, Evidence>)
    requires Within(a, b)
    ensures |a| <= |b|
  {
    assert a.Keys <= b.Keys;
    KeysBelow(a.Keys, b.Keys);
  }

  lemma {:induction false} KeysBelow(a: set<string>, b: set<string>)
    requires a <= b
    ensures |a| <= |b|
  {
    if a != {} {
      var k :| k in a;
      KeysBelow(a - {k}, b - {k});
    }
  }

  lemma WithinSelf(a: map<string, Evidence>)
    ensures Within(a, a)
  {
  }

  lemma SumWithin(a: map<string, Evidence>, b: map<string, Evidence>, c: map<string, Evidence>)
    requires Within(a, c)
    ensures Within(b, c) ==> Within(a + b, c)
  {
  }

  lemma BandBounds(rows: seq<Row>, env: ReadEnv, row0: nat, memo0: map<string, Evidence>)
    requires Sound(rows, env, row0, memo0)
    ensures Unique(rows)
    ensures ReadsBand(rows, env, row0, memo0) ==> 2 <= row0 <= |rows| + 1 && Within(memo0, Scan(rows))
  {
  }

  /**
   The answer is the scan of the tab exactly when the whole tab was read, or the memo holds every row above
   the cursor and the ceiling is kept, or the ceiling is broken and nothing lies above the cursor.
   */
  lemma AnswersScanExactly(rows: seq<Row>, env: ReadEnv, row0: nat, memo0: map<string, Evidence>, r: ReadResult,
                           row: nat, memo: map<string, Evidence>)
    requires Sound(rows, env, row0, memo0) && Answers(rows, env, row0, memo0, r, row, memo)
    ensures r.Exposed? && Within(r.receipts, Scan(rows))
    ensures r.receipts == Scan(rows) <==>
            !ReadsBand(rows, env, row0, memo0)
            || if |memo0 + Scan(BandOf(rows, row0))| > MAX_MEMO_RECEIPTS then NoReceiptAbove(row0, rows) else Covers(row0, memo0, rows)
  {
    hide Sound, ReadsBand, BandOf, Covers, Scan, NoReceiptAbove, Within, Unique;
    BandBounds(rows, env, row0, memo0);
    WithinSelf(Scan(rows));
    if ReadsBand(rows, env, row0, memo0) {
      SumWithin(memo0, Scan(BandOf(rows, row0)), Scan(rows));
      CoversExactly(row0, memo0, rows);
      BandAloneComplete(rows, row0);
      BandWithin(rows, row0);
    }
  }

  /**
   A dispatch reads the whole tab, and so answers with its scan, when it has no cursor, its memo is full, the range
   is rejected, the cursor row holds no receipt or a key gap shows; and it reads the band in every other case.
   */
  lemma ReadsWholeTab(rows: seq<Row>, env: ReadEnv, row0: nat, memo0: map<string, Evidence>, r: ReadResult,
                      row: nat, memo: map<string, Evidence>)
    requires Sound(rows, env, row0, memo0) && Answers(rows, env, row0, memo0, r, row, memo)
    ensures var whole := || row0 < 2 || |memo0| >= MAX_MEMO_RECEIPTS || env.rejected || env.keyGap
                         || !(row0 <= |rows| + 1 && rows[row0 - 2].Receipt?);
            r.Exposed? && r.banded == !whole && (whole ==> r.receipts == Scan(rows))
  {
    hide Sound, Scan;
  }

  /**
   Over a tab the cursor covers, the answer is the scan of the whole tab exactly when no band is read, the tab
   is within the ceiling, or no receipt lies above the cursor row; and the cursor covers the tab afterwards.
   */
  lemma CoveredAnswers(rows: seq<Row>, env: ReadEnv, row0: nat, memo0: map<string, Evidence>, r: ReadResult,
                       row: nat, memo: map<string, Evidence>)
    requires Legal(rows) && Covers(row0, memo0, rows) && Answers(rows, env, row0, memo0, r, row, memo)
    ensures r.Exposed? && Within(r.receipts, Scan(rows)) && Covers(row, memo, rows)
    ensures r.receipts == Scan(rows) <==>
            !ReadsBand(rows, env, row0, memo0) || |Scan(rows)| <= MAX_MEMO_RECEIPTS || NoReceiptAbove(row0, rows)
    ensures row0 < 2 || row >= 2 ==> r.receipts == Scan(rows)
    ensures row == 0 || row == |rows| + 1
  {
    hide Legal, Scan, NoReceiptAbove;
    UniqueIfLegal(rows);
    AnswersScanExactly(rows, env, row0, memo0, r, row, memo);
    if ReadsBand(rows, env, row0, memo0) {
      CoversExactly(row0, memo0, rows);
    }
    ScanWithin(rows, 0, |rows| - if rows == [] then 0 else 1);
    assert row == |rows| + 1 ==> memo == Scan(rows);
  }

  /**
   A writer inserted at its own, older tail. As long as a band is read and the ceiling kept, the dispatch after
   it misses exactly the inserted receipts above the cursor row.
   */
  lemma StaleInsertMisses(row0: nat, memo0: map<string, Evidence>, rows: seq<Row>, at: nat, more: seq<Row>, env: ReadEnv,
                          r: ReadResult, row: nat, memo: map<string, Evidence>)
    requires Covers(row0, memo0, rows) && at <= |rows| && Legal(Inserted(rows, at, more))
    requires Answers(Inserted(rows, at, more), env, row0, memo0, r, row, memo)
    requires ReadsBand(Inserted(rows, at, more), env, row0, memo0) && |Scan(Inserted(rows, at, more))| <= MAX_MEMO_RECEIPTS
    ensures r.Exposed? && Within(r.receipts, Scan(Inserted(rows, at, more)))
    ensures r.receipts == Scan(Inserted(rows, at, more)) <==> NoneLandsAbove(row0, at, more)
    ensures forall id :: id in Scan(Inserted(rows, at, more)) ==> (id !in r.receipts <==> MissedAt(row0, at, more, id))
  {
    hide Legal, Scan, Inserted, NoneLandsAbove, NoReceiptAbove;
    var after := Inserted(rows, at, more);
    UniqueIfLegal(after);
    InsertedWithin(rows, at, more);
    InsertKeepsCoverage(row0, memo0, rows, at, more);
    AnswersScanExactly(after, env, row0, memo0, r, row, memo);
    BandWithin(after, row0);
    SizeWithin(memo0 + Scan(BandOf(after, row0)), Scan(after));
    forall id | id in Scan(after)
      ensures id !in r.receipts <==> MissedAt(row0, at, more, id)
    {
      MissedExactly(row0, memo0, rows, at, more, id);
    }
  }

  lemma MissedExactly(row: nat, memo: map<string, Evidence>, rows: seq<Row>, at: nat, more: seq<Row>, id: string)
    requires Covers(row, memo, rows) && row >= 2 && at <= |rows| && Unique(Inserted(rows, at, more))
    requires id in Scan(Inserted(rows, at, more))
    ensures id !in memo && id !in Scan(BandOf(Inserted(rows, at, more), row)) <==> MissedAt(row, at, more, id)
  {
    hide Inserted, Unique, Scan;
    var after := Inserted(rows, at, more);
    InsertedSize(rows, at, more);
    var head, band := after[..row - 2], after[row - 2..];
    assert after == head + band;
    ScanAppend(head, band);
    if MissedAt(row, at, more, id) {
      var i :| 0 <= i < |more| && at + i < row - 2 && more[i].Receipt? && more[i].effectId == id;
      InsertedNew(rows, at, more, i);
      InsertedMore(rows, at, more, i);
      assert head[at + i] == more[i];
      ScanOf(head, id);
      Apart(after, row - 2, id);
    } else if id in Scan(head) {
      HeadOrMissed(row, rows, at, more, id);
    }
  }

  lemma InsertedSize(rows: seq<Row>, at: nat, more: seq<Row>)
    requires at <= |rows|
    ensures |Inserted(rows, at, more)| == |rows| + |more|
  {
  }

  lemma InsertedMore(rows: seq<Row>, at: nat, more: seq<Row>, i: nat)
    requires at <= |rows| && i < |more|
    ensures at + i < |Inserted(rows, at, more)| && Inserted(rows, at, more)[at + i] == more[i]
  {
  }

  lemma CeilingIs()
    ensures MAX_MEMO_RECEIPTS == 200000
  {
  }

  /** A tab of `n` receipts of different effects. */
  function LongTab(n: nat, e: Evidence): seq<Row> {
    seq(n, (i: nat) => Receipt(seq(i, _ => 'x'), e))
  }

  lemma LongTabLegal(n: nat, e: Evidence)
    ensures Legal(LongTab(n, e))
  {
    forall i, j | 0 <= i < j < n
      ensures LongTab(n, e)[i].effectId != LongTab(n, e)[j].effectId
    {
      assert |LongTab(n, e)[i].effectId| == i && |LongTab(n, e)[j].effectId| == j;
    }
  }

  lemma {:induction false} CountExactly(rows: seq<Row>)
    requires Unique(rows) && forall i :: 0 <= i < |rows| ==> rows[i].Receipt?
    ensures |Scan(rows)| == |rows|
  {
    if rows != [] {
      var n := |rows| - 1;
      CountExactly(rows[..n]);
      ScanOf(rows[..n], rows[n].effectId);
      assert Scan(rows).Keys == Scan(rows[..n]).Keys + {rows[n].effectId};
    }
  }

  /** One receipt short of the ceiling was read, two more are appended: the band alone is answered, and an older receipt missed. */
  lemma CeilingWitness(e: Evidence, r: ReadResult, row: nat, memo: map<string, Evidence>)
    requires var n := MAX_MEMO_RECEIPTS;
             Answers(LongTab(n + 1, e), ReadEnv(false, false), n, Scan(LongTab(n - 1, e)), r, row, memo)
    ensures Covers(MAX_MEMO_RECEIPTS, Scan(LongTab(MAX_MEMO_RECEIPTS - 1, e)), LongTab(MAX_MEMO_RECEIPTS + 1, e))
    ensures r.Exposed? && r.receipts != Scan(LongTab(MAX_MEMO_RECEIPTS + 1, e)) && row == 0
  {
    hide Scan, Legal, Unique, Answers;
    var n := MAX_MEMO_RECEIPTS;
    var rows, read := LongTab(n + 1, e), LongTab(n - 1, e);
    LongTabLegal(n + 1, e);
    LongTabLegal(n - 1, e);
    UniqueIfLegal(rows);
    UniqueIfLegal(read);
    CountExactly(rows);
    CountExactly(read);
    assert rows[0..n - 1] == read && rows[..n - 2] == read[0..n - 2];
    ScanWithin(rows, 0, n - 1);
    ScanWithin(read, 0, n - 2);
    CoveredAnswers(rows, ReadEnv(false, false), n, Scan(read), r, row, memo);
    assert rows[0].Receipt?;
  }

  lemma HeadGrows(rows: seq<Row>, lo: nat, hi: nat, id: string)
    requires lo <= hi <= |rows| && id in Scan(rows[..lo])
    ensures id in Scan(rows[..hi])
  {
    assert rows[..hi] == rows[..lo] + rows[lo..hi];
    ScanAppend(rows[..lo], rows[lo..hi]);
  }

  lemma NotRead(rows: seq<Row>, env: ReadEnv, row0: nat, memo0: map<string, Evidence>, id: string)
    requires Sound(rows, env, row0, memo0) && ReadsBand(rows, env, row0, memo0) && id in Scan(rows[..row0 - 2])
    ensures 2 <= row0 <= |rows| + 1 && id !in Scan(RowsRead(rows, env, row0, memo0))
  {
    hide Scan, Unique;
    Apart(rows, row0 - 2, id);
  }

  /** A receipt above the cursor that the memo does not hold is not found by any later band read. */
  lemma MissedStaysMissed(rows: seq<Row>, env: ReadEnv, row0: nat, memo0: map<string, Evidence>, r: ReadResult,
                          row: nat, memo: map<string, Evidence>, id: string)
    requires Sound(rows, env, row0, memo0) && Answers(rows, env, row0, memo0, r, row, memo)
    requires ReadsBand(rows, env, row0, memo0) && id in Scan(rows[..row0 - 2]) && id !in memo0
    ensures r.Exposed? && id !in r.receipts
    ensures row >= 2 ==> id !in memo && row0 <= row <= |rows| + 1 && id in Scan(rows[..row - 2])
  {
    hide Sound, Scan, ReadsBand, RowsRead;
    NotRead(rows, env, row0, memo0, id);
    HeadGrows(rows, row0 - 2, |rows| - 1, id);
  }

  /** Two rows were read, a third is inserted by a writer that had seen an empty tab: the gate holds, the third is missed. */
  lemma StaleInsertWitness(a: Row, b: Row, c: Row, r: ReadResult, row: nat, memo: map<string, Evidence>)
    requires a.Receipt? && b.Receipt? && c.Receipt? && Unique([c, a, b])
    requires Answers(Inserted([a, b], 0, [c]), ReadEnv(false, false), 3, Scan([a, b]), r, row, memo)
    ensures Covers(3, Scan([a, b]), [a, b]) && Legal(Inserted([a, b], 0, [c]))
    ensures c.effectId in Scan(Inserted([a, b], 0, [c])) && r.Exposed? && c.effectId !in r.receipts && row >= 2
  {
    hide Scan, Inserted, Answers;
    var rows, env := [a, b], ReadEnv(false, false);
    TwoRead(a, b, c);
    var after := Inserted(rows, 0, [c]);
    CountRows(rows);
    CountRows(after);
    StaleInsertMisses(3, Scan(rows), rows, 0, [c], env, r, row, memo);
    assert [c][0] == c;
    ScanOf(after, c.effectId);
    assert after[0] == c;
    assert MissedAt(3, 0, [c], c.effectId);
    UniqueIfLegal(after);
    InsertedWithin(rows, 0, [c]);
    Advances(after, env, 3, Scan(rows), r, row, memo);
  }

  lemma TwoRead(a: Row, b: Row, c: Row)
    requires a.Receipt? && b.Receipt? && c.Receipt? && Unique([c, a, b])
    ensures Covers(3, Scan([a, b]), [a, b]) && Inserted([a, b], 0, [c]) == [c, a, b] && Legal([c, a, b])
  {
    var after := [c, a, b];
    assert after[1] == a && after[2] == b;
    ScanWithin([a, b], 0, 1);
    assert [a, b][0..1] == [a, b][..1];
  }

  lemma {:induction false} CountRows(rows: seq<Row>)
    ensures |Scan(rows)| <= |rows|
  {
    if rows != [] {
      CountRows(rows[..|rows| - 1]);
    }
  }

  /** Within the ceiling every answer leaves a live cursor at the tail. */
  lemma Advances(rows: seq<Row>, env: ReadEnv, row0: nat, memo0: map<string, Evidence>, r: ReadResult, row: nat, memo: map<string, Evidence>)
    requires Sound(rows, env, row0, memo0) && Answers(rows, env, row0, memo0, r, row, memo) && |Scan(rows)| <= MAX_MEMO_RECEIPTS
    ensures row == |rows| + 1
  {
    hide Legal, Scan, BandOf, DropsCursor;
    UniqueIfLegal(rows);
    if ReadsBand(rows, env, row0, memo0) {
      BandWithin(rows, row0);
      SizeWithin(memo0 + Scan(BandOf(rows, row0)), Scan(rows));
    }
  }

  // ---- Any run over a tab that other writers insert into ----

  datatype Event = Insert(at: nat, more: seq<Row>) | Read(env: ReadEnv) | Restart

  /** A dispatch with the tab it read, and whether the coverage gate of the probes held: no band start before, or a live cursor after. */
  datatype Answer = Answer(rows: seq<Row>, result: ReadResult, gate: bool)

  function TabAfter(rows: seq<Row>, event: Event): seq<Row> {
    if event.Insert? && event.at <= |rows| then Inserted(rows, event.at, event.more) else rows
  }

  /** The tab after every insertion of the events. */
  function FinalTab(rows: seq<Row>, events: seq<Event>): seq<Row>
    decreases |events|
  {
    if events == [] then rows else FinalTab(TabAfter(rows, events[0]), events[1..])
  }

  /**
   No writer is more than one row behind: whatever it inserts lands at or below the last row this reader had
   read. `size` is the number of data rows, `seen` what it was at the reader's last read.
   */
  predicate WritersKeepUp(size: nat, seen: nat, events: seq<Event>)
    decreases |events|
  {
    events == [] ||
    match events[0]
    case Insert(at, more) => at <= size && NoneLandsAbove(seen + 1, at, more) && WritersKeepUp(size + |more|, seen, events[1..])
    case Read(_) => WritersKeepUp(size, size, events[1..])
    case Restart => WritersKeepUp(size, 0, events[1..])
  }

  lemma LegalBefore(rows: seq<Row>, at: nat, more: seq<Row>)
    requires at <= |rows| && Legal(Inserted(rows, at, more))
    ensures Legal(rows)
  {
    InsertedUnique(rows, at, more);
    forall i | 0 <= i < |rows|
      ensures !rows[i].Malformed?
    {
      InsertedAt(rows, at, more, i);
    }
  }

  /** A tab that ends legal was legal all along. */
  lemma {:induction false} LegalAllAlong(rows: seq<Row>, events: seq<Event>)
    requires Legal(FinalTab(rows, events))
    ensures Legal(rows)
    decreases |events|
  {
    if events != [] {
      LegalAllAlong(TabAfter(rows, events[0]), events[1..]);
      if events[0].Insert? && events[0].at <= |rows| {
        LegalBefore(rows, events[0].at, events[0].more);
      }
    }
  }

  ghost predicate Exact(a: Answer) {
    a.result.Exposed? && (a.gate || |Scan(a.rows)| <= MAX_MEMO_RECEIPTS ==> a.result.receipts == Scan(a.rows))
  }

  /** The cursor covers the tab and is not past what was read last. */
  ghost predicate Serving(row: nat, memo: map<string, Evidence>, rows: seq<Row>, seen: nat) {
    Covers(row, memo, rows) && row <= seen + 1
  }

  /**
   Insertions by any writer that keeps up, reads, and process restarts in any order over a tab that stays legal:
   every read is answered, and whenever its coverage gate holds or the tab is within the ceiling, by exactly the
   receipts of the whole tab at that time.
   */
  method Serve(start: seq<Row>, events: seq<Event>) returns (answers: seq<Answer>, rows: seq<Row>)
    requires Legal(FinalTab(start, events)) && WritersKeepUp(|start|, 0, events)
    ensures rows == FinalTab(start, events)
    ensures forall a :: a in answers ==> Exact(a)
  {
    hide Legal, Serving, Answers, Exact, Inserted;
    rows, answers := start, [];
    var cursor := new ReceiptReadCursor();
    ghost var seen: nat := 0;
    NothingCovered(rows);
    for i := 0 to |events|
      invariant FinalTab(rows, events[i..]) == FinalTab(start, events) && WritersKeepUp(|rows|, seen, events[i..])
      invariant Serving(cursor.lastVerifiedRow, cursor.memo, rows, seen)
      invariant fresh(cursor)
      invariant forall a :: a in answers ==> Exact(a)
    {
      var event := events[i];
      assert events[i..][0] == event && events[i..][1..] == events[i + 1..];
      LegalAllAlong(rows, events[i..]);
      match event {
        case Insert(at, more) =>
          LegalAllAlong(TabAfter(rows, event), events[i + 1..]);
          InsertServed(cursor.lastVerifiedRow, cursor.memo, rows, seen, at, more);
          rows := Inserted(rows, at, more);
        case Read(env) =>
          var row0, memo0 := cursor.lastVerifiedRow, cursor.memo;
          var result := cursor.Dispatch(rows, env);
          var answer := Answer(rows, result, row0 < 2 || cursor.lastVerifiedRow >= 2);
          ReadServed(env, row0, memo0, rows, seen, cursor.lastVerifiedRow, cursor.memo, answer);
          answers := answers + [answer];
          seen := |rows|;
        case Restart =>
          cursor := new ReceiptReadCursor();
          NothingCovered(rows);
          seen := 0;
      }
    }
  }

  lemma NothingCovered(rows: seq<Row>)
    ensures Serving(0, map[], rows, 0)
  {
  }

  lemma InsertServed(row: nat, memo: map<string, Evidence>, rows: seq<Row>, seen: nat, at: nat, more: seq<Row>)
    requires Serving(row, memo, rows, seen) && at <= |rows| && NoneLandsAbove(seen + 1, at, more) && Legal(Inserted(rows, at, more))
    ensures Serving(row, memo, Inserted(rows, at, more), seen) && |Inserted(rows, at, more)| == |rows| + |more|
  {
    UniqueIfLegal(Inserted(rows, at, more));
    InsertKeepsCoverage(row, memo, rows, at, more);
  }

  lemma ReadServed(env: ReadEnv, row0: nat, memo0: map<string, Evidence>, rows: seq<Row>, seen: nat,
                   row: nat, memo: map<string, Evidence>, answer: Answer)
    requires Serving(row0, memo0, rows, seen) && Legal(rows) && answer.rows == rows
    requires Answers(rows, env, row0, memo0, answer.result, row, memo) && answer.gate == (row0 < 2 || row >= 2)
    ensures Serving(row, memo, rows, |rows|) && Exact(answer)
  {
    hide Covers, Answers, Legal, Scan;
    CoveredAnswers(rows, env, row0, memo0, answer.result, row, memo);
  }
}
