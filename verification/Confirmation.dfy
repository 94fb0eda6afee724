/**
 Durable confirmation of delivered effects: the row and field mirrors with their guarded upserts, and the
 revision a confirmation may write.
 */
module Confirmation {
  import opened Text

  datatype Binding = Binding(physicalSheetId: string, projection: string, rowBindingId: string)

  datatype RowState = RowState(hash: string, revision: nat, entityRevision: Option<nat>, observedHash: string)
  datatype FieldState = FieldState(hash: string, revision: nat, observedHash: string)

  /** A field of a binding. */
  datatype FieldKey = FieldKey(binding: Binding, name: string)

  /** `fieldHashes` lists the entries of the confirmation's record in order. */
  datatype Confirmation = Confirmation(
    binding: Binding, visibleHash: string, visibleRevision: int, entityRevision: Option<nat>,
    fieldHashes: seq<(string, string)>, deleteRetention: bool, allowCreateRebaseline: bool)

  datatype Outcome = Written | Regression | Invalid

  /** The two mirror tables. */
  datatype Mirror = Mirror(rows: map<Binding, RowState>, fields: map<FieldKey, FieldState>)

  predicate IsValid(c: Confirmation) {
    && c.binding.physicalSheetId != "" && c.binding.projection != "" && c.binding.rowBindingId != ""
    && c.visibleHash != "" && c.visibleRevision >= 1
    && forall e :: e in c.fieldHashes ==> e.0 != "" && e.1 != ""
  }

  /** No field of the mirror is ahead of its row. */
  ghost predicate FieldsBehindRows(m: Mirror) {
    forall k :: k in m.fields ==> k.binding in m.rows && m.fields[k].revision <= m.rows[k.binding].revision
  }

  function RevisionOf(m: Mirror, b: Binding): Option<nat> {
    if b in m.rows then Some(m.rows[b].revision) else None
  }

  /** The revision a valid confirmation writes. */
  function Resolved(m: Mirror, c: Confirmation): nat
    requires c.visibleRevision >= 1
  {
    match RevisionOf(m, c.binding)
    case None => c.visibleRevision
    case Some(confirmed) =>
      if c.deleteRetention then if confirmed > c.visibleRevision then confirmed else c.visibleRevision
      else if c.allowCreateRebaseline && confirmed >= c.visibleRevision then confirmed + 1
      else c.visibleRevision
  }

  /** Only an ordinary confirmation can be stale. */
  predicate Stale(m: Mirror, c: Confirmation) {
    && !c.deleteRetention && !c.allowCreateRebaseline
    && c.binding in m.rows && m.rows[c.binding].revision > c.visibleRevision
  }

  /** The hash the last entry of that name carries. */
  function HashOf(entries: seq<(string, string)>, name: string): Option<string> {
    if entries == [] then None
    else if entries[|entries| - 1].0 == name then Some(entries[|entries| - 1].1)
    else HashOf(entries[..|entries| - 1], name)
  }

  /** The fields after the entries were written at a revision. */
  ghost predicate FieldsWritten(before: map<FieldKey, FieldState>, after: map<FieldKey, FieldState>, b: Binding,
                                entries: seq<(string, string)>, revision: nat) {
    forall k: FieldKey ::
      var hash := if k.binding == b then HashOf(entries, k.name) else None;
      match hash
      case Some(h) => k in after && after[k] == FieldState(h, revision, h)
      case None => (k in after <==> k in before) && (k in before ==> after[k] == before[k])
  }

  /** What processing one confirmation does to the mirror. */
  ghost predicate Processed(m: Mirror, c: Confirmation, next: Mirror, outcome: Outcome) {
    if !IsValid(c) then outcome == Invalid && next == m
    else if Stale(m, c) then outcome == Regression && next == m
    else
      var revision := Resolved(m, c);
      && outcome == Written
      && next.rows == m.rows[c.binding := RowState(c.visibleHash, revision, c.entityRevision, c.visibleHash)]
      && FieldsWritten(m.fields, next.fields, c.binding, c.fieldHashes, revision)
  }

  lemma NothingWritten(before: map<FieldKey, FieldState>, b: Binding, revision: nat)
    ensures FieldsWritten(before, before, b, [], revision)
  {
  }

  /** One more field at the revision of its row: its upsert is not refused, and keeps what holds. */
  lemma FieldWritten(before: map<FieldKey, FieldState>, now: Mirror, b: Binding, entries: seq<(string, string)>, revision: nat,
                     name: string, hash: string)
    requires FieldsBehindRows(now) && FieldsWritten(before, now.fields, b, entries, revision)
    requires b in now.rows && now.rows[b].revision == revision
    ensures FieldKey(b, name) in now.fields ==> now.fields[FieldKey(b, name)].revision <= revision
    ensures var after := now.fields[FieldKey(b, name) := FieldState(hash, revision, hash)];
            FieldsBehindRows(now.(fields := after)) && FieldsWritten(before, after, b, entries + [(name, hash)], revision)
  {
    assert (entries + [(name, hash)])[..|entries|] == entries;
  }

  class Store {
    var rows: map<Binding, RowState>
    var fields: map<FieldKey, FieldState>

    constructor ()
      ensures Contents() == Mirror(map[], map[])
    {
      rows, fields := map[], map[];
    }

    function Contents(): Mirror
      reads this
    {
      Mirror(rows, fields)
    }

    /** The row upsert: an existing row is replaced unless it is ahead. */
    method UpsertRow(b: Binding, state: RowState) returns (changes: nat)
      modifies this`rows
      ensures var accepted := b !in old(rows) || old(rows)[b].revision <= state.revision;
              changes == (if accepted then 1 else 0) && rows == if accepted then old(rows)[b := state] else old(rows)
    {
      if b in rows && rows[b].revision > state.revision { return 0; }
      rows := rows[b := state];
      return 1;
    }

    /** The field upsert: an existing field is replaced unless it is ahead. */
    method UpsertField(k: FieldKey, state: FieldState) returns (changes: nat)
      modifies this`fields
      ensures var accepted := k !in old(fields) || old(fields)[k].revision <= state.revision;
              changes == (if accepted then 1 else 0) && fields == if accepted then old(fields)[k := state] else old(fields)
    {
      if k in fields && fields[k].revision > state.revision { return 0; }
      fields := fields[k := state];
      return 1;
    }

    /** Writes the fields of a confirmation; over fields behind their rows no upsert is refused. */
    method WriteFields(b: Binding, entries: seq<(string, string)>, revision: nat) returns (ok: bool)
      requires FieldsBehindRows(Contents()) && b in rows && rows[b].revision == revision
      modifies this`fields
      ensures ok && FieldsWritten(old(fields), fields, b, entries, revision)
      ensures FieldsBehindRows(Contents())
    {
      hide FieldsWritten, FieldsBehindRows;
      assert entries[..0] == [];
      NothingWritten(fields, b, revision);
      for i := 0 to |entries|
        invariant FieldsBehindRows(Contents())
        invariant FieldsWritten(old(fields), fields, b, entries[..i], revision)
      {
        var (name, hash) := entries[i];
        assert entries[..i + 1] == entries[..i] + [entries[i]];
        FieldWritten(old(fields), Contents(), b, entries[..i], revision, name, hash);
        var changes := UpsertField(FieldKey(b, name), FieldState(hash, revision, hash));
        if changes != 1 { return false; }
      }
      assert entries[..|entries|] == entries;
      return true;
    }

    /** Reads the durable revision where a rule needs it, writes the row, then every field at that revision. */
    method WriteConfirmation(c: Confirmation) returns (outcome: Outcome)
      requires FieldsBehindRows(Contents())
      modifies this
      ensures Processed(old(Contents()), c, Contents(), outcome)
      ensures FieldsBehindRows(Contents())
    {
      if !IsValid(c) { return Invalid; }
      var revision := c.visibleRevision;
      if (c.deleteRetention || c.allowCreateRebaseline) && c.binding in rows {
        var confirmed := rows[c.binding].revision;
        if c.deleteRetention {
          if confirmed > c.visibleRevision {
            revision := confirmed;
          }
        } else if confirmed >= c.visibleRevision {
          revision := confirmed + 1;
        }
      }
      var changes := UpsertRow(c.binding, RowState(c.visibleHash, revision, c.entityRevision, c.visibleHash));
      if changes != 1 { return Regression; }
      var ok := WriteFields(c.binding, c.fieldHashes, revision);
      return if ok then Written else Regression;
    }
  }

  // ---- Sequences of confirmations ----

  /** The mirror before and after each of a sequence of confirmations, accepted or not. */
  ghost predicate History(states: seq<Mirror>, cs: seq<Confirmation>, outcomes: seq<Outcome>) {
    && |states| == |cs| + 1 && |outcomes| == |cs|
    && forall i :: 0 <= i < |cs| ==> Processed(states[i], cs[i], states[i + 1], outcomes[i])
  }

  /** The revision of `b` did not go down, and its row did not go away. */
  predicate NotBehind(a: Mirror, b: Mirror, binding: Binding) {
    binding in a.rows ==> binding in b.rows && a.rows[binding].revision <= b.rows[binding].revision
  }

  lemma ProcessedKeeps(m: Mirror, c: Confirmation, next: Mirror, outcome: Outcome, b: Binding)
    requires FieldsBehindRows(m) && Processed(m, c, next, outcome)
    ensures FieldsBehindRows(next) && NotBehind(m, next, b)
  {
  }

  /**
   Over every sequence of confirmations the durable revision of a binding never goes down, and no field gets
   ahead of its row.
   */
  lemma {:induction false} RevisionNeverFalls(states: seq<Mirror>, cs: seq<Confirmation>, outcomes: seq<Outcome>,
                                              b: Binding, i: nat, j: nat)
    requires History(states, cs, outcomes) && FieldsBehindRows(states[0]) && i <= j < |states|
    ensures FieldsBehindRows(states[i]) && FieldsBehindRows(states[j]) && NotBehind(states[i], states[j], b)
    decreases j
  {
    if j > 0 {
      RevisionNeverFalls(states, cs, outcomes, b, if i < j then i else j - 1, j - 1);
      ProcessedKeeps(states[j - 1], cs[j - 1], states[j], outcomes[j - 1], b);
    }
  }

  /**
   The two exceptions. A delete is never rejected and keeps the higher revision; a create rebase is never
   rejected and leaves a higher one; an ordinary confirmation is rejected exactly when it is behind.
   */
  lemma ExceptionRules(m: Mirror, c: Confirmation, next: Mirror, outcome: Outcome)
    requires IsValid(c) && Processed(m, c, next, outcome)
    ensures c.deleteRetention || c.allowCreateRebaseline ==> outcome == Written
    ensures !c.deleteRetention && !c.allowCreateRebaseline ==>
              (outcome == Regression <==> c.binding in m.rows && c.visibleRevision < m.rows[c.binding].revision)
    ensures c.deleteRetention && c.binding in m.rows ==>
              next.rows[c.binding].revision == Greater(m.rows[c.binding].revision, c.visibleRevision)
    ensures !c.deleteRetention && c.allowCreateRebaseline && c.binding in m.rows ==>
              next.rows[c.binding].revision == Greater(m.rows[c.binding].revision + 1, c.visibleRevision)
    ensures outcome == Written && (c.binding !in m.rows || (!c.deleteRetention && !c.allowCreateRebaseline)) ==>
              next.rows[c.binding].revision == c.visibleRevision
    ensures outcome == Written ==> next.rows[c.binding].hash == c.visibleHash
  {
  }

  function Greater(a: int, b: int): int {
    if a >= b then a else b
  }

  /** Exactly what is refused as invalid, and what a written row and its fields hold. */
  lemma WrittenExactly(m: Mirror, c: Confirmation, next: Mirror, outcome: Outcome, name: string)
    requires Processed(m, c, next, outcome)
    ensures outcome == Invalid <==>
              || c.binding.physicalSheetId == "" || c.binding.projection == "" || c.binding.rowBindingId == ""
              || c.visibleHash == "" || c.visibleRevision < 1 || exists e :: e in c.fieldHashes && (e.0 == "" || e.1 == "")
    ensures outcome != Written ==> next == m
    ensures outcome == Written ==>
              && c.binding in next.rows && next.rows.Keys == m.rows.Keys + {c.binding}
              && next.rows[c.binding].hash == next.rows[c.binding].observedHash == c.visibleHash
              && next.rows[c.binding].entityRevision == c.entityRevision
    ensures outcome == Written && HashOf(c.fieldHashes, name).Some? ==>
              var hash := HashOf(c.fieldHashes, name).value;
              && FieldKey(c.binding, name) in next.fields
              && next.fields[FieldKey(c.binding, name)] == FieldState(hash, next.rows[c.binding].revision, hash)
  {
  }

  /** The entries name the field exactly when it has a hash, which is that of the last such entry. */
  lemma {:induction false} HashOfLast(entries: seq<(string, string)>, name: string)
    ensures match HashOf(entries, name)
            case None => forall i :: 0 <= i < |entries| ==> entries[i].0 != name
            case Some(hash) => exists i :: 0 <= i < |entries| && entries[i] == (name, hash) && forall j :: i < j < |entries| ==> entries[j].0 != name
  {
    if entries != [] {
      var n := |entries| - 1;
      HashOfLast(entries[..n], name);
      if entries[n].0 == name {
        assert entries[n] == (name, entries[n].1);
      } else if HashOf(entries, name).Some? {
        var hash := HashOf(entries, name).value;
        var i :| 0 <= i < n && entries[..n][i] == (name, hash) && forall j :: i < j < n ==> entries[..n][j].0 != name;
        assert entries[i] == (name, hash);
      }
    }
  }

  /** Another binding's row and fields are not touched. */
  lemma OthersUntouched(m: Mirror, c: Confirmation, next: Mirror, outcome: Outcome, k: FieldKey)
    requires Processed(m, c, next, outcome) && k.binding != c.binding
    ensures RevisionOf(next, k.binding) == RevisionOf(m, k.binding)
    ensures (k in next.fields <==> k in m.fields) && (k in m.fields ==> next.fields[k] == m.fields[k])
  {
  }
}
