/** The banded read executor, and the refinement of one open-ended read by a banded one. */
module ReadEngine {
  import opened Text
  import opened ReadPlan
  import opened ReadPack

  /** One fetched band: parsed sheets, cell lists per key, and the measured response bytes. */
  datatype Fetched<S, K(==), G> = Fetched(sheets: seq<S>, grids: map<K, seq<G>>, responseBytes: Option<nat>)

  /** Reassembled document; `sheets` keeps first-seen key order. */
  datatype Document<S, K(==), G> = Document(sheets: seq<(string, S)>, grids: map<K, seq<G>>, requests: nat, bytes: nat)

  function Addresses(request: seq<BandRange>): seq<Address> {
    seq(|request|, i requires 0 <= i < |request| => request[i].address)
  }

  function RequestCells(request: seq<BandRange>): int {
    if request == [] then 0 else RequestCells(request[..|request| - 1]) + request[|request| - 1].cells
  }

  /** Replaces the entry of `key` in place, or appends it. */
  function Upsert<S>(entries: seq<(string, S)>, key: string, sheet: S): seq<(string, S)> {
    if entries == [] then [(key, sheet)]
    else if entries[0].0 == key then [(key, sheet)] + entries[1..]
    else [entries[0]] + Upsert(entries[1..], key, sheet)
  }

  function UpsertAll<S>(entries: seq<(string, S)>, sheets: seq<S>, sheetKey: S -> string): seq<(string, S)> {
    if sheets == [] then entries
    else
      var last := sheets[|sheets| - 1];
      Upsert(UpsertAll(entries, sheets[..|sheets| - 1], sheetKey), sheetKey(last), last)
  }

  /** The cell list of a key; a key never seen has none. */
  function At<K, G>(grids: map<K, seq<G>>, key: K): seq<G> {
    if key in grids then grids[key] else []
  }

  /** Appends each fetched list behind the list its key already has. */
  function Merge<K, G>(grids: map<K, seq<G>>, fetched: map<K, seq<G>>): (merged: map<K, seq<G>>)
    ensures merged.Keys == grids.Keys + fetched.Keys
    ensures forall k :: k in merged ==> merged[k] == At(grids, k) + At(fetched, k)
  {
    map k | k in grids.Keys + fetched.Keys :: At(grids, k) + At(fetched, k)
  }

  method MergeInto<K, G>(grids: map<K, seq<G>>, fetched: map<K, seq<G>>) returns (merged: map<K, seq<G>>)
    ensures merged == Merge(grids, fetched)
  {
    merged := grids;
    var left := fetched.Keys;
    while left != {}
      invariant left <= fetched.Keys
      invariant merged.Keys == grids.Keys + (fetched.Keys - left)
      invariant forall k :: k in merged ==> merged[k] == At(grids, k) + if k in left then [] else At(fetched, k)
      decreases left
    {
      var key :| key in left;
      var existing := At(merged, key);
      merged := merged[key := existing + fetched[key]];
      left := left - {key};
    }
  }

  /** The document after executing the requests in order; empty requests are skipped. */
  function Executed<S, K(==), G>(fetch: seq<Address> -> Fetched<S, K, G>, sheetKey: S -> string,
                             requests: seq<seq<BandRange>>): Document<S, K, G>
  {
    if requests == [] then Document([], map[], 0, 0)
    else
      var before := Executed(fetch, sheetKey, requests[..|requests| - 1]);
      var request := requests[|requests| - 1];
      if request == [] then before
      else
        var f := fetch(Addresses(request));
        Document(UpsertAll(before.sheets, f.sheets, sheetKey), Merge(before.grids, f.grids), before.requests + 1,
                 before.bytes + if f.responseBytes.Some? then f.responseBytes.value else 0)
  }

  /** The calibration samples of the requests: planned cells and measured bytes, where the bytes are known. */
  function SamplesOf<S, K(==), G>(fetch: seq<Address> -> Fetched<S, K, G>, requests: seq<seq<BandRange>>): seq<Sample> {
    if requests == [] then []
    else
      var before := SamplesOf(fetch, requests[..|requests| - 1]);
      var request := requests[|requests| - 1];
      if request == [] || fetch(Addresses(request)).responseBytes.None? then before
      else before + [(RequestCells(request), fetch(Addresses(request)).responseBytes.value)]
  }

  /** The requests that are sent: the ones that are not empty, in order. */
  function Sent(requests: seq<seq<BandRange>>): seq<seq<BandRange>> {
    if requests == [] then []
    else Sent(requests[..|requests| - 1]) + if requests[|requests| - 1] == [] then [] else [requests[|requests| - 1]]
  }

  /** Every request that is not empty is sent and counted once, and its measured bytes are added. */
  lemma {:induction false} CountsSent<S, K, G>(fetch: seq<Address> -> Fetched<S, K, G>, sheetKey: S -> string, requests: seq<seq<BandRange>>)
    ensures Executed(fetch, sheetKey, requests).requests == |Sent(requests)|
    ensures Executed(fetch, sheetKey, requests).bytes == SummedBytes(SamplesOf(fetch, requests))
  {
    if requests != [] {
      CountsSent(fetch, sheetKey, requests[..|requests| - 1]);
      hide UpsertAll, Merge;
      var before, after := SamplesOf(fetch, requests[..|requests| - 1]), SamplesOf(fetch, requests);
      assert after != before ==> after[..|after| - 1] == before;
    }
  }

  /** Every request sent is measured or none is: there is one sample per request sent, or no sample. */
  lemma {:induction false} SamplesSent<S, K, G>(fetch: seq<Address> -> Fetched<S, K, G>, requests: seq<seq<BandRange>>, measured: bool)
    requires forall r :: r in Sent(requests) ==> fetch(Addresses(r)).responseBytes.Some? == measured
    ensures |SamplesOf(fetch, requests)| == if measured then |Sent(requests)| else 0
  {
    if requests != [] {
      var last := requests[|requests| - 1];
      assert last != [] ==> Sent(requests)[|Sent(requests)| - 1] == last;
      SamplesSent(fetch, requests[..|requests| - 1], measured);
    }
  }

  function SummedBytes(samples: seq<Sample>): int {
    if samples == [] then 0 else SummedBytes(samples[..|samples| - 1]) + samples[|samples| - 1].1
  }

  /** One more request recalibrates once when its bytes were measured. */
  lemma SampleStep<S, K, G>(fetch: seq<Address> -> Fetched<S, K, G>, requests: seq<seq<BandRange>>, r: nat,
                            ratio: real, evidence: BandEvidence)
    requires r < |requests|
    ensures var before := AfterSamples(ratio, evidence, SamplesOf(fetch, requests[..r]));
            var bytes := fetch(Addresses(requests[r])).responseBytes;
            AfterSamples(ratio, evidence, SamplesOf(fetch, requests[..r + 1])) ==
            if requests[r] == [] || bytes.None? then before
            else Recalibrated(before, evidence, RequestCells(requests[r]), bytes.value)
  {
    hide Recalibrated, RequestCells;
    assert requests[..r + 1][..r] == requests[..r];
    var before := SamplesOf(fetch, requests[..r]);
    var after := SamplesOf(fetch, requests[..r + 1]);
    assert after != before ==> after[..|after| - 1] == before;
  }

  method Execute<S, K(==), G>(fetchBand: seq<Address> -> Fetched<S, K, G>, sheetKey: S -> string, evidence: BandEvidence,
                              calibration: ReadCalibration, requests: seq<seq<BandRange>>)
      returns (document: Document<S, K, G>)
    requires calibration.Valid()
    modifies calibration
    ensures calibration.Valid() && forall e :: e != evidence ==> calibration.RatioFor(e) == old(calibration.RatioFor(e))
    ensures calibration.RatioFor(evidence) == AfterSamples(old(calibration.RatioFor(evidence)), evidence, SamplesOf(fetchBand, requests))
    ensures document == Executed(fetchBand, sheetKey, requests)
  {
    hide Recalibrated, Merge;
    var sheetsByKey: seq<(string, S)> := [];
    var grids: map<K, seq<G>> := map[];
    var executed: nat, bytes: nat := 0, 0;
    for r := 0 to |requests|
      invariant calibration.Valid() && forall e :: e != evidence ==> calibration.RatioFor(e) == old(calibration.RatioFor(e))
      invariant calibration.RatioFor(evidence) ==
                AfterSamples(old(calibration.RatioFor(evidence)), evidence, SamplesOf(fetchBand, requests[..r]))
      invariant Document(sheetsByKey, grids, executed, bytes) == Executed(fetchBand, sheetKey, requests[..r])
    {
      var request := requests[r];
      assert requests[..r + 1][..r] == requests[..r];
      SampleStep(fetchBand, requests, r, old(calibration.RatioFor(evidence)), evidence);
      if request == [] {
        continue;
      }
      var cells := RequestCells(request);
      var fetched := fetchBand(Addresses(request));
      executed := executed + 1;
      ghost var seen := sheetsByKey;
      for s := 0 to |fetched.sheets|
        invariant sheetsByKey == UpsertAll(seen, fetched.sheets[..s], sheetKey)
      {
        assert fetched.sheets[..s + 1][..s] == fetched.sheets[..s];
        sheetsByKey := Upsert(sheetsByKey, sheetKey(fetched.sheets[s]), fetched.sheets[s]);
      }
      assert fetched.sheets[..|fetched.sheets|] == fetched.sheets;
      grids := MergeInto(grids, fetched.grids);
      if fetched.responseBytes.Some? {
        bytes := bytes + fetched.responseBytes.value;
        calibration.Observe(evidence, cells, fetched.responseBytes.value);
      }
    }
    assert requests[..|requests|] == requests;
    document := Document(sheetsByKey, grids, executed, bytes);
  }

  // ---- Splitting a read into requests does not change the document ----

  /** The reply to two lists of ranges is the reply to the first followed by the reply to the second. */
  ghost predicate RangeWise<S(!new), K(!new), G(!new)>(fetch: seq<Address> -> Fetched<S, K, G>) {
    (forall key :: At(fetch([]).grids, key) == []) &&
    forall a, b, key :: RepliesFollow(fetch, a, b, key)
  }

  ghost predicate RepliesFollow<S, K, G>(fetch: seq<Address> -> Fetched<S, K, G>, a: seq<Address>, b: seq<Address>, key: K) {
    At(fetch(a + b).grids, key) == At(fetch(a).grids, key) + At(fetch(b).grids, key)
  }

  lemma {:induction false} FlattenSnoc(groups: seq<seq<BandRange>>, last: seq<BandRange>)
    ensures Flatten(groups + [last]) == Flatten(groups) + last
  {
    if groups == [] {
      assert groups + [last] == [last] && Flatten([last]) == last + Flatten([]);
    } else {
      assert (groups + [last])[1..] == groups[1..] + [last];
      FlattenSnoc(groups[1..], last);
    }
  }

  /** What one request adds to a key. */
  function Added<S, K, G>(fetch: seq<Address> -> Fetched<S, K, G>, request: seq<BandRange>, key: K): seq<G> {
    if request == [] then [] else At(fetch(Addresses(request)).grids, key)
  }

  /** What the requests add to a key, in order. */
  function AddedAll<S, K, G>(fetch: seq<Address> -> Fetched<S, K, G>, requests: seq<seq<BandRange>>, key: K): seq<G> {
    if requests == [] then []
    else AddedAll(fetch, requests[..|requests| - 1], key) + Added(fetch, requests[|requests| - 1], key)
  }

  lemma {:induction false} ExecutedAdds<S, K, G>(
      fetch: seq<Address> -> Fetched<S, K, G>, sheetKey: S -> string, requests: seq<seq<BandRange>>, key: K)
    ensures At(Executed(fetch, sheetKey, requests).grids, key) == AddedAll(fetch, requests, key)
  {
    if requests != [] {
      ExecutedAdds(fetch, sheetKey, requests[..|requests| - 1], key);
    }
  }

  lemma AddedFollows<S(!new), K(!new), G(!new)>(
      fetch: seq<Address> -> Fetched<S, K, G>, items: seq<BandRange>, request: seq<BandRange>, key: K)
    requires RangeWise(fetch)
    ensures At(fetch(Addresses(items + request)).grids, key) == At(fetch(Addresses(items)).grids, key) + Added(fetch, request, key)
  {
    assert Addresses(items + request) == Addresses(items) + Addresses(request);
    assert RepliesFollow(fetch, Addresses(items), Addresses(request), key);
    if request == [] {
      assert items + request == items;
    }
  }

  lemma {:induction false} AddedAllAtOnce<S(!new), K(!new), G(!new)>(
      fetch: seq<Address> -> Fetched<S, K, G>, requests: seq<seq<BandRange>>, key: K)
    requires RangeWise(fetch)
    ensures AddedAll(fetch, requests, key) == At(fetch(Addresses(Flatten(requests))).grids, key)
  {
    if requests == [] {
      assert Addresses(Flatten(requests)) == [];
    } else {
      var front, request := requests[..|requests| - 1], requests[|requests| - 1];
      AddedAllAtOnce(fetch, front, key);
      FlattenSnoc(front, request);
      assert front + [request] == requests;
      AddedFollows(fetch, Flatten(front), request, key);
    }
  }

  /** Any split of the ranges into requests reassembles, key by key, what one request for all of them returns. */
  lemma SplitInvariant<S(!new), K(!new), G(!new)>(
      fetch: seq<Address> -> Fetched<S, K, G>, sheetKey: S -> string, requests: seq<seq<BandRange>>, key: K)
    requires RangeWise(fetch)
    ensures At(Executed(fetch, sheetKey, requests).grids, key) == At(fetch(Addresses(Flatten(requests))).grids, key)
  {
    ExecutedAdds(fetch, sheetKey, requests, key);
    AddedAllAtOnce(fetch, requests, key);
  }

  /** The sheet a key resolves to. */
  function Lookup<S>(entries: seq<(string, S)>, key: string): Option<S> {
    if entries == [] then None
    else if entries[0].0 == key then Some(entries[0].1)
    else Lookup(entries[1..], key)
  }

  /** The last sheet of that key in a reply list. */
  function LastSeen<S>(sheets: seq<S>, sheetKey: S -> string, key: string): Option<S> {
    if sheets == [] then None
    else if sheetKey(sheets[|sheets| - 1]) == key then Some(sheets[|sheets| - 1])
    else LastSeen(sheets[..|sheets| - 1], sheetKey, key)
  }

  lemma {:induction false} UpsertLookup<S>(entries: seq<(string, S)>, key: string, sheet: S, wanted: string)
    ensures Lookup(Upsert(entries, key, sheet), wanted) == if wanted == key then Some(sheet) else Lookup(entries, wanted)
  {
    if entries != [] && entries[0].0 != key {
      UpsertLookup(entries[1..], key, sheet, wanted);
    }
  }

  function KeysOf<S>(entries: seq<(string, S)>): seq<string> {
    seq(|entries|, i requires 0 <= i < |entries| => entries[i].0)
  }

  /** A key keeps the place where it was first seen, and a new key comes last. */
  lemma {:induction false} FirstSeenOrder<S>(entries: seq<(string, S)>, key: string, sheet: S)
    ensures KeysOf(Upsert(entries, key, sheet)) == if key in KeysOf(entries) then KeysOf(entries) else KeysOf(entries) + [key]
  {
    if entries != [] {
      var rest := entries[1..];
      assert KeysOf(entries) == [entries[0].0] + KeysOf(rest);
      if entries[0].0 == key {
        assert KeysOf([(key, sheet)] + rest) == [key] + KeysOf(rest);
      } else {
        FirstSeenOrder(rest, key, sheet);
        assert KeysOf([entries[0]] + Upsert(rest, key, sheet)) == [entries[0].0] + KeysOf(Upsert(rest, key, sheet));
      }
    }
  }

  /** The last-seen entry of a key wins, over everything seen before. */
  lemma {:induction false} LastSeenWins<S>(entries: seq<(string, S)>, sheets: seq<S>, sheetKey: S -> string, key: string)
    ensures Lookup(UpsertAll(entries, sheets, sheetKey), key)
         == if LastSeen(sheets, sheetKey, key).Some? then LastSeen(sheets, sheetKey, key) else Lookup(entries, key)
  {
    if sheets != [] {
      var front, last := sheets[..|sheets| - 1], sheets[|sheets| - 1];
      LastSeenWins(entries, front, sheetKey, key);
      UpsertLookup(UpsertAll(entries, front, sheetKey), sheetKey(last), last, key);
    }
  }

  // ---- Reading an unchanged sheet ----

  /** The rows of each column span of each sheet prefix, from row 1 down. */
  type Snapshot<!T> = (string, string, string) -> seq<T>

  /** The numbered rows one requested range returns. */
  datatype GridData<T> = GridData(rows: seq<(int, T)>)

  function Numbered<T>(content: seq<T>): seq<(int, T)> {
    seq(|content|, i requires 0 <= i < |content| => (i + 1, content[i]))
  }

  function Clamp(n: int, length: nat): nat {
    if n < 0 then 0 else if n > length then length else n
  }

  /** Rows `first..last` of the content, as far as there are any. */
  function ReadRows<T>(content: seq<T>, first: int, last: int): seq<(int, T)> {
    var lo, hi := Clamp(first - 1, |content|), Clamp(last, |content|);
    if lo >= hi then [] else Numbered(content)[lo..hi]
  }

  /** The rows are exactly those of the content numbered from `first` to `last`, in order, each once. */
  ghost predicate RowsInOrder<T(!new)>(rows: seq<(int, T)>, content: seq<T>, first: int, last: int) {
    && (forall n, x :: (n, x) in rows <==> 1 <= n <= |content| && first <= n <= last && x == content[n - 1])
    && (forall i, j :: 0 <= i < j < |rows| ==> rows[i].0 < rows[j].0)
  }

  /** Reading a range gives exactly its rows. */
  lemma RowsRead<T(!new)>(content: seq<T>, first: int, last: int)
    ensures RowsInOrder(ReadRows(content, first, last), content, first, last)
    ensures last >= |content| ==> ReadRows(content, first, last) == ReadRows(content, first, |content|)
  {
    RowsAt(content, first, last);
    hide ReadRows;
    forall n: int, x: T
      ensures (n, x) in ReadRows(content, first, last) <==> 1 <= n <= |content| && first <= n <= last && x == content[n - 1]
    {
      RowRead(content, first, last, n, x);
    }
  }

  /** A row is read exactly when it lies in the range. */
  lemma RowRead<T>(content: seq<T>, first: int, last: int, n: int, x: T)
    ensures (n, x) in ReadRows(content, first, last) <==> 1 <= n <= |content| && first <= n <= last && x == content[n - 1]
  {
    RowsAt(content, first, last);
    hide ReadRows;
    var rows, lo := ReadRows(content, first, last), Clamp(first - 1, |content|);
    if (n, x) in rows {
      var i :| 0 <= i < |rows| && rows[i] == (n, x);
      assert n == lo + i + 1;
    }
    if 1 <= n <= |content| && first <= n <= last && x == content[n - 1] {
      assert rows[n - 1 - lo] == (n, x);
    }
  }

  /** The rows of a range by position. */
  lemma RowsAt<T>(content: seq<T>, first: int, last: int)
    ensures var lo, hi := Clamp(first - 1, |content|), Clamp(last, |content|);
            var rows := ReadRows(content, first, last);
            && |rows| == (if lo < hi then hi - lo else 0)
            && forall i :: 0 <= i < |rows| ==> rows[i] == (lo + i + 1, content[lo + i])
    ensures last >= |content| ==> ReadRows(content, first, last) == ReadRows(content, first, |content|)
  {
  }

  function ReadRange<T>(snapshot: Snapshot<T>, a: Address): seq<(int, T)> {
    ReadRows(snapshot(a.prefix, a.firstColumn, a.lastColumn), a.firstRow, a.lastRow)
  }

  /** The grids a reply holds for one sheet: one per requested range of that sheet, in request order. */
  function GridsFor<T>(snapshot: Snapshot<T>, addresses: seq<Address>, prefix: string): seq<GridData<T>> {
    if addresses == [] then []
    else
      var last := addresses[|addresses| - 1];
      GridsFor(snapshot, addresses[..|addresses| - 1], prefix) +
      if last.prefix == prefix then [GridData(ReadRange(snapshot, last))] else []
  }

  function SnapshotReply<T>(snapshot: Snapshot<T>, addresses: seq<Address>, responseBytes: Option<nat>)
      : Fetched<string, string, GridData<T>>
  {
    Fetched(seq(|addresses|, i requires 0 <= i < |addresses| => addresses[i].prefix),
            map a | a in addresses :: a.prefix := GridsFor(snapshot, addresses, a.prefix), responseBytes)
  }

  lemma {:induction false} GridsForAppend<T>(snapshot: Snapshot<T>, a: seq<Address>, b: seq<Address>, prefix: string)
    ensures GridsFor(snapshot, a + b, prefix) == GridsFor(snapshot, a, prefix) + GridsFor(snapshot, b, prefix)
  {
    if b == [] {
      assert a + b == a;
    } else {
      assert (a + b)[..|a + b| - 1] == a + b[..|b| - 1];
      GridsForAppend(snapshot, a, b[..|b| - 1], prefix);
    }
  }

  lemma {:induction false} ReplyAt<T>(snapshot: Snapshot<T>, addresses: seq<Address>, responseBytes: Option<nat>, prefix: string)
    ensures At(SnapshotReply(snapshot, addresses, responseBytes).grids, prefix) == GridsFor(snapshot, addresses, prefix)
  {
    if forall a :: a in addresses ==> a.prefix != prefix {
      NoGrids(snapshot, addresses, prefix);
    }
  }

  lemma {:induction false} NoGrids<T>(snapshot: Snapshot<T>, addresses: seq<Address>, prefix: string)
    requires forall a :: a in addresses ==> a.prefix != prefix
    ensures GridsFor(snapshot, addresses, prefix) == []
  {
    if addresses != [] {
      NoGrids(snapshot, addresses[..|addresses| - 1], prefix);
    }
  }

  /** Reading an unchanged snapshot is range-wise, whatever the measured bytes are. */
  lemma SnapshotRangeWise<T(!new)>(snapshot: Snapshot<T>, measured: seq<Address> -> Option<nat>)
    ensures RangeWise((addresses: seq<Address>) => SnapshotReply(snapshot, addresses, measured(addresses)))
  {
    var fetch := (addresses: seq<Address>) => SnapshotReply(snapshot, addresses, measured(addresses));
    forall key
      ensures At(fetch([]).grids, key) == []
    {
      ReplyAt(snapshot, [], measured([]), key);
    }
    forall a: seq<Address>, b, key
      ensures RepliesFollow(fetch, a, b, key)
    {
      ReplyAt(snapshot, a + b, measured(a + b), key);
      ReplyAt(snapshot, a, measured(a), key);
      ReplyAt(snapshot, b, measured(b), key);
      GridsForAppend(snapshot, a, b, key);
    }
  }

  function AllRows<T>(grids: seq<GridData<T>>): seq<(int, T)> {
    if grids == [] then [] else AllRows(grids[..|grids| - 1]) + grids[|grids| - 1].rows
  }

  /** The rows one range contributes to a sheet. */
  function RangeRows<T>(snapshot: Snapshot<T>, a: Address, prefix: string): seq<(int, T)> {
    if a.prefix == prefix then ReadRange(snapshot, a) else []
  }

  /** What a list of ranges returns, in request order, when each range returns `read`. */
  function RowsOf<R>(read: Address -> seq<R>, addresses: seq<Address>): seq<R> {
    if addresses == [] then []
    else RowsOf(read, addresses[..|addresses| - 1]) + read(addresses[|addresses| - 1])
  }

  lemma {:induction false} RowsOfAppend<R>(read: Address -> seq<R>, a: seq<Address>, b: seq<Address>)
    ensures RowsOf(read, a + b) == RowsOf(read, a) + RowsOf(read, b)
  {
    if b == [] {
      assert a + b == a;
    } else {
      assert (a + b)[..|a + b| - 1] == a + b[..|b| - 1];
      RowsOfAppend(read, a, b[..|b| - 1]);
    }
  }

  lemma RowsOfOne<R>(read: Address -> seq<R>, a: Address)
    ensures RowsOf(read, [a]) == read(a)
  {
    assert [a][..|[a]| - 1] == [];
    assert RowsOf(read, [a]) == [] + read(a);
  }

  /** The rows reassembled for one sheet are what its ranges return in request order. */
  lemma {:induction false} GridRows<T>(snapshot: Snapshot<T>, addresses: seq<Address>, prefix: string)
    ensures AllRows(GridsFor(snapshot, addresses, prefix)) == RowsOf((a: Address) => RangeRows(snapshot, a, prefix), addresses)
  {
    if addresses != [] {
      var front, last := addresses[..|addresses| - 1], addresses[|addresses| - 1];
      GridRows(snapshot, front, prefix);
      var before := GridsFor(snapshot, front, prefix);
      if last.prefix == prefix {
        assert (before + [GridData(ReadRange(snapshot, last))])[..|before|] == before;
      } else {
        assert before + [] == before;
      }
    }
  }

  lemma ReadRowsSplit<T>(content: seq<T>, first: int, mid: int, last: int)
    requires first - 1 <= mid && (mid <= last || |content| <= last)
    ensures ReadRows(content, first, mid) + ReadRows(content, mid + 1, last) == ReadRows(content, first, last)
  {
  }

  /** The one range a plan would read without bands: to a proven extent that reaches its first row, else to the open end. */
  function OpenRange(plan: RowBandPlan): Address {
    var last := if plan.exactLastRow.Some? && plan.exactLastRow.value >= plan.fromRow then plan.exactLastRow.value else plan.openEndRow;
    Address(plan.addressPrefix, plan.firstColumn, plan.fromRow, plan.lastColumn, last)
  }

  /** The bands of a plan at `rows` rows per band. */
  function PlannedBands(plan: RowBandPlan, rows: int): seq<BandRange>
    requires rows >= 1
  {
    if plan.Banded() then BandsFrom(plan, plan.fromRow, rows) else [OpenBand(plan)]
  }

  /** Without a proven extent, the column span of the sheet holds no content below its grid limit. */
  ghost predicate WithinGrid<T>(snapshot: Snapshot<T>, plan: RowBandPlan) {
    plan.exactLastRow.None? ==> |snapshot(plan.addressPrefix, plan.firstColumn, plan.lastColumn)| <= plan.openEndRow
  }

  /** Two adjacent ranges of the plan's span return what one range over both returns. */
  ghost predicate Seamless<R(!new)>(read: Address -> seq<R>, plan: RowBandPlan) {
    forall start: int, mid: int {:trigger plan.Range(start, mid)} ::
      start - 1 <= mid && (plan.exactLastRow.Some? ==> mid <= plan.EndRow()) ==>
        read(plan.Range(start, mid)) + read(plan.Range(mid + 1, plan.EndRow())) == read(plan.Range(start, plan.EndRow()))
  }

  lemma SnapshotSeamless<T(!new)>(snapshot: Snapshot<T>, plan: RowBandPlan, prefix: string)
    requires WithinGrid(snapshot, plan)
    ensures Seamless((a: Address) => RangeRows(snapshot, a, prefix), plan)
  {
    var content := snapshot(plan.addressPrefix, plan.firstColumn, plan.lastColumn);
    forall start: int, mid: int | start - 1 <= mid && (plan.exactLastRow.Some? ==> mid <= plan.EndRow())
      ensures RangeRows(snapshot, plan.Range(start, mid), prefix) + RangeRows(snapshot, plan.Range(mid + 1, plan.EndRow()), prefix)
           == RangeRows(snapshot, plan.Range(start, plan.EndRow()), prefix)
    {
      ReadRowsSplit(content, start, mid, plan.EndRow());
    }
  }

  /** The bands of a span read exactly the span, whatever the rows per band are. */
  lemma {:induction false} BandsReadSpan<R(!new)>(read: Address -> seq<R>, plan: RowBandPlan, start: int, rows: int)
    requires rows >= 1 && plan.Banded() && start <= plan.LastRow().value && Seamless(read, plan)
    ensures RowsOf(read, Addresses(BandsFrom(plan, start, rows))) == read(plan.Range(start, plan.EndRow()))
    decreases plan.LastRow().value - start
  {
    var items := BandsFrom(plan, start, rows);
    var head := items[0].address;
    RowsOfOne(read, head);
    if start + rows - 1 < plan.LastRow().value {
      var rest := Addresses(BandsFrom(plan, start + rows, rows));
      BandsReadSpan(read, plan, start + rows, rows);
      assert Addresses(items) == [head] + rest;
      RowsOfAppend(read, [head], rest);
      assert head == plan.Range(start, start + rows - 1);
    } else {
      assert Addresses(items) == [head];
    }
  }

  // ---- Several plans in one logical read ----

  /** One plan with its rows per band. */
  type Lane = (RowBandPlan, int)

  function AllBands(lanes: seq<Lane>): seq<BandRange>
    requires forall l :: l in lanes ==> l.1 >= 1
  {
    if lanes == [] then []
    else AllBands(lanes[..|lanes| - 1]) + PlannedBands(lanes[|lanes| - 1].0, lanes[|lanes| - 1].1)
  }

  /** What one open-ended read per plan returns, in plan order. */
  function OpenReads<R>(read: Address -> seq<R>, lanes: seq<Lane>): seq<R> {
    if lanes == [] then []
    else OpenReads(read, lanes[..|lanes| - 1]) + read(OpenRange(lanes[|lanes| - 1].0))
  }

  lemma LaneReads<R(!new)>(read: Address -> seq<R>, lane: Lane)
    requires lane.1 >= 1 && Seamless(read, lane.0)
    ensures RowsOf(read, Addresses(PlannedBands(lane.0, lane.1))) == read(OpenRange(lane.0))
  {
    if lane.0.Banded() {
      BandsReadSpan(read, lane.0, lane.0.fromRow, lane.1);
    } else {
      assert Addresses([OpenBand(lane.0)]) == [OpenBand(lane.0).address];
      RowsOfOne(read, OpenBand(lane.0).address);
    }
  }

  lemma {:induction false} BandsReadAll<R(!new)>(read: Address -> seq<R>, lanes: seq<Lane>)
    requires forall l :: l in lanes ==> l.1 >= 1 && Seamless(read, l.0)
    ensures RowsOf(read, Addresses(AllBands(lanes))) == OpenReads(read, lanes)
  {
    hide PlannedBands, OpenRange, Seamless;
    if lanes == [] {
      assert Addresses(AllBands(lanes)) == [];
    } else {
      var front, lane := AllBands(lanes[..|lanes| - 1]), lanes[|lanes| - 1];
      var bands := PlannedBands(lane.0, lane.1);
      BandsReadAll(read, lanes[..|lanes| - 1]);
      LaneReads(read, lane);
      assert Addresses(front + bands) == Addresses(front) + Addresses(bands);
      RowsOfAppend(read, Addresses(front), Addresses(bands));
    }
  }

  /**
   A banded read of an unchanged sheet returns, for every sheet, the same rows in the same order, each
   once, as one open-ended read per plan: for every bound, calibration, column span, number of plans and
   split of the bands into requests.
   */
  lemma BandedReadRefinesOpenRead<T(!new)>(
      snapshot: Snapshot<T>, measured: seq<Address> -> Option<nat>, lanes: seq<Lane>, requests: seq<seq<BandRange>>, prefix: string)
    requires forall l :: l in lanes ==> l.1 >= 1 && WithinGrid(snapshot, l.0)
    requires Flatten(requests) == AllBands(lanes)
    ensures var fetch := (addresses: seq<Address>) => SnapshotReply(snapshot, addresses, measured(addresses));
            AllRows(At(Executed(fetch, (s: string) => s, requests).grids, prefix))
            == OpenReads((a: Address) => RangeRows(snapshot, a, prefix), lanes)
  {
    var fetch := (addresses: seq<Address>) => SnapshotReply(snapshot, addresses, measured(addresses));
    var read := (a: Address) => RangeRows(snapshot, a, prefix);
    SnapshotRangeWise(snapshot, measured);
    SplitInvariant(fetch, (s: string) => s, requests, prefix);
    var all := Addresses(AllBands(lanes));
    ReplyAt(snapshot, all, measured(all), prefix);
    GridRows(snapshot, all, prefix);
    forall l | l in lanes
      ensures Seamless(read, l.0)
    {
      SnapshotSeamless(snapshot, l.0, prefix);
    }
    BandsReadAll(read, lanes);
  }

  /**
   The rows of a span: from its first row to a proven extent that reaches it; without a proven extent all there is;
   and the whole grid from there when the extent ends above the first row.
   */
  ghost predicate SpanRead<T(!new)>(rows: seq<(int, T)>, content: seq<T>, plan: RowBandPlan) {
    match plan.exactLastRow
    case None => RowsInOrder(rows, content, plan.fromRow, |content|)
    case Some(last) => RowsInOrder(rows, content, plan.fromRow, if last >= plan.fromRow then last else plan.openEndRow)
  }

  lemma OpenRangeRead<T(!new)>(snapshot: Snapshot<T>, plan: RowBandPlan)
    requires WithinGrid(snapshot, plan)
    ensures SpanRead(ReadRange(snapshot, OpenRange(plan)), snapshot(plan.addressPrefix, plan.firstColumn, plan.lastColumn), plan)
  {
    hide ReadRows, RowsInOrder;
    var content := snapshot(plan.addressPrefix, plan.firstColumn, plan.lastColumn);
    RowsRead(content, plan.fromRow, OpenRange(plan).lastRow);
    RowsRead(content, plan.fromRow, |content|);
  }

  /** Plan, pack and execute one span: the rows are those of the single open range. */
  method ReadSpan<T(!new)>(snapshot: Snapshot<T>, measured: seq<Address> -> Option<nat>, plan: RowBandPlan, calibration: ReadCalibration)
      returns (rows: seq<(int, T)>)
    requires calibration.Valid() && WithinGrid(snapshot, plan)
    modifies calibration
    ensures calibration.Valid()
    ensures rows == ReadRange(snapshot, OpenRange(plan))
    ensures SpanRead(rows, snapshot(plan.addressPrefix, plan.firstColumn, plan.lastColumn), plan)
  {
    hide SpanRead, ReadRows;
    ghost var perBand := RowsPerBand(plan.columnCount, plan.evidence, calibration.RatioFor(plan.evidence));
    var items := PlanRowBands(plan, calibration);
    var requests := PackReadRequests(items, plan.evidence, calibration);
    var fetch := (addresses: seq<Address>) => SnapshotReply(snapshot, addresses, measured(addresses));
    var document := Execute(fetch, (s: string) => s, plan.evidence, calibration, requests);
    rows := AllRows(At(document.grids, plan.addressPrefix));
    ghost var lanes := [(plan, perBand)];
    assert lanes[..0] == [] && AllBands(lanes) == [] + items && [] + items == items;
    BandedReadRefinesOpenRead(snapshot, measured, lanes, requests, plan.addressPrefix);
    ghost var read := (a: Address) => RangeRows(snapshot, a, plan.addressPrefix);
    assert OpenReads(read, lanes) == [] + read(OpenRange(plan));
    OpenRangeRead(snapshot, plan);
  }
}
