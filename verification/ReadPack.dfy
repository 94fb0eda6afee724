/** Greedy packing of planned bands into requests, and its optimality. */
module ReadPack {
  import opened ReadPlan

  /** Summed byte estimate of a group of bands. */
  function GroupBytes(group: seq<BandRange>, evidence: BandEvidence, ratio: real): real {
    if group == [] then 0.0
    else GroupBytes(group[..|group| - 1], evidence, ratio) + EstimatedRangeBytes(group[|group| - 1], evidence, ratio)
  }

  /** `item` can join the non-empty open request `current`. */
  predicate Fits(current: seq<BandRange>, item: BandRange, evidence: BandEvidence, ratio: real) {
    |current| + 1 <= MAX_READ_RANGES_PER_REQUEST &&
    GroupBytes(current, evidence, ratio) + EstimatedRangeBytes(item, evidence, ratio) <= READ_HARD_MAX_BYTES as real
  }

  /** The requests packed from the open request `current` and the items still to come. */
  function PackFrom(current: seq<BandRange>, rest: seq<BandRange>, evidence: BandEvidence, ratio: real): seq<seq<BandRange>>
    decreases rest
  {
    if rest == [] then (if current == [] then [] else [current])
    else if current == [] || Fits(current, rest[0], evidence, ratio) then
      PackFrom(current + [rest[0]], rest[1..], evidence, ratio)
    else [current] + PackFrom([rest[0]], rest[1..], evidence, ratio)
  }

  function Flatten(groups: seq<seq<BandRange>>): seq<BandRange> {
    if groups == [] then [] else groups[0] + Flatten(groups[1..])
  }

  /** A request the packer may send: not empty, at most 40 ranges, and one item or within the byte ceiling. */
  predicate Feasible(group: seq<BandRange>, evidence: BandEvidence, ratio: real) {
    && group != []
    && |group| <= MAX_READ_RANGES_PER_REQUEST
    && (|group| == 1 || GroupBytes(group, evidence, ratio) <= READ_HARD_MAX_BYTES as real)
  }

  predicate AllFeasible(groups: seq<seq<BandRange>>, evidence: BandEvidence, ratio: real) {
    forall i :: 0 <= i < |groups| ==> Feasible(groups[i], evidence, ratio)
  }

  /** Packing keeps every item once and in order. */
  lemma {:induction false} PackKeepsItems(current: seq<BandRange>, rest: seq<BandRange>, evidence: BandEvidence, ratio: real)
    ensures Flatten(PackFrom(current, rest, evidence, ratio)) == current + rest
    decreases rest
  {
    if rest == [] {
      assert Flatten([current]) == current + Flatten([]);
    } else if current == [] || Fits(current, rest[0], evidence, ratio) {
      PackKeepsItems(current + [rest[0]], rest[1..], evidence, ratio);
      assert current + [rest[0]] + rest[1..] == current + rest;
    } else {
      PackKeepsItems([rest[0]], rest[1..], evidence, ratio);
      var more := PackFrom([rest[0]], rest[1..], evidence, ratio);
      assert ([current] + more)[1..] == more;
      assert [rest[0]] + rest[1..] == rest;
    }
  }

  /** Every packed request is feasible. */
  lemma {:induction false} PackFeasible(current: seq<BandRange>, rest: seq<BandRange>, evidence: BandEvidence, ratio: real)
    requires current == [] || Feasible(current, evidence, ratio)
    ensures AllFeasible(PackFrom(current, rest, evidence, ratio), evidence, ratio)
    decreases rest
  {
    if rest != [] {
      if current == [] || Fits(current, rest[0], evidence, ratio) {
        var grown := current + [rest[0]];
        assert grown[..|grown| - 1] == current;
        PackFeasible(grown, rest[1..], evidence, ratio);
      } else {
        PackFeasible([rest[0]], rest[1..], evidence, ratio);
      }
    }
  }

  /** One pass of the loop: close the open request when the item does not fit, then add the item. */
  lemma PackStep(requests: seq<seq<BandRange>>, current: seq<BandRange>, rest: seq<BandRange>, evidence: BandEvidence, ratio: real)
    requires rest != []
    ensures current == [] || Fits(current, rest[0], evidence, ratio) ==>
              PackFrom(current, rest, evidence, ratio) == PackFrom(current + [rest[0]], rest[1..], evidence, ratio)
    ensures current != [] && !Fits(current, rest[0], evidence, ratio) ==>
              requests + PackFrom(current, rest, evidence, ratio)
              == (requests + [current]) + PackFrom([] + [rest[0]], rest[1..], evidence, ratio)
  {
    assert [] + [rest[0]] == [rest[0]];
  }

  method PackReadRequests(items: seq<BandRange>, evidence: BandEvidence, calibration: ReadCalibration)
      returns (requests: seq<seq<BandRange>>)
    ensures requests == PackFrom([], items, evidence, calibration.RatioFor(evidence))
    ensures Flatten(requests) == items
    ensures AllFeasible(requests, evidence, calibration.RatioFor(evidence))
  {
    ghost var ratio := calibration.RatioFor(evidence);
    requests := [];
    var current: seq<BandRange> := [];
    var currentBytes := 0.0;
    for k := 0 to |items|
      invariant currentBytes == GroupBytes(current, evidence, ratio)
      invariant requests + PackFrom(current, items[k..], evidence, ratio) == PackFrom([], items, evidence, ratio)
    {
      var item := items[k];
      var bytes := EstimatedRangeBytes(item, evidence, calibration.RatioFor(evidence));
      PackStep(requests, current, items[k..], evidence, ratio);
      if |current| > 0 &&
         (|current| + 1 > MAX_READ_RANGES_PER_REQUEST || currentBytes + bytes > READ_HARD_MAX_BYTES as real) {
        requests := requests + [current];
        current := [];
        currentBytes := 0.0;
      }
      GroupBytesSnoc(current, item, evidence, ratio);
      current := current + [item];
      currentBytes := currentBytes + bytes;
    }
    if |current| > 0 {
      requests := requests + [current];
    }
    PackKeepsItems([], items, evidence, ratio);
    PackFeasible([], items, evidence, ratio);
  }

  lemma GroupBytesSnoc(group: seq<BandRange>, item: BandRange, evidence: BandEvidence, ratio: real)
    ensures GroupBytes(group + [item], evidence, ratio) == GroupBytes(group, evidence, ratio) + EstimatedRangeBytes(item, evidence, ratio)
  {
    assert (group + [item])[..|group|] == group;
  }

  /** No item has a negative estimate. */
  predicate NonNegative(items: seq<BandRange>) {
    forall i :: 0 <= i < |items| ==> items[i].cells >= 0
  }

  lemma EstimateNonNegative(item: BandRange, evidence: BandEvidence, ratio: real)
    requires ReachableRatio(ratio) && item.cells >= 0
    ensures EstimatedRangeBytes(item, evidence, ratio) >= 0.0
  {
    var bytes := item.cells as real * BytesPerCell(evidence) as real;
    assert bytes >= 0.0;
  }

  /** A contiguous part of a group costs no more than the group. */
  lemma {:induction false} PartCostsLess(before: seq<BandRange>, part: seq<BandRange>, after: seq<BandRange>,
                                         evidence: BandEvidence, ratio: real)
    requires ReachableRatio(ratio) && NonNegative(before + part + after)
    ensures GroupBytes(part, evidence, ratio) <= GroupBytes(before + part + after, evidence, ratio)
    decreases |before| + |part| + |after|
  {
    var whole := before + part + after;
    if whole != [] {
      var last := whole[|whole| - 1];
      EstimateNonNegative(last, evidence, ratio);
      if after != [] {
        assert whole[..|whole| - 1] == before + part + after[..|after| - 1];
        PartCostsLess(before, part, after[..|after| - 1], evidence, ratio);
      } else if part != [] {
        assert whole[..|whole| - 1] == before + part[..|part| - 1] + [];
        PartCostsLess(before, part[..|part| - 1], [], evidence, ratio);
      } else {
        assert whole[..|whole| - 1] == before[..|before| - 1] + [] + [];
        PartCostsLess(before[..|before| - 1], [], [], evidence, ratio);
      }
    }
  }

  /** If `current` and the next item lie inside one feasible group, the item fits. */
  lemma InsideFits(before: seq<BandRange>, current: seq<BandRange>, item: BandRange, after: seq<BandRange>,
                   evidence: BandEvidence, ratio: real)
    requires ReachableRatio(ratio) && current != []
    requires NonNegative(before + (current + [item]) + after)
    requires Feasible(before + (current + [item]) + after, evidence, ratio)
    ensures Fits(current, item, evidence, ratio)
  {
    PartCostsLess(before, current + [item], after, evidence, ratio);
    var grown := current + [item];
    assert grown[..|grown| - 1] == current;
  }

  lemma FlattenHead(groups: seq<seq<BandRange>>, items: seq<BandRange>)
    requires groups != [] && Flatten(groups) == items
    ensures |groups[0]| <= |items| && groups[0] == items[..|groups[0]|] && Flatten(groups[1..]) == items[|groups[0]|..]
  {
  }

  /**
   Greedy stays ahead: `groups` is any feasible order-preserving packing of some earlier items, the open
   request and the rest; the greedy packer needs no more requests than it.
   */
  lemma {:induction false} GreedyNeedsFewest(earlier: seq<BandRange>, current: seq<BandRange>, rest: seq<BandRange>,
                                             groups: seq<seq<BandRange>>, evidence: BandEvidence, ratio: real)
    requires ReachableRatio(ratio) && current != [] && NonNegative(earlier + current + rest)
    requires Flatten(groups) == earlier + current + rest && AllFeasible(groups, evidence, ratio)
    ensures |PackFrom(current, rest, evidence, ratio)| <= |groups|
    decreases |rest|, |groups|
  {
    var items := earlier + current + rest;
    if rest != [] {
      var item := rest[0];
      if Fits(current, item, evidence, ratio) {
        assert items == earlier + (current + [item]) + rest[1..];
        GreedyNeedsFewest(earlier, current + [item], rest[1..], groups, evidence, ratio);
      } else {
        FlattenHead(groups, items);
        var n := |groups[0]|;
        if n <= |earlier| {
          assert items[n..] == earlier[n..] + current + rest;
          GreedyNeedsFewest(earlier[n..], current, rest, groups[1..], evidence, ratio);
        } else if n <= |earlier| + |current| {
          var left := current[n - |earlier|..];
          assert items[n..] == left + [item] + rest[1..];
          GreedyNeedsFewest(left, [item], rest[1..], groups[1..], evidence, ratio);
        } else {
          var after := rest[1..n - |earlier| - |current|];
          assert groups[0] == earlier + (current + [item]) + after;
          InsideFits(earlier, current, item, after, evidence, ratio);
          assert false;
        }
      }
    }
  }

  /** No order-preserving feasible packing of the items uses fewer requests than the greedy one. */
  lemma PackOptimal(items: seq<BandRange>, groups: seq<seq<BandRange>>, evidence: BandEvidence, ratio: real)
    requires ReachableRatio(ratio) && NonNegative(items)
    requires Flatten(groups) == items && AllFeasible(groups, evidence, ratio)
    ensures |PackFrom([], items, evidence, ratio)| <= |groups|
    ensures Flatten(PackFrom([], items, evidence, ratio)) == items
    ensures AllFeasible(PackFrom([], items, evidence, ratio), evidence, ratio)
  {
    PackKeepsItems([], items, evidence, ratio);
    PackFeasible([], items, evidence, ratio);
    if items != [] {
      assert [] + [items[0]] == [items[0]];
      assert items == [] + [items[0]] + items[1..];
      GreedyNeedsFewest([], [items[0]], items[1..], groups, evidence, ratio);
    }
  }

  /** Two bands share a request up to forty ranges and five million estimated bytes, and not beyond. */
  lemma FitsAtTheLimits(a: BandRange, b: BandRange, many: seq<BandRange>)
    requires a.cells == 20000 && b.cells == 21666 && |many| == 40
    ensures Fits([a], b, ValuesOnly, 1.0) && !Fits([a], b.(cells := 21667), ValuesOnly, 1.0)
    ensures !Fits(many, b, ValuesOnly, 1.0)
    ensures GroupBytes(many[..39], ValuesOnly, 1.0) == 0.0 && b.cells == 21666 ==> Fits(many[..39], b, ValuesOnly, 1.0)
  {
    assert [a][..0] == [] && GroupBytes([a], ValuesOnly, 1.0) == GroupBytes([], ValuesOnly, 1.0) + EstimatedRangeBytes(a, ValuesOnly, 1.0);
  }
}
