/**
 * The offline estimate of YandexProvider::updateLocationFromCells: which cells
 * resolve, the weighted samples, the accuracy heuristic, and the rule that
 * keeps a recent, more accurate fix. A cell's location is the dataset's answer
 * for its key (Shards.Lookup).
 */
module Estimation {
  import opened Basics
  import opened CellData
  import opened Shards

  /** 2500 m: the best accuracy a cell-based estimate ever claims. */
  const MinimumCalculatedAccuracy: int := 2500
  /** 120 s: how long a more accurate fix may supersede a new estimate. */
  const FallbackInterval: int := 120000

  /** Horizontal accuracy in metres; Unset is the accuracy of an empty fix. */
  datatype Accuracy = Unset | Horizontal(metres: real)

  /** One resolved cell's contribution to the weighted average. */
  datatype Sample = Sample(coords: Coords, signalStrength: uint32)

  /**
   * Where a fix places the device. A triangulated position is the average of
   * the samples' coordinates weighted by signalStrength / totalStrength; the
   * floating-point evaluation of that average is not part of the model.
   */
  datatype Position =
    | Unknown
    | Reported(coords: Coords)
    | Triangulated(samples: seq<Sample>, totalStrength: nat)

  /** A position fix; timestamp 0 (milliseconds since the epoch) means "no fix". */
  datatype Fix = Fix(timestamp: int, position: Position, accuracy: Accuracy)

  /** The default-constructed Location. */
  const NoFix := Fix(0, Unknown, Unset)

  /** The resolved keys among the first n cells (cellLocations), each with its dataset location. */
  function Resolved(cells: seq<CellPositioningData>, dataset: seq<ShardFile>, n: nat): map<UniqueCellId, Coords>
    requires n <= |cells|
    decreases n
  {
    if n == 0 then map[]
    else
      var prev := Resolved(cells, dataset, n - 1);
      match Lookup(dataset, cells[n - 1].id)
      case None => prev
      case Some(xy) => prev[cells[n - 1].id := xy]
  }

  /** Sum of the signal strengths of the resolved cells among the first n (totalSignalStrength). */
  function TotalStrength(cells: seq<CellPositioningData>, dataset: seq<ShardFile>, n: nat): nat
    requires n <= |cells|
    decreases n
  {
    if n == 0 then 0
    else
      TotalStrength(cells, dataset, n - 1)
        + (if Lookup(dataset, cells[n - 1].id).Some? then cells[n - 1].signalStrength else 0)
  }

  /** The samples of the resolved cells among the first n, in the order of the cell list. */
  function Samples(cells: seq<CellPositioningData>, dataset: seq<ShardFile>, n: nat): seq<Sample>
    requires n <= |cells|
    decreases n
  {
    if n == 0 then []
    else
      var prev := Samples(cells, dataset, n - 1);
      match Lookup(dataset, cells[n - 1].id)
      case None => prev
      case Some(xy) => prev + [Sample(xy, cells[n - 1].signalStrength)]
  }

  function SumOfStrengths(samples: seq<Sample>): nat
    decreases |samples|
  {
    if samples == [] then 0
    else SumOfStrengths(samples[..|samples| - 1]) + samples[|samples| - 1].signalStrength
  }

  /**
   * A key is resolved exactly when it is one of the cells' keys and the dataset
   * holds it, and then it maps to the dataset's location.
   */
  lemma {:induction false} ResolvedIsLocated(cells: seq<CellPositioningData>, dataset: seq<ShardFile>, n: nat)
    requires n <= |cells|
    ensures forall id :: id in Resolved(cells, dataset, n) <==> id in IdsBefore(cells, n) && Lookup(dataset, id).Some?
    ensures forall id :: id in Resolved(cells, dataset, n) ==> Lookup(dataset, id) == Some(Resolved(cells, dataset, n)[id])
    decreases n
  {
    if n > 0 {
      ResolvedIsLocated(cells, dataset, n - 1);
      assert IdsBefore(cells, n) == IdsBefore(cells, n - 1) + {cells[n - 1].id};
    }
  }

  /** The samples' strengths add up to the total, so the weights sum to one. */
  lemma {:induction false} TotalIsSumOfSamples(cells: seq<CellPositioningData>, dataset: seq<ShardFile>, n: nat)
    requires n <= |cells|
    ensures TotalStrength(cells, dataset, n) == SumOfStrengths(Samples(cells, dataset, n))
    decreases n
  {
    if n > 0 {
      TotalIsSumOfSamples(cells, dataset, n - 1);
      var s := Samples(cells, dataset, n - 1);
      var c := cells[n - 1];
      if Lookup(dataset, c.id).Some? {
        var t := s + [Sample(Lookup(dataset, c.id).value, c.signalStrength)];
        assert t[..|t| - 1] == s;
      }
    }
  }

  /**
   * For a list without repeated keys (what seenCellIds produces) there is one
   * sample per resolved cell, so the accuracy counts exactly the averaged cells.
   */
  lemma {:induction false} SampleCount(cells: seq<CellPositioningData>, dataset: seq<ShardFile>, n: nat)
    requires n <= |cells|
    requires DistinctIds(cells)
    ensures |Samples(cells, dataset, n)| == |Resolved(cells, dataset, n)|
    decreases n
  {
    if n > 0 {
      SampleCount(cells, dataset, n - 1);
      ResolvedIsLocated(cells, dataset, n - 1);
      IdsBeforeMember(cells, n - 1, cells[n - 1].id);
    }
  }

  /**
   * The sample loop of YandexProvider::updateLocationFromCells: one sample per
   * cell whose key was resolved, in the order of the cell list.
   */
  method CollectSamples(cells: seq<CellPositioningData>, dataset: seq<ShardFile>, cellLocations: map<UniqueCellId, Coords>)
    returns (samples: seq<Sample>)
    requires cellLocations == Resolved(cells, dataset, |cells|)
    ensures samples == Samples(cells, dataset, |cells|)
  {
    ResolvedIsLocated(cells, dataset, |cells|);
    samples := [];
    var j := 0;
    while j < |cells|
      invariant 0 <= j <= |cells|
      invariant samples == Samples(cells, dataset, j)
    {
      var cell := cells[j];
      IdsBeforeMember(cells, |cells|, cell.id);
      if cell.id in cellLocations {
        samples := samples + [Sample(cellLocations[cell.id], cell.signalStrength)];
      }
      j := j + 1;
    }
  }

  /**
   * Accuracy claimed for an estimate from n resolved cells:
   * 10000 m less 1000 m per cell, never better than 2500 m.
   */
  function EstimatedAccuracy(n: nat): (a: int)
    ensures MinimumCalculatedAccuracy <= a <= 10000
    ensures n >= 1 ==> a <= 9000
    ensures n <= 7 ==> a == 10000 - 1000 * n
    ensures n >= 8 ==> a == MinimumCalculatedAccuracy
  {
    Max(MinimumCalculatedAccuracy, 10000 - 1000 * n)
  }

  /** More cells never make the claimed accuracy worse. */
  lemma AccuracyMonotone(m: nat, n: nat)
    requires m <= n
    ensures EstimatedAccuracy(n) <= EstimatedAccuracy(m)
  {
  }

  /**
   * The offline candidate fix: none when no cell resolves, otherwise stamped
   * now, triangulated from the samples, with the heuristic accuracy.
   */
  function Estimate(cells: seq<CellPositioningData>, dataset: seq<ShardFile>, now: int): Option<Fix> {
    var resolved := Resolved(cells, dataset, |cells|);
    if |resolved| == 0 then None
    else
      Some(Fix(now,
               Triangulated(Samples(cells, dataset, |cells|), TotalStrength(cells, dataset, |cells|)),
               Horizontal(EstimatedAccuracy(|resolved|) as real)))
  }

  /** No candidate exactly when no observed cell is in the dataset. */
  lemma EstimateAbsentIffNothingResolves(cells: seq<CellPositioningData>, dataset: seq<ShardFile>, now: int)
    ensures Estimate(cells, dataset, now).None? <==>
      forall i :: 0 <= i < |cells| ==> Lookup(dataset, cells[i].id).None?
  {
    ResolvedIsLocated(cells, dataset, |cells|);
    forall i | 0 <= i < |cells| ensures cells[i].id in IdsBefore(cells, |cells|) {
      IdsBeforeMember(cells, |cells|, cells[i].id);
    }
    var resolved := Resolved(cells, dataset, |cells|);
    if |resolved| > 0 {
      var id :| id in resolved;
      IdsBeforeMember(cells, |cells|, id);
    }
  }

  /** A candidate always claims between 2500 m and 9000 m. */
  lemma EstimateAccuracyRange(cells: seq<CellPositioningData>, dataset: seq<ShardFile>, now: int)
    requires Estimate(cells, dataset, now).Some?
    ensures Estimate(cells, dataset, now).value.accuracy.Horizontal?
    ensures 2500.0 <= Estimate(cells, dataset, now).value.accuracy.metres <= 9000.0
    ensures Estimate(cells, dataset, now).value.timestamp == now
  {
  }

  /** One resolved cell gives its own location as the only sample, at 9000 m. */
  lemma {:induction false} EstimateOneCell(c: CellPositioningData, dataset: seq<ShardFile>, now: int)
    requires Lookup(dataset, c.id).Some?
    ensures Estimate([c], dataset, now) ==
      Some(Fix(now, Triangulated([Sample(Lookup(dataset, c.id).value, c.signalStrength)], c.signalStrength),
               Horizontal(9000.0)))
  {
    assert Resolved([c], dataset, 0) == map[];
    assert Samples([c], dataset, 0) == [];
    assert TotalStrength([c], dataset, 0) == 0;
    var r := Resolved([c], dataset, 1);
    assert r == map[c.id := Lookup(dataset, c.id).value];
    assert Samples([c], dataset, 1) == [Sample(Lookup(dataset, c.id).value, c.signalStrength)];
    assert TotalStrength([c], dataset, 1) == c.signalStrength;
    assert |r| == 1;
    assert EstimatedAccuracy(1) == 9000;
  }

  /** Accuracy comparison; an unset accuracy (NaN) compares false. */
  predicate MoreAccurate(a: Accuracy, b: Accuracy) {
    a.Horizontal? && b.Horizontal? && a.metres < b.metres
  }

  /**
   * The fix to publish instead of a candidate: the current fix is kept when it
   * exists, is younger than 120 s and is strictly more accurate.
   */
  function Preferred(current: Fix, candidate: Fix, now: int): (f: Fix)
    ensures f == current || f == candidate
    ensures current.timestamp == 0 || now - current.timestamp >= FallbackInterval ==> f == candidate
    ensures !MoreAccurate(current.accuracy, candidate.accuracy) ==> f == candidate
    ensures f != candidate ==> MoreAccurate(f.accuracy, candidate.accuracy) && now - f.timestamp < FallbackInterval
    ensures (current.timestamp != 0 && now - current.timestamp < FallbackInterval
             && MoreAccurate(current.accuracy, candidate.accuracy)) ==> f == current
  {
    if current.timestamp != 0
      && now - current.timestamp < FallbackInterval
      && MoreAccurate(current.accuracy, candidate.accuracy)
    then current
    else candidate
  }
}
