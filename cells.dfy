/**
 * Cell observations and their normalisation into dataset keys
 * (YandexProvider::seenCellIds).
 */
module CellData {
  import opened Basics

  /** Radio technology of a cell, as the cell observer reports it. */
  datatype Technology = UnknownTechnology | Gsm | Wcdma | Lte

  /**
   * One cell reported by the cell observer. A field the observer has no value
   * for holds InvalidValue.
   */
  datatype ObservedCell = ObservedCell(
    technology: Technology,
    mcc: int, mnc: int,
    lac: int, cid: int,
    tac: int, ci: int,
    signalStrength: int)

  /** The value the cell observer reports for an unknown field (INT_MAX). */
  const InvalidValue: int := 0x7fff_ffff

  /** Technology tag of a dataset key (MlsdbCellType). */
  datatype CellType = GsmCell | UmtsCell | LteCell

  /** Dataset key (MlsdbUniqueCellId): equal iff all five fields are equal. */
  datatype UniqueCellId = UniqueCellId(
    cellType: CellType, cellId: uint32, locationCode: uint32, mcc: uint16, mnc: uint16)

  /** A dataset coordinate pair; the model never computes with it. */
  datatype Coords = Coords(lat: real, lon: real)

  /** A usable observation: its key and its signal strength. */
  datatype CellPositioningData = CellPositioningData(id: UniqueCellId, signalStrength: uint32)

  /** LTE and GSM keep their technology; WCDMA and anything else become UMTS. */
  function CellTypeOf(t: Technology): (r: CellType)
    ensures r == LteCell <==> t == Lte
    ensures r == GsmCell <==> t == Gsm
    ensures r == UmtsCell <==> t != Lte && t != Gsm
  {
    if t == Lte then LteCell
    else if t == Gsm then GsmCell
    else if t == Wcdma then UmtsCell
    else UmtsCell
  }

  /** A cell identifier the observer actually knows. */
  predicate KnownCellId(v: int) {
    v != InvalidValue && v != 0
  }

  /**
   * The key of one observed cell: (lac, cid) when cid is known, otherwise
   * (tac, ci) when ci is known, and nothing when neither is known or the
   * 16-bit country code is zero.
   */
  function CellKey(c: ObservedCell): Option<UniqueCellId> {
    var mcc := ToUint16(c.mcc);
    var mnc := ToUint16(c.mnc);
    var cellType := CellTypeOf(c.technology);
    if KnownCellId(c.cid) && mcc != 0 then
      Some(UniqueCellId(cellType, ToUint32(c.cid), ToUint32(c.lac), mcc, mnc))
    else if KnownCellId(c.ci) && mcc != 0 then
      Some(UniqueCellId(cellType, ToUint32(c.ci), ToUint32(c.tac), mcc, mnc))
    else
      None
  }

  /**
   * The quint16 conversion wraps: an unknown country code (INT_MAX) becomes
   * 65535, not 0, so a cell with a known cid is still keyed.
   */
  lemma UnknownCountryCodeWraps(c: ObservedCell)
    requires c.mcc == InvalidValue && KnownCellId(c.cid)
    ensures CellKey(c).Some? && CellKey(c).value.mcc == 0xffff
  {
  }

  /** Every observation that has a key, in observer order, duplicates included. */
  function Usable(observed: seq<ObservedCell>): seq<CellPositioningData>
    decreases |observed|
  {
    if observed == [] then []
    else
      var c := observed[|observed| - 1];
      var prev := Usable(observed[..|observed| - 1]);
      match CellKey(c)
      case None => prev
      case Some(id) => prev + [CellPositioningData(id, ToUint32(c.signalStrength))]
  }

  /** The keys of the first n observations. */
  function IdsBefore(xs: seq<CellPositioningData>, n: nat): set<UniqueCellId>
    requires n <= |xs|
    decreases n
  {
    if n == 0 then {} else IdsBefore(xs, n - 1) + {xs[n - 1].id}
  }

  /** The keys of all observations. */
  function Ids(xs: seq<CellPositioningData>): set<UniqueCellId> {
    IdsBefore(xs, |xs|)
  }

  /** A key is among the first n exactly when one of the first n observations carries it. */
  lemma {:induction false} IdsBeforeMember(xs: seq<CellPositioningData>, n: nat, id: UniqueCellId)
    requires n <= |xs|
    ensures id in IdsBefore(xs, n) <==> exists i :: 0 <= i < n && xs[i].id == id
    decreases n
  {
    if n > 0 {
      IdsBeforeMember(xs, n - 1, id);
    }
  }

  /** The keys of the first n observations depend only on those observations. */
  lemma {:induction false} IdsBeforePrefix(xs: seq<CellPositioningData>, ys: seq<CellPositioningData>, n: nat)
    requires n <= |xs| && n <= |ys|
    requires forall i :: 0 <= i < n ==> xs[i] == ys[i]
    ensures IdsBefore(xs, n) == IdsBefore(ys, n)
    decreases n
  {
    if n > 0 {
      IdsBeforePrefix(xs, ys, n - 1);
    }
  }

  predicate DistinctIds(xs: seq<CellPositioningData>) {
    forall i, j :: 0 <= i < j < |xs| ==> xs[i].id != xs[j].id
  }

  /** No observation before position i has the same key as xs[i]. */
  predicate FirstWithId(xs: seq<CellPositioningData>, i: int)
    requires 0 <= i < |xs|
  {
    forall j :: 0 <= j < i ==> xs[j].id != xs[i].id
  }

  /** The observations whose key has not been seen earlier in the list. */
  function FirstOccurrences(xs: seq<CellPositioningData>): seq<CellPositioningData>
    decreases |xs|
  {
    if xs == [] then []
    else
      var prev := FirstOccurrences(xs[..|xs| - 1]);
      if xs[|xs| - 1].id in Ids(prev) then prev else prev + [xs[|xs| - 1]]
  }

  /** What seenCellIds returns for the given permission and observer report. */
  function SeenCells(cellDataAllowed: bool, observed: seq<ObservedCell>): seq<CellPositioningData> {
    if cellDataAllowed then FirstOccurrences(Usable(observed)) else []
  }

  /** The keys of all observations that have one. */
  function KeyedIds(observed: seq<ObservedCell>): set<UniqueCellId> {
    set c | c in observed && CellKey(c).Some? :: CellKey(c).value
  }

  lemma IdsAppend(xs: seq<CellPositioningData>, x: CellPositioningData)
    ensures Ids(xs + [x]) == Ids(xs) + {x.id}
  {
    var ys := xs + [x];
    IdsBeforePrefix(ys, xs, |xs|);
  }

  lemma {:induction false} UsableIds(observed: seq<ObservedCell>)
    ensures Ids(Usable(observed)) == KeyedIds(observed)
    decreases |observed|
  {
    if observed != [] {
      var prefix := observed[..|observed| - 1];
      var c := observed[|observed| - 1];
      UsableIds(prefix);
      assert observed == prefix + [c];
      assert KeyedIds(observed) == KeyedIds(prefix) + (if CellKey(c).Some? then {CellKey(c).value} else {});
      if CellKey(c).Some? {
        IdsAppend(Usable(prefix), CellPositioningData(CellKey(c).value, ToUint32(c.signalStrength)));
      }
    }
  }

  /** Keeping first occurrences loses no key. */
  lemma {:induction false} FirstOccurrencesIds(xs: seq<CellPositioningData>)
    ensures Ids(FirstOccurrences(xs)) == Ids(xs)
    decreases |xs|
  {
    if xs != [] {
      var prefix := xs[..|xs| - 1];
      var x := xs[|xs| - 1];
      FirstOccurrencesIds(prefix);
      assert xs == prefix + [x];
      IdsAppend(prefix, x);
      if x.id !in Ids(FirstOccurrences(prefix)) {
        IdsAppend(FirstOccurrences(prefix), x);
      }
    }
  }

  /** Keeping first occurrences leaves no two observations with the same key. */
  lemma {:induction false} FirstOccurrencesDistinct(xs: seq<CellPositioningData>)
    ensures DistinctIds(FirstOccurrences(xs))
    decreases |xs|
  {
    if xs != [] {
      var prefix := xs[..|xs| - 1];
      var x := xs[|xs| - 1];
      var prev := FirstOccurrences(prefix);
      FirstOccurrencesDistinct(prefix);
      if x.id !in Ids(prev) {
        var r := prev + [x];
        forall i, j | 0 <= i < j < |r| ensures r[i].id != r[j].id {
          if j == |prev| {
            assert r[i] == prev[i];
            IdsBeforeMember(prev, |prev|, x.id);
          }
        }
      }
    }
  }

  /** x occurs in xs at a position where no earlier observation has its key. */
  ghost predicate IsFirst(xs: seq<CellPositioningData>, x: CellPositioningData) {
    exists i :: 0 <= i < |xs| && xs[i] == x && FirstWithId(xs, i)
  }

  /**
   * Extending a list by y keeps every first occurrence, and y is one exactly
   * when its key is new.
   */
  lemma IsFirstExtend(xs: seq<CellPositioningData>, y: CellPositioningData)
    ensures forall x :: IsFirst(xs + [y], x) <==> IsFirst(xs, x) || (x == y && y.id !in Ids(xs))
  {
    var ys := xs + [y];
    IdsBeforeMember(xs, |xs|, y.id);
    forall x ensures IsFirst(ys, x) <==> IsFirst(xs, x) || (x == y && y.id !in Ids(xs)) {
      if IsFirst(xs, x) {
        var i :| 0 <= i < |xs| && xs[i] == x && FirstWithId(xs, i);
        assert ys[i] == x && FirstWithId(ys, i) by {
          forall j | 0 <= j < i ensures ys[j].id != ys[i].id {
            assert ys[j] == xs[j];
          }
        }
      }
      if x == y && y.id !in Ids(xs) {
        assert ys[|xs|] == x && FirstWithId(ys, |xs|) by {
          forall j | 0 <= j < |xs| ensures ys[j].id != ys[|xs|].id {
            assert ys[j] == xs[j];
          }
        }
      }
      if IsFirst(ys, x) {
        var i :| 0 <= i < |ys| && ys[i] == x && FirstWithId(ys, i);
        if i < |xs| {
          assert xs[i] == x && FirstWithId(xs, i) by {
            forall j | 0 <= j < i ensures xs[j].id != xs[i].id {
              assert ys[j] == xs[j];
            }
          }
        } else {
          forall j | 0 <= j < |xs| ensures xs[j].id != y.id {
            assert ys[j] == xs[j];
          }
        }
      }
    }
  }

  /**
   * An observation is kept exactly when it is the first one in the list with
   * its key.
   */
  lemma {:induction false} FirstOccurrencesKeepsFirst(xs: seq<CellPositioningData>)
    ensures forall x :: x in FirstOccurrences(xs) <==> IsFirst(xs, x)
    decreases |xs|
  {
    if xs != [] {
      var prefix := xs[..|xs| - 1];
      var last := xs[|xs| - 1];
      FirstOccurrencesKeepsFirst(prefix);
      FirstOccurrencesIds(prefix);
      assert xs == prefix + [last];
      IsFirstExtend(prefix, last);
    }
  }

  /** The usable observations grow by the next observation's entry, if it has a key. */
  lemma UsableStep(observed: seq<ObservedCell>, i: nat)
    requires i < |observed|
    ensures Usable(observed[..i + 1]) ==
      match CellKey(observed[i])
      case None => Usable(observed[..i])
      case Some(id) => Usable(observed[..i]) + [CellPositioningData(id, ToUint32(observed[i].signalStrength))]
  {
    assert observed[..i + 1][..i] == observed[..i];
  }

  /** Keeping first occurrences of a list extended by one cell. */
  lemma FirstOccurrencesStep(xs: seq<CellPositioningData>, x: CellPositioningData)
    ensures FirstOccurrences(xs + [x]) ==
      if x.id in Ids(FirstOccurrences(xs)) then FirstOccurrences(xs) else FirstOccurrences(xs) + [x]
  {
    assert (xs + [x])[..|xs|] == xs;
  }

  /**
   * The usable cells currently observed (YandexProvider::seenCellIds): nothing
   * when cell data may not be used; otherwise one entry per distinct key, the
   * first observation with that key, in observer order.
   */
  method SeenCellIds(cellDataAllowed: bool, observed: seq<ObservedCell>)
    returns (cells: seq<CellPositioningData>)
    ensures cells == SeenCells(cellDataAllowed, observed)
  {
    cells := [];
    if !cellDataAllowed {
      return;
    }
    // The source tracks the strongest neighbour signal but never reads it.
    var maxNeighborSignalStrength: uint32 := 1;
    var seen: set<UniqueCellId> := {};
    var i := 0;
    while i < |observed|
      invariant 0 <= i <= |observed|
      invariant cells == FirstOccurrences(Usable(observed[..i]))
      invariant seen == Ids(cells)
    {
      var c := observed[i];
      UsableStep(observed, i);
      var mcc := ToUint16(c.mcc);
      var mnc := ToUint16(c.mnc);
      var cellType := CellTypeOf(c.technology);
      var locationCode: uint32;
      var cellId: uint32;
      if KnownCellId(c.cid) && mcc != 0 {
        locationCode := ToUint32(c.lac);
        cellId := ToUint32(c.cid);
      } else if KnownCellId(c.ci) && mcc != 0 {
        locationCode := ToUint32(c.tac);
        cellId := ToUint32(c.ci);
      } else {
        i := i + 1;
        continue;
      }
      var cell := CellPositioningData(UniqueCellId(cellType, cellId, locationCode, mcc, mnc), ToUint32(c.signalStrength));
      FirstOccurrencesStep(Usable(observed[..i]), cell);
      if cell.id !in seen {
        if cell.signalStrength > maxNeighborSignalStrength {
          maxNeighborSignalStrength := cell.signalStrength;
        }
        IdsAppend(cells, cell);
        cells := cells + [cell];
        seen := seen + {cell.id};
      }
      i := i + 1;
    }
    assert observed[..i] == observed;
  }

  /**
   * The cells seenCellIds reports carry distinct keys, and their keys are
   * those of the usable observations (none when cell data may not be used).
   */
  lemma SeenCellsKeys(cellDataAllowed: bool, observed: seq<ObservedCell>)
    ensures DistinctIds(SeenCells(cellDataAllowed, observed))
    ensures Ids(SeenCells(cellDataAllowed, observed)) == if cellDataAllowed then KeyedIds(observed) else {}
  {
    FirstOccurrencesDistinct(Usable(observed));
    FirstOccurrencesIds(Usable(observed));
    UsableIds(observed);
  }
}
