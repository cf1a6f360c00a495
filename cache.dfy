/**
 * The cell location caches in front of the dataset search
 * (YandexProvider::updateLocationFromCells): a positive cache of resolved
 * locations and a permanent negative cache of keys the dataset does not hold.
 * Neither is ever evicted, so no key is searched in the dataset twice.
 */
module CellCache {
  import opened Basics
  import opened CellData
  import opened Shards

  /**
   * Known locations (m_uniqueCellIdToLocation), keys known to have none
   * (m_knownCellIdsWithUnknownLocations), and the keys searched in the
   * dataset so far.
   */
  datatype CacheState = CacheState(
    locations: map<UniqueCellId, Coords>, unknownLocations: set<UniqueCellId>, searched: set<UniqueCellId>)
  {
    /** A key is cached when either cache holds it. */
    predicate Has(id: UniqueCellId) {
      id in locations || id in unknownLocations
    }
  }

  const EmptyCache := CacheState(map[], {}, {})

  /**
   * The caches agree with the dataset on one key: a cached location is the
   * dataset's and the key is not also cached as absent, a cached absence is
   * real, and the key was searched exactly when either cache holds it.
   */
  ghost predicate AgreesOn(dataset: seq<ShardFile>, c: CacheState, id: UniqueCellId) {
    && (id in c.locations ==> id !in c.unknownLocations && Lookup(dataset, id) == Some(c.locations[id]))
    && (id in c.unknownLocations ==> Lookup(dataset, id).None?)
    && (id in c.searched <==> c.Has(id))
  }

  /** The caches agree with the dataset on every key. */
  ghost predicate CacheAgrees(dataset: seq<ShardFile>, c: CacheState) {
    forall id :: AgreesOn(dataset, c, id)
  }

  /** The empty caches agree with any dataset. */
  lemma EmptyCacheAgrees(dataset: seq<ShardFile>)
    ensures CacheAgrees(dataset, EmptyCache)
  {
  }

  /**
   * The answer the caches give for a key: a cached location, a cached
   * absence, or the dataset's answer for a key in neither cache.
   */
  function CachedAnswer(dataset: seq<ShardFile>, c: CacheState, id: UniqueCellId): Option<Coords> {
    if id in c.locations then Some(c.locations[id])
    else if id in c.unknownLocations then None
    else Lookup(dataset, id)
  }

  /**
   * The caches after looking up one key: unchanged on a hit (positive or
   * negative); on a miss the key is searched once and lands in exactly one
   * cache, the positive one when the dataset holds it.
   */
  function CacheStep(dataset: seq<ShardFile>, c: CacheState, id: UniqueCellId): CacheState {
    if c.Has(id) then c
    else
      match Lookup(dataset, id)
      case Some(xy) => c.(locations := c.locations[id := xy], searched := c.searched + {id})
      case None => c.(unknownLocations := c.unknownLocations + {id}, searched := c.searched + {id})
  }

  /**
   * The caches a keep everything the caches c hold: every cached location
   * with the same value, every cached absence, and every searched key.
   */
  predicate Retains(c: CacheState, a: CacheState) {
    && (forall id | id in c.locations :: id in a.locations && a.locations[id] == c.locations[id])
    && c.unknownLocations <= a.unknownLocations
    && c.searched <= a.searched
  }

  /**
   * While the caches agree with the dataset, they answer every key as the
   * dataset does, a lookup keeps them in agreement, only the looked-up key
   * is added, and the key is searched exactly when it was in neither cache.
   */
  lemma CacheStepAgrees(dataset: seq<ShardFile>, c: CacheState, id: UniqueCellId)
    requires CacheAgrees(dataset, c)
    ensures CachedAnswer(dataset, c, id) == Lookup(dataset, id)
    ensures CacheAgrees(dataset, CacheStep(dataset, c, id))
    ensures forall k :: CacheStep(dataset, c, id).Has(k) <==> c.Has(k) || k == id
    ensures CacheStep(dataset, c, id).searched == c.searched + if c.Has(id) then {} else {id}
  {
    assert AgreesOn(dataset, c, id);
    forall k ensures AgreesOn(dataset, CacheStep(dataset, c, id), k) {
      assert AgreesOn(dataset, c, k);
    }
  }

  /** The caches after looking up the keys of the first n cells, in order. */
  function CacheAfter(dataset: seq<ShardFile>, c: CacheState, cells: seq<CellPositioningData>, n: nat): CacheState
    requires n <= |cells|
    decreases n
  {
    if n == 0 then c else CacheStep(dataset, CacheAfter(dataset, c, cells, n - 1), cells[n - 1].id)
  }

  /**
   * Looking up a list of cells keeps the caches in agreement with the
   * dataset and adds exactly the cells' keys.
   */
  lemma {:induction false} CacheAfterAgrees(dataset: seq<ShardFile>, c: CacheState, cells: seq<CellPositioningData>, n: nat)
    requires n <= |cells|
    requires CacheAgrees(dataset, c)
    ensures CacheAgrees(dataset, CacheAfter(dataset, c, cells, n))
    ensures forall k :: CacheAfter(dataset, c, cells, n).Has(k) <==> c.Has(k) || k in IdsBefore(cells, n)
    decreases n
  {
    if n > 0 {
      CacheAfterAgrees(dataset, c, cells, n - 1);
      CacheStepAgrees(dataset, CacheAfter(dataset, c, cells, n - 1), cells[n - 1].id);
      assert IdsBefore(cells, n) == IdsBefore(cells, n - 1) + {cells[n - 1].id};
    }
  }

  /** Looking up one key never drops or changes a cached entry. */
  lemma StepRetains(dataset: seq<ShardFile>, c: CacheState, id: UniqueCellId)
    ensures Retains(c, CacheStep(dataset, c, id))
  {
  }

  /** Looking up a list of cells never drops or changes a cached entry. */
  lemma {:induction false} CacheAfterGrows(dataset: seq<ShardFile>, c: CacheState, cells: seq<CellPositioningData>, n: nat)
    requires n <= |cells|
    ensures Retains(c, CacheAfter(dataset, c, cells, n))
    decreases n
  {
    if n > 0 {
      var before := CacheAfter(dataset, c, cells, n - 1);
      CacheAfterGrows(dataset, c, cells, n - 1);
      StepRetains(dataset, before, cells[n - 1].id);
    }
  }

  /**
   * After looking up a list of cells, the searched keys are those searched
   * before and the cells' keys.
   */
  lemma CacheAfterSearches(dataset: seq<ShardFile>, c: CacheState, cells: seq<CellPositioningData>, n: nat, k: UniqueCellId)
    requires n <= |cells|
    requires CacheAgrees(dataset, c)
    ensures k in CacheAfter(dataset, c, cells, n).searched <==> k in c.searched || k in IdsBefore(cells, n)
  {
    CacheAfterAgrees(dataset, c, cells, n);
    assert AgreesOn(dataset, c, k);
    assert AgreesOn(dataset, CacheAfter(dataset, c, cells, n), k);
  }

  /**
   * No key is searched twice while the caches agree with the dataset: a key
   * has been searched exactly when it is cached, and a lookup that searches
   * the dataset does so for a key never searched before.
   */
  lemma SearchedAtMostOnce(dataset: seq<ShardFile>, c: CacheState, id: UniqueCellId)
    requires CacheAgrees(dataset, c)
    ensures id in c.searched <==> c.Has(id)
    ensures CacheStep(dataset, c, id).searched != c.searched ==> id !in c.searched
  {
    assert AgreesOn(dataset, c, id);
  }

  /** The two caches never share a key while they agree with the dataset. */
  lemma CachesDisjoint(dataset: seq<ShardFile>, c: CacheState)
    requires CacheAgrees(dataset, c)
    ensures c.locations.Keys !! c.unknownLocations
  {
    forall id | id in c.locations ensures id !in c.unknownLocations {
      assert AgreesOn(dataset, c, id);
    }
  }
}
