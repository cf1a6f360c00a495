/**
 * The YandexProvider object: client sessions, the positioning gate, the three
 * timers, the cell location caches, fix publication and the status machine.
 * Every handler runs to completion on one thread; the clock, the cells the
 * observer currently reports and the online locator's answer to "dispatch this
 * query" are inputs (Environment), and emitted signals are appended to a log.
 */
module Provider {
  import opened Basics
  import opened CellData
  import opened Shards
  import opened CellCache
  import opened Estimation
  import opened Sessions
  import opened Settings

  /** 30 s without clients: the process quits. */
  const QuitIdleTime: nat := 30000
  /** 30 s without a new fix: status falls back from Available to Acquiring. */
  const FixTimeout: nat := 30000
  /** 30 s: how long a fix is republished instead of recomputed. */
  const ReuseInterval: int := 30000

  datatype Status = Unavailable | Acquiring | Available

  /** A QBasicTimer: stopped, or running with an interval in ms. */
  datatype Timer = Stopped | Running(interval: nat)

  /** Which of the provider's timers a timer event belongs to. */
  datatype TimerKind = IdleTimer | FixLostTimer | RecalculateTimer | OtherTimer

  /** Emitted D-Bus signals. */
  datatype Signal = StatusChanged(status: Status) | PositionChanged(fix: Fix)

  /**
   * What a handler observes of the outside world: the clock (ms since the
   * epoch), the cells the observer currently reports, and whether the online
   * locator accepts a query (findLocation's result).
   */
  datatype Environment = Environment(now: int, visibleCells: seq<ObservedCell>, onlineQueryAccepted: bool)

  /** The published part of the provider's state. */
  datatype Publication = Publication(
    status: Status, current: Fix, last: Fix, fixLostTimer: Timer, signals: seq<Signal>)

  /** The statuses announced by StatusChanged signals, in order. */
  function StatusTrace(signals: seq<Signal>): seq<Status>
    decreases |signals|
  {
    if signals == [] then []
    else
      var s := signals[|signals| - 1];
      StatusTrace(signals[..|signals| - 1]) + (if s.StatusChanged? then [s.status] else [])
  }

  lemma StatusTraceAppend(signals: seq<Signal>, s: Signal)
    ensures StatusTrace(signals + [s]) == StatusTrace(signals) + (if s.StatusChanged? then [s.status] else [])
  {
    assert (signals + [s])[..|signals|] == signals;
  }

  /** No two neighbouring statuses of t are equal. */
  predicate ChangesOnly(t: seq<Status>)
    decreases |t|
  {
    |t| < 2 || (t[|t| - 2] != t[|t| - 1] && ChangesOnly(t[..|t| - 1]))
  }

  lemma {:induction false} ChangesOnlyNeighbours(t: seq<Status>)
    ensures ChangesOnly(t) <==> forall i :: 0 < i < |t| ==> t[i - 1] != t[i]
    decreases |t|
  {
    if |t| >= 2 {
      var u := t[..|t| - 1];
      ChangesOnlyNeighbours(u);
      assert forall i :: 0 <= i < |u| ==> u[i] == t[i];
    }
  }

  /**
   * Starting from Unavailable, every StatusChanged signal announces a status
   * different from the one before it (ChangesOnly, which
   * ChangesOnlyNeighbours shows to mean that no two neighbouring entries are
   * equal), and the last one announced is the current status.
   */
  ghost predicate StatusHistory(p: Publication) {
    var t := [Unavailable] + StatusTrace(p.signals);
    t[|t| - 1] == p.status && ChangesOnly(t)
  }

  /**
   * Appending a signal keeps the history: a position signal with the status
   * unchanged, or a status signal announcing a new status.
   */
  lemma {:induction false} HistoryExtends(p: Publication, sig: Signal, s: Status)
    requires StatusHistory(p)
    requires if sig.StatusChanged? then sig.status == s && s != p.status else s == p.status
    ensures StatusHistory(p.(status := s, signals := p.signals + [sig]))
  {
    StatusTraceAppend(p.signals, sig);
    var t := [Unavailable] + StatusTrace(p.signals);
    var t' := [Unavailable] + StatusTrace(p.signals + [sig]);
    if sig.StatusChanged? {
      assert t' == t + [s];
      assert t'[..|t'| - 1] == t;
    } else {
      assert t' == t;
    }
  }

  /**
   * What every published state satisfies: a fix with a timestamp has an
   * accuracy, and a running fix-lost timer has the 30 s interval.
   */
  predicate PublicationValid(p: Publication) {
    && (p.current.timestamp != 0 ==> p.current.accuracy.Horizontal?)
    && (p.fixLostTimer.Running? ==> p.fixLostTimer.interval == FixTimeout)
  }

  /**
   * YandexProvider::setStatus: the status becomes s, and a StatusChanged
   * signal is emitted exactly when s differs from the old status.
   */
  function AfterSetStatus(p: Publication, s: Status): (q: Publication)
    ensures q.status == s
    ensures q.current == p.current && q.last == p.last && q.fixLostTimer == p.fixLostTimer
    ensures p.status == s ==> q == p
    ensures p.status != s ==> q.signals == p.signals + [StatusChanged(s)]
  {
    if p.status == s then p
    else p.(status := s, signals := p.signals + [StatusChanged(s)])
  }

  /** setStatus keeps the status history. */
  lemma {:induction false} SetStatusKeepsHistory(p: Publication, s: Status)
    requires StatusHistory(p)
    ensures StatusHistory(AfterSetStatus(p, s))
  {
    if p.status != s {
      HistoryExtends(p, StatusChanged(s), s);
    }
  }

  /**
   * YandexProvider::setLocation: a fix with a timestamp makes the status
   * Available, re-arms the fix-lost timer and moves the current fix to last;
   * a fix without one resets last. The fix becomes current and is announced.
   */
  function AfterSetLocation(p: Publication, fix: Fix): (q: Publication)
    ensures q.current == fix
    ensures fix.timestamp != 0 ==>
      q.status == Available && q.fixLostTimer == Running(FixTimeout) && q.last == p.current
    ensures fix.timestamp == 0 ==>
      q.status == p.status && q.fixLostTimer == p.fixLostTimer && q.last == NoFix
    ensures q.signals == p.signals
      + (if fix.timestamp != 0 && p.status != Available then [StatusChanged(Available)] else [])
      + [PositionChanged(fix)]
  {
    var q := if fix.timestamp != 0
      then AfterSetStatus(p, Available).(fixLostTimer := Running(FixTimeout), last := p.current)
      else p.(last := NoFix);
    q.(current := fix, signals := q.signals + [PositionChanged(fix)])
  }

  /** setLocation keeps the status history. */
  lemma {:induction false} SetLocationKeepsHistory(p: Publication, fix: Fix)
    requires StatusHistory(p)
    ensures StatusHistory(AfterSetLocation(p, fix))
  {
    var q := if fix.timestamp != 0
      then AfterSetStatus(p, Available).(fixLostTimer := Running(FixTimeout), last := p.current)
      else p.(last := NoFix);
    if fix.timestamp != 0 {
      SetStatusKeepsHistory(p, Available);
    }
    HistoryExtends(q, PositionChanged(fix), q.status);
  }

  /** Publishing a fix while Available announces no status change. */
  lemma {:induction false} RepublishAnnouncesNoStatus(p: Publication, fix: Fix)
    requires p.status == Available
    ensures StatusTrace(AfterSetLocation(p, fix).signals) == StatusTrace(p.signals)
  {
    StatusTraceAppend(p.signals, PositionChanged(fix));
  }

  /**
   * The published state after an offline estimate: untouched when no cell
   * resolves, else the preferred of the current fix and the candidate.
   */
  function OfflineOutcome(p: Publication, dataset: seq<ShardFile>, cells: seq<CellPositioningData>, now: int): Publication
  {
    match Estimate(cells, dataset, now)
    case None => p
    case Some(candidate) => AfterSetLocation(p, Preferred(p.current, candidate, now))
  }

  /** The offline outcome keeps the published state valid: every estimate has an accuracy. */
  lemma OfflineOutcomeKeepsValid(p: Publication, dataset: seq<ShardFile>, cells: seq<CellPositioningData>, now: int)
    requires PublicationValid(p)
    ensures PublicationValid(OfflineOutcome(p, dataset, cells, now))
  {
    if Estimate(cells, dataset, now).Some? {
      EstimateAccuracyRange(cells, dataset, now);
    }
  }

  /** The offline outcome keeps the status history. */
  lemma OfflineOutcomeKeepsHistory(p: Publication, dataset: seq<ShardFile>, cells: seq<CellPositioningData>, now: int)
    requires StatusHistory(p)
    ensures StatusHistory(OfflineOutcome(p, dataset, cells, now))
  {
    var e := Estimate(cells, dataset, now);
    if e.Some? {
      SetLocationKeepsHistory(p, Preferred(p.current, e.value, now));
    }
  }

  /**
   * What stopPositioningIfNeeded does to the published state: the status
   * becomes Unavailable (announced if it changed) and the fix-lost timer stops.
   */
  function AfterStop(p: Publication): (q: Publication)
    ensures q.status == Unavailable && q.fixLostTimer == Stopped
    ensures q.current == p.current && q.last == p.last
    ensures q.signals == p.signals + (if p.status == Unavailable then [] else [StatusChanged(Unavailable)])
  {
    AfterSetStatus(p, Unavailable).(fixLostTimer := Stopped)
  }

  lemma StopKeepsHistory(p: Publication)
    requires StatusHistory(p)
    ensures StatusHistory(AfterStop(p))
  {
    SetStatusKeepsHistory(p, Unavailable);
  }

  /**
   * What the fix-lost timer does to the published state: the timer stops and
   * the status becomes Acquiring; the fixes stay as they are.
   */
  function AfterFixLost(p: Publication): (q: Publication)
    ensures q.status == Acquiring && q.fixLostTimer == Stopped
    ensures q.current == p.current && q.last == p.last
    ensures q.signals == p.signals + (if p.status == Acquiring then [] else [StatusChanged(Acquiring)])
  {
    AfterSetStatus(p.(fixLostTimer := Stopped), Acquiring)
  }

  lemma FixLostKeepsHistory(p: Publication)
    requires StatusHistory(p)
    ensures StatusHistory(AfterFixLost(p))
  {
    SetStatusKeepsHistory(p.(fixLostTimer := Stopped), Acquiring);
  }

  /**
   * The recalculate timer recomputes when there is no fix, the fix is older
   * than 30 s, or the cells or WLANs changed; otherwise it republishes.
   */
  predicate NeedsRecompute(current: Fix, now: int, cellsChanged: bool, wlanChanged: bool) {
    current.timestamp == 0 || now - current.timestamp > ReuseInterval || cellsChanged || wlanChanged
  }

  /**
   * What the positioning handlers change: the published state, the caches and
   * the cells of the last online query dispatched.
   */
  datatype Engine = Engine(pub: Publication, caches: CacheState, previousQuery: seq<CellPositioningData>)

  ghost predicate EngineValid(dataset: seq<ShardFile>, e: Engine) {
    CacheAgrees(dataset, e.caches) && PublicationValid(e.pub)
  }

  /**
   * The effect of updateLocationFromCells: each cell's key is looked up
   * through the caches, and the published state becomes the offline outcome.
   */
  function OfflineResult(dataset: seq<ShardFile>, cells: seq<CellPositioningData>, now: int, e: Engine): Engine {
    Engine(OfflineOutcome(e.pub, dataset, cells, now), CacheAfter(dataset, e.caches, cells, |cells|), e.previousQuery)
  }

  /**
   * An offline estimate keeps the caches in agreement with the dataset and
   * the published state valid, and afterwards exactly the keys cached before
   * and the cells' keys are cached.
   */
  lemma OfflineResultValid(dataset: seq<ShardFile>, cells: seq<CellPositioningData>, now: int, e: Engine)
    requires EngineValid(dataset, e)
    ensures EngineValid(dataset, OfflineResult(dataset, cells, now, e))
    ensures forall id :: OfflineResult(dataset, cells, now, e).caches.Has(id) <==> e.caches.Has(id) || id in Ids(cells)
  {
    CacheAfterAgrees(dataset, e.caches, cells, |cells|);
    assert IdsBefore(cells, |cells|) == Ids(cells);
    OfflineOutcomeKeepsValid(e.pub, dataset, cells, now);
  }

  /**
   * The effect of calculatePositionAndEmitLocation: the online query is
   * recorded when online positioning is on and the locator accepts it;
   * otherwise the offline estimate runs over the currently seen cells.
   */
  function Recalculate(dataset: seq<ShardFile>, onlinePositioning: bool, cellDataAllowed: bool,
                       env: Environment, e: Engine): Engine
  {
    var cells := SeenCells(cellDataAllowed, env.visibleCells);
    if onlinePositioning && env.onlineQueryAccepted then e.(previousQuery := cells)
    else OfflineResult(dataset, cells, env.now, e)
  }

  lemma RecalculateValid(dataset: seq<ShardFile>, onlinePositioning: bool, cellDataAllowed: bool,
                         env: Environment, e: Engine)
    requires EngineValid(dataset, e)
    ensures EngineValid(dataset, Recalculate(dataset, onlinePositioning, cellDataAllowed, env, e))
  {
    if !(onlinePositioning && env.onlineQueryAccepted) {
      OfflineResultValid(dataset, SeenCells(cellDataAllowed, env.visibleCells), env.now, e);
    }
  }

  /**
   * The outcome of a recalculate timer event: nothing while positioning is
   * disabled; a recomputation (clearing the cell and WLAN change flags) when
   * there is no fix, it is older than 30 s, or cells or WLANs changed;
   * otherwise the current fix republished unchanged.
   */
  ghost predicate RecalculateTimerStep(dataset: seq<ShardFile>, enabled: bool, onlinePositioning: bool,
                                       cellDataAllowed: bool, env: Environment,
                                       cellChanged: bool, wlanChanged: bool, e: Engine,
                                       cellChanged': bool, wlanChanged': bool, e': Engine)
  {
    if !enabled then
      cellChanged' == cellChanged && wlanChanged' == wlanChanged && e' == e
    else if NeedsRecompute(e.pub.current, env.now, cellChanged, wlanChanged) then
      !cellChanged' && !wlanChanged' && e' == Recalculate(dataset, onlinePositioning, cellDataAllowed, env, e)
    else
      cellChanged' == cellChanged && wlanChanged' == wlanChanged
      && e' == e.(pub := AfterSetLocation(e.pub, e.pub.current))
  }

  /** A recomputation keeps the status history. */
  lemma RecalculateKeepsHistory(dataset: seq<ShardFile>, onlinePositioning: bool, cellDataAllowed: bool,
                                env: Environment, e: Engine)
    requires StatusHistory(e.pub)
    ensures StatusHistory(Recalculate(dataset, onlinePositioning, cellDataAllowed, env, e).pub)
  {
    if !(onlinePositioning && env.onlineQueryAccepted) {
      OfflineOutcomeKeepsHistory(e.pub, dataset, SeenCells(cellDataAllowed, env.visibleCells), env.now);
    }
  }

  /** Every outcome of a recalculate timer event keeps the status history. */
  lemma RecalculateTimerKeepsHistory(dataset: seq<ShardFile>, enabled: bool, onlinePositioning: bool,
                                     cellDataAllowed: bool, env: Environment,
                                     cellChanged: bool, wlanChanged: bool, e: Engine,
                                     cellChanged': bool, wlanChanged': bool, e': Engine)
    requires StatusHistory(e.pub)
    requires RecalculateTimerStep(dataset, enabled, onlinePositioning, cellDataAllowed, env,
                                  cellChanged, wlanChanged, e, cellChanged', wlanChanged', e')
    ensures StatusHistory(e'.pub)
  {
    if enabled {
      if NeedsRecompute(e.pub.current, env.now, cellChanged, wlanChanged) {
        RecalculateKeepsHistory(dataset, onlinePositioning, cellDataAllowed, env, e);
      } else {
        SetLocationKeepsHistory(e.pub, e.pub.current);
      }
    }
  }

  /** Disabling positioning (publish the empty fix, then stop) keeps the status history. */
  lemma DisableKeepsHistory(p: Publication)
    requires StatusHistory(p)
    ensures StatusHistory(AfterSetLocation(p, NoFix))
    ensures StatusHistory(AfterStop(AfterSetLocation(p, NoFix)))
  {
    SetLocationKeepsHistory(p, NoFix);
    StopKeepsHistory(AfterSetLocation(p, NoFix));
  }

  /**
   * Sessions, the positioning gate and the timers agree: clients are active,
   * the idle timer runs exactly while no client is registered (until the
   * process quits), positioning runs exactly when enabled and some client is
   * registered, and then the recalculate timer runs at a valid interval.
   */
  predicate ControlValid(watched: map<ClientId, ServiceData>, idleTimer: Timer, quitRequested: bool,
                         positioningEnabled: bool, positioningStarted: bool, recalculateTimer: Timer)
  {
    // sessions
    && AllActive(watched)
    && (watched != map[] ==> idleTimer == Stopped)
    && (watched == map[] ==> idleTimer == Running(QuitIdleTime) || quitRequested)
    // gate
    && positioningStarted == (positioningEnabled && watched != map[])
    // timers
    && (positioningStarted ==> recalculateTimer.Running?)
    && (recalculateTimer.Running? ==> recalculateTimer.interval >= MinimumInterval)
  }

  class YandexProvider {
    /** The parsed dataset files, in directory traversal order. */
    const dataset: seq<ShardFile>

    var watched: map<ClientId, ServiceData>     // m_watchedServices
    var positioningEnabled: bool
    var positioningStarted: bool
    var onlinePositioningEnabled: bool
    var onlineDataAllowed: bool
    var cellDataAllowed: bool
    var wlanDataAllowed: bool
    var status: Status
    var current: Fix                             // m_currentLocation
    var last: Fix                                // m_lastLocation
    var signalUpdateCell: bool
    var signalUpdateWlan: bool
    var idleTimer: Timer
    var fixLostTimer: Timer
    var recalculateTimer: Timer
    var quitRequested: bool                      // qApp->quit() was called
    var previousQuery: seq<CellPositioningData>  // the cells of the last dispatched online query
    var locations: map<UniqueCellId, Coords>     // m_uniqueCellIdToLocation
    var unknownLocations: set<UniqueCellId>      // m_knownCellIdsWithUnknownLocations
    var signals: seq<Signal>
    /** The keys searched in the dataset so far. */
    ghost var searched: set<UniqueCellId>

    ghost function Pub(): Publication
      reads this`status, this`current, this`last, this`fixLostTimer, this`signals
    {
      Publication(status, current, last, fixLostTimer, signals)
    }

    ghost function Caches(): CacheState
      reads this`locations, this`unknownLocations, this`searched
    {
      CacheState(locations, unknownLocations, searched)
    }

    ghost function Snapshot(): Engine
      reads this`status, this`current, this`last, this`fixLostTimer, this`signals
      reads this`locations, this`unknownLocations, this`searched, this`previousQuery
    {
      Engine(Pub(), Caches(), previousQuery)
    }

    /**
     * The caches agree with the dataset: they are disjoint, hold the
     * dataset's answers, and a key was searched exactly when it is cached.
     */
    ghost predicate CacheValid()
      reads this`locations, this`unknownLocations, this`searched
    {
      CacheAgrees(dataset, Caches())
    }

    /** The caches agree with the dataset and the published state is valid. */
    ghost predicate StateValid()
      reads this`locations, this`unknownLocations, this`searched
      reads this`status, this`current, this`last, this`fixLostTimer, this`signals
    {
      CacheValid() && PublicationValid(Pub())
    }

    ghost predicate Valid()
      reads this`locations, this`unknownLocations, this`searched
      reads this`watched, this`idleTimer, this`quitRequested, this`positioningEnabled, this`positioningStarted
      reads this`recalculateTimer, this`status, this`current, this`last, this`fixLostTimer, this`signals
    {
      StateValid() && ControlOk()
    }

    /** Sessions, the positioning gate and the timers agree (ControlValid). */
    predicate ControlOk()
      reads this`watched, this`idleTimer, this`quitRequested, this`positioningEnabled, this`positioningStarted
      reads this`recalculateTimer
    {
      ControlValid(watched, idleTimer, quitRequested, positioningEnabled, positioningStarted, recalculateTimer)
    }

    constructor (dataset: seq<ShardFile>, settings: SettingsSnapshot, env: Environment)
      ensures Valid()
      ensures this.dataset == dataset
      ensures watched == map[] && !positioningStarted
      ensures positioningEnabled == PositioningEnabled(GetEnabled(settings))
      ensures idleTimer == Running(QuitIdleTime) && fixLostTimer == Stopped && recalculateTimer == Stopped
      ensures signalUpdateCell == positioningEnabled && !signalUpdateWlan
      ensures status == Unavailable && current == NoFix && signals == []
      ensures locations == map[] && unknownLocations == {}
      ensures last == NoFix && !quitRequested && previousQuery == [] && searched == {}
      ensures var f := GetEnabled(settings);
        && onlinePositioningEnabled == f.onlinePositioning && onlineDataAllowed == f.onlineDataAllowed
        && cellDataAllowed == f.cellDataAllowed && wlanDataAllowed == f.wlanDataAllowed
    {
      this.dataset := dataset;
      watched := map[];
      positioningEnabled := false;
      positioningStarted := false;
      onlinePositioningEnabled := false;
      onlineDataAllowed := false;
      cellDataAllowed := false;
      wlanDataAllowed := false;
      status := Unavailable;
      current := NoFix;
      last := NoFix;
      signalUpdateCell := false;
      signalUpdateWlan := false;
      // The source arms the idle timer right after reading the settings; with
      // no client registered, reading the settings never touches it.
      idleTimer := Running(QuitIdleTime);
      fixLostTimer := Stopped;
      recalculateTimer := Stopped;
      quitRequested := false;
      previousQuery := [];
      locations := map[];
      unknownLocations := {};
      signals := [];
      searched := {};
      new;
      EmptyCacheAgrees(dataset);
      UpdatePositioningEnabled(settings, env);
      if positioningEnabled {
        CellularNetworkRegistrationChanged();
      }
    }

    /** YandexProvider::setStatus. */
    method SetStatus(s: Status)
      modifies this`status, this`signals
      ensures Pub() == AfterSetStatus(old(Pub()), s)
      ensures unchanged(this`watched, this`positioningEnabled, this`positioningStarted, this`idleTimer, this`recalculateTimer, this`quitRequested)
      ensures unchanged(this`onlinePositioningEnabled, this`onlineDataAllowed, this`cellDataAllowed, this`wlanDataAllowed, this`signalUpdateCell, this`signalUpdateWlan)
      ensures unchanged(this`current, this`last, this`fixLostTimer)
      ensures unchanged(this`locations, this`unknownLocations, this`searched, this`previousQuery)
    {
      if status == s {
        return;
      }
      status := s;
      signals := signals + [StatusChanged(s)];
    }

    /** YandexProvider::setLocation, including emitLocationChanged. */
    method SetLocation(fix: Fix)
      modifies this`status, this`signals, this`fixLostTimer, this`last, this`current
      ensures Pub() == AfterSetLocation(old(Pub()), fix)
      ensures unchanged(this`watched, this`positioningEnabled, this`positioningStarted, this`idleTimer, this`recalculateTimer, this`quitRequested)
      ensures unchanged(this`onlinePositioningEnabled, this`onlineDataAllowed, this`cellDataAllowed, this`wlanDataAllowed, this`signalUpdateCell, this`signalUpdateWlan)
      ensures unchanged(this`locations, this`unknownLocations, this`searched, this`previousQuery)
    {
      if fix.timestamp != 0 {
        SetStatus(Available);
        fixLostTimer := Running(FixTimeout);
        last := current;
      } else {
        // Lost fix: reset the last location too.
        last := NoFix;
      }
      current := fix;
      signals := signals + [PositionChanged(fix)];
    }

    /**
     * The cache step of updateLocationFromCells for one key: a cached location
     * or a cached absence answers at once; a key in neither cache is searched
     * in the dataset, once, and the outcome cached. The answer is the dataset's.
     */
    method CachedLocation(id: UniqueCellId) returns (coords: Option<Coords>)
      requires CacheValid()
      modifies this`locations, this`unknownLocations, this`searched
      ensures CacheValid()
      ensures Caches() == CacheStep(dataset, old(Caches()), id)
      ensures coords == Lookup(dataset, id)
      ensures unchanged(this`watched, this`positioningEnabled, this`positioningStarted, this`idleTimer, this`recalculateTimer, this`quitRequested)
      ensures unchanged(this`onlinePositioningEnabled, this`onlineDataAllowed, this`cellDataAllowed, this`wlanDataAllowed, this`signalUpdateCell, this`signalUpdateWlan)
      ensures unchanged(this`status, this`current, this`last, this`fixLostTimer, this`signals)
      ensures unchanged(this`previousQuery)
    {
      CacheStepAgrees(dataset, Caches(), id);
      if id in locations {
        return Some(locations[id]);
      }
      if id in unknownLocations {
        // Known to have no location: no search.
        return None;
      }
      coords := SearchForCellIdLocation(dataset, id);
      searched := searched + {id};
      if coords.None? {
        unknownLocations := unknownLocations + {id};
      } else {
        locations := locations[id := coords.value];
      }
    }

    /**
     * The first loop of updateLocationFromCells: resolve each cell through the
     * caches, collecting the resolved keys (cellLocations) and the sum of
     * their signal strengths.
     */
    method ResolveCells(cells: seq<CellPositioningData>)
      returns (cellLocations: map<UniqueCellId, Coords>, totalSignalStrength: nat)
      requires CacheValid()
      modifies this`locations, this`unknownLocations, this`searched
      ensures CacheValid()
      ensures Caches() == CacheAfter(dataset, old(Caches()), cells, |cells|)
      ensures cellLocations == Resolved(cells, dataset, |cells|)
      ensures totalSignalStrength == TotalStrength(cells, dataset, |cells|)
      ensures unchanged(this`watched, this`positioningEnabled, this`positioningStarted, this`idleTimer, this`recalculateTimer, this`quitRequested)
      ensures unchanged(this`onlinePositioningEnabled, this`onlineDataAllowed, this`cellDataAllowed, this`wlanDataAllowed, this`signalUpdateCell, this`signalUpdateWlan)
      ensures unchanged(this`status, this`current, this`last, this`fixLostTimer, this`signals)
      ensures unchanged(this`previousQuery)
    {
      ghost var start := Caches();
      cellLocations := map[];
      totalSignalStrength := 0;
      var i := 0;
      while i < |cells|
        invariant 0 <= i <= |cells|
        invariant CacheValid()
        invariant Caches() == CacheAfter(dataset, start, cells, i)
        invariant cellLocations == Resolved(cells, dataset, i)
        invariant totalSignalStrength == TotalStrength(cells, dataset, i)
      {
        var cell := cells[i];
        var found := CachedLocation(cell.id);
        if found.Some? {
          cellLocations := cellLocations[cell.id := found.value];
          totalSignalStrength := totalSignalStrength + cell.signalStrength;
        }
        i := i + 1;
      }
    }

    /**
     * YandexProvider::updateLocationFromCells: resolve each cell through the
     * caches, then publish the estimate, or the current fix if it is recent
     * and more accurate; publish nothing when no cell resolves.
     */
    method UpdateLocationFromCells(cells: seq<CellPositioningData>, now: int)
      requires StateValid()
      modifies this`locations, this`unknownLocations, this`searched
      modifies this`status, this`signals, this`fixLostTimer, this`last, this`current
      ensures StateValid()
      ensures Snapshot() == OfflineResult(dataset, cells, now, old(Snapshot()))
      ensures unchanged(this`watched, this`positioningEnabled, this`positioningStarted, this`idleTimer, this`recalculateTimer, this`quitRequested)
      ensures unchanged(this`onlinePositioningEnabled, this`onlineDataAllowed, this`cellDataAllowed, this`wlanDataAllowed, this`signalUpdateCell, this`signalUpdateWlan)
      ensures unchanged(this`previousQuery)
    {
      OfflineResultValid(dataset, cells, now, Snapshot());
      var cellLocations, totalSignalStrength := ResolveCells(cells);
      if |cellLocations| == 0 {
        // No cell data to calculate a position from.
        return;
      }
      var samples := CollectSamples(cells, dataset, cellLocations);
      var positionAccuracy := EstimatedAccuracy(|cellLocations|);
      var deviceLocation := Fix(now, Triangulated(samples, totalSignalStrength), Horizontal(positionAccuracy as real));
      ghost var before := Pub();
      assert Estimate(cells, dataset, now) == Some(deviceLocation);
      assert OfflineOutcome(before, dataset, cells, now) ==
        AfterSetLocation(before, Preferred(current, deviceLocation, now));
      if current.timestamp != 0
        && now - current.timestamp < FallbackInterval
        && MoreAccurate(current.accuracy, deviceLocation.accuracy)
      {
        // Keep the recent, more accurate fix.
        SetLocation(current);
      } else {
        SetLocation(deviceLocation);
      }
    }

    /**
     * YandexProvider::calculatePositionAndEmitLocation: try the online locator
     * first when online positioning is on, else fall back to the offline estimate.
     */
    method CalculatePositionAndEmitLocation(env: Environment)
      requires StateValid()
      modifies this`previousQuery, this`locations, this`unknownLocations, this`searched
      modifies this`status, this`signals, this`fixLostTimer, this`last, this`current
      ensures StateValid()
      ensures Snapshot() == Recalculate(dataset, onlinePositioningEnabled, cellDataAllowed, env, old(Snapshot()))
      ensures unchanged(this`watched, this`positioningEnabled, this`positioningStarted, this`idleTimer, this`recalculateTimer, this`quitRequested)
      ensures unchanged(this`onlinePositioningEnabled, this`onlineDataAllowed, this`cellDataAllowed, this`wlanDataAllowed, this`signalUpdateCell, this`signalUpdateWlan)
    {
      RecalculateValid(dataset, onlinePositioningEnabled, cellDataAllowed, env, Snapshot());
      var cellIds := SeenCellIds(cellDataAllowed, env.visibleCells);
      if onlinePositioningEnabled {
        // The locator builds its query from the cells and the previous query.
        if env.onlineQueryAccepted {
          previousQuery := cellIds;
          return;
        }
      }
      UpdateLocationFromCells(cellIds, env.now);
    }

    /** (Re)start the recalculate timer at minimumRequestedUpdateInterval(). */
    method StartRecalculateTimer()
      modifies this`recalculateTimer
      ensures recalculateTimer == Running(EffectiveInterval(watched))
      ensures recalculateTimer.interval >= MinimumInterval
      ensures unchanged(this`watched, this`positioningEnabled, this`positioningStarted, this`idleTimer, this`quitRequested)
      ensures unchanged(this`onlinePositioningEnabled, this`onlineDataAllowed, this`cellDataAllowed, this`wlanDataAllowed, this`signalUpdateCell, this`signalUpdateWlan)
      ensures unchanged(this`status, this`current, this`last, this`fixLostTimer, this`signals)
      ensures unchanged(this`locations, this`unknownLocations, this`searched, this`previousQuery)
    {
      var interval := MinimumRequestedUpdateInterval(watched);
      recalculateTimer := Running(interval);
    }

    /** Positioning starts: the idle timer stops. */
    method MarkStarted()
      modifies this`idleTimer, this`positioningStarted
      ensures idleTimer == Stopped && positioningStarted
      ensures unchanged(this`watched, this`positioningEnabled, this`recalculateTimer, this`quitRequested)
      ensures unchanged(this`onlinePositioningEnabled, this`onlineDataAllowed, this`cellDataAllowed, this`wlanDataAllowed, this`signalUpdateCell, this`signalUpdateWlan)
      ensures unchanged(this`status, this`current, this`last, this`fixLostTimer, this`signals)
      ensures unchanged(this`locations, this`unknownLocations, this`searched, this`previousQuery)
    {
      idleTimer := Stopped;
      positioningStarted := true;
    }

    /**
     * YandexProvider::startPositioningIfNeeded: start only when not started,
     * some client is registered and positioning is enabled; then stop the idle
     * timer, compute a position at once and arm the recalculate timer.
     */
    method StartPositioningIfNeeded(env: Environment)
      requires StateValid()
      modifies this`idleTimer, this`positioningStarted, this`recalculateTimer
      modifies this`previousQuery, this`locations, this`unknownLocations, this`searched
      modifies this`status, this`signals, this`fixLostTimer, this`last, this`current
      ensures StateValid()
      ensures var start := !old(positioningStarted) && watched != map[] && positioningEnabled;
        if start then
          && positioningStarted && idleTimer == Stopped
          && recalculateTimer == Running(EffectiveInterval(watched))
          && Snapshot() == Recalculate(dataset, onlinePositioningEnabled, cellDataAllowed, env, old(Snapshot()))
        else
          && positioningStarted == old(positioningStarted) && idleTimer == old(idleTimer)
          && recalculateTimer == old(recalculateTimer) && Snapshot() == old(Snapshot())
      ensures unchanged(this`watched, this`positioningEnabled, this`quitRequested)
      ensures unchanged(this`onlinePositioningEnabled, this`onlineDataAllowed, this`cellDataAllowed, this`wlanDataAllowed, this`signalUpdateCell, this`signalUpdateWlan)
    {
      if !positioningStarted && watched != map[] && positioningEnabled {
        MarkStarted();
        CalculatePositionAndEmitLocation(env);
        StartRecalculateTimer();
      }
    }

    /**
     * YandexProvider::stopPositioningIfNeeded: stop only when started and
     * either positioning is disabled or no client is registered; then the
     * status is Unavailable and the fix-lost and recalculate timers stop.
     */
    method StopPositioningIfNeeded()
      modifies this`positioningStarted, this`status, this`signals, this`fixLostTimer, this`recalculateTimer
      ensures var stop := old(positioningStarted) && !(positioningEnabled && watched != map[]);
        if stop then
          && !positioningStarted && recalculateTimer == Stopped && Pub() == AfterStop(old(Pub()))
        else
          && positioningStarted == old(positioningStarted)
          && recalculateTimer == old(recalculateTimer) && Pub() == old(Pub())
      ensures unchanged(this`watched, this`positioningEnabled, this`idleTimer, this`quitRequested)
      ensures unchanged(this`onlinePositioningEnabled, this`onlineDataAllowed, this`cellDataAllowed, this`wlanDataAllowed, this`signalUpdateCell, this`signalUpdateWlan)
      ensures unchanged(this`current, this`last)
      ensures unchanged(this`locations, this`unknownLocations, this`searched, this`previousQuery)
    {
      if !positioningStarted {
        return;
      }
      if positioningEnabled && watched != map[] {
        return;
      }
      positioningStarted := false;
      SetStatus(Unavailable);
      fixLostTimer := Stopped;
      recalculateTimer := Stopped;
    }

    /**
     * YandexProvider::AddReference: the caller's count rises by one (its entry
     * is created if needed), the idle timer stops, and positioning starts if
     * it is enabled and not yet started.
     */
    method AddReference(client: ClientId, env: Environment)
      requires Valid()
      modifies this`watched, this`idleTimer, this`positioningStarted, this`recalculateTimer
      modifies this`previousQuery, this`locations, this`unknownLocations, this`searched
      modifies this`status, this`signals, this`fixLostTimer, this`last, this`current
      ensures Valid()
      ensures watched == AfterAddReference(old(watched), client)
      ensures idleTimer == Stopped
      ensures positioningStarted == positioningEnabled
      ensures if !old(positioningStarted) && positioningEnabled then
          && recalculateTimer == Running(EffectiveInterval(watched))
          && Snapshot() == Recalculate(dataset, onlinePositioningEnabled, cellDataAllowed, env, old(Snapshot()))
        else
          recalculateTimer == old(recalculateTimer) && Snapshot() == old(Snapshot())
      ensures unchanged(this`positioningEnabled, this`quitRequested)
      ensures unchanged(this`onlinePositioningEnabled, this`onlineDataAllowed, this`cellDataAllowed, this`wlanDataAllowed, this`signalUpdateCell, this`signalUpdateWlan)
    {
      AddKeepsActive(watched, client);
      var wasInactive := watched == map[];
      // operator[] inserts a default entry for a new client.
      var entry := Entry(watched, client);
      watched := watched[client := entry.(referenceCount := entry.referenceCount + 1)];
      if wasInactive {
        idleTimer := Stopped;
      }
      StartPositioningIfNeeded(env);
    }

    /**
     * YandexProvider::RemoveReference: a positive count drops by one and an
     * entry at zero is removed (an unknown caller's entry is created by
     * operator[] and removed again); with no client left the idle timer is
     * armed and positioning stops.
     */
    method RemoveReference(client: ClientId)
      requires Valid()
      modifies this`watched, this`idleTimer, this`positioningStarted
      modifies this`status, this`signals, this`fixLostTimer, this`recalculateTimer
      ensures Valid()
      ensures watched == AfterRemoveReference(old(watched), client)
      ensures watched == map[] ==> idleTimer == Running(QuitIdleTime)
      ensures watched != map[] ==> idleTimer == Stopped
      ensures if old(positioningStarted) && watched == map[] then
          && !positioningStarted && recalculateTimer == Stopped && Pub() == AfterStop(old(Pub()))
        else
          && positioningStarted == old(positioningStarted)
          && recalculateTimer == old(recalculateTimer) && Pub() == old(Pub())
      ensures unchanged(this`positioningEnabled, this`quitRequested)
      ensures unchanged(this`onlinePositioningEnabled, this`onlineDataAllowed, this`cellDataAllowed, this`wlanDataAllowed, this`signalUpdateCell, this`signalUpdateWlan)
      ensures unchanged(this`current, this`last)
      ensures unchanged(this`locations, this`unknownLocations, this`searched, this`previousQuery)
    {
      RemoveKeepsActive(watched, client);
      RemoveReferenceEffect(watched, client);
      // operator[] yields a default entry for an unknown caller.
      var entry := Entry(watched, client);
      if entry.referenceCount > 0 {
        entry := entry.(referenceCount := entry.referenceCount - 1);
      }
      if entry.referenceCount == 0 {
        watched := watched - {client};
      } else {
        watched := watched[client := entry];
      }
      if watched == map[] {
        idleTimer := Running(QuitIdleTime);
      } else {
        assert old(watched) != map[] by {
          var c :| c in watched;
        }
      }
      StopPositioningIfNeeded();
    }

    /**
     * YandexProvider::serviceUnregistered: a client that left the bus loses
     * its entry whatever its count; with no client left the idle timer is
     * armed and positioning stops.
     */
    method ServiceUnregistered(client: ClientId)
      requires Valid()
      modifies this`watched, this`idleTimer, this`positioningStarted
      modifies this`status, this`signals, this`fixLostTimer, this`recalculateTimer
      ensures Valid()
      ensures watched == old(watched) - {client}
      ensures watched == map[] ==> idleTimer == Running(QuitIdleTime)
      ensures watched != map[] ==> idleTimer == Stopped
      ensures if old(positioningStarted) && watched == map[] then
          && !positioningStarted && recalculateTimer == Stopped && Pub() == AfterStop(old(Pub()))
        else
          && positioningStarted == old(positioningStarted)
          && recalculateTimer == old(recalculateTimer) && Pub() == old(Pub())
      ensures unchanged(this`positioningEnabled, this`quitRequested)
      ensures unchanged(this`onlinePositioningEnabled, this`onlineDataAllowed, this`cellDataAllowed, this`wlanDataAllowed, this`signalUpdateCell, this`signalUpdateWlan)
      ensures unchanged(this`current, this`last)
      ensures unchanged(this`locations, this`unknownLocations, this`searched, this`previousQuery)
    {
      watched := watched - {client};
      if watched == map[] {
        idleTimer := Running(QuitIdleTime);
      } else {
        assert old(watched) != map[] by {
          var c :| c in watched;
        }
      }
      StopPositioningIfNeeded();
    }

    /**
     * YandexProvider::SetOptions: rejected for a caller without an entry;
     * otherwise an UpdateInterval option is stored and the recalculate timer
     * is restarted at the effective interval, whether or not positioning runs.
     */
    method SetOptions(client: ClientId, updateInterval: Option<uint32>)
      requires Valid()
      modifies this`watched, this`recalculateTimer
      ensures Valid()
      ensures client !in old(watched) || updateInterval.None? ==>
        watched == old(watched) && recalculateTimer == old(recalculateTimer)
      ensures client in old(watched) && updateInterval.Some? ==>
        && watched == old(watched)[client := old(watched)[client].(updateInterval := updateInterval.value)]
        && recalculateTimer == Running(EffectiveInterval(watched))
      ensures unchanged(this`positioningEnabled, this`positioningStarted, this`idleTimer, this`quitRequested)
      ensures unchanged(this`onlinePositioningEnabled, this`onlineDataAllowed, this`cellDataAllowed, this`wlanDataAllowed, this`signalUpdateCell, this`signalUpdateWlan)
      ensures unchanged(this`status, this`current, this`last, this`fixLostTimer, this`signals)
      ensures unchanged(this`locations, this`unknownLocations, this`searched, this`previousQuery)
    {
      if client !in watched {
        // Only active users can call SetOptions.
        return;
      }
      if updateInterval.Some? {
        watched := watched[client := watched[client].(updateInterval := updateInterval.value)];
        StartRecalculateTimer();
      }
    }

    /**
     * YandexProvider::updatePositioningEnabled: take the flags from the
     * settings; when the gate opens, start positioning; when it closes,
     * publish the empty fix and stop positioning.
     */
    method UpdatePositioningEnabled(settings: SettingsSnapshot, env: Environment)
      requires Valid()
      modifies this`onlinePositioningEnabled, this`onlineDataAllowed, this`cellDataAllowed, this`wlanDataAllowed
      modifies this`positioningEnabled, this`idleTimer, this`positioningStarted, this`recalculateTimer
      modifies this`previousQuery, this`locations, this`unknownLocations, this`searched
      modifies this`status, this`signals, this`fixLostTimer, this`last, this`current
      ensures Valid()
      ensures var f := GetEnabled(settings);
        && onlinePositioningEnabled == f.onlinePositioning
        && onlineDataAllowed == f.onlineDataAllowed
        && cellDataAllowed == f.cellDataAllowed
        && wlanDataAllowed == f.wlanDataAllowed
        && positioningEnabled == PositioningEnabled(f)
      ensures idleTimer == old(idleTimer)
      ensures positioningEnabled == old(positioningEnabled) ==>
        && positioningStarted == old(positioningStarted)
        && recalculateTimer == old(recalculateTimer) && Snapshot() == old(Snapshot())
      ensures positioningEnabled && !old(positioningEnabled) ==>
        if watched != map[] then
          && positioningStarted
          && recalculateTimer == Running(EffectiveInterval(watched))
          && Snapshot() == Recalculate(dataset, onlinePositioningEnabled, cellDataAllowed, env, old(Snapshot()))
        else
          && !positioningStarted
          && recalculateTimer == old(recalculateTimer) && Snapshot() == old(Snapshot())
      ensures !positioningEnabled && old(positioningEnabled) ==>
        && !positioningStarted
        && if old(positioningStarted) then
             && recalculateTimer == Stopped
             && Snapshot() == old(Snapshot()).(pub := AfterStop(AfterSetLocation(old(Pub()), NoFix)))
           else
             && recalculateTimer == old(recalculateTimer)
             && Snapshot() == old(Snapshot()).(pub := AfterSetLocation(old(Pub()), NoFix))
      ensures unchanged(this`watched, this`quitRequested)
      ensures unchanged(this`signalUpdateCell, this`signalUpdateWlan)
    {
      var flags := GetEnabled(settings);
      StoreFlags(flags);

      var previous := positioningEnabled;
      var enabled := PositioningEnabled(flags);
      if previous == enabled {
        return;
      }
      if enabled {
        EnablePositioning(env);
      } else {
        DisablePositioning();
      }
    }

    /** The data-source and online flags of updatePositioningEnabled, stored as read. */
    method StoreFlags(flags: EnabledFlags)
      modifies this`onlinePositioningEnabled, this`onlineDataAllowed, this`cellDataAllowed, this`wlanDataAllowed
      ensures onlinePositioningEnabled == flags.onlinePositioning && onlineDataAllowed == flags.onlineDataAllowed
      ensures cellDataAllowed == flags.cellDataAllowed && wlanDataAllowed == flags.wlanDataAllowed
      ensures unchanged(this`watched, this`positioningEnabled, this`positioningStarted, this`idleTimer, this`recalculateTimer, this`quitRequested)
      ensures unchanged(this`signalUpdateCell, this`signalUpdateWlan)
      ensures unchanged(this`status, this`current, this`last, this`fixLostTimer, this`signals)
      ensures unchanged(this`locations, this`unknownLocations, this`searched, this`previousQuery)
    {
      onlinePositioningEnabled := flags.onlinePositioning;
      onlineDataAllowed := flags.onlineDataAllowed;
      cellDataAllowed := flags.cellDataAllowed;
      wlanDataAllowed := flags.wlanDataAllowed;
    }

    /** The gate opening in updatePositioningEnabled: start positioning if some client is registered. */
    method EnablePositioning(env: Environment)
      requires Valid() && !positioningEnabled
      modifies this`positioningEnabled, this`idleTimer, this`positioningStarted, this`recalculateTimer
      modifies this`previousQuery, this`locations, this`unknownLocations, this`searched
      modifies this`status, this`signals, this`fixLostTimer, this`last, this`current
      ensures Valid() && positioningEnabled
      ensures idleTimer == old(idleTimer)
      ensures unchanged(this`onlinePositioningEnabled, this`onlineDataAllowed, this`cellDataAllowed, this`wlanDataAllowed)
      ensures unchanged(this`watched, this`quitRequested, this`signalUpdateCell, this`signalUpdateWlan)
      ensures if watched != map[] then
          && positioningStarted
          && recalculateTimer == Running(EffectiveInterval(watched))
          && Snapshot() == Recalculate(dataset, onlinePositioningEnabled, cellDataAllowed, env, old(Snapshot()))
        else
          && !positioningStarted
          && recalculateTimer == old(recalculateTimer) && Snapshot() == old(Snapshot())
    {
      positioningEnabled := true;
      StartPositioningIfNeeded(env);
    }

    /**
     * The gate closing in updatePositioningEnabled: publish the empty fix,
     * then stop positioning if it runs.
     */
    method DisablePositioning()
      requires Valid() && positioningEnabled
      modifies this`positioningEnabled, this`positioningStarted, this`recalculateTimer
      modifies this`status, this`signals, this`fixLostTimer, this`last, this`current
      ensures Valid() && !positioningEnabled && !positioningStarted
      ensures idleTimer == old(idleTimer)
      ensures unchanged(this`onlinePositioningEnabled, this`onlineDataAllowed, this`cellDataAllowed, this`wlanDataAllowed)
      ensures unchanged(this`watched, this`quitRequested, this`signalUpdateCell, this`signalUpdateWlan)
      ensures unchanged(this`locations, this`unknownLocations, this`searched, this`previousQuery)
      ensures if old(positioningStarted) then
          && recalculateTimer == Stopped
          && Snapshot() == old(Snapshot()).(pub := AfterStop(AfterSetLocation(old(Pub()), NoFix)))
        else
          && recalculateTimer == old(recalculateTimer)
          && Snapshot() == old(Snapshot()).(pub := AfterSetLocation(old(Pub()), NoFix))
    {
      positioningEnabled := false;
      SetLocation(NoFix);
      StopPositioningIfNeeded();
    }

    /** A timer event matches a timer only while that timer runs. */
    ghost predicate Fires(kind: TimerKind)
      reads this
    {
      || (kind == IdleTimer && idleTimer.Running?)
      || (kind == FixLostTimer && fixLostTimer.Running?)
      || (kind == RecalculateTimer && recalculateTimer.Running?)
    }

    /**
     * YandexProvider::timerEvent. Idle timer: stop it and quit. Fix-lost
     * timer: stop it and become Acquiring. Recalculate timer: see
     * RecalculateTimerStep.
     */
    method TimerEvent(kind: TimerKind, env: Environment)
      requires Valid()
      modifies this`idleTimer, this`quitRequested, this`signalUpdateCell, this`signalUpdateWlan
      modifies this`previousQuery, this`locations, this`unknownLocations, this`searched
      modifies this`status, this`signals, this`fixLostTimer, this`last, this`current
      ensures Valid()
      ensures !old(Fires(kind)) ==> unchanged(this)
      ensures old(Fires(kind)) && kind == IdleTimer ==>
        && idleTimer == Stopped && quitRequested
        && signalUpdateCell == old(signalUpdateCell) && signalUpdateWlan == old(signalUpdateWlan)
        && Snapshot() == old(Snapshot())
      ensures old(Fires(kind)) && kind == FixLostTimer ==>
        && idleTimer == old(idleTimer) && quitRequested == old(quitRequested)
        && signalUpdateCell == old(signalUpdateCell) && signalUpdateWlan == old(signalUpdateWlan)
        && Snapshot() == old(Snapshot()).(pub := AfterFixLost(old(Pub())))
      ensures old(Fires(kind)) && kind == RecalculateTimer ==>
        && idleTimer == old(idleTimer) && quitRequested == old(quitRequested)
        && RecalculateTimerStep(dataset, positioningEnabled, onlinePositioningEnabled, cellDataAllowed, env,
             old(signalUpdateCell), old(signalUpdateWlan), old(Snapshot()), signalUpdateCell, signalUpdateWlan, Snapshot())
    {
      // A stopped QBasicTimer has no id, so no event matches it.
      if kind == IdleTimer && idleTimer.Running? {
        IdleTimeout();
      } else if kind == FixLostTimer && fixLostTimer.Running? {
        FixLostTimeout();
      } else if kind == RecalculateTimer && recalculateTimer.Running? {
        RecalculateTimeout(env);
      }
    }

    /** The idle-timer branch of YandexProvider::timerEvent: stop the timer and quit. */
    method IdleTimeout()
      requires Valid()
      modifies this`idleTimer, this`quitRequested
      ensures Valid()
      ensures idleTimer == Stopped && quitRequested
      ensures unchanged(this`watched, this`positioningEnabled, this`positioningStarted, this`recalculateTimer)
      ensures unchanged(this`onlinePositioningEnabled, this`onlineDataAllowed, this`cellDataAllowed, this`wlanDataAllowed, this`signalUpdateCell, this`signalUpdateWlan)
      ensures unchanged(this`status, this`current, this`last, this`fixLostTimer, this`signals)
      ensures unchanged(this`locations, this`unknownLocations, this`searched, this`previousQuery)
    {
      idleTimer := Stopped;
      // Idle for too long: quit.
      quitRequested := true;
    }

    /** The fix-lost-timer branch of YandexProvider::timerEvent: stop the timer and become Acquiring. */
    method FixLostTimeout()
      requires Valid()
      modifies this`fixLostTimer, this`status, this`signals
      ensures Valid()
      ensures Snapshot() == old(Snapshot()).(pub := AfterFixLost(old(Pub())))
      ensures unchanged(this`watched, this`positioningEnabled, this`positioningStarted, this`idleTimer, this`recalculateTimer, this`quitRequested)
      ensures unchanged(this`onlinePositioningEnabled, this`onlineDataAllowed, this`cellDataAllowed, this`wlanDataAllowed, this`signalUpdateCell, this`signalUpdateWlan)
      ensures unchanged(this`current, this`last)
      ensures unchanged(this`locations, this`unknownLocations, this`searched, this`previousQuery)
    {
      fixLostTimer := Stopped;
      SetStatus(Acquiring);
    }

    /** The recalculate-timer branch of YandexProvider::timerEvent. */
    method RecalculateTimeout(env: Environment)
      requires StateValid()
      modifies this`signalUpdateCell, this`signalUpdateWlan
      modifies this`previousQuery, this`locations, this`unknownLocations, this`searched
      modifies this`status, this`signals, this`fixLostTimer, this`last, this`current
      ensures StateValid()
      ensures unchanged(this`watched, this`idleTimer, this`quitRequested, this`positioningEnabled)
      ensures unchanged(this`positioningStarted, this`recalculateTimer)
      ensures RecalculateTimerStep(dataset, positioningEnabled, onlinePositioningEnabled, cellDataAllowed, env,
        old(signalUpdateCell), old(signalUpdateWlan), old(Snapshot()), signalUpdateCell, signalUpdateWlan, Snapshot())
    {
      if !positioningEnabled {
        // Positioning is disabled: no calculation.
      } else if current.timestamp == 0
        || env.now - current.timestamp > ReuseInterval
        || signalUpdateCell || signalUpdateWlan
      {
        Recompute(env);
      } else {
        // Re-use the current fix.
        SetLocation(current);
      }
    }

    /** The recomputing branch of the recalculate timer: clear the change flags, then recompute. */
    method Recompute(env: Environment)
      requires StateValid()
      modifies this`signalUpdateCell, this`signalUpdateWlan
      modifies this`previousQuery, this`locations, this`unknownLocations, this`searched
      modifies this`status, this`signals, this`fixLostTimer, this`last, this`current
      ensures StateValid()
      ensures !signalUpdateCell && !signalUpdateWlan
      ensures Snapshot() == Recalculate(dataset, onlinePositioningEnabled, cellDataAllowed, env, old(Snapshot()))
      ensures unchanged(this`watched, this`positioningEnabled, this`positioningStarted, this`idleTimer, this`recalculateTimer, this`quitRequested)
      ensures unchanged(this`onlinePositioningEnabled, this`onlineDataAllowed, this`cellDataAllowed, this`wlanDataAllowed)
    {
      signalUpdateCell := false;
      signalUpdateWlan := false;
      CalculatePositionAndEmitLocation(env);
    }

    /** YandexProvider::onlineWlanChanged: the next recalculation recomputes. */
    method OnlineWlanChanged()
      modifies this`signalUpdateWlan
      ensures signalUpdateWlan
      ensures unchanged(this`watched, this`positioningEnabled, this`positioningStarted, this`idleTimer, this`recalculateTimer, this`quitRequested)
      ensures unchanged(this`onlinePositioningEnabled, this`onlineDataAllowed, this`cellDataAllowed, this`wlanDataAllowed, this`signalUpdateCell)
      ensures unchanged(this`status, this`current, this`last, this`fixLostTimer, this`signals)
      ensures unchanged(this`locations, this`unknownLocations, this`searched, this`previousQuery)
    {
      signalUpdateWlan := true;
    }

    /** YandexProvider::cellularNetworkRegistrationChanged: the next recalculation recomputes. */
    method CellularNetworkRegistrationChanged()
      modifies this`signalUpdateCell
      ensures signalUpdateCell
      ensures unchanged(this`watched, this`positioningEnabled, this`positioningStarted, this`idleTimer, this`recalculateTimer, this`quitRequested)
      ensures unchanged(this`onlinePositioningEnabled, this`onlineDataAllowed, this`cellDataAllowed, this`wlanDataAllowed, this`signalUpdateWlan)
      ensures unchanged(this`status, this`current, this`last, this`fixLostTimer, this`signals)
      ensures unchanged(this`locations, this`unknownLocations, this`searched, this`previousQuery)
    {
      signalUpdateCell := true;
    }

    /**
     * YandexProvider::onlineLocationFound: publish the online fix stamped now,
     * with no supersession check.
     */
    method OnlineLocationFound(coords: Coords, accuracy: real, now: int)
      requires Valid()
      modifies this`status, this`signals, this`fixLostTimer, this`last, this`current
      ensures Valid()
      ensures Pub() == AfterSetLocation(old(Pub()), Fix(now, Reported(coords), Horizontal(accuracy)))
      ensures unchanged(this`watched, this`positioningEnabled, this`positioningStarted, this`idleTimer, this`recalculateTimer, this`quitRequested)
      ensures unchanged(this`onlinePositioningEnabled, this`onlineDataAllowed, this`cellDataAllowed, this`wlanDataAllowed, this`signalUpdateCell, this`signalUpdateWlan)
      ensures unchanged(this`locations, this`unknownLocations, this`searched, this`previousQuery)
    {
      var deviceLocation := Fix(now, Reported(coords), Horizontal(accuracy));
      SetLocation(deviceLocation);
    }

    /** YandexProvider::onlineLocationError: fall back to the offline estimate. */
    method OnlineLocationError(env: Environment)
      requires Valid()
      modifies this`locations, this`unknownLocations, this`searched
      modifies this`status, this`signals, this`fixLostTimer, this`last, this`current
      ensures Valid()
      ensures Snapshot() == OfflineResult(dataset, SeenCells(cellDataAllowed, env.visibleCells), env.now, old(Snapshot()))
      ensures unchanged(this`watched, this`positioningEnabled, this`positioningStarted, this`idleTimer, this`recalculateTimer, this`quitRequested)
      ensures unchanged(this`onlinePositioningEnabled, this`onlineDataAllowed, this`cellDataAllowed, this`wlanDataAllowed, this`signalUpdateCell, this`signalUpdateWlan)
      ensures unchanged(this`previousQuery)
    {
      var cells := SeenCellIds(cellDataAllowed, env.visibleCells);
      UpdateLocationFromCells(cells, env.now);
    }
  }

  /** startPositioningIfNeeded is idempotent: a second call changes nothing. */
  method StartTwice(p: YandexProvider, env: Environment)
    requires p.StateValid()
    modifies p
    ensures p.StateValid()
    ensures var start := !old(p.positioningStarted) && p.watched != map[] && p.positioningEnabled;
      if start then
        && p.positioningStarted && p.idleTimer == Stopped
        && p.recalculateTimer == Running(EffectiveInterval(p.watched))
        && p.Snapshot() == Recalculate(p.dataset, p.onlinePositioningEnabled, p.cellDataAllowed, env, old(p.Snapshot()))
      else
        && p.positioningStarted == old(p.positioningStarted) && p.idleTimer == old(p.idleTimer)
        && p.recalculateTimer == old(p.recalculateTimer) && p.Snapshot() == old(p.Snapshot())
  {
    p.StartPositioningIfNeeded(env);
    p.StartPositioningIfNeeded(env);
  }

  /** stopPositioningIfNeeded is idempotent: a second call changes nothing. */
  method StopTwice(p: YandexProvider)
    modifies p
    ensures var stop := old(p.positioningStarted) && !(p.positioningEnabled && p.watched != map[]);
      if stop then
        && !p.positioningStarted && p.recalculateTimer == Stopped && p.Pub() == AfterStop(old(p.Pub()))
      else
        && p.positioningStarted == old(p.positioningStarted)
        && p.recalculateTimer == old(p.recalculateTimer) && p.Pub() == old(p.Pub())
  {
    p.StopPositioningIfNeeded();
    p.StopPositioningIfNeeded();
  }

  /**
   * Two references taken and released by one client on an idle provider leave
   * no client, the idle timer armed and positioning stopped.
   */
  method ReferenceRoundTrip(p: YandexProvider, client: ClientId, env: Environment)
    requires p.Valid() && p.watched == map[]
    modifies p
    ensures p.Valid()
    ensures p.watched == map[] && p.idleTimer == Running(QuitIdleTime) && !p.positioningStarted
  {
    p.AddReference(client, env);
    p.AddReference(client, env);
    p.RemoveReference(client);
    p.RemoveReference(client);
    RemoveUndoesAdd(AfterAddReference(map[], client), client);
    RemoveUndoesAdd(map[], client);
  }
}
