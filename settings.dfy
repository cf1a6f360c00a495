/**
 * The location settings as the provider reads them (YandexProvider::getEnabled),
 * taken as a snapshot: each key is absent (None) or holds a boolean.
 */
module Settings {
  import opened Basics

  datatype SettingsSnapshot = SettingsSnapshot(
    enabled: Option<bool>,                    // location/enabled
    mlsEnabled: Option<bool>,                 // location/mls/enabled
    cellIdPositioningEnabled: Option<bool>,   // location/cell_id_positioning_enabled (deprecated)
    mlsOnlineEnabled: Option<bool>,           // location/mls/online_enabled
    onlineAllowed: Option<bool>,              // location/allowed_data_sources/online
    cellDataAllowed: Option<bool>,            // location/allowed_data_sources/cell_data
    wlanDataAllowed: Option<bool>)            // location/allowed_data_sources/wlan_data

  datatype EnabledFlags = EnabledFlags(
    positioning: bool,
    cellPositioning: bool,
    onlinePositioning: bool,
    onlineDataAllowed: bool,
    cellDataAllowed: bool,
    wlanDataAllowed: bool)

  function ValueOr(o: Option<bool>, default: bool): (b: bool) {
    if o.Some? then o.value else default
  }

  /**
   * Derive the flags: positioning is off unless enabled; cell positioning needs
   * positioning and either MLS key; online positioning needs cell positioning;
   * every data source is allowed unless forbidden.
   */
  function GetEnabled(s: SettingsSnapshot): (f: EnabledFlags)
    ensures f.cellPositioning ==> f.positioning
    ensures f.onlinePositioning ==> f.cellPositioning
    ensures f.positioning <==> s.enabled == Some(true)
    ensures f.cellPositioning <==>
      f.positioning && (s.mlsEnabled == Some(true) || s.cellIdPositioningEnabled == Some(true))
    ensures f.onlinePositioning <==> f.cellPositioning && s.mlsOnlineEnabled == Some(true)
    ensures f.onlineDataAllowed <==> s.onlineAllowed != Some(false)
    ensures f.cellDataAllowed <==> s.cellDataAllowed != Some(false)
    ensures f.wlanDataAllowed <==> s.wlanDataAllowed != Some(false)
  {
    var positioning := ValueOr(s.enabled, false);
    var cellPositioning := positioning
      && (ValueOr(s.mlsEnabled, false) || ValueOr(s.cellIdPositioningEnabled, false));
    var onlinePositioning := cellPositioning && ValueOr(s.mlsOnlineEnabled, false);
    EnabledFlags(positioning, cellPositioning, onlinePositioning,
                 ValueOr(s.onlineAllowed, true),
                 ValueOr(s.cellDataAllowed, true),
                 ValueOr(s.wlanDataAllowed, true))
  }

  /** Positioning runs when both positioning and cell positioning are enabled. */
  function PositioningEnabled(f: EnabledFlags): bool {
    f.positioning && f.cellPositioning
  }

  /** The gate reduces to cell positioning, and is closed by default. */
  lemma GateIsCellPositioning(s: SettingsSnapshot)
    ensures PositioningEnabled(GetEnabled(s)) == GetEnabled(s).cellPositioning
    ensures s.enabled != Some(true) ==> !PositioningEnabled(GetEnabled(s))
  {
  }
}
