/**
 * `ABuildingEnergyDisplay` as a class. Its fields are those of the header, grouped as the header
 * groups them (the records of `DisplaySteps`). The function-local statics live in a
 * `DisplayStatics` object that every display shares, and each handler is a method that updates
 * the fields in place. Every method is proved to do what the matching step function says, so the
 * properties in `DisplayProperties` hold of the class.
 */
module EnergyDisplay {
  import opened Wrappers
  import opened UnrealString
  import opened CaseInsensitiveMap
  import opened Identifiers
  import opened Spatial
  import opened CesiumStyle
  import opened EnergyFeed
  import opened DisplaySteps

  /**
   * The function-local statics of the handlers. C++ keeps each of them once per process, so all
   * display actors share one object.
   */
  class DisplayStatics {
    var preload: PreloadStatics
    var auth: AuthStatics
    /** `LastProcessedId` and `LastCallTime` of `OnBuildingClicked`. */
    var click: Debounce
    /** `LastFormId` and `LastFormTime` of `ShowBuildingAttributesForm`. */
    var form: Debounce
    /** `PrimaryInstance` of `ShowBuildingInfoWidget`: the first display that showed anything. */
    var primaryInstance: BuildingEnergyDisplay?

    function View(): Shared
      reads this
    {
      Shared(preload, auth, click, form)
    }

    /** Every static starts false, zero, empty or null. */
    constructor ()
      ensures View() == InitialShared && primaryInstance == null
    {
      preload := InitialShared.preload;
      auth := InitialShared.auth;
      click, form := InitialShared.click, InitialShared.form;
      primaryInstance := null;
    }
  }

  /** The first candidate actor is the one at `i` when it is a candidate and none before it is. */
  lemma FirstCandidateIs(actors: seq<SceneActor>, tilesetName: string, i: nat)
    requires i < |actors| && IsTilesetCandidate(actors[i], tilesetName)
    requires forall j :: 0 <= j < i ==> !IsTilesetCandidate(actors[j], tilesetName)
    ensures FirstCandidate(actors, tilesetName) == Some(i)
  {
    var r := FirstCandidate(actors, tilesetName);
    assert r.Some? && r.value == i;
  }

  class BuildingEnergyDisplay {
    /** The data, colour, alias and coordinate caches and the two change-detection snapshots. */
    var caches: Caches
    /** The tokens, the loading flags and the building last asked for by the attributes form. */
    var session: Session
    /** Real-time monitoring, adaptive polling and the tileset re-styling time. */
    var monitor: Monitor
    /** The energy socket and its REST polling fallback. */
    var link: Link
    /** The building on display and the one last displayed or opened. */
    var selection: Selection
    /** What the level sets up: the tileset name and override, the actors, the form widget class. */
    var world: World
    /** What the handlers caused outside the actor, in order. */
    var effects: seq<Effect>
    /** The statics, shared with every other display. */
    const statics: DisplayStatics

    /** The fields as the step functions see them. */
    function View(): DisplayView
      reads this
    {
      DisplayView(caches, session, monitor, link, selection, world, effects)
    }

    /** The fields and the statics together. */
    function System(): System
      reads this, statics
    {
      DisplaySteps.System(View(), statics.View())
    }

    /** Whether `ShowBuildingInfoWidget` lets this display show anything, now or from now on. */
    predicate IsPrimary()
      reads this, statics
    {
      statics.primaryInstance == null || statics.primaryInstance == this
    }

    /** The primary instance after a handler that calls `ShowBuildingInfoWidget` exactly when `shows`. */
    function PrimaryAfter(shows: bool): BuildingEnergyDisplay?
      reads this, statics
    {
      if shows && statics.primaryInstance == null then this else statics.primaryInstance
    }

    /** The header's initialisers; the level provides the actors and the form widget class. */
    constructor (s: DisplayStatics, actors: seq<SceneActor>, formClassSet: bool)
      ensures View() == InitialView(actors, formClassSet) && statics == s
    {
      var v := InitialView(actors, formClassSet);
      caches, session, monitor, link := v.caches, v.session, v.monitor, v.link;
      selection, world, effects := v.selection, v.world, [];
      statics := s;
    }

    // -------------------------------------------------------------------
    // Tileset resolution and styling
    // -------------------------------------------------------------------

    /** `ResolveBuildingsTilesetActor`: the override, else the first tileset actor the name matches. */
    method ResolveBuildingsTilesetActor() returns (r: Option<SceneActor>)
      ensures r == ResolveTileset(world)
    {
      if world.tilesetOverride.Some? {
        return world.tilesetOverride;
      }
      var target := Fold(world.tilesetName);
      if |target| == 0 {
        return None;
      }
      var actors := world.actors;
      var i := 0;
      while i < |actors|
        invariant 0 <= i <= |actors|
        invariant forall j :: 0 <= j < i ==> !IsTilesetCandidate(actors[j], world.tilesetName)
      {
        var a := actors[i];
        if Contains(a.className, "Cesium3DTileset") && IsTargetBuildingsTileset(Some(a.ref), None, world.tilesetName) {
          FirstCandidateIs(actors, world.tilesetName, i);
          return Some(a);
        }
        i := i + 1;
      }
      return None;
    }

    /** `ApplyColorsUsingCesiumStyling`. */
    method ApplyColorsUsingCesiumStyling()
      modifies this
      ensures View() == StyleStep(old(View()))
    {
      if |caches.colors| == 0 {
        return;
      }
      var actor := ResolveBuildingsTilesetActor();
      if actor.None? || !actor.value.hasTilesetComponent {
        return;
      }
      var style := BuildCesiumStyleJsonFromCache(caches.colors);
      if !actor.value.hasSetStyle {
        return;
      }
      effects := effects + [StyleApplied(style)];
    }

    /** `OnCesiumTilesetRefresh` at world time `worldTime`. */
    method OnCesiumTilesetRefresh(worldTime: real)
      modifies this
      ensures View() == TilesetRefreshStep(old(View()), worldTime)
    {
      if |caches.colors| == 0 {
        return;
      }
      var actor := ResolveBuildingsTilesetActor();
      if actor.None? {
        return;
      }
      if monitor.lastColorReapplyTime >= 0.0 && worldTime - monitor.lastColorReapplyTime < 4.0 {
        return;
      }
      monitor := monitor.(lastColorReapplyTime := worldTime);
      ApplyColorsUsingCesiumStyling();
    }

    // -------------------------------------------------------------------
    // Tick and the socket
    // -------------------------------------------------------------------

    /** `FetchUpdatedEnergyData`. */
    method FetchUpdatedEnergyData()
      modifies this
      ensures View() == FetchStep(old(View()))
    {
      if |session.accessToken| == 0 {
        return;
      }
      link := link.(updateCounter := link.updateCounter + 1);
      effects := effects + [EnergyUpdateRequest(session.accessToken)];
    }

    /** `ConnectEnergyWebSocket`. */
    method ConnectEnergyWebSocket()
      modifies this
      ensures View() == ConnectStep(old(View()))
    {
      if |link.url| == 0 {
        if |session.accessToken| == 0 {
          session := session.(authMessageShown := true);
          return;
        }
        link := link.(connected := true, reconnectTimer := 0.0);
        FetchUpdatedEnergyData();
        return;
      }
      if link.connected && link.valid {
        return;
      }
      if link.valid {
        link := link.(valid := false);
        effects := effects + [SocketClosed];
      }
      if |session.accessToken| == 0 {
        session := session.(authMessageShown := true);
        return;
      }
      link := link.(valid := true);
      effects := effects + [SocketOpened(link.url, session.accessToken)];
    }

    /** `DisconnectEnergyWebSocket`. */
    method DisconnectEnergyWebSocket()
      modifies this
      ensures View() == DisconnectStep(old(View()))
    {
      if link.valid {
        effects := effects + [SocketClosed];
      }
      link := link.(connected := false, valid := false);
    }

    /** `PerformRealTimeDataCheck`; `sent` says whether the request went out. */
    method PerformRealTimeDataCheck(sent: bool)
      modifies this
      ensures View() == CheckStep(old(View()), sent)
    {
      if monitor.performing {
        return;
      }
      monitor := monitor.(performing := true);
      if !sent {
        monitor := monitor.(performing := false);
        return;
      }
      effects := effects + [RealTimeCheckRequest(session.accessToken)];
    }

    /** The socket half of `Tick`. */
    method TickSocket(dt: real)
      modifies this
      ensures View() == SocketTick(old(View()), dt)
    {
      if link.connected && |link.url| == 0 {
        link := link.(reconnectTimer := link.reconnectTimer + dt);
        if link.reconnectTimer >= link.reconnectInterval {
          link := link.(reconnectTimer := 0.0);
          FetchUpdatedEnergyData();
        }
      } else if link.autoReconnect && !link.connected && !link.valid {
        link := link.(reconnectTimer := link.reconnectTimer + dt);
        if link.reconnectTimer >= link.reconnectInterval {
          link := link.(reconnectTimer := 0.0);
          ConnectEnergyWebSocket();
        }
      }
    }

    /** The monitoring half of `Tick`. */
    method TickMonitor(dt: real, sent: bool)
      modifies this
      ensures View() == MonitorTick(old(View()), dt, sent)
    {
      if monitor.enabled && !monitor.performing {
        monitor := monitor.(timer := monitor.timer + dt);
        if monitor.timer >= monitor.polling.interval {
          monitor := monitor.(timer := 0.0);
          if |session.accessToken| > 0 && session.dataLoaded {
            PerformRealTimeDataCheck(sent);
          }
        }
      }
    }

    /** `Tick(dt)`; `sent` says whether a real-time check it starts gets under way. */
    method Tick(dt: real, sent: bool)
      modifies this
      ensures View() == TickStep(old(View()), dt, sent)
    {
      TickSocket(dt);
      TickMonitor(dt, sent);
    }

    // -------------------------------------------------------------------
    // Monitoring controls and adaptive polling
    // -------------------------------------------------------------------

    /** `StartRealTimeMonitoring`. */
    method StartRealTimeMonitoring()
      modifies this
      ensures View() == StartMonitoringStep(old(View()))
    {
      var p := monitor.polling;
      monitor := monitor.(enabled := true, timer := 0.0,
                          polling := p.(noChanges := 0, interval := if p.enhanced then p.fast else p.interval));
      caches := caches.(dataSnapshot := caches.data, colorSnapshot := caches.colors);
    }

    /** `StopRealTimeMonitoring`. */
    method StopRealTimeMonitoring()
      modifies this
      ensures View() == StopMonitoringStep(old(View()))
    {
      monitor := monitor.(enabled := false, performing := false, polling := monitor.polling.(noChanges := 0));
    }

    /** `SetRealTimeUpdateInterval(seconds)`. */
    method SetRealTimeUpdateInterval(seconds: real)
      modifies this
      ensures View() == SetIntervalStep(old(View()), seconds)
    {
      var interval := seconds;
      if seconds < 0.5 {
        interval := 0.5;
      } else if seconds > 60.0 {
        interval := 60.0;
      }
      monitor := monitor.(polling := monitor.polling.(interval := interval));
    }

    /** `EnableEnhancedPolling(enable)`. */
    method EnableEnhancedPolling(enable: bool)
      modifies this
      ensures View() == EnableEnhancedStep(old(View()), enable)
    {
      monitor := monitor.(polling := monitor.polling.(enhanced := enable, noChanges := 0));
      if enable {
        monitor := monitor.(polling := monitor.polling.(interval := monitor.polling.fast));
      }
    }

    /** `UpdatePollingStrategy(changed)`. */
    method UpdatePollingStrategy(changed: bool)
      modifies this
      ensures View() == old(View()).(monitor := old(monitor).(polling := NextPolling(old(monitor.polling), changed)))
    {
      var p := monitor.polling;
      if !p.enhanced {
        return;
      }
      if changed {
        p := p.(noChanges := 0, interval := p.fast);
      } else {
        p := p.(noChanges := p.noChanges + 1);
        if p.noChanges >= p.threshold {
          p := p.(interval := p.slow);
        } else {
          p := p.(interval := p.fast);
        }
      }
      monitor := monitor.(polling := p);
    }

    // -------------------------------------------------------------------
    // Loading the caches
    // -------------------------------------------------------------------

    /** `PreloadAllBuildingData(token)` at time `now`. */
    method PreloadAllBuildingData(token: string, now: real)
      modifies this, statics
      ensures System() == PreloadStep(old(View()), old(statics.View()), token, now)
      ensures statics.primaryInstance == old(statics.primaryInstance)
    {
      if now - statics.preload.lastCallTime > 3.0 {
        statics.preload := statics.preload.(inProgress := false);
      }
      if statics.preload.inProgress {
        return;
      }
      statics.preload := statics.preload.(inProgress := true, lastCallTime := now);
      caches := caches.(data := [], gmlIds := []);
      session := session.(accessToken := token, isLoading := true, dataLoaded := false);
      if |token| == 0 {
        session := session.(isLoading := false);
        return;
      }
      effects := effects + [PreloadRequest(token)];
    }

    /** `CleanDuplicateColorCacheEntries`: rebuilds the colour cache, keeping the first entry per key. */
    method CleanDuplicateColorCacheEntries()
      modifies this
      ensures View() == old(View()).(caches := old(caches).(colors := Dedup(old(caches.colors))))
      ensures UniqueKeys(caches.colors)
    {
      var colors := caches.colors;
      var cleaned: ColorCache := [];
      var i := 0;
      while i < |colors|
        invariant 0 <= i <= |colors|
        invariant cleaned == Dedup(colors[..i])
      {
        assert colors[..i + 1][..i] == colors[..i];
        var e := colors[i];
        if !ContainsKey(cleaned, e.0) {
          cleaned := Add(cleaned, e.0, e.1);
        }
        i := i + 1;
      }
      assert colors[..i] == colors;
      DedupUnique(colors);
      caches := caches.(colors := cleaned);
    }

    /** The four caches after the `ParseAndCacheAllBuildings` loop over `items`. */
    method IngestBuildings(items: seq<Option<BuildingRecord>>, c: Codecs)
      modifies this
      ensures View() == old(View()).(caches := ApplyStores(old(caches), IngestAll(StoresOf(old(caches)), items, c)))
    {
      var st := StoresOf(caches);
      ghost var start := st;
      var i := 0;
      while i < |items|
        invariant 0 <= i <= |items|
        invariant st == IngestAll(start, items[..i], c)
      {
        assert items[..i + 1][..i] == items[..i];
        match items[i] {
          case Some(b) =>
            st := IngestBuilding(st, b, c);
          case None =>
        }
        i := i + 1;
      }
      assert items[..i] == items;
      caches := ApplyStores(caches, st);
    }

    /** `ParseAndCacheAllBuildings`; `body` is `None` for text that is not JSON. */
    method ParseAndCacheAllBuildings(body: Option<seq<Option<BuildingRecord>>>, c: Codecs)
      modifies this, statics
      ensures System() == ParseStep(old(View()), old(statics.View()), body, c)
      ensures statics.primaryInstance == old(statics.primaryInstance)
    {
      if body.None? {
        return;
      }
      IngestBuildings(body.value, c);
      session := session.(dataLoaded := true);
      CleanDuplicateColorCacheEntries();
      if |caches.colors| > 0 {
        statics.preload := statics.preload.(parseFlag := false);
      }
    }

    /** `RefreshAccessToken`. */
    method RefreshAccessToken()
      modifies this
      ensures View() == RefreshStep(old(View()))
    {
      if |session.refreshToken| == 0 {
        return;
      }
      effects := effects + [RefreshRequest(session.refreshToken)];
    }

    /** `OnPreloadResponseReceived`. */
    method OnPreloadResponseReceived(reply: Reply<Option<seq<Option<BuildingRecord>>>>, c: Codecs)
      modifies this, statics
      ensures System() == PreloadResponseStep(old(View()), old(statics.View()), reply, c)
      ensures statics.primaryInstance == old(statics.primaryInstance)
    {
      session := session.(isLoading := false);
      if reply.Failed? {
        return;
      }
      if reply.code == 401 {
        if |session.refreshToken| > 0 {
          RefreshAccessToken();
        }
        return;
      }
      if reply.code != 200 {
        return;
      }
      ParseAndCacheAllBuildings(reply.body, c);
    }

    /** `ClearCache`. */
    method ClearCache()
      modifies this
      ensures View() == ClearStep(old(View()))
    {
      caches := caches.(data := [], gmlIds := []);
      session := session.(dataLoaded := false, isLoading := false);
    }

    // -------------------------------------------------------------------
    // Authentication
    // -------------------------------------------------------------------

    /** `AuthenticateAndLoadData` at time `now`; `sent` says whether the request went out. */
    method AuthenticateAndLoadData(now: real, sent: bool)
      modifies this, statics
      ensures System() == AuthStep(old(View()), old(statics.View()), now, sent)
      ensures statics.primaryInstance == old(statics.primaryInstance)
    {
      if now - statics.auth.lastResetTime > 2.0 {
        statics.auth := statics.auth.(inProgress := false, lastResetTime := now);
      }
      if statics.auth.inProgress {
        return;
      }
      if |statics.auth.lastSuccessfulToken| > 0 && session.dataLoaded {
        session := session.(accessToken := statics.auth.lastSuccessfulToken);
        if |caches.colors| > 0 {
          effects := effects + [ColorsAppliedToGeometry];
        }
        return;
      }
      statics.auth := statics.auth.(inProgress := true);
      session := session.(isLoading := true, dataLoaded := false);
      if !sent {
        session := session.(isLoading := false);
        return;
      }
      effects := effects + [AuthRequest];
    }

    /** `RefreshBuildingCache` at time `now`. */
    method RefreshBuildingCache(now: real, sent: bool)
      modifies this, statics
      ensures System() == RefreshCacheStep(old(View()), old(statics.View()), now, sent)
      ensures statics.primaryInstance == old(statics.primaryInstance)
    {
      if session.isLoading {
        return;
      }
      if |session.accessToken| > 0 {
        caches := caches.(data := [], gmlIds := []);
        session := session.(dataLoaded := false);
      }
      AuthenticateAndLoadData(now, sent);
    }

    /** `OnAuthResponseReceived` at time `now`. */
    method OnAuthResponseReceived(reply: Reply<TokenBody>, now: real)
      modifies this, statics
      ensures System() == AuthResponseStep(old(View()), old(statics.View()), reply, now)
      ensures statics.primaryInstance == old(statics.primaryInstance)
    {
      if reply.Failed? {
        session := session.(isLoading := false);
        statics.auth := statics.auth.(transportFlag := false);
        return;
      }
      if reply.code != 200 {
        session := session.(isLoading := false);
        statics.auth := statics.auth.(rejectedFlag := false);
        return;
      }
      if !reply.body.TokenObject? || reply.body.access.None? {
        session := session.(isLoading := false);
        return;
      }
      var access := reply.body.access.value;
      session := session.(refreshToken := reply.body.refresh, accessToken := access, authMessageShown := false);
      statics.auth := statics.auth.(globalSuccessToken := access, globalInProgress := false, successFlag := false);
      PreloadAllBuildingData(access, now);
    }

    /** `OnRefreshTokenResponseReceived`. */
    method OnRefreshTokenResponseReceived(reply: Reply<TokenBody>)
      modifies this
      ensures View() == RefreshResponseStep(old(View()), reply)
    {
      if reply.Failed? || reply.code != 200 || !reply.body.TokenObject? || reply.body.access.None? {
        return;
      }
      session := session.(accessToken := reply.body.access.value, authMessageShown := false);
    }

    // -------------------------------------------------------------------
    // Energy updates and change detection
    // -------------------------------------------------------------------

    /** `OnEnergyUpdateResponse`: rewrites only the entries of ids already in the data cache. */
    method OnEnergyUpdateResponse(reply: Reply<Results<EnergyUpdate>>, c: Codecs)
      modifies this
      ensures View() == EnergyUpdateResponseStep(old(View()), reply, c)
    {
      if reply.Failed? {
        return;
      }
      if reply.code == 401 {
        if |session.refreshToken| > 0 {
          RefreshAccessToken();
        }
        return;
      }
      if reply.code != 200 || !reply.body.Results? {
        return;
      }
      var items := reply.body.items;
      var data, coords := caches.data, caches.coords;
      var i := 0;
      while i < |items|
        invariant 0 <= i <= |items|
        invariant (data, coords) == ApplyEnergyUpdates(caches.data, caches.coords, items[..i], c.parse)
      {
        assert items[..i + 1][..i] == items[..i];
        match items[i] {
          case Some(u) =>
            if ContainsKey(data, u.gmlId) {
              data := SetValue(data, u.gmlId, RealTimeHeading + u.lines);
              if u.coordinates.Some? {
                coords := StoreCoordinates(coords, CoordinateKey(u.gmlId, u.numericId), u.coordinates.value, c.parse);
              }
            }
          case None =>
        }
        i := i + 1;
      }
      assert items[..i] == items;
      caches := caches.(data := data, coords := coords);
    }

    /** The first loop of `DetectAndApplyChanges`: compares each element with the snapshot. */
    method DetectChanges(items: seq<Option<ChangeItem>>, c: Codecs) returns (d: Detection)
      ensures d == Detect(caches.dataSnapshot, items, c.srgb)
    {
      var snapshot := caches.dataSnapshot;
      var changed: seq<string> := [];
      var newData: CIMap<string> := [];
      var newColors: ColorCache := [];
      var i := 0;
      while i < |items|
        invariant 0 <= i <= |items|
        invariant Detection(changed, newData, newColors) == Detect(snapshot, items[..i], c.srgb)
      {
        assert items[..i + 1][..i] == items[..i];
        match items[i] {
          case Some(it) =>
            var id := it.modifiedGmlId;
            if |id| > 0 {
              var previous := Find(snapshot, id);
              if previous.None? || previous.value != it.serialized {
                changed := changed + [id];
                newData := Add(newData, id, it.serialized);
                if it.endColorHex.Some? {
                  var color := ConvertHexToLinearColor(it.endColorHex.value, c.srgb);
                  newColors := Add(newColors, id, color);
                }
              }
            }
          case None =>
        }
        i := i + 1;
      }
      assert items[..i] == items;
      return Detection(changed, newData, newColors);
    }

    /** The second loop of `DetectAndApplyChanges`: writes each changed id into the caches and snapshots. */
    method ApplyDetectedChanges(d: Detection)
      modifies this
      ensures View() == old(View()).(caches := ApplyDetection(old(caches), d))
    {
      var k := caches;
      var j := 0;
      while j < |d.changed|
        invariant 0 <= j <= |d.changed|
        invariant k == ApplyDetection(caches, d.(changed := d.changed[..j]))
      {
        assert d.changed[..j + 1][..j] == d.changed[..j];
        var id := d.changed[j];
        if ContainsKey(d.newData, id) {
          var text := Find(d.newData, id).value;
          k := k.(data := Add(k.data, id, text), dataSnapshot := Add(k.dataSnapshot, id, text));
        }
        if ContainsKey(d.newColors, id) {
          var color := Find(d.newColors, id).value;
          k := k.(colors := Add(k.colors, id, color), colorSnapshot := Add(k.colorSnapshot, id, color));
        }
        j := j + 1;
      }
      assert d.changed[..j] == d.changed;
      caches := k;
    }

    /** `DetectAndApplyChanges` on a parsed change feed. */
    method DetectAndApplyChanges(feed: Results<ChangeItem>, c: Codecs)
      modifies this
      ensures View() == DetectStep(old(View()), feed, c)
    {
      if !feed.Results? {
        return;
      }
      var d := DetectChanges(feed.items, c);
      if |d.changed| > 0 {
        ApplyDetectedChanges(d);
        ApplyColorsUsingCesiumStyling();
        UpdatePollingStrategy(true);
      } else {
        UpdatePollingStrategy(false);
      }
    }

    /** `OnRealTimeDataResponse`. */
    method OnRealTimeDataResponse(reply: Reply<FeedBody>, c: Codecs)
      modifies this
      ensures View() == RealTimeResponseStep(old(View()), reply, c)
    {
      monitor := monitor.(performing := false);
      if reply.Failed? || reply.code != 200 || |reply.body.content| == 0 {
        return;
      }
      DetectAndApplyChanges(reply.body.feed, c);
    }

    /** `FetchRealTimeEnergyData`. */
    method FetchRealTimeEnergyData()
      modifies this
      ensures View() == RealTimeFetchStep(old(View()))
    {
      if |session.accessToken| == 0 {
        return;
      }
      effects := effects + [RealTimeEnergyRequest];
    }

    /** `ForceRealTimeRefresh`. */
    method ForceRealTimeRefresh()
      modifies this
      ensures View() == ForceRefreshStep(old(View()))
    {
      ClearCache();
      FetchRealTimeEnergyData();
    }

    // -------------------------------------------------------------------
    // The info display
    // -------------------------------------------------------------------

    /** `HideBuildingInfoWidget`. */
    method HideBuildingInfoWidget()
      modifies this
      ensures View() == HideStep(old(View()))
    {
      if |selection.displayedId| > 0 {
        effects := effects + [InfoHidden];
        selection := selection.(displayedId := "");
      }
    }

    /** `ShowBuildingInfoWidget(id, data)`: the first display to call it becomes the only one that shows. */
    method ShowBuildingInfoWidget(id: string, data: string)
      modifies this, statics
      ensures View() == ShowStep(old(View()), id, data, old(IsPrimary()))
      ensures statics.View() == old(statics.View()) && statics.primaryInstance == old(PrimaryAfter(true))
    {
      if statics.primaryInstance == null {
        statics.primaryInstance := this;
      }
      if statics.primaryInstance != this {
        return;
      }
      if |selection.displayedId| > 0 && !EqualsIgnoreCase(selection.displayedId, id) {
        HideBuildingInfoWidget();
      }
      selection := selection.(displayedId := id);
      effects := effects + [InfoShown(id, data)];
    }

    /** `DisplayBuildingData(id)` at time `now`. */
    method DisplayBuildingData(id: string, now: real)
      modifies this, statics
      ensures View() == DisplayStep(old(View()), id, now, old(IsPrimary()))
      ensures statics.View() == old(statics.View())
      ensures statics.primaryInstance ==
        old(PrimaryAfter(DisplayProceeds(View(), id, now) && DisplayTarget(caches.data, id).Some?))
    {
      if !session.dataLoaded {
        return;
      }
      if EqualsIgnoreCase(selection.lastDisplayedId, id) && now - selection.lastDisplayTime < 1.0 {
        return;
      }
      selection := selection.(lastDisplayedId := id, lastDisplayTime := now);
      var direct := Find(caches.data, id);
      if direct.Some? && |direct.value| > 0 {
        ShowBuildingInfoWidget(id, direct.value);
        return;
      }
      var hit := ScanTier(caches.data, id, SameVariant);
      if hit.Some? {
        var e := caches.data[hit.value];
        ShowBuildingInfoWidget(e.0, e.1);
      }
    }

    /** `OnRealTimeEnergyDataResponse`: reloads the caches and refreshes what is on display. */
    method OnRealTimeEnergyDataResponse(reply: Reply<Option<seq<Option<BuildingRecord>>>>, c: Codecs)
      modifies this, statics
      ensures System() == RealTimeEnergyResponseStep(old(View()), old(statics.View()), reply, c, old(IsPrimary()))
      ensures statics.primaryInstance == old(statics.primaryInstance) ||
              (old(statics.primaryInstance) == null && statics.primaryInstance == this)
    {
      if reply.Failed? || reply.code != 200 {
        return;
      }
      caches := caches.(data := [], gmlIds := []);
      ParseAndCacheAllBuildings(reply.body, c);
      session := session.(dataLoaded := true, isLoading := false);
      var shown := selection.displayedId;
      if |shown| > 0 {
        var current := Find(caches.data, shown);
        if current.Some? && |current.value| > 0 {
          ShowBuildingInfoWidget(shown, current.value);
        }
      }
    }

    // -------------------------------------------------------------------
    // Clicks and the attributes form
    // -------------------------------------------------------------------

    /** `ShowBuildingAttributesForm(id)` at time `now`. */
    method ShowBuildingAttributesForm(id: string, now: real)
      modifies this, statics
      ensures System() == FormStep(old(View()), old(statics.View()), id, now)
      ensures statics.primaryInstance == old(statics.primaryInstance)
    {
      if Debounced(statics.form, id, now) {
        return;
      }
      statics.form := Debounce(id, now);
      var cached := Find(caches.gmlIds, id);
      var apiId: string;
      if cached.Some? && |cached.value| > 0 {
        apiId := cached.value;
      } else {
        apiId := ConvertGmlIdToBuildingKey(id);
        caches := caches.(gmlIds := Add(caches.gmlIds, id, apiId));
      }
      selection := selection.(currentBuildingId := id);
      if world.formClassSet {
        effects := effects + [FormOpened(apiId, session.accessToken)];
      }
    }

    /** The resolution ladder of `OnBuildingClicked`, one tier loop after another. */
    method ResolveClickTarget(id: string) returns (r: Option<string>)
      ensures r == ClickTarget(caches.data, id)
    {
      var data := caches.data;
      if ContainsKey(data, id) {
        return Some(id);
      }
      var exact := ScanTier(data, id, SameText);
      if exact.Some? {
        // An exact match is also a match ignoring case, which the lookup above ruled out.
        assert false;
      }
      var variant := ScanTier(data, id, SameVariant);
      if variant.Some? {
        return Some(data[variant.value].0);
      }
      var partial := ScanTier(data, id, Substring);
      if partial.Some? {
        return Some(data[partial.value].0);
      }
      return None;
    }

    /** `OnBuildingClicked(id)` at time `now`. */
    method OnBuildingClicked(id: string, now: real)
      modifies this, statics
      ensures System() == ClickStep(old(View()), old(statics.View()), id, now)
      ensures statics.primaryInstance == old(statics.primaryInstance)
    {
      if Debounced(statics.click, id, now) {
        return;
      }
      statics.click := Debounce(id, now);
      if |id| == 0 || IsPlaceholderId(id) || |session.accessToken| == 0 {
        return;
      }
      var target := ResolveClickTarget(id);
      if target.Some? {
        ShowBuildingAttributesForm(target.value, now);
      }
    }

    /** `OnBuildingClickedWithPosition(id, p)` at time `now`. */
    method OnBuildingClickedWithPosition(id: string, p: Vec3, now: real)
      modifies this, statics
      ensures System() == ClickWithPositionStep(old(View()), old(statics.View()), id, p, now)
      ensures statics.primaryInstance == old(statics.primaryInstance)
    {
      var coords := caches.coords;
      if ContainsKey(coords, id) {
        var valid := ValidateBuildingPosition(coords, p, id);
        if !valid {
          var correct := GetBuildingByCoordinates(coords, p);
          if |correct| > 0 && !EqualsIgnoreCase(correct, id) {
            OnBuildingClicked(correct, now);
          }
          return;
        }
      }
      OnBuildingClicked(id, now);
    }

    /** `GetBuildingAttributes(key, community, token)`. */
    method GetBuildingAttributes(key: string, community: string, token: string)
      modifies this
      ensures View() == AttributesRequestStep(old(View()), key, community, token)
    {
      session := session.(requestedKey := key, requestedCommunity := community);
      var apiId := AttributesApiId(key);
      effects := effects + [AttributesRequest(apiId, community, token)];
    }

    /** `UpdateBuildingAttributes(key, community, json, token)`. */
    method UpdateBuildingAttributes(key: string, community: string, json: string, token: string)
      modifies this
      ensures View() == AttributesUpdateStep(old(View()), key, community, json, token)
    {
      var apiId := AttributesApiId(key);
      effects := effects + [AttributesUpdate(apiId, community, json, token)];
    }

    /** `OnGetBuildingAttributesResponse`. */
    method OnGetBuildingAttributesResponse(reply: Reply<AttributesBody>)
      modifies this
      ensures View() == AttributesResponseStep(old(View()), reply)
    {
      var key := session.requestedKey;
      if |key| == 0 || !ContainsKey(caches.data, key) {
        return;
      }
      if reply.Failed? {
        return;
      }
      if reply.code == 401 {
        if |session.refreshToken| > 0 {
          RefreshAccessToken();
        }
        return;
      }
      if reply.code != 200 || !reply.body.isJson {
        return;
      }
      effects := effects + [FormCreated(reply.body.content)];
    }

    /** `OnUpdateBuildingAttributesResponse`. */
    method OnUpdateBuildingAttributesResponse(reply: Reply<()>)
      modifies this
      ensures View() == UpdateAttributesResponseStep(old(View()), reply)
    {
      if reply.Failed? || !IsUpdateSuccess(reply.code) {
        return;
      }
      ConnectEnergyWebSocket();
      FetchRealTimeEnergyData();
    }
  }
}
