/**
 * What each handler of `ABuildingEnergyDisplay` does to the display's fields, as pure functions
 * from the fields before the call to the fields after it.
 *
 * `DisplayView` holds every field a handler reads or writes, grouped as the header groups them.
 * `Shared` holds the function-local statics, which C++ keeps once per process, so every display
 * actor sees the same ones. Outgoing requests and UI actions are appended to `effects`, in the
 * order the code issues them. The class in `EnergyDisplay` implements each handler imperatively
 * and is proved to agree with these functions; `DisplayProperties` states what they promise.
 */
module DisplaySteps {
  import opened Wrappers
  import opened UnrealString
  import opened CaseInsensitiveMap
  import opened Identifiers
  import opened Spatial
  import opened CesiumStyle
  import opened EnergyFeed

  /** What a handler causes outside the display: a request sent, a widget or style changed. */
  datatype Effect =
    | PreloadRequest(token: string)
    | AuthRequest
    | RefreshRequest(refreshToken: string)
    | EnergyUpdateRequest(token: string)
    | RealTimeCheckRequest(token: string)
    | RealTimeEnergyRequest
    | AttributesRequest(apiId: string, communityId: string, token: string)
    | AttributesUpdate(apiId: string, communityId: string, json: string, token: string)
    | SocketOpened(url: string, token: string)
    | SocketClosed
    | InfoShown(buildingId: string, data: string)
    | InfoHidden
    | FormOpened(apiId: string, token: string)
    | FormCreated(content: string)
    | StyleApplied(style: string)
    | ColorsAppliedToGeometry

  /** An actor of the world as the tileset resolver sees it. */
  datatype SceneActor = SceneActor(ref: ActorRef, className: string, hasTilesetComponent: bool,
                                   hasSetStyle: bool)

  // ---------------------------------------------------------------------
  // The statics
  // ---------------------------------------------------------------------

  /** The statics of `PreloadAllBuildingData`, and the flag the parse lambda clears. */
  datatype PreloadStatics = PreloadStatics(inProgress: bool, lastCallTime: real, parseFlag: bool)

  /** The statics of `AuthenticateAndLoadData` and `OnAuthResponseReceived`. */
  datatype AuthStatics = AuthStatics(
    inProgress: bool, lastSuccessfulToken: string, lastResetTime: real,
    transportFlag: bool, rejectedFlag: bool, successFlag: bool,
    globalSuccessToken: string, globalInProgress: bool)

  /** A same-id debounce: the last id handled and when. */
  datatype Debounce = Debounce(lastId: string, lastTime: real)

  /** All function-local statics: those of the preload, the authentication, the click and the form. */
  datatype Shared = Shared(preload: PreloadStatics, auth: AuthStatics, click: Debounce, form: Debounce)

  /** Every static starts false, zero or empty. */
  const InitialShared := Shared(PreloadStatics(false, 0.0, false),
                                AuthStatics(false, "", 0.0, false, false, false, "", false),
                                Debounce("", 0.0), Debounce("", 0.0))

  // ---------------------------------------------------------------------
  // The fields of a display
  // ---------------------------------------------------------------------

  /** The caches, keyed case-insensitively like `TMap<FString, …>`. */
  datatype Caches = Caches(data: CIMap<string>, colors: ColorCache, gmlIds: CIMap<string>,
                           coords: CoordinatesCache, dataSnapshot: CIMap<string>, colorSnapshot: ColorCache)

  /** The tokens and the loading state. */
  datatype Session = Session(accessToken: string, refreshToken: string, authMessageShown: bool,
                             dataLoaded: bool, isLoading: bool,
                             requestedKey: string, requestedCommunity: string)

  /** The real-time monitoring state and the tileset re-styling time. */
  datatype Monitor = Monitor(enabled: bool, performing: bool, timer: real, polling: Polling,
                             lastColorReapplyTime: real)

  /** The energy socket and its REST polling fallback. */
  datatype Link = Link(valid: bool, connected: bool, url: string, reconnectTimer: real,
                       reconnectInterval: real, autoReconnect: bool, updateCounter: int)

  /** Which building is displayed or was last asked for. */
  datatype Selection = Selection(lastDisplayedId: string, lastDisplayTime: real,
                                 currentBuildingId: string, displayedId: string)

  /** What the level provides: the tileset settings, the actors, and whether a form widget class is set. */
  datatype World = World(tilesetName: string, tilesetOverride: Option<SceneActor>,
                         actors: seq<SceneActor>, formClassSet: bool)

  datatype DisplayView = DisplayView(caches: Caches, session: Session, monitor: Monitor, link: Link,
                                     selection: Selection, world: World, effects: seq<Effect>)

  /** Both parts together: what a handler that also uses statics changes. */
  datatype System = System(display: DisplayView, statics: Shared)

  /** The header's initial values; the actors and the widget class are set up by the level. */
  function InitialView(actors: seq<SceneActor>, formClassSet: bool): DisplayView
  {
    DisplayView(Caches([], [], [], [], [], []),
                Session("", "", false, false, false, "", ""),
                Monitor(true, false, 0.0, Polling(true, 2.0, 1.0, 5.0, 0, 10), -1.0),
                Link(false, false, "", 0.0, 5.0, true, 0),
                Selection("", 0.0, "", ""),
                World("bisingen", None, actors, formClassSet),
                [])
  }

  /** Appends one effect. */
  function Emit(v: DisplayView, e: Effect): DisplayView
  {
    v.(effects := v.effects + [e])
  }

  // ---------------------------------------------------------------------
  // Tileset resolution and styling
  // ---------------------------------------------------------------------

  /** An actor the resolver accepts when no override is set. */
  predicate IsTilesetCandidate(a: SceneActor, tilesetName: string)
  {
    Contains(a.className, "Cesium3DTileset") && IsTargetBuildingsTileset(Some(a.ref), None, tilesetName)
  }

  /** The first candidate in iteration order. */
  function FirstCandidate(actors: seq<SceneActor>, tilesetName: string): (r: Option<nat>)
    ensures r.Some? ==> r.value < |actors| && IsTilesetCandidate(actors[r.value], tilesetName)
    ensures r.Some? ==> forall j :: 0 <= j < r.value ==> !IsTilesetCandidate(actors[j], tilesetName)
    ensures r.None? <==> forall j :: 0 <= j < |actors| ==> !IsTilesetCandidate(actors[j], tilesetName)
  {
    if |actors| == 0 then None
    else if IsTilesetCandidate(actors[0], tilesetName) then Some(0)
    else match FirstCandidate(actors[1..], tilesetName)
      case None => None
      case Some(i) => Some(i + 1)
  }

  /** `ResolveBuildingsTilesetActor`: the override if set, else the first candidate; none for an empty name. */
  function ResolveTileset(w: World): (r: Option<SceneActor>)
    ensures w.tilesetOverride.Some? ==> r == w.tilesetOverride
    ensures w.tilesetOverride.None? && r.Some? ==>
      r.value in w.actors && IsTilesetCandidate(r.value, w.tilesetName)
    ensures w.tilesetOverride.None? && r.None? ==>
      forall j :: 0 <= j < |w.actors| ==> !IsTilesetCandidate(w.actors[j], w.tilesetName)
  {
    if w.tilesetOverride.Some? then w.tilesetOverride
    else if |Fold(w.tilesetName)| == 0 then None
    else match FirstCandidate(w.actors, w.tilesetName)
      case Some(i) => Some(w.actors[i])
      case None => None
  }

  /** The style `ApplyColorsUsingCesiumStyling` applies, if it gets that far. */
  function StyleFor(colors: ColorCache, w: World): Option<string>
  {
    if |colors| == 0 then None
    else match ResolveTileset(w)
      case None => None
      case Some(a) => if a.hasTilesetComponent && a.hasSetStyle then Some(StyleJson(colors)) else None
  }

  /**
   * `ApplyColorsUsingCesiumStyling`: with a non-empty colour cache and a resolved tileset whose
   * component offers `SetStyle`, the style built from the colour cache is applied.
   */
  function StyleStep(v: DisplayView): DisplayView
  {
    match StyleFor(v.caches.colors, v.world)
    case Some(style) => Emit(v, StyleApplied(style))
    case None => v
  }

  /** `OnCesiumTilesetRefresh`: re-styles at most once every 4 seconds of world time. */
  function TilesetRefreshStep(v: DisplayView, worldTime: real): DisplayView
  {
    var last := v.monitor.lastColorReapplyTime;
    if |v.caches.colors| == 0 || ResolveTileset(v.world).None? then v
    else if last >= 0.0 && worldTime - last < 4.0 then v
    else StyleStep(v.(monitor := v.monitor.(lastColorReapplyTime := worldTime)))
  }

  // ---------------------------------------------------------------------
  // Energy polling and the socket
  // ---------------------------------------------------------------------

  /** `FetchUpdatedEnergyData`: needs a token; counts the requests. */
  function FetchStep(v: DisplayView): DisplayView
  {
    if |v.session.accessToken| == 0 then v
    else Emit(v.(link := v.link.(updateCounter := v.link.updateCounter + 1)),
              EnergyUpdateRequest(v.session.accessToken))
  }

  /**
   * `ConnectEnergyWebSocket`. With no URL it turns on REST polling (the connected flag) and
   * fetches at once; with a URL it replaces any socket that is not already connected.
   */
  function ConnectStep(v: DisplayView): DisplayView
  {
    var token := v.session.accessToken;
    if |v.link.url| == 0 then
      if |token| == 0 then v.(session := v.session.(authMessageShown := true))
      else FetchStep(v.(link := v.link.(connected := true, reconnectTimer := 0.0)))
    else if v.link.connected && v.link.valid then v
    else
      var closed := if v.link.valid then Emit(v.(link := v.link.(valid := false)), SocketClosed) else v;
      if |token| == 0 then closed.(session := closed.session.(authMessageShown := true))
      else Emit(closed.(link := closed.link.(valid := true)), SocketOpened(v.link.url, token))
  }

  /** `DisconnectEnergyWebSocket`. */
  function DisconnectStep(v: DisplayView): DisplayView
  {
    var w := v.(link := v.link.(connected := false, valid := false));
    if v.link.valid then Emit(w, SocketClosed) else w
  }

  /** The first half of `Tick`: the polling timer, or else the reconnect timer. */
  function SocketTick(v: DisplayView, dt: real): DisplayView
  {
    var t := v.link.reconnectTimer + dt;
    var due := t >= v.link.reconnectInterval;
    if v.link.connected && |v.link.url| == 0 then
      if due then FetchStep(v.(link := v.link.(reconnectTimer := 0.0)))
      else v.(link := v.link.(reconnectTimer := t))
    else if v.link.autoReconnect && !v.link.connected && !v.link.valid then
      if due then ConnectStep(v.(link := v.link.(reconnectTimer := 0.0)))
      else v.(link := v.link.(reconnectTimer := t))
    else v
  }

  /** `PerformRealTimeDataCheck`: single flight; the flag stays set only when the request went out. */
  function CheckStep(v: DisplayView, sent: bool): DisplayView
  {
    if v.monitor.performing || !sent then v
    else Emit(v.(monitor := v.monitor.(performing := true)), RealTimeCheckRequest(v.session.accessToken))
  }

  /** The second half of `Tick`: the monitoring timer. */
  function MonitorTick(v: DisplayView, dt: real, sent: bool): DisplayView
  {
    var t := v.monitor.timer + dt;
    if !v.monitor.enabled || v.monitor.performing then v
    else if t < v.monitor.polling.interval then v.(monitor := v.monitor.(timer := t))
    else
      var w := v.(monitor := v.monitor.(timer := 0.0));
      if |w.session.accessToken| > 0 && w.session.dataLoaded then CheckStep(w, sent) else w
  }

  /** `Tick(dt)`; `sent` says whether a real-time check it starts gets under way. */
  function TickStep(v: DisplayView, dt: real, sent: bool): DisplayView
  {
    MonitorTick(SocketTick(v, dt), dt, sent)
  }

  // ---------------------------------------------------------------------
  // Loading the caches
  // ---------------------------------------------------------------------

  /** `PreloadAllBuildingData(token)` at time `now`, behind its 3-second guard. */
  function PreloadStep(v: DisplayView, s: Shared, token: string, now: real): System
  {
    var p := if now - s.preload.lastCallTime > 3.0 then s.preload.(inProgress := false) else s.preload;
    if p.inProgress then System(v, s.(preload := p))
    else
      var w := v.(caches := v.caches.(data := [], gmlIds := []),
                  session := v.session.(accessToken := token, dataLoaded := false, isLoading := |token| > 0));
      System(if |token| > 0 then Emit(w, PreloadRequest(token)) else w,
             s.(preload := p.(inProgress := true, lastCallTime := now)))
  }

  /** The four caches one loop writes. */
  function StoresOf(c: Caches): Stores
  {
    Stores(c.data, c.colors, c.gmlIds, c.coords)
  }

  /** Writes the four caches of a loop back. */
  function ApplyStores(k: Caches, st: Stores): Caches
  {
    k.(data := st.data, colors := st.colors, gmlIds := st.gmlIds, coords := st.coords)
  }

  /**
   * `ParseAndCacheAllBuildings`: `None` is a body that is not JSON. A JSON body that is not an
   * array reads as an empty array.
   */
  function ParseStep(v: DisplayView, s: Shared, body: Option<seq<Option<BuildingRecord>>>, c: Codecs): System
  {
    match body
    case None => System(v, s)
    case Some(items) =>
      var r := IngestAll(StoresOf(v.caches), items, c);
      var colors := Dedup(r.colors);
      System(v.(caches := ApplyStores(v.caches, r).(colors := colors), session := v.session.(dataLoaded := true)),
             if |colors| > 0 then s.(preload := s.preload.(parseFlag := false)) else s)
  }

  /** `RefreshAccessToken`: needs a refresh token. */
  function RefreshStep(v: DisplayView): DisplayView
  {
    if |v.session.refreshToken| == 0 then v else Emit(v, RefreshRequest(v.session.refreshToken))
  }

  /** Ends the loading state. */
  function StopLoading(v: DisplayView): DisplayView
  {
    v.(session := v.session.(isLoading := false))
  }

  /** `OnPreloadResponseReceived`. */
  function PreloadResponseStep(v: DisplayView, s: Shared, reply: Reply<Option<seq<Option<BuildingRecord>>>>,
                               c: Codecs): System
  {
    var w := StopLoading(v);
    match StatusDispatch(reply, v.session.refreshToken)
    case Proceed => ParseStep(w, s, reply.body, c)
    case Refresh => System(RefreshStep(w), s)
    case Drop => System(w, s)
  }

  /** Empties the data and alias caches and marks the data as not loaded. */
  function Unload(v: DisplayView): DisplayView
  {
    v.(caches := v.caches.(data := [], gmlIds := []), session := v.session.(dataLoaded := false))
  }

  /** `ClearCache`: the colour and coordinate caches are kept. */
  function ClearStep(v: DisplayView): DisplayView
  {
    StopLoading(Unload(v))
  }

  // ---------------------------------------------------------------------
  // Authentication
  // ---------------------------------------------------------------------

  /** `AuthenticateAndLoadData` at time `now`, behind its 2-second guard; `sent` as for `CheckStep`. */
  function AuthStep(v: DisplayView, s: Shared, now: real, sent: bool): System
  {
    var a := if now - s.auth.lastResetTime > 2.0 then s.auth.(inProgress := false, lastResetTime := now) else s.auth;
    if a.inProgress then System(v, s.(auth := a))
    else if |a.lastSuccessfulToken| > 0 && v.session.dataLoaded then
      var w := v.(session := v.session.(accessToken := a.lastSuccessfulToken));
      System(if |v.caches.colors| > 0 then Emit(w, ColorsAppliedToGeometry) else w, s.(auth := a))
    else
      var w := v.(session := v.session.(dataLoaded := false, isLoading := sent));
      System(if sent then Emit(w, AuthRequest) else w, s.(auth := a.(inProgress := true)))
  }

  /** `RefreshBuildingCache`: nothing while loading; otherwise (with a token, after clearing) authenticate. */
  function RefreshCacheStep(v: DisplayView, s: Shared, now: real, sent: bool): System
  {
    if v.session.isLoading then System(v, s)
    else if |v.session.accessToken| > 0 then AuthStep(Unload(v), s, now, sent)
    else AuthStep(v, s, now, sent)
  }

  /**
   * `OnAuthResponseReceived`. The failure paths clear flags that are statics of their own;
   * success stores both tokens and preloads with the new access token.
   */
  function AuthResponseStep(v: DisplayView, s: Shared, reply: Reply<TokenBody>, now: real): System
  {
    match TokenResult(reply)
    case TransportFailure => System(StopLoading(v), s.(auth := s.auth.(transportFlag := false)))
    case Rejected => System(StopLoading(v), s.(auth := s.auth.(rejectedFlag := false)))
    case Malformed => System(StopLoading(v), s)
    case Granted(access, refresh) =>
      PreloadStep(v.(session := v.session.(refreshToken := refresh, accessToken := access, authMessageShown := false)),
                  s.(auth := s.auth.(globalSuccessToken := access, globalInProgress := false, successFlag := false)),
                  access, now)
  }

  /** `OnRefreshTokenResponseReceived`: stores a granted access token and nothing else. */
  function RefreshResponseStep(v: DisplayView, reply: Reply<TokenBody>): DisplayView
  {
    match TokenResult(reply)
    case Granted(access, _) => v.(session := v.session.(accessToken := access, authMessageShown := false))
    case _ => v
  }

  // ---------------------------------------------------------------------
  // Energy updates and change detection
  // ---------------------------------------------------------------------

  /** `OnEnergyUpdateResponse`. */
  function EnergyUpdateResponseStep(v: DisplayView, reply: Reply<Results<EnergyUpdate>>, c: Codecs): DisplayView
  {
    match StatusDispatch(reply, v.session.refreshToken)
    case Refresh => RefreshStep(v)
    case Drop => v
    case Proceed =>
      match reply.body
      case Results(items) =>
        var r := ApplyEnergyUpdates(v.caches.data, v.caches.coords, items, c.parse);
        v.(caches := v.caches.(data := r.0, coords := r.1))
      case _ => v
  }

  /** The second loop of `DetectAndApplyChanges`, over the four caches. */
  function ApplyDetection(k: Caches, d: Detection): Caches
  {
    k.(data := ApplyChanges(k.data, d.changed, d.newData),
       dataSnapshot := ApplyChanges(k.dataSnapshot, d.changed, d.newData),
       colors := ApplyChanges(k.colors, d.changed, d.newColors),
       colorSnapshot := ApplyChanges(k.colorSnapshot, d.changed, d.newColors))
  }

  /** `DetectAndApplyChanges` on a parsed change feed. */
  function DetectStep(v: DisplayView, feed: Results<ChangeItem>, c: Codecs): DisplayView
  {
    match feed
    case Results(items) =>
      var d := Detect(v.caches.dataSnapshot, items, c.srgb);
      var changed := |d.changed| > 0;
      var w := if changed then StyleStep(v.(caches := ApplyDetection(v.caches, d))) else v;
      w.(monitor := w.monitor.(polling := NextPolling(v.monitor.polling, changed)))
    case _ => v
  }

  /** `StartRealTimeMonitoring`: resets the timer and the quiet count and snapshots the data and colour caches. */
  function StartMonitoringStep(v: DisplayView): DisplayView
  {
    var p := v.monitor.polling;
    v.(monitor := v.monitor.(enabled := true, timer := 0.0,
                             polling := p.(noChanges := 0, interval := if p.enhanced then p.fast else p.interval)),
       caches := v.caches.(dataSnapshot := v.caches.data, colorSnapshot := v.caches.colors))
  }

  /** `StopRealTimeMonitoring`: also forgets a check in flight. */
  function StopMonitoringStep(v: DisplayView): DisplayView
  {
    v.(monitor := v.monitor.(enabled := false, performing := false,
                             polling := v.monitor.polling.(noChanges := 0)))
  }

  /** `SetRealTimeUpdateInterval(seconds)`. */
  function SetIntervalStep(v: DisplayView, seconds: real): DisplayView
  {
    v.(monitor := v.monitor.(polling := v.monitor.polling.(interval := ClampUpdateInterval(seconds))))
  }

  /** `EnableEnhancedPolling(enable)`: switching on also selects the fast interval. */
  function EnableEnhancedStep(v: DisplayView, enable: bool): DisplayView
  {
    var p := v.monitor.polling;
    v.(monitor := v.monitor.(polling := p.(enhanced := enable, noChanges := 0,
                                           interval := if enable then p.fast else p.interval)))
  }

  /** The body of a real-time check response: its text and the feed parsed from it. */
  datatype FeedBody = FeedBody(content: string, feed: Results<ChangeItem>)

  /** `OnRealTimeDataResponse`: always ends the flight; only a non-empty 200 body is examined. */
  function RealTimeResponseStep(v: DisplayView, reply: Reply<FeedBody>, c: Codecs): DisplayView
  {
    var w := v.(monitor := v.monitor.(performing := false));
    if reply.Failed? || reply.code != 200 || |reply.body.content| == 0 then w
    else DetectStep(w, reply.body.feed, c)
  }

  /** `FetchRealTimeEnergyData`: needs a token; the request carries it as a bearer token, which the effect does not record. */
  function RealTimeFetchStep(v: DisplayView): DisplayView
  {
    if |v.session.accessToken| == 0 then v else Emit(v, RealTimeEnergyRequest)
  }

  /** `ForceRealTimeRefresh`. */
  function ForceRefreshStep(v: DisplayView): DisplayView
  {
    RealTimeFetchStep(ClearStep(v))
  }

  // ---------------------------------------------------------------------
  // The info display
  // ---------------------------------------------------------------------

  /** `HideBuildingInfoWidget`. */
  function HideStep(v: DisplayView): DisplayView
  {
    if |v.selection.displayedId| > 0 then Emit(v.(selection := v.selection.(displayedId := "")), InfoHidden) else v
  }

  /**
   * `ShowBuildingInfoWidget(id, data)`; `isPrimary` says whether this actor is (or becomes) the
   * primary instance, the only one that shows anything.
   */
  function ShowStep(v: DisplayView, id: string, data: string, isPrimary: bool): DisplayView
  {
    if !isPrimary then v
    else
      var shown := v.selection.displayedId;
      var h := if |shown| > 0 && !EqualsIgnoreCase(shown, id) then HideStep(v) else v;
      Emit(h.(selection := h.selection.(displayedId := id)), InfoShown(id, data))
  }

  /** `OnRealTimeEnergyDataResponse`: reload the caches and refresh what is on display. */
  function RealTimeEnergyResponseStep(v: DisplayView, s: Shared, reply: Reply<Option<seq<Option<BuildingRecord>>>>,
                                      c: Codecs, isPrimary: bool): System
  {
    if reply.Failed? || reply.code != 200 then System(v, s)
    else
      var r := ParseStep(v.(caches := v.caches.(data := [], gmlIds := [])), s, reply.body, c);
      var w := StopLoading(r.display.(session := r.display.session.(dataLoaded := true)));
      var shown := w.selection.displayedId;
      var current := Find(w.caches.data, shown);
      if |shown| > 0 && current.Some? && |current.value| > 0
      then System(ShowStep(w, shown, current.value, isPrimary), r.statics)
      else System(w, r.statics)
  }

  /** What `DisplayBuildingData` shows for `id`: a non-empty exact hit, else the first variant match. */
  function DisplayTarget(data: CIMap<string>, id: string): Option<(string, string)>
  {
    var direct := Find(data, id);
    if direct.Some? && |direct.value| > 0 then Some((id, direct.value))
    else match FirstMatch(data, id, SameVariant)
      case Some(i) => Some(data[i])
      case None => None
  }

  /** `DisplayBuildingData` is not held back by its loaded check or its 1-second debounce. */
  predicate DisplayProceeds(v: DisplayView, id: string, now: real)
  {
    v.session.dataLoaded &&
    !(EqualsIgnoreCase(v.selection.lastDisplayedId, id) && now - v.selection.lastDisplayTime < 1.0)
  }

  /** `DisplayBuildingData(id)` at time `now`. */
  function DisplayStep(v: DisplayView, id: string, now: real, isPrimary: bool): DisplayView
  {
    if !DisplayProceeds(v, id, now) then v
    else
      var w := v.(selection := v.selection.(lastDisplayedId := id, lastDisplayTime := now));
      match DisplayTarget(v.caches.data, id)
      case Some(t) => ShowStep(w, t.0, t.1, isPrimary)
      case None => w
  }

  // ---------------------------------------------------------------------
  // Clicks and the attributes form
  // ---------------------------------------------------------------------

  /** The ids a click ignores besides the empty one. */
  predicate IsPlaceholderId(id: string)
  {
    EqualsIgnoreCase(id, "XXXXX") || EqualsIgnoreCase(id, "Default") || EqualsIgnoreCase(id, "None")
  }

  /** A debounce holds back `id` at `now` when it handled the same id (ignoring case) under 0.3 seconds ago. */
  predicate Debounced(d: Debounce, id: string, now: real)
  {
    now - d.lastTime < 0.3 && EqualsIgnoreCase(d.lastId, id)
  }

  /** The gml id the attributes service is asked for: the cached alias if non-empty, else the rewrite. */
  function FormApiId(gmlIds: CIMap<string>, id: string): string
  {
    var cached := Find(gmlIds, id);
    if cached.Some? && |cached.value| > 0 then cached.value else ConvertGmlIdToBuildingKey(id)
  }

  /** `ShowBuildingAttributesForm(id)` at time `now`, behind its 0.3-second same-id debounce. */
  function FormStep(v: DisplayView, s: Shared, id: string, now: real): System
  {
    if Debounced(s.form, id, now) then System(v, s)
    else
      var cached := Find(v.caches.gmlIds, id);
      var apiId := FormApiId(v.caches.gmlIds, id);
      var gml := if cached.Some? && |cached.value| > 0 then v.caches.gmlIds else Add(v.caches.gmlIds, id, apiId);
      var w := v.(caches := v.caches.(gmlIds := gml), selection := v.selection.(currentBuildingId := id));
      System(if v.world.formClassSet then Emit(w, FormOpened(apiId, v.session.accessToken)) else w,
             s.(form := Debounce(id, now)))
  }

  /** `OnBuildingClicked(id)` at time `now`. */
  function ClickStep(v: DisplayView, s: Shared, id: string, now: real): System
  {
    if Debounced(s.click, id, now) then System(v, s)
    else
      var s1 := s.(click := Debounce(id, now));
      if |id| == 0 || IsPlaceholderId(id) || |v.session.accessToken| == 0 then System(v, s1)
      else match ClickTarget(v.caches.data, id)
        case Some(k) => FormStep(v, s1, k, now)
        case None => System(v, s1)
  }

  /** What `GetBuildingByCoordinates` returns. */
  function BuildingAt(coords: CoordinatesCache, p: Vec3): string
  {
    match FirstContaining(coords, p)
    case Some(i) => BaseId(coords[i].0)
    case None => ""
  }

  /** `OnBuildingClickedWithPosition(id, p)` at time `now`. */
  function ClickWithPositionStep(v: DisplayView, s: Shared, id: string, p: Vec3, now: real): System
  {
    var coords := v.caches.coords;
    if !ContainsKey(coords, id) || ValidPosition(coords, p, id) then ClickStep(v, s, id, now)
    else
      var correct := BuildingAt(coords, p);
      if |correct| > 0 && !EqualsIgnoreCase(correct, id) then ClickStep(v, s, correct, now)
      else System(v, s)
  }

  /** `GetBuildingAttributes(key, community, token)`. */
  function AttributesRequestStep(v: DisplayView, key: string, community: string, token: string): DisplayView
  {
    Emit(v.(session := v.session.(requestedKey := key, requestedCommunity := community)),
         AttributesRequest(AttributesApiId(key), community, token))
  }

  /** `UpdateBuildingAttributes(key, community, json, token)`. */
  function AttributesUpdateStep(v: DisplayView, key: string, community: string, json: string, token: string): DisplayView
  {
    Emit(v, AttributesUpdate(AttributesApiId(key), community, json, token))
  }

  /** The body of an attributes response: its text and whether it parses as JSON. */
  datatype AttributesBody = AttributesBody(content: string, isJson: bool)

  /** `OnGetBuildingAttributesResponse`: only answers for a requested building the data cache knows. */
  function AttributesResponseStep(v: DisplayView, reply: Reply<AttributesBody>): DisplayView
  {
    var key := v.session.requestedKey;
    if |key| == 0 || !ContainsKey(v.caches.data, key) then v
    else match StatusDispatch(reply, v.session.refreshToken)
      case Proceed => if reply.body.isJson then Emit(v, FormCreated(reply.body.content)) else v
      case Refresh => RefreshStep(v)
      case Drop => v
  }

  /** A status `OnUpdateBuildingAttributesResponse` treats as success. */
  predicate IsUpdateSuccess(code: int)
  {
    code == 200 || code == 201 || code == 204
  }

  /** `OnUpdateBuildingAttributesResponse`: a successful update reconnects and refetches. */
  function UpdateAttributesResponseStep(v: DisplayView, reply: Reply<()>): DisplayView
  {
    if reply.Reply? && IsUpdateSuccess(reply.code) then RealTimeFetchStep(ConnectStep(v)) else v
  }
}
