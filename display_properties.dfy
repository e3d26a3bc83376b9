/**
 * What the handlers of `ABuildingEnergyDisplay` promise, stated over the step functions of
 * `DisplaySteps`: the guards that keep requests single-flight, what each load replaces and keeps,
 * the authentication latch, the lookups the click and display paths perform, and the throttles.
 */
module DisplayProperties {
  import opened Wrappers
  import opened UnrealString
  import opened CaseInsensitiveMap
  import opened Identifiers
  import opened Spatial
  import opened CesiumStyle
  import opened EnergyFeed
  import opened DisplaySteps

  // ---------------------------------------------------------------------
  // Tick and the socket
  // ---------------------------------------------------------------------

  /** Connecting touches only the socket state, the waiting message and the effects. */
  lemma ConnectFrame(v: DisplayView)
    ensures var w := ConnectStep(v);
      w.caches == v.caches && w.monitor == v.monitor && w.selection == v.selection && w.world == v.world &&
      w.session == v.session.(authMessageShown := w.session.authMessageShown)
  {
  }

  /** The socket half of a tick leaves every field the monitoring half reads alone. */
  lemma SocketTickFrame(v: DisplayView, dt: real)
    ensures var w := SocketTick(v, dt);
      w.monitor == v.monitor && w.session.accessToken == v.session.accessToken &&
      w.session.dataLoaded == v.session.dataLoaded && w.caches == v.caches
  {
    var t := v.link.reconnectTimer + dt;
    if !(v.link.connected && |v.link.url| == 0) && v.link.autoReconnect && !v.link.connected && !v.link.valid &&
       t >= v.link.reconnectInterval {
      ConnectFrame(v.(link := v.link.(reconnectTimer := 0.0)));
    }
  }

  /**
   * A tick starts a real-time check exactly when monitoring is on, no check is in flight, the
   * timer reaches the interval, a token is held, the data is loaded and the request goes out.
   */
  lemma TickStartsCheckIff(v: DisplayView, dt: real, sent: bool)
    ensures TickStep(v, dt, sent).monitor.performing <==>
      v.monitor.performing ||
      (v.monitor.enabled && v.monitor.timer + dt >= v.monitor.polling.interval &&
       |v.session.accessToken| > 0 && v.session.dataLoaded && sent)
  {
    SocketTickFrame(v, dt);
  }

  /** With a positive interval and non-negative frame times, the monitoring timer stays below the interval. */
  lemma TickKeepsTimerBelowInterval(v: DisplayView, dt: real, sent: bool)
    requires v.monitor.polling.interval > 0.0 && 0.0 <= v.monitor.timer < v.monitor.polling.interval
    requires dt >= 0.0
    ensures var m := TickStep(v, dt, sent).monitor;
      m.polling == v.monitor.polling && 0.0 <= m.timer < m.polling.interval
  {
    SocketTickFrame(v, dt);
  }

  /**
   * In REST polling mode (connected flag set, no socket URL) a tick fetches energy updates, and
   * counts the fetch, exactly when the reconnect timer reaches its interval and a token is held.
   */
  lemma PollingModeFetches(v: DisplayView, dt: real)
    requires v.link.connected && |v.link.url| == 0
    ensures var w := SocketTick(v, dt);
      var due := v.link.reconnectTimer + dt >= v.link.reconnectInterval && |v.session.accessToken| > 0;
      w.link.updateCounter == v.link.updateCounter + (if due then 1 else 0) &&
      w.effects == v.effects + if due then [EnergyUpdateRequest(v.session.accessToken)] else []
  {
  }

  /**
   * With a socket URL and a token, connecting opens a socket; until the connected callback
   * arrives, connecting again closes that socket and opens another.
   */
  lemma ConnectReopensUntilConnected(v: DisplayView)
    requires |v.link.url| > 0 && |v.session.accessToken| > 0 && !v.link.connected
    ensures var w := ConnectStep(v);
      w.link.valid && w.effects == v.effects + (if v.link.valid then [SocketClosed] else []) +
                                   [SocketOpened(v.link.url, v.session.accessToken)]
    ensures var w := ConnectStep(v);
      ConnectStep(w).effects == w.effects + [SocketClosed, SocketOpened(v.link.url, v.session.accessToken)]
  {
    var w := ConnectStep(v);
    assert ConnectStep(w).effects == w.effects + [SocketClosed] + [SocketOpened(v.link.url, v.session.accessToken)];
  }

  /** Without a socket URL, connecting turns on REST polling and fetches at once; without a token it only waits. */
  lemma ConnectWithoutUrlPolls(v: DisplayView)
    requires |v.link.url| == 0
    ensures |v.session.accessToken| > 0 ==>
      var w := ConnectStep(v);
      w.link.connected && w.link.reconnectTimer == 0.0 &&
      w.effects == v.effects + [EnergyUpdateRequest(v.session.accessToken)]
    ensures |v.session.accessToken| == 0 ==> ConnectStep(v) == v.(session := v.session.(authMessageShown := true))
  {
  }

  /** After a disconnect no socket is held, and with auto-reconnect on the next due tick connects again. */
  lemma DisconnectThenReconnect(v: DisplayView, dt: real)
    requires |v.link.url| > 0 && |v.session.accessToken| > 0 && v.link.autoReconnect
    requires v.link.reconnectTimer + dt >= v.link.reconnectInterval
    ensures var d := DisconnectStep(v);
      !d.link.connected && !d.link.valid && SocketTick(d, dt).link.valid &&
      SocketTick(d, dt).effects == d.effects + [SocketOpened(v.link.url, v.session.accessToken)]
  {
  }

  // ---------------------------------------------------------------------
  // Preload
  // ---------------------------------------------------------------------

  /** A preload reaches the body when none is marked in progress or the mark is over 3 seconds old. */
  predicate PreloadProceeds(s: Shared, now: real)
  {
    !s.preload.inProgress || now - s.preload.lastCallTime > 3.0
  }

  /**
   * A preload that is held back changes nothing; one that proceeds empties the data and alias
   * caches, keeps the colour and coordinate caches, stores the token even when it is empty, and
   * sends a request exactly when the token is non-empty.
   */
  lemma PreloadOutcome(v: DisplayView, s: Shared, token: string, now: real)
    ensures !PreloadProceeds(s, now) ==> PreloadStep(v, s, token, now) == System(v, s)
    ensures PreloadProceeds(s, now) ==>
      var r := PreloadStep(v, s, token, now);
      r.display.caches == v.caches.(data := [], gmlIds := []) &&
      r.display.session == v.session.(accessToken := token, dataLoaded := false, isLoading := |token| > 0) &&
      r.display.effects == v.effects + (if |token| > 0 then [PreloadRequest(token)] else []) &&
      r.display.(caches := v.caches, session := v.session, effects := v.effects) == v &&
      r.statics == s.(preload := s.preload.(inProgress := true, lastCallTime := now))
  {
  }

  /** Within 3 seconds of a preload that proceeded, a second preload is ignored whatever its token. */
  lemma PreloadSingleFlight(v: DisplayView, s: Shared, t1: string, now1: real, t2: string, now2: real)
    requires PreloadProceeds(s, now1) && now2 - now1 <= 3.0
    ensures var r := PreloadStep(v, s, t1, now1);
      PreloadStep(r.display, r.statics, t2, now2) == r
  {
    PreloadOutcome(v, s, t1, now1);
    var r := PreloadStep(v, s, t1, now1);
    assert !PreloadProceeds(r.statics, now2);
    PreloadOutcome(r.display, r.statics, t2, now2);
  }

  // ---------------------------------------------------------------------
  // Parsing the bulk response
  // ---------------------------------------------------------------------

  /** The four caches a load writes have unique keys, as `TMap`s do. */
  predicate CachesUnique(k: Caches)
  {
    UniqueKeys(k.data) && UniqueKeys(k.colors) && UniqueKeys(k.gmlIds) && UniqueKeys(k.coords)
  }

  /**
   * A body that is not JSON changes nothing. Otherwise the caches keep unique keys, the colour
   * cache after de-duplication answers every lookup as the loop left it, and the data counts as
   * loaded.
   */
  lemma ParseOutcome(v: DisplayView, s: Shared, body: Option<seq<Option<BuildingRecord>>>, c: Codecs, q: string)
    requires CachesUnique(v.caches)
    ensures body.None? ==> ParseStep(v, s, body, c) == System(v, s)
    ensures body.Some? ==>
      var r := ParseStep(v, s, body, c).display;
      var st := IngestAll(StoresOf(v.caches), body.value, c);
      CachesUnique(r.caches) && r.session.dataLoaded && r.caches.data == st.data && r.caches.gmlIds == st.gmlIds &&
      Find(r.caches.colors, q) == Find(st.colors, q)
  {
    if body.Some? {
      var st := IngestAll(StoresOf(v.caches), body.value, c);
      IngestAllUnique(StoresOf(v.caches), body.value, c);
      DedupUnique(st.colors);
      DedupFind(st.colors, q);
    }
  }

  /** The preload response always ends the loading state; a 401 asks for a refresh when it can. */
  lemma PreloadResponseEndsLoading(v: DisplayView, s: Shared, reply: Reply<Option<seq<Option<BuildingRecord>>>>,
                                   c: Codecs)
    ensures !PreloadResponseStep(v, s, reply, c).display.session.isLoading
    ensures reply.Reply? && reply.code == 401 && |v.session.refreshToken| > 0 ==>
      PreloadResponseStep(v, s, reply, c).display.effects == v.effects + [RefreshRequest(v.session.refreshToken)]
    ensures StatusDispatch(reply, v.session.refreshToken) == Drop ==>
      PreloadResponseStep(v, s, reply, c) == System(StopLoading(v), s)
  {
  }

  // ---------------------------------------------------------------------
  // Authentication
  // ---------------------------------------------------------------------

  /** An authentication call reaches the body when none is marked in progress or the mark is over 2 seconds old. */
  predicate AuthProceeds(s: Shared, now: real)
  {
    !s.auth.inProgress || now - s.auth.lastResetTime > 2.0
  }

  /**
   * The remembered token is never set, so an authentication that proceeds always asks the
   * server: it never changes the access token, marks itself in progress, and sends a request
   * exactly when the transfer starts.
   */
  lemma AuthAlwaysRequests(v: DisplayView, s: Shared, now: real, sent: bool)
    requires s.auth.lastSuccessfulToken == ""
    ensures var r := AuthStep(v, s, now, sent);
      r.display.session.accessToken == v.session.accessToken &&
      r.statics.auth.lastSuccessfulToken == "" && r.statics.auth.inProgress
    ensures AuthProceeds(s, now) ==>
      var r := AuthStep(v, s, now, sent);
      r.display == v.(session := v.session.(dataLoaded := false, isLoading := sent),
                      effects := v.effects + if sent then [AuthRequest] else [])
    ensures !AuthProceeds(s, now) ==> AuthStep(v, s, now, sent) == System(v, s)
  {
  }

  /**
   * Every outcome of the authentication response leaves the in-progress mark and the remembered
   * token as they were; a granted token stores both tokens and preloads with the access token.
   */
  lemma AuthResponseOutcome(v: DisplayView, s: Shared, reply: Reply<TokenBody>, now: real)
    ensures var a := AuthResponseStep(v, s, reply, now).statics.auth;
      a.inProgress == s.auth.inProgress && a.lastResetTime == s.auth.lastResetTime &&
      a.lastSuccessfulToken == s.auth.lastSuccessfulToken
    ensures !TokenResult(reply).Granted? ==> AuthResponseStep(v, s, reply, now).display == StopLoading(v)
    ensures TokenResult(reply).Granted? && PreloadProceeds(s, now) ==>
      var r := AuthResponseStep(v, s, reply, now);
      var access := reply.body.access.value;
      r.display.session.accessToken == access && r.display.session.refreshToken == reply.body.refresh &&
      r.statics.auth.globalSuccessToken == access &&
      (|access| > 0 ==> r.display.effects == v.effects + [PreloadRequest(access)])
  {
    match TokenResult(reply)
    case Granted(access, refresh) =>
      var w := v.(session := v.session.(refreshToken := refresh, accessToken := access, authMessageShown := false));
      var t := s.(auth := s.auth.(globalSuccessToken := access, globalInProgress := false, successFlag := false));
      assert AuthResponseStep(v, s, reply, now) == PreloadStep(w, t, access, now);
    case _ =>
  }

  /**
   * The authentication latch: after an authentication that proceeded and whatever response it
   * got, a second authentication within 2 seconds of the first one's reset is ignored.
   */
  lemma AuthLatch(v: DisplayView, s: Shared, now1: real, sent1: bool, reply: Reply<TokenBody>, now2: real,
                  now3: real, sent3: bool)
    requires s.auth.lastSuccessfulToken == "" && AuthProceeds(s, now1)
    ensures var r1 := AuthStep(v, s, now1, sent1);
      var r2 := AuthResponseStep(r1.display, r1.statics, reply, now2);
      now3 - r1.statics.auth.lastResetTime <= 2.0 ==>
        AuthStep(r2.display, r2.statics, now3, sent3) == r2
  {
    var r1 := AuthStep(v, s, now1, sent1);
    AuthAlwaysRequests(v, s, now1, sent1);
    var r2 := AuthResponseStep(r1.display, r1.statics, reply, now2);
    AuthResponseOutcome(r1.display, r1.statics, reply, now2);
    if now3 - r1.statics.auth.lastResetTime <= 2.0 {
      assert !AuthProceeds(r2.statics, now3);
      AuthAlwaysRequests(r2.display, r2.statics, now3, sent3);
    }
  }

  /** `RefreshBuildingCache` does nothing while loading and otherwise authenticates, clearing first when a token is held. */
  lemma RefreshCacheOutcome(v: DisplayView, s: Shared, now: real, sent: bool)
    ensures v.session.isLoading ==> RefreshCacheStep(v, s, now, sent) == System(v, s)
    ensures !v.session.isLoading && s.auth.lastSuccessfulToken == "" && AuthProceeds(s, now) ==>
      var r := RefreshCacheStep(v, s, now, sent).display;
      !r.session.dataLoaded && r.session.isLoading == sent && r.caches.colors == v.caches.colors &&
      r.effects == v.effects + (if sent then [AuthRequest] else []) &&
      (|v.session.accessToken| > 0 ==> r.caches.data == [] && r.caches.gmlIds == [])
  {
    if !v.session.isLoading && s.auth.lastSuccessfulToken == "" {
      AuthAlwaysRequests(v, s, now, sent);
      AuthAlwaysRequests(Unload(v), s, now, sent);
    }
  }

  /**
   * The refresh-token response sends nothing: a granted token replaces the access token, and
   * any other outcome leaves the display as it was.
   */
  lemma RefreshResponseOutcome(v: DisplayView, reply: Reply<TokenBody>)
    ensures RefreshResponseStep(v, reply).effects == v.effects
    ensures TokenResult(reply).Granted? ==>
      RefreshResponseStep(v, reply) ==
        v.(session := v.session.(accessToken := reply.body.access.value, authMessageShown := false))
    ensures !TokenResult(reply).Granted? ==> RefreshResponseStep(v, reply) == v
  {
  }

  // ---------------------------------------------------------------------
  // Energy updates and change detection
  // ---------------------------------------------------------------------

  /** An energy update response never adds, drops or renames a data cache key. */
  lemma EnergyUpdateResponseKeepsKeys(v: DisplayView, reply: Reply<Results<EnergyUpdate>>, c: Codecs)
    ensures var k := EnergyUpdateResponseStep(v, reply, c).caches;
      |k.data| == |v.caches.data| && (forall j :: 0 <= j < |k.data| ==> k.data[j].0 == v.caches.data[j].0) &&
      k.colors == v.caches.colors && k.gmlIds == v.caches.gmlIds
  {
    if StatusDispatch(reply, v.session.refreshToken) == Proceed && reply.body.Results? {
      EnergyUpdatesKeepKeys(v.caches.data, v.caches.coords, reply.body.items, c.parse);
    }
  }

  /**
   * Starting the monitoring snapshots the caches, so a feed element that repeats what the data
   * cache holds is not a change; in enhanced mode polling restarts fast with a zero count.
   */
  lemma StartMonitoringSnapshots(v: DisplayView, it: ChangeItem)
    requires Find(v.caches.data, it.modifiedGmlId) == Some(it.serialized)
    ensures var w := StartMonitoringStep(v);
      !IsChanged(w.caches.dataSnapshot, it) && w.caches.colorSnapshot == v.caches.colors &&
      w.monitor.enabled && w.monitor.timer == 0.0 && w.monitor.polling.noChanges == 0 &&
      (v.monitor.polling.enhanced ==> w.monitor.polling.interval == v.monitor.polling.fast)
  {
  }

  /** Once the monitoring is stopped, no tick starts a real-time check, however much time passes. */
  lemma StoppedMonitoringNeverChecks(v: DisplayView, dt: real, sent: bool)
    ensures var w := StopMonitoringStep(v);
      !TickStep(w, dt, sent).monitor.performing &&
      TickStep(w, dt, sent).monitor == w.monitor
  {
    SocketTickFrame(StopMonitoringStep(v), dt);
  }

  /**
   * After enhanced polling is switched on, `k >= 1` quiet polls in a row leave the fast interval
   * exactly when `k` reaches the threshold.
   */
  lemma EnhancedPollingSlowsDown(v: DisplayView, k: nat)
    requires k >= 1
    ensures var p := EnableEnhancedStep(v, true).monitor.polling;
      QuietPolls(p, k).noChanges == k &&
      QuietPolls(p, k).interval == if k >= p.threshold then p.slow else p.fast
  {
    QuietPollsSlowDown(EnableEnhancedStep(v, true).monitor.polling, k);
  }

  /** The update interval always lands in [0.5, 60], and a value inside that range is kept. */
  lemma IntervalClamped(v: DisplayView, seconds: real)
    ensures var i := SetIntervalStep(v, seconds).monitor.polling.interval;
      0.5 <= i <= 60.0 && (0.5 <= seconds <= 60.0 ==> i == seconds)
  {
  }

  /** The real-time response always ends the flight, so the next due tick can check again. */
  lemma RealTimeResponseEndsFlight(v: DisplayView, reply: Reply<FeedBody>, c: Codecs)
    ensures !RealTimeResponseStep(v, reply, c).monitor.performing
    ensures reply.Failed? || reply.code != 200 ==>
      RealTimeResponseStep(v, reply, c) == v.(monitor := v.monitor.(performing := false))
  {
  }

  /** A feed in which every element matches the snapshot only counts one more quiet poll. */
  lemma QuietFeedChangesNothing(v: DisplayView, items: seq<Option<ChangeItem>>, c: Codecs)
    requires forall i :: 0 <= i < |items| && items[i].Some? ==> !IsChanged(v.caches.dataSnapshot, items[i].value)
    ensures DetectStep(v, Results(items), c) == v.(monitor := v.monitor.(polling := NextPolling(v.monitor.polling, false)))
  {
    UnchangedFeed(v.caches.dataSnapshot, items, c.srgb);
  }

  /**
   * After change detection the data cache and its snapshot read the new text for every id the
   * feed reports changed and what they read before for every other id; the colour cache and its
   * snapshot read the new colour for a changed id whose end object carried one, and what they read
   * before otherwise; the polling strategy learns whether anything changed, and nothing is emitted
   * when nothing changed.
   */
  lemma DetectUpdatesChangedOnly(v: DisplayView, items: seq<Option<ChangeItem>>, c: Codecs, q: string)
    ensures var d := Detect(v.caches.dataSnapshot, items, c.srgb);
      var w := DetectStep(v, Results(items), c);
      var hit := exists j :: 0 <= j < |d.changed| && EqualsIgnoreCase(d.changed[j], q);
      Find(w.caches.data, q) == (if hit then Find(d.newData, q) else Find(v.caches.data, q)) &&
      Find(w.caches.dataSnapshot, q) == (if hit then Find(d.newData, q) else Find(v.caches.dataSnapshot, q)) &&
      w.monitor.polling == NextPolling(v.monitor.polling, |d.changed| > 0) &&
      (|d.changed| == 0 ==> w.effects == v.effects)
    ensures var d := Detect(v.caches.dataSnapshot, items, c.srgb);
      var w := DetectStep(v, Results(items), c);
      var hit := exists j :: 0 <= j < |d.changed| && EqualsIgnoreCase(d.changed[j], q);
      var recolour := hit && Find(d.newColors, q).Some?;
      Find(w.caches.colors, q) == (if recolour then Find(d.newColors, q) else Find(v.caches.colors, q)) &&
      Find(w.caches.colorSnapshot, q) ==
        (if recolour then Find(d.newColors, q) else Find(v.caches.colorSnapshot, q))
  {
    var d := Detect(v.caches.dataSnapshot, items, c.srgb);
    ChangedIdsOnly(v.caches.data, v.caches.dataSnapshot, items, c.srgb, q);
    ChangedIdsOnly(v.caches.dataSnapshot, v.caches.dataSnapshot, items, c.srgb, q);
    ApplyChangesFind(v.caches.colors, d.changed, d.newColors, q);
    ApplyChangesFind(v.caches.colorSnapshot, d.changed, d.newColors, q);
    WrittenByFind(d.changed, d.newColors, q);
  }

  /** A changed id writes a key exactly when it names the key and the update map holds it. */
  lemma WrittenByFind<V>(ids: seq<string>, updates: CIMap<V>, q: string)
    ensures WrittenBy(ids, updates, q) <==>
      (exists j :: 0 <= j < |ids| && EqualsIgnoreCase(ids[j], q)) && Find(updates, q).Some?
  {
    if exists j :: 0 <= j < |ids| && EqualsIgnoreCase(ids[j], q) {
      var j :| 0 <= j < |ids| && EqualsIgnoreCase(ids[j], q);
      FindSameKey(updates, ids[j], q);
    }
    if WrittenBy(ids, updates, q) {
      var j :| 0 <= j < |ids| && EqualsIgnoreCase(ids[j], q) && ContainsKey(updates, ids[j]);
      FindSameKey(updates, ids[j], q);
    }
  }

  /** A change feed that does not parse, or has no results array, changes nothing. */
  lemma MalformedFeedChangesNothing(v: DisplayView, feed: Results<ChangeItem>, c: Codecs)
    requires !feed.Results?
    ensures DetectStep(v, feed, c) == v
  {
  }

  // ---------------------------------------------------------------------
  // Tileset styling
  // ---------------------------------------------------------------------

  /** The first refresh after start-up is never throttled: the last re-apply time starts at -1. */
  lemma FirstTilesetRefreshRestyles(v: DisplayView, worldTime: real)
    requires v.monitor.lastColorReapplyTime < 0.0 && |v.caches.colors| > 0 && ResolveTileset(v.world).Some?
    ensures TilesetRefreshStep(v, worldTime).monitor.lastColorReapplyTime == worldTime
  {
  }

  /** Within 4 seconds of a refresh that re-styled, the next refresh does nothing. */
  lemma TilesetRefreshThrottled(v: DisplayView, t1: real, t2: real)
    requires t1 >= 0.0 && TilesetRefreshStep(v, t1).monitor.lastColorReapplyTime == t1 && t2 - t1 < 4.0
    ensures var w := TilesetRefreshStep(v, t1);
      TilesetRefreshStep(w, t2) == w
  {
  }

  /** An override actor wins over the scene, whatever the configured name. */
  lemma OverrideWins(v: DisplayView, a: SceneActor)
    requires v.world.tilesetOverride == Some(a) && a.hasTilesetComponent && a.hasSetStyle && |v.caches.colors| > 0
    ensures StyleStep(v).effects == v.effects + [StyleApplied(StyleJson(v.caches.colors))]
  {
  }

  // ---------------------------------------------------------------------
  // The info display
  // ---------------------------------------------------------------------

  /**
   * Only the primary instance shows anything. Showing a different building than the one on
   * display first hides that one; showing the same building (ignoring case) does not.
   */
  lemma ShowOutcome(v: DisplayView, id: string, data: string, isPrimary: bool)
    ensures !isPrimary ==> ShowStep(v, id, data, isPrimary) == v
    ensures isPrimary ==> ShowStep(v, id, data, isPrimary).selection.displayedId == id
    ensures isPrimary ==> (ShowStep(v, id, data, isPrimary).effects ==
      v.effects + (if |v.selection.displayedId| > 0 && !EqualsIgnoreCase(v.selection.displayedId, id)
                   then [InfoHidden] else []) + [InfoShown(id, data)])
  {
  }

  /** Displaying a building the cache holds a non-empty entry for shows that entry under the id asked for. */
  lemma DisplayShowsDirectHit(v: DisplayView, id: string, now: real)
    requires DisplayProceeds(v, id, now)
    requires Find(v.caches.data, id).Some? && |Find(v.caches.data, id).value| > 0
    ensures var w := DisplayStep(v, id, now, true);
      w.selection.displayedId == id && w.effects[|w.effects| - 1] == InfoShown(id, Find(v.caches.data, id).value)
  {
  }

  /** Within 1 second of displaying a building, displaying it again (ignoring case) does nothing. */
  lemma DisplayDebounce(v: DisplayView, id: string, again: string, t1: real, t2: real, isPrimary: bool)
    requires DisplayProceeds(v, id, t1) && EqualsIgnoreCase(id, again) && t2 - t1 < 1.0
    ensures var w := DisplayStep(v, id, t1, isPrimary);
      DisplayStep(w, again, t2, isPrimary) == w
  {
    var w := DisplayStep(v, id, t1, isPrimary);
    assert w.selection.lastDisplayedId == id && w.selection.lastDisplayTime == t1;
  }

  /**
   * Unlike a click, the display path has no containment tier: with "ABC" cached, "AB" displays
   * nothing, while a click on "AB" is resolved to "ABC".
   */
  lemma DisplayHasNoSubstringTier()
    ensures DisplayTarget([("ABC", "x")], "AB").None?
    ensures ClickTarget([("ABC", "x")], "AB") == Some("ABC")
  {
    var m: CIMap<string> := [("ABC", "x")];
    ReplaceCharByChar("AB", 'L', '_');
    ReplaceCharByChar("AB", '_', 'L');
    ReplaceCharByChar("ABC", 'L', '_');
    ReplaceCharByChar("ABC", '_', 'L');
    var qv, kv := Variations("AB"), Variations("ABC");
    assert forall a, b :: 0 <= a < 3 && 0 <= b < 3 ==> |qv[a]| == 2 && |kv[b]| == 3;
    assert !VariantMatch("AB", "ABC");
    assert Fold("AB") != Fold("ABC");
    assert !ContainsKey(m, "AB");
    assert FirstMatch(m, "AB", SameVariant).None?;
    assert "ABC"[0..2] == "AB";
    assert MatchAt("ABC", "AB", 0);
    assert TierMatch(Substring, m[0].0, "AB");
    SameTextTierNeverHits(m, "AB");
  }

  /** A reload by the real-time fetch re-shows the building on display with its new entry. */
  lemma RealTimeReloadRefreshesDisplay(v: DisplayView, s: Shared, reply: Reply<Option<seq<Option<BuildingRecord>>>>,
                                       c: Codecs)
    requires reply.Reply? && reply.code == 200 && reply.body.Some? && |v.selection.displayedId| > 0
    ensures var r := RealTimeEnergyResponseStep(v, s, reply, c, true).display;
      var st := IngestAll(StoresOf(v.caches.(data := [], gmlIds := [])), reply.body.value, c);
      var entry := Find(st.data, v.selection.displayedId);
      r.session.dataLoaded && !r.session.isLoading && r.caches.data == st.data &&
      (entry.Some? && |entry.value| > 0 ==>
        r.selection.displayedId == v.selection.displayedId &&
        r.effects == v.effects + [InfoShown(v.selection.displayedId, entry.value)])
  {
    assert EqualsIgnoreCase(v.selection.displayedId, v.selection.displayedId);
  }

  // ---------------------------------------------------------------------
  // Clicks and the attributes form
  // ---------------------------------------------------------------------

  /**
   * Opening the form caches the id it asks the service for, so every later opening of the same
   * building asks for the same id.
   */
  lemma FormApiIdStable(v: DisplayView, s: Shared, id: string, now: real)
    requires !Debounced(s.form, id, now)
    ensures var w := FormStep(v, s, id, now).display;
      w.selection.currentBuildingId == id && FormApiId(w.caches.gmlIds, id) == FormApiId(v.caches.gmlIds, id) &&
      w.effects == v.effects + if v.world.formClassSet
                               then [FormOpened(FormApiId(v.caches.gmlIds, id), v.session.accessToken)] else []
  {
    var cached := Find(v.caches.gmlIds, id);
    if !(cached.Some? && |cached.value| > 0) {
      FindAdd(v.caches.gmlIds, id, ConvertGmlIdToBuildingKey(id), id);
      assert EqualsIgnoreCase(id, id);
    }
  }

  /** A click is ignored for the empty id, the placeholder ids and a missing token, apart from its debounce record. */
  lemma ClickIgnored(v: DisplayView, s: Shared, id: string, now: real)
    requires |id| == 0 || IsPlaceholderId(id) || |v.session.accessToken| == 0
    ensures ClickStep(v, s, id, now).display == v
  {
  }

  /** Within 0.3 seconds of a click, another click on the same building (ignoring case) is ignored. */
  lemma ClickDebounce(v: DisplayView, s: Shared, id: string, again: string, t1: real, t2: real)
    requires EqualsIgnoreCase(id, again) && t2 - t1 < 0.3 && !Debounced(s.click, id, t1)
    ensures var r := ClickStep(v, s, id, t1);
      ClickStep(r.display, r.statics, again, t2) == r
  {
    var r := ClickStep(v, s, id, t1);
    assert r.statics.click == Debounce(id, t1);
  }

  /**
   * A click that gets past its checks opens the form for the building the lookup ladder
   * resolves, asking for that building's attributes id.
   */
  lemma ClickOpensResolvedBuilding(v: DisplayView, s: Shared, id: string, now: real)
    requires !Debounced(s.click, id, now) && !(now - s.form.lastTime < 0.3)
    requires |id| > 0 && !IsPlaceholderId(id) && |v.session.accessToken| > 0 && v.world.formClassSet
    ensures var w := ClickStep(v, s, id, now).display;
      match ClickTarget(v.caches.data, id)
      case Some(k) =>
        w.selection.currentBuildingId == k &&
        w.effects == v.effects + [FormOpened(FormApiId(v.caches.gmlIds, k), v.session.accessToken)]
      case None => w == v
  {
    match ClickTarget(v.caches.data, id)
    case Some(k) =>
      FormApiIdStable(v, s.(click := Debounce(id, now)), k, now);
    case None =>
  }

  /**
   * A click with a position on a building the coordinate cache knows goes through as clicked
   * when the position is valid for it, and to the building found at the position otherwise.
   */
  lemma ClickWithPositionRouting(v: DisplayView, s: Shared, id: string, p: Vec3, now: real)
    ensures !ContainsKey(v.caches.coords, id) || ValidPosition(v.caches.coords, p, id) ==>
      ClickWithPositionStep(v, s, id, p, now) == ClickStep(v, s, id, now)
    ensures ContainsKey(v.caches.coords, id) && !ValidPosition(v.caches.coords, p, id) ==>
      var correct := BuildingAt(v.caches.coords, p);
      ClickWithPositionStep(v, s, id, p, now) ==
        if |correct| > 0 && !EqualsIgnoreCase(correct, id) then ClickStep(v, s, correct, now) else System(v, s)
  {
  }

  /** Both attribute requests name the service's spelling of the building key. */
  lemma AttributeRequestsUseApiId(v: DisplayView, key: string, community: string, json: string, token: string)
    ensures var w := AttributesRequestStep(v, key, community, token);
      w.session.requestedKey == key && w.session.requestedCommunity == community &&
      w.effects == v.effects + [AttributesRequest(AttributesApiId(key), community, token)]
    ensures AttributesUpdateStep(v, key, community, json, token).effects ==
      v.effects + [AttributesUpdate(AttributesApiId(key), community, json, token)]
  {
  }

  /**
   * The attributes response is ignored unless a building was requested and the data cache knows
   * it; a 200 with JSON creates the form from the body.
   */
  lemma AttributesResponseGate(v: DisplayView, reply: Reply<AttributesBody>)
    ensures |v.session.requestedKey| == 0 || !ContainsKey(v.caches.data, v.session.requestedKey) ==>
      AttributesResponseStep(v, reply) == v
    ensures |v.session.requestedKey| > 0 && ContainsKey(v.caches.data, v.session.requestedKey) &&
            reply.Reply? && reply.code == 200 ==>
      AttributesResponseStep(v, reply).effects ==
        v.effects + if reply.body.isJson then [FormCreated(reply.body.content)] else []
  {
  }

  /** Without a socket URL, a successful attribute update fetches energy updates and real-time data when a token is held. */
  lemma UpdateSuccessRefetches(v: DisplayView, reply: Reply<()>)
    requires reply.Reply? && IsUpdateSuccess(reply.code) && |v.link.url| == 0
    ensures |v.session.accessToken| > 0 ==>
      UpdateAttributesResponseStep(v, reply).effects ==
        v.effects + [EnergyUpdateRequest(v.session.accessToken), RealTimeEnergyRequest]
    ensures |v.session.accessToken| == 0 ==>
      UpdateAttributesResponseStep(v, reply) == v.(session := v.session.(authMessageShown := true))
  {
    if |v.session.accessToken| > 0 {
      var w := ConnectStep(v);
      assert RealTimeFetchStep(w).effects == w.effects + [RealTimeEnergyRequest];
      assert w.effects == v.effects + [EnergyUpdateRequest(v.session.accessToken)];
    }
  }

  /** Forcing a refresh empties the data and alias caches and asks for the data again when a token is held. */
  lemma ForceRefreshOutcome(v: DisplayView)
    ensures var w := ForceRefreshStep(v);
      w.caches == v.caches.(data := [], gmlIds := []) && !w.session.dataLoaded && !w.session.isLoading &&
      w.effects == v.effects + if |v.session.accessToken| > 0 then [RealTimeEnergyRequest] else []
  {
  }

  // ---------------------------------------------------------------------
  // Start-up values
  // ---------------------------------------------------------------------

  /**
   * The header's initial values: enhanced polling at 2 s (fast 1 s, slow 5 s, threshold 10) with no
   * quiet poll counted, monitoring on with no check in flight, the socket closed with no URL, a 5 s
   * reconnect interval and auto-reconnect, the "bisingen" tileset with no override, and the last
   * re-style time at -1. So after start-up quiet polls keep the fast interval until the tenth, and
   * the first tileset refresh once colours are cached is not throttled.
   */
  lemma InitialDisplayDefaults(actors: seq<SceneActor>, formClassSet: bool, colors: ColorCache, k: nat,
                               worldTime: real)
    ensures var v := InitialView(actors, formClassSet);
      v.monitor.polling == Polling(true, 2.0, 1.0, 5.0, 0, 10) &&
      v.monitor.enabled && !v.monitor.performing && v.monitor.lastColorReapplyTime == -1.0 &&
      !v.link.connected && v.link.url == "" && v.link.reconnectInterval == 5.0 && v.link.autoReconnect &&
      v.world.tilesetName == "bisingen" && v.world.tilesetOverride.None?
    ensures k >= 1 ==>
      QuietPolls(InitialView(actors, formClassSet).monitor.polling, k).interval == if k >= 10 then 5.0 else 1.0
    ensures var v := InitialView(actors, formClassSet).(caches := Caches([], colors, [], [], [], []));
      |colors| > 0 && ResolveTileset(v.world).Some? ==>
      TilesetRefreshStep(v, worldTime).monitor.lastColorReapplyTime == worldTime
  {
    if k >= 1 {
      QuietPollsSlowDown(InitialView(actors, formClassSet).monitor.polling, k);
    }
  }
}
