/**
 * The parsed responses `ABuildingEnergyDisplay` works on, and the pure rules it applies to them:
 * how one building of the bulk response is ingested into the caches, how a change feed is compared
 * with the snapshot, how the polling interval adapts, how the lookup ladders match ids, and how a
 * response is dispatched on its status code.
 *
 * JSON decoding is not modelled: a response body arrives already parsed into the datatypes below,
 * which keep exactly the distinctions the code draws (a field that is missing, present but not an
 * object, or an object).
 */
module EnergyFeed {
  import opened Wrappers
  import opened UnrealString
  import opened CaseInsensitiveMap
  import opened Identifiers
  import opened Spatial
  import opened CesiumStyle

  // ---------------------------------------------------------------------
  // Parsed building records
  // ---------------------------------------------------------------------

  /** A field read with `GetObjectField`: missing, present but not an object, or an object. */
  datatype Member<T> = Absent | NotAnObject | Object(obj: T)

  /** A `color` object: its `energy_demand_specific_color` string, if the field is there. */
  datatype ColorObject = ColorObject(specificColor: Option<string>)

  /**
   * The fields read from a result object: its `color` object and the `value` of its
   * `co2_from_energy_demand` and `energy_demand_specific` objects (`None`: missing or null).
   */
  datatype Figures = Figures(color: Member<ColorObject>, co2: Option<int>, specific: Option<int>)

  /** A `begin`, `end`, `before` or `after` object: its own fields and its `result` object. */
  datatype Phase = Phase(own: Figures, result: Member<Figures>)

  /** An `energy_result` (or `energy_data`, or `result`) object. */
  datatype EnergyResult = EnergyResult(begin: Member<Phase>, end: Member<Phase>,
                                       before: Member<Phase>, after: Member<Phase>)

  /**
   * One element of the bulk response. `modifiedGmlId` is what `GetStringField` returns (empty when
   * the field is missing); `numericId` is the `id` field when it reads as a number; the coordinate
   * fields are the text handed to the coordinate parser (`geom` already serialised).
   */
  datatype BuildingRecord = BuildingRecord(
    modifiedGmlId: string,
    gmlId: Option<string>,
    energyResult: Member<EnergyResult>,
    energyData: Member<EnergyResult>,
    result: Member<EnergyResult>,
    numericId: Option<real>,
    coordinates: Option<string>,
    geom: Member<string>,
    position: Option<string>)

  /** The conversions the ingest needs but that are not modelled: colour space, `%.3f`, point parsing. */
  datatype Codecs = Codecs(srgb: (nat, nat, nat) -> LinearColor, tonnes: int -> string,
                           parse: string -> seq<Vec3>)

  /** The four caches the ingest writes. */
  datatype Stores = Stores(data: CIMap<string>, colors: ColorCache, gmlIds: CIMap<string>,
                           coords: CoordinatesCache)

  /** `%d`. */
  function IntToString(n: int): (s: string)
    ensures |s| > 0
  {
    if n < 0 then "-" + NatToString(-n) else NatToString(n)
  }

  /** `(int32)d` on a double in range: truncation toward zero. */
  function TruncateTowardZero(d: real): int
  {
    if d >= 0.0 then d.Floor else -((-d).Floor)
  }

  /** The alias id: the `gml_id` field if present, else the modified id with every '_' made 'L'. */
  function AliasOf(b: BuildingRecord): (r: string)
    ensures b.gmlId.Some? ==> r == b.gmlId.value
    ensures b.gmlId.None? ==> r == ConvertGmlIdToBuildingKey(b.modifiedGmlId)
  {
    UnderscoreRewrite(b.modifiedGmlId);
    if b.gmlId.Some? then b.gmlId.value else Replace(b.modifiedGmlId, "_", "L")
  }

  /** The alias is also written to the colour and data caches only when it is non-empty and not exactly the id. */
  predicate DistinctAlias(id: string, alias: string)
  {
    |alias| > 0 && alias != id
  }

  /** The energy object: `energy_result`, else `energy_data` when that field exists, else `result`. */
  function SelectEnergy(b: BuildingRecord): Option<EnergyResult>
  {
    if b.energyResult.Object? then Some(b.energyResult.obj)
    else if !b.energyData.Absent? then (if b.energyData.Object? then Some(b.energyData.obj) else None)
    else if b.result.Object? then Some(b.result.obj)
    else None
  }

  /** `begin` (or `end`), else the alternative `before` (or `after`). */
  function PickPhase(primary: Member<Phase>, alternative: Member<Phase>): Option<Phase>
  {
    if primary.Object? then Some(primary.obj)
    else if alternative.Object? then Some(alternative.obj)
    else None
  }

  /** The `result` object of a phase, or the phase itself when it has none. */
  function ResultOrSelf(p: Phase): Figures
  {
    if p.result.Object? then p.result.obj else p.own
  }

  /**
   * The colour of a building: the `end` object's colour object if it has one, else the colour
   * object of the end result; from it the `energy_demand_specific_color` field, else "#66b032".
   */
  function EndColorHex(end: Phase): (hex: string)
    ensures end.own.color.Object? ==> hex == end.own.color.obj.specificColor.GetOr(DefaultGreenHex)
    ensures !end.own.color.Object? && !ResultOrSelf(end).color.Object? ==> hex == DefaultGreenHex
  {
    match end.own.color
    case Object(c) => c.specificColor.GetOr(DefaultGreenHex)
    case _ =>
      match ResultOrSelf(end).color
      case Object(c) => c.specificColor.GetOr(DefaultGreenHex)
      case _ => DefaultGreenHex
  }

  const ReportHeading := "Building ID: "

  function FigureText(v: Option<int>, format: int -> string): string
  {
    match v
    case Some(x) => format(x)
    case None => "No data"
  }

  /** The display payload cached for a building; the `%.3f` tonnes text is a parameter. */
  function Report(id: string, before: Figures, after: Figures, tonnes: int -> string): (text: string)
    ensures |text| > |ReportHeading| + |id| && text[..|ReportHeading| + |id|] == ReportHeading + id
  {
    var lines := "\n\n"
      + "CO2 [t CO2/a]\n"
      + "Before Renovation: " + FigureText(before.co2, tonnes) + "\n"
      + "After Renovation: " + FigureText(after.co2, tonnes) + "\n\n"
      + "Energy Demand Specific [kWh/m\U{00B2}a]\n"
      + "Before Renovation: " + FigureText(before.specific, IntToString) + "\n"
      + "After Renovation: " + FigureText(after.specific, IntToString);
    PrefixOfAppend(ReportHeading + id, lines);
    ReportHeading + id + lines
  }

  lemma PrefixOfAppend(a: string, b: string)
    ensures |a + b| == |a| + |b| && (a + b)[..|a|] == a
  {
  }

  /** The coordinate key: `id#n` when the record carries a numeric `id`, else the id itself. */
  function CoordinateKey(id: string, numericId: Option<real>): (key: string)
    ensures numericId.None? ==> key == id
  {
    match numericId
    case Some(d) => id + "#" + IntToString(TruncateTowardZero(d))
    case None => id
  }

  /** A coordinate key made from an id without '#' maps back to that id under `BaseId`. */
  lemma CoordinateKeyBase(id: string, numericId: Option<real>)
    requires forall j :: 0 <= j < |id| ==> id[j] != '#'
    ensures BaseId(CoordinateKey(id, numericId)) == id
  {
    var key := CoordinateKey(id, numericId);
    var r := BaseId(key);
    if numericId.Some? {
      assert key[|id|] == '#';
      assert key[..|id|] == id;
    }
  }

  /** The coordinate text: `coordinates`, else `geom` when that field exists, else `position`. */
  function CoordinateText(b: BuildingRecord): Option<string>
  {
    if b.coordinates.Some? then b.coordinates
    else if !b.geom.Absent? then (if b.geom.Object? then Some(b.geom.obj) else None)
    else b.position
  }

  /** `StoreBuildingCoordinates`: the parsed points are stored only when there is at least one. */
  function StoreCoordinates(coords: CoordinatesCache, key: string, text: string,
                            parse: string -> seq<Vec3>): (r: CoordinatesCache)
    ensures |parse(text)| == 0 ==> r == coords
    ensures |parse(text)| > 0 ==> Find(r, key) == Some(parse(text))
  {
    var pts := parse(text);
    if |pts| > 0 then
      FindAdd(coords, key, pts, key);
      Add(coords, key, pts)
    else coords
  }

  /** The two phases of a record, when both can be found; `None` means the record is skipped. */
  function Phases(b: BuildingRecord): Option<(Phase, Phase)>
  {
    match SelectEnergy(b)
    case None => None
    case Some(e) =>
      var begin := PickPhase(e.begin, e.before);
      var end := PickPhase(e.end, e.after);
      if begin.Some? && end.Some? then Some((begin.value, end.value)) else None
  }

  /**
   * One pass of the `ParseAndCacheAllBuildings` loop over an object element. The alias mapping is
   * written first, before any skip; a record without energy data or phases is skipped after it.
   */
  function IngestBuilding(st: Stores, b: BuildingRecord, c: Codecs): Stores
  {
    var id := b.modifiedGmlId;
    var alias := AliasOf(b);
    var gml := Add(st.gmlIds, id, alias);
    match Phases(b)
    case None => st.(gmlIds := gml)
    case Some((begin, end)) =>
      var color := LinearOfHex(EndColorHex(end), c.srgb);
      var colors1 := Add(st.colors, id, color);
      var colors := if DistinctAlias(id, alias) then Add(colors1, alias, color) else colors1;
      var report := Report(id, ResultOrSelf(begin), ResultOrSelf(end), c.tonnes);
      var data1 := Add(st.data, id, report);
      var coords1 := match CoordinateText(b)
        case Some(t) => StoreCoordinates(st.coords, CoordinateKey(id, b.numericId), t, c.parse)
        case None => st.coords;
      if DistinctAlias(id, alias) then
        var combined := PrefixConcat(coords1, id);
        Stores(Add(data1, alias, report), colors, gml,
               if |combined| > 0 then Add(coords1, alias, combined) else coords1)
      else Stores(data1, colors, gml, coords1)
  }

  /** The whole loop: non-object elements are skipped. */
  function IngestAll(st: Stores, items: seq<Option<BuildingRecord>>, c: Codecs): Stores
  {
    if |items| == 0 then st
    else
      var s := IngestAll(st, items[..|items| - 1], c);
      match items[|items| - 1]
      case None => s
      case Some(b) => IngestBuilding(s, b, c)
  }

  /** The alias mapping is recorded for every record, skipped or not, and no other mapping changes. */
  lemma IngestRecordsAlias(st: Stores, b: BuildingRecord, c: Codecs, q: string)
    ensures Find(IngestBuilding(st, b, c).gmlIds, q) ==
      if EqualsIgnoreCase(q, b.modifiedGmlId) then Some(AliasOf(b)) else Find(st.gmlIds, q)
  {
    FindAdd(st.gmlIds, b.modifiedGmlId, AliasOf(b), q);
  }

  /** A skipped record changes nothing but the alias mapping. */
  lemma IngestSkipped(st: Stores, b: BuildingRecord, c: Codecs)
    requires Phases(b).None?
    ensures IngestBuilding(st, b, c) == st.(gmlIds := Add(st.gmlIds, b.modifiedGmlId, AliasOf(b)))
  {
  }

  /**
   * A record that is not skipped stores its colour and its payload under its id and, when the
   * alias is distinct, under the alias too, with the same values; every other key is untouched.
   */
  lemma IngestStores(st: Stores, b: BuildingRecord, c: Codecs, q: string)
    requires Phases(b).Some?
    ensures var id, alias := b.modifiedGmlId, AliasOf(b);
      var (begin, end) := Phases(b).value;
      var color := LinearOfHex(EndColorHex(end), c.srgb);
      var report := Report(id, ResultOrSelf(begin), ResultOrSelf(end), c.tonnes);
      var r := IngestBuilding(st, b, c);
      var hit := EqualsIgnoreCase(q, id) || (DistinctAlias(id, alias) && EqualsIgnoreCase(q, alias));
      Find(r.colors, q) == (if hit then Some(color) else Find(st.colors, q)) &&
      Find(r.data, q) == (if hit then Some(report) else Find(st.data, q))
  {
    var id, alias := b.modifiedGmlId, AliasOf(b);
    var (begin, end) := Phases(b).value;
    var color := LinearOfHex(EndColorHex(end), c.srgb);
    var report := Report(id, ResultOrSelf(begin), ResultOrSelf(end), c.tonnes);
    var colors1 := Add(st.colors, id, color);
    var data1 := Add(st.data, id, report);
    FindAdd(st.colors, id, color, q);
    FindAdd(st.data, id, report, q);
    if DistinctAlias(id, alias) {
      FindAdd(colors1, alias, color, q);
      FindAdd(data1, alias, report, q);
    }
  }

  /** A record without a `gml_id` field gets the '_' -> 'L' rewrite of its id as alias. */
  lemma AliasFallback(b: BuildingRecord)
    requires b.gmlId.None?
    ensures AliasOf(b) == UnderscoreToL(b.modifiedGmlId)
  {
  }

  /** Adding a value under a key, then under its alias when that is a different key, keeps keys unique. */
  lemma AliasPairUnique<V>(m: CIMap<V>, id: string, alias: string, v: V, both: bool)
    requires UniqueKeys(m)
    ensures UniqueKeys(if both then Add(Add(m, id, v), alias, v) else Add(m, id, v))
  {
    AddUnique(m, id, v);
    AddUnique(Add(m, id, v), alias, v);
  }

  /** One pass keeps every cache key unique, as a `TMap` guarantees. */
  lemma IngestBuildingUnique(st: Stores, b: BuildingRecord, c: Codecs)
    requires UniqueKeys(st.data) && UniqueKeys(st.colors) && UniqueKeys(st.gmlIds) && UniqueKeys(st.coords)
    ensures var r := IngestBuilding(st, b, c);
      UniqueKeys(r.data) && UniqueKeys(r.colors) && UniqueKeys(r.gmlIds) && UniqueKeys(r.coords)
  {
    var id, alias := b.modifiedGmlId, AliasOf(b);
    AddUnique(st.gmlIds, id, alias);
    match Phases(b)
    case None =>
    case Some((begin, end)) =>
      var both := DistinctAlias(id, alias);
      AliasPairUnique(st.colors, id, alias, LinearOfHex(EndColorHex(end), c.srgb), both);
      AliasPairUnique(st.data, id, alias, Report(id, ResultOrSelf(begin), ResultOrSelf(end), c.tonnes), both);
      var coords1 := match CoordinateText(b)
        case Some(t) => StoreCoordinates(st.coords, CoordinateKey(id, b.numericId), t, c.parse)
        case None => st.coords;
      if CoordinateText(b).Some? {
        AddUnique(st.coords, CoordinateKey(id, b.numericId), c.parse(CoordinateText(b).value));
      }
      AddUnique(coords1, alias, PrefixConcat(coords1, id));
  }

  /** Every key of the caches stays unique through the loop. */
  lemma {:induction false} IngestAllUnique(st: Stores, items: seq<Option<BuildingRecord>>, c: Codecs)
    requires UniqueKeys(st.data) && UniqueKeys(st.colors) && UniqueKeys(st.gmlIds) && UniqueKeys(st.coords)
    ensures var r := IngestAll(st, items, c);
      UniqueKeys(r.data) && UniqueKeys(r.colors) && UniqueKeys(r.gmlIds) && UniqueKeys(r.coords)
  {
    if |items| > 0 {
      IngestAllUnique(st, items[..|items| - 1], c);
      if items[|items| - 1].Some? {
        IngestBuildingUnique(IngestAll(st, items[..|items| - 1], c), items[|items| - 1].value, c);
      }
    }
  }

  // ---------------------------------------------------------------------
  // Results arrays
  // ---------------------------------------------------------------------

  /**
   * A body that holds a `results` array: it may fail to parse, lack the array, or hold elements
   * that are objects (`Some`) or not (`None`).
   */
  datatype Results<T> = Unparsable | NoResults | Results(items: seq<Option<T>>)

  // ---------------------------------------------------------------------
  // Change detection
  // ---------------------------------------------------------------------

  /**
   * One element of the change feed: its `modified_gml_id`, its serialised text, and the
   * `energy_demand_specific_color` of `end.color` when those objects and the field exist.
   */
  datatype ChangeItem = ChangeItem(modifiedGmlId: string, serialized: string, endColorHex: Option<string>)

  /** An element counts as changed when its id is non-empty and the snapshot lacks it or holds other text. */
  predicate IsChanged(snapshot: CIMap<string>, it: ChangeItem)
  {
    |it.modifiedGmlId| > 0 &&
    (Find(snapshot, it.modifiedGmlId).None? || Find(snapshot, it.modifiedGmlId).value != it.serialized)
  }

  /** The changed ids in feed order, and the new text and colour per changed id (the last one wins). */
  datatype Detection = Detection(changed: seq<string>, newData: CIMap<string>, newColors: ColorCache)

  /** The first loop of `DetectAndApplyChanges`, which compares against the snapshot taken before it. */
  function Detect(snapshot: CIMap<string>, items: seq<Option<ChangeItem>>,
                  srgb: (nat, nat, nat) -> LinearColor): Detection
  {
    if |items| == 0 then Detection([], [], [])
    else
      var d := Detect(snapshot, items[..|items| - 1], srgb);
      match items[|items| - 1]
      case None => d
      case Some(it) =>
        if !IsChanged(snapshot, it) then d
        else
          var id := it.modifiedGmlId;
          Detection(d.changed + [id], Add(d.newData, id, it.serialized),
                    if it.endColorHex.Some? then Add(d.newColors, id, LinearOfHex(it.endColorHex.value, srgb))
                    else d.newColors)
  }

  /** The second loop: each changed id that has a new value is written with `Add`. */
  function ApplyChanges<V>(cache: CIMap<V>, ids: seq<string>, updates: CIMap<V>): CIMap<V>
  {
    if |ids| == 0 then cache
    else
      var c := ApplyChanges(cache, ids[..|ids| - 1], updates);
      var id := ids[|ids| - 1];
      if ContainsKey(updates, id) then Add(c, id, Find(updates, id).value) else c
  }

  /** An id is reported changed exactly when some object element with that id is changed. */
  lemma {:induction false} DetectChangedIff(snapshot: CIMap<string>, items: seq<Option<ChangeItem>>,
                                            srgb: (nat, nat, nat) -> LinearColor, x: string)
    ensures x in Detect(snapshot, items, srgb).changed <==>
      exists i :: 0 <= i < |items| && items[i].Some? && IsChanged(snapshot, items[i].value) &&
                  items[i].value.modifiedGmlId == x
  {
    if |items| > 0 {
      var p := items[..|items| - 1];
      DetectChangedIff(snapshot, p, srgb, x);
      assert forall i :: 0 <= i < |p| ==> items[i] == p[i];
    }
  }

  /** Exactly the changed ids have new text. */
  lemma {:induction false} DetectNewDataKeys(snapshot: CIMap<string>, items: seq<Option<ChangeItem>>,
                                             srgb: (nat, nat, nat) -> LinearColor, q: string)
    ensures var d := Detect(snapshot, items, srgb);
      ContainsKey(d.newData, q) <==> exists j :: 0 <= j < |d.changed| && EqualsIgnoreCase(d.changed[j], q)
  {
    if |items| > 0 {
      var p := items[..|items| - 1];
      var d0 := Detect(snapshot, p, srgb);
      DetectNewDataKeys(snapshot, p, srgb, q);
      match items[|items| - 1]
      case None =>
      case Some(it) =>
        if IsChanged(snapshot, it) {
          var d := Detect(snapshot, items, srgb);
          FindAdd(d0.newData, it.modifiedGmlId, it.serialized, q);
          assert forall j :: 0 <= j < |d0.changed| ==> d.changed[j] == d0.changed[j];
          if EqualsIgnoreCase(it.modifiedGmlId, q) {
            assert d.changed[|d0.changed|] == it.modifiedGmlId;
          }
        }
    }
  }

  /** Keys that compare equal ignoring case find the same element. */
  lemma {:induction false} FindSameKey<V>(m: CIMap<V>, a: string, b: string)
    requires EqualsIgnoreCase(a, b)
    ensures Find(m, a) == Find(m, b) && IndexOf(m, a) == IndexOf(m, b)
  {
    if |m| > 0 {
      FindSameKey(m[1..], a, b);
    }
  }

  /** Some id of `ids` matches `q` and has a new value. */
  predicate WrittenBy<V>(ids: seq<string>, updates: CIMap<V>, q: string)
  {
    exists j :: 0 <= j < |ids| && EqualsIgnoreCase(ids[j], q) && ContainsKey(updates, ids[j])
  }

  lemma WrittenBySnoc<V>(p: seq<string>, id: string, updates: CIMap<V>, q: string)
    ensures WrittenBy(p + [id], updates, q) <==>
      WrittenBy(p, updates, q) || (EqualsIgnoreCase(id, q) && ContainsKey(updates, id))
  {
    var ids := p + [id];
    if WrittenBy(ids, updates, q) {
      var j :| 0 <= j < |ids| && EqualsIgnoreCase(ids[j], q) && ContainsKey(updates, ids[j]);
      if j < |p| {
        assert ids[j] == p[j];
      }
    }
    if WrittenBy(p, updates, q) {
      var j :| 0 <= j < |p| && EqualsIgnoreCase(p[j], q) && ContainsKey(updates, p[j]);
      assert ids[j] == p[j];
    }
    if EqualsIgnoreCase(id, q) && ContainsKey(updates, id) {
      assert ids[|p|] == id;
    }
  }

  /** The second loop writes exactly the ids that have a new value, each with that value. */
  lemma {:induction false} ApplyChangesFind<V>(cache: CIMap<V>, ids: seq<string>, updates: CIMap<V>, q: string)
    ensures Find(ApplyChanges(cache, ids, updates), q) ==
      if WrittenBy(ids, updates, q) then Find(updates, q) else Find(cache, q)
  {
    if |ids| > 0 {
      var p, id := ids[..|ids| - 1], ids[|ids| - 1];
      assert ids == p + [id];
      ApplyChangesFind(cache, p, updates, q);
      WrittenBySnoc(p, id, updates, q);
      var c := ApplyChanges(cache, p, updates);
      if ContainsKey(updates, id) {
        FindAdd(c, id, Find(updates, id).value, q);
        if EqualsIgnoreCase(q, id) {
          FindSameKey(updates, q, id);
        }
      }
    }
  }

  /**
   * `DetectAndApplyChanges` on the data cache: an id the feed reports changed reads its new text,
   * every other id reads what it read before.
   */
  lemma ChangedIdsOnly(cache: CIMap<string>, snapshot: CIMap<string>, items: seq<Option<ChangeItem>>,
                       srgb: (nat, nat, nat) -> LinearColor, q: string)
    ensures var d := Detect(snapshot, items, srgb);
      Find(ApplyChanges(cache, d.changed, d.newData), q) ==
        if exists j :: 0 <= j < |d.changed| && EqualsIgnoreCase(d.changed[j], q)
        then Find(d.newData, q) else Find(cache, q)
  {
    var d := Detect(snapshot, items, srgb);
    ApplyChangesFind(cache, d.changed, d.newData, q);
    if exists j :: 0 <= j < |d.changed| && EqualsIgnoreCase(d.changed[j], q) {
      var j :| 0 <= j < |d.changed| && EqualsIgnoreCase(d.changed[j], q);
      DetectNewDataKeys(snapshot, items, srgb, d.changed[j]);
      assert EqualsIgnoreCase(d.changed[j], d.changed[j]);
    }
  }

  /** A feed whose every element matches the snapshot reports no change. */
  lemma {:induction false} UnchangedFeed(snapshot: CIMap<string>, items: seq<Option<ChangeItem>>,
                                         srgb: (nat, nat, nat) -> LinearColor)
    requires forall i :: 0 <= i < |items| && items[i].Some? ==> !IsChanged(snapshot, items[i].value)
    ensures Detect(snapshot, items, srgb).changed == []
  {
    if |items| > 0 {
      UnchangedFeed(snapshot, items[..|items| - 1], srgb);
    }
  }

  // ---------------------------------------------------------------------
  // Adaptive polling
  // ---------------------------------------------------------------------

  /** The adaptive polling fields of the display. */
  datatype Polling = Polling(enhanced: bool, interval: real, fast: real, slow: real,
                             noChanges: int, threshold: int)

  /** `UpdatePollingStrategy`. */
  function NextPolling(p: Polling, changed: bool): Polling
  {
    if !p.enhanced then p
    else if changed then p.(noChanges := 0, interval := p.fast)
    else
      var n := p.noChanges + 1;
      p.(noChanges := n, interval := if n >= p.threshold then p.slow else p.fast)
  }

  /** `k` polls in a row that find nothing. */
  function QuietPolls(p: Polling, k: nat): Polling
  {
    if k == 0 then p else NextPolling(QuietPolls(p, k - 1), false)
  }

  /**
   * In enhanced mode a detected change resets the count and selects the fast interval; a quiet
   * poll counts up and selects the slow interval exactly when the count reaches the threshold.
   * With enhanced mode off the polling fields never change.
   */
  lemma PollingRules(p: Polling)
    ensures !p.enhanced ==> NextPolling(p, true) == p && NextPolling(p, false) == p
    ensures p.enhanced ==> NextPolling(p, true).noChanges == 0 && NextPolling(p, true).interval == p.fast
    ensures p.enhanced ==> NextPolling(p, false).noChanges == p.noChanges + 1
    ensures p.enhanced && p.slow != p.fast ==>
      (NextPolling(p, false).interval == p.slow <==> p.noChanges + 1 >= p.threshold)
  {
  }

  /**
   * After `k >= 1` quiet polls in enhanced mode the count has grown by `k`, and the interval is
   * the slow one exactly when the count has reached the threshold; nothing else changes.
   */
  lemma {:induction false} QuietPollsSlowDown(p: Polling, k: nat)
    requires p.enhanced && k >= 1
    ensures QuietPolls(p, k).noChanges == p.noChanges + k
    ensures QuietPolls(p, k).interval == if p.noChanges + k >= p.threshold then p.slow else p.fast
    ensures QuietPolls(p, k).(noChanges := p.noChanges, interval := p.interval) == p
  {
    if k > 1 {
      QuietPollsSlowDown(p, k - 1);
    }
  }

  /** `SetRealTimeUpdateInterval`: clamps to [0.5, 60]. */
  function ClampUpdateInterval(seconds: real): (r: real)
    ensures 0.5 <= r <= 60.0
    ensures 0.5 <= seconds <= 60.0 ==> r == seconds
    ensures seconds < 0.5 ==> r == 0.5
    ensures seconds > 60.0 ==> r == 60.0
  {
    if seconds < 0.5 then 0.5 else if seconds > 60.0 then 60.0 else seconds
  }

  // ---------------------------------------------------------------------
  // Real-time energy updates
  // ---------------------------------------------------------------------

  /**
   * One element of the energy update response: its `gml_id`, the formatted consumption lines
   * (the `%.2f` text is not modelled), and its coordinate fields.
   */
  datatype EnergyUpdate = EnergyUpdate(gmlId: string, lines: string, coordinates: Option<string>,
                                       numericId: Option<real>)

  const RealTimeHeading := "Real-time Energy Data\n"

  /** One pass of the `OnEnergyUpdateResponse` loop: only ids already in the data cache are touched. */
  function ApplyEnergyUpdate(data: CIMap<string>, coords: CoordinatesCache, u: EnergyUpdate,
                             parse: string -> seq<Vec3>): (CIMap<string>, CoordinatesCache)
  {
    if !ContainsKey(data, u.gmlId) then (data, coords)
    else
      var data' := SetValue(data, u.gmlId, RealTimeHeading + u.lines);
      match u.coordinates
      case Some(t) => (data', StoreCoordinates(coords, CoordinateKey(u.gmlId, u.numericId), t, parse))
      case None => (data', coords)
  }

  /** An energy update never adds or renames a data cache key and only rewrites the value of a present id. */
  lemma EnergyUpdateKeepsKeys(data: CIMap<string>, coords: CoordinatesCache, u: EnergyUpdate,
                              parse: string -> seq<Vec3>, q: string)
    ensures var d := ApplyEnergyUpdate(data, coords, u, parse).0;
      |d| == |data| && (forall j :: 0 <= j < |d| ==> d[j].0 == data[j].0) &&
      Find(d, q) == if ContainsKey(data, u.gmlId) && EqualsIgnoreCase(q, u.gmlId)
                    then Some(RealTimeHeading + u.lines) else Find(data, q)
  {
    if ContainsKey(data, u.gmlId) {
      FindSetValue(data, u.gmlId, RealTimeHeading + u.lines, q);
    }
  }

  /** The whole `OnEnergyUpdateResponse` loop; elements that are not objects are skipped. */
  function ApplyEnergyUpdates(data: CIMap<string>, coords: CoordinatesCache, items: seq<Option<EnergyUpdate>>,
                              parse: string -> seq<Vec3>): (CIMap<string>, CoordinatesCache)
  {
    if |items| == 0 then (data, coords)
    else
      var r := ApplyEnergyUpdates(data, coords, items[..|items| - 1], parse);
      match items[|items| - 1]
      case None => r
      case Some(u) => ApplyEnergyUpdate(r.0, r.1, u, parse)
  }

  /**
   * The loop keeps the key sequence of the data cache exactly: no id is added, dropped or
   * renamed, whatever the response holds.
   */
  lemma {:induction false} EnergyUpdatesKeepKeys(data: CIMap<string>, coords: CoordinatesCache,
                                                 items: seq<Option<EnergyUpdate>>, parse: string -> seq<Vec3>)
    ensures var d := ApplyEnergyUpdates(data, coords, items, parse).0;
      |d| == |data| && forall j :: 0 <= j < |d| ==> d[j].0 == data[j].0
  {
    if |items| > 0 {
      EnergyUpdatesKeepKeys(data, coords, items[..|items| - 1], parse);
      var r := ApplyEnergyUpdates(data, coords, items[..|items| - 1], parse);
      if items[|items| - 1].Some? {
        EnergyUpdateKeepsKeys(r.0, r.1, items[|items| - 1].value, parse, "");
      }
    }
  }

  // ---------------------------------------------------------------------
  // Lookup ladders
  // ---------------------------------------------------------------------

  /** The three spellings the ladders compare: as given, 'L' -> '_' (ignoring case), '_' -> 'L'. */
  function Variations(s: string): (r: seq<string>)
    ensures r == [s, Replace(s, "L", "_"), Replace(s, "_", "L")]
  {
    ReplaceCharByChar(s, 'L', '_');
    ReplaceCharByChar(s, '_', 'L');
    UnderscoreRewrite(s);
    assert Replace(s, "L", "_") == LToUnderscore(s);
    [s, LToUnderscore(s), UnderscoreToL(s)]
  }

  /** Some spelling of the query is exactly some spelling of the key. */
  predicate VariantMatch(query: string, key: string)
  {
    exists a, b :: 0 <= a < 3 && 0 <= b < 3 && Variations(query)[a] == Variations(key)[b]
  }

  /** The tiers of the ladders, in the order `OnBuildingClicked` tries them. */
  datatype Tier = SameText | SameVariant | Substring

  predicate TierMatch(t: Tier, key: string, query: string)
  {
    match t
    case SameText => key == query
    case SameVariant => VariantMatch(query, key)
    case Substring => Contains(key, query) || Contains(query, key)
  }

  /** The first key, in map order, that matches the query under a tier. */
  function FirstMatch<V>(m: CIMap<V>, query: string, t: Tier): (r: Option<nat>)
    ensures r.Some? ==> r.value < |m| && TierMatch(t, m[r.value].0, query)
    ensures r.Some? ==> forall j :: 0 <= j < r.value ==> !TierMatch(t, m[j].0, query)
    ensures r.None? <==> forall j :: 0 <= j < |m| ==> !TierMatch(t, m[j].0, query)
  {
    if |m| == 0 then None
    else if TierMatch(t, m[0].0, query) then Some(0)
    else match FirstMatch(m[1..], query, t)
      case None => None
      case Some(i) => Some(i + 1)
  }

  lemma FirstMatchIs<V>(m: CIMap<V>, query: string, t: Tier, i: nat)
    requires i < |m| && TierMatch(t, m[i].0, query)
    requires forall j :: 0 <= j < i ==> !TierMatch(t, m[j].0, query)
    ensures FirstMatch(m, query, t) == Some(i)
  {
    var r := FirstMatch(m, query, t);
    assert r.Some? && r.value == i;
  }

  /** The loop of one tier: it stops at the first matching entry. */
  method ScanTier<V>(m: CIMap<V>, query: string, t: Tier) returns (r: Option<nat>)
    ensures r == FirstMatch(m, query, t)
  {
    var i := 0;
    while i < |m|
      invariant 0 <= i <= |m|
      invariant forall j :: 0 <= j < i ==> !TierMatch(t, m[j].0, query)
    {
      if TierMatch(t, m[i].0, query) {
        FirstMatchIs(m, query, t, i);
        return Some(i);
      }
      i := i + 1;
    }
    return None;
  }

  /**
   * The exact-text tier runs only after the ignore-case lookup failed, and a key that equals the
   * query exactly also equals it ignoring case, so that tier never finds anything.
   */
  lemma SameTextTierNeverHits<V>(m: CIMap<V>, query: string)
    requires !ContainsKey(m, query)
    ensures FirstMatch(m, query, SameText).None?
  {
    forall j | 0 <= j < |m| ensures m[j].0 != query {
      assert !EqualsIgnoreCase(m[j].0, query);
    }
  }

  /**
   * `OnBuildingClicked`'s resolution once the token check passed: the id itself when it is a
   * key, else the first hit of the tiers in order.
   */
  function ClickTarget<V>(m: CIMap<V>, query: string): Option<string>
  {
    if ContainsKey(m, query) then Some(query)
    else
      var t1 := FirstMatch(m, query, SameText);
      var t2 := FirstMatch(m, query, SameVariant);
      var t3 := FirstMatch(m, query, Substring);
      if t1.Some? then Some(m[t1.value].0)
      else if t2.Some? then Some(m[t2.value].0)
      else if t3.Some? then Some(m[t3.value].0)
      else None
  }

  /**
   * The ladder returns, in strict tier order, the first key in map order: a containment hit is
   * returned only when no entry matches under a variant spelling.
   */
  lemma ClickTargetOrder<V>(m: CIMap<V>, query: string)
    requires !ContainsKey(m, query)
    ensures var r := ClickTarget(m, query);
      (FirstMatch(m, query, SameVariant).Some? ==> r == Some(m[FirstMatch(m, query, SameVariant).value].0)) &&
      (FirstMatch(m, query, SameVariant).None? ==>
         r == (if FirstMatch(m, query, Substring).Some? then Some(m[FirstMatch(m, query, Substring).value].0) else None))
  {
    SameTextTierNeverHits(m, query);
  }

  // ---------------------------------------------------------------------
  // Response dispatch
  // ---------------------------------------------------------------------

  /** An HTTP completion: failed (no success or no response object), or a status code and a body. */
  datatype Reply<B> = Failed | Reply(code: int, body: B)

  datatype Dispatch = Proceed | Refresh | Drop

  /**
   * The status rule shared by the preload, energy update and attributes handlers: 200 proceeds,
   * 401 asks for a token refresh when a refresh token is held, anything else is dropped.
   */
  function StatusDispatch<B>(reply: Reply<B>, refreshToken: string): (d: Dispatch)
    ensures d == Proceed <==> reply.Reply? && reply.code == 200
    ensures d == Refresh <==> reply.Reply? && reply.code == 401 && |refreshToken| > 0
  {
    if reply.Failed? then Drop
    else if reply.code == 401 then (if |refreshToken| > 0 then Refresh else Drop)
    else if reply.code != 200 then Drop
    else Proceed
  }

  /** The body of a token response: not JSON, JSON but not an object, or an object. */
  datatype TokenBody = BadJson | NotAnObjectBody | TokenObject(access: Option<string>, refresh: string)

  /** What a token response yields: a new access token (and the `refresh` text) or a failure. */
  datatype TokenOutcome = TransportFailure | Rejected | Malformed | Granted(access: string, refresh: string)

  /**
   * The checks of `OnAuthResponseReceived` and `OnRefreshTokenResponseReceived`, in order:
   * the transfer, the code 200, the JSON, the object, the `access` field.
   */
  function TokenResult(reply: Reply<TokenBody>): (r: TokenOutcome)
    ensures r.Granted? <==> reply.Reply? && reply.code == 200 && reply.body.TokenObject? && reply.body.access.Some?
    ensures r.Granted? ==> r.access == reply.body.access.value && r.refresh == reply.body.refresh
    ensures r == TransportFailure <==> reply.Failed?
    ensures r == Rejected <==> reply.Reply? && reply.code != 200
  {
    match reply
    case Failed => TransportFailure
    case Reply(code, body) =>
      if code != 200 then Rejected
      else match body
        case TokenObject(access, refresh) =>
          if access.Some? then Granted(access.value, refresh) else Malformed
        case _ => Malformed
  }
}
