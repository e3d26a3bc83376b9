/**
 * What `UBuildingAttributesWidget` promises, stated on the step functions of `AttributesForm`:
 * the save payload, the routing of fields to widgets, the real-time form sync and the guards on
 * saving and checking.
 */
module AttributesProperties {
  import opened Wrappers
  import opened UnrealString
  import opened CaseInsensitiveMap
  import opened EnergyFeed
  import opened AttributesForm

  // ---------------------------------------------------------------------
  // The save payload
  // ---------------------------------------------------------------------

  /** What a widget contributes under its key: `value` when the widget shows something. */
  function Shown(shown: string, value: string): Option<string>
  {
    if |shown| > 0 then Some(value) else None
  }

  lemma FindPutIfShown(p: CIMap<string>, key: string, shown: string, value: string, q: string)
    ensures Find(PutIfShown(p, key, shown, value), q) ==
      if EqualsIgnoreCase(q, key) && |shown| > 0 then Some(value) else Find(p, q)
  {
    if |shown| > 0 {
      FindAdd(p, key, value, q);
    }
  }

  /**
   * Each of the five keys holds the choice-map code of what its widget shows (the shown text
   * itself when the map has no code, and the plain text for the storey box), and only when the
   * widget shows something; every other key is absent.
   */
  lemma PayloadContents(f: Form, m: ChoiceMaps, q: string)
    ensures Find(Payload(f, m), q) ==
      if EqualsIgnoreCase(q, "construction_year_class") then
        Shown(f.constructionYear.selected, Translate(m.constructionYear, f.constructionYear.selected))
      else if EqualsIgnoreCase(q, "storey") then Shown(f.storey, f.storey)
      else if EqualsIgnoreCase(q, "roof_storey") then
        Shown(f.roofStorey.selected, Translate(m.roofStorey, f.roofStorey.selected))
      else if EqualsIgnoreCase(q, "begin_heating_system_type_1") then
        Shown(f.before.heating.selected, Translate(m.heating, f.before.heating.selected))
      else if EqualsIgnoreCase(q, "end_heating_system_type_1") then
        Shown(f.after.heating.selected, Translate(m.heating, f.after.heating.selected))
      else None
  {
    var p1 := PutIfShown([], "construction_year_class", f.constructionYear.selected,
      Translate(m.constructionYear, f.constructionYear.selected));
    var p2 := PutIfShown(p1, "storey", f.storey, f.storey);
    var p3 := PutIfShown(p2, "roof_storey", f.roofStorey.selected, Translate(m.roofStorey, f.roofStorey.selected));
    var p4 := PutIfShown(p3, "begin_heating_system_type_1", f.before.heating.selected,
      Translate(m.heating, f.before.heating.selected));
    FindPutIfShown([], "construction_year_class", f.constructionYear.selected,
      Translate(m.constructionYear, f.constructionYear.selected), q);
    FindPutIfShown(p1, "storey", f.storey, f.storey, q);
    FindPutIfShown(p2, "roof_storey", f.roofStorey.selected, Translate(m.roofStorey, f.roofStorey.selected), q);
    FindPutIfShown(p3, "begin_heating_system_type_1", f.before.heating.selected,
      Translate(m.heating, f.before.heating.selected), q);
    FindPutIfShown(p4, "end_heating_system_type_1", f.after.heating.selected,
      Translate(m.heating, f.after.heating.selected), q);
  }

  lemma PutIfShownKeys(p: CIMap<string>, key: string, shown: string, value: string)
    requires IsFormKey(key) && forall i :: 0 <= i < |p| ==> IsFormKey(p[i].0)
    ensures var r := PutIfShown(p, key, shown, value); forall i :: 0 <= i < |r| ==> IsFormKey(r[i].0)
  {
  }

  /** Only the five form keys can appear, each at most once. */
  lemma PayloadKeys(f: Form, m: ChoiceMaps)
    ensures forall i :: 0 <= i < |Payload(f, m)| ==> IsFormKey(Payload(f, m)[i].0)
    ensures UniqueKeys(Payload(f, m))
  {
    var p1 := PutIfShown([], "construction_year_class", f.constructionYear.selected,
      Translate(m.constructionYear, f.constructionYear.selected));
    var p2 := PutIfShown(p1, "storey", f.storey, f.storey);
    var p3 := PutIfShown(p2, "roof_storey", f.roofStorey.selected, Translate(m.roofStorey, f.roofStorey.selected));
    var p4 := PutIfShown(p3, "begin_heating_system_type_1", f.before.heating.selected,
      Translate(m.heating, f.before.heating.selected));
    PutIfShownKeys([], "construction_year_class", f.constructionYear.selected,
      Translate(m.constructionYear, f.constructionYear.selected));
    PutIfShownKeys(p1, "storey", f.storey, f.storey);
    PutIfShownKeys(p2, "roof_storey", f.roofStorey.selected, Translate(m.roofStorey, f.roofStorey.selected));
    PutIfShownKeys(p3, "begin_heating_system_type_1", f.before.heating.selected,
      Translate(m.heating, f.before.heating.selected));
    PutIfShownKeys(p4, "end_heating_system_type_1", f.after.heating.selected,
      Translate(m.heating, f.after.heating.selected));
    if |f.constructionYear.selected| > 0 {
      AddUnique([], "construction_year_class", Translate(m.constructionYear, f.constructionYear.selected));
    }
    if |f.storey| > 0 {
      AddUnique(p1, "storey", f.storey);
    }
    if |f.roofStorey.selected| > 0 {
      AddUnique(p2, "roof_storey", Translate(m.roofStorey, f.roofStorey.selected));
    }
    if |f.before.heating.selected| > 0 {
      AddUnique(p3, "begin_heating_system_type_1", Translate(m.heating, f.before.heating.selected));
    }
    if |f.after.heating.selected| > 0 {
      AddUnique(p4, "end_heating_system_type_1", Translate(m.heating, f.after.heating.selected));
    }
  }

  /** With the three maps still empty, as the header leaves them, a save sends the shown labels. */
  lemma PayloadWithoutChoices(f: Form, q: string)
    ensures Find(Payload(f, EmptyMaps), q) ==
      if EqualsIgnoreCase(q, "construction_year_class") then Shown(f.constructionYear.selected, f.constructionYear.selected)
      else if EqualsIgnoreCase(q, "storey") then Shown(f.storey, f.storey)
      else if EqualsIgnoreCase(q, "roof_storey") then Shown(f.roofStorey.selected, f.roofStorey.selected)
      else if EqualsIgnoreCase(q, "begin_heating_system_type_1") then Shown(f.before.heating.selected, f.before.heating.selected)
      else if EqualsIgnoreCase(q, "end_heating_system_type_1") then Shown(f.after.heating.selected, f.after.heating.selected)
      else None
  {
    PayloadContents(f, EmptyMaps, q);
  }

  // ---------------------------------------------------------------------
  // Routing
  // ---------------------------------------------------------------------

  /** The name and value of the last `general_info` field routed to the storey text box. */
  function LastStoreyField(fields: CIMap<Json>): Option<(string, string)>
  {
    if |fields| == 0 then None
    else
      var e := fields[|fields| - 1];
      if GeneralRoute(e.0) == StoreyText && e.1.JObject? then Some((e.0, ExtractFieldValue(e.1.members)))
      else LastStoreyField(fields[..|fields| - 1])
  }

  /**
   * After `general_info`, the storey text is the value of the last field routed to it, a field
   * whose name never contains "roof"; with no such field it is what it was.
   */
  lemma {:induction false} GeneralInfoStorey(f: Form, fields: CIMap<Json>)
    ensures RouteFields(f, GeneralInfo, fields).storey ==
      match LastStoreyField(fields) case None => f.storey case Some(e) => e.1
    ensures LastStoreyField(fields).Some? ==> !Contains(LastStoreyField(fields).value.0, "roof")
  {
    if |fields| > 0 {
      GeneralInfoStorey(f, fields[..|fields| - 1]);
    }
  }

  /** `begin_of_project` only changes the before combos, and `end_of_project` only the after combos. */
  lemma {:induction false} ProjectSectionsStayInPhase(f: Form, fields: CIMap<Json>)
    ensures var r := RouteFields(f, BeginOfProject, fields); r == f.(before := r.before)
    ensures var r := RouteFields(f, EndOfProject, fields); r == f.(after := r.after)
  {
    if |fields| > 0 {
      ProjectSectionsStayInPhase(f, fields[..|fields| - 1]);
    }
  }

  /** `general_info` never changes the before or after combos. */
  lemma {:induction false} GeneralInfoLeavesMeasures(f: Form, fields: CIMap<Json>)
    ensures var r := RouteFields(f, GeneralInfo, fields); r.before == f.before && r.after == f.after
  {
    if |fields| > 0 {
      GeneralInfoLeavesMeasures(f, fields[..|fields| - 1]);
    }
  }

  // ---------------------------------------------------------------------
  // Loading and saving
  // ---------------------------------------------------------------------

  /** `SetBuildingData` records the building under both ids with the fixed community, and loads when it can. */
  lemma SetBuildingDataOutcome(v: WidgetView, gmlId: string, token: string, sent: bool)
    ensures var r := SetBuildingDataStep(v, gmlId, token, sent);
      r.target == Target(gmlId, gmlId, token, "08417008") &&
      r.form == v.form && r.maps == v.maps && r.sync == v.sync &&
      r.effects == v.effects + (if |token| > 0 && sent then [LoadRequest(gmlId, "08417008", token)] else [])
  {
  }

  /**
   * The save button sends exactly one request, carrying the payload of the form as it stands, when
   * both the building key and the token are set and the request starts; otherwise nothing changes.
   */
  lemma SaveButtonOutcome(v: WidgetView, sent: bool)
    ensures var r := SaveButtonStep(v, sent);
      if |v.target.token| > 0 && |v.target.key| > 0 && sent then
        r == v.(effects := v.effects + [SaveRequest(v.target.key, v.target.communityId, v.target.token, Payload(v.form, v.maps))])
      else r == v
  {
  }

  /** Only a 200 reply with a JSON object fills the form, and filling touches only the form and the maps. */
  lemma GetResponseOutcome(v: WidgetView, reply: Reply<Option<CIMap<Json>>>)
    ensures var r := GetResponseStep(v, reply);
      r.sync == v.sync && r.target == v.target && r.effects == v.effects &&
      (if reply.Reply? && reply.code == 200 && reply.body.Some? then
         (r.form, r.maps) == PopulateForm(v.form, v.maps, reply.body.value)
       else r == v)
  {
  }

  // ---------------------------------------------------------------------
  // Real-time form sync
  // ---------------------------------------------------------------------

  /** The sync starts disabled and idle, so ticks do nothing until it is started. */
  lemma InitialFormTickIdle(dt: real, sent: bool)
    ensures InitialWidget.sync.interval == 2.0 && InitialWidget.sync.timer == 0.0
    ensures FormTickStep(InitialWidget, dt, sent) == InitialWidget
  {
  }

  /**
   * A tick starts a check exactly when the sync is on, no check is in flight, the key and the
   * token are set, the timer reaches the interval and the request starts; the check then is the
   * only request and the flag is raised.
   */
  lemma FormTickChecksIff(v: WidgetView, dt: real, sent: bool)
    ensures var r := FormTickStep(v, dt, sent);
      var fires := v.sync.enabled && !v.sync.checking && |v.target.key| > 0 && v.sync.timer + dt >= v.sync.interval &&
        |v.target.token| > 0 && sent;
      (fires <==> r.effects != v.effects) &&
      (fires ==>
        r.effects == v.effects + [CheckRequest(v.target.key, v.target.communityId, v.target.token)] && r.sync.checking)
  {
  }

  /** While a tick runs its timer, the timer stays below a positive interval. */
  lemma FormTickTimerBelowInterval(v: WidgetView, dt: real, sent: bool)
    requires v.sync.enabled && !v.sync.checking && |v.target.key| > 0
    requires v.sync.timer >= 0.0 && dt >= 0.0 && v.sync.interval > 0.0
    ensures 0.0 <= FormTickStep(v, dt, sent).sync.timer < FormTickStep(v, dt, sent).sync.interval
  {
  }

  /**
   * `PerformFormDataCheck` is single-flight: with a check in flight, or without key or token, it
   * does nothing, and the flag stays raised only when the request starts.
   */
  lemma FormCheckSingleFlight(v: WidgetView, sent: bool)
    ensures v.sync.checking ==> FormCheckStep(v, sent) == v
    ensures |v.target.key| == 0 || |v.target.token| == 0 ==> FormCheckStep(v, sent) == v
    ensures !v.sync.checking ==> (FormCheckStep(v, sent).sync.checking <==>
      |v.target.key| > 0 && |v.target.token| > 0 && sent)
  {
  }

  /** The interval is always clamped to [1, 30] seconds, and clamping twice is clamping once. */
  lemma FormIntervalClamped(v: WidgetView, seconds: real)
    ensures 1.0 <= SetFormIntervalStep(v, seconds).sync.interval <= 30.0
    ensures ClampFormInterval(ClampFormInterval(seconds)) == ClampFormInterval(seconds)
  {
  }

  lemma PopulateKeepsSync(v: WidgetView, root: CIMap<Json>)
    ensures var r := PopulateStep(v, root); r.sync == v.sync && r.target == v.target && r.effects == v.effects
  {
  }

  /**
   * The first text is only recorded; an identical text changes nothing; a differing text becomes
   * the snapshot, and when it does not parse nothing else changes.
   */
  lemma DetectFormOutcome(v: WidgetView, text: string, parse: string -> Option<CIMap<Json>>)
    ensures |v.sync.snapshot| == 0 ==> DetectFormStep(v, text, parse) == v.(sync := v.sync.(snapshot := text))
    ensures v.sync.snapshot == text ==> DetectFormStep(v, text, parse) == v
    ensures |v.sync.snapshot| > 0 && v.sync.snapshot != text ==>
      DetectFormStep(v, text, parse).sync == v.sync.(snapshot := text) &&
      (parse(text).None? ==> DetectFormStep(v, text, parse) == v.(sync := v.sync.(snapshot := text)))
  {
    if |v.sync.snapshot| > 0 && v.sync.snapshot != text {
      match parse(text)
      case None =>
      case Some(data) =>
        match ArrayField(data, "results")
        case None =>
        case Some(rs) =>
          if |rs| > 0 && rs[0].JObject? {
            PopulateKeepsSync(v, rs[0].members);
          }
    }
  }

  /** After construction the snapshot is empty, so the first change check only records. */
  lemma FirstFormCheckRecords(text: string, parse: string -> Option<CIMap<Json>>)
    ensures DetectFormStep(InitialWidget, text, parse) == InitialWidget.(sync := InitialSync.(snapshot := text))
  {
  }

  /** The response handler always lowers the flag, whatever the reply. */
  lemma FormResponseClearsFlag(v: WidgetView, reply: Reply<string>, parse: string -> Option<CIMap<Json>>)
    ensures !FormResponseStep(v, reply, parse).sync.checking
    ensures reply.Failed? || reply.code != 200 || |reply.body| == 0 ==>
      FormResponseStep(v, reply, parse) == v.(sync := v.sync.(checking := false))
  {
    var w := v.(sync := v.sync.(checking := false));
    if reply.Reply? && reply.code == 200 && |reply.body| > 0 {
      DetectFormOutcome(w, reply.body, parse);
    }
  }

  /** Stopping the sync lowers both flags, so the next tick does nothing. */
  lemma StopThenTickIdle(v: WidgetView, dt: real, sent: bool)
    ensures FormTickStep(EnableFormStep(v, false), dt, sent) == StopSyncStep(v)
  {
  }
}
