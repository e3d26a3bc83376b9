/**
 * `UBuildingAttributesWidget` as a class. Its fields are the header's widget state, grouped as the
 * records of `AttributesForm` group it: the form's widgets, the three choice maps, the real-time
 * sync state, the building the form is for, and the requests it sent. Each handler is a method
 * proved to do what the matching step function says, so the properties in `AttributesProperties`
 * hold of the class.
 */
module AttributesWidget {
  import opened Wrappers
  import opened UnrealString
  import opened CaseInsensitiveMap
  import opened EnergyFeed
  import opened AttributesForm

  /**
   * `PopulateComboBoxFromChoices(combo, field, current)`: refills the combo from the field's
   * `choices` and selects the entry matching `current`; false, with the combo untouched, when the
   * field has no `choices` array.
   */
  method PopulateComboBoxFromChoices(combo: Combo, field: CIMap<Json>, current: string) returns (populated: bool, r: Combo)
    ensures (populated, r) == PopulateCombo(combo, field, current)
  {
    var choices := ArrayField(field, "choices");
    if choices.None? {
      return false, combo;
    }
    var cs := choices.value;
    r := EmptyCombo;
    var i := 0;
    while i < |cs|
      invariant 0 <= i <= |cs|
      invariant r == FeedChoices(EmptyCombo, cs[..i], current)
    {
      assert cs[..i + 1][..i] == cs[..i];
      var x := cs[i];
      match ChoiceOption(x) {
        case Some(l) =>
          r := AddOption(r, l);
          if ChoiceMatches(x, current) {
            r := Select(r, l);
          }
        case None =>
      }
      i := i + 1;
    }
    assert cs[..i] == cs;
    populated := true;
  }

  /**
   * The routing loop of one section: each field object's value goes to the text box or the combo
   * its name selects, and a combo is refilled from the field's `choices`.
   */
  method RouteFieldsInto(f: Form, sec: Section, fields: CIMap<Json>) returns (r: Form)
    ensures r == RouteFields(f, sec, fields)
  {
    r := f;
    var i := 0;
    while i < |fields|
      invariant 0 <= i <= |fields|
      invariant r == RouteFields(f, sec, fields[..i])
    {
      RouteFieldsSnoc(f, sec, fields, i);
      var (name, field) := fields[i];
      i := i + 1;
      if !field.JObject? {
        continue;
      }
      var o := field.members;
      var value := ExtractFieldValue(o);
      var s := Route(sec, name);
      if s == Unrouted {
        continue;
      }
      if s == StoreyText {
        r := r.(storey := value);
        continue;
      }
      var populated, c := PopulateComboBoxFromChoices(ComboAt(r, s), o, value);
      r := WithCombo(r, s, c);
    }
    assert fields[..i] == fields;
  }

  /** The scan of every section of the response for `choices` arrays, in order. */
  method RootChoicesInto(m: ChoiceMaps, root: CIMap<Json>) returns (r: ChoiceMaps)
    ensures r == RootChoices(m, root)
  {
    r := m;
    var i := 0;
    while i < |root|
      invariant 0 <= i <= |root|
      invariant r == RootChoices(m, root[..i])
    {
      assert root[..i + 1][..i] == root[..i];
      var fields := SectionFields(root[i].1);
      if fields.Some? {
        r := SectionChoicesInto(r, fields.value);
      }
      i := i + 1;
    }
    assert root[..i] == root;
  }

  method SectionChoicesInto(m: ChoiceMaps, fields: CIMap<Json>) returns (r: ChoiceMaps)
    ensures r == SectionChoices(m, fields)
  {
    r := m;
    var i := 0;
    while i < |fields|
      invariant 0 <= i <= |fields|
      invariant r == SectionChoices(m, fields[..i])
    {
      assert fields[..i + 1][..i] == fields[..i];
      r := FieldChoicesInto(r, fields[i].0, fields[i].1);
      i := i + 1;
    }
    assert fields[..i] == fields;
  }

  /** One field: its map is emptied, then every `[code, label]` entry is added label to code. */
  method FieldChoicesInto(m: ChoiceMaps, name: string, field: Json) returns (r: ChoiceMaps)
    ensures r == FieldChoices(m, name, field)
  {
    r := m;
    var choices := FieldChoiceList(field);
    if choices.None? {
      return;
    }
    var cs := choices.value;
    var k := MapFor(name);
    if k == NoMap {
      return;
    }
    var entries: CIMap<string> := [];
    var i := 0;
    while i < |cs|
      invariant 0 <= i <= |cs|
      invariant entries == AddChoices([], cs[..i])
    {
      assert cs[..i + 1][..i] == cs[..i];
      match ChoicePair(cs[i]) {
        case Some(e) =>
          entries := Add(entries, e.0, e.1);
        case None =>
      }
      i := i + 1;
    }
    assert cs[..i] == cs;
    r := WithMap(m, k, entries);
  }

  class BuildingAttributesWidget {
    /** The combo boxes and the storey text box. */
    var form: Form
    /** `ConstructionYearChoiceMap`, `RoofStoreyChoiceMap`, `HeatingSystemChoiceMap`. */
    var maps: ChoiceMaps
    /** The real-time form sync: timer, interval, flags and the last response text. */
    var sync: Sync
    /** The building the form shows, the token and the community. */
    var target: Target
    /** The requests the widget sent, in order. */
    var effects: seq<FormEffect>

    function View(): WidgetView
      reads this
    {
      WidgetView(form, maps, sync, target, effects)
    }

    /** The header's initialisers. */
    constructor ()
      ensures View() == InitialWidget
    {
      form, maps, sync := EmptyForm, EmptyMaps, InitialSync;
      target, effects := Target("", "", "", ""), [];
    }

    /** `NativeConstruct`, through `PopulateDropdownOptions`. */
    method NativeConstruct()
      modifies this
      ensures View() == ConstructStep(old(View()))
    {
      form := form.(constructionYear := EmptyCombo);
      form := form.(before := form.before.(heating := EmptyCombo));
      form := form.(after := form.after.(heating := EmptyCombo));
      form := form.(roofStorey := EmptyCombo);
    }

    // -------------------------------------------------------------------
    // Loading and saving
    // -------------------------------------------------------------------

    method SetBuildingData(gmlId: string, token: string, sent: bool)
      modifies this
      ensures View() == SetBuildingDataStep(old(View()), gmlId, token, sent)
    {
      target := Target(gmlId, gmlId, token, FormCommunityId);
      LoadBuildingAttributes(sent);
    }

    method LoadBuildingAttributes(sent: bool)
      modifies this
      ensures View() == LoadStep(old(View()), sent)
    {
      if |target.token| == 0 {
        return;
      }
      if sent {
        effects := effects + [LoadRequest(target.key, target.communityId, target.token)];
      }
    }

    method OnSaveButtonClicked(sent: bool)
      modifies this
      ensures View() == SaveButtonStep(old(View()), sent)
    {
      if |target.token| == 0 {
        return;
      }
      if |target.key| == 0 {
        return;
      }
      SaveBuildingAttributesToAPI(sent);
    }

    method SaveBuildingAttributesToAPI(sent: bool)
      modifies this
      ensures View() == SaveToApiStep(old(View()), sent)
    {
      if |target.key| == 0 {
        return;
      }
      if |target.token| == 0 {
        return;
      }
      var payload := CreateAttributesJsonFromForm();
      if sent {
        effects := effects + [SaveRequest(target.key, target.communityId, target.token, payload)];
      }
    }

    /** The payload, built field by field from what the widgets show. */
    method CreateAttributesJsonFromForm() returns (payload: CIMap<string>)
      ensures payload == Payload(form, maps)
    {
      payload := [];
      var shown := form.constructionYear.selected;
      if |shown| > 0 {
        payload := Add(payload, "construction_year_class", Translate(maps.constructionYear, shown));
      }
      if |form.storey| > 0 {
        payload := Add(payload, "storey", form.storey);
      }
      shown := form.roofStorey.selected;
      if |shown| > 0 {
        payload := Add(payload, "roof_storey", Translate(maps.roofStorey, shown));
      }
      shown := form.before.heating.selected;
      if |shown| > 0 {
        payload := Add(payload, "begin_heating_system_type_1", Translate(maps.heating, shown));
      }
      shown := form.after.heating.selected;
      if |shown| > 0 {
        payload := Add(payload, "end_heating_system_type_1", Translate(maps.heating, shown));
      }
    }

    /** `OnGetAttributesResponse`; the body is `None` when it is not a JSON object. */
    method OnGetAttributesResponse(reply: Reply<Option<CIMap<Json>>>)
      modifies this
      ensures View() == GetResponseStep(old(View()), reply)
    {
      if reply.Failed? || reply.code != 200 {
        return;
      }
      match reply.body {
        case None =>
        case Some(root) => PopulateFormFromJson(root);
      }
    }

    // -------------------------------------------------------------------
    // Filling the form from a response
    // -------------------------------------------------------------------

    method PopulateFormFromJson(root: CIMap<Json>)
      modifies this
      ensures View() == PopulateStep(old(View()), root)
    {
      ApplyFlatFields(root);
      RebuildChoiceMaps(root);
      RouteSectionFields(root, GeneralInfo);
      RouteSectionFields(root, BeginOfProject);
      RouteSectionFields(root, EndOfProject);
    }

    /** The top-level string fields. */
    method ApplyFlatFields(root: CIMap<Json>)
      modifies this
      ensures View() == old(View()).(form := FlatFields(old(form), root))
    {
      form := form.(constructionYear := FlatCombo(form.constructionYear, root, "construction_year_class"));
      var storey := StringField(root, "storey");
      if storey.Some? {
        form := form.(storey := storey.value);
      }
      form := form.(roofStorey := FlatCombo(form.roofStorey, root, "roof_storey"));
      form := form.(before := form.before.(heating := FlatCombo(form.before.heating, root, "begin_heating_system_type_1")));
      form := form.(after := form.after.(heating := FlatCombo(form.after.heating, root, "end_heating_system_type_1")));
    }

    /** The choice-map pass over every section. */
    method RebuildChoiceMaps(root: CIMap<Json>)
      modifies this
      ensures View() == old(View()).(maps := RootChoices(old(maps), root))
    {
      maps := RootChoicesInto(maps, root);
    }

    /** The routing of the fields of one named section, when the section has a `fields` object. */
    method RouteSectionFields(root: CIMap<Json>, sec: Section)
      modifies this
      ensures View() == old(View()).(form := RouteSection(old(form), root, sec))
    {
      var found := NamedSectionFields(root, sec);
      if found.Some? {
        form := RouteFieldsInto(form, sec, found.value);
      }
    }

    // -------------------------------------------------------------------
    // Real-time form sync
    // -------------------------------------------------------------------

    /** `NativeTick(dt)`; `sent` says whether a check it starts gets under way. */
    method NativeTick(dt: real, sent: bool)
      modifies this
      ensures View() == FormTickStep(old(View()), dt, sent)
    {
      if sync.enabled && !sync.checking && |target.key| > 0 {
        sync := sync.(timer := sync.timer + dt);
        if sync.timer >= sync.interval {
          sync := sync.(timer := 0.0);
          PerformFormDataCheck(sent);
        }
      }
    }

    method StartFormRealTimeSync()
      modifies this
      ensures View() == StartSyncStep(old(View()))
    {
      sync := sync.(enabled := true, timer := 0.0);
    }

    method StopFormRealTimeSync()
      modifies this
      ensures View() == StopSyncStep(old(View()))
    {
      sync := sync.(enabled := false, checking := false);
    }

    method SetFormUpdateInterval(seconds: real)
      modifies this
      ensures View() == SetFormIntervalStep(old(View()), seconds)
    {
      if seconds < 1.0 {
        sync := sync.(interval := 1.0);
      } else if seconds > 30.0 {
        sync := sync.(interval := 30.0);
      } else {
        sync := sync.(interval := seconds);
      }
    }

    method EnableFormRealTime(enable: bool)
      modifies this
      ensures View() == EnableFormStep(old(View()), enable)
    {
      if enable {
        StartFormRealTimeSync();
      } else {
        StopFormRealTimeSync();
      }
    }

    method PerformFormDataCheck(sent: bool)
      modifies this
      ensures View() == FormCheckStep(old(View()), sent)
    {
      if sync.checking {
        return;
      }
      if |target.key| == 0 || |target.token| == 0 {
        return;
      }
      sync := sync.(checking := true);
      if sent {
        effects := effects + [CheckRequest(target.key, target.communityId, target.token)];
      } else {
        sync := sync.(checking := false);
      }
    }

    /** `OnFormRealTimeDataResponse`; `parse` stands for the JSON reader. */
    method OnFormRealTimeDataResponse(reply: Reply<string>, parse: string -> Option<CIMap<Json>>)
      modifies this
      ensures View() == FormResponseStep(old(View()), reply, parse)
    {
      sync := sync.(checking := false);
      if reply.Failed? || reply.code != 200 {
        return;
      }
      if |reply.body| == 0 {
        return;
      }
      DetectAndApplyFormChanges(reply.body, parse);
    }

    method DetectAndApplyFormChanges(text: string, parse: string -> Option<CIMap<Json>>)
      modifies this
      ensures View() == DetectFormStep(old(View()), text, parse)
    {
      if |sync.snapshot| == 0 {
        sync := sync.(snapshot := text);
        return;
      }
      if sync.snapshot == text {
        return;
      }
      var data := parse(text);
      if data.Some? {
        UpdateFormFieldsAutomatically(data.value);
      }
      sync := sync.(snapshot := text);
    }

    method UpdateFormFieldsAutomatically(data: CIMap<Json>)
      modifies this
      ensures View() == UpdateFieldsStep(old(View()), data)
    {
      var results := ArrayField(data, "results");
      if results.None? || |results.value| == 0 {
        return;
      }
      var first := results.value[0];
      if !first.JObject? {
        return;
      }
      PopulateFormFromJson(first.members);
    }
  }
}
