/**
 * The logic of `UBuildingAttributesWidget` on values: the parsed JSON it reads, its combo boxes
 * and text box, its three label-to-code choice maps, and one step function per handler.
 *
 * Stated axioms (Unreal's `FJsonObject`, `FJsonValue` and `UComboBoxString`):
 *  - an object's members form a `TMap<FString, ...>`, so they are a `CIMap` (keys ignore case,
 *    iteration in insertion order);
 *  - `TryGetString` succeeds on strings, numbers (in their printed form) and booleans
 *    ("true"/"false"), and fails on null, arrays and objects; `AsString` is "" where it fails;
 *  - `ClearOptions` removes every option and the selection (the selection then reads "");
 *    `AddOption` appends, duplicates included;
 *  - `SetSelectedOption(s)` selects the first option that equals `s` ignoring case, and changes
 *    nothing when no option does.
 */
module AttributesForm {
  import opened Wrappers
  import opened UnrealString
  import opened CaseInsensitiveMap
  import opened EnergyFeed

  // ---------------------------------------------------------------------
  // Parsed JSON
  // ---------------------------------------------------------------------

  datatype Json =
    | JString(s: string)
    /** A number, carried as the text `TryGetString` gives for it. */
    | JNumber(text: string)
    | JBool(b: bool)
    | JNull
    | JArray(items: seq<Json>)
    | JObject(members: CIMap<Json>)

  /** `Value->TryGetString(Out)`. */
  function TryGetString(v: Json): Option<string>
  {
    match v
    case JString(s) => Some(s)
    case JNumber(t) => Some(t)
    case JBool(b) => Some(if b then "true" else "false")
    case _ => None
  }

  /** `Value->AsString()`. */
  function AsString(v: Json): string
  {
    TryGetString(v).GetOr("")
  }

  /** `Object->TryGetStringField(name, Out)`. */
  function StringField(o: CIMap<Json>, name: string): Option<string>
  {
    match Find<Json>(o, name)
    case None => None
    case Some(v) => TryGetString(v)
  }

  /** `Object->TryGetObjectField(name, Out)`; the `HasField` check before it adds nothing. */
  function ObjectField(o: CIMap<Json>, name: string): Option<CIMap<Json>>
  {
    match Find<Json>(o, name)
    case Some(JObject(m)) => Some(m)
    case _ => None
  }

  /** `Object->TryGetArrayField(name, Out)`. */
  function ArrayField(o: CIMap<Json>, name: string): Option<seq<Json>>
  {
    match Find<Json>(o, name)
    case Some(JArray(items)) => Some(items)
    case _ => None
  }

  /** `ExtractFieldValue`: the `display` string of a field object, else its `value` string, else "". */
  function ExtractFieldValue(o: CIMap<Json>): (r: string)
    ensures StringField(o, "display").Some? ==> r == StringField(o, "display").value
    ensures StringField(o, "display").None? && StringField(o, "value").Some? ==> r == StringField(o, "value").value
    ensures StringField(o, "display").None? && StringField(o, "value").None? ==> r == ""
  {
    match StringField(o, "display")
    case Some(d) => d
    case None => StringField(o, "value").GetOr("")
  }

  // ---------------------------------------------------------------------
  // Combo boxes
  // ---------------------------------------------------------------------

  /** A `UComboBoxString`: its options in order and the selected option ("" for none). */
  datatype Combo = Combo(options: seq<string>, selected: string)

  /** A combo box after `ClearOptions`. */
  const EmptyCombo := Combo([], "")

  /** The first option equal to `s` ignoring case (`FindOptionIndex`). */
  function FirstOption(options: seq<string>, s: string): (r: Option<nat>)
    ensures r.Some? ==> r.value < |options| && EqualsIgnoreCase(options[r.value], s)
    ensures r.Some? ==> forall j :: 0 <= j < r.value ==> !EqualsIgnoreCase(options[j], s)
    ensures r.None? <==> forall j :: 0 <= j < |options| ==> !EqualsIgnoreCase(options[j], s)
  {
    if |options| == 0 then None
    else if EqualsIgnoreCase(options[0], s) then Some(0)
    else match FirstOption(options[1..], s)
      case None => None
      case Some(i) => Some(i + 1)
  }

  /** Appending an option leaves an earlier match where it was, and the appended option is found. */
  lemma {:induction false} FirstOptionAppend(options: seq<string>, x: string, s: string)
    ensures FirstOption(options, s).Some? ==> FirstOption(options + [x], s) == FirstOption(options, s)
    ensures EqualsIgnoreCase(x, s) ==> FirstOption(options + [x], s).Some?
  {
    if |options| > 0 && !EqualsIgnoreCase(options[0], s) {
      assert (options + [x])[1..] == options[1..] + [x];
      FirstOptionAppend(options[1..], x, s);
    } else if |options| == 0 {
      assert (options + [x])[0] == x;
    }
  }

  /** `SetSelectedOption(s)`. */
  function Select(c: Combo, s: string): Combo
  {
    match FirstOption(c.options, s)
    case None => c
    case Some(i) => c.(selected := c.options[i])
  }

  /** `AddOption(s)`. */
  function AddOption(c: Combo, s: string): Combo
  {
    c.(options := c.options + [s])
  }

  // ---------------------------------------------------------------------
  // Filling a combo box from a field's `choices`
  // ---------------------------------------------------------------------

  /** The option a `choices` entry adds: the label of a `[code, label, ...]` array, else a plain string. */
  function ChoiceOption(c: Json): Option<string>
  {
    match c
    case JArray(items) => if |items| >= 2 then TryGetString(items[1]) else None
    case _ => TryGetString(c)
  }

  /** Whether the entry selects its option: its label or its code (or the plain string) equals `current`. */
  predicate ChoiceMatches(c: Json, current: string)
  {
    match c
    case JArray(items) =>
      |items| >= 2 && (EqualsIgnoreCase(AsString(items[1]), current) || EqualsIgnoreCase(AsString(items[0]), current))
    case _ => EqualsIgnoreCase(AsString(c), current)
  }

  /** The loop of `PopulateComboBoxFromChoices` over `cs`, starting from combo `c`. */
  function FeedChoices(c: Combo, cs: seq<Json>, current: string): Combo
  {
    if |cs| == 0 then c
    else
      var p := FeedChoices(c, cs[..|cs| - 1], current);
      var x := cs[|cs| - 1];
      match ChoiceOption(x)
      case None => p
      case Some(l) =>
        var q := AddOption(p, l);
        if ChoiceMatches(x, current) then Select(q, l) else q
  }

  /** The options the entries offer, in order. */
  function Labels(cs: seq<Json>): seq<string>
  {
    if |cs| == 0 then []
    else (match ChoiceOption(cs[0]) case None => [] case Some(l) => [l]) + Labels(cs[1..])
  }

  lemma {:induction false} LabelsSnoc(cs: seq<Json>, x: Json)
    ensures Labels(cs + [x]) == Labels(cs) + (match ChoiceOption(x) case None => [] case Some(l) => [l])
  {
    if |cs| > 0 {
      assert (cs + [x])[1..] == cs[1..] + [x];
      LabelsSnoc(cs[1..], x);
    }
  }

  /** The option of the last entry that selects, if any. */
  function LastMatch(cs: seq<Json>, current: string): Option<string>
  {
    if |cs| == 0 then None
    else
      var x := cs[|cs| - 1];
      if ChoiceOption(x).Some? && ChoiceMatches(x, current) then ChoiceOption(x)
      else LastMatch(cs[..|cs| - 1], current)
  }

  /** The loop appends the entries' options in order. */
  lemma {:induction false} FeedOptions(c: Combo, cs: seq<Json>, current: string)
    ensures FeedChoices(c, cs, current).options == c.options + Labels(cs)
  {
    if |cs| > 0 {
      var init := cs[..|cs| - 1];
      assert cs == init + [cs[|cs| - 1]];
      FeedOptions(c, init, current);
      LabelsSnoc(init, cs[|cs| - 1]);
    }
  }

  /**
   * The selection after the loop is the first option equal (ignoring case) to the option of the
   * last entry that selects; with no such entry it is the one the combo had.
   */
  lemma {:induction false} FeedSelection(c: Combo, cs: seq<Json>, current: string)
    ensures var r := FeedChoices(c, cs, current);
      match LastMatch(cs, current)
      case None => r.selected == c.selected
      case Some(l) => FirstOption(r.options, l).Some? && r.selected == r.options[FirstOption(r.options, l).value]
  {
    if |cs| > 0 {
      var init := cs[..|cs| - 1];
      var x := cs[|cs| - 1];
      FeedSelection(c, init, current);
      var p := FeedChoices(c, init, current);
      match ChoiceOption(x)
      case None =>
      case Some(l') =>
        FirstOptionAppend(p.options, l', l');
        if !ChoiceMatches(x, current) {
          match LastMatch(init, current)
          case None =>
          case Some(l) =>
            FirstOptionAppend(p.options, l', l);
        }
    }
  }

  /**
   * `PopulateComboBoxFromChoices(combo, field, current)`: whether the field has a `choices` array,
   * and the combo after it.
   */
  function PopulateCombo(c: Combo, field: CIMap<Json>, current: string): (bool, Combo)
  {
    match ArrayField(field, "choices")
    case None => (false, c)
    case Some(cs) => (true, FeedChoices(EmptyCombo, cs, current))
  }

  /**
   * The combo is filled from `choices` exactly when the field has that array: its options are the
   * entries' options in order, and its selection is the first of them equal to the option of the
   * last entry that selects, or none.
   */
  lemma PopulateComboOutcome(c: Combo, field: CIMap<Json>, current: string)
    ensures var (populated, r) := PopulateCombo(c, field, current);
      (populated <==> ArrayField(field, "choices").Some?) &&
      (!populated ==> r == c) &&
      (populated ==> var cs := ArrayField(field, "choices").value;
        r.options == Labels(cs) &&
        (LastMatch(cs, current).None? ==> r.selected == "") &&
        (LastMatch(cs, current).Some? ==>
          r.selected in r.options && EqualsIgnoreCase(r.selected, LastMatch(cs, current).value)))
  {
    match ArrayField(field, "choices")
    case None =>
    case Some(cs) =>
      FeedOptions(EmptyCombo, cs, current);
      FeedSelection(EmptyCombo, cs, current);
  }

  // ---------------------------------------------------------------------
  // Choice maps
  // ---------------------------------------------------------------------

  /** `ConstructionYearChoiceMap`, `RoofStoreyChoiceMap`, `HeatingSystemChoiceMap`: label to code. */
  datatype ChoiceMaps = ChoiceMaps(constructionYear: CIMap<string>, roofStorey: CIMap<string>, heating: CIMap<string>)

  const EmptyMaps := ChoiceMaps([], [], [])

  datatype MapKind = YearMap | RoofMap | HeatingMap | NoMap

  /** Which map a field's choices fill: exact names for two of them, any `heating_system` name for the third. */
  function MapFor(name: string): MapKind
  {
    if name == "construction_year_class" then YearMap
    else if name == "roof_storey" then RoofMap
    else if Contains(name, "heating_system") then HeatingMap
    else NoMap
  }

  function MapOf(m: ChoiceMaps, k: MapKind): CIMap<string>
  {
    match k
    case YearMap => m.constructionYear
    case RoofMap => m.roofStorey
    case HeatingMap => m.heating
    case NoMap => []
  }

  function WithMap(m: ChoiceMaps, k: MapKind, t: CIMap<string>): ChoiceMaps
  {
    match k
    case YearMap => m.(constructionYear := t)
    case RoofMap => m.(roofStorey := t)
    case HeatingMap => m.(heating := t)
    case NoMap => m
  }

  /** The (label, code) an entry records: an array of at least two, each part read as a string or "". */
  function ChoicePair(c: Json): Option<(string, string)>
  {
    match c
    case JArray(items) => if |items| >= 2 then Some((AsString(items[1]), AsString(items[0]))) else None
    case _ => None
  }

  /** The loop that `Add`s each entry's label and code to a map. */
  function AddChoices(m: CIMap<string>, cs: seq<Json>): CIMap<string>
  {
    if |cs| == 0 then m
    else
      var p := AddChoices(m, cs[..|cs| - 1]);
      match ChoicePair(cs[|cs| - 1])
      case None => p
      case Some(e) => Add(p, e.0, e.1)
  }

  /** The code of the last entry whose label equals `q` ignoring case. */
  function LastCode(cs: seq<Json>, q: string): Option<string>
  {
    if |cs| == 0 then None
    else match ChoicePair(cs[|cs| - 1])
      case Some(e) => if EqualsIgnoreCase(e.0, q) then Some(e.1) else LastCode(cs[..|cs| - 1], q)
      case None => LastCode(cs[..|cs| - 1], q)
  }

  /** A label finds the code of its last entry; a label no entry has finds what it found before. */
  lemma {:induction false} FindAddChoices(m: CIMap<string>, cs: seq<Json>, q: string)
    ensures Find(AddChoices(m, cs), q) == if LastCode(cs, q).Some? then LastCode(cs, q) else Find(m, q)
  {
    if |cs| > 0 {
      var init := cs[..|cs| - 1];
      FindAddChoices(m, init, q);
      match ChoicePair(cs[|cs| - 1])
      case None =>
      case Some(e) =>
        FindAdd(AddChoices(m, init), e.0, e.1, q);
    }
  }

  /** Keys stay unique (ignoring case). */
  lemma {:induction false} AddChoicesUnique(m: CIMap<string>, cs: seq<Json>)
    requires UniqueKeys(m)
    ensures UniqueKeys(AddChoices(m, cs))
  {
    if |cs| > 0 {
      AddChoicesUnique(m, cs[..|cs| - 1]);
      match ChoicePair(cs[|cs| - 1])
      case None =>
      case Some(e) =>
        AddUnique(AddChoices(m, cs[..|cs| - 1]), e.0, e.1);
    }
  }

  /** The choices array of a field, if the field is an object with one. */
  function FieldChoiceList(field: Json): Option<seq<Json>>
  {
    match field
    case JObject(o) => ArrayField(o, "choices")
    case _ => None
  }

  /** One field of the choice-map pass: its map is emptied and refilled from its choices. */
  function FieldChoices(m: ChoiceMaps, name: string, field: Json): ChoiceMaps
  {
    match FieldChoiceList(field)
    case None => m
    case Some(cs) => if MapFor(name) == NoMap then m else WithMap(m, MapFor(name), AddChoices([], cs))
  }

  /** The choice-map pass over the fields of one section, in order. */
  function SectionChoices(m: ChoiceMaps, fields: CIMap<Json>): ChoiceMaps
  {
    if |fields| == 0 then m
    else
      var e := fields[|fields| - 1];
      FieldChoices(SectionChoices(m, fields[..|fields| - 1]), e.0, e.1)
  }

  /** The fields object of a section value, if it is an object with one. */
  function SectionFields(section: Json): Option<CIMap<Json>>
  {
    match section
    case JObject(s) => ObjectField(s, "fields")
    case _ => None
  }

  /** The choice-map pass over every section of the response, in order. */
  function RootChoices(m: ChoiceMaps, root: CIMap<Json>): ChoiceMaps
  {
    if |root| == 0 then m
    else
      var p := RootChoices(m, root[..|root| - 1]);
      match SectionFields(root[|root| - 1].1)
      case None => p
      case Some(fields) => SectionChoices(p, fields)
  }

  /** The choices of the last field in `fields` that fills map `k`. */
  function LastChoicesFor(fields: CIMap<Json>, k: MapKind): Option<seq<Json>>
  {
    if |fields| == 0 then None
    else
      var e := fields[|fields| - 1];
      if MapFor(e.0) == k && FieldChoiceList(e.1).Some? then FieldChoiceList(e.1)
      else LastChoicesFor(fields[..|fields| - 1], k)
  }

  /**
   * After a section, each map holds exactly the choices of the last field that fills it, so a later
   * heating field replaces what an earlier one recorded; a map no field fills is unchanged.
   */
  lemma {:induction false} SectionChoicesLast(m: ChoiceMaps, fields: CIMap<Json>, k: MapKind)
    requires k != NoMap
    ensures MapOf(SectionChoices(m, fields), k) ==
      match LastChoicesFor(fields, k) case None => MapOf(m, k) case Some(cs) => AddChoices([], cs)
  {
    if |fields| > 0 {
      SectionChoicesLast(m, fields[..|fields| - 1], k);
    }
  }

  // ---------------------------------------------------------------------
  // The form
  // ---------------------------------------------------------------------

  /** The five renovation measures of one project phase. */
  datatype Measures = Measures(heating: Combo, window: Combo, wall: Combo, roof: Combo, ceiling: Combo)

  /** The widgets of the form: the general combos and text box, and the before and after measures. */
  datatype Form = Form(constructionYear: Combo, storey: string, roofStorey: Combo, before: Measures, after: Measures)

  const EmptyMeasures := Measures(EmptyCombo, EmptyCombo, EmptyCombo, EmptyCombo, EmptyCombo)
  const EmptyForm := Form(EmptyCombo, "", EmptyCombo, EmptyMeasures, EmptyMeasures)

  datatype Phase = Before | After
  datatype Part = Heating | Window | Wall | Roof | Ceiling
  datatype Section = GeneralInfo | BeginOfProject | EndOfProject

  /** The widget a field is routed to. */
  datatype Slot = YearBox | StoreyText | RoofStoreyBox | MeasureBox(phase: Phase, part: Part) | Unrouted

  /** The roof names the routing rules list one by one all contain "roof". */
  lemma RoofNames()
    ensures Contains("roof_storey_type", "roof") && Contains("roof_type", "roof") && Contains("roof_storey", "roof")
    ensures Contains("number_type_of_roof", "roof") && Contains("roof_construction", "roof")
  {
    ContainsAt("roof_storey_type", "roof", 0);
    ContainsAt("roof_type", "roof", 0);
    ContainsAt("roof_storey", "roof", 0);
    ContainsAt("number_type_of_roof", "roof", 15);
    ContainsAt("roof_construction", "roof", 0);
  }

  /** So do the listed construction-year and storey names. */
  lemma YearAndStoreyNames()
    ensures Contains("construction_year_class", "construction_year")
    ensures Contains("number_of_storey", "storey") && Contains("storey", "storey")
  {
    ContainsAt("construction_year_class", "construction_year", 0);
    ContainsAt("number_of_storey", "storey", 10);
    ContainsAt("storey", "storey", 0);
  }

  /** And the listed heating names. */
  lemma HeatingNames()
    ensures Contains("heating_system_type", "heating") && Contains("heating_system_type_1", "heating")
    ensures Contains("heating_before", "heating") && Contains("heating_after", "heating")
  {
    ContainsAt("heating_system_type", "heating", 0);
    ContainsAt("heating_system_type_1", "heating", 0);
    ContainsAt("heating_before", "heating", 0);
    ContainsAt("heating_after", "heating", 0);
  }

  /** And the listed window names. */
  lemma WindowNames()
    ensures Contains("construction_year_class_of_renovated_window", "window")
    ensures Contains("window_renovation", "window") && Contains("window_construction", "window")
  {
    ContainsAt("construction_year_class_of_renovated_window", "window", 37);
    ContainsAt("window_renovation", "window", 0);
    ContainsAt("window_construction", "window", 0);
  }

  /** And the listed wall names. */
  lemma WallNames()
    ensures Contains("construction_year_class_of_renovated_wall", "wall")
    ensures Contains("wall_renovation", "wall") && Contains("wall_construction", "wall")
  {
    ContainsAt("construction_year_class_of_renovated_wall", "wall", 37);
    ContainsAt("wall_renovation", "wall", 0);
    ContainsAt("wall_construction", "wall", 0);
  }

  /**
   * Routing in `general_info`. The names the code lists one by one all contain the word searched
   * for beside them, so the rules come down to words: any name containing "roof" goes to the
   * roof-storey combo before the construction-year and storey rules are tried, and so no roof
   * field reaches the storey text box.
   */
  function GeneralRoute(name: string): (r: Slot)
    ensures r == RoofStoreyBox <==> Contains(name, "roof")
    ensures r == YearBox <==>
      !Contains(name, "roof") && (Contains(name, "construction_year") || Contains(name, "building_year"))
    ensures r == StoreyText <==>
      !Contains(name, "roof") && !Contains(name, "construction_year") && !Contains(name, "building_year") &&
      (Contains(name, "storey") || Contains(name, "floor"))
    ensures !r.MeasureBox?
  {
    RoofNames();
    YearAndStoreyNames();
    ContainsVia(name, "roof_storey_type", "roof");
    ContainsVia(name, "roof_type", "roof");
    ContainsVia(name, "roof_storey", "roof");
    ContainsVia(name, "number_type_of_roof", "roof");
    ContainsVia(name, "roof_construction", "roof");
    ContainsVia(name, "construction_year_class", "construction_year");
    ContainsVia(name, "number_of_storey", "storey");
    ContainsVia(name, "storey", "storey");
    if Contains(name, "roof") || EqualsIgnoreCase(name, "roof_storey_type") ||
       EqualsIgnoreCase(name, "roof_type") || EqualsIgnoreCase(name, "roof_storey") ||
       Contains(name, "number_type_of_roof") || Contains(name, "roof_construction")
    then RoofStoreyBox
    else if EqualsIgnoreCase(name, "construction_year_class") || Contains(name, "construction_year") ||
            Contains(name, "building_year")
    then YearBox
    else if (Contains(name, "storey") && !Contains(name, "roof")) || Contains(name, "floor") ||
            EqualsIgnoreCase(name, "number_of_storey") || EqualsIgnoreCase(name, "storey")
    then StoreyText
    else Unrouted
  }

  /** Each project rule comes down to one word. */
  lemma ProjectNameWords(p: Phase, name: string)
    ensures Contains(name, "heating") || EqualsIgnoreCase(name, "heating_system_type") ||
       EqualsIgnoreCase(name, "heating_system_type_1") ||
       Contains(name, if p == Before then "heating_before" else "heating_after")
       <==> Contains(name, "heating")
    ensures Contains(name, "window") || EqualsIgnoreCase(name, "construction_year_class_of_renovated_window") ||
       Contains(name, "window_renovation") || Contains(name, "window_construction")
       <==> Contains(name, "window")
    ensures Contains(name, "wall") || EqualsIgnoreCase(name, "construction_year_class_of_renovated_wall") ||
       Contains(name, "wall_renovation") || Contains(name, "wall_construction")
       <==> Contains(name, "wall")
  {
    HeatingNames();
    WindowNames();
    WallNames();
    ContainsVia(name, "heating_system_type", "heating");
    ContainsVia(name, "heating_system_type_1", "heating");
    ContainsVia(name, "heating_before", "heating");
    ContainsVia(name, "heating_after", "heating");
    ContainsVia(name, "construction_year_class_of_renovated_window", "window");
    ContainsVia(name, "window_renovation", "window");
    ContainsVia(name, "window_construction", "window");
    ContainsVia(name, "construction_year_class_of_renovated_wall", "wall");
    ContainsVia(name, "wall_renovation", "wall");
    ContainsVia(name, "wall_construction", "wall");
  }

  /**
   * Routing in `begin_of_project` (`Before`) and `end_of_project` (`After`), each to that phase's
   * combos. Again the listed names add nothing to the words: heating first, then window, wall,
   * roof (but not roof storey) and ceiling.
   */
  function ProjectRoute(p: Phase, name: string): (r: Slot)
    ensures r == Unrouted || (r.MeasureBox? && r.phase == p)
    ensures r == MeasureBox(p, Heating) <==> Contains(name, "heating")
    ensures r == MeasureBox(p, Window) <==> !Contains(name, "heating") && Contains(name, "window")
    ensures r == MeasureBox(p, Wall) <==>
      !Contains(name, "heating") && !Contains(name, "window") && Contains(name, "wall")
    ensures r == MeasureBox(p, Roof) <==>
      !Contains(name, "heating") && !Contains(name, "window") && !Contains(name, "wall") &&
      Contains(name, "roof") && !Contains(name, "storey")
    ensures r == MeasureBox(p, Ceiling) <==>
      !Contains(name, "heating") && !Contains(name, "window") && !Contains(name, "wall") &&
      !(Contains(name, "roof") && !Contains(name, "storey")) && Contains(name, "ceiling")
  {
    ProjectNameWords(p, name);
    if Contains(name, "heating") || EqualsIgnoreCase(name, "heating_system_type") ||
       EqualsIgnoreCase(name, "heating_system_type_1") ||
       Contains(name, if p == Before then "heating_before" else "heating_after")
    then MeasureBox(p, Heating)
    else if Contains(name, "window") || EqualsIgnoreCase(name, "construction_year_class_of_renovated_window") ||
            Contains(name, "window_renovation") || Contains(name, "window_construction")
    then MeasureBox(p, Window)
    else if Contains(name, "wall") || EqualsIgnoreCase(name, "construction_year_class_of_renovated_wall") ||
            Contains(name, "wall_renovation") || Contains(name, "wall_construction")
    then MeasureBox(p, Wall)
    else if Contains(name, "roof") && !Contains(name, "storey") then MeasureBox(p, Roof)
    else if Contains(name, "ceiling") then MeasureBox(p, Ceiling)
    else Unrouted
  }

  function Route(sec: Section, name: string): Slot
  {
    match sec
    case GeneralInfo => GeneralRoute(name)
    case BeginOfProject => ProjectRoute(Before, name)
    case EndOfProject => ProjectRoute(After, name)
  }

  function PartOf(m: Measures, part: Part): Combo
  {
    match part
    case Heating => m.heating
    case Window => m.window
    case Wall => m.wall
    case Roof => m.roof
    case Ceiling => m.ceiling
  }

  function WithPart(m: Measures, part: Part, c: Combo): Measures
  {
    match part
    case Heating => m.(heating := c)
    case Window => m.(window := c)
    case Wall => m.(wall := c)
    case Roof => m.(roof := c)
    case Ceiling => m.(ceiling := c)
  }

  /** The combo box a slot names (the storey text box and `Unrouted` name none). */
  function ComboAt(f: Form, s: Slot): Combo
  {
    match s
    case YearBox => f.constructionYear
    case RoofStoreyBox => f.roofStorey
    case MeasureBox(Before, part) => PartOf(f.before, part)
    case MeasureBox(After, part) => PartOf(f.after, part)
    case _ => EmptyCombo
  }

  function WithCombo(f: Form, s: Slot, c: Combo): Form
  {
    match s
    case YearBox => f.(constructionYear := c)
    case RoofStoreyBox => f.(roofStorey := c)
    case MeasureBox(Before, part) => f.(before := WithPart(f.before, part, c))
    case MeasureBox(After, part) => f.(after := WithPart(f.after, part, c))
    case _ => f
  }

  /** One field of a section: its value goes to the storey text, or fills and selects its combo. */
  function RouteField(f: Form, sec: Section, name: string, field: Json): Form
  {
    match field
    case JObject(o) =>
      var value := ExtractFieldValue(o);
      var s := Route(sec, name);
      if s == Unrouted then f
      else if s == StoreyText then f.(storey := value)
      else WithCombo(f, s, PopulateCombo(ComboAt(f, s), o, value).1)
    case _ => f
  }

  /** The routing loop over the fields of one section, in order. */
  function RouteFields(f: Form, sec: Section, fields: CIMap<Json>): Form
  {
    if |fields| == 0 then f
    else
      var e := fields[|fields| - 1];
      RouteField(RouteFields(f, sec, fields[..|fields| - 1]), sec, e.0, e.1)
  }

  /** Routing one more field routes the fields before it, then that field. */
  lemma RouteFieldsSnoc(f: Form, sec: Section, fields: CIMap<Json>, i: nat)
    requires i < |fields|
    ensures RouteFields(f, sec, fields[..i + 1]) == RouteField(RouteFields(f, sec, fields[..i]), sec, fields[i].0, fields[i].1)
  {
    assert fields[..i + 1][..i] == fields[..i];
  }

  function SectionName(sec: Section): string
  {
    match sec
    case GeneralInfo => "general_info"
    case BeginOfProject => "begin_of_project"
    case EndOfProject => "end_of_project"
  }

  /** The fields of the named section of the response, if it has them. */
  function NamedSectionFields(root: CIMap<Json>, sec: Section): Option<CIMap<Json>>
  {
    match ObjectField(root, SectionName(sec))
    case None => None
    case Some(s) => ObjectField(s, "fields")
  }

  function RouteSection(f: Form, root: CIMap<Json>, sec: Section): Form
  {
    match NamedSectionFields(root, sec)
    case None => f
    case Some(fields) => RouteFields(f, sec, fields)
  }

  /** A top-level string field, if present, selects its combo's matching option. */
  function FlatCombo(c: Combo, root: CIMap<Json>, key: string): Combo
  {
    match StringField(root, key)
    case None => c
    case Some(s) => Select(c, s)
  }

  /** The top-level string fields: each selects its combo, or sets the storey text. */
  function FlatFields(f: Form, root: CIMap<Json>): Form
  {
    f.(constructionYear := FlatCombo(f.constructionYear, root, "construction_year_class"),
       storey := StringField(root, "storey").GetOr(f.storey),
       roofStorey := FlatCombo(f.roofStorey, root, "roof_storey"),
       before := f.before.(heating := FlatCombo(f.before.heating, root, "begin_heating_system_type_1")),
       after := f.after.(heating := FlatCombo(f.after.heating, root, "end_heating_system_type_1")))
  }

  /** `PopulateFormFromJson(root)`: the flat fields, the choice maps, then the three sections. */
  function PopulateForm(f: Form, m: ChoiceMaps, root: CIMap<Json>): (Form, ChoiceMaps)
  {
    var f1 := FlatFields(f, root);
    var m1 := RootChoices(m, root);
    var f2 := RouteSection(f1, root, GeneralInfo);
    var f3 := RouteSection(f2, root, BeginOfProject);
    (RouteSection(f3, root, EndOfProject), m1)
  }

  // ---------------------------------------------------------------------
  // The save payload
  // ---------------------------------------------------------------------

  /** The code for a shown label, or the label itself when the map has none. */
  function Translate(m: CIMap<string>, shown: string): string
  {
    Find(m, shown).GetOr(shown)
  }

  /** `SetStringField(key, value)` when the widget shows something. */
  function PutIfShown(p: CIMap<string>, key: string, shown: string, value: string): CIMap<string>
  {
    if |shown| > 0 then Add(p, key, value) else p
  }

  /** The object `CreateAttributesJsonFromForm` serialises, as key/value pairs. */
  function Payload(f: Form, m: ChoiceMaps): CIMap<string>
  {
    var p1 := PutIfShown([], "construction_year_class", f.constructionYear.selected,
      Translate(m.constructionYear, f.constructionYear.selected));
    var p2 := PutIfShown(p1, "storey", f.storey, f.storey);
    var p3 := PutIfShown(p2, "roof_storey", f.roofStorey.selected, Translate(m.roofStorey, f.roofStorey.selected));
    var p4 := PutIfShown(p3, "begin_heating_system_type_1", f.before.heating.selected,
      Translate(m.heating, f.before.heating.selected));
    PutIfShown(p4, "end_heating_system_type_1", f.after.heating.selected, Translate(m.heating, f.after.heating.selected))
  }

  /** The only keys a payload can hold. */
  predicate IsFormKey(k: string)
  {
    k == "construction_year_class" || k == "storey" || k == "roof_storey" ||
    k == "begin_heating_system_type_1" || k == "end_heating_system_type_1"
  }

  // ---------------------------------------------------------------------
  // Widget state and the handlers as steps
  // ---------------------------------------------------------------------

  /** `CurrentBuildingGmlId`, `CurrentBuildingKey`, `AccessToken`, `CommunityId`. */
  datatype Target = Target(gmlId: string, key: string, token: string, communityId: string)

  /**
   * `FormRealTimeTimer`, `FormUpdateInterval`, `bFormRealTimeEnabled`, `bIsFormDataChecking`,
   * `PreviousFormDataSnapshot`.
   */
  datatype Sync = Sync(timer: real, interval: real, enabled: bool, checking: bool, snapshot: string)

  /** A request the widget sent. */
  datatype FormEffect =
    | LoadRequest(key: string, communityId: string, token: string)
    | SaveRequest(key: string, communityId: string, token: string, payload: CIMap<string>)
    | CheckRequest(key: string, communityId: string, token: string)

  datatype WidgetView = WidgetView(form: Form, maps: ChoiceMaps, sync: Sync, target: Target, effects: seq<FormEffect>)

  /** The header's initialisers: timer 0, interval 2 s, sync off and idle, snapshot and maps empty. */
  const InitialSync := Sync(0.0, 2.0, false, false, "")
  const InitialWidget := WidgetView(EmptyForm, EmptyMaps, InitialSync, Target("", "", "", ""), [])

  /** The community every form request names. */
  const FormCommunityId := "08417008"

  function EmitForm(v: WidgetView, e: FormEffect): WidgetView
  {
    v.(effects := v.effects + [e])
  }

  /** `NativeConstruct`: `PopulateDropdownOptions` clears four of the combos. */
  function ConstructStep(v: WidgetView): WidgetView
  {
    v.(form := v.form.(constructionYear := EmptyCombo, roofStorey := EmptyCombo,
      before := v.form.before.(heating := EmptyCombo), after := v.form.after.(heating := EmptyCombo)))
  }

  /** `LoadBuildingAttributes`; `sent` says whether `ProcessRequest` started the request. */
  function LoadStep(v: WidgetView, sent: bool): WidgetView
  {
    if |v.target.token| == 0 || !sent then v
    else EmitForm(v, LoadRequest(v.target.key, v.target.communityId, v.target.token))
  }

  /** `SetBuildingData(gmlId, token)`. */
  function SetBuildingDataStep(v: WidgetView, gmlId: string, token: string, sent: bool): WidgetView
  {
    LoadStep(v.(target := Target(gmlId, gmlId, token, FormCommunityId)), sent)
  }

  /** `SaveBuildingAttributesToAPI`. */
  function SaveToApiStep(v: WidgetView, sent: bool): WidgetView
  {
    if |v.target.key| == 0 || |v.target.token| == 0 || !sent then v
    else EmitForm(v, SaveRequest(v.target.key, v.target.communityId, v.target.token, Payload(v.form, v.maps)))
  }

  /** `OnSaveButtonClicked`. */
  function SaveButtonStep(v: WidgetView, sent: bool): WidgetView
  {
    if |v.target.token| == 0 then v
    else if |v.target.key| == 0 then v
    else SaveToApiStep(v, sent)
  }

  function PopulateStep(v: WidgetView, root: CIMap<Json>): WidgetView
  {
    var r := PopulateForm(v.form, v.maps, root);
    v.(form := r.0, maps := r.1)
  }

  /** `OnGetAttributesResponse`; the body is `None` when it is not a JSON object. */
  function GetResponseStep(v: WidgetView, reply: Reply<Option<CIMap<Json>>>): WidgetView
  {
    match reply
    case Failed => v
    case Reply(code, body) =>
      if code != 200 then v
      else match body
        case None => v
        case Some(root) => PopulateStep(v, root)
  }

  /** `SetFormUpdateInterval`. */
  function ClampFormInterval(seconds: real): (r: real)
    ensures 1.0 <= r <= 30.0
    ensures 1.0 <= seconds <= 30.0 ==> r == seconds
    ensures seconds < 1.0 ==> r == 1.0
    ensures seconds > 30.0 ==> r == 30.0
  {
    if seconds < 1.0 then 1.0 else if seconds > 30.0 then 30.0 else seconds
  }

  function SetFormIntervalStep(v: WidgetView, seconds: real): WidgetView
  {
    v.(sync := v.sync.(interval := ClampFormInterval(seconds)))
  }

  function StartSyncStep(v: WidgetView): WidgetView
  {
    v.(sync := v.sync.(enabled := true, timer := 0.0))
  }

  function StopSyncStep(v: WidgetView): WidgetView
  {
    v.(sync := v.sync.(enabled := false, checking := false))
  }

  /** `EnableFormRealTime(enable)`. */
  function EnableFormStep(v: WidgetView, enable: bool): WidgetView
  {
    if enable then StartSyncStep(v) else StopSyncStep(v)
  }

  /**
   * `PerformFormDataCheck`: nothing while a check is in flight or without key or token; otherwise
   * the flag is raised, and lowered again when the request does not start.
   */
  function FormCheckStep(v: WidgetView, sent: bool): WidgetView
  {
    if v.sync.checking then v
    else if |v.target.key| == 0 || |v.target.token| == 0 then v
    else if !sent then v
    else EmitForm(v.(sync := v.sync.(checking := true)), CheckRequest(v.target.key, v.target.communityId, v.target.token))
  }

  /** `NativeTick(dt)`. */
  function FormTickStep(v: WidgetView, dt: real, sent: bool): WidgetView
  {
    if !v.sync.enabled || v.sync.checking || |v.target.key| == 0 then v
    else
      var t := v.sync.timer + dt;
      if t >= v.sync.interval then FormCheckStep(v.(sync := v.sync.(timer := 0.0)), sent)
      else v.(sync := v.sync.(timer := t))
  }

  /** `UpdateFormFieldsAutomatically`: the first element of `results`, when it is an object. */
  function UpdateFieldsStep(v: WidgetView, data: CIMap<Json>): WidgetView
  {
    match ArrayField(data, "results")
    case None => v
    case Some(rs) =>
      if |rs| == 0 then v
      else match rs[0]
        case JObject(b) => PopulateStep(v, b)
        case _ => v
  }

  /**
   * `DetectAndApplyFormChanges(text)`; `parse` stands for the JSON reader (`None`: not an object).
   * The first text is only recorded; an identical text changes nothing; any other text is applied
   * when it parses and becomes the snapshot either way.
   */
  function DetectFormStep(v: WidgetView, text: string, parse: string -> Option<CIMap<Json>>): WidgetView
  {
    if |v.sync.snapshot| == 0 then v.(sync := v.sync.(snapshot := text))
    else if v.sync.snapshot == text then v
    else
      var w := match parse(text) case None => v case Some(data) => UpdateFieldsStep(v, data);
      w.(sync := w.sync.(snapshot := text))
  }

  /** `OnFormRealTimeDataResponse`: the flag is lowered first, then a non-empty 200 body is compared. */
  function FormResponseStep(v: WidgetView, reply: Reply<string>, parse: string -> Option<CIMap<Json>>): WidgetView
  {
    var w := v.(sync := v.sync.(checking := false));
    match reply
    case Failed => w
    case Reply(code, body) =>
      if code != 200 || |body| == 0 then w else DetectFormStep(w, body, parse)
  }
}
