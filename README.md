# Building energy display: cache, polling and identifier model

This project models the client-side core of an Unreal Engine application that shows the energy-renovation
data of buildings on a 3D city model streamed as a Cesium tileset. The core has three parts:

- `ABuildingEnergyDisplay`, the actor that holds the building caches. It keeps:
  - the display text, colour, alias id and coordinate maps, keyed by the "modified" gml id;
  - the snapshots that real-time polling compares against;
  - the adaptive polling state, the energy socket with its REST polling fallback, and the authentication flow;
  - the click and display lookups with their debounces;
  - the bounding-box and polygon checks of a click position;
  - the Cesium style document and colour expression built from the colour cache;
  - the hex colour validator.
- `UBuildingAttributesWidget`, the attributes form. It covers:
  - building the save payload from the combos and the translation maps;
  - filling the combos and the maps from a JSON response, and routing fields by name;
  - the form's own real-time sync: the interval clamp, the single-flight check and the snapshot diff.
- `UHoloLensInputConverter`. It turns mouse presses into simulated touches, air taps and tap-and-hold
  gestures, with a set of active touch indices.

## How the model is built

`FString` and `TMap<FString, …>` semantics are fixed once, as stated definitions in `UnrealString` and
`CaseInsensitiveMap`:

- `==`, `TMap` key equality, `Contains`, `StartsWith`, `Replace` and `ReplaceInline` ignore case.
  ASCII letters only are folded.
- `Equals` is exact.
- An empty search string is never found.
- `TMap::Add` on a present key replaces that entry in place. `Map[k] = v` keeps the stored key.
- A map is a sequence of (key, value) pairs in insertion order. The lemmas never depend on iteration
  order except where the code does: first match wins, and the last write wins.

The code comments describe the caches as case-sensitive. The calls the code makes are case-insensitive, and the model follows the calls.

Each core file is modelled in the form the code takes:

- Pure code becomes pure functions: the identifier rules, the escaper, the style builder's
  document, the hex validator, the bounding-box predicate, and the choice and routing rules of the form.
- Loops become methods with loop invariants, each proved equal to a function:
  - `IsPointInPolygon`, `ComputeBounds` and the coordinate collection;
  - `BuildCesiumStyleJsonFromCache` and `CreateCesiumColorExpression`;
  - `ConvertHexToLinearColor` and the change-detection loop;
  - the click ladder's tiers;
  - the combo filler and the choice-map and field-routing loops of the widget.
- Objects whose methods update fields become classes:
  - `EnergyDisplay.BuildingEnergyDisplay`, `AttributesWidget.BuildingAttributesWidget` and
    `HoloLensInput.HoloLensInputConverter`, each with the fields of the source object;
  - `EnergyDisplay.DisplayStatics`, the function-local `static` variables. C++ keeps these once per
    process, so every display actor shares them.

  Every class method ensures that its new state is what a step function says: `DisplaySteps`,
  `AttributesForm` or `HoloLensSteps`. The properties are lemmas about those step functions, in
  `DisplayProperties`, `AttributesProperties` and `HoloLensSteps`.

Inputs and outputs are handled like this:

- Network I/O:
  - A reply is `Failed` or `Reply(code, body)`, with a body already parsed into a datatype.
  - Requests and UI actions are appended to an `effects` sequence.
  - Where the code reacts to whether `ProcessRequest` started, a `sent` parameter tells it.
- Clocks, `DeltaTime` and world time are `real` parameters.
- Foreign conversions are function parameters: sRGB to linear colour, `%.3f` text, `ToHex`, and the
  coordinate parser.

## Model

| member | source | states |
|---|---|---|
| `Identifiers.ConvertGmlIdToBuildingKey` | fixed/BuildingEnergyDisplay_v2.cpp:4735-4807 | the result is the input with every `_` turned into `L`, and has the same length |
| `Identifiers.ConvertActualGmlIdToModified` | fixed/BuildingEnergyDisplay_v2.cpp:4809-4825 | the result is the input with every `L` and, because the search ignores case, every `l` turned into `_` |
| `Identifiers.UnderscoreRewrite` | fixed/BuildingEnergyDisplay_v2.cpp:4791-4806 | a case-insensitive `Replace("_", "L")` is the character-wise rewrite, and an id without `_` is returned unchanged |
| `Identifiers.BuildingKeyWithoutUnderscore` | fixed/BuildingEnergyDisplay_v2.cpp:4791-4806 | an id with no `_` is its own building key |
| `Identifiers.ModifiedAfterBuildingKey` | fixed/BuildingEnergyDisplay_v2.cpp:4813-4824 | for an id with no `L` or `l`, converting to the building key and back gives the id again |
| `Identifiers.BuildingKeyAfterModified` | fixed/BuildingEnergyDisplay_v2.cpp:4813-4824 | for an id with no `_` or `l`, converting to the modified form and back gives the id again |
| `Identifiers.DocumentedExample` | fixed/BuildingEnergyDisplay_v2.cpp:4738-4740 | `DEBW_001000wrHDD` and `DEBWL001000wrHDD` convert into each other |
| `Identifiers.CharwiseExample` | fixed/BuildingEnergyDisplay_v2.cpp:4738-4740 | any id that differs from its key only by `_`/`L` at index 4, with no other `_`, `L` or `l`, converts both ways |
| `Identifiers.RoundTripNeedsNoL` | fixed/BuildingEnergyDisplay_v2.cpp:4813-4824 | `AL_1` becomes `ALL1`, which converts back to `A__1`, so the round trip fails once the id holds an `L` |
| `Identifiers.AttributesApiId` | fixed/BuildingEnergyDisplay_v2.cpp:4329-4342 | ids without `DEBW_` follow the general rule; ids with it keep their length and start with `DEBWL` |
| `Identifiers.ReplaceSameLength` | fixed/BuildingEnergyDisplay_v2.cpp:4391-4404 | replacing by a string of equal length keeps the length |
| `Identifiers.ReplaceKeepsUnmatched` | fixed/BuildingEnergyDisplay_v2.cpp:4391-4404 | an equal-length replacement keeps every character that no match of the searched text covers |
| `Identifiers.AttributesApiIdKeepsOtherCharacters` | fixed/BuildingEnergyDisplay_v2.cpp:4329-4342 | for a `DEBW_` id, every character outside a `DEBW_` match, `_` included, is sent unchanged |
| `Identifiers.AttributesRuleKeepsOtherUnderscores` | fixed/BuildingEnergyDisplay_v2.cpp:4391-4404 | `DEBW_a_1` is sent as `DEBWLa_1` to the attributes service but has the building key `DEBWLaL1`, so the two rules differ |
| `Identifiers.IsGmlIdCaseSensitive` | fixed/BuildingEnergyDisplay_v2.cpp:6855-6897 | with ASCII letters only counted as upper or lower case, mixed case is accepted; upper case only is accepted exactly when longer than 5 characters; no upper-case letter at all is rejected |
| `Identifiers.IsTargetBuildingsTileset` | fixed/BuildingEnergyDisplay_v2.cpp:20-40 | no actor never matches; an actor matches the override when one is set; otherwise it matches when the configured name is non-empty and occurs in the actor's name, ignoring case |
| `Identifiers.ContainsFolded` | fixed/BuildingEnergyDisplay_v2.cpp:33-39 | lowering both names first does not change the case-insensitive `Contains` |
| `CaseInsensitiveMap.FindAdd` | fixed/BuildingEnergyDisplay_v2.cpp:1036 | after `Add(k, v)`, every spelling of `k` finds `v` and every other key finds what it found before |
| `CaseInsensitiveMap.FindSetValue` | fixed/BuildingEnergyDisplay_v2.cpp:2629 | `Map[k] = v` on a present key changes only the value found under `k` |
| `CaseInsensitiveMap.ContainsKeyIff` | fixed/BuildingEnergyDisplay_v2.cpp:1208 | `Contains(k)` holds exactly when some stored key equals `k` ignoring case |
| `CaseInsensitiveMap.AddUnique` | fixed/BuildingEnergyDisplay_v2.cpp:1213 | `Add` keeps the keys unique ignoring case |
| `CaseInsensitiveMap.SetValueUnique` | fixed/BuildingEnergyDisplay_v2.cpp:2629 | `Map[k] = v` on a present key keeps the keys unique |
| `CaseInsensitiveMap.DedupUnique` | fixed/BuildingEnergyDisplay_v2.cpp:6740-6758 | after the duplicate cleanup no two keys are equal ignoring case |
| `CaseInsensitiveMap.DedupIdentity` | fixed/BuildingEnergyDisplay_v2.cpp:6740-6758 | on a map whose keys are already unique the cleanup changes nothing |
| `CaseInsensitiveMap.DedupIdempotent` | fixed/BuildingEnergyDisplay_v2.cpp:6740-6758 | cleaning twice is the same as cleaning once |
| `CaseInsensitiveMap.DedupFind` | fixed/BuildingEnergyDisplay_v2.cpp:6740-6758 | the cleanup keeps the first entry of each key, so every lookup finds what it found before |
| `Spatial.IsPointInBoundingBox` | fixed/BuildingEnergyDisplay_v2.cpp:6448-6457 | a point is inside exactly when every coordinate lies between the box's minimum and maximum, bounds included, so a box holding a point has its minimum below its maximum on every axis; `Spatial.DefaultBoxHoldsOnlyOrigin` and `Spatial.BoundsContainAll` are its lemmas |
| `Spatial.DefaultBoxHoldsOnlyOrigin` | fixed/BuildingEnergyDisplay_v4.h:41-47 | the default bounding box has all four vectors zero, so it contains the origin and no other point |
| `Spatial.BoundsContainAll` | fixed/BuildingEnergyDisplay_v2.cpp:6419-6433 | the box built from the component-wise minimum and maximum contains every point it was built from |
| `Spatial.BoundsAttained` | fixed/BuildingEnergyDisplay_v2.cpp:6419-6433 | every bound of that box is the coordinate of one of the points |
| `Spatial.BoxOf` | fixed/BuildingEnergyDisplay_v2.cpp:6436-6437 | the box spans the two corners: the size carries the minimum corner onto the maximum one and the centre is equally far from both on every axis |
| `Spatial.ComputeBounds` | fixed/BuildingEnergyDisplay_v2.cpp:6419-6437 | the loop computes the box of the minimum and maximum of the points |
| `Spatial.IsPointInPolygon` | fixed/BuildingEnergyDisplay_v2.cpp:6577-6609 | false for fewer than three vertices; otherwise the parity of the edges crossed by the ray from the point in +X, using X and Y only |
| `Spatial.UnitSquareExample` | fixed/BuildingEnergyDisplay_v2.cpp:6577-6609 | the centre of the unit square is inside and a point to its right is outside |
| `Spatial.PrefixConcatHolds` | fixed/BuildingEnergyDisplay_v2.cpp:6404-6410 | the collected points are exactly the points of the entries whose key starts with the id, ignoring case |
| `Spatial.CollectByPrefix` | fixed/BuildingEnergyDisplay_v2.cpp:6404-6410 | the loop collects the points of the prefix-matching entries in map order |
| `Spatial.CreateBuildingBoundingBoxAsWritten` | fixed/BuildingEnergyDisplay_v2.cpp:6390-6394 | as written, an id that is not itself a key gets the all-zero box, even when `id#n` keys exist |
| `Spatial.BuildingBoundingBox` | fixed/BuildingEnergyDisplay_v2.cpp:6384-6446 | the corrected box contains every candidate point of the id |
| `Spatial.BoundingBoxAgreesOnKeys` | fixed/BuildingEnergyDisplay_v2.cpp:6384-6446 | for an id that is a key, the corrected box is the box the code computes |
| `Spatial.CreateBuildingBoundingBox` | fixed/BuildingEnergyDisplay_v2.cpp:6384-6446 | the method computes the corrected box |
| `Spatial.BoundingBoxCounterexample` | fixed/BuildingEnergyDisplay_v2.cpp:6390-6394 | a click inside the outline of `A#1` is valid for `A` with the corrected box and rejected by the code as written |
| `Spatial.ValidPositionAgreesOnKeys` | fixed/BuildingEnergyDisplay_v2.cpp:6324-6338 | for an id that is itself a key, the as-written and the corrected position checks decide alike |
| `Spatial.ValidateBuildingPosition` | fixed/BuildingEnergyDisplay_v2.cpp:6296-6382 | with the corrected bounding box, the method decides validity; a valid position is inside the outline; fewer than three cached points is never valid |
| `Spatial.ValidateBuildingPositionAsWritten` | fixed/BuildingEnergyDisplay_v2.cpp:6296-6382 | with the bounding box as written, the method decides validity as written; a valid position is inside the outline; fewer than three cached points is never valid |
| `Spatial.BaseId` | fixed/BuildingEnergyDisplay_v2.cpp:6624-6630 | the base id is the longest prefix of the key without `#`, cut at the first `#` |
| `Spatial.FirstContaining` | fixed/BuildingEnergyDisplay_v2.cpp:6611-6638 | the first entry, in map order, whose outline contains the point, and no earlier one |
| `Spatial.GetBuildingByCoordinates` | fixed/BuildingEnergyDisplay_v2.cpp:6611-6638 | the method returns the base id of the first containing entry, or the empty string when none contains the point |
| `Spatial.FirstIs` | fixed/BuildingEnergyDisplay_v2.cpp:6611-6638 | an entry that contains the point, with no earlier entry containing it, is the one found |
| `CesiumStyle.JsonEscapeAppend` | fixed/BuildingEnergyDisplay_v2.cpp:121-128 | the escaper works on each part of a concatenation separately |
| `CesiumStyle.JsonEscapeIsCharwise` | fixed/BuildingEnergyDisplay_v2.cpp:121-128 | the chain of five `Replace` calls, backslash first, escapes each character on its own |
| `CesiumStyle.UnescapeEscapeChars` | fixed/BuildingEnergyDisplay_v2.cpp:121-128 | by induction, decoding the character-wise escape of text without raw control characters gives the text back |
| `CesiumStyle.JsonEscapeRoundTrip` | fixed/BuildingEnergyDisplay_v2.cpp:121-128 | decoding the escaped text as the body of a JSON string gives back the input, for input without raw control characters |
| `CesiumStyle.ControlCharactersStayRaw` | fixed/BuildingEnergyDisplay_v2.cpp:121-128 | a control character other than newline, return and tab is left raw, and the result is no longer a valid JSON string body |
| `CesiumStyle.NatToString` | fixed/BuildingEnergyDisplay_v2.cpp:147-155 | the `%d` text of a channel is non-empty and made of decimal digits only |
| `CesiumStyle.NatToStringRoundTrip` | fixed/BuildingEnergyDisplay_v2.cpp:147-155 | the decimal text of a channel reads back as the same number |
| `CesiumStyle.Channel` | fixed/BuildingEnergyDisplay_v2.cpp:147-149 | a channel lies in 0..255, and for a component in [0, 1] it is the component times 255 rounded to a nearest integer |
| `CesiumStyle.RuleEntriesMembers` | fixed/BuildingEnergyDisplay_v2.cpp:134-145 | the rules are the colour cache entries with a non-empty key |
| `CesiumStyle.RuleEntriesCount` | fixed/BuildingEnergyDisplay_v2.cpp:134-145 | there is one rule per non-empty key |
| `CesiumStyle.StyleJsonFrame` | fixed/BuildingEnergyDisplay_v2.cpp:130-167 | the document starts with `{"color":{"conditions":[` and always ends with the fallback `["true","rgba(255,255,255,1.0)"]` and the closing brackets |
| `CesiumStyle.StyleJsonEmpty` | fixed/BuildingEnergyDisplay_v2.cpp:130-167 | an empty colour cache gives the document with the fallback rule only |
| `CesiumStyle.RuleDecodes` | fixed/BuildingEnergyDisplay_v2.cpp:154-160 | the condition, with the id escaped inside it and then escaped again as a whole, decodes back to the condition, and its id to the id |
| `CesiumStyle.BuildCesiumStyleJsonFromCache` | fixed/BuildingEnergyDisplay_v2.cpp:104-170 | the loop builds that document, one rule per non-empty key in map order, separated by commas |
| `CesiumStyle.MatchEntriesIsPrefix` | fixed/BuildingEnergyDisplay_v2.cpp:3214-3236 | the colour expression's match list is a prefix of all the entries |
| `CesiumStyle.MatchEntriesComplete` | fixed/BuildingEnergyDisplay_v2.cpp:3214-3236 | when all entries fit in 4000 characters, every entry is in the list |
| `CesiumStyle.MatchEntriesBound` | fixed/BuildingEnergyDisplay_v2.cpp:3231-3235 | the appending stops once the length exceeds 4000, so the list never exceeds 4000 plus one entry |
| `CesiumStyle.CreateCesiumColorExpression` | fixed/BuildingEnergyDisplay_v2.cpp:3200-3244 | the loop with its early stop builds the expression, and an empty cache gives the constant fallback |
| `CesiumStyle.RemoveHashIsFilter` | fixed/BuildingEnergyDisplay_v2.cpp:3042 | removing `#` deletes every `#`, wherever it stands |
| `CesiumStyle.HexParse` | fixed/BuildingEnergyDisplay_v2.cpp:3042-3064 | the hex text parses exactly when six hex digits remain once `#` is removed, and then each channel is below 256 |
| `CesiumStyle.ConvertHexToLinearColor` | fixed/BuildingEnergyDisplay_v2.cpp:3037-3070 | the method converts parsed digits through the colour-space conversion, and returns the fixed fallback otherwise |
| `CesiumStyle.HexDefaultGreen` | fixed/BuildingEnergyDisplay_v2.cpp:1153 | the default `#66b032` parses to (102, 176, 50) |
| `CesiumStyle.HexHashInside` | fixed/BuildingEnergyDisplay_v2.cpp:3042 | a `#` in the middle of the digits is removed too |
| `CesiumStyle.HexRejected` | fixed/BuildingEnergyDisplay_v2.cpp:3045-3060 | five digits, or a non-hex character, give the fallback |
| `CesiumStyle.FallbackIgnoresConversion` | fixed/BuildingEnergyDisplay_v2.cpp:3045-3060 | the fallback colour is a constant that does not depend on the colour-space conversion |
| `EnergyFeed.AliasOf` | fixed/BuildingEnergyDisplay_v2.cpp:1022-1033 | the alias is the `gml_id` field when present, else the modified id with `_` turned into `L` |
| `EnergyFeed.AliasFallback` | fixed/BuildingEnergyDisplay_v2.cpp:1031 | without a `gml_id` field the alias is the underscore rewrite of the modified id |
| `EnergyFeed.EndColorHex` | fixed/BuildingEnergyDisplay_v2.cpp:1153-1199 | when the end object has its own `color` object, its specific colour, or the default when that field is missing; when neither the end object nor its result has one, the default `#66b032` |
| `EnergyFeed.Report` | fixed/BuildingEnergyDisplay_v2.cpp:1230-1330 | the display text starts with the heading and the modified id |
| `EnergyFeed.CoordinateKey` | fixed/BuildingEnergyDisplay_v2.cpp:1335-1345 | without a numeric `id` the coordinates are stored under the modified id itself |
| `EnergyFeed.CoordinateKeyBase` | fixed/BuildingEnergyDisplay_v2.cpp:1335-1345 | the compound key `id#n` cuts back to the id |
| `EnergyFeed.StoreCoordinates` | fixed/BuildingEnergyDisplay_v2.cpp:6640-6648 | the coordinates are stored only when the parser yields at least one point, and then they are found under the key |
| `EnergyFeed.IngestRecordsAlias` | fixed/BuildingEnergyDisplay_v2.cpp:1036 | every record writes its alias entry, under its modified id, whether or not it is skipped later |
| `EnergyFeed.IngestSkipped` | fixed/BuildingEnergyDisplay_v2.cpp:1040-1114 | a record without energy result, begin/before or end/after changes nothing but its alias entry |
| `EnergyFeed.IngestStores` | fixed/BuildingEnergyDisplay_v2.cpp:1202-1374 | colour and display text are stored under the modified id, and with the same values under the alias when that is non-empty and not `Equals` the id |
| `EnergyFeed.AliasPairUnique` | fixed/BuildingEnergyDisplay_v2.cpp:1213-1225 | writing a value under the id, and under the alias as well, keeps the keys unique |
| `EnergyFeed.IngestBuildingUnique` | fixed/BuildingEnergyDisplay_v2.cpp:997-1393 | one record keeps every cache's keys unique |
| `EnergyFeed.IngestAllUnique` | fixed/BuildingEnergyDisplay_v2.cpp:997-1393 | the whole loop keeps every cache's keys unique |
| `EnergyFeed.DetectChangedIff` | fixed/BuildingEnergyDisplay_v2.cpp:5542-5575 | an id is in the changed list exactly when some feed item with that id is changed: its id is non-empty and it is missing from the snapshot or differs from it |
| `EnergyFeed.DetectNewDataKeys` | fixed/BuildingEnergyDisplay_v2.cpp:5542-5575 | the new data holds exactly the changed ids |
| `EnergyFeed.WrittenBySnoc` | fixed/BuildingEnergyDisplay_v2.cpp:5583-5598 | an id is written by a longer list exactly when the shorter list wrote it or the new id names it and has an update |
| `EnergyFeed.ApplyChangesFind` | fixed/BuildingEnergyDisplay_v2.cpp:5583-5598 | a key's value after applying is the update when a changed id wrote it, and its old value otherwise |
| `EnergyFeed.ChangedIdsOnly` | fixed/BuildingEnergyDisplay_v2.cpp:5583-5598 | only the changed ids are written |
| `EnergyFeed.UnchangedFeed` | fixed/BuildingEnergyDisplay_v2.cpp:5542-5575 | a feed with no changed item gives an empty changed list |
| `EnergyFeed.PollingRules` | fixed/BuildingEnergyDisplay_v2.cpp:5618-5650 | enhanced off changes nothing; a change resets the count and picks the fast interval; a quiet poll counts up and picks the slow interval exactly when the new count reaches the threshold |
| `EnergyFeed.QuietPollsSlowDown` | fixed/BuildingEnergyDisplay_v2.cpp:5618-5650 | after `k` quiet polls the count has grown by `k` and the interval is slow exactly when the count reached the threshold; nothing else changes |
| `EnergyFeed.ClampUpdateInterval` | fixed/BuildingEnergyDisplay_v2.cpp:5418-5436 | the interval is clamped into [0.5, 60], and values inside are kept |
| `EnergyFeed.EnergyUpdateKeepsKeys` | fixed/BuildingEnergyDisplay_v2.cpp:2595-2651 | an update replaces the text of an id the data cache already holds, and adds no key |
| `EnergyFeed.EnergyUpdatesKeepKeys` | fixed/BuildingEnergyDisplay_v2.cpp:2595-2651 | a whole batch of updates keeps the data cache's keys and their order |
| `EnergyFeed.Variations` | fixed/BuildingEnergyDisplay_v2.cpp:5232-5249 | a query's variants, in order, are itself, itself with `L` (either case) turned into `_`, and itself with `_` turned into `L` |
| `EnergyFeed.FirstMatch` | fixed/BuildingEnergyDisplay_v2.cpp:5209-5291 | a tier returns the first key, in map order, that it matches, and says so when none matches |
| `EnergyFeed.FirstMatchIs` | fixed/BuildingEnergyDisplay_v2.cpp:5198-5291 | the first matching key is the one a tier returns |
| `EnergyFeed.ScanTier` | fixed/BuildingEnergyDisplay_v2.cpp:5209-5291 | the scanning loop returns what the tier's function returns |
| `EnergyFeed.SameTextTierNeverHits` | fixed/BuildingEnergyDisplay_v2.cpp:5198-5220 | the exact `Equals` tier never succeeds, because it only runs after the map lookup failed |
| `EnergyFeed.ClickTargetOrder` | fixed/BuildingEnergyDisplay_v2.cpp:5198-5291 | the variant tier is tried before the substring tier, and the first hit in map order wins |
| `EnergyFeed.StatusDispatch` | fixed/BuildingEnergyDisplay_v2.cpp:865-958 | a reply is processed exactly on status 200, and refreshes exactly on 401 with a refresh token |
| `EnergyFeed.TokenResult` | fixed/BuildingEnergyDisplay_v2.cpp:2299-2412 | a token is granted exactly on status 200 with an `access` field; a failed request and a non-200 status are told apart |
| `DisplaySteps.ResolveTileset` | fixed/BuildingEnergyDisplay_v2.cpp:42-83 | the override wins; otherwise the actor found is a Cesium tileset whose name matches, and none is found only when no actor matches |
| `DisplaySteps.FirstCandidate` | fixed/BuildingEnergyDisplay_v2.cpp:62-79 | the first matching actor in iteration order, and no earlier one |
| `EnergyDisplay.FirstCandidateIs` | fixed/BuildingEnergyDisplay_v2.cpp:62-79 | a matching actor with no earlier match is the one found |
| `DisplayProperties.ConnectFrame` | fixed/BuildingEnergyDisplay_v2.cpp:5945-6057 | connecting changes only the socket state, the waiting message flag and the effects |
| `DisplayProperties.ConnectWithoutUrlPolls` | fixed/BuildingEnergyDisplay_v2.cpp:5950-5983 | with no socket URL, connecting with a token turns on REST polling and fetches at once; without a token it only shows the waiting message |
| `DisplayProperties.ConnectReopensUntilConnected` | fixed/BuildingEnergyDisplay_v2.cpp:5985-6057 | with a URL and a token, a socket that is not connected is closed and opened again, on every call |
| `DisplayProperties.DisconnectThenReconnect` | fixed/BuildingEnergyDisplay_v2.cpp:6059-6077 | after a disconnect with auto-reconnect on, the tick that reaches the reconnect interval opens the socket again |
| `DisplayProperties.SocketTickFrame` | fixed/BuildingEnergyDisplay_v2.cpp:716-741 | the socket half of a tick leaves the caches, the monitor and the tokens alone |
| `DisplayProperties.PollingModeFetches` | fixed/BuildingEnergyDisplay_v2.cpp:716-728 | in polling mode a tick fetches, and counts the fetch, exactly when the reconnect timer reaches its interval and a token is present |
| `DisplayProperties.TickStartsCheckIff` | fixed/BuildingEnergyDisplay_v2.cpp:744-756 | a tick starts a real-time check exactly when monitoring is on, the timer reaches the interval, a token is present, the data is loaded and the request goes out |
| `DisplayProperties.TickKeepsTimerBelowInterval` | fixed/BuildingEnergyDisplay_v2.cpp:744-756 | the monitoring timer stays within [0, interval) and the tick leaves the polling settings alone |
| `DisplayProperties.PreloadOutcome` | fixed/BuildingEnergyDisplay_v2.cpp:762-813 | within 3 seconds of a running preload nothing happens; otherwise only the data and alias caches are cleared, the token is stored even when empty, and a request is sent only with a token |
| `DisplayProperties.PreloadSingleFlight` | fixed/BuildingEnergyDisplay_v2.cpp:762-813 | a second preload within 3 seconds of the first changes nothing |
| `DisplayProperties.ParseOutcome` | fixed/BuildingEnergyDisplay_v2.cpp:961-1436 | a body that is not JSON changes nothing; otherwise the caches are what the ingest loop writes, their keys stay unique and the data is marked loaded |
| `DisplayProperties.PreloadResponseEndsLoading` | fixed/BuildingEnergyDisplay_v2.cpp:865-958 | a preload response always ends the loading state; a 401 with a refresh token asks for a new token; other failures change nothing else |
| `DisplayProperties.AuthAlwaysRequests` | fixed/BuildingEnergyDisplay_v2.cpp:2203-2244 | the reuse branch is never taken because the last successful token is never written; past the 2-second guard the request goes out |
| `DisplayProperties.AuthResponseOutcome` | fixed/BuildingEnergyDisplay_v2.cpp:2299-2412 | a failed or rejected reply only ends loading; a granted token stores both tokens and preloads with the new access token; the guard statics of `AuthenticateAndLoadData` are not reset |
| `DisplayProperties.AuthLatch` | fixed/BuildingEnergyDisplay_v2.cpp:2203-2244 | once an authentication is under way, calls within 2 seconds of its reset time do nothing, even after the response arrived |
| `DisplayProperties.RefreshCacheOutcome` | fixed/BuildingEnergyDisplay_v2.cpp:2168-2198 | nothing happens while loading; otherwise the data and alias caches are cleared (with a token), the colours are kept and authentication starts |
| `DisplayProperties.RefreshResponseOutcome` | fixed/BuildingEnergyDisplay_v2.cpp:2456-2515 | a granted token is stored and nothing is re-sent; any other reply changes nothing |
| `DisplayProperties.EnergyUpdateResponseKeepsKeys` | fixed/BuildingEnergyDisplay_v2.cpp:2595-2651 | an energy update response touches only ids already in the data cache and leaves the colour and alias caches alone |
| `DisplayProperties.StartMonitoringSnapshots` | fixed/BuildingEnergyDisplay_v2.cpp:5381-5403 | starting monitoring snapshots the data and colour caches, so an unchanged item is not reported; the timer and the quiet count are reset |
| `DisplayProperties.StoppedMonitoringNeverChecks` | fixed/BuildingEnergyDisplay_v2.cpp:5405-5416 | once stopped, no tick starts a check or moves the monitor |
| `DisplayProperties.EnhancedPollingSlowsDown` | fixed/BuildingEnergyDisplay_v2.cpp:5438-5452 | after enhanced polling is switched on, the fast interval is kept until the quiet polls reach the threshold |
| `DisplayProperties.IntervalClamped` | fixed/BuildingEnergyDisplay_v2.cpp:5418-5436 | the interval set always lies in [0.5, 60] |
| `DisplayProperties.RealTimeResponseEndsFlight` | fixed/BuildingEnergyDisplay_v2.cpp:5490-5515 | a real-time response always clears the in-flight flag; a failed or non-200 reply changes nothing else |
| `DisplayProperties.QuietFeedChangesNothing` | fixed/BuildingEnergyDisplay_v2.cpp:5517-5616 | a feed with no changed item only counts a quiet poll |
| `DisplayProperties.DetectUpdatesChangedOnly` | fixed/BuildingEnergyDisplay_v2.cpp:5517-5616 | only changed ids are written to the data cache and its snapshot; the colour cache and its snapshot take the new colour of a changed id that carried one and keep their entry otherwise; the polling update is told "changed" exactly when the list is non-empty; nothing is emitted otherwise |
| `DisplayProperties.WrittenByFind` | fixed/BuildingEnergyDisplay_v2.cpp:5583-5598 | a changed id writes a colour exactly when it names the key and the detected colours hold it |
| `DisplayProperties.MalformedFeedChangesNothing` | fixed/BuildingEnergyDisplay_v2.cpp:5517-5540 | a change feed that does not parse, or has no results array, leaves the display unchanged |
| `DisplayProperties.FirstTilesetRefreshRestyles` | fixed/BuildingEnergyDisplay_v2.cpp:379-403 | while the last re-style time is negative, the refresh re-styles without throttling |
| `DisplayProperties.TilesetRefreshThrottled` | fixed/BuildingEnergyDisplay_v2.cpp:394-399 | within 4 seconds of a re-style, a refresh does nothing |
| `DisplayProperties.OverrideWins` | fixed/BuildingEnergyDisplay_v2.cpp:3152-3197 | with the override set, styling applies the style built from the colour cache |
| `DisplayProperties.ShowOutcome` | fixed/BuildingEnergyDisplay_v2.cpp:5701-5767 | only the primary instance shows; a different building on display is hidden first; the shown id becomes the displayed one |
| `DisplayProperties.DisplayShowsDirectHit` | fixed/BuildingEnergyDisplay_v2.cpp:1845-1965 | a non-empty exact hit is shown |
| `DisplayProperties.DisplayDebounce` | fixed/BuildingEnergyDisplay_v2.cpp:1857-1867 | asking for the same id again, ignoring case, within 1 second does nothing |
| `DisplayProperties.DisplayHasNoSubstringTier` | fixed/BuildingEnergyDisplay_v2.cpp:1870-1942 | the display lookup finds no building by substring, where the click ladder does |
| `DisplayProperties.RealTimeReloadRefreshesDisplay` | fixed/BuildingEnergyDisplay_v2.cpp:5838-5924 | a reload replaces the data cache and shows the new text of the building on display |
| `DisplayProperties.FormApiIdStable` | fixed/BuildingEnergyDisplay_v2.cpp:4879-4924 | opening the form records the building, sends its attributes id as the alias cache gives it, and leaves that id unchanged for the next opening |
| `DisplayProperties.ClickIgnored` | fixed/BuildingEnergyDisplay_v2.cpp:5096-5193 | empty ids, `XXXXX`, `Default`, `None` and clicks without a token change nothing but the debounce |
| `DisplayProperties.ClickDebounce` | fixed/BuildingEnergyDisplay_v2.cpp:5082-5094 | a second click on the same id within 0.3 seconds does nothing |
| `DisplayProperties.ClickOpensResolvedBuilding` | fixed/BuildingEnergyDisplay_v2.cpp:5031-5332 | a click opens the form for the key the ladder resolved, or does nothing when no tier matches |
| `DisplayProperties.ClickWithPositionRouting` | fixed/BuildingEnergyDisplay_v2.cpp:5336-5377 | a click at a valid position, or on an id without coordinates, is a plain click; otherwise the building whose outline holds the point is clicked instead when there is one and it is another id, and nothing happens when there is none |
| `DisplayProperties.AttributeRequestsUseApiId` | fixed/BuildingEnergyDisplay_v2.cpp:4311-4439 | attribute reads and updates are sent for the `DEBW_`-rewritten id, and the read remembers the requested key |
| `DisplayProperties.AttributesResponseGate` | fixed/BuildingEnergyDisplay_v2.cpp:4444-4457 | a response for no key, or a key the data cache does not hold, changes nothing; a 200 creates the form when the body is JSON |
| `DisplayProperties.UpdateSuccessRefetches` | fixed/BuildingEnergyDisplay_v2.cpp:4556-4609 | with no socket URL, a successful update (200, 201 or 204) restarts the polling fetch and reloads the energy data when a token is present, and only shows the waiting message without one |
| `DisplayProperties.ForceRefreshOutcome` | fixed/BuildingEnergyDisplay_v2.cpp:5926-5943 | a forced refresh clears the data and alias caches and reloads when a token is present |
| `DisplayProperties.InitialDisplayDefaults` | fixed/BuildingEnergyDisplay_v4.h:100-381 | polling starts enhanced at 2 s (fast 1, slow 5, threshold 10, count 0); monitoring starts on with no check in flight; the socket closed with no URL and a 5 s interval; the tileset `bisingen` with no override; the first re-style is not throttled |
| `EnergyDisplay.DisplayStatics.constructor` | fixed/BuildingEnergyDisplay_v2.cpp:762-764 | every function-local static starts false, zero or empty, and no primary instance is set |
| `EnergyDisplay.BuildingEnergyDisplay.constructor` | fixed/BuildingEnergyDisplay_v4.h:340-381 | the fields start at the header's initial values |
| `EnergyDisplay.BuildingEnergyDisplay.ResolveBuildingsTilesetActor` | fixed/BuildingEnergyDisplay_v2.cpp:42-83 | the loop over the actors returns the resolved tileset |
| `EnergyDisplay.BuildingEnergyDisplay.ApplyColorsUsingCesiumStyling` | fixed/BuildingEnergyDisplay_v2.cpp:3152-3197 | the state is what `DisplaySteps.StyleStep` gives |
| `EnergyDisplay.BuildingEnergyDisplay.OnCesiumTilesetRefresh` | fixed/BuildingEnergyDisplay_v2.cpp:379-403 | the state is what `DisplaySteps.TilesetRefreshStep` gives |
| `EnergyDisplay.BuildingEnergyDisplay.FetchUpdatedEnergyData` | fixed/BuildingEnergyDisplay_v2.cpp:2518-2548 | the state is what `DisplaySteps.FetchStep` gives |
| `EnergyDisplay.BuildingEnergyDisplay.ConnectEnergyWebSocket` | fixed/BuildingEnergyDisplay_v2.cpp:5945-6057 | the state is what `DisplaySteps.ConnectStep` gives |
| `EnergyDisplay.BuildingEnergyDisplay.DisconnectEnergyWebSocket` | fixed/BuildingEnergyDisplay_v2.cpp:6059-6077 | the state is what `DisplaySteps.DisconnectStep` gives |
| `EnergyDisplay.BuildingEnergyDisplay.PerformRealTimeDataCheck` | fixed/BuildingEnergyDisplay_v2.cpp:5454-5488 | the state is what `DisplaySteps.CheckStep` gives |
| `EnergyDisplay.BuildingEnergyDisplay.TickSocket` | fixed/BuildingEnergyDisplay_v2.cpp:716-741 | the state is what `DisplaySteps.SocketTick` gives |
| `EnergyDisplay.BuildingEnergyDisplay.TickMonitor` | fixed/BuildingEnergyDisplay_v2.cpp:744-756 | the state is what `DisplaySteps.MonitorTick` gives |
| `EnergyDisplay.BuildingEnergyDisplay.Tick` | fixed/BuildingEnergyDisplay_v2.cpp:712-757 | the state is what `DisplaySteps.TickStep` gives |
| `EnergyDisplay.BuildingEnergyDisplay.StartRealTimeMonitoring` | fixed/BuildingEnergyDisplay_v2.cpp:5381-5403 | the state is what `DisplaySteps.StartMonitoringStep` gives |
| `EnergyDisplay.BuildingEnergyDisplay.StopRealTimeMonitoring` | fixed/BuildingEnergyDisplay_v2.cpp:5405-5416 | the state is what `DisplaySteps.StopMonitoringStep` gives |
| `EnergyDisplay.BuildingEnergyDisplay.SetRealTimeUpdateInterval` | fixed/BuildingEnergyDisplay_v2.cpp:5418-5436 | the state is what `DisplaySteps.SetIntervalStep` gives |
| `EnergyDisplay.BuildingEnergyDisplay.EnableEnhancedPolling` | fixed/BuildingEnergyDisplay_v2.cpp:5438-5452 | the state is what `DisplaySteps.EnableEnhancedStep` gives |
| `EnergyDisplay.BuildingEnergyDisplay.UpdatePollingStrategy` | fixed/BuildingEnergyDisplay_v2.cpp:5618-5650 | only the polling state changes, to what `EnergyFeed.NextPolling` gives |
| `EnergyDisplay.BuildingEnergyDisplay.PreloadAllBuildingData` | fixed/BuildingEnergyDisplay_v2.cpp:759-861 | the display and the statics are what `DisplaySteps.PreloadStep` gives |
| `EnergyDisplay.BuildingEnergyDisplay.CleanDuplicateColorCacheEntries` | fixed/BuildingEnergyDisplay_v2.cpp:6730-6789 | the colour cache is de-duplicated, first entry kept, and its keys are unique afterwards |
| `EnergyDisplay.BuildingEnergyDisplay.IngestBuildings` | fixed/BuildingEnergyDisplay_v2.cpp:997-1393 | the loop writes the four caches as `EnergyFeed.IngestAll` says |
| `EnergyDisplay.BuildingEnergyDisplay.ParseAndCacheAllBuildings` | fixed/BuildingEnergyDisplay_v2.cpp:961-1593 | the display and the statics are what `DisplaySteps.ParseStep` gives |
| `EnergyDisplay.BuildingEnergyDisplay.RefreshAccessToken` | fixed/BuildingEnergyDisplay_v2.cpp:2415-2453 | the state is what `DisplaySteps.RefreshStep` gives |
| `EnergyDisplay.BuildingEnergyDisplay.OnPreloadResponseReceived` | fixed/BuildingEnergyDisplay_v2.cpp:863-959 | the display and the statics are what `DisplaySteps.PreloadResponseStep` gives |
| `EnergyDisplay.BuildingEnergyDisplay.ClearCache` | fixed/BuildingEnergyDisplay_v2.cpp:2154-2165 | the state is what `DisplaySteps.ClearStep` gives |
| `EnergyDisplay.BuildingEnergyDisplay.AuthenticateAndLoadData` | fixed/BuildingEnergyDisplay_v2.cpp:2200-2297 | the display and the statics are what `DisplaySteps.AuthStep` gives |
| `EnergyDisplay.BuildingEnergyDisplay.RefreshBuildingCache` | fixed/BuildingEnergyDisplay_v2.cpp:2168-2198 | the display and the statics are what `DisplaySteps.RefreshCacheStep` gives |
| `EnergyDisplay.BuildingEnergyDisplay.OnAuthResponseReceived` | fixed/BuildingEnergyDisplay_v2.cpp:2299-2412 | the display and the statics are what `DisplaySteps.AuthResponseStep` gives |
| `EnergyDisplay.BuildingEnergyDisplay.OnRefreshTokenResponseReceived` | fixed/BuildingEnergyDisplay_v2.cpp:2456-2515 | the state is what `DisplaySteps.RefreshResponseStep` gives |
| `EnergyDisplay.BuildingEnergyDisplay.OnEnergyUpdateResponse` | fixed/BuildingEnergyDisplay_v2.cpp:2551-2675 | the state is what `DisplaySteps.EnergyUpdateResponseStep` gives |
| `EnergyDisplay.BuildingEnergyDisplay.DetectChanges` | fixed/BuildingEnergyDisplay_v2.cpp:5542-5575 | the first loop returns the detection of `EnergyFeed.Detect` against the data snapshot |
| `EnergyDisplay.BuildingEnergyDisplay.ApplyDetectedChanges` | fixed/BuildingEnergyDisplay_v2.cpp:5578-5598 | the second loop writes the changed ids into the four caches as `DisplaySteps.ApplyDetection` says |
| `EnergyDisplay.BuildingEnergyDisplay.DetectAndApplyChanges` | fixed/BuildingEnergyDisplay_v2.cpp:5517-5616 | the state is what `DisplaySteps.DetectStep` gives |
| `EnergyDisplay.BuildingEnergyDisplay.OnRealTimeDataResponse` | fixed/BuildingEnergyDisplay_v2.cpp:5490-5515 | the state is what `DisplaySteps.RealTimeResponseStep` gives |
| `EnergyDisplay.BuildingEnergyDisplay.FetchRealTimeEnergyData` | fixed/BuildingEnergyDisplay_v2.cpp:5786-5836 | the state is what `DisplaySteps.RealTimeFetchStep` gives |
| `EnergyDisplay.BuildingEnergyDisplay.ForceRealTimeRefresh` | fixed/BuildingEnergyDisplay_v2.cpp:5926-5943 | the state is what `DisplaySteps.ForceRefreshStep` gives |
| `EnergyDisplay.BuildingEnergyDisplay.HideBuildingInfoWidget` | fixed/BuildingEnergyDisplay_v2.cpp:5769-5784 | the state is what `DisplaySteps.HideStep` gives |
| `EnergyDisplay.BuildingEnergyDisplay.ShowBuildingInfoWidget` | fixed/BuildingEnergyDisplay_v2.cpp:5701-5767 | the state is what `DisplaySteps.ShowStep` gives; the first actor to show becomes the primary instance |
| `EnergyDisplay.BuildingEnergyDisplay.DisplayBuildingData` | fixed/BuildingEnergyDisplay_v2.cpp:1845-1965 | the state is what `DisplaySteps.DisplayStep` gives; the primary instance is latched only when something is shown |
| `EnergyDisplay.BuildingEnergyDisplay.OnRealTimeEnergyDataResponse` | fixed/BuildingEnergyDisplay_v2.cpp:5838-5924 | the display and the statics are what `DisplaySteps.RealTimeEnergyResponseStep` gives |
| `EnergyDisplay.BuildingEnergyDisplay.ShowBuildingAttributesForm` | fixed/BuildingEnergyDisplay_v2.cpp:4827-5005 | the display and the statics are what `DisplaySteps.FormStep` gives |
| `EnergyDisplay.BuildingEnergyDisplay.ResolveClickTarget` | fixed/BuildingEnergyDisplay_v2.cpp:5198-5291 | the three-tier ladder returns what `EnergyFeed.ClickTarget` gives |
| `EnergyDisplay.BuildingEnergyDisplay.OnBuildingClicked` | fixed/BuildingEnergyDisplay_v2.cpp:5031-5332 | the display and the statics are what `DisplaySteps.ClickStep` gives |
| `EnergyDisplay.BuildingEnergyDisplay.OnBuildingClickedWithPosition` | fixed/BuildingEnergyDisplay_v2.cpp:5336-5377 | the display and the statics are what `DisplaySteps.ClickWithPositionStep` gives |
| `EnergyDisplay.BuildingEnergyDisplay.GetBuildingAttributes` | fixed/BuildingEnergyDisplay_v2.cpp:4311-4383 | the state is what `DisplaySteps.AttributesRequestStep` gives |
| `EnergyDisplay.BuildingEnergyDisplay.UpdateBuildingAttributes` | fixed/BuildingEnergyDisplay_v2.cpp:4385-4439 | the state is what `DisplaySteps.AttributesUpdateStep` gives |
| `EnergyDisplay.BuildingEnergyDisplay.OnGetBuildingAttributesResponse` | fixed/BuildingEnergyDisplay_v2.cpp:4441-4554 | the state is what `DisplaySteps.AttributesResponseStep` gives |
| `EnergyDisplay.BuildingEnergyDisplay.OnUpdateBuildingAttributesResponse` | fixed/BuildingEnergyDisplay_v2.cpp:4556-4609 | the state is what `DisplaySteps.UpdateAttributesResponseStep` gives |
| `AttributesForm.ExtractFieldValue` | Source/Final_project/BuildingAttributesWidget.cpp:723-741 | the string `display` if present, else the string `value`, else the empty string |
| `AttributesForm.FirstOption` | Source/Final_project/BuildingAttributesWidget.cpp:769-786 | `SetSelectedOption` picks the first option equal to the value, ignoring case |
| `AttributesForm.FirstOptionAppend` | Source/Final_project/BuildingAttributesWidget.cpp:765-786 | adding an option keeps an earlier match and makes a matching new option selectable |
| `AttributesForm.LabelsSnoc` | Source/Final_project/BuildingAttributesWidget.cpp:754-789 | each choice adds its label, or the plain string, at the end |
| `AttributesForm.FeedOptions` | Source/Final_project/BuildingAttributesWidget.cpp:752-789 | the options are the old ones followed by the labels of the choices in order |
| `AttributesForm.FeedSelection` | Source/Final_project/BuildingAttributesWidget.cpp:768-786 | the selection ends as the option for the last choice whose label or code equals the current value; without one it is unchanged |
| `AttributesForm.PopulateComboOutcome` | Source/Final_project/BuildingAttributesWidget.cpp:744-793 | the combo is filled exactly when a `choices` array exists; then its options are the labels, and it selects the last matching choice or nothing |
| `AttributesForm.FindAddChoices` | Source/Final_project/BuildingAttributesWidget.cpp:675-702 | a label maps to the code of its last `[code, label]` entry, else to what it mapped to before |
| `AttributesForm.AddChoicesUnique` | Source/Final_project/BuildingAttributesWidget.cpp:688-699 | the label map keeps unique keys |
| `AttributesForm.SectionChoicesLast` | Source/Final_project/BuildingAttributesWidget.cpp:661-699 | a field named `construction_year_class` or `roof_storey`, or containing `heating_system`, empties its map and refills it, so the last such field decides the map |
| `AttributesForm.GeneralRoute` | Source/Final_project/BuildingAttributesWidget.cpp:826-892 | in `general_info`, a name containing `roof` goes to the roof combo before the year and storey checks; then the year combo; then the storey text box |
| `AttributesForm.ProjectNameWords` | Source/Final_project/BuildingAttributesWidget.cpp:927-1024 | each alternative of the code's name tests is implied by containing the one word `heating`, `window` or `wall` |
| `AttributesForm.ProjectRoute` | Source/Final_project/BuildingAttributesWidget.cpp:927-1024 | in a project section, heating wins over window, wall, roof (without `storey`) and ceiling, and every field stays in its own phase |
| `AttributesForm.RouteFieldsSnoc` | Source/Final_project/BuildingAttributesWidget.cpp:799-1161 | routing one more field updates the form as that field's rule says |
| `AttributesForm.ClampFormInterval` | Source/Final_project/BuildingAttributesWidget.cpp:1208-1226 | the form interval is clamped into [1, 30], and values inside are kept |
| `AttributesProperties.FindPutIfShown` | Source/Final_project/BuildingAttributesWidget.cpp:452-501 | a key is written only when what its widget shows is non-empty |
| `AttributesProperties.PayloadContents` | Source/Final_project/BuildingAttributesWidget.cpp:452-501 | each of the five keys holds the choice-map code for the shown label, else the label, and only when the label is non-empty; no other key appears |
| `AttributesProperties.PayloadKeys` | Source/Final_project/BuildingAttributesWidget.cpp:452-501 | the payload holds only the five form keys, each once |
| `AttributesProperties.PayloadWithoutChoices` | Source/Final_project/BuildingAttributesWidget.h:143-145 | with the three maps empty, as they start, the payload sends the labels themselves |
| `AttributesProperties.GeneralInfoStorey` | Source/Final_project/BuildingAttributesWidget.cpp:826-892 | the storey text box ends with the value of the last storey or floor field, which never names a roof |
| `AttributesProperties.ProjectSectionsStayInPhase` | Source/Final_project/BuildingAttributesWidget.cpp:900-1161 | `begin` fields change only the before combos and `end` fields only the after combos |
| `AttributesProperties.GeneralInfoLeavesMeasures` | Source/Final_project/BuildingAttributesWidget.cpp:799-897 | `general_info` fields leave both phases alone |
| `AttributesProperties.SetBuildingDataOutcome` | Source/Final_project/BuildingAttributesWidget.cpp:52-140 | the key is the gml id, the community is `08417008`, and the load is requested only with a token |
| `AttributesProperties.SaveButtonOutcome` | Source/Final_project/BuildingAttributesWidget.cpp:200-226 | nothing is sent when the token or the key is empty; otherwise the payload of the form is sent |
| `AttributesProperties.GetResponseOutcome` | Source/Final_project/BuildingAttributesWidget.cpp:319-393 | only a 200 with a JSON object fills the form and the maps; nothing else changes |
| `AttributesProperties.InitialFormTickIdle` | Source/Final_project/BuildingAttributesWidget.h:133-150 | the interval starts at 2 s with the timer at 0, and sync starts off, so a tick does nothing |
| `AttributesProperties.FormTickChecksIff` | Source/Final_project/BuildingAttributesWidget.cpp:1177-1192 | a tick sends a check exactly when sync is on, no check is in flight, the key and token are set, the timer reaches the interval and the request goes out |
| `AttributesProperties.FormTickTimerBelowInterval` | Source/Final_project/BuildingAttributesWidget.cpp:1177-1192 | the timer stays within [0, interval) |
| `AttributesProperties.FormCheckSingleFlight` | Source/Final_project/BuildingAttributesWidget.cpp:1240-1283 | nothing happens while a check is in flight or without key or token; the flag stays set only when the request goes out |
| `AttributesProperties.FormIntervalClamped` | Source/Final_project/BuildingAttributesWidget.cpp:1208-1226 | the interval set lies in [1, 30], and clamping twice is clamping once |
| `AttributesProperties.PopulateKeepsSync` | Source/Final_project/BuildingAttributesWidget.cpp:511-1173 | filling the form leaves the sync state, the target and the requests alone |
| `AttributesProperties.DetectFormOutcome` | Source/Final_project/BuildingAttributesWidget.cpp:1312-1348 | the first response only stores the snapshot; an identical one changes nothing; a different one replaces the snapshot even when it does not parse |
| `AttributesProperties.FirstFormCheckRecords` | Source/Final_project/BuildingAttributesWidget.h:150 | after construction the snapshot is empty, so the first check only records |
| `AttributesProperties.FormResponseClearsFlag` | Source/Final_project/BuildingAttributesWidget.cpp:1285-1310 | the response always clears the in-flight flag; a failed, non-200 or empty reply changes nothing else |
| `AttributesProperties.StopThenTickIdle` | Source/Final_project/BuildingAttributesWidget.cpp:1228-1238 | disabling sync stops it, and a tick then does nothing |
| `AttributesWidget.PopulateComboBoxFromChoices` | Source/Final_project/BuildingAttributesWidget.cpp:744-793 | the loop fills the combo as `AttributesForm.PopulateCombo` says |
| `AttributesWidget.RouteFieldsInto` | Source/Final_project/BuildingAttributesWidget.cpp:799-1161 | the loop routes the fields of a section in order |
| `AttributesWidget.RootChoicesInto` | Source/Final_project/BuildingAttributesWidget.cpp:629-719 | the loop over the sections rebuilds the choice maps |
| `AttributesWidget.SectionChoicesInto` | Source/Final_project/BuildingAttributesWidget.cpp:655-712 | the loop over a section's fields rebuilds the choice maps |
| `AttributesWidget.FieldChoicesInto` | Source/Final_project/BuildingAttributesWidget.cpp:675-712 | the loop over a field's choices refills its map |
| `AttributesWidget.BuildingAttributesWidget.constructor` | Source/Final_project/BuildingAttributesWidget.h:133-150 | the widget starts with the header's initial values |
| `AttributesWidget.BuildingAttributesWidget.NativeConstruct` | Source/Final_project/BuildingAttributesWidget.cpp:10-50 | the state is what `AttributesForm.ConstructStep` gives |
| `AttributesWidget.BuildingAttributesWidget.SetBuildingData` | Source/Final_project/BuildingAttributesWidget.cpp:52-82 | the state is what `AttributesForm.SetBuildingDataStep` gives |
| `AttributesWidget.BuildingAttributesWidget.LoadBuildingAttributes` | Source/Final_project/BuildingAttributesWidget.cpp:84-140 | the state is what `AttributesForm.LoadStep` gives |
| `AttributesWidget.BuildingAttributesWidget.OnSaveButtonClicked` | Source/Final_project/BuildingAttributesWidget.cpp:200-226 | the state is what `AttributesForm.SaveButtonStep` gives |
| `AttributesWidget.BuildingAttributesWidget.SaveBuildingAttributesToAPI` | Source/Final_project/BuildingAttributesWidget.cpp:228-297 | the state is what `AttributesForm.SaveToApiStep` gives |
| `AttributesWidget.BuildingAttributesWidget.CreateAttributesJsonFromForm` | Source/Final_project/BuildingAttributesWidget.cpp:444-509 | the payload is `AttributesForm.Payload` of the form and the maps |
| `AttributesWidget.BuildingAttributesWidget.OnGetAttributesResponse` | Source/Final_project/BuildingAttributesWidget.cpp:319-393 | the state is what `AttributesForm.GetResponseStep` gives |
| `AttributesWidget.BuildingAttributesWidget.PopulateFormFromJson` | Source/Final_project/BuildingAttributesWidget.cpp:511-1173 | the state is what `AttributesForm.PopulateStep` gives |
| `AttributesWidget.BuildingAttributesWidget.ApplyFlatFields` | Source/Final_project/BuildingAttributesWidget.cpp:556-608 | only the form changes, as `AttributesForm.FlatFields` says |
| `AttributesWidget.BuildingAttributesWidget.RebuildChoiceMaps` | Source/Final_project/BuildingAttributesWidget.cpp:629-719 | only the maps change, as `AttributesForm.RootChoices` says |
| `AttributesWidget.BuildingAttributesWidget.RouteSectionFields` | Source/Final_project/BuildingAttributesWidget.cpp:799-1161 | only the form changes, as `AttributesForm.RouteSection` says |
| `AttributesWidget.BuildingAttributesWidget.NativeTick` | Source/Final_project/BuildingAttributesWidget.cpp:1177-1192 | the state is what `AttributesForm.FormTickStep` gives |
| `AttributesWidget.BuildingAttributesWidget.StartFormRealTimeSync` | Source/Final_project/BuildingAttributesWidget.cpp:1194-1199 | the state is what `AttributesForm.StartSyncStep` gives |
| `AttributesWidget.BuildingAttributesWidget.StopFormRealTimeSync` | Source/Final_project/BuildingAttributesWidget.cpp:1201-1206 | the state is what `AttributesForm.StopSyncStep` gives |
| `AttributesWidget.BuildingAttributesWidget.SetFormUpdateInterval` | Source/Final_project/BuildingAttributesWidget.cpp:1208-1226 | the state is what `AttributesForm.SetFormIntervalStep` gives |
| `AttributesWidget.BuildingAttributesWidget.EnableFormRealTime` | Source/Final_project/BuildingAttributesWidget.cpp:1228-1238 | the state is what `AttributesForm.EnableFormStep` gives |
| `AttributesWidget.BuildingAttributesWidget.PerformFormDataCheck` | Source/Final_project/BuildingAttributesWidget.cpp:1240-1283 | the state is what `AttributesForm.FormCheckStep` gives |
| `AttributesWidget.BuildingAttributesWidget.OnFormRealTimeDataResponse` | Source/Final_project/BuildingAttributesWidget.cpp:1285-1310 | the state is what `AttributesForm.FormResponseStep` gives |
| `AttributesWidget.BuildingAttributesWidget.DetectAndApplyFormChanges` | Source/Final_project/BuildingAttributesWidget.cpp:1312-1348 | the state is what `AttributesForm.DetectFormStep` gives |
| `AttributesWidget.BuildingAttributesWidget.UpdateFormFieldsAutomatically` | Source/Final_project/BuildingAttributesWidget.cpp:1350-1373 | the state is what `AttributesForm.UpdateFieldsStep` gives |
| `HoloLensSteps.TickOutcome` | Source/Final_project/HoloLensInputConverter.cpp:50-62 | a tick fires exactly when the armed hold reaches the threshold; firing records one tap-and-hold and disarms the press |
| `HoloLensSteps.DisarmedTicks` | Source/Final_project/HoloLensInputConverter.cpp:50-62 | once disarmed, no run of ticks changes anything |
| `HoloLensSteps.HoldFiresAtMostOnce` | Source/Final_project/HoloLensInputConverter.cpp:50-62 | over any run of ticks the state is unchanged or is the state after the first completing tick, so at most one gesture is added |
| `HoloLensSteps.NoCompletion` | Source/Final_project/HoloLensInputConverter.cpp:50-62 | ticks that all come before the threshold never complete the hold |
| `HoloLensSteps.QuickReleaseNeverFires` | Source/Final_project/HoloLensInputConverter.cpp:223-241 | a release clears the flag and the start time, so no hold fires after it; a release before the threshold never fires at all |
| `HoloLensSteps.PressAtTimeZeroNeverFires` | Source/Final_project/HoloLensInputConverter.cpp:203 | a right press at world time 0 or earlier is never armed, so its hold never fires |
| `HoloLensSteps.DisabledChangesNothing` | Source/Final_project/HoloLensInputConverter.cpp:105-106 | while disabled, the mouse handlers return false and change nothing, and touch simulation does nothing |
| `HoloLensSteps.EnableFlag` | Source/Final_project/HoloLensInputConverter.cpp:65-90 | disabling never clears the flag; enabling sets it exactly when Slate is initialised |
| `HoloLensSteps.TouchSet` | Source/Final_project/HoloLensInputConverter.cpp:263-278 | touch start adds the index and touch end removes it, so an air tap leaves index 0 inactive |
| `HoloLensSteps.FirstLeftClick` | Source/Final_project/HoloLensInputConverter.cpp:10-24 | after construction, a left click records one air tap and leaves no touch active |
| `HoloLensInput.HoloLensInputConverter.constructor` | Source/Final_project/HoloLensInputConverter.cpp:15-23 | conversion on, hold threshold 1 s, both buttons up, start time 0, no touches |
| `HoloLensInput.HoloLensInputConverter.BeginPlay` | Source/Final_project/HoloLensInputConverter.cpp:26-38 | the state is what `HoloLensSteps.BeginPlayStep` gives |
| `HoloLensInput.HoloLensInputConverter.EndPlay` | Source/Final_project/HoloLensInputConverter.cpp:40-44 | the state is what `HoloLensSteps.EndPlayStep` gives |
| `HoloLensInput.HoloLensInputConverter.TickComponent` | Source/Final_project/HoloLensInputConverter.cpp:46-63 | the state is what `HoloLensSteps.TickStep` gives |
| `HoloLensInput.HoloLensInputConverter.EnableHoloLensInputConversion` | Source/Final_project/HoloLensInputConverter.cpp:65-90 | the state is what `HoloLensSteps.EnableStep` gives |
| `HoloLensInput.HoloLensInputConverter.SimulateTouchFromMouse` | Source/Final_project/HoloLensInputConverter.cpp:103-119 | the state is what `HoloLensSteps.TouchFromMouseStep` gives |
| `HoloLensInput.HoloLensInputConverter.HandleAirTapGesture` | Source/Final_project/HoloLensInputConverter.cpp:121-159 | the state is what `HoloLensSteps.AirTapStep` gives |
| `HoloLensInput.HoloLensInputConverter.HandleTapAndHoldGesture` | Source/Final_project/HoloLensInputConverter.cpp:161-184 | the state is what `HoloLensSteps.TapAndHoldStep` gives |
| `HoloLensInput.HoloLensInputConverter.OnMouseButtonDown` | Source/Final_project/HoloLensInputConverter.cpp:186-209 | the result and the state are what `HoloLensSteps.MouseDownStep` gives |
| `HoloLensInput.HoloLensInputConverter.OnMouseButtonUp` | Source/Final_project/HoloLensInputConverter.cpp:211-245 | the result and the state are what `HoloLensSteps.MouseUpStep` gives |
| `HoloLensInput.HoloLensInputConverter.OnMouseMove` | Source/Final_project/HoloLensInputConverter.cpp:247-261 | the result and the state are what `HoloLensSteps.MouseMoveStep` gives |
| `HoloLensInput.HoloLensInputConverter.SimulateTouchStart` | Source/Final_project/HoloLensInputConverter.cpp:263-271 | the state is what `HoloLensSteps.TouchStartStep` gives |
| `HoloLensInput.HoloLensInputConverter.SimulateTouchEnd` | Source/Final_project/HoloLensInputConverter.cpp:273-278 | the state is what `HoloLensSteps.TouchEndStep` gives |
| `HoloLensInput.HoloLensInputConverter.SimulateTouchMove` | Source/Final_project/HoloLensInputConverter.cpp:280-286 | reports whether the index is active and changes nothing |

## Left out

- EnergyFeed.TruncateTowardZero: the `(int32)` cast of the numeric `id` behind the coordinate key (fixed/BuildingEnergyDisplay_v2.cpp:1342-1343) is modelled as truncation toward zero with no 32-bit range, so the wrap-around or undefined result for an id outside the `int32` range is not modelled.
- HTTP is not modelled: request building, URLs, headers, timeouts and `ProcessRequest`. A request is an effect, and a response is an abstract reply.
- WebSocket creation and its callbacks (fixed/BuildingEnergyDisplay_v2.cpp:6079-6283) are left out. The socket is a `valid` flag, and messages are not modelled.
- JSON parsing and serialisation are left out, including `ParseBuildingCoordinates`. Parsed bodies are datatypes, and the coordinate parser is a function parameter. Because the payload is serialised, the widget's empty-payload check does not appear.
- Float formatting and colour conversion are parameters: sRGB to linear, `ToFColor`, the `%.3f` tonnes text and the `%.2f` update text. The rounding in the style builder is modelled only as a clamp to 0..255 with a nearest-integer bound.
- Engine and rendering code is left out: materials, component probing, timers, widget creation, viewport placement, on-screen messages, `UE_LOG`, and the duplicate-actor census in `BeginPlay`.
- The per-id call-frequency statics (fixed/BuildingEnergyDisplay_v2.cpp:4743-4785, 4830-4872, 5034-5076) are left out. They only log.
- `NotifyRealTimeChanges` and `NotifyFormRealTimeChanges` are left out. They only log.
- `FetchBuildingEnergyData` and `OnResponseReceived` (fixed/BuildingEnergyDisplay_v2.cpp:1967-2152) are the legacy single-building path and are left out.
- The periodic cache-refresh timer and `bMaterialCreated` are left out.
- Time stored as `float` loses precision; the model uses exact `real` time.
- Test-colour injection and the diagnostic functions (`TestColorRetrieval`, `LogCacheStatistics` and the like) are dev-only and left out.
- `OnPutAttributesResponse` only shows messages, and is left out.
- The widget's title text, close button and dropdown styling are left out.
- `bFormRealTimeSyncEnabled` and `bIsPerformingFormUpdate` are declared but never read, and are left out.
- The combo boxes are assumed bound; the null checks on widget pointers are not modelled.
- The gaze line trace and actor search in `HandleAirTapGesture` and `HandleTapAndHoldGesture`, and the Slate input delegates, are engine input plumbing and are left out. The gesture handlers record the gesture.
- `IsHoloLens2Platform` is a parameter of `BeginPlay`, because it depends on the build platform.
- `GazeRayDistance` is used only by the trace, and is left out.
- Touch indices are unbounded integers rather than `int32`.
- The iteration order of a `TMap` is insertion order here. The code uses first hits in that order, and the lemmas that depend on it say so.
- EnergyDisplay.BuildingEnergyDisplay.OnRealTimeEnergyDataResponse: the primary-instance latch is stated only as "unchanged, or set to this actor when none was set", not as the exact condition under which it is set.

## Findings

| source | as written | input that shows it | evidently intended | confidence | as-written member | corrected member |
|---|---|---|---|---|---|---|
| fixed/BuildingEnergyDisplay_v2.cpp:6390-6394 | `CreateBuildingBoundingBox` returns the all-zero box as soon as the id is not itself a key, so its prefix search over `id#n` keys never runs, and `ValidateBuildingPosition` rejects every non-origin point of such a building | coordinates cache `[("A#1", unit square)]`, point (0.5, 0.5, 0), id `A` | use the points of every key that starts with the id, as the prefix search below the early return does | not executed | `Spatial.CreateBuildingBoundingBoxAsWritten`, `Spatial.ValidateBuildingPositionAsWritten`, `Spatial.BoundingBoxCounterexample` | `Spatial.BuildingBoundingBox`, `Spatial.CreateBuildingBoundingBox`, `Spatial.ValidateBuildingPosition`, `Spatial.ValidPositionAgreesOnKeys` |
