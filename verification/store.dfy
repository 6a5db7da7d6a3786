/** The designer's document and its mutations (src/store.js). Every
    mutation is a total function from the old state to the new one; a
    mutation whose index arguments are out of range returns the state
    unchanged. */
module Store {
  import opened Outcomes
  import opened Enums
  import opened Units
  import opened JsValues
  import opened Seqs

  /** The settings object. Board length and thickness live here: boards
      carry only their layers. */
  datatype Settings = Settings(
    units: string,
    borders: bool,
    boardThickness: real,
    boardLength: real,
    bladeKerf: real,
    crosscutWidth: real,
    alternateDirection: bool)

  /** A palette entry. A palette loaded from a payload keeps whatever values
      its `name` and `color` properties held, `undefined` included. */
  datatype Wood = Wood(name: Value, color: Value)

  /** A lamination layer. `wood` indexes the palette; `None` is the `null`
      left behind when the referenced species was removed. A loaded layer may
      hold any number, so the index is a real. */
  datatype Layer = Layer(wood: Option<real>, width: real)

  datatype Board = Board(layers: seq<Layer>)

  datatype State = State(settings: Settings, wood: seq<Wood>, boards: seq<Board>)

  const NewWoodColor: string := "#f2e0aa"
  const NewLayerMillimeters: real := 20.0
  /** Fractional digits kept when linear fields are rescaled to new units. */
  const RescaleDecimals: nat := 3

  /** The state the store starts with. */
  const Initial: State := State(
    Settings(Cm, false, 2.0, 70.0, 0.35, 3.0, true),
    [ Wood(Str("Walnut"), Str("#58443f")),
      Wood(Str("Maple"), Str("#f2e0aa")),
      Wood(Str("Cherry"), Str("#bb8359")),
      Wood(Str("Mahogany"), Str("#98473f")),
      Wood(Str("Yellowheart"), Str("#ffff84")),
      Wood(Str("White oak"), Str("#fdf4b9")),
      Wood(Str("Bubinga"), Str("#7e3c34")),
      Wood(Str("Jatoba"), Str("#9b281c")),
      Wood(Str("Padouk"), Str("#933350")) ],
    [ Board([ Layer(Some(8.0), 1.0), Layer(Some(1.0), 1.5),
              Layer(Some(8.0), 2.0), Layer(Some(1.0), 2.0),
              Layer(Some(8.0), 15.0), Layer(Some(1.0), 2.0),
              Layer(Some(8.0), 1.5), Layer(Some(1.0), 1.0) ]) ])

  // ---------------------------------------------------------------------
  // Consistency of wood references

  /** A wood reference is unassigned or a whole-number index into a palette
      of `count` entries. */
  predicate ValidWoodRef(wood: Option<real>, count: nat) {
    wood.None? || (0.0 <= wood.value < count as real && wood.value.Floor as real == wood.value)
  }

  predicate WoodRefsValid(s: State) {
    forall b, l :: 0 <= b < |s.boards| && 0 <= l < |s.boards[b].layers| ==>
      ValidWoodRef(s.boards[b].layers[l].wood, |s.wood|)
  }

  /** The store's starting state has one board and only valid wood
      references, in valid units. */
  lemma InitialConsistent()
    ensures WoodRefsValid(Initial)
    ensures |Initial.boards| == 1
    ensures UnitsIsValid(Initial.settings.units)
  {
  }

  /** Applies `f` to every layer of every board, keeping the structure. */
  function MapLayers(boards: seq<Board>, f: Layer -> Layer): (r: seq<Board>)
    ensures |r| == |boards|
    ensures forall b :: 0 <= b < |r| ==> |r[b].layers| == |boards[b].layers|
    ensures forall b, l :: 0 <= b < |r| && 0 <= l < |r[b].layers| ==>
              r[b].layers[l] == f(boards[b].layers[l])
  {
    seq(|boards|, b requires 0 <= b < |boards| =>
      Board(seq(|boards[b].layers|, l requires 0 <= l < |boards[b].layers| => f(boards[b].layers[l]))))
  }

  // ---------------------------------------------------------------------
  // mergeObject and settings

  /** `mergeObject(source, target)`: every key the target already has takes
      the source's value when the source has it too; no key is added. */
  function MergeObject<V>(source: map<string, V>, target: map<string, V>): (r: map<string, V>)
    ensures r.Keys == target.Keys
    ensures forall k :: k in target && k in source ==> r[k] == source[k]
    ensures forall k :: k in target && k !in source ==> r[k] == target[k]
  {
    map k | k in target :: if k in source then source[k] else target[k]
  }

  /** Merging the same payload twice is merging it once. */
  lemma MergeObjectIdempotent<V>(source: map<string, V>, target: map<string, V>)
    ensures MergeObject(source, MergeObject(source, target)) == MergeObject(source, target)
  {
  }

  /** A payload sharing no key with the target changes nothing. */
  lemma MergeObjectForeignKeys<V>(source: map<string, V>, target: map<string, V>)
    requires source.Keys !! target.Keys
    ensures MergeObject(source, target) == target
  {
  }

  /** The keys of the settings object. */
  const SettingsKeys: set<string> := {"units", "borders", "boardThickness", "boardLength",
                                      "bladeKerf", "crosscutWidth", "alternateDirection"}

  /** The settings object as the property map `mergeObject` sees. */
  function Fields(s: Settings): (r: map<string, Value>)
    ensures r.Keys == SettingsKeys
  {
    map[ "units" := Str(s.units),
         "borders" := Bool(s.borders),
         "boardThickness" := Num(s.boardThickness),
         "boardLength" := Num(s.boardLength),
         "bladeKerf" := Num(s.bladeKerf),
         "crosscutWidth" := Num(s.crosscutWidth),
         "alternateDirection" := Bool(s.alternateDirection) ]
  }

  /** Each field of the property map holds the record's field. */
  lemma FieldsAt(s: Settings)
    ensures Fields(s)["units"] == Str(s.units)
    ensures Fields(s)["borders"] == Bool(s.borders)
    ensures Fields(s)["boardThickness"] == Num(s.boardThickness)
    ensures Fields(s)["boardLength"] == Num(s.boardLength)
    ensures Fields(s)["bladeKerf"] == Num(s.bladeKerf)
    ensures Fields(s)["crosscutWidth"] == Num(s.crosscutWidth)
    ensures Fields(s)["alternateDirection"] == Bool(s.alternateDirection)
  {
  }

  /** Settings are determined by their property map. */
  lemma FieldsInjective(a: Settings, b: Settings)
    requires Fields(a) == Fields(b)
    ensures a == b
  {
    assert Fields(a)["units"] == Fields(b)["units"];
    assert Fields(a)["borders"] == Fields(b)["borders"];
    assert Fields(a)["boardThickness"] == Fields(b)["boardThickness"];
    assert Fields(a)["boardLength"] == Fields(b)["boardLength"];
    assert Fields(a)["bladeKerf"] == Fields(b)["bladeKerf"];
    assert Fields(a)["crosscutWidth"] == Fields(b)["crosscutWidth"];
    assert Fields(a)["alternateDirection"] == Fields(b)["alternateDirection"];
  }

  /** Two values of the same JavaScript type. */
  predicate SameKind(a: Value, b: Value) {
    match (a, b)
    case (Undefined, Undefined) => true
    case (Null, Null) => true
    case (Bool(_), Bool(_)) => true
    case (Num(_), Num(_)) => true
    case (Str(_), Str(_)) => true
    case (Arr(_), Arr(_)) => true
    case (Obj(_), Obj(_)) => true
    case _ => false
  }

  /** The part of a payload the typed settings record can hold: the keys the
      settings carry, with a value of the field's type. */
  function Accepted(payload: map<string, Value>, s: Settings): map<string, Value> {
    map k | k in payload && k in Fields(s) && SameKind(payload[k], Fields(s)[k]) :: payload[k]
  }

  function PickStr(payload: map<string, Value>, key: string, current: string): string {
    if key in payload && payload[key].Str? then payload[key].s else current
  }

  function PickBool(payload: map<string, Value>, key: string, current: bool): bool {
    if key in payload && payload[key].Bool? then payload[key].b else current
  }

  function PickNum(payload: map<string, Value>, key: string, current: real): real {
    if key in payload && payload[key].Num? then payload[key].n else current
  }

  /** `mergeObject(payload, state.settings)` on the typed settings record:
      it is `mergeObject` on the settings' property map, restricted to the
      payload values of each field's type. */
  function MergeSettings(payload: map<string, Value>, s: Settings): (r: Settings)
    ensures Fields(r) == MergeObject(Accepted(payload, s), Fields(s))
  {
    var r := Settings(
      PickStr(payload, "units", s.units),
      PickBool(payload, "borders", s.borders),
      PickNum(payload, "boardThickness", s.boardThickness),
      PickNum(payload, "boardLength", s.boardLength),
      PickNum(payload, "bladeKerf", s.bladeKerf),
      PickNum(payload, "crosscutWidth", s.crosscutWidth),
      PickBool(payload, "alternateDirection", s.alternateDirection));
    PicksAreMerge(payload, s, r);
    r
  }

  /** Field-by-field picking agrees with `mergeObject` on the property map. */
  lemma PicksAreMerge(payload: map<string, Value>, s: Settings, r: Settings)
    requires r == Settings(
      PickStr(payload, "units", s.units),
      PickBool(payload, "borders", s.borders),
      PickNum(payload, "boardThickness", s.boardThickness),
      PickNum(payload, "boardLength", s.boardLength),
      PickNum(payload, "bladeKerf", s.bladeKerf),
      PickNum(payload, "crosscutWidth", s.crosscutWidth),
      PickBool(payload, "alternateDirection", s.alternateDirection))
    ensures Fields(r) == MergeObject(Accepted(payload, s), Fields(s))
  {
    var fields := Fields(r);
    var merged := MergeObject(Accepted(payload, s), Fields(s));
    FieldsAt(r);
    FieldsAt(s);
    MergedAt(payload, s, "units");
    PickedStr(payload, "units", s.units);
    assert fields["units"] == merged["units"];
    MergedAt(payload, s, "borders");
    PickedBool(payload, "borders", s.borders);
    assert fields["borders"] == merged["borders"];
    MergedAt(payload, s, "boardThickness");
    PickedNum(payload, "boardThickness", s.boardThickness);
    assert fields["boardThickness"] == merged["boardThickness"];
    MergedAt(payload, s, "boardLength");
    PickedNum(payload, "boardLength", s.boardLength);
    assert fields["boardLength"] == merged["boardLength"];
    MergedAt(payload, s, "bladeKerf");
    PickedNum(payload, "bladeKerf", s.bladeKerf);
    assert fields["bladeKerf"] == merged["bladeKerf"];
    MergedAt(payload, s, "crosscutWidth");
    PickedNum(payload, "crosscutWidth", s.crosscutWidth);
    assert fields["crosscutWidth"] == merged["crosscutWidth"];
    MergedAt(payload, s, "alternateDirection");
    PickedBool(payload, "alternateDirection", s.alternateDirection);
    assert fields["alternateDirection"] == merged["alternateDirection"];
    AgreeOnSettingsKeys(fields, merged);
  }

  /** Two property maps over the settings keys that agree key by key are
      equal. */
  lemma AgreeOnSettingsKeys(a: map<string, Value>, b: map<string, Value>)
    requires a.Keys == SettingsKeys && b.Keys == SettingsKeys
    requires a["units"] == b["units"] && a["borders"] == b["borders"]
    requires a["boardThickness"] == b["boardThickness"] && a["boardLength"] == b["boardLength"]
    requires a["bladeKerf"] == b["bladeKerf"] && a["crosscutWidth"] == b["crosscutWidth"]
    requires a["alternateDirection"] == b["alternateDirection"]
    ensures a == b
  {
    forall k | k in a
      ensures a[k] == b[k]
    {
      assert k in SettingsKeys;
    }
  }

  /** Picking a field agrees with copying a payload value of its type. */
  lemma PickedStr(payload: map<string, Value>, key: string, current: string)
    ensures Str(PickStr(payload, key, current)) ==
              if key in payload && SameKind(payload[key], Str(current)) then payload[key] else Str(current)
  {
  }

  lemma PickedBool(payload: map<string, Value>, key: string, current: bool)
    ensures Bool(PickBool(payload, key, current)) ==
              if key in payload && SameKind(payload[key], Bool(current)) then payload[key] else Bool(current)
  {
  }

  lemma PickedNum(payload: map<string, Value>, key: string, current: real)
    ensures Num(PickNum(payload, key, current)) ==
              if key in payload && SameKind(payload[key], Num(current)) then payload[key] else Num(current)
  {
  }

  /** One entry of the merged property map. */
  lemma MergedAt(payload: map<string, Value>, s: Settings, k: string)
    requires k in Fields(s)
    ensures k in MergeObject(Accepted(payload, s), Fields(s))
    ensures MergeObject(Accepted(payload, s), Fields(s))[k] ==
              if k in payload && SameKind(payload[k], Fields(s)[k]) then payload[k] else Fields(s)[k]
  {
  }

  /** A payload whose shared keys all carry values of the right type is
      merged exactly as `mergeObject` would merge it. */
  lemma MergeSettingsWellTyped(payload: map<string, Value>, s: Settings)
    requires forall k :: k in payload && k in Fields(s) ==> SameKind(payload[k], Fields(s)[k])
    ensures Fields(MergeSettings(payload, s)) == MergeObject(payload, Fields(s))
  {
    assert Accepted(payload, s) == map k | k in payload && k in Fields(s) :: payload[k];
  }

  /** A linear value carried from `fromUnits` to `toUnits`, with the three
      decimals `updateSettings` keeps. */
  function Rescale(value: real, fromUnits: string, toUnits: string): real {
    LimitDecimals(Convert(value, fromUnits, toUnits), RescaleDecimals)
  }

  /** The work of `updateSettings` once the payload's own properties are
      known: merges them into the settings; when that changes `units`,
      every linear field (the four in the settings and every layer width)
      is rescaled from the old units to the new ones. Palette, layer count
      and wood references are untouched. */
  function MergeAndRescale(s: State, payload: map<string, Value>): (r: State)
    ensures r.wood == s.wood
    ensures r.settings.units == MergeSettings(payload, s.settings).units
    ensures r.settings.units == s.settings.units ==>
              r == s.(settings := MergeSettings(payload, s.settings))
    ensures r.settings.units != s.settings.units ==>
              var merged := MergeSettings(payload, s.settings);
              var from := s.settings.units;
              var to := merged.units;
              r.settings == merged.(boardThickness := Rescale(merged.boardThickness, from, to),
                                    boardLength := Rescale(merged.boardLength, from, to),
                                    bladeKerf := Rescale(merged.bladeKerf, from, to),
                                    crosscutWidth := Rescale(merged.crosscutWidth, from, to))
    ensures |r.boards| == |s.boards|
    ensures forall b :: 0 <= b < |r.boards| ==> |r.boards[b].layers| == |s.boards[b].layers|
    ensures forall b, l :: 0 <= b < |r.boards| && 0 <= l < |r.boards[b].layers| ==>
              r.boards[b].layers[l].wood == s.boards[b].layers[l].wood
    ensures forall b, l :: 0 <= b < |r.boards| && 0 <= l < |r.boards[b].layers| ==>
              r.boards[b].layers[l].width ==
                (if r.settings.units == s.settings.units then s.boards[b].layers[l].width
                 else Rescale(s.boards[b].layers[l].width, s.settings.units, r.settings.units))
  {
    var from := s.settings.units;
    var merged := MergeSettings(payload, s.settings);
    if from == merged.units then
      s.(settings := merged)
    else
      var to := merged.units;
      State(
        merged.(boardThickness := Rescale(merged.boardThickness, from, to),
                boardLength := Rescale(merged.boardLength, from, to),
                bladeKerf := Rescale(merged.bladeKerf, from, to),
                crosscutWidth := Rescale(merged.crosscutWidth, from, to)),
        s.wood,
        MapLayers(s.boards, (layer: Layer) => layer.(width := Rescale(layer.width, from, to))))
  }

  /** `updateSettings(state, payload)`: `mergeObject` enumerates the
      payload's own properties, calling `payload.hasOwnProperty` on each,
      then the merge and rescale follow. A payload that owns
      `hasOwnProperty` throws on that first call, before any assignment,
      so the store is left as it was and the exception reaches the caller. */
  function UpdateSettings(s: State, payload: Value): (r: Result<State, TypeError>)
    ensures r.Err? <==> HasOwn(payload, "hasOwnProperty")
    ensures r.Err? ==> r.error == NotAFunction
    ensures r.Ok? ==> r.value == MergeAndRescale(s, OwnProps(payload).value)
  {
    var props :- OwnProps(payload);
    Ok(MergeAndRescale(s, props))
  }

  /** A payload owning `hasOwnProperty` changes nothing, however it would
      otherwise change the units. */
  lemma ShadowedSettingsPayloadThrows(s: State)
    ensures UpdateSettings(s, Obj(map["hasOwnProperty" := Num(1.0), "units" := Str(Mm)])) == Err(NotAFunction)
  {
    assert HasOwn(Obj(map["hasOwnProperty" := Num(1.0), "units" := Str(Mm)]), "hasOwnProperty");
  }

  /** A change to or from an unknown unit turns every linear field to 0,
      since conversion through an unknown unit yields 0. */
  lemma UpdateSettingsUnknownUnitsZeroes(s: State, payload: map<string, Value>)
    requires MergeSettings(payload, s.settings).units != s.settings.units
    requires !UnitsIsValid(s.settings.units) || !UnitsIsValid(MergeSettings(payload, s.settings).units)
    ensures var r := MergeAndRescale(s, payload);
            && r.settings.boardThickness == 0.0
            && r.settings.boardLength == 0.0
            && r.settings.bladeKerf == 0.0
            && r.settings.crosscutWidth == 0.0
            && forall b, l :: 0 <= b < |r.boards| && 0 <= l < |r.boards[b].layers| ==>
                 r.boards[b].layers[l].width == 0.0
  {
    ZeroOnGrid(RescaleDecimals);
  }

  /** Every linear field of the state has at most three fractional digits. */
  ghost predicate LinearOnGrid(s: State) {
    && OnGrid(s.settings.boardThickness, RescaleDecimals)
    && OnGrid(s.settings.boardLength, RescaleDecimals)
    && OnGrid(s.settings.bladeKerf, RescaleDecimals)
    && OnGrid(s.settings.crosscutWidth, RescaleDecimals)
    && forall b, l :: 0 <= b < |s.boards| && 0 <= l < |s.boards[b].layers| ==>
         OnGrid(s.boards[b].layers[l].width, RescaleDecimals)
  }

  /** Switching a centimetre document to millimetres and back restores it
      when its values have at most three fractional digits. */
  lemma CentimeterMillimeterSwitchRestores(s: State)
    requires s.settings.units == Cm
    requires LinearOnGrid(s)
    ensures var toMm := UpdateSettings(s, Obj(map["units" := Str(Mm)]));
            toMm.Ok? && UpdateSettings(toMm.value, Obj(map["units" := Str(Cm)])) == Ok(s)
  {
    assert OwnProps(Obj(map["units" := Str(Mm)])) == Ok(map["units" := Str(Mm)]);
    assert OwnProps(Obj(map["units" := Str(Cm)])) == Ok(map["units" := Str(Cm)]);
    CentimeterMillimeterRescaleRestores(s);
  }

  /** The same round trip on the merged property maps. */
  lemma CentimeterMillimeterRescaleRestores(s: State)
    requires s.settings.units == Cm
    requires LinearOnGrid(s)
    ensures MergeAndRescale(MergeAndRescale(s, map["units" := Str(Mm)]), map["units" := Str(Cm)]) == s
  {
    var toMm := MergeAndRescale(s, map["units" := Str(Mm)]);
    var back := MergeAndRescale(toMm, map["units" := Str(Cm)]);
    CentimeterMillimeterRoundTrip(s.settings.boardThickness, RescaleDecimals);
    CentimeterMillimeterRoundTrip(s.settings.boardLength, RescaleDecimals);
    CentimeterMillimeterRoundTrip(s.settings.bladeKerf, RescaleDecimals);
    CentimeterMillimeterRoundTrip(s.settings.crosscutWidth, RescaleDecimals);
    assert back.settings == s.settings;
    forall b | 0 <= b < |s.boards|
      ensures back.boards[b] == s.boards[b]
    {
      forall l | 0 <= l < |s.boards[b].layers|
        ensures back.boards[b].layers[l] == s.boards[b].layers[l]
      {
        CentimeterMillimeterRoundTrip(s.boards[b].layers[l].width, RescaleDecimals);
      }
      assert back.boards[b].layers == s.boards[b].layers;
    }
    assert back.boards == s.boards;
  }

  // ---------------------------------------------------------------------
  // Layers

  /** The layer `addLayer` appends: the first species, 20 mm wide in the
      current units. */
  function NewLayer(units: string): Layer {
    Layer(Some(0.0), FromMillimeters(NewLayerMillimeters, units))
  }

  /** Only the board at `index` may differ between `s` and `r`, and the
      settings and palette are equal. */
  predicate OnlyBoardChanged(s: State, r: State, index: int) {
    && r.settings == s.settings
    && r.wood == s.wood
    && |r.boards| == |s.boards|
    && forall b :: 0 <= b < |s.boards| && b != index ==> r.boards[b] == s.boards[b]
  }

  /** `addLayer`: appends a new layer to the board at `board`; an
      out-of-range board leaves the state unchanged. */
  function AddLayer(s: State, board: int): (r: State)
    ensures !(0 <= board < |s.boards|) ==> r == s
    ensures 0 <= board < |s.boards| ==>
              && OnlyBoardChanged(s, r, board)
              && |r.boards[board].layers| == |s.boards[board].layers| + 1
              && r.boards[board].layers[..|s.boards[board].layers|] == s.boards[board].layers
              && r.boards[board].layers[|s.boards[board].layers|] == NewLayer(s.settings.units)
  {
    if board < 0 || board >= |s.boards| then s
    else
      var layers := s.boards[board].layers + [NewLayer(s.settings.units)];
      s.(boards := s.boards[board := Board(layers)])
  }

  /** The new layer measures 20 mm in valid units and 0 in unknown ones. */
  lemma NewLayerIs20Millimeters(units: string)
    ensures UnitsIsValid(units) ==> ToMillimeters(NewLayer(units).width, units) == 20.0
    ensures !UnitsIsValid(units) ==> NewLayer(units).width == 0.0
  {
    if UnitsIsValid(units) {
      MillimetersRoundTrip(NewLayerMillimeters, units);
    }
  }

  /** `removeLayer`: drops exactly the layer at `layer` of the board at
      `board`; an out-of-range board or layer leaves the state unchanged. */
  function RemoveLayer(s: State, board: int, layer: int): (r: State)
    ensures !(0 <= board < |s.boards| && 0 <= layer < |s.boards[board].layers|) ==> r == s
    ensures 0 <= board < |s.boards| && 0 <= layer < |s.boards[board].layers| ==>
              && OnlyBoardChanged(s, r, board)
              && r.boards[board].layers == RemoveAt(s.boards[board].layers, layer)
  {
    if board < 0 || board >= |s.boards| then s
    else if layer < 0 || layer >= |s.boards[board].layers| then s
    else s.(boards := s.boards[board := Board(RemoveAt(s.boards[board].layers, layer))])
  }

  /** Removing the layer just added restores the state. */
  lemma RemoveLayerUndoesAddLayer(s: State, board: int)
    requires 0 <= board < |s.boards|
    ensures RemoveLayer(AddLayer(s, board), board, |s.boards[board].layers|) == s
  {
    var layers := s.boards[board].layers;
    var added := AddLayer(s, board);
    assert RemoveAt(added.boards[board].layers, |layers|) == layers;
    assert added.boards[board := Board(layers)] == s.boards;
  }

  /** The index guards of `moveLayer`: an existing board, an existing source
      layer and a target slot from 0 to one past the last layer. */
  predicate MoveInRange(s: State, board: int, from: int, to: int) {
    0 <= board < |s.boards| && 0 <= from < |s.boards[board].layers| && 0 <= to <= |s.boards[board].layers|
  }

  /** `moveLayer`: moves the layer at `from` to the slot before `to` (`to`
      may be one past the end); an out-of-range board, `from` or `to` leaves
      the state unchanged. */
  function MoveLayer(s: State, board: int, from: int, to: int): (r: State)
    ensures !MoveInRange(s, board, from, to) ==> r == s
    ensures MoveInRange(s, board, from, to) ==>
              && OnlyBoardChanged(s, r, board)
              && r.boards[board].layers == MoveItem(s.boards[board].layers, from, to)
  {
    if board < 0 || board >= |s.boards| then s
    else if from < 0 || from >= |s.boards[board].layers| then s
    else if to < 0 || to > |s.boards[board].layers| then s
    else s.(boards := s.boards[board := Board(MoveItem(s.boards[board].layers, from, to))])
  }

  /** Moving the layer back from where it landed restores the state. */
  lemma MoveLayerUndo(s: State, board: int, from: int, to: int)
    requires MoveInRange(s, board, from, to)
    ensures var d := Destination(from, to);
            var back := if from > d then from + 1 else from;
            MoveLayer(MoveLayer(s, board, from, to), board, d, back) == s
  {
    var layers := s.boards[board].layers;
    var moved := MoveLayer(s, board, from, to);
    MoveItemUndo(layers, from, to);
    assert moved.boards[board := Board(layers)] == s.boards;
  }

  // ---------------------------------------------------------------------
  // Wood palette

  /** The palette entry `addWood` appends when the palette has `count`
      entries: named after its one-based position. */
  function NewWood(count: nat): Wood {
    Wood(Str("Wood #" + DecimalText(count + 1)), Str(NewWoodColor))
  }

  /** `addWood`: appends exactly one entry and changes nothing else. */
  function AddWood(s: State): (r: State)
    ensures |r.wood| == |s.wood| + 1
    ensures r.wood[..|s.wood|] == s.wood
    ensures r.wood[|s.wood|] == NewWood(|s.wood|)
    ensures r.settings == s.settings && r.boards == s.boards
  {
    s.(wood := s.wood + [NewWood(|s.wood|)])
  }

  /** Entries added to palettes of different sizes have different names. */
  lemma NewWoodNamesDistinct(m: nat, n: nat)
    requires m != n
    ensures NewWood(m).name != NewWood(n).name
  {
    if NewWood(m).name == NewWood(n).name {
      var prefix := "Wood #";
      assert NewWood(m).name.s[|prefix|..] == DecimalText(m + 1);
      assert NewWood(n).name.s[|prefix|..] == DecimalText(n + 1);
      DecimalTextInjective(m + 1, n + 1);
    }
  }

  /** The reference update `removeWood` applies to one layer: the removed
      index becomes `null`, a greater one moves down by one, everything else
      (a smaller index, `null`) is kept. */
  function RenumberWood(wood: Option<real>, index: int): (r: Option<real>)
    ensures wood == Some(index as real) ==> r == None
    ensures wood.Some? && wood.value > index as real ==> r == Some(wood.value - 1.0)
    ensures wood.Some? && wood.value < index as real ==> r == wood
    ensures wood.None? ==> r.None?
  {
    match wood
    case None => None
    case Some(w) =>
      if w == index as real then None
      else if w > index as real then Some(w - 1.0)
      else wood
  }

  /** `removeWood`: drops the palette entry at `index` and renumbers every
      layer's reference; an out-of-range index leaves the state unchanged. */
  function RemoveWood(s: State, index: int): (r: State)
    ensures !(0 <= index < |s.wood|) ==> r == s
    ensures 0 <= index < |s.wood| ==>
              && r.settings == s.settings
              && r.wood == RemoveAt(s.wood, index)
              && |r.boards| == |s.boards|
              && (forall b :: 0 <= b < |r.boards| ==> |r.boards[b].layers| == |s.boards[b].layers|)
              && (forall b, l :: 0 <= b < |r.boards| && 0 <= l < |r.boards[b].layers| ==>
                    r.boards[b].layers[l] == s.boards[b].layers[l].(wood := RenumberWood(s.boards[b].layers[l].wood, index)))
  {
    if index < 0 || index >= |s.wood| then s
    else
      State(
        s.settings,
        RemoveAt(s.wood, index),
        MapLayers(s.boards, (layer: Layer) => layer.(wood := RenumberWood(layer.wood, index))))
  }

  /** Removing a species keeps every reference valid. That a surviving
      reference still names the same entry is `RenumberKeepsSpecies`. */
  lemma RemoveWoodKeepsReferences(s: State, index: int)
    requires WoodRefsValid(s)
    requires 0 <= index < |s.wood|
    ensures WoodRefsValid(RemoveWood(s, index))
  {
    var r := RemoveWood(s, index);
    forall b, l | 0 <= b < |r.boards| && 0 <= l < |r.boards[b].layers|
      ensures ValidWoodRef(r.boards[b].layers[l].wood, |r.wood|)
    {
      assert ValidWoodRef(s.boards[b].layers[l].wood, |s.wood|);
      RenumberKeepsSpecies(s.wood, s.boards[b].layers[l].wood, index);
    }
  }

  /** Renumbering one valid reference yields a valid reference into the
      shortened palette, and one that survives names the same entry. */
  lemma RenumberKeepsSpecies(palette: seq<Wood>, wood: Option<real>, index: int)
    requires ValidWoodRef(wood, |palette|)
    requires 0 <= index < |palette|
    ensures ValidWoodRef(RenumberWood(wood, index), |palette| - 1)
    ensures wood.Some? && wood != Some(index as real) ==>
              && RenumberWood(wood, index).Some?
              && RemoveAt(palette, index)[RenumberWood(wood, index).value.Floor] == palette[wood.value.Floor]
  {
    if wood.Some? && wood != Some(index as real) {
      var w := wood.value.Floor;
      if w > index {
        assert RenumberWood(wood, index).value.Floor == w - 1;
      } else {
        assert RenumberWood(wood, index).value.Floor == w;
      }
    }
  }

  /** A layer left unassigned stays unassigned through any later removal. */
  lemma RemoveWoodKeepsNull(s: State, index: int, b: int, l: int)
    requires 0 <= b < |s.boards| && 0 <= l < |s.boards[b].layers|
    requires s.boards[b].layers[l].wood.None?
    ensures RemoveWood(s, index).boards[b].layers[l].wood.None?
  {
  }

  /** With valid references, removing the entry just added restores the
      state. */
  lemma RemoveWoodUndoesAddWood(s: State)
    requires WoodRefsValid(s)
    ensures RemoveWood(AddWood(s), |s.wood|) == s
  {
    var added := AddWood(s);
    var removed := RemoveWood(added, |s.wood|);
    assert removed.wood == s.wood;
    forall b | 0 <= b < |s.boards|
      ensures removed.boards[b] == s.boards[b]
    {
      assert removed.boards[b].layers == s.boards[b].layers;
    }
  }

  // ---------------------------------------------------------------------
  // Preservation of the reference invariant

  /** Adding a layer keeps references valid exactly when the palette has a
      first species for the new layer to name. */
  lemma AddLayerKeepsReferences(s: State, board: int)
    requires WoodRefsValid(s)
    requires 0 <= board < |s.boards|
    ensures WoodRefsValid(AddLayer(s, board)) <==> |s.wood| > 0
  {
    var r := AddLayer(s, board);
    var n := |s.boards[board].layers|;
    assert r.boards[board].layers[n] == NewLayer(s.settings.units);
    if |s.wood| > 0 {
      forall b, l | 0 <= b < |r.boards| && 0 <= l < |r.boards[b].layers|
        ensures ValidWoodRef(r.boards[b].layers[l].wood, |r.wood|)
      {
        if b == board && l < n {
          assert r.boards[b].layers[l] == s.boards[b].layers[l];
        }
      }
    }
  }

  lemma RemoveLayerKeepsReferences(s: State, board: int, layer: int)
    requires WoodRefsValid(s)
    ensures WoodRefsValid(RemoveLayer(s, board, layer))
  {
  }

  lemma MoveLayerKeepsReferences(s: State, board: int, from: int, to: int)
    requires WoodRefsValid(s)
    ensures WoodRefsValid(MoveLayer(s, board, from, to))
  {
    var r := MoveLayer(s, board, from, to);
    if MoveInRange(s, board, from, to) {
      var before := s.boards[board].layers;
      var after := r.boards[board].layers;
      forall l | 0 <= l < |after|
        ensures ValidWoodRef(after[l].wood, |r.wood|)
      {
        assert after[l] in multiset(after);
        assert after[l] in multiset(before);
        var k :| 0 <= k < |before| && before[k] == after[l];
      }
    }
  }

  lemma AddWoodKeepsReferences(s: State)
    requires WoodRefsValid(s)
    ensures WoodRefsValid(AddWood(s))
  {
  }

  lemma UpdateSettingsKeepsReferences(s: State, payload: Value)
    requires WoodRefsValid(s)
    ensures UpdateSettings(s, payload).Ok? ==> WoodRefsValid(UpdateSettings(s, payload).value)
  {
  }
}
