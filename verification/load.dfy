/** The structural decode of `load` (src/store.js), over the value the
    payload text parses to. Decoding can throw a TypeError part-way; the
    store does not roll back, so the steps applied before the throw remain. */
module StoreLoad {
  import opened Outcomes
  import opened JsValues
  import opened Store

  /** The outcome of a load: the state reached, and the exception that ended
      the load early, if any. */
  datatype Loaded = Loaded(state: State, thrown: Option<TypeError>)

  /** `parseFloatDef`: the number a value denotes, 0 when `parseFloat` gives
      NaN. `parseFloat` first converts its argument to text, which can
      throw (`TextThrows`). `textNumber` stands for `parseFloat` on the text
      of a string or array (None for NaN); a number parses to itself, and
      the texts of `undefined`, `null`, booleans and other objects never
      start with a number. */
  function ParseFloatDef(v: Value, textNumber: Value -> Option<real>): (r: Result<real, TypeError>)
    ensures r.Err? <==> TextThrows(v)
    ensures r.Err? ==> r.error == NoPrimitive
    ensures v.Num? ==> r == Ok(v.n)
    ensures v.Undefined? || v.Null? || v.Bool? || (v.Obj? && !TextThrows(v)) ==> r == Ok(0.0)
    ensures (v.Str? || (v.Arr? && !TextThrows(v))) ==> r == Ok(textNumber(v).GetOr(0.0))
  {
    if TextThrows(v) then Err(NoPrimitive)
    else
      match v
      case Num(n) => Ok(n)
      case Str(_) => Ok(textNumber(v).GetOr(0.0))
      case Arr(_) => Ok(textNumber(v).GetOr(0.0))
      case _ => Ok(0.0)
  }

  /** A number `parseFloatDef` produced parses back to itself, which is what
      a later save and load of the same field does. */
  lemma ParseFloatDefStable(v: Value, textNumber: Value -> Option<real>, other: Value -> Option<real>)
    requires ParseFloatDef(v, textNumber).Ok?
    ensures ParseFloatDef(Num(ParseFloatDef(v, textNumber).value), other) == ParseFloatDef(v, textNumber)
  {
  }

  /** `items.map(f)` with a callback that may throw: the first throw, in
      order, ends the map. */
  function MapThrowing<T>(items: seq<Value>, f: Value -> Result<T, TypeError>): (r: Result<seq<T>, TypeError>)
    ensures r.Ok? <==> forall i :: 0 <= i < |items| ==> f(items[i]).Ok?
    ensures r.Ok? ==> |r.value| == |items| && forall i :: 0 <= i < |items| ==> f(items[i]) == Ok(r.value[i])
    ensures r.Err? ==> exists i :: 0 <= i < |items| && f(items[i]) == Err(r.error)
                                   && forall j :: 0 <= j < i ==> f(items[j]).Ok?
  {
    if |items| == 0 then Ok([])
    else
      var first :- f(items[0]);
      var rest :- MapThrowing(items[1..], f);
      assert forall i :: 1 <= i < |items| ==> items[i] == items[1..][i - 1];
      Ok([first] + rest)
  }

  /** `v.map(f)`: reading `map` off null or undefined throws, and only
      arrays have a callable `map`. */
  function ArrayMap<T>(v: Value, f: Value -> Result<T, TypeError>): (r: Result<seq<T>, TypeError>)
    ensures (v.Null? || v.Undefined?) ==> r == Err(ReadOfNullish)
    ensures !(v.Null? || v.Undefined? || v.Arr?) ==> r == Err(NotAFunction)
    ensures v.Arr? ==> r == MapThrowing(v.items, f)
  {
    if v.Null? || v.Undefined? then Err(ReadOfNullish)
    else if v.Arr? then MapThrowing(v.items, f)
    else Err(NotAFunction)
  }

  /** One layer of a loaded board: `wood` is read and parsed, then `width`. */
  function DecodeLayer(v: Value, textNumber: Value -> Option<real>): (r: Result<Layer, TypeError>)
    ensures r.Err? <==> v.Null? || v.Undefined?
                        || TextThrows(Get(v, "wood").value) || TextThrows(Get(v, "width").value)
    ensures r.Err? ==> r.error == (if v.Null? || v.Undefined? then ReadOfNullish else NoPrimitive)
    ensures r.Ok? ==> r.value.wood == Some(ParseFloatDef(Get(v, "wood").value, textNumber).value)
    ensures r.Ok? ==> r.value.width == ParseFloatDef(Get(v, "width").value, textNumber).value
  {
    var woodValue :- Get(v, "wood");
    var wood :- ParseFloatDef(woodValue, textNumber);
    var width :- ParseFloatDef(Get(v, "width").value, textNumber);
    Ok(Layer(Some(wood), width))
  }

  /** Every layer names some wood: none is unassigned. */
  predicate AllAssigned(layers: seq<Layer>) {
    forall l :: 0 <= l < |layers| ==> layers[l].wood.Some?
  }

  /** One loaded board: a board without its own `layers` becomes an empty
      board; otherwise `layers` must be an array, decoded layer by layer. */
  function DecodeBoard(v: Value, textNumber: Value -> Option<real>): (r: Result<Board, TypeError>)
    ensures HasOwnProperty(v, "layers").Err? ==> r == Err(HasOwnProperty(v, "layers").error)
    ensures HasOwnProperty(v, "layers") == Ok(false) ==> r == Ok(Board([]))
    ensures HasOwnProperty(v, "layers") == Ok(true) && (v.props["layers"].Null? || v.props["layers"].Undefined?) ==>
              r == Err(ReadOfNullish)
    ensures HasOwnProperty(v, "layers") == Ok(true) && !v.props["layers"].Arr?
              && !v.props["layers"].Null? && !v.props["layers"].Undefined? ==>
              r == Err(NotAFunction)
    ensures r.Err? && HasOwnProperty(v, "layers") == Ok(true) && v.props["layers"].Arr? ==>
              var items := v.props["layers"].items;
              exists i :: 0 <= i < |items| && DecodeLayer(items[i], textNumber) == Err(r.error)
                          && forall j :: 0 <= j < i ==> DecodeLayer(items[j], textNumber).Ok?
    ensures r.Ok? ==> AllAssigned(r.value.layers)
    ensures r.Ok? && HasOwn(v, "layers") ==>
              var items := v.props["layers"].items;
              |r.value.layers| == |items| &&
              forall i :: 0 <= i < |items| ==> DecodeLayer(items[i], textNumber) == Ok(r.value.layers[i])
  {
    var owns :- HasOwnProperty(v, "layers");
    if !owns then Ok(Board([]))
    else
      var decode := (l: Value) => DecodeLayer(l, textNumber);
      assert forall l :: decode(l) == DecodeLayer(l, textNumber);
      var layers :- ArrayMap(v.props["layers"], decode);
      Ok(Board(layers))
  }

  /** One loaded palette entry: only `name` and `color` are kept, as
      whatever they hold (`undefined` when absent). */
  function DecodeWood(v: Value): (r: Result<Wood, TypeError>)
    ensures r.Err? <==> v.Null? || v.Undefined?
    ensures r.Err? ==> r.error == ReadOfNullish
    ensures r.Ok? ==> r.value.name == (if HasOwn(v, "name") then v.props["name"] else Undefined)
    ensures r.Ok? ==> r.value.color == (if HasOwn(v, "color") then v.props["color"] else Undefined)
  {
    var name :- Get(v, "name");
    var color := Get(v, "color").value;
    Ok(Wood(name, color))
  }

  /** An empty board list is replaced by one empty board. */
  function AtLeastOneBoard(boards: seq<Board>): (r: seq<Board>)
    ensures |r| >= 1
    ensures |boards| > 0 ==> r == boards
    ensures |boards| == 0 ==> r == [Board([])]
  {
    if |boards| == 0 then [Board([])] else boards
  }

  /** The first step of `load`: ask whether the payload owns `settings`
      and, when it does, merge them. Either call can throw, and neither
      changes the settings when it does. */
  function LoadedSettings(s: Settings, payload: Value): (r: Result<Settings, TypeError>)
    ensures r.Err? <==> HasOwnProperty(payload, "settings").Err?
                        || (HasOwn(payload, "settings") && HasOwn(payload.props["settings"], "hasOwnProperty"))
    ensures r.Err? ==> r.error == (if payload.Null? || payload.Undefined? then ReadOfNullish else NotAFunction)
    ensures r.Ok? && !HasOwn(payload, "settings") ==> r.value == s
    ensures r.Ok? && HasOwn(payload, "settings") ==>
              r.value == MergeSettings(OwnProps(payload.props["settings"]).value, s)
  {
    var owns :- HasOwnProperty(payload, "settings");
    if owns then
      var props :- OwnProps(payload.props["settings"]);
      Ok(MergeSettings(props, s))
    else Ok(s)
  }

  /** The decode of the payload's `boards`, when it has them. */
  function LoadedBoards(payload: Value, textNumber: Value -> Option<real>): Result<seq<Board>, TypeError>
    requires HasOwn(payload, "boards")
  {
    ArrayMap(payload.props["boards"], (b: Value) => DecodeBoard(b, textNumber))
  }

  /** The decode of the payload's `wood`, when it has them. */
  function LoadedWood(payload: Value): Result<seq<Wood>, TypeError>
    requires HasOwn(payload, "wood")
  {
    ArrayMap(payload.props["wood"], DecodeWood)
  }

  /** `load` on an already parsed payload: merges `settings`, replaces the
      boards with the decoded `boards` (never fewer than one) and the palette
      with the decoded `wood`, each only when the payload has that key. A
      throw leaves the steps before it applied and the rest skipped. No
      reference is validated. */
  function Load(s: State, payload: Value, textNumber: Value -> Option<real>): (r: Loaded)
    ensures LoadedSettings(s.settings, payload).Err? ==>
              r == Loaded(s, Some(LoadedSettings(s.settings, payload).error))
    ensures LoadedSettings(s.settings, payload).Ok? ==> r.state.settings == LoadedSettings(s.settings, payload).value
    ensures !HasOwn(payload, "boards") || LoadedSettings(s.settings, payload).Err? ==> r.state.boards == s.boards
    ensures LoadedSettings(s.settings, payload).Ok? && HasOwn(payload, "boards") && LoadedBoards(payload, textNumber).Err? ==>
              r == Loaded(s.(settings := r.state.settings), Some(LoadedBoards(payload, textNumber).error))
    ensures LoadedSettings(s.settings, payload).Ok? && HasOwn(payload, "boards") && LoadedBoards(payload, textNumber).Ok? ==>
              r.state.boards == AtLeastOneBoard(LoadedBoards(payload, textNumber).value)
    ensures HasOwn(payload, "boards") && r.thrown.None? ==>
              |r.state.boards| >= 1 && forall b :: 0 <= b < |r.state.boards| ==> AllAssigned(r.state.boards[b].layers)
    ensures r.thrown.Some? || !HasOwn(payload, "wood") ==> r.state.wood == s.wood
    ensures r.thrown.None? && HasOwn(payload, "wood") ==> Ok(r.state.wood) == LoadedWood(payload)
    ensures LoadedSettings(s.settings, payload).Ok? && !(HasOwn(payload, "boards") && LoadedBoards(payload, textNumber).Err?)
            && HasOwn(payload, "wood") && LoadedWood(payload).Err? ==>
              r.thrown == Some(LoadedWood(payload).error)
    ensures r.thrown.Some? <==>
              || LoadedSettings(s.settings, payload).Err?
              || (HasOwn(payload, "boards") && LoadedBoards(payload, textNumber).Err?)
              || (HasOwn(payload, "wood") && LoadedWood(payload).Err?)
  {
    var settings := LoadedSettings(s.settings, payload);
    if settings.Err? then Loaded(s, Some(settings.error))
    else
      var withSettings := s.(settings := settings.value);
      if HasOwn(payload, "boards") && LoadedBoards(payload, textNumber).Err? then
        Loaded(withSettings, Some(LoadedBoards(payload, textNumber).error))
      else
        var withBoards :=
          if HasOwn(payload, "boards") then
            withSettings.(boards := AtLeastOneBoard(LoadedBoards(payload, textNumber).value))
          else withSettings;
        if HasOwn(payload, "wood") && LoadedWood(payload).Err? then
          Loaded(withBoards, Some(LoadedWood(payload).error))
        else if HasOwn(payload, "wood") then
          Loaded(withBoards.(wood := LoadedWood(payload).value), None)
        else
          Loaded(withBoards, None)
  }

  /** A payload that owns `hasOwnProperty` throws on the very first call and
      leaves the state as it was, whatever else it carries. */
  lemma ShadowedPayloadChangesNothing(s: State, payload: Value, textNumber: Value -> Option<real>)
    requires HasOwn(payload, "hasOwnProperty")
    ensures Load(s, payload, textNumber) == Loaded(s, Some(NotAFunction))
  {
  }

  /** A layer whose `wood` is an object owning `toString` makes the whole
      load throw once settings are merged, and the boards stay as they were. */
  lemma ShadowedToStringThrows(s: State, textNumber: Value -> Option<real>)
    ensures var layer := Obj(map["wood" := Obj(map["toString" := Num(0.0)])]);
            var payload := Obj(map["boards" := Arr([Obj(map["layers" := Arr([layer])])])]);
            Load(s, payload, textNumber) == Loaded(s, Some(NoPrimitive))
  {
    var layer := Obj(map["wood" := Obj(map["toString" := Num(0.0)])]);
    var board := Obj(map["layers" := Arr([layer])]);
    assert DecodeLayer(layer, textNumber) == Err(NoPrimitive);
    assert DecodeBoard(board, textNumber) == Err(NoPrimitive);
  }

  // ---------------------------------------------------------------------
  // Loading a saved state

  /** A layer as a saved state parses back: an unassigned wood is `null`. */
  function LayerValue(layer: Layer): Value {
    Obj(map["wood" := (if layer.wood.Some? then Num(layer.wood.value) else Null),
            "width" := Num(layer.width)])
  }

  function BoardValue(board: Board): Value {
    Obj(map["layers" := Arr(seq(|board.layers|, i requires 0 <= i < |board.layers| => LayerValue(board.layers[i])))])
  }

  /** A palette entry as a saved state parses back: an `undefined` field is
      not written out at all. */
  function WoodValue(wood: Wood): Value {
    Obj((if wood.name.Undefined? then map[] else map["name" := wood.name])
        + (if wood.color.Undefined? then map[] else map["color" := wood.color]))
  }

  /** The value the text of a saved state parses back to. */
  function SavedValue(s: State): Value {
    Obj(map[
      "settings" := Obj(Fields(s.settings)),
      "wood" := Arr(seq(|s.wood|, i requires 0 <= i < |s.wood| => WoodValue(s.wood[i]))),
      "boards" := Arr(seq(|s.boards|, i requires 0 <= i < |s.boards| => BoardValue(s.boards[i])))])
  }

  /** A layer after a save and load: `parseFloatDef(null)` is 0, so an
      unassigned layer comes back naming the first species. */
  function ReloadedLayer(layer: Layer): Layer {
    layer.(wood := Some(layer.wood.GetOr(0.0)))
  }

  /** A state after a save and load. */
  function Reloaded(s: State): State {
    s.(boards := AtLeastOneBoard(MapLayers(s.boards, ReloadedLayer)))
  }

  /** A map whose callback succeeds on every item yields the callback's
      results. */
  lemma MapThrowingAllOk<T>(items: seq<Value>, f: Value -> Result<T, TypeError>, expected: seq<T>)
    requires |expected| == |items|
    requires forall i :: 0 <= i < |items| ==> f(items[i]) == Ok(expected[i])
    ensures MapThrowing(items, f) == Ok(expected)
  {
    var r := MapThrowing(items, f);
    assert r.Ok?;
    assert r.value == expected;
  }

  lemma DecodeSavedBoard(board: Board, textNumber: Value -> Option<real>)
    ensures var r := DecodeBoard(BoardValue(board), textNumber);
            r.Ok? && |r.value.layers| == |board.layers| &&
            forall k :: 0 <= k < |board.layers| ==> r.value.layers[k] == ReloadedLayer(board.layers[k])
  {
    var items := BoardValue(board).props["layers"].items;
    forall i | 0 <= i < |items|
      ensures DecodeLayer(items[i], textNumber) == Ok(ReloadedLayer(board.layers[i]))
    {
      assert items[i] == LayerValue(board.layers[i]);
    }
  }

  lemma DecodeSavedWood(wood: Wood)
    ensures DecodeWood(WoodValue(wood)) == Ok(wood)
  {
  }

  lemma LoadSavedSettings(current: Settings, s: State)
    ensures LoadedSettings(current, SavedValue(s)) == Ok(s.settings)
  {
    MergeSettingsWellTyped(Fields(s.settings), current);
    var merged := MergeSettings(Fields(s.settings), current);
    assert Fields(merged) == Fields(s.settings);
    FieldsInjective(merged, s.settings);
  }

  lemma LoadSavedBoards(s: State, textNumber: Value -> Option<real>)
    ensures HasOwn(SavedValue(s), "boards")
    ensures LoadedBoards(SavedValue(s), textNumber) == Ok(MapLayers(s.boards, ReloadedLayer))
  {
    var boardItems := SavedValue(s).props["boards"].items;
    var reloadedBoards := MapLayers(s.boards, ReloadedLayer);
    forall i | 0 <= i < |boardItems|
      ensures DecodeBoard(boardItems[i], textNumber) == Ok(reloadedBoards[i])
    {
      assert boardItems[i] == BoardValue(s.boards[i]);
      DecodeSavedBoard(s.boards[i], textNumber);
      var decoded := DecodeBoard(boardItems[i], textNumber).value;
      assert decoded.layers == reloadedBoards[i].layers;
    }
    MapThrowingAllOk(boardItems, (b: Value) => DecodeBoard(b, textNumber), reloadedBoards);
  }

  lemma LoadSavedWood(s: State)
    ensures HasOwn(SavedValue(s), "wood")
    ensures LoadedWood(SavedValue(s)) == Ok(s.wood)
  {
    var woodItems := SavedValue(s).props["wood"].items;
    forall i | 0 <= i < |woodItems|
      ensures DecodeWood(woodItems[i]) == Ok(s.wood[i])
    {
      assert woodItems[i] == WoodValue(s.wood[i]);
      DecodeSavedWood(s.wood[i]);
    }
    MapThrowingAllOk(woodItems, DecodeWood, s.wood);
  }

  /** Loading a saved state, from any current state, yields the saved state
      with unassigned layers naming the first species and at least one
      board; nothing is thrown. */
  lemma SaveLoadRoundTrip(current: State, s: State, textNumber: Value -> Option<real>)
    ensures Load(current, SavedValue(s), textNumber) == Loaded(Reloaded(s), None)
  {
    LoadSavedSettings(current.settings, s);
    LoadSavedBoards(s, textNumber);
    LoadSavedWood(s);
  }

  /** A saved state with at least one board and no unassigned layer loads
      back exactly. */
  lemma SaveLoadExact(current: State, s: State, textNumber: Value -> Option<real>)
    requires |s.boards| >= 1
    requires forall b :: 0 <= b < |s.boards| ==> AllAssigned(s.boards[b].layers)
    ensures Load(current, SavedValue(s), textNumber) == Loaded(s, None)
  {
    SaveLoadRoundTrip(current, s, textNumber);
    var boards := MapLayers(s.boards, ReloadedLayer);
    forall b | 0 <= b < |s.boards|
      ensures boards[b] == s.boards[b]
    {
      assert boards[b].layers == s.boards[b].layers;
    }
    assert boards == s.boards;
  }

  /** A layer unassigned by `removeWood` comes back from a save and load
      assigned to the first species. */
  lemma SaveLoadAssignsFirstWood(current: State, s: State, textNumber: Value -> Option<real>, b: int, l: int)
    requires 0 <= b < |s.boards| && 0 <= l < |s.boards[b].layers|
    requires s.boards[b].layers[l].wood.None?
    ensures var loaded := Load(current, SavedValue(s), textNumber).state;
            b < |loaded.boards| && l < |loaded.boards[b].layers| &&
            loaded.boards[b].layers[l].wood == Some(0.0)
  {
    SaveLoadRoundTrip(current, s, textNumber);
    var boards := MapLayers(s.boards, ReloadedLayer);
    assert Reloaded(s).boards == boards;
    assert boards[b].layers[l] == ReloadedLayer(s.boards[b].layers[l]);
  }

  /** `load` does not validate references: a layer naming a species past
      the end of the palette is loaded as it is. */
  lemma LoadKeepsDanglingReference(textNumber: Value -> Option<real>)
    ensures var layer := Obj(map["wood" := Num(99.0), "width" := Num(1.0)]);
            var payload := Obj(map["boards" := Arr([Obj(map["layers" := Arr([layer])])])]);
            var r := Load(Initial, payload, textNumber);
            r.thrown.None? && !WoodRefsValid(r.state)
  {
    var layer := Obj(map["wood" := Num(99.0), "width" := Num(1.0)]);
    var board := Obj(map["layers" := Arr([layer])]);
    var payload := Obj(map["boards" := Arr([board])]);
    assert DecodeLayer(layer, textNumber) == Ok(Layer(Some(99.0), 1.0));
    MapThrowingAllOk([layer], (l: Value) => DecodeLayer(l, textNumber), [Layer(Some(99.0), 1.0)]);
    assert DecodeBoard(board, textNumber) == Ok(Board([Layer(Some(99.0), 1.0)]));
    MapThrowingAllOk([board], (b: Value) => DecodeBoard(b, textNumber), [Board([Layer(Some(99.0), 1.0)])]);
    var r := Load(Initial, payload, textNumber);
    assert r.state.boards == [Board([Layer(Some(99.0), 1.0)])];
    assert !ValidWoodRef(r.state.boards[0].layers[0].wood, |r.state.wood|);
  }
}
