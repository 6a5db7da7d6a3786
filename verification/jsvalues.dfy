/** The JavaScript values the store reads: what `JSON.parse` produces, plus
    `undefined`, which is what reading an absent property yields. Only the
    behaviour the store relies on is modelled: own properties of plain
    objects, property reads that throw on `null`/`undefined`, and the
    decimal text of a positive integer. */
module JsValues {
  import opened Outcomes

  datatype Value =
    | Undefined
    | Null
    | Bool(b: bool)
    | Num(n: real)
    | Str(s: string)
    | Arr(items: seq<Value>)
    | Obj(props: map<string, Value>)

  /** The TypeErrors the store can raise while decoding a payload. */
  datatype TypeError =
    | ReadOfNullish   // `x.key` or `x.f()` with `x` null or undefined
    | NotAFunction    // `x.f()` where `x.f` is not callable
    | NoPrimitive     // an object that has no usable `toString` or `valueOf` converted to text

  /** `v` owns the property `key`. Only plain objects own properties here:
      the index keys and `length` of arrays and strings are left out, since
      none of the keys the store looks up is one of them. */
  predicate HasOwn(v: Value, key: string) {
    v.Obj? && key in v.props
  }

  /** The method call `v.hasOwnProperty(key)`. It throws when `v` is null or
      undefined, and when `v` is an object whose own `hasOwnProperty`
      property (which `JSON.parse` can create) hides the inherited method:
      no parsed value is callable. */
  function HasOwnProperty(v: Value, key: string): (r: Result<bool, TypeError>)
    ensures r.Err? <==> v.Null? || v.Undefined? || HasOwn(v, "hasOwnProperty")
    ensures r.Err? ==> r.error == (if v.Obj? then NotAFunction else ReadOfNullish)
    ensures r.Ok? ==> (r.value <==> key in OwnKeys(v))
  {
    if v.Null? || v.Undefined? then Err(ReadOfNullish)
    else if HasOwn(v, "hasOwnProperty") then Err(NotAFunction)
    else Ok(HasOwn(v, key))
  }

  /** The keys of the own properties of `v`. */
  function OwnKeys(v: Value): set<string> {
    if v.Obj? then v.props.Keys else {}
  }

  /** The properties `for (const p in v) if (v.hasOwnProperty(p)) ...`
      visits. A loop over null or undefined runs zero times. An object that
      owns `hasOwnProperty` has at least that property, so the first call
      throws before any property is used. */
  function OwnProps(v: Value): (r: Result<map<string, Value>, TypeError>)
    ensures r.Err? <==> exists key :: key in OwnKeys(v) && HasOwnProperty(v, key).Err?
    ensures r.Err? ==> r.error == NotAFunction
    ensures r.Ok? ==> r.value.Keys == OwnKeys(v)
    ensures r.Ok? ==> forall key :: key in r.value ==> HasOwnProperty(v, key) == Ok(true) && r.value[key] == v.props[key]
  {
    if !v.Obj? then Ok(map[])
    else if "hasOwnProperty" in v.props then
      assert HasOwnProperty(v, "hasOwnProperty").Err?;
      Err(NotAFunction)
    else Ok(v.props)
  }

  /** Converting `v` to text (as `parseFloat` does first) throws. An object
      is converted through its `toString`, then its `valueOf`: an own
      `toString` property hides the inherited method and the inherited
      `valueOf` returns the object itself, so the conversion fails. An
      array is converted by joining the texts of its elements, so it fails
      when one of them does. */
  predicate TextThrows(v: Value) {
    match v
    case Obj(props) => "toString" in props
    case Arr(items) => exists i :: 0 <= i < |items| && TextThrows(items[i])
    case _ => false
  }

  /** The property read `v.key`: throws on null and undefined, yields
      undefined for a key the value does not carry. */
  function Get(v: Value, key: string): (r: Result<Value, TypeError>)
    ensures r.Err? <==> v.Null? || v.Undefined?
    ensures r.Err? ==> r.error == ReadOfNullish
    ensures HasOwn(v, key) ==> r == Ok(v.props[key])
    ensures r.Ok? && !HasOwn(v, key) ==> r.value == Undefined
  {
    if v.Null? || v.Undefined? then Err(ReadOfNullish)
    else if HasOwn(v, key) then Ok(v.props[key])
    else Ok(Undefined)
  }

  predicate IsDigit(c: char) {
    '0' <= c <= '9'
  }

  function DigitChar(d: nat): (c: char)
    requires d < 10
    ensures IsDigit(c)
    ensures DigitOf(c) == d
  {
    ('0' as int + d) as char
  }

  function DigitOf(c: char): nat
    requires IsDigit(c)
  {
    c as int - '0' as int
  }

  /** `'' + n` for a natural number `n`: its decimal digits without leading
      zeros. */
  function DecimalText(n: nat): (r: string)
    ensures |r| >= 1
    ensures forall i :: 0 <= i < |r| ==> IsDigit(r[i])
    ensures r[0] == '0' ==> n == 0
  {
    if n < 10 then [DigitChar(n)]
    else DecimalText(n / 10) + [DigitChar(n % 10)]
  }

  /** The number a string of decimal digits denotes. */
  function DigitsValue(s: string): nat
    requires forall i :: 0 <= i < |s| ==> IsDigit(s[i])
  {
    if |s| == 0 then 0
    else DigitsValue(s[..|s| - 1]) * 10 + DigitOf(s[|s| - 1])
  }

  /** Reading the decimal text back gives the number. */
  lemma {:induction false} DecimalTextRoundTrip(n: nat)
    ensures DigitsValue(DecimalText(n)) == n
  {
    if n >= 10 {
      var prefix := DecimalText(n / 10);
      var text := DecimalText(n);
      assert text[..|text| - 1] == prefix;
      DecimalTextRoundTrip(n / 10);
    }
  }

  /** Distinct numbers have distinct decimal texts. */
  lemma DecimalTextInjective(m: nat, n: nat)
    requires DecimalText(m) == DecimalText(n)
    ensures m == n
  {
    DecimalTextRoundTrip(m);
    DecimalTextRoundTrip(n);
  }
}
