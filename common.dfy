/** Values shared by all screens: options, the JSON values a screen sees after
    `JSON.parse`, navigation parameters as `useLocalSearchParams` delivers them,
    navigation requests, picker results, and decimal text. */
module Common {

  datatype Option<+T> = None | Some(value: T)

  /** A JSON value stored under one key of a parsed object. Strings, booleans and
      `null` are told apart; a number, array or nested object is `Other`. */
  datatype Js = Str(s: string) | Bool(b: bool) | Null | Other

  /** The own properties of a JavaScript object; a key that is absent reads as `undefined`. */
  type Obj = map<string, Js>

  /** The top-level value `JSON.parse` returns: `null`, a falsy primitive
      (`false`, `0` or `""`), or a truthy value whose own properties are `props`
      (no properties for a truthy primitive such as `5` or `"x"`). */
  datatype Top = NullValue | FalsyPrimitive | Value(props: Obj)

  /** `JSON.parse` either throws a `SyntaxError` or returns a value. */
  datatype ParseResult = SyntaxError | Parsed(top: Top)

  /** A navigation parameter: a string, a repeated query value (`string[]`), or
      a `null` placed in the parameters by the sending screen. */
  datatype Param = PStr(s: string) | PList(items: seq<string>) | PNull

  type Params = map<string, Param>

  /** `router.push` or `router.replace` to `pathname` carrying `params`. */
  datatype NavKind = Push | Replace
  datatype Nav = Nav(kind: NavKind, pathname: string, params: Params)

  /** What an image or document picker resolves to, as a plain input. */
  datatype Asset = Asset(uri: string, name: string)
  datatype PickResult = PermissionDenied | Canceled | Picked(assets: seq<Asset>) | PickerError

  /** A device location, as the text each screen renders its two coordinates with. */
  datatype Coordinates = Coordinates(latitude: string, longitude: string)

  /** What a location request resolved to: the permission was refused, reading the
      position failed (the error is caught and reported), or the position. */
  datatype LocationResult = LocationDenied | LocationFailed | Located(coords: Coordinates)

  /** The stored location after a request: only a position read replaces it. */
  function AfterLocation(current: Option<Coordinates>, r: LocationResult): (l: Option<Coordinates>)
    ensures r.Located? ==> l == Some(r.coords)
    ensures !r.Located? ==> l == current
  {
    if r.Located? then Some(r.coords) else current
  }

  /** The asset an image picker stores when it checks `!canceled && assets.length > 0`;
      any other outcome keeps `current`. */
  function FirstAssetOr(current: Option<Asset>, r: PickResult): (a: Option<Asset>)
    ensures r.Picked? && |r.assets| > 0 ==> a == Some(r.assets[0])
    ensures !(r.Picked? && |r.assets| > 0) ==> a == current
  {
    if r.Picked? && |r.assets| > 0 then Some(r.assets[0]) else current
  }

  /** The entry of `params` under `key`, `None` when the key is absent (`undefined`). */
  function Lookup(params: Params, key: string): Option<Param>
  {
    if key in params then Some(params[key]) else None
  }

  /** JavaScript truthiness of a received parameter: an empty string, `null` and
      `undefined` are falsy, every array is truthy. */
  predicate ParamTruthy(p: Option<Param>)
  {
    match p
    case None => false
    case Some(PStr(s)) => s != ""
    case Some(PList(_)) => true
    case Some(PNull) => false
  }

  /** `p === 'true'` */
  predicate IsTrueString(p: Option<Param>)
  {
    p == Some(PStr("true"))
  }

  /** The property `key` of an object, `None` for `undefined`. */
  function Get(props: Obj, key: string): Option<Js>
  {
    if key in props then Some(props[key]) else None
  }

  /** Reading `value.key` from a parsed value; reading from `null` throws, so it is excluded. */
  function Prop(t: Top, key: string): Option<Js>
    requires !t.NullValue?
  {
    match t
    case FalsyPrimitive => None
    case Value(props) => Get(props, key)
  }

  /** `xs.join(sep)` */
  function Join(xs: seq<string>, sep: string): (r: string)
    ensures xs == [] ==> r == ""
    ensures |xs| == 1 ==> r == xs[0]
    ensures |xs| >= 2 ==> r == xs[0] + sep + Join(xs[1..], sep)
  {
    if xs == [] then "" else if |xs| == 1 then xs[0] else xs[0] + sep + Join(xs[1..], sep)
  }

  /** `String(p)`, as `p as string` becomes when it is handed to `JSON.parse`. */
  function ParamString(p: Param): string
  {
    match p
    case PStr(s) => s
    case PList(items) => Join(items, ",")
    case PNull => "null"
  }

  predicate IsDigit(c: char)
  {
    '0' <= c <= '9'
  }

  predicate AllDigits(s: string)
  {
    forall i :: 0 <= i < |s| ==> IsDigit(s[i])
  }

  function DigitValue(c: char): nat
    requires IsDigit(c)
  {
    c as int - '0' as int
  }

  function DigitChar(n: nat): (c: char)
    requires n < 10
    ensures IsDigit(c) && DigitValue(c) == n
  {
    ('0' as int + n) as char
  }

  function Pow10(n: nat): (p: nat)
    ensures p >= 1
  {
    if n == 0 then 1 else 10 * Pow10(n - 1)
  }

  /** `parseInt(s)` for a string of decimal digits (leading zeros allowed). */
  function DecimalValue(s: string): nat
    requires AllDigits(s)
  {
    if s == [] then 0 else DecimalValue(s[..|s| - 1]) * 10 + DigitValue(s[|s| - 1])
  }

  /** `n.toString()` for a non-negative integer. */
  function DecimalString(n: nat): (r: string)
    ensures |r| >= 1 && AllDigits(r)
    ensures r[0] == '0' ==> n == 0
  {
    if n < 10 then [DigitChar(n)] else DecimalString(n / 10) + [DigitChar(n % 10)]
  }

  /** `parseInt(n.toString()) === n` */
  lemma {:induction false} DecimalRoundTrip(n: nat)
    ensures DecimalValue(DecimalString(n)) == n
  {
    if n >= 10 {
      var s := DecimalString(n);
      assert s[..|s| - 1] == DecimalString(n / 10);
      DecimalRoundTrip(n / 10);
    }
  }

  /** `n` written with exactly `width` digits, zero-padded on the left. */
  function Pad(n: nat, width: nat): (r: string)
    ensures |r| == width && AllDigits(r)
  {
    if width == 0 then "" else Pad(n / 10, width - 1) + [DigitChar(n % 10)]
  }

  lemma {:induction false} PadValue(n: nat, width: nat)
    requires n < Pow10(width)
    ensures DecimalValue(Pad(n, width)) == n
  {
    if width > 0 {
      var s := Pad(n, width);
      assert s[..|s| - 1] == Pad(n / 10, width - 1);
      assert n / 10 < Pow10(width - 1);
      PadValue(n / 10, width - 1);
    }
  }

  /** A digit string is the zero-padded rendering of its own value. */
  lemma {:induction false} PadOfValue(s: string)
    requires AllDigits(s)
    ensures Pad(DecimalValue(s), |s|) == s
  {
    if s != [] {
      var init := s[..|s| - 1];
      var v := DecimalValue(init);
      var c := DigitValue(s[|s| - 1]);
      assert (v * 10 + c) / 10 == v && (v * 10 + c) % 10 == c;
      PadOfValue(init);
      assert s == init + [s[|s| - 1]];
    }
  }
}
