/** The values the join engine and the two message assemblers share: the
    dynamic values of a deserialised scene record, the Java runtime
    exceptions the assemblers raise or catch, and the external conversions
    (coordinates, quaternions, timestamps) they call, which are passed in
    as function values because their code is not part of this model. */
module Values {

  datatype Option<+T> = None | Some(value: T)

  /** The Java runtime exceptions the modelled code can raise. */
  datatype Exception = NullPointer | ClassCast | IndexOutOfBounds | NumberFormat

  datatype Result<+T> = Ok(value: T) | Err(error: Exception)

  /** A value as Jackson deserialises it into a `Map<String, Object>`. */
  datatype Value =
    | Null
    | Bool(b: bool)
    | Int(i: int)        // an integral JSON number
    | Dbl(d: real)       // a JSON number with a fraction (a Java Double)
    | Str(s: string)
    | List(items: seq<Value>)
    | Obj(fields: map<string, Value>)

  /** A scene record after deserialisation: key to value. */
  type Fact = map<string, Value>

  /** `Map.get`: an absent key reads as null. */
  function Get(m: map<string, Value>, key: string): Value {
    if key in m then m[key] else Null
  }

  predicate IsInt32(n: int) {
    -0x8000_0000 <= n < 0x8000_0000
  }

  /** The cast `(String) v`: null passes, anything but a string fails. */
  function CastString(v: Value): (r: Result<Option<string>>)
    ensures r.Ok? <==> v.Null? || v.Str?
    ensures r.Ok? ==> (r.value.Some? <==> v.Str?)
    ensures r.Ok? && r.value.Some? ==> r.value.value == v.s
  {
    match v
    case Null => Ok(None)
    case Str(s) => Ok(Some(s))
    case _ => Err(ClassCast)
  }

  /** The cast `(Integer) v` of a non-null value. Jackson produces an Integer
      only for an integral number within 32 bits (a Long or BigInteger
      otherwise), so anything else fails the cast. */
  function CastInteger(v: Value): (r: Result<int>)
    ensures r.Ok? <==> v.Int? && IsInt32(v.i)
    ensures r.Ok? ==> r.value == v.i
  {
    if v.Int? && IsInt32(v.i) then Ok(v.i) else Err(ClassCast)
  }

  /** The result of `utmToLatLon`, a `long[3]`: index 0, 1 and 2 are the
      tuple's components 0, 1 and 2. */
  type LatLonElevation = (int, int, int)

  /** The external conversions the assemblers call (floating point and
      foreign code), one function value per entry point. */
  datatype Conversions = Conversions(
    // `(long) Double.parseDouble(s)`; None when parseDouble throws NumberFormatException
    parseTimestamp: string -> Option<int>,
    // `minuteOfTheYear(Long.toString(t))`
    minuteOfTheYear: int -> int,
    // `convertTimestampToUtcMap(Long.toString(t))`
    convertTimestampToUtcMap: int -> Value,
    // `convertTimestamp(s)`: the pair (year, offset) of its int[2]
    convertTimestamp: string -> (int, int),
    // `CoordinateConverter.utmToLatLon(x, y, zone, elevation)`, called by the RSA assembler
    coordinateConverterUtmToLatLon: (real, real, int, real) -> LatLonElevation,
    // `utmToLatLon(x, y, zone, elevation)`, called by the TIM assembler
    utmToLatLon: (real, real, int, real) -> LatLonElevation,
    // `quaternionToHeading(list)`
    quaternionToHeading: seq<Value> -> string,
    // `quaternionToFormattedString((List<Double>) v)`, v a list or null
    quaternionToFormattedString: Value -> string,
    // `Object.toString()` of a number, a boolean, a list or a map
    render: Value -> string
  )

  /** `String.valueOf(v)`, also what string concatenation does with `v`:
      null becomes "null", a string stays itself, anything else is rendered. */
  function JavaString(conv: Conversions, v: Value): (s: string)
    ensures v.Null? ==> s == "null"
    ensures v.Str? ==> s == v.s
  {
    match v
    case Null => "null"
    case Str(s) => s
    case _ => conv.render(v)
  }

  /** The three doubles of `egoPose_translation`. */
  datatype Utm = Utm(x: real, y: real, elevation: real)

  /** `double d = list.get(k)`: past the end the list throws, a null element
      fails to unbox, and a non-Double element fails the implicit cast. */
  function DoubleAt(items: seq<Value>, k: nat): (r: Result<real>)
    ensures r.Ok? <==> k < |items| && items[k].Dbl?
    ensures r == Err(IndexOutOfBounds) <==> k >= |items|
    ensures r.Ok? ==> r.value == items[k].d
  {
    if k >= |items| then Err(IndexOutOfBounds)
    else match items[k]
      case Dbl(d) => Ok(d)
      case Null => Err(NullPointer)
      case _ => Err(ClassCast)
  }

  /** `translation.get(0)`, `get(1)`, `get(2)` in that order; the first
      failing read decides the exception. */
  function ReadTranslation(items: seq<Value>): (r: Result<Utm>)
    ensures r.Ok? <==> |items| >= 3 && items[0].Dbl? && items[1].Dbl? && items[2].Dbl?
    ensures r.Ok? ==> r.value == Utm(items[0].d, items[1].d, items[2].d)
    ensures r == Err(IndexOutOfBounds) <==>
              |items| < 3 && forall k :: 0 <= k < |items| ==> items[k].Dbl?
  {
    match DoubleAt(items, 0)
    case Err(e) => Err(e)
    case Ok(x) =>
      match DoubleAt(items, 1)
      case Err(e) => Err(e)
      case Ok(y) =>
        match DoubleAt(items, 2)
        case Err(e) => Err(e)
        case Ok(z) => Ok(Utm(x, y, z))
  }
}
