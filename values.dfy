/** Model of the datastore's property values
    (`backend/crates/v1/infrastructure/src/datastore/proto_api/value.rs`):
    the tagged `Value` union and the `IntoValue` / `FromValue` conversions
    between it and the Rust types stored in it.

    A Rust trait implemented for many types becomes one function per type:
    `FooIntoValue` for `impl IntoValue for Foo`, `FooFromValue` for
    `impl FromValue for Foo`. The generic impls for `Vec<T>` and
    `HashMap<String, T>` take the element conversion as a function. */
module Values {
  import opened Prelude

  /** The datastore key, a timestamp and a 64-bit float are stored and
      handed back, never looked into. */
  type Key(==)
  type NaiveDateTime(==)
  type F64(==)

  const I64Min := -0x8000_0000_0000_0000
  const I64Bound := 0x8000_0000_0000_0000

  type I64 = x: int | I64Min <= x < I64Bound
  type I32 = x: int | -0x8000_0000 <= x < 0x8000_0000
  type I16 = x: int | -0x8000 <= x < 0x8000
  type I8 = x: int | -0x80 <= x < 0x80

  type Byte = bv8

  datatype Value =
    | Boolean(b: bool)
    | Integer(i: I64)
    | Double(d: F64)
    | Timestamp(t: NaiveDateTime)
    | Key(k: Key)
    | Strings(s: string)
    | Blob(bytes: seq<Byte>)
    | GeoPoint(latitude: F64, longitude: F64)
    | Entity(properties: map<string, Value>)
    | Array(values: seq<Value>)
  {
    /** `Value::type_name`: the tag of each variant, one per variant. */
    function TypeName(): (name: string)
      ensures name == "bool" <==> Boolean?
      ensures name == "integer" <==> Integer?
      ensures name == "double" <==> Double?
      ensures name == "timestamp" <==> Timestamp?
      ensures name == "key" <==> Key?
      ensures name == "string" <==> Strings?
      ensures name == "blob" <==> Blob?
      ensures name == "geopoint" <==> GeoPoint?
      ensures name == "entity" <==> Entity?
      ensures name == "array" <==> Array?
    {
      match this
      case Boolean(_) => "bool"
      case Integer(_) => "integer"
      case Double(_) => "double"
      case Timestamp(_) => "timestamp"
      case Key(_) => "key"
      case Strings(_) => "string"
      case Blob(_) => "blob"
      case GeoPoint(_, _) => "geopoint"
      case Entity(_) => "entity"
      case Array(_) => "array"
    }
  }

  /** Two values carry the same tag exactly when they are of the same
      variant. */
  lemma TypeNameIdentifiesVariant(a: Value, b: Value)
    ensures a.TypeName() == b.TypeName() <==>
      || (a.Boolean? && b.Boolean?) || (a.Integer? && b.Integer?) || (a.Double? && b.Double?)
      || (a.Timestamp? && b.Timestamp?) || (a.Key? && b.Key?) || (a.Strings? && b.Strings?)
      || (a.Blob? && b.Blob?) || (a.GeoPoint? && b.GeoPoint?) || (a.Entity? && b.Entity?)
      || (a.Array? && b.Array?)
  {
  }

  /** The error type the conversions share (`proto_api::ConvertError`,
      whose definition is not part of this model): the two cases this code
      produces. */
  datatype ConvertError =
    | UnexpectedPropertyType(expected: string, got: string)
    | MissingProperty(name: string)

  type ConvertResult<T> = Result<T, ConvertError>

  /** The error every `from_value` returns for a value of another variant. */
  function Unexpected(expected: string, value: Value): ConvertError {
    UnexpectedPropertyType(expected, value.TypeName())
  }

  // ---- FromValue --------------------------------------------------------

  /** `impl FromValue for Value`: the identity. */
  function ValueFromValue(value: Value): (r: ConvertResult<Value>)
    ensures r == Ok(value)
  {
    Ok(value)
  }

  /** `impl FromValue for String`. */
  function StringFromValue(value: Value): (r: ConvertResult<string>)
    ensures r.Ok? <==> value.Strings?
    ensures r.Ok? ==> value == Strings(r.value)
    ensures r.Err? ==> r.error == Unexpected("string", value)
  {
    match value
    case Strings(s) => Ok(s)
    case _ => Err(Unexpected("string", value))
  }

  /** `impl FromValue for i64`. */
  function I64FromValue(value: Value): (r: ConvertResult<I64>)
    ensures r.Ok? <==> value.Integer?
    ensures r.Ok? ==> value == Integer(r.value)
    ensures r.Err? ==> r.error == Unexpected("integer", value)
  {
    match value
    case Integer(i) => Ok(i)
    case _ => Err(Unexpected("integer", value))
  }

  /** `impl FromValue for f64`. */
  function F64FromValue(value: Value): (r: ConvertResult<F64>)
    ensures r.Ok? <==> value.Double?
    ensures r.Ok? ==> value == Double(r.value)
    ensures r.Err? ==> r.error == Unexpected("double", value)
  {
    match value
    case Double(d) => Ok(d)
    case _ => Err(Unexpected("double", value))
  }

  /** `impl FromValue for bool`. */
  function BoolFromValue(value: Value): (r: ConvertResult<bool>)
    ensures r.Ok? <==> value.Boolean?
    ensures r.Ok? ==> value == Boolean(r.value)
    ensures r.Err? ==> r.error == Unexpected("bool", value)
  {
    match value
    case Boolean(b) => Ok(b)
    case _ => Err(Unexpected("bool", value))
  }

  /** `impl FromValue for Key`. */
  function KeyFromValue(value: Value): (r: ConvertResult<Key>)
    ensures r.Ok? <==> value.Key?
    ensures r.Ok? ==> value == Key(r.value)
    ensures r.Err? ==> r.error == Unexpected("key", value)
  {
    match value
    case Key(k) => Ok(k)
    case _ => Err(Unexpected("key", value))
  }

  /** `impl FromValue for NaiveDateTime`. */
  function TimestampFromValue(value: Value): (r: ConvertResult<NaiveDateTime>)
    ensures r.Ok? <==> value.Timestamp?
    ensures r.Ok? ==> value == Timestamp(r.value)
    ensures r.Err? ==> r.error == Unexpected("timestamp", value)
  {
    match value
    case Timestamp(t) => Ok(t)
    case _ => Err(Unexpected("timestamp", value))
  }

  /** `impl FromValue for Bytes`: a blob's bytes. */
  function BytesFromValue(value: Value): (r: ConvertResult<seq<Byte>>)
    ensures r.Ok? <==> value.Blob?
    ensures r.Ok? ==> value == Blob(r.value)
    ensures r.Err? ==> r.error == Unexpected("blob", value)
  {
    match value
    case Blob(bytes) => Ok(bytes)
    case _ => Err(Unexpected("blob", value))
  }

  /** Collecting an iterator of results into `Result<Vec<T>, _>`: the first
      error stops it, otherwise every element is decoded in order. */
  function DecodeAll<T>(values: seq<Value>, decode: Value -> ConvertResult<T>): (r: ConvertResult<seq<T>>)
    ensures r.Ok? <==> forall i :: 0 <= i < |values| ==> decode(values[i]).Ok?
    ensures r.Ok? ==> |r.value| == |values| && forall i :: 0 <= i < |values| ==> decode(values[i]) == Ok(r.value[i])
    ensures r.Err? ==> exists i :: 0 <= i < |values| && decode(values[i]) == Err(r.error) &&
                                   forall j :: 0 <= j < i ==> decode(values[j]).Ok?
    decreases |values|
  {
    if values == [] then Ok([])
    else
      match decode(values[0])
      case Err(e) => Err(e)
      case Ok(first) =>
        match DecodeAll(values[1..], decode)
        case Err(e) =>
          assert forall j :: 1 <= j < |values| ==> values[j] == values[1..][j - 1];
          Err(e)
        case Ok(rest) =>
          assert forall j :: 1 <= j < |values| ==> values[j] == values[1..][j - 1];
          Ok([first] + rest)
  }

  /** `impl FromValue for Vec<T>`: an array whose every element decodes. */
  function VecFromValue<T>(value: Value, decode: Value -> ConvertResult<T>): (r: ConvertResult<seq<T>>)
    ensures !value.Array? ==> r == Err(Unexpected("array", value))
    ensures value.Array? ==> r == DecodeAll(value.values, decode)
  {
    match value
    case Array(values) =>
      var decoded :- DecodeAll(values, decode);
      Ok(decoded)
    case _ => Err(Unexpected("array", value))
  }

  /** The map of decoded entries, defined once every entry decodes. */
  function DecodedEntries<T>(properties: map<string, Value>, decode: Value -> ConvertResult<T>): (m: map<string, T>)
    requires forall k :: k in properties ==> decode(properties[k]).Ok?
    ensures m.Keys == properties.Keys
    ensures forall k :: k in properties ==> decode(properties[k]) == Ok(m[k])
  {
    map k | k in properties :: decode(properties[k]).value
  }

  /** Collecting the entries of a map, visited in `order`, into
      `Result<HashMap<String, T>, _>`: the first entry that fails to decode
      stops it. */
  function DecodeEntries<T>(properties: map<string, Value>, order: seq<string>, decode: Value -> ConvertResult<T>): (r: ConvertResult<()>)
    requires forall i :: 0 <= i < |order| ==> order[i] in properties
    ensures r.Ok? <==> forall i :: 0 <= i < |order| ==> decode(properties[order[i]]).Ok?
    ensures r.Err? ==> exists i :: 0 <= i < |order| && decode(properties[order[i]]) == Err(r.error) &&
                                   forall j :: 0 <= j < i ==> decode(properties[order[j]]).Ok?
    decreases |order|
  {
    if order == [] then Ok(())
    else
      match decode(properties[order[0]])
      case Err(e) => Err(e)
      case Ok(_) =>
        assert forall j :: 1 <= j < |order| ==> order[j] == order[1..][j - 1];
        DecodeEntries(properties, order[1..], decode)
  }

  /** `impl FromValue for HashMap<String, T>`: an entity whose every
      property decodes, checked in the order `order` the map is walked in
      (any enumeration of its keys). */
  function MapFromValue<T>(value: Value, order: seq<string>, decode: Value -> ConvertResult<T>): (r: ConvertResult<map<string, T>>)
    requires value.Entity? ==> IsEnumeration(order, value.properties.Keys)
    ensures !value.Entity? ==> r == Err(Unexpected("entity", value))
    ensures value.Entity? ==> (r.Ok? <==> forall k :: k in value.properties ==> decode(value.properties[k]).Ok?)
    ensures value.Entity? && r.Ok? ==>
      r.value.Keys == value.properties.Keys && forall k :: k in value.properties ==> decode(value.properties[k]) == Ok(r.value[k])
    ensures value.Entity? && r.Err? ==> exists k :: k in value.properties && decode(value.properties[k]) == Err(r.error)
  {
    match value
    case Entity(properties) =>
      (match DecodeEntries(properties, order, decode)
       case Err(e) => Err(e)
       case Ok(_) =>
         assert forall k :: k in properties ==> k in order;
         Ok(DecodedEntries(properties, decode)))
    case _ => Err(Unexpected("entity", value))
  }

  // ---- IntoValue --------------------------------------------------------

  /** `impl IntoValue for Value`: the identity. */
  function ValueIntoValue(value: Value): (v: Value)
    ensures ValueFromValue(v) == Ok(value)
  {
    value
  }

  /** `impl IntoValue for String`, and for `&str`, which converts to a
      `String` first. */
  function StringIntoValue(s: string): (v: Value)
    ensures StringFromValue(v) == Ok(s)
  {
    Strings(s)
  }

  /** `impl IntoValue for i64`. */
  function I64IntoValue(i: I64): (v: Value)
    ensures I64FromValue(v) == Ok(i)
  {
    Integer(i)
  }

  /** `impl IntoValue for i32`: widened to 64 bits, value kept. */
  function I32IntoValue(i: I32): (v: Value)
    ensures I64FromValue(v) == Ok(i as I64)
  {
    Integer(i as I64)
  }

  /** `impl IntoValue for i16`: widened to 64 bits, value kept. */
  function I16IntoValue(i: I16): (v: Value)
    ensures I64FromValue(v) == Ok(i as I64)
  {
    Integer(i as I64)
  }

  /** `impl IntoValue for i8`: widened to 64 bits, value kept. */
  function I8IntoValue(i: I8): (v: Value)
    ensures I64FromValue(v) == Ok(i as I64)
  {
    Integer(i as I64)
  }

  /** `impl IntoValue for f64`. */
  function F64IntoValue(d: F64): (v: Value)
    ensures F64FromValue(v) == Ok(d)
  {
    Double(d)
  }

  /** `impl IntoValue for bool`. */
  function BoolIntoValue(b: bool): (v: Value)
    ensures BoolFromValue(v) == Ok(b)
  {
    Boolean(b)
  }

  /** `impl IntoValue for Key`. */
  function KeyIntoValue(k: Key): (v: Value)
    ensures KeyFromValue(v) == Ok(k)
  {
    Key(k)
  }

  /** `impl IntoValue for NaiveDateTime`. */
  function TimestampIntoValue(t: NaiveDateTime): (v: Value)
    ensures TimestampFromValue(v) == Ok(t)
  {
    Timestamp(t)
  }

  /** `impl IntoValue for Bytes`: the bytes copied into a blob. */
  function BytesIntoValue(bytes: seq<Byte>): (v: Value)
    ensures BytesFromValue(v) == Ok(bytes)
  {
    Blob(bytes)
  }

  /** `impl IntoValue for Vec<T>`, and `FromIterator` for `Value`, which
      does the same: an array of the converted elements, in order. */
  function VecIntoValue<T>(items: seq<T>, encode: T -> Value): (v: Value)
    ensures v.Array? && |v.values| == |items|
    ensures forall i :: 0 <= i < |items| ==> v.values[i] == encode(items[i])
  {
    Array(seq(|items|, i requires 0 <= i < |items| => encode(items[i])))
  }

  /** `impl IntoValue for HashMap<String, T>`: an entity with the same keys,
      each value converted. */
  function MapIntoValue<T>(m: map<string, T>, encode: T -> Value): (v: Value)
    ensures v.Entity? && v.properties.Keys == m.Keys
    ensures forall k :: k in m ==> v.properties[k] == encode(m[k])
  {
    Entity(map k | k in m :: encode(m[k]))
  }

  // ---- Round trips ------------------------------------------------------

  /** A vector encoded element-wise decodes back to itself when each
      element does. */
  lemma VecRoundTrip<T>(items: seq<T>, encode: T -> Value, decode: Value -> ConvertResult<T>)
    requires forall x :: decode(encode(x)) == Ok(x)
    ensures VecFromValue(VecIntoValue(items, encode), decode) == Ok(items)
  {
    var v := VecIntoValue(items, encode);
    var r := DecodeAll(v.values, decode);
    assert forall i :: 0 <= i < |items| ==> decode(v.values[i]) == Ok(items[i]);
    assert r.Ok?;
    assert r.value == items;
  }

  /** A vector with one element that does not decode does not decode; the
      error is that of the first such element. */
  lemma VecDecodeFailsOnFirstBadElement<T>(values: seq<Value>, decode: Value -> ConvertResult<T>, i: nat)
    requires i < |values| && decode(values[i]).Err?
    requires forall j :: 0 <= j < i ==> decode(values[j]).Ok?
    ensures VecFromValue(Array(values), decode) == Err(decode(values[i]).error)
  {
    var r := DecodeAll(values, decode);
    assert r.Err?;
    var k :| 0 <= k < |values| && decode(values[k]) == Err(r.error) && forall j :: 0 <= j < k ==> decode(values[j]).Ok?;
    assert k == i;
  }

  /** A map encoded value-wise decodes back to itself when each value does,
      whatever order its entries are walked in. */
  lemma MapRoundTrip<T>(m: map<string, T>, order: seq<string>, encode: T -> Value, decode: Value -> ConvertResult<T>)
    requires forall x :: decode(encode(x)) == Ok(x)
    requires IsEnumeration(order, m.Keys)
    ensures MapFromValue(MapIntoValue(m, encode), order, decode) == Ok(m)
  {
    var v := MapIntoValue(m, encode);
    var r := MapFromValue(v, order, decode);
    assert forall k :: k in m ==> decode(v.properties[k]) == Ok(m[k]);
    assert r.Ok?;
    assert r.value == m;
  }

  /** The strings, integers and booleans of the tests round-trip, and a
      value of another variant is reported by its tag. */
  lemma ScalarConversionExamples()
    ensures StringFromValue(StringIntoValue("hoge")) == Ok("hoge")
    ensures I64FromValue(I8IntoValue(-128)) == Ok(-128)
    ensures I64FromValue(I32IntoValue(0x7fff_ffff)) == Ok(0x7fff_ffff)
    ensures BoolFromValue(BoolIntoValue(true)) == Ok(true)
    ensures StringFromValue(Integer(1)) == Err(UnexpectedPropertyType("string", "integer"))
    ensures BoolFromValue(Strings("true")) == Err(UnexpectedPropertyType("bool", "string"))
    ensures I64FromValue(Array([])) == Err(UnexpectedPropertyType("integer", "array"))
  {
  }
}
