/** The JSON values Klaxon hands to the generator, and Klaxon's typed accessors on a
    `JsonObject` as Main.kt uses them. An accessor `x(key)` is `get(key) as X?`: an
    absent key or a JSON null gives Kotlin null, a value of another type throws
    ClassCastException. */
module JsonValues {
  import opened Numbers

  /** A parsed JSON value. An integer literal is `JInt`; Klaxon hands it over as an
      `Int` when it fits in 32 bits and as a `Long` otherwise. Numbers with a
      fraction or exponent are `Double`, modelled as exact reals. */
  datatype Json =
    | JNull
    | JBool(b: bool)
    | JInt(i: int)
    | JDouble(d: real)
    | JString(s: string)
    | JArray(elems: seq<Json>)
    | JObject(fields: map<string, Json>)

  type JsonObj = map<string, Json>

  /** The outcome of one typed accessor call. */
  datatype Field<T> = Absent | Present(value: T) | Mistyped

  /** `JsonObject.get`: the value at a key, Kotlin null (JNull) when absent. */
  function Get(o: JsonObj, key: string): Json {
    if key in o then o[key] else JNull
  }

  function AsBool(v: Json): Field<bool> {
    match v
    case JNull => Absent
    case JBool(b) => Present(b)
    case _ => Mistyped
  }

  /** `as Int?`: a `Long` (an integer beyond 32 bits) is of the wrong type. */
  function AsInt(v: Json): Field<int> {
    match v
    case JNull => Absent
    case JInt(i) => if InInt32(i) then Present(i) else Mistyped
    case _ => Mistyped
  }

  function AsDouble(v: Json): Field<real> {
    match v
    case JNull => Absent
    case JDouble(d) => Present(d)
    case _ => Mistyped
  }

  function AsString(v: Json): Field<string> {
    match v
    case JNull => Absent
    case JString(s) => Present(s)
    case _ => Mistyped
  }

  function AsArray(v: Json): Field<seq<Json>> {
    match v
    case JNull => Absent
    case JArray(elems) => Present(elems)
    case _ => Mistyped
  }

  function AsObject(v: Json): Field<JsonObj> {
    match v
    case JNull => Absent
    case JObject(fields) => Present(fields)
    case _ => Mistyped
  }

  /** `JsonObject.goodDouble`: read a `Double`; on ClassCastException read an `Int`
      and widen it; a value of any other type lets the second exception escape. */
  function GoodDouble(o: JsonObj, key: string): Field<real> {
    match AsDouble(Get(o, key))
    case Present(d) => Present(d)
    case Absent => Absent
    case Mistyped =>
      match AsInt(Get(o, key))
      case Present(i) => Present(i as real)
      case Absent => Absent
      case Mistyped => Mistyped
  }

  /** The JSON shapes `goodDouble` accepts: a double as it is, an `Int` widened;
      null for an absent key or JSON null; an exception for every other type,
      integers beyond 32 bits included. */
  lemma GoodDoubleShapes(o: JsonObj, key: string, d: real)
    ensures GoodDouble(o, key) == Present(d) <==>
              Get(o, key) == JDouble(d) ||
              (Get(o, key).JInt? && InInt32(Get(o, key).i) && Get(o, key).i as real == d)
    ensures GoodDouble(o, key) == Absent <==> key !in o || o[key] == JNull
    ensures GoodDouble(o, key) == Mistyped <==>
              !(Get(o, key).JNull? || Get(o, key).JDouble? || (Get(o, key).JInt? && InInt32(Get(o, key).i)))
  {
  }
}
