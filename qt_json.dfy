/**
  A JSON value as QJsonValue holds it, and the coercions of QJsonValue,
  QJsonObject and QJsonArray the translation engine applies to it.
  Numbers are kept as integers.
*/
module QtJson {
  import opened Wrappers
  import opened QtString

  /** `Undefined` is what Qt returns for a missing key; an object never stores it. */
  datatype Json =
    | Undefined
    | Null
    | Bool(b: bool)
    | Num(n: int)
    | Str(s: string)
    | Arr(items: seq<Json>)
    | Obj(fields: map<string, Json>)

  type JObject = map<string, Json>

  /** `object[key]` on a const QJsonObject: Undefined when the key is missing. */
  function Get(o: JObject, key: string): Json
  {
    if key in o then o[key] else Undefined
  }

  /**
    `object[key]` on a non-const QJsonObject: Qt first inserts Null for a
    missing key, so the value read is Null rather than Undefined.
  */
  function RefGet(o: JObject, key: string): Json
  {
    if key in o then o[key] else Null
  }

  /** QJsonObject::insert and assignment through operator[]: storing Undefined removes the key. */
  function Put(o: JObject, key: string, v: Json): JObject
  {
    if v.Undefined? then o - {key} else o[key := v]
  }

  /** QJsonValue::toString(): the text of a string, "" for anything else. */
  function ToString(v: Json): string
  {
    if v.Str? then v.s else ""
  }

  /** QJsonValue::toBool(): false for anything but a boolean. */
  function ToBool(v: Json): bool
  {
    v.Bool? && v.b
  }

  /** QJsonValue::toInt(): a number that fits in 32 bits, else 0. */
  function ToInt(v: Json): (r: int)
    ensures InInt32(r)
  {
    if v.Num? && InInt32(v.n) then v.n else 0
  }

  /** QJsonValue::toObject(): the empty object for anything but an object. */
  function ToObject(v: Json): JObject
  {
    if v.Obj? then v.fields else map[]
  }

  /** QJsonValue::toArray(): the empty array for anything but an array. */
  function ToArray(v: Json): seq<Json>
  {
    if v.Arr? then v.items else []
  }

  /** QJsonArray::at(i): Undefined when out of range. */
  function At(a: seq<Json>, i: int): Json
  {
    if 0 <= i < |a| then a[i] else Undefined
  }

  /**
    QJsonValue::toVariant().toInt(): a number is rounded to 64 bits and
    truncated to 32; a string is read as a 64-bit integer and truncated
    (0 when it does not parse or fit); a boolean is 1 or 0; anything else 0.
  */
  function ToVariantInt(v: Json): (r: int)
    ensures InInt32(r)
  {
    match v
    case Num(n) => Wrap32(n)
    case Bool(b) => if b then 1 else 0
    case Str(s) =>
      (match ParseInteger(s)
       case Some(x) => if LLONG_MIN <= x <= LLONG_MAX then Wrap32(x) else 0
       case None => 0)
    case _ => 0
  }

  /** The decimal text QString::number writes is read back by toVariant().toInt(). */
  lemma VariantIntOfNumberText(n: int)
    requires InInt32(n)
    ensures ToVariantInt(Str(IntToString(n))) == n
  {
    ParseIntToString(n);
  }
}
