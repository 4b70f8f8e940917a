/** The browser objects the site's logic touches: JavaScript values held in
    `any`-typed records, `window.localStorage`, and `File` objects. */
module Browser {

  /** A JavaScript value as it appears in the form records (numbers are integers
      here; `FileObj` is a browser `File` held in memory). */
  datatype Value =
    | Undefined
    | Null
    | Bool(b: bool)
    | Num(n: int)
    | Str(s: string)
    | Arr(items: seq<Value>)
    | Obj(fields: map<string, Value>)
    | FileObj(file: FileInfo)

  /** JavaScript truthiness (`!!v`). */
  predicate Truthy(v: Value) {
    match v
    case Undefined => false
    case Null => false
    case Bool(b) => b
    case Num(n) => n != 0
    case Str(s) => s != ""
    case Arr(_) => true
    case Obj(_) => true
    case FileObj(_) => true
  }

  /** Property access `o.k` on a plain object: `undefined` when the key is absent. */
  function Get(fields: map<string, Value>, k: string): (v: Value)
    ensures k !in fields ==> v == Undefined
  {
    if k in fields then fields[k] else Undefined
  }

  /** One `localStorage` entry. `Text` is a string written with `setItem` as is;
      `Object` is a string written as `JSON.stringify(o)` for a plain object `o`,
      kept here as the object `JSON.parse` gives back for it, `JsonObject(o)`. */
  datatype Slot = Text(text: string) | Object(fields: map<string, Value>)

  /** `window.localStorage`: a string-keyed store shared by every caller. */
  class LocalStorage {
    var items: map<string, Slot>

    constructor (initial: map<string, Slot>)
      ensures items == initial
    {
      items := initial;
    }

    /** `setItem(key, value)`. */
    method SetItem(key: string, value: Slot)
      modifies this
      ensures items == old(items)[key := value]
    {
      items := items[key := value];
    }

    /** `removeItem(key)`: removing an absent key is a no-op. */
    method RemoveItem(key: string)
      modifies this
      ensures items == old(items) - {key}
    {
      items := items - {key};
    }
  }

  /** A browser `File`: its name, its MIME type (`file.type`) and its size in bytes. */
  datatype FileInfo = FileInfo(name: string, mime: string, size: int)

  /** An array of `File`s held in a form value, as `Array.from(fileList)` makes it. */
  function FileArray(files: seq<FileInfo>): (v: Value)
    ensures v.Arr? && |v.items| == |files|
    ensures forall k :: 0 <= k < |files| ==> v.items[k] == FileObj(files[k])
  {
    Arr(seq(|files|, k requires 0 <= k < |files| => FileObj(files[k])))
  }

  /** `JSON.stringify` writes a `File` as `{}`: it has no own enumerable properties. */
  function FileAsJson(f: FileInfo): Value {
    Obj(map[])
  }

  // ----- JSON.parse(JSON.stringify(v)) -----

  /** A value that survives the JSON round trip unchanged: no `undefined` and no
      `File` anywhere inside it. */
  predicate JsonClean(v: Value)
    decreases v
  {
    match v
    case Undefined => false
    case FileObj(_) => false
    case Arr(items) => forall k :: 0 <= k < |items| ==> JsonClean(items[k])
    case Obj(fields) => forall k :: k in fields ==> JsonClean(fields[k])
    case _ => true
  }

  /** A value inside an array after the round trip: `undefined` is written as
      `null`, a `File` as `{}`, and objects lose their `undefined` fields. */
  function JsonValue(v: Value): (r: Value)
    decreases v, 1
  {
    match v
    case Undefined => Null
    case FileObj(f) => FileAsJson(f)
    case Arr(items) => Arr(seq(|items|, k requires 0 <= k < |items| => JsonValue(items[k])))
    case Obj(fields) => Obj(JsonObject(fields))
    case _ => v
  }

  /** A plain object after the round trip: `JSON.stringify` leaves out the fields
      that hold `undefined`. */
  function JsonObject(fields: map<string, Value>): (r: map<string, Value>)
    ensures forall k :: k in fields && fields[k].Undefined? ==> k !in r
    decreases Obj(fields), 0
  {
    map k | k in fields && !fields[k].Undefined? :: JsonValue(fields[k])
  }

  /** What comes back from the round trip survives a second one. */
  lemma {:induction false} JsonValueIsClean(v: Value)
    ensures JsonClean(JsonValue(v))
    decreases v, 1
  {
    match v
    case Arr(items) =>
      forall k | 0 <= k < |items| ensures JsonClean(JsonValue(v).items[k]) {
        JsonValueIsClean(items[k]);
      }
    case Obj(fields) =>
      JsonObjectIsClean(fields);
    case _ =>
  }

  lemma {:induction false} JsonObjectIsClean(fields: map<string, Value>)
    ensures forall k :: k in JsonObject(fields) ==> JsonClean(JsonObject(fields)[k])
    decreases Obj(fields), 0
  {
    forall k | k in JsonObject(fields) ensures JsonClean(JsonObject(fields)[k]) {
      JsonValueIsClean(fields[k]);
    }
  }

  /** A clean value comes back from the round trip as it was. */
  lemma {:induction false} CleanJsonValue(v: Value)
    requires JsonClean(v)
    ensures JsonValue(v) == v
    decreases v, 1
  {
    match v
    case Arr(items) =>
      forall k | 0 <= k < |items| ensures JsonValue(items[k]) == items[k] {
        CleanJsonValue(items[k]);
      }
      assert JsonValue(v).items == items;
    case Obj(fields) =>
      CleanJsonObject(fields);
    case _ =>
  }

  lemma {:induction false} CleanJsonObject(fields: map<string, Value>)
    requires forall k :: k in fields ==> JsonClean(fields[k])
    ensures JsonObject(fields) == fields
    decreases Obj(fields), 0
  {
    forall k | k in fields ensures JsonValue(fields[k]) == fields[k] {
      CleanJsonValue(fields[k]);
    }
    assert JsonObject(fields).Keys == fields.Keys;
  }

  /** The round trip is idempotent: a record saved, read back and saved again is
      stored the same way. */
  lemma JsonObjectIdempotent(fields: map<string, Value>)
    ensures JsonObject(JsonObject(fields)) == JsonObject(fields)
  {
    JsonObjectIsClean(fields);
    CleanJsonObject(JsonObject(fields));
  }
}
