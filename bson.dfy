/** BSON documents, restricted to the value kinds the records of the bot write and read. */
module Bson {
  import opened Results

  datatype Value =
    | Int(i: int)
    | Str(s: string)
    | Bool(b: bool)
    | StrList(items: seq<string>)

  /** A document: field name to value. */
  type Document = map<string, Value>

  /** An update document `{ "$set": fields }`. */
  datatype Update = Set(fields: Document)

  /** `doc.get(key).and_then(Bson::as_i64)` */
  function AsInt(d: Document, key: string): Option<int> {
    if key in d && d[key].Int? then Some(d[key].i) else None
  }

  /** `doc.get(key).and_then(Bson::as_str)` */
  function AsStr(d: Document, key: string): Option<string> {
    if key in d && d[key].Str? then Some(d[key].s) else None
  }

  /** `doc.get(key).and_then(Bson::as_bool)` */
  function AsBool(d: Document, key: string): Option<bool> {
    if key in d && d[key].Bool? then Some(d[key].b) else None
  }

  /** `doc.get(key).and_then(Bson::as_array)`, every element being a string */
  function AsStrList(d: Document, key: string): Option<seq<string>> {
    if key in d && d[key].StrList? then Some(d[key].items) else None
  }

  /** `doc.get(key).and_then(Bson::as_str).or(Some(default)).unwrap()` */
  function StrOr(d: Document, key: string, default: string): string {
    match AsStr(d, key)
    case Some(s) => s
    case None => default
  }

  /** `doc.get(key).and_then(Bson::as_bool).or(Some(default)).unwrap()` */
  function BoolOr(d: Document, key: string, default: bool): bool {
    match AsBool(d, key)
    case Some(b) => b
    case None => default
  }

  /** The effect of a `$set` update on a stored document: every field named in the update takes its new
      value, every other field is kept. */
  function ApplyUpdate(d: Document, u: Update): (r: Document)
    ensures r.Keys == d.Keys + u.fields.Keys
    ensures forall k :: k in u.fields ==> r[k] == u.fields[k]
    ensures forall k :: k in d && k !in u.fields ==> r[k] == d[k]
  {
    d + u.fields
  }
}
