/**
 * The documents the MongoDB driver exchanges with the server, as values:
 * a document is a finite map from field names to values.
 */
module Bson {

  /** A BSON value; a double is carried as the real number it denotes. */
  datatype Value =
    | Null
    | Bool(b: bool)
    | Int(i: int)
    | Double(d: real)
    | Str(s: string)
    | Array(elements: seq<Value>)
    | Doc(fields: map<string, Value>)

  type Document = map<string, Value>

  /** Field `k` is absent from both documents or holds the same value in both. */
  predicate SameEntry(d: Document, e: Document, k: string) {
    (k !in d && k !in e) || (k in d && k in e && d[k] == e[k])
  }
}
