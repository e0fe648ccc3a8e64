/** The already-parsed YAML document that the configuration loader works on.
    Scalars are kept as they come; mappings have string keys. */
module Yaml {

  datatype Value =
    | VNull
    | VBool(b: bool)
    | VInt(i: int)
    | VStr(s: string)
    | VList(items: seq<Value>)
    | VMap(entries: map<string, Value>)

  /** Every element of the list is a mapping (so it can be subscripted by key). */
  predicate AllDicts(vs: seq<Value>) {
    forall i :: 0 <= i < |vs| ==> vs[i].VMap?
  }
}
