/**
 * Decoded JSON values: the store's rows, the voice vendor's analysis payload
 * and the values inside them on the Python side, the parsed response bodies
 * on the browser side. Python's truthiness, the `in` operator and `dict.get`
 * are defined here once, because the reconciliation rule and the store
 * wrappers branch on them; JavaScript's truthiness sits beside them for the
 * browser code. A missing JavaScript property (`undefined`) is an absent key.
 */
module JsonValues {
  import opened Wrappers

  datatype Json =
    | JNull
    | JBool(b: bool)
    | JInt(i: int)
    | JFloat(f: real)
    | JStr(s: string)
    | JList(items: seq<Json>)
    | JDict(fields: map<string, Json>)

  /** A decoded JSON object (a Python `dict` with string keys). */
  type Dict = map<string, Json>

  /** Python truthiness: None, False, zero and empty containers are falsy. */
  predicate Truthy(v: Json) {
    match v
    case JNull => false
    case JBool(b) => b
    case JInt(i) => i != 0
    case JFloat(f) => f != 0.0
    case JStr(s) => s != ""
    case JList(items) => items != []
    case JDict(fields) => fields != map[]
  }

  /** JavaScript truthiness: null, false, zero and "" are falsy; every array and object is truthy (NaN is not modelled). */
  predicate JsTruthy(v: Json) {
    match v
    case JNull => false
    case JBool(b) => b
    case JInt(i) => i != 0
    case JFloat(f) => f != 0.0
    case JStr(s) => s != ""
    case JList(_) => true
    case JDict(_) => true
  }

  /** `d.get(key, default)` on a dictionary. */
  function DictGet(d: Dict, key: string, default: Json): (r: Json)
    ensures key in d ==> r == d[key]
    ensures key !in d ==> r == default
  {
    if key in d then d[key] else default
  }

  /** `key` occurs as a contiguous block of `s` (Python's `key in s` for strings). */
  predicate HasInfix(s: string, key: string)
    decreases |s|
  {
    if |key| > |s| then false
    else if s[..|key|] == key then true
    else HasInfix(s[1..], key)
  }

  lemma {:induction false} HasInfixAt(s: string, key: string, i: nat)
    requires i + |key| <= |s| && s[i..i + |key|] == key
    ensures HasInfix(s, key)
    decreases i
  {
    if s[..|key|] != key {
      assert i > 0;
      assert s[1..][i - 1..i - 1 + |key|] == s[i..i + |key|];
      HasInfixAt(s[1..], key, i - 1);
    }
  }

  /** The name Python gives the type of a decoded value, as it appears in exception messages. */
  function PyTypeName(v: Json): string {
    match v
    case JNull => "NoneType"
    case JBool(_) => "bool"
    case JInt(_) => "int"
    case JFloat(_) => "float"
    case JStr(_) => "str"
    case JList(_) => "list"
    case JDict(_) => "dict"
  }

  /** `str(e)` of the AttributeError a missing `.get` raises. */
  function NoGetError(v: Json): string {
    "'" + PyTypeName(v) + "' object has no attribute 'get'"
  }

  /**
   * Python's `key in container` for a string key: membership of the keys of a
   * dict, a substring test on a string, element membership on a list; on
   * None, booleans and numbers Python raises TypeError.
   */
  function Contains(container: Json, key: string): (r: Result<bool, string>)
    ensures container.JDict? ==> r == Ok(key in container.fields)
    ensures container.JList? ==> r == Ok(JStr(key) in container.items)
    ensures container.JStr? ==> r.Ok?
    ensures (container.JNull? || container.JBool? || container.JInt? || container.JFloat?) ==>
              r == Err("argument of type '" + PyTypeName(container) + "' is not iterable")
  {
    match container
    case JDict(fields) => Ok(key in fields)
    case JList(items) => Ok(JStr(key) in items)
    case JStr(s) => Ok(HasInfix(s, key))
    case _ => Err("argument of type '" + PyTypeName(container) + "' is not iterable")
  }

  /** `v.get(key, default)` on any value: only a dict has `.get`; anything else raises AttributeError. */
  function Get(v: Json, key: string, default: Json): (r: Result<Json, string>)
    ensures v.JDict? <==> r.Ok?
    ensures v.JDict? ==> r.value == DictGet(v.fields, key, default)
    ensures !v.JDict? ==> r == Err(NoGetError(v))
  {
    if v.JDict? then Ok(DictGet(v.fields, key, default))
    else Err(NoGetError(v))
  }
}
