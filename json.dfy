/**
 * An abstract JSON value, as produced by `JSON.parse` in the Node.js
 * servers and by the request decoder of the Python server.  Numbers are
 * integers; objects keep their members in insertion order.
 */
module Json {
  import opened Wrappers

  datatype Json =
    | JNull
    | JBool(b: bool)
    | JNum(n: int)
    | JStr(s: string)
    | JArr(items: seq<Json>)
    | JObj(fields: seq<(string, Json)>)

  /**
   * The member named `key`.  When a key is repeated the last binding wins,
   * which is what both `JSON.parse` and Python's decoder keep.
   */
  function Lookup(fields: seq<(string, Json)>, key: string): Option<Json>
    decreases |fields|
  {
    if |fields| == 0 then None
    else
      var later := Lookup(fields[1..], key);
      if later.Some? then later
      else if fields[0].0 == key then Some(fields[0].1)
      else None
  }

  /** A key that is never bound is absent. */
  lemma {:induction false} LookupAbsent(fields: seq<(string, Json)>, key: string)
    requires forall j :: 0 <= j < |fields| ==> fields[j].0 != key
    ensures Lookup(fields, key) == None
    decreases |fields|
  {
    if |fields| > 0 {
      assert forall j :: 0 <= j < |fields[1..]| ==> fields[1..][j] == fields[j + 1];
      LookupAbsent(fields[1..], key);
    }
  }

  /** The binding found is the last one made for the key. */
  lemma {:induction false} LookupLast(fields: seq<(string, Json)>, i: nat, key: string)
    requires i < |fields| && fields[i].0 == key
    requires forall j :: i < j < |fields| ==> fields[j].0 != key
    ensures Lookup(fields, key) == Some(fields[i].1)
  {
    if i > 0 {
      LookupLast(fields[1..], i - 1, key);
    } else {
      assert forall j :: 0 <= j < |fields[1..]| ==> fields[1..][j] == fields[j + 1];
      LookupAbsent(fields[1..], key);
    }
  }

  /**
   * Property access `v.key` on a parsed JSON value: an own member of an
   * object, `undefined` (None) otherwise.  None of the keys the servers read
   * (`id`, `method`, `params`, `name`, `arguments`, `uri`, `repository`,
   * `topic`, ...) names a property that strings, arrays or
   * `Object.prototype` carry.
   */
  function Prop(v: Json, key: string): Option<Json> {
    if v.JObj? then Lookup(v.fields, key) else None
  }
}

/** The JavaScript conversions the Node.js servers apply to JSON values. */
module JsValues {
  import opened Wrappers
  import opened Text
  import opened Json

  /** JavaScript truthiness; `None` is `undefined`. */
  predicate Truthy(v: Option<Json>) {
    match v
    case None => false
    case Some(JNull) => false
    case Some(JBool(b)) => b
    case Some(JNum(n)) => n != 0
    case Some(JStr(s)) => s != ""
    case Some(JArr(_)) => true
    case Some(JObj(_)) => true
  }

  /**
   * The conversion to a string that `String(v)` and `${v}` perform throws a
   * `TypeError` on an object with an own `toString` key: a parsed value is
   * never callable, so the conversion falls through to `valueOf`, which
   * returns the object itself.  An array throws when one of its members does.
   */
  predicate ToPrimitiveThrows(v: Json) {
    match v
    case JObj(fs) => Lookup(fs, "toString").Some?
    case JArr(xs) => exists i :: 0 <= i < |xs| && ToPrimitiveThrows(xs[i])
    case _ => false
  }

  /** `ToPrimitiveThrows` for a property that may be `undefined`. */
  predicate ConversionThrows(v: Option<Json>) {
    v.Some? && ToPrimitiveThrows(v.value)
  }

  /** The text `${error}` gives for the `TypeError` of a failed conversion. */
  const ToPrimitiveError := "TypeError: Cannot convert object to primitive value"

  /** `String(v)`; an array is joined with "," and its null members render empty. */
  function ToJsString(v: Json): string
    requires !ToPrimitiveThrows(v)
  {
    match v
    case JNull => "null"
    case JBool(b) => if b then "true" else "false"
    case JNum(n) => IntToDecimal(n)
    case JStr(s) => s
    case JArr(xs) =>
      Join(seq(|xs|, i requires 0 <= i < |xs| => if xs[i].JNull? then "" else ToJsString(xs[i])), ",")
    case JObj(_) => "[object Object]"
  }

  /** The text a template literal `${v}` inserts; `undefined` renders as such. */
  function Template(v: Option<Json>): string
    requires !ConversionThrows(v)
  {
    match v
    case None => "undefined"
    case Some(x) => ToJsString(x)
  }

  /** `v ?? ""` inserted into a template literal. */
  function TemplateOrEmpty(v: Option<Json>): string
    requires !ConversionThrows(v)
  {
    match v
    case None => ""
    case Some(JNull) => ""
    case Some(x) => ToJsString(x)
  }
}
