/** The loosely structured payloads the program receives (CloudWatch alarm events, Lambda
    events), as the Python values json decoding produces, with the few Python operations the
    program applies to them: dict.get, truthiness, str() and iteration. */
module Json {
  import opened Wrappers
  import opened Strings

  /** None, bool, int, str, list, or a dict with its keys in insertion order. A dict's keys
      are distinct, as json decoding leaves them (it keeps the last of a repeated key), so
      the first binding of a key is its only one. */
  datatype Value =
    | Null
    | Bool(b: bool)
    | Int(i: int)
    | Str(s: string)
    | List(items: seq<Value>)
    | Object(fields: seq<(string, Value)>)

  /** The value bound to `key` (the first binding, should a key repeat). */
  function Lookup(fields: seq<(string, Value)>, key: string): Option<Value> {
    if fields == [] then None
    else if fields[0].0 == key then Some(fields[0].1)
    else Lookup(fields[1..], key)
  }

  /** None exactly when no field has the key; otherwise the value of a field with it. */
  lemma {:induction false} LookupShape(fields: seq<(string, Value)>, key: string)
    ensures Lookup(fields, key).None? <==> forall k :: 0 <= k < |fields| ==> fields[k].0 != key
    ensures Lookup(fields, key).Some? ==>
      exists k :: 0 <= k < |fields| && fields[k] == (key, Lookup(fields, key).value)
  {
    if fields != [] && fields[0].0 != key {
      LookupShape(fields[1..], key);
      assert forall k :: 1 <= k < |fields| ==> fields[k] == fields[1..][k - 1];
      if Lookup(fields, key).Some? {
        var k :| 0 <= k < |fields| - 1 && fields[1..][k] == (key, Lookup(fields, key).value);
        assert fields[k + 1] == (key, Lookup(fields, key).value);
      }
    }
  }

  /** `v.get(key, default)`: AttributeError unless `v` is a dict. */
  function Get(v: Value, key: string, default: Value): (r: Result<Value>)
    ensures r.Raised? <==> !v.Object?
    ensures v.Object? && Lookup(v.fields, key).None? ==> r == Ok(default)
  {
    match v
    case Object(fields) => Ok(Lookup(fields, key).GetOr(default))
    case _ => Raised("AttributeError")
  }

  /** `v[0]`: the first element of a list or first character of a str; KeyError on a dict
      (its keys are strings), IndexError on an empty sequence, TypeError otherwise. */
  function First(v: Value): (r: Result<Value>)
    ensures v.List? && v.items != [] ==> r == Ok(v.items[0])
    ensures r.Ok? ==> (v.List? || v.Str?)
  {
    match v
    case List(items) => if items != [] then Ok(items[0]) else Raised("IndexError")
    case Str(s) => if s != "" then Ok(Str([s[0]])) else Raised("IndexError")
    case Object(_) => Raised("KeyError")
    case _ => Raised("TypeError")
  }

  /** `for x in v`: a list yields its items, a str its characters, a dict its keys;
      anything else raises TypeError. */
  function Iterate(v: Value): (r: Result<seq<Value>>)
    ensures v.List? ==> r == Ok(v.items)
    ensures r.Ok? ==> (v.List? || v.Str? || v.Object?)
  {
    match v
    case List(items) => Ok(items)
    case Str(s) => Ok(seq(|s|, i requires 0 <= i < |s| => Str([s[i]])))
    case Object(fields) => Ok(seq(|fields|, i requires 0 <= i < |fields| => Str(fields[i].0)))
    case _ => Raised("TypeError")
  }

  /** Python truthiness (`if v:`). */
  predicate Truthy(v: Value) {
    match v
    case Null => false
    case Bool(b) => b
    case Int(i) => i != 0
    case Str(s) => s != ""
    case List(items) => items != []
    case Object(fields) => fields != []
  }

  function IntToString(i: int): string {
    if i < 0 then "-" + NatToString(-i) else NatToString(i)
  }

  /** `str(v)`. A str is itself; containers use their repr. */
  function PyStr(v: Value): string {
    match v
    case Str(s) => s
    case _ => PyRepr(v)
  }

  /** repr() of a str: single quotes unless the text holds ' and no ". */
  function Quote(s: string): string {
    if '\'' in s && '"' !in s then "\"" + s + "\"" else "'" + s + "'"
  }

  /** `repr(v)` for the json-decoded values. Quotes around strings follow Python's choice
      between ' and "; escape sequences inside strings are not produced. */
  function PyRepr(v: Value): string
    decreases v
  {
    match v
    case Null => "None"
    case Bool(b) => if b then "True" else "False"
    case Int(i) => IntToString(i)
    case Str(s) => Quote(s)
    case List(items) =>
      "[" + JoinWith(seq(|items|, k requires 0 <= k < |items| => PyRepr(items[k])), ", ") + "]"
    case Object(fields) =>
      "{" + JoinWith(seq(|fields|, k requires 0 <= k < |fields| =>
                     Quote(fields[k].0) + ": " + PyRepr(fields[k].1)), ", ") + "}"
  }
}
