/**
 * JSON values as the backend handles them after `json.loads` and before `json.dumps`.
 * The JSON grammar itself is not modelled: `JsonCodec` is an abstract pair of a
 * serialiser and a partial parser, and `Lawful` states what the code relies on.
 */
module Json {
  import opened Wrappers

  datatype Value =
    | Null
    | Bool(b: bool)
    | Num(n: int)
    | Str(s: string)
    | Arr(items: seq<Value>)
    | Obj(fields: map<string, Value>)

  /** Python truthiness of a JSON value: `None`, `False`, `0`, `""`, `[]` and `{}` are falsy. */
  predicate Truthy(v: Value)
  {
    match v
    case Null => false
    case Bool(b) => b
    case Num(n) => n != 0
    case Str(s) => s != ""
    case Arr(items) => items != []
    case Obj(fields) => fields != map[]
  }

  /** `None` for an absent optional string, the string otherwise. */
  function OptStr(o: Option<string>): (r: Value)
    ensures o.None? <==> r == Null
    ensures o.Some? ==> r == Str(o.value)
  {
    match o
    case None => Null
    case Some(s) => Str(s)
  }

  /** A list of strings as a JSON array. */
  function StrList(ss: seq<string>): (r: Value)
    ensures r.Arr? && |r.items| == |ss|
    ensures forall i :: 0 <= i < |ss| ==> r.items[i] == Str(ss[i])
  {
    Arr(seq(|ss|, i requires 0 <= i < |ss| => Str(ss[i])))
  }

  /** `json.dumps` and `json.loads`; `loads` returns `None` where Python raises. */
  datatype JsonCodec = JsonCodec(dumps: Value -> string, loads: string -> Option<Value>)

  /** What the backend relies on: loading a dump gives the value back, a dump is never
      the empty string, and the empty string is not a JSON document. */
  ghost predicate Lawful(codec: JsonCodec)
  {
    && (forall v :: codec.loads(codec.dumps(v)) == Some(v))
    && (forall v :: codec.dumps(v) != "")
    && codec.loads("") == None
  }

  /** The text column a `set_*` setter of `Project` stores: `json.dumps(x) if x else None`. */
  function Stored(codec: JsonCodec, x: Value): (r: Option<string>)
    ensures r.None? <==> !Truthy(x)
  {
    if Truthy(x) then Some(codec.dumps(x)) else None
  }

  /** How `to_dict` reads such a column back: `json.loads(text) if text else None`.
      `None` stands for the exception `json.loads` raises on text that does not parse. */
  function Load(codec: JsonCodec, column: Option<string>): Option<Value>
  {
    match column
    case None => Some(Null)
    case Some(text) => if text == "" then Some(Null) else codec.loads(text)
  }

  /** Storing a value and reading it back gives the value, or `None`/null for a falsy one. */
  lemma StoredRoundTrip(codec: JsonCodec, x: Value)
    requires Lawful(codec)
    ensures Load(codec, Stored(codec, x)) == Some(if Truthy(x) then x else Null)
  {
    if Truthy(x) {
      assert codec.dumps(x) != "";
      assert codec.loads(codec.dumps(x)) == Some(x);
    }
  }
}
