/** Upstream JSON as the providers see it after `response.json()`, with the
    Python semantics they apply to it: `dict.get`, truthiness, `or`, `str()`
    and `float()`. */
module Json {
  import opened Wrappers
  import opened PyText

  /** The text Python's `str()` gives a number; it is never empty. */
  type NumText = s: string | s != [] witness "0"

  /** A decoded JSON value: None, bool, int or float (its value and its
      `str()` text), str, list, dict. */
  datatype Value =
    | Null
    | Bool(b: bool)
    | Num(n: real, text: NumText)
    | Str(s: string)
    | Arr(items: seq<Value>)
    | Obj(fields: map<string, Value>)

  /** One upstream record: a JSON object. */
  type Row = map<string, Value>

  /** Why one upstream row could not be normalised. */
  datatype RowError =
    | NoStrip(key: string)      // AttributeError: `.strip()` on a value that is not a str
    | NotText(field: string)    // pydantic ValidationError: a str field given a non-str

  /** Python truthiness: None, False, zero and empty containers are false. */
  predicate Truthy(v: Value) {
    match v
    case Null => false
    case Bool(b) => b
    case Num(n, _) => n != 0.0
    case Str(s) => s != []
    case Arr(items) => items != []
    case Obj(fields) => fields != map[]
  }

  /** `row.get(key)`: the value, or None when the key is absent. */
  function Get(row: Row, key: string): Value {
    if key in row then row[key] else Null
  }

  /** Python's `v1 or v2 or ... or vn`: the first truthy operand, else the last. */
  function OrChain(vs: seq<Value>): (r: Value)
    requires vs != []
    ensures Truthy(r) <==> exists i :: 0 <= i < |vs| && Truthy(vs[i])
    ensures !Truthy(r) ==> r == vs[|vs| - 1]
  {
    if |vs| == 1 || Truthy(vs[0]) then vs[0] else OrChain(vs[1..])
  }

  /** The chain picks the first truthy operand. */
  lemma {:induction false} OrChainPicksFirstTruthy(vs: seq<Value>, i: nat)
    requires i < |vs| && Truthy(vs[i])
    requires forall j :: 0 <= j < i ==> !Truthy(vs[j])
    ensures OrChain(vs) == vs[i]
  {
    if i > 0 {
      OrChainPicksFirstTruthy(vs[1..], i - 1);
    }
  }

  /** Python's `str(v)`. Only the empty string gives empty text. The text of a
      non-empty list or dict is a placeholder. */
  function PyStr(v: Value): (r: string)
    ensures r == [] <==> v == Str([])
  {
    match v
    case Null => "None"
    case Bool(b) => if b then "True" else "False"
    case Num(_, text) => text
    case Str(s) => s
    case Arr(items) => if items == [] then "[]" else "[...]"
    case Obj(fields) => if fields == map[] then "{}" else "{...}"
  }

  /** Python's `float(v)`; None is the TypeError or ValueError it raises.
      `parse` is Python's parser of float literals. */
  function ToFloat(v: Value, parse: string -> Option<real>): (r: Option<real>)
    ensures v.Num? ==> r == Some(v.n)
    ensures v.Null? || v.Arr? || v.Obj? ==> r.None?
  {
    match v
    case Null => None
    case Bool(b) => Some(if b then 1.0 else 0.0)
    case Num(n, _) => Some(n)
    case Str(s) => parse(s)
    case Arr(_) => None
    case Obj(_) => None
  }

  /** `(row.get(key) or default).strip()`: fails exactly when the value is
      truthy and not a str. */
  function StripField(row: Row, key: string, default: string): (r: Result<string, RowError>)
    ensures r.Err? <==> Truthy(Get(row, key)) && !Get(row, key).Str?
    ensures r.Ok? && Truthy(Get(row, key)) ==> r.value == Strip(Get(row, key).s)
    ensures r.Ok? && !Truthy(Get(row, key)) ==> r.value == Strip(default)
  {
    var v := Get(row, key);
    if !Truthy(v) then Ok(Strip(default))
    else if v.Str? then Ok(Strip(v.s))
    else Err(NoStrip(key))
  }

  /** `str(a or b or ... or "")`: the text of the first truthy value, else "". */
  function FirstText(row: Row, keys: seq<string>): (r: string)
    ensures r != [] <==> exists i :: 0 <= i < |keys| && Truthy(Get(row, keys[i]))
    ensures forall i :: 0 <= i < |keys| && Truthy(Get(row, keys[i])) &&
                        (forall j :: 0 <= j < i ==> !Truthy(Get(row, keys[j]))) ==>
                          r == PyStr(Get(row, keys[i]))
  {
    var vs := Values(row, keys) + [Str("")];
    assert forall i :: 0 <= i < |keys| ==> vs[i] == Get(row, keys[i]);
    forall i | 0 <= i < |keys| && Truthy(Get(row, keys[i])) &&
               (forall j :: 0 <= j < i ==> !Truthy(Get(row, keys[j])))
      ensures OrChain(vs) == Get(row, keys[i])
    {
      OrChainPicksFirstTruthy(vs, i);
    }
    PyStr(OrChain(vs))
  }

  /** The values of `keys` in `row`, in order. */
  function Values(row: Row, keys: seq<string>): (vs: seq<Value>)
    ensures |vs| == |keys| && forall i :: 0 <= i < |keys| ==> vs[i] == Get(row, keys[i])
  {
    seq(|keys|, i requires 0 <= i < |keys| => Get(row, keys[i]))
  }

  /** `a = float(x); b = float(y)`, both reset to None when either raises. */
  function FloatPair(x: Value, y: Value, parse: string -> Option<real>): (r: (Option<real>, Option<real>))
    ensures r.0.Some? == r.1.Some?
    ensures r.0.Some? <==> ToFloat(x, parse).Some? && ToFloat(y, parse).Some?
    ensures r.0.Some? ==> r.0 == ToFloat(x, parse) && r.1 == ToFloat(y, parse)
  {
    var a := ToFloat(x, parse);
    var b := ToFloat(y, parse);
    if a.Some? && b.Some? then (a, b) else (None, None)
  }


  /** Python's `int(x)` on a float: truncation toward zero. */
  function Trunc(x: real): (i: int)
    ensures x >= 0.0 ==> 0 <= i && i as real <= x < i as real + 1.0
    ensures x < 0.0 ==> i <= 0 && i as real - 1.0 < x <= i as real
  {
    if x >= 0.0 then x.Floor else -((-x).Floor)
  }
}
