/** Untyped values as they arrive from JSON (Actor input, generated text,
    dataset items), and the conversions the program applies to them: the
    Python builtins `str()`, `int()`, `float()` and `bool()`, and pydantic's
    lax field validation. Conversions whose result depends on parsing text
    or on formatting floats are not modelled; they are abstract functions
    collected in `Coercions`. */
module Values {
  import opened Wrappers
  import Text

  datatype Json =
    | JNull
    | JBool(b: bool)
    | JInt(i: int)
    | JFloat(r: real)
    | JStr(s: string)
    | JArr(elems: seq<Json>)
    | JObj(fields: map<string, Json>)

  /** The conversions that parse or print text, supplied from outside.
      `None` stands for a raised `ValueError`/`TypeError`/validation error. */
  datatype Coercions = Coercions(
    /** Python `str(v)` of a float, list or object. */
    reprOf: Json -> string,
    /** Python `int(s)` of a string. */
    intOfText: string -> Option<int>,
    /** Python `float(s)` of a string. */
    floatOfText: string -> Option<real>,
    /** pydantic lax `int` validation of a bool, float or string. */
    laxInt: Json -> Option<int>,
    /** pydantic lax `float` validation of a bool or string. */
    laxFloat: Json -> Option<real>,
    /** pydantic lax `bool` validation of a number or string. */
    laxBool: Json -> Option<bool>)

  /** Python's `bool(v)` (truthiness). */
  predicate Truthy(v: Json) {
    match v
    case JNull => false
    case JBool(b) => b
    case JInt(i) => i != 0
    case JFloat(r) => r != 0.0
    case JStr(s) => s != ""
    case JArr(xs) => xs != []
    case JObj(m) => m != map[]
  }

  /** Python's `dict.get(key, default)`. */
  function Get(m: map<string, Json>, key: string, default: Json): (r: Json)
    ensures key in m ==> r == m[key]
    ensures key !in m ==> r == default
  {
    if key in m then m[key] else default
  }

  /** `int(x)` truncated toward zero, as Python's `int(float)` does. */
  function TruncateTowardZero(x: real): (r: int)
    ensures 0.0 <= x ==> r as real <= x < r as real + 1.0
    ensures x < 0.0 ==> r as real - 1.0 < x <= r as real
  {
    if x >= 0.0 then x.Floor else -((-x).Floor)
  }

  /** Python's `str(v)`; never raises. */
  function PyStr(c: Coercions, v: Json): (r: string)
    ensures v.JStr? ==> r == v.s
    ensures v.JInt? ==> r == Text.IntToDecimal(v.i)
    ensures v.JBool? ==> r == if v.b then "True" else "False"
    ensures v.JNull? ==> r == "None"
  {
    match v
    case JStr(s) => s
    case JInt(i) => Text.IntToDecimal(i)
    case JBool(b) => if b then "True" else "False"
    case JNull => "None"
    case _ => c.reprOf(v)
  }

  /** Python's `int(v)`; `None` when it raises. */
  function PyInt(c: Coercions, v: Json): (r: Option<int>)
    ensures v.JNull? || v.JArr? || v.JObj? ==> r == None
    ensures v.JInt? ==> r == Some(v.i)
    ensures v.JBool? ==> r == Some(if v.b then 1 else 0)
    ensures v.JFloat? ==> r == Some(TruncateTowardZero(v.r))
  {
    match v
    case JInt(i) => Some(i)
    case JBool(b) => Some(if b then 1 else 0)
    case JFloat(x) => Some(TruncateTowardZero(x))
    case JStr(s) => c.intOfText(s)
    case _ => None
  }

  /** Python's `float(v)`; `None` when it raises. */
  function PyFloat(c: Coercions, v: Json): (r: Option<real>)
    ensures v.JNull? || v.JArr? || v.JObj? ==> r == None
    ensures v.JInt? ==> r == Some(v.i as real)
    ensures v.JFloat? ==> r == Some(v.r)
  {
    match v
    case JInt(i) => Some(i as real)
    case JBool(b) => Some(if b then 1.0 else 0.0)
    case JFloat(x) => Some(x)
    case JStr(s) => c.floatOfText(s)
    case _ => None
  }

  /** pydantic validation of an `int` field. */
  function FieldInt(c: Coercions, v: Json): (r: Option<int>)
    ensures v.JInt? ==> r == Some(v.i)
    ensures v.JNull? || v.JArr? || v.JObj? ==> r == None
  {
    match v
    case JInt(i) => Some(i)
    case JNull => None
    case JArr(_) => None
    case JObj(_) => None
    case _ => c.laxInt(v)
  }

  /** pydantic validation of a `float` field. */
  function FieldFloat(c: Coercions, v: Json): (r: Option<real>)
    ensures v.JInt? ==> r == Some(v.i as real)
    ensures v.JFloat? ==> r == Some(v.r)
    ensures v.JNull? || v.JArr? || v.JObj? ==> r == None
  {
    match v
    case JInt(i) => Some(i as real)
    case JFloat(x) => Some(x)
    case JNull => None
    case JArr(_) => None
    case JObj(_) => None
    case _ => c.laxFloat(v)
  }

  /** pydantic validation of a `float | None` field: `Some(None)` for null. */
  function FieldOptFloat(c: Coercions, v: Json): (r: Option<Option<real>>)
    ensures v.JNull? <==> r == Some(None)
    ensures v.JInt? ==> r == Some(Some(v.i as real))
    ensures v.JFloat? ==> r == Some(Some(v.r))
    ensures v.JArr? || v.JObj? ==> r == None
  {
    if v.JNull? then Some(None)
    else match FieldFloat(c, v)
      case Some(x) => Some(Some(x))
      case None => None
  }

  /** pydantic validation of a `str` field: only strings are accepted. */
  function FieldStr(v: Json): (r: Option<string>)
    ensures r.Some? <==> v.JStr?
    ensures r.Some? ==> v == JStr(r.value)
  {
    if v.JStr? then Some(v.s) else None
  }

  /** pydantic validation of a `str | None` field. */
  function FieldOptStr(v: Json): (r: Option<Option<string>>)
    ensures r.Some? <==> v.JStr? || v.JNull?
    ensures v.JStr? ==> r == Some(Some(v.s))
    ensures v.JNull? ==> r == Some(None)
  {
    match v
    case JNull => Some(None)
    case JStr(s) => Some(Some(s))
    case _ => None
  }

  /** pydantic validation of a `bool` field. */
  function FieldBool(c: Coercions, v: Json): (r: Option<bool>)
    ensures v.JBool? ==> r == Some(v.b)
    ensures v.JNull? || v.JArr? || v.JObj? ==> r == None
  {
    match v
    case JBool(b) => Some(b)
    case JNull => None
    case JArr(_) => None
    case JObj(_) => None
    case _ => c.laxBool(v)
  }

  /** pydantic validation of a `list[str]` field: an array of strings. */
  function FieldStrList(v: Json): (r: Option<seq<string>>)
    ensures r.Some? <==> v.JArr? && forall k :: 0 <= k < |v.elems| ==> v.elems[k].JStr?
    ensures r.Some? ==> |r.value| == |v.elems|
    ensures r.Some? ==> forall k :: 0 <= k < |v.elems| ==> r.value[k] == v.elems[k].s
  {
    if v.JArr? then StrList(v.elems) else None
  }

  function StrList(xs: seq<Json>): (r: Option<seq<string>>)
    ensures r.Some? <==> forall k :: 0 <= k < |xs| ==> xs[k].JStr?
    ensures r.Some? ==> |r.value| == |xs| && forall k :: 0 <= k < |xs| ==> r.value[k] == xs[k].s
  {
    if |xs| == 0 then Some([])
    else if !xs[0].JStr? then None
    else match StrList(xs[1..])
      case None => None
      case Some(rest) => Some([xs[0].s] + rest)
  }
}
