/**
 * A parsed JSON document, as Python's `json.load` returns it in
 * Scripts/tests/test_analyze.py: `None`, `bool`, `int`, `float`, `str`,
 * `list` or `dict`.  Numbers are exact reals here; the floating-point
 * rounding, NaN and infinities of Python floats are not modelled.
 */
module JsonValue {

  datatype Json =
    | Null
    | Bool(b: bool)
    | Int(i: int)
    | Float(x: real)
    | Str(s: string)
    | Arr(items: seq<Json>)
    | Obj(fields: map<string, Json>)

  /** The Python class `type(j)` answers for a loaded document. */
  datatype PyType = NoneType | BoolType | IntType | FloatType | StrType | ListType | DictType

  function TypeOf(j: Json): PyType
  {
    match j
    case Null => NoneType
    case Bool(_) => BoolType
    case Int(_) => IntType
    case Float(_) => FloatType
    case Str(_) => StrType
    case Arr(_) => ListType
    case Obj(_) => DictType
  }

  /** A list or a dict: the only documents whose contents the comparator inspects. */
  predicate IsContainer(j: Json)
  {
    j.Arr? || j.Obj?
  }

  lemma SameTypeSameShape(a: Json, b: Json)
    requires TypeOf(a) == TypeOf(b)
    ensures a.Arr? <==> b.Arr?
    ensures a.Obj? <==> b.Obj?
    ensures IsContainer(a) <==> IsContainer(b)
  {
  }
}
