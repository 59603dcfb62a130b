/**
 * The dynamic values the type checker inspects: whatever a JSON-like decoder
 * hands back, as a closed datatype, together with Python's `isinstance` test
 * for the three scalar types the checker asks about and the `all(...)` and
 * `dict.keys()` / `dict.values()` views the predicates are built from.
 */
module Values {

  /** A decoded dynamic value. `Bool` is kept apart from `Int` so that
      Python's "bool is a subclass of int" rule can be stated; floats are only
      ever type-tested, so `Float` carries no number. A dict is its list of
      (key, value) entries in insertion order, and its keys are values too,
      so "every key is a str" is a real test. */
  datatype Value =
    | Str(s: string)
    | Int(i: int)
    | Bool(b: bool)
    | Float
    | List(items: seq<Value>)
    | Dict(entries: seq<(Value, Value)>)
    | None

  /** The scalar types the checker passes to `isinstance`. */
  datatype PyType = StrType | IntType | FloatType

  /** `isinstance(v, t)`: a bool is an int, an int is not a float. */
  predicate IsInstance(v: Value, t: PyType): (r: bool)
    ensures v.Int? || v.Bool? ==> (r <==> t == IntType)
    ensures v.Str? ==> (r <==> t == StrType)
    ensures v.Float? ==> (r <==> t == FloatType)
    ensures v.List? || v.Dict? || v.None? ==> !r
  {
    match t
    case StrType => v.Str?
    case IntType => v.Int? || v.Bool?
    case FloatType => v.Float?
  }

  /** Python's `all([p(x) for x in xs])`, evaluated left to right. */
  function All<T>(xs: seq<T>, p: T -> bool): (r: bool)
    ensures r <==> forall i :: 0 <= i < |xs| ==> p(xs[i])
  {
    if xs == [] then true else p(xs[0]) && All(xs[1..], p)
  }

  /** `list(d.keys())` for a dict given by its entries. */
  function DictKeys(entries: seq<(Value, Value)>): (ks: seq<Value>)
    ensures |ks| == |entries|
    ensures forall i :: 0 <= i < |entries| ==> ks[i] == entries[i].0
  {
    if entries == [] then [] else [entries[0].0] + DictKeys(entries[1..])
  }

  /** `list(d.values())` for a dict given by its entries. */
  function DictValues(entries: seq<(Value, Value)>): (vs: seq<Value>)
    ensures |vs| == |entries|
    ensures forall i :: 0 <= i < |entries| ==> vs[i] == entries[i].1
  {
    if entries == [] then [] else [entries[0].1] + DictValues(entries[1..])
  }
}
