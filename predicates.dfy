/**
 * The shape predicates of long_term_uc/utils/type_checker.py: total boolean
 * tests over a dynamic value. Each is written the way the source computes
 * it (an `isinstance` guard, then `all` over a list built from the value),
 * and its postcondition says what it accepts element by element.
 */
module Predicates {
  import opened Values

  // ---------------------------------------------------------------------
  // Scalars

  function CheckStr(v: Value): (r: bool)
    ensures r <==> v.Str?
  {
    IsInstance(v, StrType)
  }

  /** An int, or a bool, which Python counts as an int. */
  function CheckInt(v: Value): (r: bool)
    ensures r <==> v.Int? || v.Bool?
  {
    IsInstance(v, IntType)
  }

  // ---------------------------------------------------------------------
  // Homogeneous lists

  function CheckListOfGivenType(v: Value, t: PyType): (r: bool)
    ensures !v.List? ==> !r
    ensures v.List? ==> (r <==> forall i :: 0 <= i < |v.items| ==> IsInstance(v.items[i], t))
  {
    if !v.List? then false
    else All(v.items, (x: Value) => IsInstance(x, t))
  }

  function CheckListOfStr(v: Value): (r: bool)
    ensures r <==> v.List? && forall i :: 0 <= i < |v.items| ==> v.items[i].Str?
  {
    CheckListOfGivenType(v, StrType)
  }

  function CheckListOfInt(v: Value): (r: bool)
    ensures r <==> v.List? && forall i :: 0 <= i < |v.items| ==> v.items[i].Int? || v.items[i].Bool?
  {
    CheckListOfGivenType(v, IntType)
  }

  function CheckListOfFloat(v: Value): (r: bool)
    ensures r <==> v.List? && forall i :: 0 <= i < |v.items| ==> v.items[i].Float?
  {
    CheckListOfGivenType(v, FloatType)
  }

  /** The one optional shape: `None`, or else exactly a list of str. */
  function CheckNoneOrListOfStr(v: Value): (r: bool)
    ensures r <==> v.None? || (v.List? && forall i :: 0 <= i < |v.items| ==> v.items[i].Str?)
  {
    if v.None? then true else CheckListOfStr(v)
  }

  // ---------------------------------------------------------------------
  // Dicts

  /** Keys and values are pooled into one list and all of it must be str. */
  function CheckStrStrDict(v: Value): (r: bool)
    ensures r <==> v.Dict? && forall i :: 0 <= i < |v.entries| ==>
      v.entries[i].0.Str? && v.entries[i].1.Str?
  {
    if !v.Dict? then false
    else
      var keysAndVals := DictKeys(v.entries) + DictValues(v.entries);
      var r := All(keysAndVals, (x: Value) => IsInstance(x, StrType));
      assert r ==> forall i :: 0 <= i < |v.entries| ==> v.entries[i].0.Str? && v.entries[i].1.Str? by {
        if r {
          forall i | 0 <= i < |v.entries|
            ensures v.entries[i].0.Str? && v.entries[i].1.Str?
          {
            assert keysAndVals[i] == v.entries[i].0;
            assert keysAndVals[|v.entries| + i] == v.entries[i].1;
          }
        }
      }
      r
  }

  function CheckStrListOfStrDict(v: Value): (r: bool)
    ensures r <==> v.Dict? && forall i :: 0 <= i < |v.entries| ==>
      v.entries[i].0.Str? && CheckListOfStr(v.entries[i].1)
  {
    if !v.Dict? then false
    else CheckListOfStr(List(DictKeys(v.entries))) && All(DictValues(v.entries), CheckListOfStr)
  }

  function CheckStrListOfFloatDict(v: Value): (r: bool)
    ensures r <==> v.Dict? && forall i :: 0 <= i < |v.entries| ==>
      v.entries[i].0.Str? && CheckListOfFloat(v.entries[i].1)
  {
    if !v.Dict? then false
    else CheckListOfStr(List(DictKeys(v.entries))) && All(DictValues(v.entries), CheckListOfFloat)
  }

  /** `{str: dict}`: each value need only be a dict; what is inside it is not looked at. */
  function CheckStrDictDict(v: Value): (r: bool)
    ensures r <==> v.Dict? && forall i :: 0 <= i < |v.entries| ==>
      v.entries[i].0.Str? && v.entries[i].1.Dict?
  {
    if !v.Dict? then false
    else CheckListOfStr(List(DictKeys(v.entries))) && All(DictValues(v.entries), (x: Value) => x.Dict?)
  }

  /** `{str: {str: str}}`, checked pair by pair over `items()`. */
  function CheckThreeLevelStrDict(v: Value): (r: bool)
    ensures r <==> v.Dict? && forall i :: 0 <= i < |v.entries| ==>
      v.entries[i].0.Str? && CheckStrStrDict(v.entries[i].1)
  {
    if !v.Dict? then false
    else All(v.entries, (kv: (Value, Value)) => IsInstance(kv.0, StrType) && CheckStrStrDict(kv.1))
  }

  /** `{str: {str: [str]}}`. */
  function CheckStrStrListOfStrDict(v: Value): (r: bool)
    ensures r <==> v.Dict? && forall i :: 0 <= i < |v.entries| ==>
      v.entries[i].0.Str? && CheckStrListOfStrDict(v.entries[i].1)
  {
    if !v.Dict? then false
    else CheckListOfStr(List(DictKeys(v.entries))) && All(DictValues(v.entries), CheckStrListOfStrDict)
  }

  // ---------------------------------------------------------------------
  // Properties

  /** A homogeneous-list check splits over list concatenation, so the empty
      list is accepted and one bad element anywhere rejects the whole list. */
  lemma {:induction false} ListOfGivenTypeAppend(a: seq<Value>, b: seq<Value>, t: PyType)
    ensures CheckListOfGivenType(List(a + b), t) <==>
      CheckListOfGivenType(List(a), t) && CheckListOfGivenType(List(b), t)
    ensures CheckListOfGivenType(List([]), t)
  {
    var ab := a + b;
    if CheckListOfGivenType(List(a), t) && CheckListOfGivenType(List(b), t) {
      forall i | 0 <= i < |ab| ensures IsInstance(ab[i], t) {
        if i < |a| { assert ab[i] == a[i]; } else { assert ab[i] == b[i - |a|]; }
      }
    }
    if CheckListOfGivenType(List(ab), t) {
      forall i | 0 <= i < |a| ensures IsInstance(a[i], t) { assert ab[i] == a[i]; }
      forall i | 0 <= i < |b| ensures IsInstance(b[i], t) { assert ab[|a| + i] == b[i]; }
    }
  }

  /** Python's class hierarchy as the checks see it: a bool passes the int
      checks, an int fails the float check, and there is no coercion between
      str and int. */
  lemma IsInstanceHierarchy(b: bool, n: int)
    ensures CheckInt(Bool(b)) && CheckListOfInt(List([Bool(b), Int(n)]))
    ensures !CheckListOfFloat(List([Int(n)])) && CheckListOfFloat(List([Float]))
    ensures !CheckInt(Str("3")) && !CheckStr(Int(3))
  {
    assert List([Int(n)]).items[0] == Int(n);
  }

  /** Every list check accepts `[]` and every dict check accepts `{}`. */
  lemma VacuousTruth()
    ensures CheckListOfStr(List([])) && CheckListOfInt(List([])) && CheckListOfFloat(List([]))
    ensures CheckNoneOrListOfStr(List([]))
    ensures CheckStrStrDict(Dict([])) && CheckStrListOfStrDict(Dict([]))
    ensures CheckStrListOfFloatDict(Dict([])) && CheckStrDictDict(Dict([]))
    ensures CheckThreeLevelStrDict(Dict([])) && CheckStrStrListOfStrDict(Dict([]))
  {
  }

  /** `None` passes the optional check, a list of ints does not. */
  lemma NoneHandling()
    ensures CheckNoneOrListOfStr(None)
    ensures !CheckNoneOrListOfStr(List([Int(1), Int(2)]))
    ensures !CheckListOfStr(None)
  {
    assert List([Int(1), Int(2)]).items[0] == Int(1);
  }

  /** `{"a": {"x": 1}, "b": {}}` is a `{str: dict}`; `{"a": 5}` is not. */
  lemma StrDictDictExamples()
    ensures CheckStrDictDict(Dict([(Str("a"), Dict([(Str("x"), Int(1))])), (Str("b"), Dict([]))]))
    ensures !CheckStrDictDict(Dict([(Str("a"), Int(5))]))
  {
    var bad := Dict([(Str("a"), Int(5))]);
    assert bad.entries[0].1 == Int(5);
  }

  /** `{str: dict}` does not look inside its inner dicts: replacing one inner
      dict by any other dict never changes the verdict. */
  lemma StrDictDictIgnoresInnerContents(entries: seq<(Value, Value)>, i: nat, inner: seq<(Value, Value)>)
    requires i < |entries| && entries[i].1.Dict?
    ensures CheckStrDictDict(Dict(entries[i := (entries[i].0, Dict(inner))])) == CheckStrDictDict(Dict(entries))
  {
    var e' := entries[i := (entries[i].0, Dict(inner))];
    if CheckStrDictDict(Dict(entries)) {
      forall j | 0 <= j < |e'| ensures e'[j].0.Str? && e'[j].1.Dict? {
        if j != i { assert e'[j] == entries[j]; }
      }
    }
    if CheckStrDictDict(Dict(e')) {
      forall j | 0 <= j < |entries| ensures entries[j].0.Str? && entries[j].1.Dict? {
        if j != i { assert e'[j] == entries[j]; } else { assert e'[j].0 == entries[j].0; }
      }
    }
  }

  /** Both two-level checks are refinements of `{str: dict}`. */
  lemma TwoLevelDictsAreStrDictDicts(v: Value)
    ensures CheckThreeLevelStrDict(v) ==> CheckStrDictDict(v)
    ensures CheckStrStrListOfStrDict(v) ==> CheckStrDictDict(v)
  {
  }

  /** The `items()` formulation of `{str: {str: str}}` agrees with the
      keys-then-values formulation the other dict checks use. */
  lemma ThreeLevelByKeysAndValues(v: Value)
    requires v.Dict?
    ensures CheckThreeLevelStrDict(v) <==>
      CheckListOfStr(List(DictKeys(v.entries))) && All(DictValues(v.entries), CheckStrStrDict)
  {
  }
}
