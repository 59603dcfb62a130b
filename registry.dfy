/**
 * The type-tag registry `CHECK_FUNCTIONS` and the dispatcher
 * `apply_data_type_check`. A tag is a string; the registry maps each known
 * tag to the shape whose predicate implements it, or to the "undefined"
 * placeholder the source guards against. The dispatcher's two fatal paths
 * (`logging.error` then `sys.exit(1)`) become an `Abort` outcome.
 */
module Registry {
  import opened Values
  import opened Predicates

  /** The shapes the registry knows, one per registered predicate. */
  datatype Shape =
    | StrShape
    | IntShape
    | ListOfIntShape
    | ListOfStrShape
    | NoneOrListOfStrShape
    | StrDictDictShape
    | StrListOfFloatDictShape
    | StrListOfStrDictShape
    | StrStrDictShape
    | StrStrListOfStrDictShape
    | ThreeLevelStrDictShape

  /** Calling the predicate registered for a shape. Which shapes accept a
      value depends first on its kind: a scalar passes only its own scalar
      shape (a bool the int shape), `None` only the optional shape, a bare
      float none of them. */
  function Conforms(s: Shape, v: Value): (r: bool)
    ensures v.Str? ==> (r <==> s == StrShape)
    ensures v.Int? || v.Bool? ==> (r <==> s == IntShape)
    ensures v.Float? ==> !r
    ensures v.None? ==> (r <==> s == NoneOrListOfStrShape)
    ensures v.List? && r ==> s in {ListOfIntShape, ListOfStrShape, NoneOrListOfStrShape}
    ensures v.List? && v.items == [] ==> (r <==> s in {ListOfIntShape, ListOfStrShape, NoneOrListOfStrShape})
    ensures v.Dict? && r ==> s !in {StrShape, IntShape, ListOfIntShape, ListOfStrShape, NoneOrListOfStrShape}
    ensures v.Dict? && v.entries == [] ==> (r <==> s !in {StrShape, IntShape, ListOfIntShape, ListOfStrShape, NoneOrListOfStrShape})
  {
    match s
    case StrShape => CheckStr(v)
    case IntShape => CheckInt(v)
    case ListOfIntShape => CheckListOfInt(v)
    case ListOfStrShape => CheckListOfStr(v)
    case NoneOrListOfStrShape => CheckNoneOrListOfStr(v)
    case StrDictDictShape => CheckStrDictDict(v)
    case StrListOfFloatDictShape => CheckStrListOfFloatDict(v)
    case StrListOfStrDictShape => CheckStrListOfStrDict(v)
    case StrStrDictShape => CheckStrStrDict(v)
    case StrStrListOfStrDictShape => CheckStrStrListOfStrDict(v)
    case ThreeLevelStrDictShape => CheckThreeLevelStrDict(v)
  }

  /** The public tag under which callers declare each shape. */
  function TagName(s: Shape): (r: string)
  {
    match s
    case StrShape => "str"
    case IntShape => "int"
    case ListOfIntShape => "list_of_int"
    case ListOfStrShape => "list_of_str"
    case NoneOrListOfStrShape => "none_or_list_of_str"
    case StrDictDictShape => "dict_str_dict"
    case StrListOfFloatDictShape => "dict_str_list_of_float"
    case StrListOfStrDictShape => "dict_str_list_of_str"
    case StrStrDictShape => "dict_str_str"
    case StrStrListOfStrDictShape => "two_level_dict_str_str_list-of-str"
    case ThreeLevelStrDictShape => "two_level_dict_str_str_str"
  }

  /** A registry entry: a predicate, or the `None` placeholder. */
  datatype Entry = Defined(shape: Shape) | Undefined

  /** `CHECK_FUNCTIONS`, fixed once and for all. */
  const CheckFunctions: map<string, Entry> := map[
    "str" := Defined(StrShape),
    "int" := Defined(IntShape),
    "list_of_int" := Defined(ListOfIntShape),
    "list_of_str" := Defined(ListOfStrShape),
    "none_or_list_of_str" := Defined(NoneOrListOfStrShape),
    "dict_str_dict" := Defined(StrDictDictShape),
    "dict_str_list_of_float" := Defined(StrListOfFloatDictShape),
    "dict_str_list_of_str" := Defined(StrListOfStrDictShape),
    "dict_str_str" := Defined(StrStrDictShape),
    "two_level_dict_str_str_list-of-str" := Defined(StrStrListOfStrDictShape),
    "two_level_dict_str_str_str" := Defined(ThreeLevelStrDictShape)
  ]

  /** Why the dispatcher stops the process. */
  datatype AbortReason = UnknownDataType | UndefinedCheckFunction

  /** What a dispatch produces: the predicate's verdict, or the exit path. */
  datatype Outcome = Checked(ok: bool) | Abort(reason: AbortReason)

  /** The dispatcher over any registry: an unknown tag aborts first, then an
      undefined entry aborts, and otherwise the predicate's result is
      returned unchanged. */
  function ApplyCheckWith(registry: map<string, Entry>, tag: string, v: Value): (r: Outcome)
    ensures tag !in registry <==> r == Abort(UnknownDataType)
    ensures r == Abort(UndefinedCheckFunction) <==> tag in registry && registry[tag] == Undefined
    ensures r.Checked? ==> tag in registry && registry[tag].Defined? && r.ok == Conforms(registry[tag].shape, v)
  {
    if tag !in registry then Abort(UnknownDataType)
    else if registry[tag].Undefined? then Abort(UndefinedCheckFunction)
    else Checked(Conforms(registry[tag].shape, v))
  }

  /** `apply_data_type_check`: the dispatcher over `CHECK_FUNCTIONS`. A tag
      aborts exactly when it names no shape, and a shape's own tag runs that
      shape's predicate. */
  function ApplyDataTypeCheck(tag: string, v: Value): (r: Outcome)
    ensures r.Abort? <==> tag !in CheckFunctions
    ensures r.Abort? <==> forall s: Shape :: TagName(s) != tag
    ensures r.Abort? ==> r.reason == UnknownDataType
    ensures forall s: Shape :: TagName(s) == tag ==> r == Checked(Conforms(s, v))
  {
    RegistryIsTagNames();
    ApplyCheckWith(CheckFunctions, tag, v)
  }

  /** The registry holds exactly the shapes' tags, each bound to its own
      shape, and no undefined placeholder. */
  lemma RegistryIsTagNames()
    ensures forall s: Shape :: TagName(s) in CheckFunctions && CheckFunctions[TagName(s)] == Defined(s)
    ensures forall tag :: tag in CheckFunctions ==>
      CheckFunctions[tag].Defined? && TagName(CheckFunctions[tag].shape) == tag
  {
  }

  /** Different shapes are declared under different tags. */
  lemma TagNameInjective(s: Shape, s': Shape)
    requires TagName(s) == TagName(s')
    ensures s == s'
  {
    RegistryIsTagNames();
  }

  /** Dispatch through the registry agrees, tag by tag, with calling the
      corresponding predicate of the source directly. */
  lemma DispatchTable(v: Value)
    ensures ApplyDataTypeCheck("str", v) == Checked(CheckStr(v))
    ensures ApplyDataTypeCheck("int", v) == Checked(CheckInt(v))
    ensures ApplyDataTypeCheck("list_of_int", v) == Checked(CheckListOfInt(v))
    ensures ApplyDataTypeCheck("list_of_str", v) == Checked(CheckListOfStr(v))
    ensures ApplyDataTypeCheck("none_or_list_of_str", v) == Checked(CheckNoneOrListOfStr(v))
    ensures ApplyDataTypeCheck("dict_str_dict", v) == Checked(CheckStrDictDict(v))
    ensures ApplyDataTypeCheck("dict_str_list_of_float", v) == Checked(CheckStrListOfFloatDict(v))
    ensures ApplyDataTypeCheck("dict_str_list_of_str", v) == Checked(CheckStrListOfStrDict(v))
    ensures ApplyDataTypeCheck("dict_str_str", v) == Checked(CheckStrStrDict(v))
    ensures ApplyDataTypeCheck("two_level_dict_str_str_list-of-str", v) == Checked(CheckStrStrListOfStrDict(v))
    ensures ApplyDataTypeCheck("two_level_dict_str_str_str", v) == Checked(CheckThreeLevelStrDict(v))
  {
    assert TagName(StrShape) == "str" && TagName(IntShape) == "int";
    assert TagName(ListOfIntShape) == "list_of_int" && TagName(ListOfStrShape) == "list_of_str";
    assert TagName(NoneOrListOfStrShape) == "none_or_list_of_str";
    assert TagName(StrDictDictShape) == "dict_str_dict";
    assert TagName(StrListOfFloatDictShape) == "dict_str_list_of_float";
    assert TagName(StrListOfStrDictShape) == "dict_str_list_of_str";
    assert TagName(StrStrDictShape) == "dict_str_str";
    assert TagName(StrStrListOfStrDictShape) == "two_level_dict_str_str_list-of-str";
    assert TagName(ThreeLevelStrDictShape) == "two_level_dict_str_str_str";
  }

  /** An unregistered tag, such as a float tag the registry never had, takes
      the exit path whatever the value. */
  lemma UnknownTagAborts(v: Value)
    ensures ApplyDataTypeCheck("list_of_float", v) == Abort(UnknownDataType)
    ensures ApplyDataTypeCheck("", v) == Abort(UnknownDataType)
  {
  }
}
