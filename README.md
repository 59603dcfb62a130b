# Runtime type checker for decoded JSON parameters

This project models `long_term_uc/utils/type_checker.py` in Dafny. That module validates the shape of values decoded from JSON-like data, in three layers:

- **Shape predicates** (`check_str`, `check_int`, `check_list_of_*`, `check_none_or_list_of_str` and the dict checks). Each is a total boolean test on a dynamic value, built from `isinstance` and `all(...)`.
- **The registry and dispatcher.** `CHECK_FUNCTIONS` maps a type tag such as `"dict_str_str"` to a predicate. `apply_data_type_check` looks a tag up and applies its predicate. It stops the process when the tag is unknown or its entry is `None`.
- **The record checker.** `apply_params_type_check` walks a declaration of `(field, tag)` items in insertion order. It checks only the fields the record has and collects the names of those that fail. It calls the error sink `print_errors_list` once when that list is non-empty.

Files:

- `values.dfy` (module `Values`): the value datatype `Str | Int | Bool | Float | List | Dict | None`, Python's `isinstance` for `str`/`int`/`float`, the `all(...)` combinator, and the `keys()`/`values()` views of a dict.
  - A dict is its sequence of (key, value) entries, and keys are values too, so "every key is a str" is a real test.
  - `Bool` is kept apart from `Int` because in Python a `bool` is an `int`. So `Bool` passes the int checks, while an `Int` fails the float check.
- `predicates.dfy` (module `Predicates`): every `check_*` function, each computed the way the source computes it. Each postcondition states, element by element, what the check accepts. The lemmas after them state the properties in the Model table below.
- `registry.dfy` (module `Registry`):
  - a `Shape` enumeration with one variant per registered predicate;
  - `TagName`, the tag each shape is declared under;
  - the constant `CheckFunctions`, mirroring `CHECK_FUNCTIONS`;
  - the dispatcher, whose result is `Checked(ok)` or `Abort(reason)`.
- `params_check.dfy` (module `ParamsCheck`): the record checker.
  - The method `ApplyParamsTypeCheck` has the source's loop.
  - `ScanDeclaration` specifies that loop over declaration prefixes.
  - `FailingFields` is an independent front-to-back filter that the loop's result is proved equal to.

`sys.exit` is modelled as the `Exit` result of the record checker, which ends the walk. The error sink is modelled as the list of reports the checker returns: zero or one `ErrorReport(label, fields)`.

In Python `bool` is a subclass of `int`, so `isinstance(True, int)` holds. `CheckInt` and `CheckListOfInt` therefore accept `Bool` (lemma `IsInstanceHierarchy`).

## Model

| member | source | states |
|---|---|---|
| Values.All | long_term_uc/utils/type_checker.py:21 | `all([...])` over a list is true iff the predicate holds at every index (so it is true on `[]`) |
| Values.DictKeys | long_term_uc/utils/type_checker.py:54 | `list(d.keys())` has one entry per dict item, and entry i is item i's key |
| Values.IsInstance | long_term_uc/utils/type_checker.py:9-33 | `isinstance` for the three scalar types: a str is only a str, an int or a bool is only an int, a float is only a float, and lists, dicts and `None` are none of them |
| Values.DictValues | long_term_uc/utils/type_checker.py:55 | `list(d.values())` has one entry per dict item, and entry i is item i's value |
| Predicates.CheckStr | long_term_uc/utils/type_checker.py:9-10 | accepts exactly str values |
| Predicates.CheckInt | long_term_uc/utils/type_checker.py:13-14 | accepts exactly ints and bools (bool is a subclass of int) |
| Predicates.CheckListOfGivenType | long_term_uc/utils/type_checker.py:18-21 | false on every non-list; on a list, true iff every element is an instance of the needed type |
| Predicates.CheckListOfStr | long_term_uc/utils/type_checker.py:24-25 | true iff the value is a list whose elements are all str |
| Predicates.CheckListOfInt | long_term_uc/utils/type_checker.py:28-29 | true iff the value is a list whose elements are all int or bool |
| Predicates.CheckListOfFloat | long_term_uc/utils/type_checker.py:32-33 | true iff the value is a list whose elements are all float (an int element fails) |
| Predicates.CheckNoneOrListOfStr | long_term_uc/utils/type_checker.py:36-39 | true iff the value is `None` or a list of str |
| Predicates.CheckStrStrDict | long_term_uc/utils/type_checker.py:43-48 | pooling keys and values into one list: true iff the value is a dict and every key and every value is str |
| Predicates.CheckStrListOfStrDict | long_term_uc/utils/type_checker.py:51-57 | true iff a dict with all keys str and every value a list of str |
| Predicates.CheckStrListOfFloatDict | long_term_uc/utils/type_checker.py:60-66 | true iff a dict with all keys str and every value a list of float |
| Predicates.CheckStrDictDict | long_term_uc/utils/type_checker.py:69-77 | true iff a dict with all keys str and every value a dict, without looking inside the inner dicts |
| Predicates.CheckThreeLevelStrDict | long_term_uc/utils/type_checker.py:80-83 | iterating `items()`: true iff a dict with all keys str and every value a `{str: str}` dict |
| Predicates.CheckStrStrListOfStrDict | long_term_uc/utils/type_checker.py:86-92 | true iff a dict with all keys str and every value a `{str: [str]}` dict |
| Predicates.ListOfGivenTypeAppend | long_term_uc/utils/type_checker.py:18-21 | a list check splits over concatenation, so one bad element anywhere rejects the list; the empty list is accepted |
| Predicates.IsInstanceHierarchy | long_term_uc/utils/type_checker.py:13-14 | a bool passes `check_int` and `check_list_of_int`; an int fails `check_list_of_float`; no str/int coercion |
| Predicates.VacuousTruth | long_term_uc/utils/type_checker.py:18-92 | every list check accepts `[]` and every dict check accepts `{}` |
| Predicates.NoneHandling | long_term_uc/utils/type_checker.py:36-39 | `None` passes the optional check, `[1, 2]` fails it, and `None` fails the plain list-of-str check |
| Predicates.StrDictDictExamples | long_term_uc/utils/type_checker.py:69-77 | `{"a": {"x": 1}, "b": {}}` is accepted and `{"a": 5}` is rejected |
| Predicates.StrDictDictIgnoresInnerContents | long_term_uc/utils/type_checker.py:77 | replacing one inner dict by any other dict never changes the `{str: dict}` verdict |
| Predicates.TwoLevelDictsAreStrDictDicts | long_term_uc/utils/type_checker.py:69-92 | every value accepted by either two-level check is accepted by `check_str_dict_dict` |
| Predicates.ThreeLevelByKeysAndValues | long_term_uc/utils/type_checker.py:80-83 | the `items()` form of the `{str: {str: str}}` check agrees with the keys-then-values form the other dict checks use |
| Registry.Conforms | long_term_uc/utils/type_checker.py:108-119 | the predicate each registry entry calls; by value kind: a str passes only the str shape, an int or bool only the int shape, `None` only the optional shape, a bare float none; a list passes only list shapes (an empty one all three), a dict only dict shapes (an empty one all six) |
| Registry.TagName | long_term_uc/utils/type_checker.py:108-119 | the key each entry is registered under; its properties are stated by `RegistryIsTagNames` and `TagNameInjective` |
| Registry.ApplyCheckWith | long_term_uc/utils/type_checker.py:96-103 | over any registry: an unknown tag aborts first, then a `None` entry aborts, and otherwise the registered predicate's result is returned unchanged |
| Registry.ApplyDataTypeCheck | long_term_uc/utils/type_checker.py:96-103 | over `CHECK_FUNCTIONS`: aborts iff the tag is not registered, which is iff it names no shape, and only for an unknown type; a shape's own tag returns that shape's predicate |
| Registry.RegistryIsTagNames | long_term_uc/utils/type_checker.py:108-119 | the constant `CheckFunctions` (the `CHECK_FUNCTIONS` dict) has exactly the shapes' tags as keys, each bound to its own shape, with no `None` entry |
| Registry.TagNameInjective | long_term_uc/utils/type_checker.py:108-119 | no two shapes share a tag |
| Registry.DispatchTable | long_term_uc/utils/type_checker.py:108-119 | dispatch on each of the eleven tags equals calling the predicate the source registers for it |
| Registry.UnknownTagAborts | long_term_uc/utils/type_checker.py:97-99 | unregistered tags, such as `"list_of_float"` or `""`, take the exit path whatever the value |
| ParamsCheck.ErrorName | long_term_uc/utils/type_checker.py:130 | the sink's label is the parameter name followed by the same text for every name, `" JSON data with erroneous types"` (31 characters) |
| ParamsCheck.Advance | long_term_uc/utils/type_checker.py:124-128 | one loop step: after an exit or on an absent field nothing changes; it exits exactly on a present field with an unregistered tag, with that tag; otherwise the list grows by at most that field |
| ParamsCheck.ScanDeclaration | long_term_uc/utils/type_checker.py:123-128 | the loop over a declaration prefix: an exit is always for an unregistered tag; the failure list is no longer than the declaration and names only fields the record has |
| ParamsCheck.RunOf | long_term_uc/utils/type_checker.py:129-131 | after the loop: exit iff the walk exited, with its tag; otherwise at most one sink call, made iff the failure list is non-empty, carrying the label and exactly that list |
| ParamsCheck.FailingFields | long_term_uc/utils/type_checker.py:124-128 | the reference failure list: no longer than the declaration, and every name in it is a field the record has |
| ParamsCheck.ApplyParamsTypeCheck | long_term_uc/utils/type_checker.py:122-131 | exits iff some present field has an unregistered tag, and then on the first such tag; otherwise makes at most one report, exactly when the failure list is non-empty, carrying the label and exactly that list |
| ParamsCheck.AbortPersists | long_term_uc/utils/type_checker.py:97-99 | once the dispatcher has exited, the rest of the declaration changes nothing |
| ParamsCheck.ScanAbortsIffUnknownTag | long_term_uc/utils/type_checker.py:124-126 | the walk exits iff a declared field that is present has an unregistered tag, and it exits on the first such field's tag |
| ParamsCheck.FailingFieldsAppend | long_term_uc/utils/type_checker.py:124-128 | the failure list of a split declaration is the concatenation of the parts' lists, so it follows declaration order |
| ParamsCheck.ScanMatchesFailingFields | long_term_uc/utils/type_checker.py:123-128 | when no tag aborts, the list the loop builds equals the reference filter over the declaration |
| ParamsCheck.FailingFieldsMembership | long_term_uc/utils/type_checker.py:125-128 | a field is reported iff it is declared, present in the record, and its declared check is false; absent fields are never reported |
| ParamsCheck.NothingPresentNoReport | long_term_uc/utils/type_checker.py:129-131 | an empty declaration, or a record with none of the declared fields, makes no sink call |
| ParamsCheck.AggregationExampleScan | long_term_uc/utils/type_checker.py:124-128 | for record `{name: "ok", tags: [1, 2], meta: 5}` declared `str`, `list_of_str`, `dict_str_str` plus a missing `str` field, the failures are `[tags, meta]` |
| ParamsCheck.AggregationExample | long_term_uc/utils/type_checker.py:129-131 | the same example ends in exactly one report, listing `tags` then `meta` |

## Left out

- `logging.error` and `sys.exit(1)` are not modelled as logging or process termination. The dispatcher returns `Abort(reason)` instead, and the record checker returns `Exit(tag, reason)` and performs no further dispatch.
- `print_errors_list` lives in `long_term_uc/common/error_msgs.py`, which is not part of this model. Each call is modelled as an `ErrorReport(label, fields)` in the checker's result, and its formatting is not modelled. The label is `ErrorName(paramName)`, the parameter name followed by " JSON data with erroneous types".
- `isinstance` on arbitrary Python classes is not modelled. Values are the closed datatype above, and the only subclass relation kept is bool ⊂ int.
- Float values carry no number, because the checks only test their type.
- Dict entries are a sequence, so the model also admits duplicate keys and list or dict keys, which a Python dict cannot hold. No check depends on key uniqueness.
- A declaration is a sequence of (field, tag) items, so the model also admits a field declared twice, which the `types_for_check` dict cannot hold. Such a field is then checked, and reported, once per declaration. Every property above also holds for declarations without repeated fields.
- The record is `map<string, Value>`: a record key that is not a str could never match a declared field name.
- Mutating `CHECK_FUNCTIONS` at run time is not modelled: the registry is a constant. The `None`-entry branch is still modelled, in `ApplyCheckWith` over an arbitrary registry.
- Repeated calls returning the same answer holds by construction: every model function is a mathematical function.
