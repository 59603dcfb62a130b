/**
 * `apply_params_type_check`: walk a field declaration in insertion order,
 * dispatch the declared tag on every declared field the record has, collect
 * the names of the fields whose check is false, and hand that list to the
 * error sink once if it is not empty. The sink (`print_errors_list`) is
 * modelled by the list of calls made to it; the dispatcher's `sys.exit` by
 * an `Exit` result that ends the walk.
 */
module ParamsCheck {
  import opened Values
  import opened Predicates
  import opened Registry

  /** A decoded record: field name to value. */
  type Record = map<string, Value>

  /** The `types_for_check` dict as its (field, tag) items in insertion order. */
  type Declaration = seq<(string, string)>

  /** Where a walk over a declaration prefix stands: stopped by the
      dispatcher on `tag`, or still going with the failing fields so far. */
  datatype Scan = Aborted(tag: string, reason: AbortReason) | Failures(fields: seq<string>)

  /** One call of the error sink, with its label and its list of field names. */
  datatype ErrorReport = ErrorReport(errorName: string, errorsList: seq<string>)

  /** What one call of the record checker does: exit the process, or finish
      after making the listed sink calls. */
  datatype Run = Exit(tag: string, reason: AbortReason) | Finished(reports: seq<ErrorReport>)

  /** The label given to the sink. */
  function ErrorName(paramName: string): (r: string)
    ensures |r| == |paramName| + 31 && r[..|paramName|] == paramName
    ensures r[|paramName|..] == " JSON data with erroneous types"
  {
    paramName + " JSON data with erroneous types"
  }

  /** One item of the walk: a field the record lacks is skipped, otherwise
      its tag is dispatched; an exit stops the walk and a false verdict
      appends the field. */
  function Advance(record: Record, prev: Scan, item: (string, string)): (r: Scan)
    ensures prev.Aborted? || item.0 !in record ==> r == prev
    ensures prev.Failures? && r.Aborted? <==> prev.Failures? && item.0 in record && item.1 !in CheckFunctions
    ensures prev.Failures? && r.Aborted? ==> r == Aborted(item.1, UnknownDataType)
    ensures r.Failures? ==> prev.Failures? && (r.fields == prev.fields || r.fields == prev.fields + [item.0])
  {
    var (field, tag) := item;
    if prev.Aborted? || field !in record then prev
    else match ApplyDataTypeCheck(tag, record[field])
      case Abort(reason) => Aborted(tag, reason)
      case Checked(ok) => if ok then prev else Failures(prev.fields + [field])
  }

  /** The walk, item by item from the front: the state after `decl` is the
      state after all but its last item, advanced by that item. */
  function ScanDeclaration(record: Record, decl: Declaration): (r: Scan)
    ensures r.Aborted? ==> r.reason == UnknownDataType && r.tag !in CheckFunctions
    ensures r.Failures? ==> |r.fields| <= |decl| && forall k :: 0 <= k < |r.fields| ==> r.fields[k] in record
    decreases |decl|
  {
    if decl == [] then Failures([])
    else Advance(record, ScanDeclaration(record, decl[..|decl| - 1]), decl[|decl| - 1])
  }

  /** What the checker does once the walk is over. */
  function RunOf(scan: Scan, paramName: string): (r: Run)
    ensures r.Exit? <==> scan.Aborted?
    ensures r.Exit? ==> r.tag == scan.tag && r.reason == scan.reason
    ensures r.Finished? ==> |r.reports| <= 1 && (r.reports == [] <==> scan.fields == [])
    ensures r.Finished? && r.reports != [] ==> r.reports[0] == ErrorReport(ErrorName(paramName), scan.fields)
  {
    match scan
    case Aborted(tag, reason) => Exit(tag, reason)
    case Failures(fields) =>
      Finished(if fields == [] then [] else [ErrorReport(ErrorName(paramName), fields)])
  }

  /** Every declared field the record has is declared with a registered tag. */
  predicate TagsKnown(record: Record, decl: Declaration) {
    forall i :: 0 <= i < |decl| && decl[i].0 in record ==> decl[i].1 in CheckFunctions
  }

  /** Item `i` is a field the record has whose declared check says false. */
  predicate FailsAt(record: Record, decl: Declaration, i: nat)
    requires i < |decl|
  {
    decl[i].0 in record && ApplyDataTypeCheck(decl[i].1, record[decl[i].0]) == Checked(false)
  }

  /** Item `i` is the first field the record has whose tag is unregistered. */
  predicate FirstUnknownAt(record: Record, decl: Declaration, i: nat)
    requires i < |decl|
  {
    decl[i].0 in record && decl[i].1 !in CheckFunctions && TagsKnown(record, decl[..i])
  }

  /** Reference definition of the failure list: the declared fields, in
      declaration order, that the record has and whose check is false. */
  function FailingFields(record: Record, decl: Declaration): (r: seq<string>)
    ensures |r| <= |decl|
    ensures forall k :: 0 <= k < |r| ==> r[k] in record
  {
    if decl == [] then []
    else
      var (field, tag) := decl[0];
      (if field in record && ApplyDataTypeCheck(tag, record[field]) == Checked(false) then [field] else [])
        + FailingFields(record, decl[1..])
  }

  method ApplyParamsTypeCheck(record: Record, decl: Declaration, paramName: string) returns (run: Run)
    ensures run == RunOf(ScanDeclaration(record, decl), paramName)
    ensures run.Exit? <==> !TagsKnown(record, decl)
    ensures run.Exit? ==> run.reason == UnknownDataType
    ensures run.Exit? ==> exists i :: 0 <= i < |decl| && FirstUnknownAt(record, decl, i) && decl[i].1 == run.tag
    ensures run.Finished? ==> |run.reports| <= 1
    ensures run.Finished? ==> (run.reports == [] <==> FailingFields(record, decl) == [])
    ensures run.Finished? && run.reports != [] ==>
      run.reports[0] == ErrorReport(ErrorName(paramName), FailingFields(record, decl))
  {
    ScanAbortsIffUnknownTag(record, decl);
    var checkErrors: seq<string> := [];
    var i := 0;
    while i < |decl|
      invariant 0 <= i <= |decl|
      invariant ScanDeclaration(record, decl[..i]) == Failures(checkErrors)
    {
      var (field, tag) := decl[i];
      assert decl[..i + 1][..i] == decl[..i];
      if field in record {
        var checkResult := ApplyDataTypeCheck(tag, record[field]);
        match checkResult {
          case Abort(reason) =>
            AbortPersists(record, decl, i + 1);
            return Exit(tag, reason);
          case Checked(ok) =>
            if !ok {
              checkErrors := checkErrors + [field];
            }
        }
      }
      i := i + 1;
    }
    assert decl[..i] == decl;
    ScanMatchesFailingFields(record, decl);
    run := Finished(if checkErrors == [] then [] else [ErrorReport(ErrorName(paramName), checkErrors)]);
  }

  // ---------------------------------------------------------------------
  // Properties of the walk

  /** Once the walk has stopped, the rest of the declaration changes nothing. */
  lemma {:induction false} AbortPersists(record: Record, decl: Declaration, k: nat)
    requires k <= |decl| && ScanDeclaration(record, decl[..k]).Aborted?
    ensures ScanDeclaration(record, decl) == ScanDeclaration(record, decl[..k])
    decreases |decl| - k
  {
    if k < |decl| {
      assert decl[..k + 1][..k] == decl[..k];
      AbortPersists(record, decl, k + 1);
    } else {
      assert decl[..k] == decl;
    }
  }

  /** The walk stops exactly when some declared field the record has carries
      an unregistered tag, and then it stops on the first such field's tag. */
  lemma {:induction false} ScanAbortsIffUnknownTag(record: Record, decl: Declaration)
    ensures ScanDeclaration(record, decl).Aborted? <==> !TagsKnown(record, decl)
    ensures ScanDeclaration(record, decl).Aborted? ==>
      exists i :: 0 <= i < |decl| && FirstUnknownAt(record, decl, i) && decl[i].1 == ScanDeclaration(record, decl).tag
    decreases |decl|
  {
    if decl != [] {
      var n := |decl| - 1;
      var init := decl[..n];
      ScanAbortsIffUnknownTag(record, init);
      var prev := ScanDeclaration(record, init);
      var (field, tag) := decl[n];
      assert forall i :: 0 <= i < n ==> init[i] == decl[i];
      assert TagsKnown(record, decl) <==>
        TagsKnown(record, init) && (field in record ==> tag in CheckFunctions);
      if prev.Aborted? {
        var i :| 0 <= i < n && FirstUnknownAt(record, init, i) && init[i].1 == prev.tag;
        assert init[..i] == decl[..i];
        assert FirstUnknownAt(record, decl, i);
      } else if field in record && tag !in CheckFunctions {
        assert decl[..n] == init;
        assert FirstUnknownAt(record, decl, n);
      }
    }
  }

  /** Splitting the declaration splits the failure list: reports follow
      declaration order. */
  lemma {:induction false} FailingFieldsAppend(record: Record, a: Declaration, b: Declaration)
    ensures FailingFields(record, a + b) == FailingFields(record, a) + FailingFields(record, b)
    decreases |a|
  {
    if a == [] {
      assert a + b == b;
    } else {
      assert (a + b)[1..] == a[1..] + b;
      FailingFieldsAppend(record, a[1..], b);
    }
  }

  /** Scanning one more item is one more step of the walk. */
  lemma ScanSnoc(record: Record, decl: Declaration, item: (string, string))
    ensures ScanDeclaration(record, decl + [item]) == Advance(record, ScanDeclaration(record, decl), item)
  {
    assert (decl + [item])[..|decl|] == decl;
  }

  /** A step over an item whose tag is registered (or whose field is absent)
      appends what the reference filter keeps of that item. */
  lemma AdvanceKnownTag(record: Record, prev: Scan, item: (string, string))
    requires prev.Failures? && (item.0 in record ==> item.1 in CheckFunctions)
    ensures Advance(record, prev, item) == Failures(prev.fields + FailingFields(record, [item]))
  {
    assert [item][1..] == [];
    assert FailingFields(record, [item]) ==
      (if item.0 in record && ApplyDataTypeCheck(item.1, record[item.0]) == Checked(false) then [item.0] else []);
  }

  /** A step over a present field declared with a shape's tag runs that
      shape's predicate. */
  lemma AdvanceByShape(record: Record, prev: Scan, field: string, s: Shape)
    requires prev.Failures? && field in record
    ensures Advance(record, prev, (field, TagName(s))) ==
      if Conforms(s, record[field]) then prev else Failures(prev.fields + [field])
  {
  }

  /** When no tag aborts, the walk's failure list is the reference one. */
  lemma {:induction false} ScanMatchesFailingFields(record: Record, decl: Declaration)
    requires TagsKnown(record, decl)
    ensures ScanDeclaration(record, decl) == Failures(FailingFields(record, decl))
    decreases |decl|
  {
    if decl != [] {
      var n := |decl| - 1;
      var init := decl[..n];
      assert forall i :: 0 <= i < n ==> init[i] == decl[i];
      ScanMatchesFailingFields(record, init);
      assert init + [decl[n]] == decl;
      ScanSnoc(record, init, decl[n]);
      FailingFieldsAppend(record, init, [decl[n]]);
      AdvanceKnownTag(record, ScanDeclaration(record, init), decl[n]);
    }
  }

  /** A field is reported exactly when it is declared, present in the
      record, and its declared check says false. */
  lemma {:induction false} FailingFieldsMembership(record: Record, decl: Declaration, f: string)
    ensures f in FailingFields(record, decl) <==>
      exists i :: 0 <= i < |decl| && decl[i].0 == f && FailsAt(record, decl, i)
    decreases |decl|
  {
    if decl != [] {
      var rest := decl[1..];
      FailingFieldsMembership(record, rest, f);
      if exists i :: 0 <= i < |decl| && decl[i].0 == f && FailsAt(record, decl, i) {
        var i :| 0 <= i < |decl| && decl[i].0 == f && FailsAt(record, decl, i);
        if i > 0 {
          assert rest[i - 1] == decl[i];
          assert FailsAt(record, rest, i - 1);
        }
      }
      if exists j :: 0 <= j < |rest| && rest[j].0 == f && FailsAt(record, rest, j) {
        var j :| 0 <= j < |rest| && rest[j].0 == f && FailsAt(record, rest, j);
        assert decl[j + 1] == rest[j];
        assert FailsAt(record, decl, j + 1);
      }
    }
  }

  /** With no declared field present (an empty declaration included), the
      checker finishes without calling the sink. */
  lemma {:induction false} NothingPresentNoReport(record: Record, decl: Declaration, paramName: string)
    requires forall i :: 0 <= i < |decl| ==> decl[i].0 !in record
    ensures RunOf(ScanDeclaration(record, decl), paramName) == Finished([])
    decreases |decl|
  {
    if decl != [] {
      var init := decl[..|decl| - 1];
      assert forall i :: 0 <= i < |init| ==> init[i] == decl[i];
      NothingPresentNoReport(record, init, paramName);
    }
  }

  /** The walk over a four-item declaration, for any field names: a `str` field
      holding a str passes, a `list_of_str` field holding `[1, 2]` and a
      `dict_str_str` field holding `5` fail, and a declared field the record
      lacks is never looked up. */
  lemma AggregationExampleScan(record: Record, decl: Declaration, name: string, tags: string, meta: string, missing: string)
    requires name in record && record[name] == Str("ok")
    requires tags in record && record[tags] == List([Int(1), Int(2)])
    requires meta in record && record[meta] == Int(5)
    requires missing !in record
    requires decl == [(name, TagName(StrShape)), (tags, TagName(ListOfStrShape)),
                      (meta, TagName(StrStrDictShape)), (missing, TagName(StrShape))]
    ensures ScanDeclaration(record, decl) == Failures([tags, meta])
  {
    var d1: Declaration := [(name, TagName(StrShape))];
    var d2 := d1 + [(tags, TagName(ListOfStrShape))];
    var d3 := d2 + [(meta, TagName(StrStrDictShape))];
    assert ScanDeclaration(record, d1) == Failures([]) by {
      ScanSnoc(record, [], d1[0]);
      assert [] + [d1[0]] == d1;
      AdvanceByShape(record, Failures([]), name, StrShape);
    }
    assert ScanDeclaration(record, d2) == Failures([tags]) by {
      ScanSnoc(record, d1, (tags, TagName(ListOfStrShape)));
      AdvanceByShape(record, Failures([]), tags, ListOfStrShape);
      assert record[tags].items[0] == Int(1);
    }
    assert ScanDeclaration(record, d3) == Failures([tags, meta]) by {
      ScanSnoc(record, d2, (meta, TagName(StrStrDictShape)));
      AdvanceByShape(record, Failures([tags]), meta, StrStrDictShape);
    }
    assert d3 + [(missing, TagName(StrShape))] == decl;
    ScanSnoc(record, d3, (missing, TagName(StrShape)));
  }

  /** The same four-item declaration ends in exactly one report, listing the failing
      fields in declaration order. */
  lemma AggregationExample(record: Record, decl: Declaration, name: string, tags: string, meta: string, missing: string)
    requires name in record && record[name] == Str("ok")
    requires tags in record && record[tags] == List([Int(1), Int(2)])
    requires meta in record && record[meta] == Int(5)
    requires missing !in record
    requires decl == [(name, TagName(StrShape)), (tags, TagName(ListOfStrShape)),
                      (meta, TagName(StrStrDictShape)), (missing, TagName(StrShape))]
    ensures RunOf(ScanDeclaration(record, decl), "params") ==
      Finished([ErrorReport(ErrorName("params"), [tags, meta])])
  {
    AggregationExampleScan(record, decl, name, tags, meta, missing);
  }
}
