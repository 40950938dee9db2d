/** The list data sources' filter engine (package frameworkfilter): a user's
    filter set is split into an API-side `+and`/`+or` filter tree for the
    API-filterable fields, and the remaining filters are applied locally to
    the records the API lists.

    Go reflection is replaced by explicit values: a listed record is the
    sequence of its struct fields, each with its json tag (if it has one)
    and its value. */
module FrameworkFilter {
  import opened Wrappers
  import opened Tf
  import Decimal

  // ---------------------------------------------------------------- data

  /** One `filter` block: the attribute name, its values and the optional match_by. */
  datatype FilterModel = FilterModel(name: Value<string>, values: seq<Value<string>>, matchBy: Value<string>)

  datatype FilterAttribute = FilterAttribute(apiFilterable: bool)

  /** The data source's filterable fields. */
  type Config = map<string, FilterAttribute>

  /** A struct field's value as reflection sees it. Named types (string enums,
      int32, structs, maps, ...) are `Other`, carrying their Go type name; a
      slice carries its Go type name too. */
  datatype FieldValue =
    | Str(s: string)
    | Int(i: int)
    | Bool(b: bool)
    | Ptr(target: Option<FieldValue>)
    | List(typeName: string, elems: seq<FieldValue>)
    | Other(typeName: string)

  datatype StructField = StructField(jsonTag: Option<string>, value: FieldValue)

  /** A listed API object: its struct fields in declaration order. */
  type Record = seq<StructField>

  /** `{name: value}` */
  datatype Term = Term(field: string, value: string)

  /** `{"+or": [...]}` */
  datatype OrFilter = OrFilter(terms: seq<Term>)

  /** `{"+and": [...]}`, the API filter handed to the list function. */
  datatype AndFilter = AndFilter(clauses: seq<OrFilter>)

  /** The error diagnostics the engine can return. */
  datatype FilterError =
    | NonFilterableField(field: string)
    | ListFailed(message: string)
    | InvalidFieldType(value: FieldValue)
    | FieldNotFound(tag: string)

  function TypeName(v: FieldValue): string {
    match v
    case Str(_) => "string"
    case Int(_) => "int"
    case Bool(_) => "bool"
    case Ptr(_) => "pointer"
    case List(n, _) => n
    case Other(n) => n
  }

  /** The diagnostic text of each error. */
  function ToDiagnostic(e: FilterError): Diagnostic {
    match e
    case NonFilterableField(f) =>
      Diagnostic(Error, "Attempted to filter on non-filterable field.",
                 "Attempted to filter on non-filterable field " + f + ".")
    case ListFailed(m) => Diagnostic(Error, "Failed to list resources", m)
    case InvalidFieldType(v) => Diagnostic(Error, "Invalid field type", "Invalid type for field: " + TypeName(v))
    case FieldNotFound(t) => Diagnostic(Error, "Field not found", "Could not find JSON tag in target struct: " + t)
  }

  // ------------------------------------------------ the API filter (specification)

  function FieldName(f: FilterModel): string {
    StringOf(f.name)
  }

  /** f[name].APIFilterable, where a missing name reads as the zero FilterAttribute. */
  predicate IsApiFilterable(cfg: Config, name: string) {
    name in cfg && cfg[name].apiFilterable
  }

  /** A configured filter goes to the API iff its field is API-filterable and
      it matches exactly (match_by null or "exact"). */
  predicate UsesApiFilter(attr: FilterAttribute, f: FilterModel) {
    attr.apiFilterable && (f.matchBy.Null? || StringOf(f.matchBy) == "exact")
  }

  /** The `+or` clause of one filter: one term per value, in value order. */
  function OrClause(f: FilterModel): OrFilter {
    OrFilter(seq(|f.values|, i requires 0 <= i < |f.values| => Term(FieldName(f), StringOf(f.values[i]))))
  }

  /** constructFilterString, before JSON rendering: the `+or` clauses of the
      contributing filters, or the first unconfigured field as an error. */
  function ApiClauses(cfg: Config, fs: seq<FilterModel>): Result<seq<OrFilter>, FilterError>
    decreases |fs|
  {
    if fs == [] then Success([])
    else
      match ApiClauses(cfg, fs[..|fs| - 1])
      case Failure(e) => Failure(e)
      case Success(root) =>
        var f := fs[|fs| - 1];
        if FieldName(f) !in cfg then Failure(NonFilterableField(FieldName(f)))
        else if UsesApiFilter(cfg[FieldName(f)], f) then Success(root + [OrClause(f)])
        else Success(root)
  }

  function ConstructFilter(cfg: Config, fs: seq<FilterModel>): Result<AndFilter, FilterError> {
    match ApiClauses(cfg, fs)
    case Failure(e) => Failure(e)
    case Success(clauses) => Success(AndFilter(clauses))
  }

  predicate AllConfigured(cfg: Config, fs: seq<FilterModel>) {
    forall i :: 0 <= i < |fs| ==> FieldName(fs[i]) in cfg
  }

  /** The filters that contribute to the API filter, in input order. */
  function Contributing(cfg: Config, fs: seq<FilterModel>): seq<FilterModel>
    requires AllConfigured(cfg, fs)
    decreases |fs|
  {
    if fs == [] then []
    else
      var f := fs[|fs| - 1];
      Contributing(cfg, fs[..|fs| - 1]) + (if UsesApiFilter(cfg[FieldName(f)], f) then [f] else [])
  }

  /** a can be obtained from b by deleting elements. */
  predicate IsSubsequence<T(==)>(a: seq<T>, b: seq<T>)
    decreases |b|
  {
    a == [] ||
    (b != [] &&
     ((a[|a| - 1] == b[|b| - 1] && IsSubsequence(a[..|a| - 1], b[..|b| - 1])) ||
      IsSubsequence(a, b[..|b| - 1])))
  }

  lemma {:induction false} SubsequenceLength<T>(a: seq<T>, b: seq<T>)
    requires IsSubsequence(a, b)
    ensures |a| <= |b|
    decreases |b|
  {
    if a != [] {
      if a[|a| - 1] == b[|b| - 1] && IsSubsequence(a[..|a| - 1], b[..|b| - 1]) {
        SubsequenceLength(a[..|a| - 1], b[..|b| - 1]);
      } else {
        SubsequenceLength(a, b[..|b| - 1]);
      }
    }
  }

  // ------------------------------------------------ local filtering (specification)

  /** The value of the last field whose json tag is exactly `tag`. */
  function LastTagged(rec: Record, tag: string): Option<FieldValue>
    decreases |rec|
  {
    if rec == [] then None
    else if rec[|rec| - 1].jsonTag == Some(tag) then Some(rec[|rec| - 1].value)
    else LastTagged(rec[..|rec| - 1], tag)
  }

  /** resolveStructFieldByJSON */
  function ResolveField(rec: Record, tag: string): Result<FieldValue, FilterError> {
    match LastTagged(rec, tag)
    case None => Failure(FieldNotFound(tag))
    case Some(v) => Success(v)
  }

  /** The value a chain of pointers leads to; None for a nil pointer. */
  function Deref(v: FieldValue): (r: Option<FieldValue>)
    ensures r.Some? ==> !r.value.Ptr?
  {
    match v
    case Ptr(None) => None
    case Ptr(Some(t)) => Deref(t)
    case _ => Some(v)
  }

  /** normalizeValue: pointers are followed (a nil pointer is ""), strings are
      kept, integers become decimal text, booleans "true"/"false"; any other
      dereferenced type is an error. */
  function Normalize(v: FieldValue): (r: Result<string, FilterError>)
    ensures Deref(v).None? ==> r == Success("")
    ensures Deref(v).Some? ==>
      (match Deref(v).value
       case Str(s) => r == Success(s)
       case Int(i) => r == Success(Decimal.FormatInt(i)) && Decimal.ParseInt(r.value) == Some(i)
       case Bool(b) => r.Success? && (r.value == "true" || r.value == "false") && (b <==> r.value == "true")
       case _ => r == Failure(InvalidFieldType(Deref(v).value)))
  {
    match v
    case Ptr(None) => Success("")
    case Ptr(Some(t)) => Normalize(t)
    case Str(s) => Success(s)
    case Int(i) => Decimal.FormatIntRoundTrip(i); Success(Decimal.FormatInt(i))
    case Bool(b) => Success(if b then "true" else "false")
    case List(_, _) => Failure(InvalidFieldType(v))
    case Other(_) => Failure(InvalidFieldType(v))
  }

  /** Some filter value's ValueString equals s. */
  predicate Listed(s: string, values: seq<Value<string>>) {
    exists i :: 0 <= i < |values| && StringOf(values[i]) == s
  }

  /** checkFieldMatchesFilter: a slice matches when one of its elements does
      (the first error aborts); a scalar matches when its normalized text is
      one of the values. */
  function FieldMatches(v: FieldValue, values: seq<Value<string>>): (r: Result<bool, FilterError>)
    ensures r == Success(true) ==> |values| > 0
    decreases v, 1, 0
  {
    if v.List? then ElemsMatchFrom(v, values, 0)
    else
      match Normalize(v)
      case Failure(e) => Failure(e)
      case Success(s) => Success(Listed(s, values))
  }

  /** The slice loop of checkFieldMatchesFilter from index i on. */
  function ElemsMatchFrom(v: FieldValue, values: seq<Value<string>>, i: nat): (r: Result<bool, FilterError>)
    requires v.List? && i <= |v.elems|
    ensures r == Success(true) ==> |values| > 0
    decreases v, 0, |v.elems| - i
  {
    if i == |v.elems| then Success(false)
    else
      match FieldMatches(v.elems[i], values)
      case Failure(e) => Failure(e)
      case Success(true) => Success(true)
      case Success(false) => ElemsMatchFrom(v, values, i + 1)
  }

  /** One locally applied filter accepts the record. */
  predicate FilterHolds(f: FilterModel, rec: Record) {
    ResolveField(rec, FieldName(f)).Success? &&
    FieldMatches(ResolveField(rec, FieldName(f)).value, f.values) == Success(true)
  }

  /** matchesFilter: filters on API-filterable fields are skipped; the others
      must all hold, the first error or mismatch ending the scan. */
  function Matches(cfg: Config, fs: seq<FilterModel>, rec: Record): Result<bool, FilterError>
    decreases |fs|
  {
    if fs == [] then Success(true)
    else if IsApiFilterable(cfg, FieldName(fs[0])) then Matches(cfg, fs[1..], rec)
    else
      match ResolveField(rec, FieldName(fs[0]))
      case Failure(e) => Failure(e)
      case Success(field) =>
        match FieldMatches(field, fs[0].values)
        case Failure(e) => Failure(e)
        case Success(false) => Success(false)
        case Success(true) => Matches(cfg, fs[1..], rec)
  }

  /** applyLocalFiltering: the matching records in order, or the first error. */
  function LocalFilter(cfg: Config, fs: seq<FilterModel>, data: seq<Record>): Result<seq<Record>, FilterError>
    decreases |data|
  {
    if data == [] then Success([])
    else
      match LocalFilter(cfg, fs, data[..|data| - 1])
      case Failure(e) => Failure(e)
      case Success(kept) =>
        var elem := data[|data| - 1];
        match Matches(cfg, fs, elem)
        case Failure(e) => Failure(e)
        case Success(m) => Success(if m then kept + [elem] else kept)
  }

  // ------------------------------------------------ the engine (imperative)

  /** The data source's list function, given the API filter. */
  type ListFunc = AndFilter -> Result<seq<Record>, string>

  /** GetAndFilter: build the API filter, list through `list` (the data source's
      ListFunc, given the filter before JSON rendering), then filter locally.
      `listedWith` is the filter the list function was called with, if it was. */
  method GetAndFilter(cfg: Config, filters: seq<FilterModel>, list: ListFunc)
    returns (r: Result<seq<Record>, FilterError>, listedWith: Option<AndFilter>)
    ensures ConstructFilter(cfg, filters).Failure? ==>
      listedWith == None && r == Failure(ConstructFilter(cfg, filters).error)
    ensures ConstructFilter(cfg, filters).Success? ==> listedWith == Some(ConstructFilter(cfg, filters).value)
    ensures ConstructFilter(cfg, filters).Success? && list(ConstructFilter(cfg, filters).value).Failure? ==>
      r == Failure(ListFailed(list(ConstructFilter(cfg, filters).value).error))
    ensures ConstructFilter(cfg, filters).Success? && list(ConstructFilter(cfg, filters).value).Success? ==>
      r == LocalFilter(cfg, filters, list(ConstructFilter(cfg, filters).value).value)
  {
    var filterStr := ConstructFilterString(cfg, filters);
    if filterStr.Failure? {
      return Failure(filterStr.error), None;
    }
    listedWith := Some(filterStr.value);
    var listedElems := list(filterStr.value);
    if listedElems.Failure? {
      return Failure(ListFailed(listedElems.error)), listedWith;
    }
    r := ApplyLocalFiltering(cfg, filters, listedElems.value);
  }

  /** constructFilterString */
  method ConstructFilterString(cfg: Config, filterSet: seq<FilterModel>) returns (r: Result<AndFilter, FilterError>)
    ensures r == ConstructFilter(cfg, filterSet)
  {
    var rootFilter: seq<OrFilter> := [];
    var i := 0;
    while i < |filterSet|
      invariant 0 <= i <= |filterSet|
      invariant ApiClauses(cfg, filterSet[..i]) == Success(rootFilter)
    {
      var filter := filterSet[i];
      var filterFieldName := StringOf(filter.name);
      assert filterSet[..i + 1][..i] == filterSet[..i];
      if filterFieldName !in cfg {
        ApiClausesFailurePersists(cfg, filterSet, i + 1);
        return Failure(NonFilterableField(filterFieldName));
      }
      var filterFieldConfig := cfg[filterFieldName];
      if filterFieldConfig.apiFilterable && (filter.matchBy.Null? || StringOf(filter.matchBy) == "exact") {
        var currentFilter := new Term[|filter.values|];
        for j := 0 to |filter.values|
          invariant forall k :: 0 <= k < j ==> currentFilter[k] == Term(filterFieldName, StringOf(filter.values[k]))
        {
          currentFilter[j] := Term(filterFieldName, StringOf(filter.values[j]));
        }
        assert currentFilter[..] == OrClause(filter).terms;
        rootFilter := rootFilter + [OrFilter(currentFilter[..])];
      }
      i := i + 1;
    }
    assert filterSet[..i] == filterSet;
    return Success(AndFilter(rootFilter));
  }

  /** applyLocalFiltering */
  method ApplyLocalFiltering(cfg: Config, filterSet: seq<FilterModel>, data: seq<Record>)
    returns (r: Result<seq<Record>, FilterError>)
    ensures r == LocalFilter(cfg, filterSet, data)
  {
    var result: seq<Record> := [];
    for i := 0 to |data|
      invariant LocalFilter(cfg, filterSet, data[..i]) == Success(result)
    {
      var elem := data[i];
      assert data[..i + 1][..i] == data[..i];
      var match_ := MatchesFilter(cfg, filterSet, elem);
      if match_.Failure? {
        LocalFilterFailurePersists(cfg, filterSet, data, i + 1);
        return Failure(match_.error);
      }
      if match_.value {
        result := result + [elem];
      }
    }
    assert data[..|data|] == data;
    return Success(result);
  }

  /** matchesFilter */
  method MatchesFilter(cfg: Config, filterSet: seq<FilterModel>, elem: Record) returns (r: Result<bool, FilterError>)
    ensures r == Matches(cfg, filterSet, elem)
  {
    for i := 0 to |filterSet|
      invariant Matches(cfg, filterSet, elem) == Matches(cfg, filterSet[i..], elem)
    {
      var filter := filterSet[i];
      var filterName := StringOf(filter.name);
      assert filterSet[i..][0] == filter && filterSet[i..][1..] == filterSet[i + 1..];
      if filterName in cfg && cfg[filterName].apiFilterable {
        continue;
      }
      var matchingField := ResolveStructFieldByJSON(elem, filterName);
      if matchingField.Failure? {
        return Failure(matchingField.error);
      }
      var match_ := CheckFieldMatchesFilter(matchingField.value, filter);
      if match_.Failure? {
        return Failure(match_.error);
      }
      if !match_.value {
        return Success(false);
      }
    }
    return Success(true);
  }

  /** checkFieldMatchesFilter */
  method CheckFieldMatchesFilter(field: FieldValue, filter: FilterModel) returns (r: Result<bool, FilterError>)
    ensures r == FieldMatches(field, filter.values)
    decreases field
  {
    if field.List? {
      for i := 0 to |field.elems|
        invariant ElemsMatchFrom(field, filter.values, 0) == ElemsMatchFrom(field, filter.values, i)
      {
        var match_ := CheckFieldMatchesFilter(field.elems[i], filter);
        if match_.Failure? {
          return Failure(match_.error);
        }
        if match_.value {
          return Success(true);
        }
      }
      return Success(false);
    }
    var normalizedValue := NormalizeValue(field);
    if normalizedValue.Failure? {
      return Failure(normalizedValue.error);
    }
    for j := 0 to |filter.values|
      invariant forall k :: 0 <= k < j ==> StringOf(filter.values[k]) != normalizedValue.value
    {
      if normalizedValue.value == StringOf(filter.values[j]) {
        return Success(true);
      }
    }
    return Success(false);
  }

  /** normalizeValue (the float case is not modelled) */
  method NormalizeValue(field: FieldValue) returns (r: Result<string, FilterError>)
    ensures r == Normalize(field)
  {
    var rField := field;
    while rField.Ptr?
      invariant Normalize(rField) == Normalize(field)
      decreases rField
    {
      if rField.target.None? {
        return Success("");
      }
      rField := rField.target.value;
    }
    match rField
    case Str(s) => r := Success(s);
    case Int(i) => r := Success(Decimal.FormatInt(i));
    case Bool(b) => r := Success(if b then "true" else "false");
    case _ => r := Failure(InvalidFieldType(rField));
  }

  /** resolveStructFieldByJSON: the last field whose json tag equals `field` wins. */
  method ResolveStructFieldByJSON(val: Record, field: string) returns (r: Result<FieldValue, FilterError>)
    ensures r == ResolveField(val, field)
  {
    var targetField: Option<FieldValue> := None;
    for i := 0 to |val|
      invariant targetField == LastTagged(val[..i], field)
    {
      assert val[..i + 1][..i] == val[..i];
      if val[i].jsonTag == Some(field) {
        targetField := Some(val[i].value);
      }
    }
    assert val[..|val|] == val;
    if targetField.None? {
      return Failure(FieldNotFound(field));
    }
    return Success(targetField.value);
  }

  // ------------------------------------------------ properties

  lemma {:induction false} ApiClausesFailurePersists(cfg: Config, fs: seq<FilterModel>, k: nat)
    requires k <= |fs| && ApiClauses(cfg, fs[..k]).Failure?
    ensures ApiClauses(cfg, fs) == ApiClauses(cfg, fs[..k])
    decreases |fs| - k
  {
    if k < |fs| {
      assert fs[..k + 1][..k] == fs[..k];
      ApiClausesFailurePersists(cfg, fs, k + 1);
    } else {
      assert fs[..k] == fs;
    }
  }

  lemma {:induction false} LocalFilterFailurePersists(cfg: Config, fs: seq<FilterModel>, data: seq<Record>, k: nat)
    requires k <= |data| && LocalFilter(cfg, fs, data[..k]).Failure?
    ensures LocalFilter(cfg, fs, data) == LocalFilter(cfg, fs, data[..k])
    decreases |data| - k
  {
    if k < |data| {
      assert data[..k + 1][..k] == data[..k];
      LocalFilterFailurePersists(cfg, fs, data, k + 1);
    } else {
      assert data[..k] == data;
    }
  }

  /** The API filter fails exactly when some filter names a field the
      configuration does not know, and the error names the first such field. */
  lemma {:induction false} ConstructFilterFailure(cfg: Config, fs: seq<FilterModel>)
    ensures ConstructFilter(cfg, fs).Failure? <==> !AllConfigured(cfg, fs)
    ensures ConstructFilter(cfg, fs).Failure? ==>
      exists i :: 0 <= i < |fs| && FieldName(fs[i]) !in cfg && AllConfigured(cfg, fs[..i]) &&
                  ConstructFilter(cfg, fs).error == NonFilterableField(FieldName(fs[i]))
    decreases |fs|
  {
    if fs != [] {
      var init := fs[..|fs| - 1];
      ConstructFilterFailure(cfg, init);
      assert forall i :: 0 <= i < |init| ==> init[i] == fs[i];
      if ApiClauses(cfg, init).Failure? {
        var i :| 0 <= i < |init| && FieldName(init[i]) !in cfg && AllConfigured(cfg, init[..i]) &&
                 ApiClauses(cfg, init).error == NonFilterableField(FieldName(init[i]));
        assert init[..i] == fs[..i];
      } else {
        assert fs[..|fs| - 1] == init;
      }
    }
  }

  /** With every field configured, the API filter has one `+or` clause per
      contributing filter, in input order; clause k lists one `{name: value}`
      term per value of the k-th contributing filter, in value order. */
  lemma {:induction false} ConstructFilterClauses(cfg: Config, fs: seq<FilterModel>)
    requires AllConfigured(cfg, fs)
    ensures ConstructFilter(cfg, fs).Success?
    ensures var clauses := ConstructFilter(cfg, fs).value.clauses;
      var contributing := Contributing(cfg, fs);
      |clauses| == |contributing| &&
      forall k :: 0 <= k < |clauses| ==>
        |clauses[k].terms| == |contributing[k].values| &&
        forall j :: 0 <= j < |clauses[k].terms| ==>
          clauses[k].terms[j] == Term(FieldName(contributing[k]), StringOf(contributing[k].values[j]))
    decreases |fs|
  {
    if fs != [] {
      var init := fs[..|fs| - 1];
      assert AllConfigured(cfg, init) by {
        assert forall i :: 0 <= i < |init| ==> init[i] == fs[i];
      }
      ConstructFilterClauses(cfg, init);
    }
  }

  /** The contributing filters keep the input order. */
  lemma {:induction false} ContributingInOrder(cfg: Config, fs: seq<FilterModel>)
    requires AllConfigured(cfg, fs)
    ensures IsSubsequence(Contributing(cfg, fs), fs)
    ensures |Contributing(cfg, fs)| <= |fs|
    decreases |fs|
  {
    if fs != [] {
      var init := fs[..|fs| - 1];
      var last := fs[|fs| - 1];
      assert AllConfigured(cfg, init) by {
        assert forall i :: 0 <= i < |init| ==> init[i] == fs[i];
      }
      ContributingInOrder(cfg, init);
      var c := Contributing(cfg, init);
      if UsesApiFilter(cfg[FieldName(last)], last) {
        assert (c + [last])[..|c|] == c;
      } else {
        assert Contributing(cfg, fs) == c;
        assert IsSubsequence(c, fs);
      }
    }
    SubsequenceLength(Contributing(cfg, fs), fs);
  }

  /** The contributing filters are exactly the configured filters that use the
      API filter, each as often as in the input. */
  lemma {:induction false} ContributingCounts(cfg: Config, fs: seq<FilterModel>, f: FilterModel)
    requires AllConfigured(cfg, fs)
    ensures multiset(Contributing(cfg, fs))[f] ==
      (if FieldName(f) in cfg && UsesApiFilter(cfg[FieldName(f)], f) then multiset(fs)[f] else 0)
    decreases |fs|
  {
    if fs != [] {
      var init := fs[..|fs| - 1];
      assert AllConfigured(cfg, init) by {
        assert forall i :: 0 <= i < |init| ==> init[i] == fs[i];
      }
      ContributingCounts(cfg, init, f);
      assert fs == init + [fs[|fs| - 1]];
    }
  }

  /** A filter on an API-filterable field whose match_by is neither null nor
      "exact" is ignored by both stages: it adds no API clause and the local
      stage skips it. */
  lemma {:induction false} NonExactApiFilterIgnored(cfg: Config, fs: seq<FilterModel>, f: FilterModel, rec: Record)
    requires IsApiFilterable(cfg, FieldName(f)) && !f.matchBy.Null? && StringOf(f.matchBy) != "exact"
    ensures ConstructFilter(cfg, fs + [f]) == ConstructFilter(cfg, fs)
    ensures Matches(cfg, fs + [f], rec) == Matches(cfg, fs, rec)
    decreases |fs|
  {
    assert (fs + [f])[..|fs|] == fs;
    if fs == [] {
      assert [f][1..] == [];
    } else {
      assert (fs + [f])[1..] == fs[1..] + [f];
      NonExactApiFilterIgnored(cfg, fs[1..], f, rec);
    }
  }

  /** resolveStructFieldByJSON finds v iff some field is tagged exactly with the
      name, v is its value, and no later field carries the same tag. */
  lemma {:induction false} ResolveFieldLastWins(rec: Record, tag: string)
    ensures ResolveField(rec, tag).Failure? <==> forall i :: 0 <= i < |rec| ==> rec[i].jsonTag != Some(tag)
    ensures ResolveField(rec, tag).Failure? ==> ResolveField(rec, tag).error == FieldNotFound(tag)
    ensures forall v :: ResolveField(rec, tag) == Success(v) <==>
      exists i :: 0 <= i < |rec| && rec[i].jsonTag == Some(tag) && rec[i].value == v &&
                  forall j :: i < j < |rec| ==> rec[j].jsonTag != Some(tag)
    decreases |rec|
  {
    if rec != [] {
      var init := rec[..|rec| - 1];
      ResolveFieldLastWins(init, tag);
      assert forall i :: 0 <= i < |init| ==> init[i] == rec[i];
      if rec[|rec| - 1].jsonTag != Some(tag) {
        forall v | ResolveField(rec, tag) == Success(v)
          ensures exists i :: 0 <= i < |rec| && rec[i].jsonTag == Some(tag) && rec[i].value == v &&
                              forall j :: i < j < |rec| ==> rec[j].jsonTag != Some(tag)
        {
          var i :| 0 <= i < |init| && init[i].jsonTag == Some(tag) && init[i].value == v &&
                   forall j :: i < j < |init| ==> init[j].jsonTag != Some(tag);
          assert rec[i] == init[i];
        }
      }
    }
  }

  /** A slice field matches iff the scan of its elements produces a match; when
      no element errs, that is iff some element matches. */
  lemma {:induction false} ListMatchesIffSomeElement(v: FieldValue, values: seq<Value<string>>, i: nat)
    requires v.List? && i <= |v.elems|
    ensures ElemsMatchFrom(v, values, i) == Success(true) ==>
      exists k :: i <= k < |v.elems| && FieldMatches(v.elems[k], values) == Success(true)
    ensures (forall k :: i <= k < |v.elems| ==> FieldMatches(v.elems[k], values).Success?) ==>
      (ElemsMatchFrom(v, values, i) == Success(true) <==>
       exists k :: i <= k < |v.elems| && FieldMatches(v.elems[k], values) == Success(true))
    decreases |v.elems| - i
  {
    if i < |v.elems| {
      ListMatchesIffSomeElement(v, values, i + 1);
    }
  }

  /** A scalar field never matches an empty value list. */
  lemma ScalarNeedsValues(v: FieldValue)
    requires !v.List?
    ensures FieldMatches(v, []) != Success(true)
  {
  }

  /** matchesFilter is the conjunction of the non-API-filterable filters. */
  lemma {:induction false} MatchesIsConjunction(cfg: Config, fs: seq<FilterModel>, rec: Record)
    ensures Matches(cfg, fs, rec) == Success(true) <==>
      forall i :: 0 <= i < |fs| && !IsApiFilterable(cfg, FieldName(fs[i])) ==> FilterHolds(fs[i], rec)
    decreases |fs|
  {
    if fs != [] {
      MatchesIsConjunction(cfg, fs[1..], rec);
      assert forall i :: 1 <= i < |fs| ==> fs[i] == fs[1..][i - 1];
      if Matches(cfg, fs, rec) != Success(true) && !IsApiFilterable(cfg, FieldName(fs[0])) &&
         FilterHolds(fs[0], rec) {
        var i :| 0 <= i < |fs[1..]| && !IsApiFilterable(cfg, FieldName(fs[1..][i])) && !FilterHolds(fs[1..][i], rec);
        assert fs[i + 1] == fs[1..][i];
      }
    }
  }

  /** Without locally applied filters every record matches. */
  lemma NoLocalFiltersMatch(cfg: Config, fs: seq<FilterModel>, rec: Record)
    requires forall i :: 0 <= i < |fs| ==> IsApiFilterable(cfg, FieldName(fs[i]))
    ensures Matches(cfg, fs, rec) == Success(true)
  {
    MatchesIsConjunction(cfg, fs, rec);
  }

  /** Without locally applied filters, local filtering returns the listed
      records unchanged. */
  lemma {:induction false} OnlyApiFiltersKeepAll(cfg: Config, fs: seq<FilterModel>, data: seq<Record>)
    requires forall i :: 0 <= i < |fs| ==> IsApiFilterable(cfg, FieldName(fs[i]))
    ensures LocalFilter(cfg, fs, data) == Success(data)
    decreases |data|
  {
    if data != [] {
      OnlyApiFiltersKeepAll(cfg, fs, data[..|data| - 1]);
      NoLocalFiltersMatch(cfg, fs, data[|data| - 1]);
      assert data[..|data| - 1] + [data[|data| - 1]] == data;
    }
  }

  /** Local filtering fails iff some record's match check fails, and then with
      the error of the first such record. */
  lemma {:induction false} LocalFilterFailure(cfg: Config, fs: seq<FilterModel>, data: seq<Record>)
    ensures LocalFilter(cfg, fs, data).Success? <==> forall i :: 0 <= i < |data| ==> Matches(cfg, fs, data[i]).Success?
    ensures LocalFilter(cfg, fs, data).Failure? ==>
      exists i :: 0 <= i < |data| && Matches(cfg, fs, data[i]) == Failure(LocalFilter(cfg, fs, data).error) &&
                  forall j :: 0 <= j < i ==> Matches(cfg, fs, data[j]).Success?
    decreases |data|
  {
    if data != [] {
      var init := data[..|data| - 1];
      LocalFilterFailure(cfg, fs, init);
      assert forall i :: 0 <= i < |init| ==> init[i] == data[i];
    }
  }

  /** On success, local filtering keeps an order-preserving subsequence of the
      listed records. */
  lemma {:induction false} LocalFilterInOrder(cfg: Config, fs: seq<FilterModel>, data: seq<Record>)
    requires LocalFilter(cfg, fs, data).Success?
    ensures var kept := LocalFilter(cfg, fs, data).value;
      IsSubsequence(kept, data) && |kept| <= |data|
    decreases |data|
  {
    if data != [] {
      var init := data[..|data| - 1];
      var elem := data[|data| - 1];
      LocalFilterInOrder(cfg, fs, init);
      assert data == init + [elem];
      var kept := LocalFilter(cfg, fs, init).value;
      if Matches(cfg, fs, elem) == Success(true) {
        assert (kept + [elem])[..|kept|] == kept;
      }
      SubsequenceLength(LocalFilter(cfg, fs, data).value, data);
    }
  }

  /** On success, local filtering keeps every matching record as often as it
      was listed, and nothing else. */
  lemma {:induction false} LocalFilterCounts(cfg: Config, fs: seq<FilterModel>, data: seq<Record>, rec: Record)
    requires LocalFilter(cfg, fs, data).Success?
    ensures multiset(LocalFilter(cfg, fs, data).value)[rec] ==
      (if Matches(cfg, fs, rec) == Success(true) then multiset(data)[rec] else 0)
    decreases |data|
  {
    if data != [] {
      var init := data[..|data| - 1];
      var elem := data[|data| - 1];
      LocalFilterCounts(cfg, fs, init, rec);
      assert data == init + [elem];
      assert multiset(data) == multiset(init) + multiset{elem};
    }
  }

  /** A filter on a field missing from the configuration makes GetAndFilter
      fail with that field's error before anything is listed. */
  lemma UnconfiguredFieldFailsFirst(cfg: Config, fs: seq<FilterModel>, i: nat)
    requires i < |fs| && FieldName(fs[i]) !in cfg && AllConfigured(cfg, fs[..i])
    ensures ConstructFilter(cfg, fs) == Failure(NonFilterableField(FieldName(fs[i])))
  {
    ConstructFilterFailure(cfg, fs);
    var k :| 0 <= k < |fs| && FieldName(fs[k]) !in cfg && AllConfigured(cfg, fs[..k]) &&
             ConstructFilter(cfg, fs).error == NonFilterableField(FieldName(fs[k]));
  }
}
