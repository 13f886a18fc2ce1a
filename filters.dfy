/**
 * The query-filters validator of ckanext/search/filters.py: it checks only the
 * top-level shape of the value and the top-level keys, and hands the input
 * back unchanged when both checks pass. `AsWritten` rejects every `$` key;
 * `Intended` lets the two combinators its doc-comment and its own error
 * message name, `$or` and `$and`, through.
 */
module Filters {
  import opened Wrappers
  import opened Json

  /** Which top-level operators are accepted: as the code is written, or as documented. */
  datatype Reading = AsWritten | Intended

  /** The operators a reading accepts: none as written, the combinators as documented. */
  function KnownOperators(mode: Reading): set<string> {
    match mode
    case AsWritten => {}
    case Intended => {"$or", "$and"}
  }

  /** The two `Invalid` errors the validator raises. */
  datatype FilterError =
    | StructureError
    | UnknownOperators(keys: seq<string>)

  /** The text of the raised `Invalid`; keys are shown as a Python list. */
  function ErrorMessage(e: FilterError): string {
    match e
    case StructureError => "Filters must be defined as a dict or a list of dicts"
    case UnknownOperators(keys) =>
      "Unknown operators (must be one of $or, $and): [" + QuotedList(keys) + "]"
  }

  /** The items of a Python list of strings as `repr` writes them, without escaping. */
  function QuotedList(keys: seq<string>): string {
    if keys == [] then ""
    else if |keys| == 1 then "'" + keys[0] + "'"
    else "'" + keys[0] + "', " + QuotedList(keys[1..])
  }

  /** `k.startswith("$") and not k.startswith("$$")`. */
  predicate IsOperatorKey(k: string) {
    |k| >= 1 && k[0] == '$' && !(|k| >= 2 && k[1] == '$')
  }

  /** An operator key that the reading does not accept. */
  predicate IsUnknownOperator(k: string, mode: Reading) {
    IsOperatorKey(k) && k !in KnownOperators(mode)
  }

  /** A dict, or a list whose every item is a dict. */
  predicate IsDictOrListOfDicts(v: Value) {
    v.Dict? || (v.List? && forall i :: 0 <= i < |v.items| ==> v.items[i].Dict?)
  }

  /** The dict whose keys are checked: a list is wrapped as `{"$and": value}`. */
  function Normalized(v: Value): seq<(string, Value)>
    requires v.Dict? || v.List?
  {
    if v.List? then [("$and", v)] else v.entries
  }

  /** The keys that are reported as unknown operators, in key order. */
  function UnknownTopKeys(keys: seq<string>, mode: Reading): (r: seq<string>)
    ensures forall k :: k in r <==> k in keys && IsUnknownOperator(k, mode)
    ensures |r| <= |keys|
  {
    if keys == [] then []
    else (if IsUnknownOperator(keys[0], mode) then [keys[0]] else []) + UnknownTopKeys(keys[1..], mode)
  }

  /**
   * `query_filters_validator`: `Ok(None)` for a falsy value, `Ok(Some(value))`
   * for an accepted one, `Err` for the `Invalid` it raises.
   */
  function QueryFiltersValidator(value: Value, mode: Reading): (r: Result<Option<Value>, FilterError>)
    ensures r.Ok? && r.value.Some? ==> r.value.value == value
  {
    if !Truthy(value) then Ok(None)
    else if !IsDictOrListOfDicts(value) then Err(StructureError)
    else
      var unknown := UnknownTopKeys(Keys(Normalized(value)), mode);
      if unknown != [] then Err(UnknownOperators(unknown)) else Ok(Some(value))
  }

  /** Picking the unknown operators commutes with concatenation: key order is kept. */
  lemma {:induction false} UnknownTopKeysAppend(a: seq<string>, b: seq<string>, mode: Reading)
    ensures UnknownTopKeys(a + b, mode) == UnknownTopKeys(a, mode) + UnknownTopKeys(b, mode)
  {
    if a == [] {
      assert a + b == b;
    } else {
      assert (a + b)[0] == a[0] && (a + b)[1..] == a[1..] + b;
      UnknownTopKeysAppend(a[1..], b, mode);
    }
  }

  /** "No filter" is returned exactly for the falsy values, and never raises. */
  lemma NoFilterIffFalsy(value: Value, mode: Reading)
    ensures QueryFiltersValidator(value, mode) == Ok(None) <==> !Truthy(value)
  {
  }

  /**
   * The structural error is raised exactly for truthy values of the wrong
   * shape, whatever their keys: the shape is checked before the operators.
   */
  lemma StructureErrorIff(value: Value, mode: Reading)
    ensures QueryFiltersValidator(value, mode) == Err(StructureError)
        <==> Truthy(value) && !IsDictOrListOfDicts(value)
  {
  }

  /** A JSON-looking string is still a string: the validator never decodes it. */
  lemma JsonTextIsNotDecoded(mode: Reading)
    ensures QueryFiltersValidator(Str("{\"a\": \"b\"}"), mode) == Err(StructureError)
  {
  }

  /** On a non-empty dict only the operator check decides. */
  lemma ValidatorOnDict(entries: seq<(string, Value)>, mode: Reading)
    requires entries != []
    ensures QueryFiltersValidator(Dict(entries), mode)
            == if UnknownTopKeys(Keys(entries), mode) != [] then Err(UnknownOperators(UnknownTopKeys(Keys(entries), mode)))
               else Ok(Some(Dict(entries)))
  {
    assert Truthy(Dict(entries)) && IsDictOrListOfDicts(Dict(entries));
    assert Normalized(Dict(entries)) == entries;
  }

  /** Some key is reported exactly when some key is an unknown operator. */
  lemma UnknownTopKeysNonEmptyIff(keys: seq<string>, mode: Reading)
    ensures UnknownTopKeys(keys, mode) != [] <==> exists k :: k in keys && IsUnknownOperator(k, mode)
  {
    var ks := UnknownTopKeys(keys, mode);
    if ks != [] {
      assert ks[0] in ks;
    }
  }

  /**
   * A non-empty dict is rejected iff some top-level key is an unknown
   * operator, and the report lists exactly those keys, in key order.
   */
  lemma DictOperatorCheck(entries: seq<(string, Value)>, mode: Reading)
    requires entries != []
    ensures QueryFiltersValidator(Dict(entries), mode).Err?
        <==> exists k :: k in Keys(entries) && IsUnknownOperator(k, mode)
    ensures QueryFiltersValidator(Dict(entries), mode).Err? ==>
              QueryFiltersValidator(Dict(entries), mode) == Err(UnknownOperators(UnknownTopKeys(Keys(entries), mode)))
    ensures QueryFiltersValidator(Dict(entries), mode).Ok? ==>
              QueryFiltersValidator(Dict(entries), mode) == Ok(Some(Dict(entries)))
  {
    ValidatorOnDict(entries, mode);
    UnknownTopKeysNonEmptyIff(Keys(entries), mode);
  }

  /** Keys that begin with `$$` are escaped field names and are never reported. */
  lemma EscapedKeysNeverReported(value: Value, k: string, mode: Reading)
    requires |k| >= 2 && k[0] == '$' && k[1] == '$'
    ensures (QueryFiltersValidator(value, mode).Err? && QueryFiltersValidator(value, mode).error.UnknownOperators?)
              ==> k !in QueryFiltersValidator(value, mode).error.keys
  {
  }

  /**
   * Only the top-level keys are examined: two dicts with the same keys, whatever
   * their values, get the same verdict.
   */
  lemma OnlyTopLevelKeysExamined(e1: seq<(string, Value)>, e2: seq<(string, Value)>, mode: Reading)
    requires Keys(e1) == Keys(e2)
    ensures QueryFiltersValidator(Dict(e1), mode).Err? == QueryFiltersValidator(Dict(e2), mode).Err?
    ensures QueryFiltersValidator(Dict(e1), mode).Err? ==>
              QueryFiltersValidator(Dict(e1), mode) == QueryFiltersValidator(Dict(e2), mode)
    ensures QueryFiltersValidator(Dict(e1), mode) == Ok(None) <==> QueryFiltersValidator(Dict(e2), mode) == Ok(None)
  {
    assert |e1| == |Keys(e1)| == |Keys(e2)| == |e2|;
  }

  /** An accepted value validates again to itself. */
  lemma Idempotent(value: Value, mode: Reading)
    requires QueryFiltersValidator(value, mode).Ok? && QueryFiltersValidator(value, mode).value.Some?
    ensures QueryFiltersValidator(QueryFiltersValidator(value, mode).value.value, mode) == QueryFiltersValidator(value, mode)
  {
  }

  /** Acceptance iff a non-empty dict without unknown operators, or (documented reading) a list of dicts. */
  lemma AcceptedIff(value: Value, mode: Reading)
    ensures QueryFiltersValidator(value, mode) == Ok(Some(value))
        <==> || (value.Dict? && value.entries != []
                 && forall k :: k in Keys(value.entries) ==> !IsUnknownOperator(k, mode))
             || (mode == Intended && value.List? && value.items != [] && IsDictOrListOfDicts(value))
  {
    if value.Dict? && value.entries != [] {
      ValidatorOnDict(value.entries, mode);
      UnknownTopKeysNonEmptyIff(Keys(value.entries), mode);
    }
    if value.List? && value.items != [] && IsDictOrListOfDicts(value) {
      ListKeys(value.items, mode);
    }
  }

  /** A list is checked as the one key `$and`. */
  lemma ListKeys(items: seq<Value>, mode: Reading)
    ensures UnknownTopKeys(Keys(Normalized(List(items))), mode) == if mode == AsWritten then ["$and"] else []
  {
    var wrapped := Normalized(List(items));
    assert Keys(wrapped) == ["$and"] by {
      assert wrapped[1..] == [];
    }
    assert UnknownTopKeys(["$and"], mode) == UnknownTopKeys(["$and"][1..], mode) + (if mode == AsWritten then ["$and"] else []);
    assert ["$and"][1..] == [];
  }

  /** `$maybe` is reported, alone, in both readings. */
  lemma UnknownOperatorReported(field: Value, mode: Reading)
    ensures QueryFiltersValidator(Dict([("$maybe", List([Dict([("field1", field)])]))]), mode)
            == Err(UnknownOperators(["$maybe"]))
  {
    var d := [("$maybe", List([Dict([("field1", field)])]))];
    assert Keys(d) == ["$maybe"] by { assert d[1..] == []; }
    assert UnknownTopKeys(["$maybe"], mode) == ["$maybe"] by { assert ["$maybe"][1..] == []; }
  }

  // ---------------------------------------------------------------------
  // The combinators, as written and as documented

  /**
   * As written, the combinators are rejected too: a dict holding `$or` or `$and`
   * is reported with that key among the unknown operators.
   */
  lemma CombinatorKeysRejected(entries: seq<(string, Value)>, k: string)
    requires k == "$or" || k == "$and"
    requires k in Keys(entries)
    ensures QueryFiltersValidator(Dict(entries), AsWritten).Err?
    ensures QueryFiltersValidator(Dict(entries), AsWritten).error.UnknownOperators?
    ensures k in QueryFiltersValidator(Dict(entries), AsWritten).error.keys
  {
    assert IsUnknownOperator(k, AsWritten);
    ValidatorOnDict(entries, AsWritten);
  }

  /**
   * As written, no list is ever accepted: a non-empty list of dicts is wrapped
   * as `{"$and": value}` and rejected for its `$and` key; any other non-empty
   * list fails the structural check.
   */
  lemma NonEmptyListsRejected(items: seq<Value>)
    requires items != []
    ensures QueryFiltersValidator(List(items), AsWritten) ==
              if forall i :: 0 <= i < |items| ==> items[i].Dict?
              then Err(UnknownOperators(["$and"]))
              else Err(StructureError)
  {
    ListKeys(items, AsWritten);
  }

  /**
   * As documented, `$or` and `$and` are accepted beside field keys: a
   * non-empty dict passes exactly when its other keys are not `$` keys.
   */
  lemma IntendedAcceptsCombinatorKeys(entries: seq<(string, Value)>)
    requires entries != []
    ensures QueryFiltersValidator(Dict(entries), Intended).Ok?
        <==> forall k :: k in Keys(entries) && IsOperatorKey(k) ==> k == "$or" || k == "$and"
  {
    DictOperatorCheck(entries, Intended);
  }

  /** As documented, a non-empty list of dicts passes unchanged. */
  lemma IntendedAcceptsListsOfDicts(items: seq<Value>)
    requires items != []
    requires forall i :: 0 <= i < |items| ==> items[i].Dict?
    ensures QueryFiltersValidator(List(items), Intended) == Ok(Some(List(items)))
  {
    ListKeys(items, Intended);
  }
}
