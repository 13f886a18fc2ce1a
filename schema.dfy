/**
 * `merge_search_schemas` of ckanext/search/schema.py: fold a list of search
 * schemas into one, keeping the first field seen under each name.
 */
module Schema {
  import opened Wrappers
  import opened Json

  /** A field definition: a dict such as `{"name": "title", "type": "text"}`. */
  type Field = map<string, Value>

  /** A `SearchSchema` dict; `None` stands for a missing `version` or `fields` key. */
  datatype SearchSchema = SearchSchema(version: Option<Value>, fields: Option<seq<Field>>)

  /** `field.get("name")`: Python's None when the key is missing. */
  function NameOf(f: Field): Value {
    if "name" in f then f["name"] else Null
  }

  /** The key under which `field_map` stores a field. */
  function FieldKey(f: Field): Value {
    HashKey(NameOf(f))
  }

  /** Python's `==` on two fields: the same keys, and equal values under each. */
  predicate SameDefinition(f: Field, e: Field) {
    f.Keys == e.Keys && forall k :: k in f ==> PyEq(f[k], e[k])
  }

  lemma SameDefinitionSymmetric(f: Field, e: Field)
    requires SameDefinition(f, e)
    ensures SameDefinition(e, f)
  {
    forall k | k in e ensures PyEq(e[k], f[k]) {
      PyEqSymmetric(f[k], e[k]);
    }
  }

  lemma SameDefinitionTransitive(f: Field, e: Field, g: Field)
    requires SameDefinition(f, e) && SameDefinition(e, g)
    ensures SameDefinition(f, g)
  {
    forall k | k in f ensures PyEq(f[k], g[k]) {
      PyEqTransitive(f[k], e[k], g[k]);
    }
  }

  /**
   * How a repeated name is compared with the field kept for it: as the code is
   * written, or as its docstring says.
   */
  datatype CheckMode = AsWritten | Intended

  datatype MergeError =
    | UnhashableName(name: Value)                                  // TypeError
    | MissingNameKey                                               // KeyError: 'name'
    | ConflictingDefinitions(name: Value, existing: Field, field: Field)  // ValueError

  /**
   * The conflict test. As written, `field.copy().pop("name")` yields the name
   * itself, so the two sides are the two (equal) names; the docstring asks for
   * the two fields without their names to be compared.
   */
  predicate Conflicting(existing: Field, f: Field, mode: CheckMode)
    requires "name" in existing && "name" in f
  {
    match mode
    case AsWritten => !PyEq(f["name"], existing["name"])
    case Intended => !SameDefinition(f - {"name"}, existing - {"name"})
  }

  /** The loop's state: `result["fields"]` and `field_map`. */
  datatype MergeState = MergeState(kept: seq<Field>, seen: map<Value, Field>)

  /** One turn of the inner loop. */
  function MergeStep(st: MergeState, f: Field, mode: CheckMode): Result<MergeState, MergeError> {
    var name := NameOf(f);
    if !Hashable(name) then Err(UnhashableName(name))
    else
      var k := HashKey(name);
      if k in st.seen then
        var existing := st.seen[k];
        if "name" !in f || "name" !in existing then Err(MissingNameKey)
        else if Conflicting(existing, f, mode) then Err(ConflictingDefinitions(name, existing, f))
        else Ok(st)
      else Ok(MergeState(st.kept + [f], st.seen[k := f]))
  }

  /** The loop run over a flat list of fields; the first exception ends it. */
  function MergeFields(fs: seq<Field>, mode: CheckMode): Result<MergeState, MergeError>
    decreases |fs|
  {
    if fs == [] then Ok(MergeState([], map[]))
    else
      match MergeFields(fs[..|fs| - 1], mode)
      case Err(e) => Err(e)
      case Ok(st) => MergeStep(st, fs[|fs| - 1], mode)
  }

  /** `schema.get("fields", [])`. */
  function FieldsOf(s: SearchSchema): seq<Field> {
    s.fields.GetOr([])
  }

  /** Every field of every schema, schemas in order and fields in order. */
  function AllFields(schemas: seq<SearchSchema>): seq<Field>
    decreases |schemas|
  {
    if schemas == [] then []
    else AllFields(schemas[..|schemas| - 1]) + FieldsOf(schemas[|schemas| - 1])
  }

  /** What `merge_search_schemas` returns or raises. */
  function MergedSchema(schemas: seq<SearchSchema>, mode: CheckMode): Result<SearchSchema, MergeError> {
    if schemas == [] then Ok(SearchSchema(Some(Int(1)), Some([])))
    else
      match MergeFields(AllFields(schemas), mode)
      case Err(e) => Err(e)
      case Ok(st) => Ok(SearchSchema(Some(schemas[0].version.GetOr(Int(1))), Some(st.kept)))
  }

  /**
   * `merge_search_schemas`, with its nested loops over schemas and fields;
   * `mode` picks the conflict test (the code's is `AsWritten`).
   */
  method MergeSearchSchemas(schemas: seq<SearchSchema>, mode: CheckMode) returns (r: Result<SearchSchema, MergeError>)
    ensures r == MergedSchema(schemas, mode)
  {
    if schemas == [] {
      return Ok(SearchSchema(Some(Int(1)), Some([])));
    }
    var version := schemas[0].version.GetOr(Int(1));
    var fields: seq<Field> := [];
    var fieldMap: map<Value, Field> := map[];
    for i := 0 to |schemas|
      invariant MergeFields(AllFields(schemas[..i]), mode) == Ok(MergeState(fields, fieldMap))
    {
      var schemaFields := FieldsOf(schemas[i]);
      ghost var prefix := AllFields(schemas[..i]);
      assert AllFields(schemas[..i + 1]) == prefix + schemaFields by {
        assert schemas[..i + 1][..i] == schemas[..i];
      }
      assert prefix + schemaFields[..0] == prefix;
      for j := 0 to |schemaFields|
        invariant MergeFields(prefix + schemaFields[..j], mode) == Ok(MergeState(fields, fieldMap))
      {
        var field := schemaFields[j];
        MergeFieldsNext(prefix, schemaFields, j, mode);
        var name := NameOf(field);
        if !Hashable(name) {
          ErrorSurvives(schemas, i, j, mode);
          return Err(UnhashableName(name));
        }
        var key := HashKey(name);
        if key in fieldMap {
          var existing := fieldMap[key];
          if "name" !in field || "name" !in existing {
            ErrorSurvives(schemas, i, j, mode);
            return Err(MissingNameKey);
          }
          if Conflicting(existing, field, mode) {
            ErrorSurvives(schemas, i, j, mode);
            return Err(ConflictingDefinitions(name, existing, field));
          }
        } else {
          fieldMap := fieldMap[key := field];
          fields := fields + [field];
        }
      }
      assert schemaFields[..|schemaFields|] == schemaFields;
    }
    assert schemas[..|schemas|] == schemas;
    return Ok(SearchSchema(Some(version), Some(fields)));
  }

  /** The inner loop's turn for field `j` continues from the state the earlier fields left. */
  lemma MergeFieldsNext(done: seq<Field>, sf: seq<Field>, j: nat, mode: CheckMode)
    requires j < |sf| && MergeFields(done + sf[..j], mode).Ok?
    ensures MergeFields(done + sf[..j + 1], mode) == MergeStep(MergeFields(done + sf[..j], mode).value, sf[j], mode)
  {
    assert sf[..j + 1] == sf[..j] + [sf[j]];
    MergeFieldsSnoc(done, sf[..j], sf[j], mode);
  }

  /** One more turn of the inner loop. */
  lemma MergeFieldsSnoc(done: seq<Field>, more: seq<Field>, f: Field, mode: CheckMode)
    ensures MergeFields(done + more, mode).Err? ==>
              MergeFields(done + (more + [f]), mode) == MergeFields(done + more, mode)
    ensures MergeFields(done + more, mode).Ok? ==>
              MergeFields(done + (more + [f]), mode) == MergeStep(MergeFields(done + more, mode).value, f, mode)
  {
    assert done + (more + [f]) == (done + more) + [f];
    assert ((done + more) + [f])[..|done + more|] == done + more;
  }

  // ---------------------------------------------------------------------
  // Lemmas about the flattening of schemas into fields

  lemma {:induction false} AllFieldsAppend(a: seq<SearchSchema>, b: seq<SearchSchema>)
    ensures AllFields(a + b) == AllFields(a) + AllFields(b)
    decreases |b|
  {
    if b == [] {
      assert a + b == a;
    } else {
      var b' := b[..|b| - 1];
      assert (a + b)[..|a + b| - 1] == a + b';
      AllFieldsAppend(a, b');
    }
  }

  /** A schema without a `fields` key contributes nothing. */
  lemma SchemaWithoutFieldsContributesNothing(a: seq<SearchSchema>, s: SearchSchema, b: seq<SearchSchema>)
    requires s.fields.None?
    ensures AllFields(a + [s] + b) == AllFields(a + b)
  {
    AllFieldsAppend(a + [s], b);
    AllFieldsAppend(a, [s]);
    AllFieldsAppend(a, b);
    assert AllFields([s]) == [] by {
      assert [s][..0] == [];
    }
  }

  /** Once the loop has raised, later fields change nothing. */
  lemma {:induction false} ErrorSticks(fs: seq<Field>, rest: seq<Field>, mode: CheckMode)
    requires MergeFields(fs, mode).Err?
    ensures MergeFields(fs + rest, mode) == MergeFields(fs, mode)
    decreases |rest|
  {
    if rest != [] {
      var rest' := rest[..|rest| - 1];
      assert (fs + rest)[..|fs + rest| - 1] == fs + rest';
      ErrorSticks(fs, rest', mode);
    } else {
      assert fs + rest == fs;
    }
  }

  /** An exception raised at field `j` of schema `i` is what the merge raises. */
  lemma ErrorSurvives(schemas: seq<SearchSchema>, i: nat, j: nat, mode: CheckMode)
    requires i < |schemas| && j < |FieldsOf(schemas[i])|
    requires MergeFields(AllFields(schemas[..i]) + FieldsOf(schemas[i])[..j + 1], mode).Err?
    ensures MergedSchema(schemas, mode)
            == Err(MergeFields(AllFields(schemas[..i]) + FieldsOf(schemas[i])[..j + 1], mode).error)
  {
    var sf := FieldsOf(schemas[i]);
    var done := AllFields(schemas[..i]) + sf[..j + 1];
    var rest := sf[j + 1..] + AllFields(schemas[i + 1..]);
    calc {
      AllFields(schemas);
      { assert schemas == schemas[..i + 1] + schemas[i + 1..]; AllFieldsAppend(schemas[..i + 1], schemas[i + 1..]); }
      AllFields(schemas[..i + 1]) + AllFields(schemas[i + 1..]);
      { assert schemas[..i + 1][..i] == schemas[..i]; }
      AllFields(schemas[..i]) + sf + AllFields(schemas[i + 1..]);
      { assert sf == sf[..j + 1] + sf[j + 1..]; }
      done + rest;
    }
    ErrorSticks(done, rest, mode);
  }

  // ---------------------------------------------------------------------
  // The reference: the first field under each name, in input order

  /** The names (as dict keys) of a list of fields. */
  ghost function Names(fs: seq<Field>): set<Value>
    decreases |fs|
  {
    if fs == [] then {} else Names(fs[..|fs| - 1]) + {FieldKey(fs[|fs| - 1])}
  }

  /** The first field named `k`, if there is one. */
  ghost function FirstNamed(fs: seq<Field>, k: Value): (r: Option<Field>)
    ensures r.Some? <==> k in Names(fs)
    ensures r.Some? ==> FieldKey(r.value) == k
    decreases |fs|
  {
    if fs == [] then None
    else if FirstNamed(fs[..|fs| - 1], k).Some? then FirstNamed(fs[..|fs| - 1], k)
    else if FieldKey(fs[|fs| - 1]) == k then Some(fs[|fs| - 1])
    else None
  }

  /** The fields no earlier field shares a name with, in input order. */
  ghost function FirstOccurrences(fs: seq<Field>): seq<Field>
    decreases |fs|
  {
    if fs == [] then []
    else
      var p := fs[..|fs| - 1];
      FirstOccurrences(p) + if FieldKey(fs[|fs| - 1]) in Names(p) then [] else [fs[|fs| - 1]]
  }

  /** No two fields share a name. */
  ghost predicate DistinctNames(kept: seq<Field>) {
    forall t, u :: 0 <= t < u < |kept| ==> FieldKey(kept[t]) != FieldKey(kept[u])
  }

  /** The `field_map` that goes with the kept fields: each one under its own key. */
  ghost function SeenOf(kept: seq<Field>): map<Value, Field>
    decreases |kept|
  {
    if kept == [] then map[]
    else SeenOf(kept[..|kept| - 1])[FieldKey(kept[|kept| - 1]) := kept[|kept| - 1]]
  }

  lemma {:induction false} NamesAppend(a: seq<Field>, b: seq<Field>)
    ensures Names(a + b) == Names(a) + Names(b)
    decreases |b|
  {
    if b == [] {
      assert a + b == a;
    } else {
      assert (a + b)[..|a + b| - 1] == a + b[..|b| - 1];
      NamesAppend(a, b[..|b| - 1]);
    }
  }

  lemma {:induction false} NamesHas(fs: seq<Field>, i: nat)
    requires i < |fs|
    ensures FieldKey(fs[i]) in Names(fs)
    decreases |fs|
  {
    if i < |fs| - 1 {
      var p := fs[..|fs| - 1];
      assert p[i] == fs[i];
      NamesHas(p, i);
    }
  }

  lemma {:induction false} SeenOfKeys(kept: seq<Field>)
    ensures SeenOf(kept).Keys == Names(kept)
    decreases |kept|
  {
    if kept != [] {
      SeenOfKeys(kept[..|kept| - 1]);
    }
  }

  /** Every name of the input is the name of one of the first occurrences. */
  lemma {:induction false} FirstOccurrencesNames(fs: seq<Field>)
    ensures Names(FirstOccurrences(fs)) == Names(fs)
    decreases |fs|
  {
    if fs != [] {
      var p := fs[..|fs| - 1];
      var last := fs[|fs| - 1];
      FirstOccurrencesNames(p);
      var extra := if FieldKey(last) in Names(p) then [] else [last];
      NamesAppend(FirstOccurrences(p), extra);
      assert Names([last]) == {FieldKey(last)} by {
        assert [last][..0] == [];
      }
    }
  }

  /** The first occurrences carry distinct names. */
  lemma {:induction false} FirstOccurrencesDistinct(fs: seq<Field>)
    ensures DistinctNames(FirstOccurrences(fs))
    decreases |fs|
  {
    if fs != [] {
      var p := fs[..|fs| - 1];
      var last := fs[|fs| - 1];
      FirstOccurrencesDistinct(p);
      FirstOccurrencesNames(p);
      var kept := FirstOccurrences(p);
      if FieldKey(last) !in Names(p) {
        var r := kept + [last];
        forall t, u | 0 <= t < u < |r| ensures FieldKey(r[t]) != FieldKey(r[u]) {
          if u == |kept| {
            NamesHas(kept, t);
          }
        }
      } else {
        assert FirstOccurrences(fs) == kept + [];
      }
    }
  }

  /** `field_map` stores, under each name, the first field with that name. */
  lemma {:induction false} SeenOfFirstOccurrences(fs: seq<Field>, k: Value)
    requires k in Names(fs)
    ensures SeenOfKeysAre(fs) && SeenOf(FirstOccurrences(fs))[k] == FirstNamed(fs, k).value
    decreases |fs|
  {
    var p := fs[..|fs| - 1];
    var last := fs[|fs| - 1];
    FirstOccurrencesNames(p);
    SeenOfKeys(FirstOccurrences(p));
    SeenOfKeysAreHolds(fs);
    var kept := FirstOccurrences(p);
    if FieldKey(last) in Names(p) {
      assert FirstOccurrences(fs) == kept by {
        assert kept + [] == kept;
      }
      assert k in Names(p);
      assert FirstNamed(fs, k) == FirstNamed(p, k);
      SeenOfFirstOccurrences(p, k);
    } else {
      var r := kept + [last];
      assert r[..|r| - 1] == kept;
      if k != FieldKey(last) {
        SeenOfFirstOccurrences(p, k);
      }
    }
  }

  /** The keys of `field_map` are the names seen so far. */
  ghost predicate SeenOfKeysAre(fs: seq<Field>) {
    SeenOf(FirstOccurrences(fs)).Keys == Names(fs)
  }

  lemma SeenOfKeysAreHolds(fs: seq<Field>)
    ensures SeenOfKeysAre(fs)
  {
    SeenOfKeys(FirstOccurrences(fs));
    FirstOccurrencesNames(fs);
  }

  /**
   * After a run without exception the kept fields are the first occurrences,
   * and `field_map` stores each of them under its name.
   */
  lemma {:induction false} MergeFieldsKeepsFirstOccurrences(fs: seq<Field>, mode: CheckMode)
    requires MergeFields(fs, mode).Ok?
    ensures MergeFields(fs, mode).value == MergeState(FirstOccurrences(fs), SeenOf(FirstOccurrences(fs)))
    decreases |fs|
  {
    if fs != [] {
      var p := fs[..|fs| - 1];
      var last := fs[|fs| - 1];
      var k := FieldKey(last);
      MergeFieldsKeepsFirstOccurrences(p, mode);
      SeenOfKeysAreHolds(p);
      var kept := FirstOccurrences(p);
      var st := MergeState(kept, SeenOf(kept));
      assert MergeFields(fs, mode) == MergeStep(st, last, mode);
      assert k in st.seen <==> k in Names(p);
      if k in Names(p) {
        assert FirstOccurrences(fs) == kept + [] == kept;
        assert MergeFields(fs, mode) == Ok(st);
      } else {
        var r := kept + [last];
        assert FirstOccurrences(fs) == r;
        assert r[..|r| - 1] == kept && r[|r| - 1] == last;
        assert SeenOf(r) == SeenOf(kept)[k := last];
        assert MergeFields(fs, mode) == Ok(MergeState(r, SeenOf(r)));
      }
    }
  }

  // ---------------------------------------------------------------------
  // When the merge raises

  /**
   * Field `i` passes the loop body: its name is hashable and, if an earlier
   * field has the same name, both carry a `name` key and do not conflict.
   */
  ghost predicate AcceptableAt(fs: seq<Field>, i: nat, mode: CheckMode)
    requires i < |fs|
  {
    && Hashable(NameOf(fs[i]))
    && match FirstNamed(fs[..i], FieldKey(fs[i]))
       case None => true
       case Some(existing) => "name" in existing && "name" in fs[i] && !Conflicting(existing, fs[i], mode)
  }

  /** The last field passes the loop body exactly when it is acceptable. */
  lemma StepOkIff(fs: seq<Field>, mode: CheckMode)
    requires fs != [] && MergeFields(fs[..|fs| - 1], mode).Ok?
    ensures MergeFields(fs, mode).Ok? <==> AcceptableAt(fs, |fs| - 1, mode)
  {
    var p := fs[..|fs| - 1];
    var k := FieldKey(fs[|fs| - 1]);
    MergeFieldsKeepsFirstOccurrences(p, mode);
    SeenOfKeysAreHolds(p);
    if k in Names(p) {
      SeenOfFirstOccurrences(p, k);
    }
  }

  /** Acceptability of a field depends only on the fields up to it. */
  lemma AcceptablePrefix(fs: seq<Field>, m: nat, mode: CheckMode)
    requires m <= |fs|
    ensures forall i :: 0 <= i < m ==> (AcceptableAt(fs[..m], i, mode) <==> AcceptableAt(fs, i, mode))
  {
    forall i | 0 <= i < m ensures AcceptableAt(fs[..m], i, mode) <==> AcceptableAt(fs, i, mode) {
      assert fs[..m][..i] == fs[..i] && fs[..m][i] == fs[i];
    }
  }

  /** The merge completes exactly when every field passes the loop body. */
  lemma {:induction false} MergeFieldsOkIff(fs: seq<Field>, mode: CheckMode)
    ensures MergeFields(fs, mode).Ok? <==> forall i :: 0 <= i < |fs| ==> AcceptableAt(fs, i, mode)
    decreases |fs|
  {
    if fs != [] {
      var p := fs[..|fs| - 1];
      MergeFieldsOkIff(p, mode);
      AcceptablePrefix(fs, |fs| - 1, mode);
      if MergeFields(p, mode).Ok? {
        StepOkIff(fs, mode);
      }
    }
  }

  /** As written the `ValueError` is unreachable: a name clash never raises it. */
  lemma {:induction false} NeverConflictsAsWritten(fs: seq<Field>)
    ensures !(MergeFields(fs, AsWritten).Err? && MergeFields(fs, AsWritten).error.ConflictingDefinitions?)
    decreases |fs|
  {
    if fs == [] {
      return;
    }
    var p := fs[..|fs| - 1];
    NeverConflictsAsWritten(p);
    if MergeFields(p, AsWritten).Ok? {
      MergeFieldsKeepsFirstOccurrences(p, AsWritten);
      SeenOfKeysAreHolds(p);
      var k := FieldKey(fs[|fs| - 1]);
      if k in Names(p) {
        SeenOfFirstOccurrences(p, k);
      }
    }
  }

  /** Once some field is named `k`, longer lists keep that first field. */
  lemma {:induction false} FirstNamedStays(fs: seq<Field>, i: nat, k: Value)
    requires i <= |fs| && FirstNamed(fs[..i], k).Some?
    ensures FirstNamed(fs, k) == FirstNamed(fs[..i], k)
    decreases |fs| - i
  {
    if i < |fs| {
      assert fs[..i + 1][..i] == fs[..i];
      FirstNamedStays(fs, i + 1, k);
    } else {
      assert fs[..i] == fs;
    }
  }

  /**
   * With the docstring's check, a merge that completes saw, for each name,
   * definitions that Python finds equal apart from the name.
   */
  lemma IntendedMergeMeansConsistent(fs: seq<Field>, i: nat, j: nat)
    requires i < j < |fs| && FieldKey(fs[i]) == FieldKey(fs[j])
    requires MergeFields(fs, Intended).Ok?
    ensures SameDefinition(fs[i] - {"name"}, fs[j] - {"name"})
  {
    var k := FieldKey(fs[i]);
    MergeFieldsOkIff(fs, Intended);
    assert AcceptableAt(fs, i, Intended) && AcceptableAt(fs, j, Intended);
    assert fs[..i + 1][..i] == fs[..i];
    assert fs[..j][..i + 1] == fs[..i + 1];
    FirstNamedStays(fs[..j], i + 1, k);
    if FirstNamed(fs[..i], k).None? {
      assert FirstNamed(fs[..i + 1], k) == Some(fs[i]);
      SameDefinitionSymmetric(fs[j] - {"name"}, fs[i] - {"name"});
    } else {
      var e := FirstNamed(fs[..i], k).value;
      FirstNamedStays(fs[..i + 1], i, k);
      SameDefinitionSymmetric(fs[j] - {"name"}, e - {"name"});
      SameDefinitionTransitive(fs[i] - {"name"}, e - {"name"}, fs[j] - {"name"});
    }
  }

  // ---------------------------------------------------------------------
  // The merged schema

  /** No schemas: version 1 and no fields; otherwise the first schema's version, or 1. */
  lemma MergedHeader(schemas: seq<SearchSchema>, mode: CheckMode)
    ensures schemas == [] ==> MergedSchema(schemas, mode) == Ok(SearchSchema(Some(Int(1)), Some([])))
    ensures schemas != [] && MergedSchema(schemas, mode).Ok? ==>
              MergedSchema(schemas, mode).value.version == Some(schemas[0].version.GetOr(Int(1)))
  {
  }

  /** The merged fields are the first field under each name, in input order. */
  lemma MergedFieldsAreFirstOccurrences(schemas: seq<SearchSchema>, mode: CheckMode)
    requires schemas != [] && MergedSchema(schemas, mode).Ok?
    ensures MergedSchema(schemas, mode).value.fields == Some(FirstOccurrences(AllFields(schemas)))
  {
    MergeFieldsKeepsFirstOccurrences(AllFields(schemas), mode);
  }

  /**
   * Every name occurs once among the merged fields, every input name occurs,
   * and the field kept for a name is the first field with that name.
   */
  lemma MergedNames(schemas: seq<SearchSchema>, mode: CheckMode)
    requires schemas != [] && MergedSchema(schemas, mode).Ok?
    ensures DistinctNames(MergedSchema(schemas, mode).value.fields.value)
    ensures Names(MergedSchema(schemas, mode).value.fields.value) == Names(AllFields(schemas))
    ensures forall k :: k in Names(AllFields(schemas)) ==>
              && k in SeenOf(MergedSchema(schemas, mode).value.fields.value)
              && SeenOf(MergedSchema(schemas, mode).value.fields.value)[k] == FirstNamed(AllFields(schemas), k).value
  {
    var fs := AllFields(schemas);
    MergeFieldsKeepsFirstOccurrences(fs, mode);
    FirstOccurrencesDistinct(fs);
    FirstOccurrencesNames(fs);
    forall k | k in Names(fs)
      ensures k in SeenOf(FirstOccurrences(fs)) && SeenOf(FirstOccurrences(fs))[k] == FirstNamed(fs, k).value
    {
      SeenOfFirstOccurrences(fs, k);
    }
  }

  /** The merge has no more fields than its inputs together. */
  lemma {:induction false} FirstOccurrencesNoLonger(fs: seq<Field>)
    ensures |FirstOccurrences(fs)| <= |fs|
    decreases |fs|
  {
    if fs != [] {
      FirstOccurrencesNoLonger(fs[..|fs| - 1]);
    }
  }

  // ---------------------------------------------------------------------
  // The unreachable conflict check, on an example

  /** Two definitions of the same name that differ in their type. */
  function TitleAs(t: string): Field {
    map["name" := Str("title"), "type" := Str(t)]
  }

  /** Two schemas of one field each: the second field meets the state the first left. */
  lemma MergeTwoSingletons(f1: Field, f2: Field, mode: CheckMode)
    requires Hashable(NameOf(f1))
    ensures MergedSchema([SearchSchema(None, Some([f1])), SearchSchema(None, Some([f2]))], mode)
            == match MergeStep(MergeState([f1], map[FieldKey(f1) := f1]), f2, mode)
               case Err(e) => Err(e)
               case Ok(st) => Ok(SearchSchema(Some(Int(1)), Some(st.kept)))
  {
    var schemas := [SearchSchema(None, Some([f1])), SearchSchema(None, Some([f2]))];
    assert schemas[..1][..0] == [];
    assert AllFields(schemas[..1]) == [f1];
    assert AllFields(schemas) == [f1, f2];
    assert [f1, f2][..1] == [f1] && [f1][..0] == [];
    assert MergeFields([f1], mode) == Ok(MergeState([f1], map[FieldKey(f1) := f1]));
  }

  /** As written, differing definitions are merged silently: the first is kept. */
  lemma AsWrittenKeepsConflictingField()
    ensures MergedSchema([SearchSchema(None, Some([TitleAs("text")])), SearchSchema(None, Some([TitleAs("string")]))], AsWritten)
            == Ok(SearchSchema(Some(Int(1)), Some([TitleAs("text")])))
  {
    MergeTwoSingletons(TitleAs("text"), TitleAs("string"), AsWritten);
  }

  /** With the docstring's check the same input raises the conflict. */
  lemma IntendedRejectsConflictingField()
    ensures MergedSchema([SearchSchema(None, Some([TitleAs("text")])), SearchSchema(None, Some([TitleAs("string")]))], Intended)
            == Err(ConflictingDefinitions(Str("title"), TitleAs("text"), TitleAs("string")))
  {
    MergeTwoSingletons(TitleAs("text"), TitleAs("string"), Intended);
    assert !PyEq((TitleAs("string") - {"name"})["type"], (TitleAs("text") - {"name"})["type"]);
  }

  /** A field `multiple` set to `True` in one definition and `1` in another. */
  function MultipleAs(v: Value): Field {
    map["name" := Str("tags"), "multiple" := v]
  }

  /** With the docstring's check, definitions Python finds equal (`True == 1`) merge silently. */
  lemma IntendedMergesEqualDefinitions()
    ensures MergedSchema([SearchSchema(None, Some([MultipleAs(Bool(true))])), SearchSchema(None, Some([MultipleAs(Int(1))]))], Intended)
            == Ok(SearchSchema(Some(Int(1)), Some([MultipleAs(Bool(true))])))
  {
    MergeTwoSingletons(MultipleAs(Bool(true)), MultipleAs(Int(1)), Intended);
    var f, e := MultipleAs(Int(1)) - {"name"}, MultipleAs(Bool(true)) - {"name"};
    assert f.Keys == e.Keys == {"multiple"};
    assert PyEq(f["multiple"], e["multiple"]);
  }
}
