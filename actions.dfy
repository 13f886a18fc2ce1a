/**
 * The `search` action of ckanext/search/logic/actions.py: collect the extra
 * parameters the plugins accept, sort the caller's parameters into the
 * standard query and the additional parameters, validate, let the features
 * adjust the query, restrict it by permission labels, and hand it to the
 * configured search provider.
 *
 * CKAN's plugin registry, `navl_validate`, the authorisation helpers and the
 * plugins' own methods are not modelled: they are the function-valued fields
 * of `Host` and `Provider`/`Feature`, applied where the action calls them.
 */
module Actions {
  import opened Wrappers
  import opened Json

  type Entries = seq<(string, Value)>

  /** A navl validator, by name and the arguments its factory was given. */
  datatype Validator = Validator(name: string, args: seq<Value>)

  /** A navl schema: parameter name to its validators. */
  type ParamSchema = map<string, seq<Validator>>

  /** `default_search_query_schema()` of ckanext/search/logic/schema.py. */
  const DefaultSearchQuerySchema: ParamSchema := map[
    "q" := [Validator("ignore_missing", []), Validator("unicode_safe", [])],
    "limit" := [Validator("default", [Int(10)]), Validator("natural_number_validator", []),
                Validator("limit_to_configured_maximum", [Str("ckan.search.rows_max"), Int(1000)])],
    "sort" := [Validator("ignore_missing", []), Validator("json_list_or_string", [])],
    "start" := [Validator("ignore_missing", []), Validator("ignore_empty", []),
                Validator("natural_number_validator", [])],
    "filters" := [Validator("ignore_missing", []), Validator("convert_to_json_if_string", [])],
    "lang" := [Validator("ignore_missing", [])]
  ]

  /** An `ISearchProvider` plugin: its id, its extra parameters and `search_query(**query)`. */
  datatype Provider = Provider(id: string, querySchema: ParamSchema, searchQuery: Entries -> Value)

  /**
   * An `ISearchFeature` plugin: its extra parameters, `before_query` (which
   * edits the query dict) and `after_query` (which edits the result and may
   * edit the query dict).
   */
  datatype Feature = Feature(
    querySchema: ParamSchema,
    beforeQuery: Entries -> Entries,
    afterQuery: (Value, Entries) -> (Value, Entries))

  /** The action's `context`: `user`, `ignore_auth` (Null when absent) and `auth_user_obj`. */
  datatype Context = Context(user: Value, ignoreAuth: Value, authUserObj: Option<Value>)

  /**
   * What the action reaches outside this module: the registered plugins in
   * registration order, `config["ckan.search.search_backend"]`,
   * `navl_validate` (data, schema, context to validated data and errors),
   * `authz.is_sysadmin` and `get_permission_labels().get_user_dataset_labels`.
   */
  datatype Host = Host(
    providers: seq<Provider>,
    features: seq<Feature>,
    searchBackend: string,
    navlValidate: (Entries, ParamSchema, Context) -> (Entries, Entries),
    isSysadmin: Value -> bool,
    userDatasetLabels: Value -> seq<string>)

  datatype SearchError =
    | ValidationError(errorDict: Entries)   // ValidationError(...)
    | MissingKey(key: string)               // KeyError
    | FiltersNotADict                       // TypeError on `query_dict["filters"][...] = ...`

  // ---------------------------------------------------------------------
  // The additional-parameter schema

  /** `schema.update(plugin.search_query_schema())` for each plugin in turn. */
  function UpdateAll<P>(base: ParamSchema, plugins: seq<P>, schemaOf: P -> ParamSchema): ParamSchema
    decreases |plugins|
  {
    if plugins == [] then base
    else UpdateAll(base, plugins[..|plugins| - 1], schemaOf) + schemaOf(plugins[|plugins| - 1])
  }

  function ProviderSchema(p: Provider): ParamSchema {
    p.querySchema
  }

  function FeatureSchema(f: Feature): ParamSchema {
    f.querySchema
  }

  /** `additional_params_schema`: the providers' schemas, then the features'. */
  function AdditionalSchema(ps: seq<Provider>, fs: seq<Feature>): ParamSchema {
    UpdateAll(UpdateAll(map[], ps, ProviderSchema), fs, FeatureSchema)
  }

  /** A key is declared after the updates exactly when the base or some plugin declares it. */
  lemma {:induction false} UpdateAllKeys<P>(base: ParamSchema, plugins: seq<P>, schemaOf: P -> ParamSchema, k: string)
    ensures k in UpdateAll(base, plugins, schemaOf) <==>
              k in base || exists j :: 0 <= j < |plugins| && k in schemaOf(plugins[j])
    decreases |plugins|
  {
    if plugins != [] {
      var n := |plugins|;
      var p := plugins[..n - 1];
      UpdateAllKeys(base, p, schemaOf, k);
      if exists j :: 0 <= j < n && k in schemaOf(plugins[j]) {
        var j :| 0 <= j < n && k in schemaOf(plugins[j]);
        if j < n - 1 {
          assert p[j] == plugins[j];
        }
      }
      if exists j :: 0 <= j < n - 1 && k in schemaOf(p[j]) {
        var j :| 0 <= j < n - 1 && k in schemaOf(p[j]);
        assert p[j] == plugins[j];
      }
    }
  }

  /** The last plugin to declare a key decides its validators. */
  lemma {:induction false} UpdateAllLaterWins<P>(base: ParamSchema, plugins: seq<P>, schemaOf: P -> ParamSchema, k: string, j: nat)
    requires j < |plugins| && k in schemaOf(plugins[j])
    requires forall j' :: j < j' < |plugins| ==> k !in schemaOf(plugins[j'])
    ensures k in UpdateAll(base, plugins, schemaOf)
    ensures UpdateAll(base, plugins, schemaOf)[k] == schemaOf(plugins[j])[k]
    decreases |plugins|
  {
    var n := |plugins|;
    if j < n - 1 {
      var p := plugins[..n - 1];
      assert p[j] == plugins[j];
      forall j' | j < j' < n - 1 ensures k !in schemaOf(p[j']) {
        assert p[j'] == plugins[j'];
      }
      UpdateAllLaterWins(base, p, schemaOf, k, j);
    }
  }

  /** A key no plugin declares keeps what the base says about it. */
  lemma {:induction false} UpdateAllUntouched<P>(base: ParamSchema, plugins: seq<P>, schemaOf: P -> ParamSchema, k: string)
    requires forall j :: 0 <= j < |plugins| ==> k !in schemaOf(plugins[j])
    ensures k in UpdateAll(base, plugins, schemaOf) <==> k in base
    ensures k in base ==> UpdateAll(base, plugins, schemaOf)[k] == base[k]
    decreases |plugins|
  {
    if plugins != [] {
      var p := plugins[..|plugins| - 1];
      forall j | 0 <= j < |p| ensures k !in schemaOf(p[j]) {
        assert p[j] == plugins[j];
      }
      UpdateAllUntouched(base, p, schemaOf, k);
    }
  }

  /** A parameter is additional exactly when some provider's or feature's schema declares it. */
  lemma AdditionalParameterIff(ps: seq<Provider>, fs: seq<Feature>, param: string)
    ensures param in AdditionalSchema(ps, fs) <==>
              || (exists i :: 0 <= i < |ps| && param in ps[i].querySchema)
              || (exists i :: 0 <= i < |fs| && param in fs[i].querySchema)
  {
    UpdateAllKeys(map[], ps, ProviderSchema, param);
    UpdateAllKeys(UpdateAll(map[], ps, ProviderSchema), fs, FeatureSchema, param);
  }

  /** A feature's schema overrides every provider's; among features the last one wins. */
  lemma FeatureEntryWins(ps: seq<Provider>, fs: seq<Feature>, param: string, j: nat)
    requires j < |fs| && param in fs[j].querySchema
    requires forall j' :: j < j' < |fs| ==> param !in fs[j'].querySchema
    ensures param in AdditionalSchema(ps, fs) && AdditionalSchema(ps, fs)[param] == fs[j].querySchema[param]
  {
    UpdateAllLaterWins(UpdateAll(map[], ps, ProviderSchema), fs, FeatureSchema, param, j);
  }

  /** With no feature declaring it, the last provider to declare a parameter wins. */
  lemma ProviderEntryWins(ps: seq<Provider>, fs: seq<Feature>, param: string, j: nat)
    requires j < |ps| && param in ps[j].querySchema
    requires forall j' :: j < j' < |ps| ==> param !in ps[j'].querySchema
    requires forall i :: 0 <= i < |fs| ==> param !in fs[i].querySchema
    ensures param in AdditionalSchema(ps, fs) && AdditionalSchema(ps, fs)[param] == ps[j].querySchema[param]
  {
    UpdateAllLaterWins(map[], ps, ProviderSchema, param, j);
    UpdateAllUntouched(UpdateAll(map[], ps, ProviderSchema), fs, FeatureSchema, param);
  }

  /** The two `update` loops. */
  method MergeAdditionalSchemas(providers: seq<Provider>, features: seq<Feature>) returns (schema: ParamSchema)
    ensures schema == AdditionalSchema(providers, features)
  {
    schema := map[];
    for i := 0 to |providers|
      invariant schema == UpdateAll(map[], providers[..i], ProviderSchema)
    {
      assert providers[..i + 1][..i] == providers[..i];
      schema := schema + providers[i].querySchema;
    }
    assert providers[..|providers|] == providers;
    ghost var fromProviders := schema;
    for i := 0 to |features|
      invariant schema == UpdateAll(fromProviders, features[..i], FeatureSchema)
    {
      assert features[..i + 1][..i] == features[..i];
      schema := schema + features[i].querySchema;
    }
    assert features[..|features|] == features;
  }

  // ---------------------------------------------------------------------
  // Sorting the caller's parameters

  /** The `query_dict` the action starts from. */
  const InitialQueryDict: Entries := [
    ("q", Str("")), ("filters", Dict([])), ("sort", Str("")),
    ("start", Str("")), ("limit", Str("")), ("lang", Str(""))
  ]

  const QueryKeys: seq<string> := ["q", "filters", "sort", "start", "limit", "lang"]

  /** The standard parameters are exactly the keys `query_dict` starts with. */
  lemma StandardParametersArePrefilled()
    ensures Keys(InitialQueryDict) == QueryKeys
    ensures forall k :: k in DefaultSearchQuerySchema <==> k in QueryKeys
  {
  }

  /** `{"message": f"Unknown parameter: {param}"}`. */
  function UnknownParameter(param: string): Entries {
    [("message", Str("Unknown parameter: " + param))]
  }

  /** A parameter neither schema accepts. */
  predicate Unknown(param: string, schema: ParamSchema, additional: ParamSchema) {
    param !in schema && param !in additional
  }

  /** `query_dict` and `additional_params` as the loop fills them. */
  datatype Routed = Routed(query: Entries, additional: Entries)

  /** One turn of the loop over `data_dict`. */
  function RouteParam(acc: Routed, param: (string, Value), schema: ParamSchema, additional: ParamSchema): Result<Routed, SearchError> {
    if param.0 in schema then Ok(acc.(query := Put(acc.query, param.0, param.1)))
    else if param.0 in additional then Ok(acc.(additional := Put(acc.additional, param.0, param.1)))
    else Err(ValidationError(UnknownParameter(param.0)))
  }

  /** The loop over `data_dict`, in its key order; the first unknown parameter ends it. */
  function Route(data: Entries, schema: ParamSchema, additional: ParamSchema): Result<Routed, SearchError>
    decreases |data|
  {
    if data == [] then Ok(Routed(InitialQueryDict, []))
    else
      match Route(data[..|data| - 1], schema, additional)
      case Err(e) => Err(e)
      case Ok(acc) => RouteParam(acc, data[|data| - 1], schema, additional)
  }

  /** The loop over `data_dict`. */
  method RouteParameters(data: PyDict, schema: ParamSchema, additional: ParamSchema) returns (r: Result<Routed, SearchError>)
    ensures r == Route(data, schema, additional)
  {
    var queryDict := InitialQueryDict;
    var additionalParams: Entries := [];
    for i := 0 to |data|
      invariant Route(data[..i], schema, additional) == Ok(Routed(queryDict, additionalParams))
    {
      var (param, value) := data[i];
      assert data[..i + 1][..i] == data[..i];
      if param in schema {
        queryDict := Put(queryDict, param, value);
      } else if param in additional {
        additionalParams := Put(additionalParams, param, value);
      } else {
        RouteErrorSticks(data, schema, additional, i + 1);
        return Err(ValidationError(UnknownParameter(param)));
      }
    }
    assert data[..|data|] == data;
    return Ok(Routed(queryDict, additionalParams));
  }

  /** Once a parameter has been rejected, later ones change nothing. */
  lemma {:induction false} RouteErrorSticks(data: Entries, schema: ParamSchema, additional: ParamSchema, m: nat)
    requires m <= |data| && Route(data[..m], schema, additional).Err?
    ensures Route(data, schema, additional) == Route(data[..m], schema, additional)
    decreases |data| - m
  {
    if m < |data| {
      assert data[..m + 1][..m] == data[..m];
      RouteErrorSticks(data, schema, additional, m + 1);
    } else {
      assert data[..m] == data;
    }
  }

  /** The first `m` parameters pass exactly when each of them is known to a schema. */
  lemma {:induction false} RouteOkPrefix(data: Entries, schema: ParamSchema, additional: ParamSchema, m: nat)
    requires m <= |data|
    ensures Route(data[..m], schema, additional).Ok? <==> forall j :: 0 <= j < m ==> !Unknown(data[j].0, schema, additional)
    decreases m
  {
    if m > 0 {
      RouteOkPrefix(data, schema, additional, m - 1);
      assert data[..m][..m - 1] == data[..m - 1];
      assert data[..m][m - 1] == data[m - 1];
    }
  }

  /** The loop completes exactly when every parameter is known to one of the schemas. */
  lemma RouteOkIff(data: Entries, schema: ParamSchema, additional: ParamSchema)
    ensures Route(data, schema, additional).Ok? <==> forall i :: 0 <= i < |data| ==> !Unknown(data[i].0, schema, additional)
  {
    RouteOkPrefix(data, schema, additional, |data|);
    assert data[..|data|] == data;
  }

  /** The first unknown parameter, in key order, is the one reported. */
  lemma RouteRejectsFirstUnknown(data: Entries, schema: ParamSchema, additional: ParamSchema, i: nat)
    requires i < |data| && Unknown(data[i].0, schema, additional)
    requires forall j :: 0 <= j < i ==> !Unknown(data[j].0, schema, additional)
    ensures Route(data, schema, additional) == Err(ValidationError(UnknownParameter(data[i].0)))
  {
    RouteOkPrefix(data, schema, additional, i);
    assert data[..i + 1][..i] == data[..i];
    assert data[..i + 1][i] == data[i];
    RouteErrorSticks(data, schema, additional, i + 1);
  }

  /**
   * When the schema declares only the prefilled keys, `query_dict` keeps its
   * six keys, in order, whatever the caller sends.
   */
  lemma {:induction false} RouteQueryKeys(data: Entries, schema: ParamSchema, additional: ParamSchema)
    requires forall k :: k in schema ==> k in QueryKeys
    requires Route(data, schema, additional).Ok?
    ensures Keys(Route(data, schema, additional).value.query) == QueryKeys
    decreases |data|
  {
    if data != [] {
      var p := data[..|data| - 1];
      var e := data[|data| - 1];
      RouteQueryKeys(p, schema, additional);
      RouteLast(data, schema, additional);
      if e.0 in schema {
        PutKeys(Route(p, schema, additional).value.query, e.0, e.1);
      }
    }
  }

  /** The last parameter is routed from the state the earlier ones left. */
  lemma RouteLast(data: Entries, schema: ParamSchema, additional: ParamSchema)
    requires data != [] && Route(data, schema, additional).Ok?
    ensures Route(data[..|data| - 1], schema, additional).Ok?
    ensures Route(data, schema, additional)
            == RouteParam(Route(data[..|data| - 1], schema, additional).value, data[|data| - 1], schema, additional)
  {
  }

  /** One turn of the loop writes at most its own key of `query_dict`. */
  lemma RouteParamQuery(acc: Routed, e: (string, Value), schema: ParamSchema, additional: ParamSchema, k: string)
    requires RouteParam(acc, e, schema, additional).Ok?
    ensures Get(RouteParam(acc, e, schema, additional).value.query, k)
            == if e.0 in schema && k == e.0 then Some(e.1) else Get(acc.query, k)
  {
    PutGet(acc.query, e.0, e.1, k);
  }

  /** A standard parameter the caller sends overwrites its placeholder in `query_dict`. */
  lemma {:induction false} RouteQueryOverwrites(data: Entries, schema: ParamSchema, additional: ParamSchema, k: string)
    requires DistinctKeys(data) && Route(data, schema, additional).Ok?
    requires k in schema && k in Keys(data)
    ensures Get(Route(data, schema, additional).value.query, k) == Get(data, k)
    decreases |data|
  {
    var p := data[..|data| - 1];
    var e := data[|data| - 1];
    DistinctKeysSnoc(data);
    RouteLast(data, schema, additional);
    GetLast(data, k);
    RouteParamQuery(Route(p, schema, additional).value, e, schema, additional, k);
    if k != e.0 {
      RouteQueryOverwrites(p, schema, additional, k);
    }
  }

  /**
   * Every other key keeps its placeholder: `query_dict` holds nothing the
   * default schema does not declare, even when a plugin declares it too.
   */
  lemma {:induction false} RouteQueryPlaceholders(data: Entries, schema: ParamSchema, additional: ParamSchema, k: string)
    requires Route(data, schema, additional).Ok?
    requires k !in schema || k !in Keys(data)
    ensures Get(Route(data, schema, additional).value.query, k) == Get(InitialQueryDict, k)
    decreases |data|
  {
    if data != [] {
      var p := data[..|data| - 1];
      var e := data[|data| - 1];
      RouteLast(data, schema, additional);
      GetLast(data, k);
      RouteParamQuery(Route(p, schema, additional).value, e, schema, additional, k);
      RouteQueryPlaceholders(p, schema, additional, k);
    }
  }

  /** One turn of the loop writes at most its own key of `additional_params`. */
  lemma RouteParamAdditional(acc: Routed, e: (string, Value), schema: ParamSchema, additional: ParamSchema, k: string)
    requires RouteParam(acc, e, schema, additional).Ok?
    ensures Get(RouteParam(acc, e, schema, additional).value.additional, k)
            == if e.0 !in schema && k == e.0 then Some(e.1) else Get(acc.additional, k)
  {
    PutGet(acc.additional, e.0, e.1, k);
  }

  /**
   * A parameter only a plugin declares goes to `additional_params`, and
   * nothing else does.
   */
  lemma {:induction false} RouteAdditionalLookup(data: Entries, schema: ParamSchema, additional: ParamSchema, k: string)
    requires DistinctKeys(data) && Route(data, schema, additional).Ok?
    ensures Get(Route(data, schema, additional).value.additional, k)
            == if k !in schema && k in additional then Get(data, k) else None
    decreases |data|
  {
    if data != [] {
      var p := data[..|data| - 1];
      var e := data[|data| - 1];
      DistinctKeysSnoc(data);
      RouteLast(data, schema, additional);
      GetLast(data, k);
      RouteParamAdditional(Route(p, schema, additional).value, e, schema, additional, k);
      RouteAdditionalLookup(p, schema, additional, k);
    }
  }

  // ---------------------------------------------------------------------
  // Permission labels

  /** `context.get("ignore_auth") or (user and authz.is_sysadmin(user))`. */
  predicate Privileged(ctx: Context, host: Host) {
    Truthy(ctx.ignoreAuth) || (Truthy(ctx.user) && host.isSysadmin(ctx.user))
  }

  /**
   * `_get_permission_labels`: no labels for a privileged caller, otherwise
   * the labels of `context["auth_user_obj"]` (a `KeyError` when absent).
   */
  function PermissionLabels(ctx: Context, host: Host): (r: Result<Option<seq<string>>, SearchError>)
    ensures r == Ok(None) <==> Privileged(ctx, host)
    ensures r.Err? <==> !Privileged(ctx, host) && ctx.authUserObj.None?
    ensures r.Err? ==> r.error == MissingKey("auth_user_obj")
    ensures r.Ok? && r.value.Some? ==> r.value.value == host.userDatasetLabels(ctx.authUserObj.value)
  {
    if Privileged(ctx, host) then Ok(None)
    else if ctx.authUserObj.None? then Err(MissingKey("auth_user_obj"))
    else Ok(Some(host.userDatasetLabels(ctx.authUserObj.value)))
  }

  /** The labels as the Python list of strings stored in the filters. */
  function LabelsValue(labels: seq<string>): (v: Value)
    ensures v.List? && |v.items| == |labels|
    ensures forall i :: 0 <= i < |labels| ==> v.items[i] == Str(labels[i])
  {
    List(seq(|labels|, i requires 0 <= i < |labels| => Str(labels[i])))
  }

  /**
   * `if labels := ...: query_dict["filters"]["permission_labels"] = labels`:
   * falsy labels leave the query alone; otherwise `filters` must be there
   * (a `KeyError`) and be a dict (a `TypeError`).
   */
  function InjectLabels(q: Entries, labels: Option<seq<string>>): (r: Result<Entries, SearchError>)
    ensures (labels.None? || labels.value == []) ==> r == Ok(q)
    ensures r.Err? <==> labels.Some? && labels.value != [] && (Get(q, "filters").None? || !Get(q, "filters").value.Dict?)
    ensures r.Err? ==> r.error == if Get(q, "filters").None? then MissingKey("filters") else FiltersNotADict
  {
    if labels.None? || labels.value == [] then Ok(q)
    else
      match Get(q, "filters")
      case None => Err(MissingKey("filters"))
      case Some(filters) =>
        if !filters.Dict? then Err(FiltersNotADict)
        else Ok(Put(q, "filters", Dict(Put(filters.entries, "permission_labels", LabelsValue(labels.value)))))
  }

  /**
   * Truthy labels change only the `filters` dict of the query, and in it
   * only `permission_labels`, which then holds the labels.
   */
  lemma InjectLabelsTouchesOnlyFilters(q: Entries, labels: seq<string>)
    requires labels != [] && InjectLabels(q, Some(labels)).Ok?
    ensures Keys(InjectLabels(q, Some(labels)).value) == Keys(q)
    ensures forall k :: k != "filters" ==> Get(InjectLabels(q, Some(labels)).value, k) == Get(q, k)
    ensures Get(InjectLabels(q, Some(labels)).value, "filters")
            == Some(Dict(Put(Get(q, "filters").value.entries, "permission_labels", LabelsValue(labels))))
    ensures Get(Put(Get(q, "filters").value.entries, "permission_labels", LabelsValue(labels)), "permission_labels")
            == Some(LabelsValue(labels))
    ensures forall k :: k != "permission_labels" ==>
              Get(Put(Get(q, "filters").value.entries, "permission_labels", LabelsValue(labels)), k)
              == Get(Get(q, "filters").value.entries, k)
  {
    var filters := Get(q, "filters").value.entries;
    var newFilters := Dict(Put(filters, "permission_labels", LabelsValue(labels)));
    PutKeys(q, "filters", newFilters);
    PutGet(filters, "permission_labels", LabelsValue(labels), "permission_labels");
    PutGet(q, "filters", newFilters, "filters");
    forall k | k != "filters" ensures Get(Put(q, "filters", newFilters), k) == Get(q, k) {
      PutGet(q, "filters", newFilters, k);
    }
    forall k | k != "permission_labels"
      ensures Get(Put(filters, "permission_labels", LabelsValue(labels)), k) == Get(filters, k)
    {
      PutGet(filters, "permission_labels", LabelsValue(labels), k);
    }
  }

  // ---------------------------------------------------------------------
  // Hooks and the provider call

  /** `before_query` of every feature, in order. */
  function BeforeQueryAll(fs: seq<Feature>, q: Entries): Entries
    decreases |fs|
  {
    if fs == [] then q else fs[|fs| - 1].beforeQuery(BeforeQueryAll(fs[..|fs| - 1], q))
  }

  /** `after_query(result, query_dict)` of every feature, in order. */
  function AfterQueryAll(fs: seq<Feature>, result: Value, q: Entries): (Value, Entries)
    decreases |fs|
  {
    if fs == [] then (result, q)
    else
      var (result', q') := AfterQueryAll(fs[..|fs| - 1], result, q);
      fs[|fs| - 1].afterQuery(result', q')
  }

  /** The `before_query` loop. */
  method RunBeforeQuery(features: seq<Feature>, q: Entries) returns (q': Entries)
    ensures q' == BeforeQueryAll(features, q)
  {
    q' := q;
    for i := 0 to |features|
      invariant q' == BeforeQueryAll(features[..i], q)
    {
      assert features[..i + 1][..i] == features[..i];
      q' := features[i].beforeQuery(q');
    }
    assert features[..|features|] == features;
  }

  /** The `after_query` loop. */
  method RunAfterQuery(features: seq<Feature>, result: Value, q: Entries) returns (result': Value, q': Entries)
    ensures (result', q') == AfterQueryAll(features, result, q)
  {
    result', q' := result, q;
    for i := 0 to |features|
      invariant (result', q') == AfterQueryAll(features[..i], result, q)
    {
      assert features[..i + 1][..i] == features[..i];
      result', q' := features[i].afterQuery(result', q').0, features[i].afterQuery(result', q').1;
    }
    assert features[..|features|] == features;
  }

  /** The position of the first provider whose id is the configured backend. */
  function FirstMatchingProvider(ps: seq<Provider>, backend: string): (r: Option<nat>)
    ensures r.None? <==> forall i :: 0 <= i < |ps| ==> ps[i].id != backend
    ensures r.Some? ==> r.value < |ps| && ps[r.value].id == backend
    ensures r.Some? ==> forall j :: 0 <= j < r.value ==> ps[j].id != backend
  {
    if ps == [] then None
    else if ps[0].id == backend then Some(0)
    else match FirstMatchingProvider(ps[1..], backend)
      case None => None
      case Some(i) => Some(i + 1)
  }

  /** The provider's answer, or `{}` when no provider matches. */
  function BackendResult(ps: seq<Provider>, backend: string, q: Entries): Value {
    match FirstMatchingProvider(ps, backend)
    case None => Dict([])
    case Some(i) => ps[i].searchQuery(q)
  }

  /** The provider loop, which stops at the first match. */
  method QueryBackend(providers: seq<Provider>, backend: string, q: Entries) returns (result: Value)
    ensures result == BackendResult(providers, backend, q)
  {
    result := Dict([]);
    var i := 0;
    while i < |providers|
      invariant i <= |providers|
      invariant forall j :: 0 <= j < i ==> providers[j].id != backend
    {
      if providers[i].id == backend {
        MatchIsFirst(providers, backend, i);
        result := providers[i].searchQuery(q);
        break;
      }
      i := i + 1;
    }
  }

  /** A match with no earlier match is the one `FirstMatchingProvider` finds. */
  lemma {:induction false} MatchIsFirst(ps: seq<Provider>, backend: string, i: nat)
    requires i < |ps| && ps[i].id == backend
    requires forall j :: 0 <= j < i ==> ps[j].id != backend
    ensures FirstMatchingProvider(ps, backend) == Some(i)
    decreases i
  {
    if i > 0 {
      assert ps[1..][i - 1] == ps[i];
      forall j | 0 <= j < i - 1 ensures ps[1..][j].id != backend {
        assert ps[1..][j] == ps[j + 1];
      }
      MatchIsFirst(ps[1..], backend, i - 1);
    }
  }

  /**
   * Only the first provider whose id is the configured backend is queried,
   * whatever later providers share its id; with no such provider the result is `{}`.
   */
  lemma ProviderSelection(ps: seq<Provider>, backend: string, q: Entries, i: nat)
    requires i <= |ps|
    requires forall j :: 0 <= j < i ==> ps[j].id != backend
    ensures i < |ps| && ps[i].id == backend ==> BackendResult(ps, backend, q) == ps[i].searchQuery(q)
    ensures i == |ps| ==> BackendResult(ps, backend, q) == Dict([])
  {
    if i < |ps| && ps[i].id == backend {
      MatchIsFirst(ps, backend, i);
    }
  }

  // ---------------------------------------------------------------------
  // The action

  /** What `search` returns or raises. */
  function SearchSpec(ctx: Context, data: Entries, host: Host): Result<Value, SearchError> {
    var schema := DefaultSearchQuerySchema;
    var additional := AdditionalSchema(host.providers, host.features);
    match Route(data, schema, additional)
    case Err(e) => Err(e)
    case Ok(routed) =>
      var (q1, errors1) := host.navlValidate(routed.query, schema, ctx);
      if errors1 != [] then Err(ValidationError(errors1))
      else
        var (a1, errors2) := host.navlValidate(routed.additional, additional, ctx);
        if errors2 != [] then Err(ValidationError(errors2))
        else
          var q2 := BeforeQueryAll(host.features, Put(q1, "additional_params", Dict(a1)));
          match PermissionLabels(ctx, host)
          case Err(e) => Err(e)
          case Ok(labels) =>
            match InjectLabels(q2, labels)
            case Err(e) => Err(e)
            case Ok(q3) => Ok(AfterQueryAll(host.features, BackendResult(host.providers, host.searchBackend, q3), q3).0)
  }

  /** `search(context, data_dict)`. */
  method Search(ctx: Context, data: PyDict, host: Host) returns (r: Result<Value, SearchError>)
    ensures r == SearchSpec(ctx, data, host)
  {
    var additionalSchema := MergeAdditionalSchemas(host.providers, host.features);
    var schema := DefaultSearchQuerySchema;
    var routed := RouteParameters(data, schema, additionalSchema);
    if routed.Err? {
      return Err(routed.error);
    }
    var (queryDict, errors) := host.navlValidate(routed.value.query, schema, ctx);
    if errors != [] {
      return Err(ValidationError(errors));
    }
    var (additionalParams, errors2) := host.navlValidate(routed.value.additional, additionalSchema, ctx);
    if errors2 != [] {
      return Err(ValidationError(errors2));
    }
    queryDict := Put(queryDict, "additional_params", Dict(additionalParams));
    queryDict := RunBeforeQuery(host.features, queryDict);
    var labels := PermissionLabels(ctx, host);
    if labels.Err? {
      return Err(labels.error);
    }
    var injected := InjectLabels(queryDict, labels.value);
    if injected.Err? {
      return Err(injected.error);
    }
    queryDict := injected.value;
    var result := QueryBackend(host.providers, host.searchBackend, queryDict);
    result, queryDict := RunAfterQuery(host.features, result, queryDict);
    return Ok(result);
  }

  /** An unknown parameter aborts the action before any validation or plugin call. */
  lemma SearchRejectsFirstUnknown(ctx: Context, data: Entries, host: Host, i: nat)
    requires i < |data|
    requires Unknown(data[i].0, DefaultSearchQuerySchema, AdditionalSchema(host.providers, host.features))
    requires forall j :: 0 <= j < i ==>
               !Unknown(data[j].0, DefaultSearchQuerySchema, AdditionalSchema(host.providers, host.features))
    ensures SearchSpec(ctx, data, host) == Err(ValidationError(UnknownParameter(data[i].0)))
  {
    RouteRejectsFirstUnknown(data, DefaultSearchQuerySchema, AdditionalSchema(host.providers, host.features), i);
  }
}
