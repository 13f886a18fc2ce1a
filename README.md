# ckanext-search: filter validation, schema merging and search routing in Dafny

This project models three deterministic parts of the CKAN search extension
`ckanext-search` and proves what they promise:

- **The query-filters validator** (`query_filters_validator`, module `Filters`).
  It takes the JSON-like value a caller passes as `filters`. A falsy value means
  "no filter". A value that is neither a dict nor a list of dicts raises
  "Filters must be defined as a dict or a list of dicts". A list is wrapped as
  `{"$and": value}`. Any top-level key that starts with `$` but not `$$` raises
  "Unknown operators (must be one of $or, $and): [...]". Otherwise the input is
  returned unchanged. JSON values are the datatype `Json.Value`. A dict is an
  ordered list of entries, in Python's insertion order. A `Value.Dict` (a dict
  nested in a value, including the `filters` value itself) may repeat a key,
  which no Python dict can. Only the subset type `Json.PyDict`, used for the
  parameters of the `search` action, rules out repeated keys. Repeated keys
  therefore reach the validator in the model, and a repeated `$` key is
  reported once for each occurrence. Every statement proved about the
  validator holds for all entry lists, so it holds for real dicts in
  particular.
- **Schema merging** (`merge_search_schemas`, module `Schema`). A list of search
  schemas is folded into one. The version comes from the first schema (1 if it
  has none). Each field name is kept once, with its first definition, in
  first-occurrence order. The method `MergeSearchSchemas` keeps the source's
  nested loops, its `field_map` and its `result["fields"]` list. It is proved
  equal to the function `MergedSchema`. The lemmas relate `MergedSchema` to an
  independent reference, `FirstOccurrences`.
- **The `search` action** (module `Actions`). The action:
  1. merges the extra-parameter schemas of the provider plugins and then the
     feature plugins;
  2. sends each caller parameter to `query_dict`, to `additional_params`, or to
     an "Unknown parameter" error;
  3. validates both dicts and runs the features' `before_query` hooks;
  4. adds permission labels to `filters`;
  5. calls the first provider whose id is the configured backend;
  6. runs the features' `after_query` hooks.

  The plugins, `navl_validate`, the configured backend, `authz.is_sysadmin` and
  the permission-label helper are not modelled. They are values and functions
  held in `Host`, `Provider` and `Feature`. Each loop of the action is a method
  proved against a specification function. The loops are the two schema
  updates, the parameter routing, the two hook loops and the provider search.

Python's truth test is `Json.Truthy` (`None`, `False`, `0`, `0.0`, `""`, `[]`
and `{}` are false). Python's `d[k] = v` is `Json.Put`: an existing key keeps its
place and a new key goes at the end. Exceptions are the `Err` side of
`Wrappers.Result`.

The model follows the code where the code, its tests and its doc-comments
disagree:

- The tests and the filter-language doc-comment describe a filter compiler. It
  would turn filters into `FilterOp` trees, with shorthand resolution, flattening
  of nested `$and`/`$or`, and error aggregation. That compiler is not in the
  code. The validator checks only the top-level shape and the top-level keys.
  It returns its input unchanged.
- As written, `$or` and `$and` are rejected like any other `$` key. A non-empty
  list of dicts is always rejected because of the `$and` key it is wrapped in.
  Both are reported under "## Findings". The `Filters.Reading` parameter selects
  the code's behaviour (`AsWritten`) or the documented one (`Intended`).
- The unknown-operator message shows the keys as a Python list (`['$maybe']`),
  not bare as in ckanext/search/tests/test_filters.py:46.
- `search` reports only the first unknown parameter, as "Unknown parameter: p".
  It does not report all of them as "Unknown parameters: a, b", which
  ckanext/search/tests/test_action.py:170 expects.
- The `ValueError` that the docstring of `merge_search_schemas` promises is
  never raised (see "## Findings"). The `Schema.CheckMode` parameter selects the
  code's comparison (`AsWritten`) or the documented one (`Intended`).

## Model

| member | source | states |
|---|---|---|
| `Filters.QueryFiltersValidator` | ckanext/search/filters.py:34-60 | whenever a value is accepted, the result is the input value itself |
| `Filters.UnknownTopKeys` | ckanext/search/filters.py:52-54 | the reported keys are exactly the input keys that are unknown operators, and no more of them than there are keys |
| `Filters.UnknownTopKeysAppend` | ckanext/search/filters.py:52-54 | the reported keys keep the dict's key order: picking them commutes with concatenation |
| `Filters.NoFilterIffFalsy` | ckanext/search/filters.py:36-37 | "no filter" (`None`, nothing raised) is returned if and only if the value is falsy |
| `Filters.StructureErrorIff` | ckanext/search/filters.py:40-43 | the structural error is raised if and only if the value is truthy and is neither a dict nor a list of dicts, whatever its keys, so the shape is checked before the operators |
| `Filters.JsonTextIsNotDecoded` | ckanext/search/filters.py:40-43 | the string `'{"a": "b"}'` gets the structural error: strings are never decoded |
| `Filters.ValidatorOnDict` | ckanext/search/filters.py:45-60 | on a non-empty dict, the verdict is the unknown-operator error with the reported keys if there are any, else the dict itself |
| `Filters.DictOperatorCheck` | ckanext/search/filters.py:52-57 | a non-empty dict is rejected if and only if some top-level key is an unknown operator; the error lists exactly those keys in key order; acceptance returns the dict |
| `Filters.EscapedKeysNeverReported` | ckanext/search/filters.py:53 | a key that starts with `$$` is never among the reported operators |
| `Filters.OnlyTopLevelKeysExamined` | ckanext/search/filters.py:52-53 | two dicts with the same keys get the same verdict, whatever their nested values |
| `Filters.Idempotent` | ckanext/search/filters.py:60 | validating an accepted value again gives the same result |
| `Filters.AcceptedIff` | ckanext/search/filters.py:34-60 | a value is accepted if and only if it is a non-empty dict without unknown operator keys, or (documented reading only) a non-empty list of dicts |
| `Filters.ListKeys` | ckanext/search/filters.py:46-47 | a list is checked as the single key `$and`, which the code reports and the documented reading accepts |
| `Filters.UnknownOperatorReported` | ckanext/search/filters.py:52-57 | `{"$maybe": [...]}` is rejected with exactly `["$maybe"]` under both readings |
| `Filters.CombinatorKeysRejected` | ckanext/search/filters.py:52-57 | as written, a dict with a `$or` or `$and` key is rejected, and that key is among the reported ones |
| `Filters.NonEmptyListsRejected` | ckanext/search/filters.py:40-57 | as written, every non-empty list is rejected: with `["$and"]` if all items are dicts, otherwise with the structural error |
| `Filters.IntendedAcceptsCombinatorKeys` | ckanext/search/filters.py:11-14 | in the documented reading, a non-empty dict passes if and only if its only `$` keys are `$or` and `$and` |
| `Filters.IntendedAcceptsListsOfDicts` | ckanext/search/filters.py:11-14 | in the documented reading, a non-empty list of dicts is returned unchanged |
| `Json.PutGet` | ckanext/search/logic/actions.py:59 | after `d[k] = v`, `k` reads `v` and every other key reads what it read before |
| `Json.PutKeys` | ckanext/search/logic/actions.py:59 | `d[k] = v` keeps the key order, and a new key is appended at the end |
| `Schema.MergeSearchSchemas` | ckanext/search/schema.py:6-43 | the nested loops return, or raise, exactly what `MergedSchema` says |
| `Schema.MergedHeader` | ckanext/search/schema.py:13-17 | no schemas give version 1 and no fields; otherwise the version is the first schema's version, or 1 |
| `Schema.SchemaWithoutFieldsContributesNothing` | ckanext/search/schema.py:24 | a schema without a `fields` key adds no field to the loop |
| `Schema.ErrorSticks` | ckanext/search/schema.py:23-37 | once the loop has raised, later fields do not change the outcome |
| `Schema.MergeFieldsKeepsFirstOccurrences` | ckanext/search/schema.py:22-41 | after a run without an exception, the kept fields are the first occurrences and `field_map` holds each one under its name |
| `Schema.FirstOccurrencesNames` | ckanext/search/schema.py:22-41 | every name in the input is the name of a kept field (completeness) |
| `Schema.FirstOccurrencesDistinct` | ckanext/search/schema.py:38-41 | no two kept fields share a name |
| `Schema.SeenOfFirstOccurrences` | ckanext/search/schema.py:26-28 | `field_map[name]` is the first field with that name |
| `Schema.FirstOccurrencesNoLonger` | ckanext/search/schema.py:38-41 | there are no more kept fields than input fields |
| `Schema.StepOkIff` | ckanext/search/schema.py:25-41 | one turn of the loop completes if and only if its field is acceptable after the earlier fields |
| `Schema.MergeFieldsOkIff` | ckanext/search/schema.py:23-41 | the merge completes if and only if every field has a hashable name and, when it repeats a name, both fields carry `name` and do not conflict |
| `Schema.MergedFieldsAreFirstOccurrences` | ckanext/search/schema.py:22-43 | the merged fields are the first field under each name, in input order |
| `Schema.MergedNames` | ckanext/search/schema.py:20-41 | the merged names are distinct and are all the input names; the field kept under each name is the first one with it |
| `Schema.NeverConflictsAsWritten` | ckanext/search/schema.py:30-37 | as written, the merge never raises the conflict error |
| `Schema.AsWrittenKeepsConflictingField` | ckanext/search/schema.py:30-37 | as written, two `title` fields of different types merge silently into the first one |
| `Schema.IntendedRejectsConflictingField` | ckanext/search/schema.py:7-11 | with the docstring's comparison, the same input raises the conflict |
| `Schema.IntendedMergeMeansConsistent` | ckanext/search/schema.py:7-11 | with the docstring's comparison, any two fields that share a name in a completed merge are equal under Python's `==` apart from their names |
| `Schema.IntendedMergesEqualDefinitions` | ckanext/search/schema.py:7-11 | with the docstring's comparison, definitions that Python finds equal (`True == 1`) merge silently into the first |
| `Json.PyEqSymmetric` | ckanext/search/schema.py:33 | Python's `==` on values, as the conflict test uses it, is symmetric |
| `Json.PyEqTransitive` | ckanext/search/schema.py:33 | Python's `==` on values is transitive |
| `Actions.MergeAdditionalSchemas` | ckanext/search/logic/actions.py:37-44 | the two `update` loops build the providers' schemas updated by the features' schemas |
| `Actions.UpdateAllKeys` | ckanext/search/logic/actions.py:37-44 | after the updates, a key is declared if and only if the base or some plugin declares it |
| `Actions.UpdateAllLaterWins` | ckanext/search/logic/actions.py:37-44 | the last plugin to declare a key decides its validators |
| `Actions.UpdateAllUntouched` | ckanext/search/logic/actions.py:37-44 | a key that no plugin declares keeps the base's entry |
| `Actions.AdditionalParameterIff` | ckanext/search/logic/actions.py:37-44 | a parameter is in the additional schema if and only if some provider or feature declares it |
| `Actions.FeatureEntryWins` | ckanext/search/logic/actions.py:42-44 | a feature's entry overrides every provider's entry; among features the last one wins |
| `Actions.ProviderEntryWins` | ckanext/search/logic/actions.py:38-44 | when no feature declares a parameter, the last provider that declares it wins |
| `Actions.StandardParametersArePrefilled` | ckanext/search/logic/actions.py:47-54 | `query_dict` starts with `q`, `filters`, `sort`, `start`, `limit`, `lang`, which are exactly the default schema's keys |
| `Actions.RouteParameters` | ckanext/search/logic/actions.py:57-64 | the loop over `data_dict` returns, or raises, exactly what `Route` says |
| `Actions.RouteErrorSticks` | ckanext/search/logic/actions.py:62-64 | once a parameter is rejected, later parameters do not change the outcome |
| `Actions.RouteOkIff` | ckanext/search/logic/actions.py:57-64 | routing completes if and only if every parameter is in the default or the additional schema |
| `Actions.RouteRejectsFirstUnknown` | ckanext/search/logic/actions.py:62-64 | the first unknown parameter, in key order, is the only one reported |
| `Actions.RouteQueryKeys` | ckanext/search/logic/actions.py:47-59 | `query_dict` keeps its six keys, in order, whatever the caller sends |
| `Actions.RouteParamQuery` | ckanext/search/logic/actions.py:58-59 | one turn of the loop writes at most its own key of `query_dict` |
| `Actions.RouteQueryOverwrites` | ckanext/search/logic/actions.py:58-59 | a standard parameter the caller sends replaces its placeholder in `query_dict`, even if a plugin also declares it |
| `Actions.RouteQueryPlaceholders` | ckanext/search/logic/actions.py:47-61 | every key not sent as a standard parameter keeps its placeholder value |
| `Actions.RouteParamAdditional` | ckanext/search/logic/actions.py:60-61 | one turn of the loop writes at most its own key of `additional_params` |
| `Actions.RouteAdditionalLookup` | ckanext/search/logic/actions.py:57-61 | `additional_params` holds exactly the sent parameters that only the additional schema declares |
| `Actions.PermissionLabels` | ckanext/search/logic/actions.py:17-27 | no labels if and only if `ignore_auth` is set or the user is a sysadmin; otherwise the user's dataset labels, or `KeyError` without `auth_user_obj` |
| `Actions.InjectLabels` | ckanext/search/logic/actions.py:85-86 | falsy labels leave the query unchanged; otherwise a missing `filters` raises `KeyError` and a `filters` that is not a dict raises `TypeError` |
| `Actions.InjectLabelsTouchesOnlyFilters` | ckanext/search/logic/actions.py:85-86 | truthy labels change only `filters["permission_labels"]`, which then holds the labels |
| `Actions.RunBeforeQuery` | ckanext/search/logic/actions.py:80-82 | the loop applies each feature's `before_query` in order |
| `Actions.RunAfterQuery` | ckanext/search/logic/actions.py:95-97 | the loop applies each feature's `after_query` in order |
| `Actions.FirstMatchingProvider` | ckanext/search/logic/actions.py:88-93 | returns the index of a provider with the backend's id, with no earlier match, and none if and only if no provider matches |
| `Actions.QueryBackend` | ckanext/search/logic/actions.py:88-93 | the loop that stops at the first match returns that provider's answer, or `{}` |
| `Actions.MatchIsFirst` | ckanext/search/logic/actions.py:90-93 | a match with no earlier match is the provider that is selected |
| `Actions.ProviderSelection` | ckanext/search/logic/actions.py:88-93 | only the first provider whose id matches is queried; with no match the result is `{}` |
| `Actions.Search` | ckanext/search/logic/actions.py:30-106 | the action returns, or raises, exactly what `SearchSpec` says |
| `Actions.SearchRejectsFirstUnknown` | ckanext/search/logic/actions.py:57-64 | an unknown parameter aborts the action before any validation or plugin call, and only the first one is reported |

## Left out

- The `FilterOp` filter compiler is not part of this model. The tests and the
  filter-language doc-comment refer to it, but it is absent from the code.
- Filters: dict keys are strings, as in JSON. A non-string key, on which
  `startswith` would raise `AttributeError`, is not modelled.
- Filters: `Invalid` is the `FilterError` datatype. `ErrorMessage` renders the
  key list as Python's `repr` would, without escaping quotes inside keys.
- Schema: the docstring's conflict test compares values with `Json.PyEq`,
  which is Python's `==`. Numbers and booleans compare by value, lists compare
  item by item, and dicts compare by key whatever their key order. NaN is the
  one exception: it is not modelled.
- Schema: a field is a map from string keys to values, and a `fields` key set to
  `None` is not distinguished from a missing one. Python's hash equality is
  modelled only for `True == 1` and `2.0 == 2`. NaN is not modelled, because
  real numbers stand in for floats.
- Schema: `init_schema`, the `DEFAULT_*_SEARCH_SCHEMA` constants, index jobs,
  the CLI and plugin wiring are not modelled. They are plugin lookups, database
  work and I/O.
- Actions: CKAN's plugin registry, `navl_validate` and its validators,
  `authz.is_sysadmin`, `get_permission_labels()` and the plugins' own methods
  are function-valued parameters. Exceptions raised inside them are not
  modelled. The validators of `default_search_query_schema` are kept by name
  only.
- Actions: a parameter schema is a Dafny `map`. It drops the order in which
  `additional_params_schema.update(...)` first inserted each key. Only
  `navl_validate`, which is a parameter here, could observe that order.
- Actions: `config["ckan.search.search_backend"]` is a string parameter. The
  `KeyError` for a missing setting is not modelled.
- Actions: `before_query` and `after_query` edit Python objects in place. The
  model has them return the new query and result, so aliasing between the
  result and the query dict is not captured.
- Actions: the `@side_effect_free` decorator, the missing auth check and the
  commented-out `for_view` block have no behaviour to model.
- The older `actions.py`, `bbox_validator` (floating-point parsing), and the
  Solr and Elasticsearch providers (network clients and hashing) are not part
  of this model.

## Findings

| source | as written | input that shows it | evidently intended | confidence | as-written member | corrected member |
|---|---|---|---|---|---|---|
| ckanext/search/schema.py:30-37 | `field.copy().pop("name")` returns the name, not the field without it, so two equal names are compared and the `ValueError` can never be raised | two schemas with fields `{"name": "title", "type": "text"}` and `{"name": "title", "type": "string"}` merge silently to the first | compare the two fields without their `name` and raise on a difference, as the docstring at lines 7-11 says | high (not executed) | `Schema.AsWrittenKeepsConflictingField` | `Schema.IntendedRejectsConflictingField` |
| ckanext/search/filters.py:46-57 | every key that starts with `$` but not `$$` is reported, including `$or` and `$and`, and a list is wrapped under `$and` and so always rejected | `{"field1": "value1", "$or": [{"field2": "value2"}]}` is rejected with `['$or']` | accept `$or` and `$and` as top-level operators, as the doc-comment at lines 11-14 and the error text itself say | medium (not executed) | `Filters.CombinatorKeysRejected` | `Filters.IntendedAcceptsCombinatorKeys` |
