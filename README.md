# falcon-openapi, modelled in Dafny

falcon-openapi connects an OpenAPI document to a Falcon application. This
project models three of its parts and proves properties of them.

- **The parameter validator** (`falcon_openapi/validator.py`). The
  `OpenApiValidator` constructor files every parameter definition under its
  path, its method and its name, and compiles string patterns.
  `process_resource` looks up the definitions for the route and the
  lower-cased method of a request. A required parameter that is missing or
  falsy is refused; a present one is handed to `validate_param`. The
  `validate_*` functions are a type-dispatched, recursive check over
  JSON-like values. They handle a subset of the Schema Object keywords of
  the OpenAPI Specification 3.0.3 (section 4.7.24): `type`, `format`,
  `minLength`, `maxLength`, `pattern`, `enum`, `minimum`, `maximum`,
  `exclusiveMinimum`, `exclusiveMaximum`, `multipleOf`, `items`,
  `properties` and `additionalProperties`, with the `int32`, `int64`,
  `float` and `double` formats of its section 4.4.
- **The router** (`falcon_openapi/router.py`). `OpenApiRouter` loads the
  document and derives a base path. For every path it resolves each
  operation to a module, class, method and file. It reads `operationId`
  right to left, or else the `x-falcon` block with its `on_<method>`
  fallback. It groups the operations by the key module + class, with one
  handler instance per key and per path. For every group it passes the group's upper-case
  method map to Falcon's `set_default_responders`, then calls `add_route`
  with the base path followed by the path and the group's instance. The
  model records each such call as (path, instance, the map passed to
  `set_default_responders`).
- **The document loader** (`falcon_openapi/openapi.py`). `OpenApi` picks
  the first given source: raw JSON, raw YAML, a file, or a dict already
  parsed. With none given it falls back to `openapi-spec.yml`, then
  `openapi-spec.yaml`, in the app directory. It then derives the base path
  from `servers` or `basePath`.

## Layout

- `py_value.dfy` (`PyValue`): JSON-like values, with Python's dict
  operations, `in`, `[]`, truthiness and `==` written out. Also the error
  kinds and a `Result` type.
- `py_str.dfy` (`PyStr`): `lower`, `upper`, `split`, `join` and `endswith`,
  with the split/join round trips.
- `validate.dfy` (`Validate`): the `validate_*` functions as functions.
  Each one returns the checked value together with the schema as it is
  left afterwards, because `validate_int` writes into its schema.
- `checks.dfy` (`Checks`): the loops of `validate_param`, `validate_array`
  and `validate_object` as methods. Each is proved equal to its function.
- `validate_props.dfy` (`ValidateProps`): properties of the checks.
- `validator_class.dfy` (`Validator`): the compiled rules, the class
  `OpenApiValidator`, and its constructor loops and `process_resource`
  loop.
- `validator_props.dfy` (`ValidatorProps`): properties of compilation and
  of `process_resource`.
- `spec_source.dfy` (`SpecSource`): the environment the loaders read, and
  the base-path rule they share.
- `spec_source_props.dfy` (`SpecSourceProps`): the base-path rule stated
  without its loop.
- `openapi.dfy` (`Loader`): the class `OpenApi`.
- `router.dfy` (`Router`): destination resolution, the grouping loop, route
  registration, `__load_spec`, and the class `OpenApiRouter`.
- `router_props.dfy` (`RouterProps`): properties of resolution, grouping
  and routes.
- `load_props.dfy` (`LoadProps`): source precedence, the default file,
  parser choice, and where the two loaders agree.

Behaviour the model keeps as the code has it:

- `validate_param` reads `type` from its `schema` argument before `schema`
  is replaced by `spec_def['schema']`. `process_resource` calls it with
  `spec_def` only, so every parameter that is present fails with
  AttributeError.
- Presence is judged by truthiness. `''`, `0`, `False` and `[]` count as
  absent.
- `INT32_MIN` is -2147483647 and `INT64_MIN` is -9223372036854775807. Both
  are one above the two's-complement minimum.
- `validate_int` writes its default bounds into the schema it is given.
  Inside an array, the later elements are checked against those bounds.
- The grouping key is `module + class`, with no separator.
- The grouping cache is created afresh for every path.
- A `servers` list with no `url` blocks `basePath`.

`basePath` is read only when `servers` is absent or is not a list
(`falcon_openapi/openapi.py:50-58`, `falcon_openapi/router.py:79-89`;
`SpecSourceProps.ServersBlockBasePath`).

## Model

| member | source | states |
|---|---|---|
| Checks.CheckParam | falcon_openapi/validator.py:79-101 | the step-by-step validate_param gives the checked value and the updated schema that `ValidateParam` defines, failures included, a spec_def whose `schema` is not a dict among them |
| Checks.CheckDispatch | falcon_openapi/validator.py:88-99 | the type dispatch calls the check of the declared type; an unknown type raises 'unknown type' |
| Checks.CheckArray | falcon_openapi/validator.py:206-216 | the element loop overwrites each element with its checked value and threads the item schema, as `ValidateArray` defines |
| Checks.CheckObject | falcon_openapi/validator.py:219-235 | the entry loop computes the value and schema `ValidateObject` defines, whose meaning `ValidateProps.ObjectStable` states: each declared value checked against `properties[k]` and replaced, each other value checked against a dict `additionalProperties`, else refused unless that is truthy |
| Checks.CheckEntry | falcon_openapi/validator.py:228-233 | one pass of the entry loop computes the outcome `EntryStep` defines, whose meaning `ValidateProps.EntryStepStable` states |
| ValidateProps.StringAccepts | falcon_openapi/validator.py:108-122 | validate_string accepts exactly a str with minLength <= len <= maxLength whose pattern matches somewhere and which passes the enum check; the value comes back unchanged |
| ValidateProps.StringRefusesUnmatched | falcon_openapi/validator.py:119-120 | a value the compiled pattern does not find is refused, even after the length checks pass |
| ValidateProps.StringSchemaUnchanged | falcon_openapi/validator.py:108-122 | validate_string never writes to its schema |
| ValidateProps.NumberDispatch | falcon_openapi/validator.py:125-141 | a float under a non-integer type stays a float (a Decimal under `double`); an int under `float`/`double` is converted; a plain int stays an int; a float under `integer` raises 'not an integer'; a bool, Decimal, str or anything else raises 'Not a number' |
| ValidateProps.NumberExamples | falcon_openapi/validator.py:125-141 | the numeric conversions the source's tests pin down |
| ValidateProps.DefaultBoundsKeepExplicit | falcon_openapi/validator.py:147-158 | validate_int defaults only the bounds the schema lacks; an explicit bound is kept |
| ValidateProps.Int32DefaultsAppended | falcon_openapi/validator.py:147-152 | under `int32` with no bounds, the schema gains minimum -2147483647 and maximum 2147483647 at its end |
| ValidateProps.Int64DefaultsAppended | falcon_openapi/validator.py:154-158 | under `int64` with no bounds, the schema gains the symmetric 64-bit bounds at its end |
| ValidateProps.BoundedRange | falcon_openapi/validator.py:174-191 | against two plain bounds, a value passes exactly when it lies within them, and the too-big check comes first |
| ValidateProps.Int32Range | falcon_openapi/validator.py:13-14 | under `int32` with no bounds, an int passes exactly when -2147483647 <= v <= 2147483647 |
| ValidateProps.Int64Range | falcon_openapi/validator.py:15-16 | under `int64` with no bounds, an int passes exactly when -(2^63-1) <= v <= 2^63-1 |
| ValidateProps.IntFormatExamples | falcon_openapi/validator.py:144-160 | INT32_MAX+10 fails under `int32` and passes under `int64`; -2^31 fails under `int32` and -2^63 under `int64` |
| ValidateProps.MinMaxMultOrder | falcon_openapi/validator.py:174-191 | maximum is checked first (`>=` when exclusive, else `>`), then minimum, then multipleOf; the first violation raises; an accepted value comes back unchanged |
| ValidateProps.MinMaxExamples | falcon_openapi/validator.py:175-186 | with the exclusive flags the bound itself fails; without them it passes |
| ValidateProps.BooleanExact | falcon_openapi/validator.py:194-197 | validate_boolean accepts exactly True and False |
| ValidateProps.EnumMembership | falcon_openapi/validator.py:200-203 | validate_enum over a list fails exactly when the value equals no member under Python `==` |
| ValidateProps.EnumExamples | falcon_openapi/validator.py:200-203 | Decimal(1) is in [1.0, 2.0] and Decimal(3) is not |
| ValidateProps.ParamWithoutSchemaFails | falcon_openapi/validator.py:79-86 | validate_param called with a spec_def and no schema raises AttributeError whatever the value |
| ValidateProps.TypeReadFromSchemaArgument | falcon_openapi/validator.py:81-84 | the type comes from the schema argument even when spec_def supplies the schema the checks use |
| ValidateProps.LooseSchema | falcon_openapi/validator.py:81-99 | with a spec_def whose `schema` is not a dict, the type still comes from the schema argument: a boolean is checked as usual, a number fails at `schema.get`, a string or list passes only while the keywords looked for are not in that schema, and a dict never passes |
| ValidateProps.LooseSchemaExamples | falcon_openapi/validator.py:81-99 | `True` against `spec_def={'schema': None}` and type `boolean` passes; an unknown type raises 'unknown type'; type `integer` fails at `schema.get` |
| ValidateProps.NumberParam | falcon_openapi/validator.py:90-91 | validate_param on type `number` is validate_number |
| ValidateProps.IntNumber | falcon_openapi/validator.py:134-141 | an int with no conversion format is validate_int, then the enum check against the updated schema |
| ValidateProps.IntGetsBounds | falcon_openapi/validator.py:144-160 | an int against a bare `number`/`int32` schema is range-checked against the int32 bounds, and the schema comes back with them appended |
| ValidateProps.FloatAgainstInt32 | falcon_openapi/validator.py:130-131 | a float checked against that schema once the bounds are in it is refused above INT32_MAX |
| ValidateProps.NumberInt32Facts | falcon_openapi/validator.py:125-160 | the three validations the persistence example is made of |
| ValidateProps.DefaultBoundsPersistAcrossElements | falcon_openapi/validator.py:212-214 | under `number`/`int32` items, 3e9 alone passes but fails after the int 1 wrote the int32 bounds into the item schema |
| ValidateProps.ItemsFromLength | falcon_openapi/validator.py:212-214 | the element loop keeps one result per element, in order |
| ValidateProps.ArrayKeepsLength | falcon_openapi/validator.py:206-216 | an accepted list keeps its length; a non-list is refused |
| ValidateProps.ItemsFromStable | falcon_openapi/validator.py:210-216 | when the item schema is left as it was, the loop accepts exactly when every element is accepted, and each element's checked value is put in its place |
| ValidateProps.StringArrayElementwise | falcon_openapi/validator.py:206-216 | a list of strings passes exactly when each element passes validate_string, and comes back unchanged |
| ValidateProps.IntegerArrayExamples | falcon_openapi/validator.py:206-216 | [1, 2] passes integer items and [1, 2.1] does not |
| ValidateProps.FieldsFromKeys | falcon_openapi/validator.py:227-231 | the entry loop keeps every key, in order |
| ValidateProps.ObjectKeepsKeys | falcon_openapi/validator.py:219-235 | an accepted dict keeps its keys in order; a non-dict is refused |
| ValidateProps.DeclaredAfterProperty | falcon_openapi/validator.py:228-229 | writing a property's schema back adds its key to the declared properties, so the set stays as it was for the declared key the loop writes |
| ValidateProps.FieldsFromOnlyDeclared | falcon_openapi/validator.py:227-233 | with `additionalProperties` absent, or falsy and not a dict, an accepted dict has only declared keys |
| ValidateProps.UnknownKeyRefused | falcon_openapi/validator.py:224-233 | with the default `additionalProperties`, an undeclared key raises 'unknown property' |
| ValidateProps.FieldsFromAllowed | falcon_openapi/validator.py:230-232 | with `additionalProperties` true, undeclared keys keep their values |
| ValidateProps.UndeclaredKeptWhenAllowed | falcon_openapi/validator.py:219-235 | with `additionalProperties` true, undeclared keys pass through unchanged |
| ValidateProps.EntryStepStable | falcon_openapi/validator.py:228-233 | one pass on an entry whose sub-schema stays as it was: a declared key is checked against `properties[k]`, another against a dict `additionalProperties`, and the checked value replaces it; without a sub-schema the entry is kept when `additionalProperties` is truthy and refused with 'unknown property' otherwise; the schema is unchanged |
| ValidateProps.FieldsFromStable | falcon_openapi/validator.py:227-233 | the entry loop from any entry on accepts exactly when every remaining entry is accepted, and each accepted entry becomes its checked value, in order |
| ValidateProps.ObjectStable | falcon_openapi/validator.py:219-235 | validate_object accepts exactly when every entry passes against its declared property schema or a dict `additionalProperties` (or has none, with a truthy `additionalProperties`), and returns each checked value under its key, in order |
| ValidateProps.AdditionalSchemaExamples | falcon_openapi/validator.py:225-231 | with `additionalProperties` `{type: string}`, an undeclared string passes and an undeclared int is refused |
| Validator.CompilePattern | falcon_openapi/validator.py:40-42 | a pattern string becomes a compiled pattern, a compiled one is returned unchanged, anything else is a TypeError |
| Validator.CompileParams | falcon_openapi/validator.py:36-47 | the parameter loop computes the `request` dict `CompileParamsFrom` defines |
| Validator.CompileMethods | falcon_openapi/validator.py:31-47 | the method loop computes the per-method dicts `CompileMethodsFrom` defines |
| Validator.OpenApiValidator.Empty | falcon_openapi/validator.py:23 | a new validator has no document and no rules |
| Validator.OpenApiValidator.Compile | falcon_openapi/validator.py:26-47 | the path loop leaves in `spec` the rules `CompileInto` defines, or stops with its error; the loaded document is kept |
| Validator.OpenApiValidator.New | falcon_openapi/validator.py:20-47 | construction loads the document as `OpenApi` does, then compiles it; the first failure is the result |
| Validator.OpenApiValidator.ProcessResource | falcon_openapi/validator.py:52-73 | the request gets the verdict `ResourceVerdict` defines for its lower-cased method, route and parameters |
| ValidatorProps.CompileParamShape | falcon_openapi/validator.py:36-42 | a compiled definition drops `name` and keeps every other key; its schema keeps every key but `pattern`, which is compiled; a nameless parameter raises KeyError('name') |
| ValidatorProps.CompilePatternOnce | falcon_openapi/validator.py:42 | compiling a compiled pattern changes nothing |
| ValidatorProps.CompileParamsStep | falcon_openapi/validator.py:36-47 | one step of the parameter loop files the compiled entry under its name, or stops with its error |
| ValidatorProps.CompileParamsOk | falcon_openapi/validator.py:36-47 | the parameter loop succeeds exactly when every parameter compiles |
| ValidatorProps.CompileParamsOkAll | falcon_openapi/validator.py:36-47 | a successful parameter loop compiled every parameter |
| ValidatorProps.CompileParamsErrSome | falcon_openapi/validator.py:36-47 | a failed parameter loop met a parameter that does not compile |
| ValidatorProps.CompileParamsCreates | falcon_openapi/validator.py:44-45 | the `request` dict exists afterwards exactly when it existed before or a parameter was seen |
| ValidatorProps.CompileParamsLastWins | falcon_openapi/validator.py:47 | under each name the last parameter of that name is filed; a name no parameter has keeps what it had |
| ValidatorProps.CompileParamsDicts | falcon_openapi/validator.py:36-47 | every filed definition is a dict |
| ValidatorProps.CompileMethodsFiles | falcon_openapi/validator.py:31-34 | every method of a path gets an entry, and earlier entries stay well formed |
| ValidatorProps.CompilePathsFiles | falcon_openapi/validator.py:26-29 | every path gets an entry, and the rules stay well formed |
| ValidatorProps.CompileRulesFiles | falcon_openapi/validator.py:26-47 | compiling files every path of `paths` with dict definitions only, and fails on a document without `paths` |
| ValidatorProps.NewIsWellFormed | falcon_openapi/validator.py:20-47 | compiled rules satisfy what process_resource needs |
| ValidatorProps.NoRulesNoOp | falcon_openapi/validator.py:57-62 | with no definitions for the route and method, every request passes |
| ValidatorProps.MethodLowerCased | falcon_openapi/validator.py:53 | the method is lower-cased before the lookup, so `GET` and `get` get the same verdict |
| ValidatorProps.DefsVerdictAccepted | falcon_openapi/validator.py:64-73 | a request passes exactly when every definition's parameter is absent or falsy, and optional |
| ValidatorProps.DefsVerdictFirstActed | falcon_openapi/validator.py:64-73 | the first definition acted on decides: required and missing raises 'Param not passed'; present raises AttributeError from validate_param |
| ValidatorProps.RequiredMissingRefused | falcon_openapi/validator.py:68-69 | a missing or falsy required parameter, with nothing before it sent, is refused with 'Param not passed' |
| ValidatorProps.OptionalAbsentSkipped | falcon_openapi/validator.py:70-71 | absent optional parameters are skipped and the request passes |
| ValidatorProps.IsRequiredExamples | falcon_openapi/validator.py:104-105 | is_required is false without `required` or with `required: false`, and true with `required: true` |
| SpecSource.LastWithUrl | falcon_openapi/openapi.py:53-56 | the position of the last `servers` entry that is a dict with a `url`, or none |
| SpecSourceProps.ServersLastFrom | falcon_openapi/openapi.py:53-56 | over dict entries, the loop ends with the URL path of the last entry with a `url`, or with the path it started from |
| SpecSourceProps.ServersLastWins | falcon_openapi/openapi.py:50-56 | the last `url` wins, and a list with no `url` yields '' |
| SpecSourceProps.ServersBlockBasePath | falcon_openapi/openapi.py:50-58 | a `servers` list of dicts without `url` (an empty one included) gives '' even when `basePath` is set |
| SpecSourceProps.ServersGiveBasePath | falcon_openapi/openapi.py:50-56 | the base path is the URL path of the last `servers` entry with a `url` |
| SpecSourceProps.BasePathFallback | falcon_openapi/openapi.py:57-58 | without a `servers` list, the base path is `basePath` when that is a string, else '' |
| SpecSourceProps.NonDictDocument | falcon_openapi/openapi.py:50 | None or a number as a document raises TypeError; an empty list gets '' |
| Loader.OpenApi.Empty | falcon_openapi/openapi.py:19 | an object before `__init__` runs has no file path, no document and an empty base path |
| Loader.OpenApi.Init | falcon_openapi/openapi.py:19-58 | `__init__` leaves the app directory, the file path (when a file was read), the document and the base path that `Opened` defines, or fails with its error |
| Loader.OpenApi.SelectSource | falcon_openapi/openapi.py:23-46 | source selection leaves the document and file path `LoadSource` defines, or fails with its error |
| Loader.OpenApi.SetBasePath | falcon_openapi/openapi.py:48-58 | the servers loop leaves the base path `DeriveBasePath` defines, and changes nothing else |
| Loader.OpenApi.ReadFile | falcon_openapi/openapi.py:40-44 | a missing file raises FileNotFoundError naming it; a name ending in `json` is read as JSON, one ending in `yml` or `yaml` as YAML; any other name leaves no document, so reading it raises AttributeError |
| Loader.OpenApi.New | falcon_openapi/openapi.py:19-21 | a new OpenApi holds what `Opened` defines, or construction fails with its error |
| LoadProps.RawJsonWins | falcon_openapi/openapi.py:34-35 | a non-empty raw_json decides, whatever the other arguments; the document is its parse; the router agrees |
| LoadProps.RawYamlWins | falcon_openapi/openapi.py:36-37 | without raw_json, a non-empty raw_yaml decides over the file and the dict; the router agrees |
| LoadProps.FileDispatch | falcon_openapi/openapi.py:38-44 | without raw text, a given file decides over the dict; a missing file raises FileNotFoundError; a name ending in `json` is read as JSON, one ending in `yml`/`yaml` as YAML, any other loads nothing |
| LoadProps.RawDictUsed | falcon_openapi/openapi.py:45-46 | a truthy raw_dict is the document when nothing else is given |
| LoadProps.DefaultFileChosen | falcon_openapi/openapi.py:23-32 | with no source (an empty dict counts as none), `openapi-spec.yml` in the app directory is read, else `openapi-spec.yaml`, else FileNotFoundError naming the directory |
| LoadProps.RouterDefaultFile | falcon_openapi/router.py:59-66 | the router's defaults are the bare names `openapi-spec.yml`, then `openapi-spec.yaml`, else FileNotFoundError |
| LoadProps.LoadersAgree | falcon_openapi/router.py:56-91 | the router's loader and OpenApi (from the working directory, no dict) load the same document and base path; an unknown file extension fails in both |
| Router.FindGroup | falcon_openapi/router.py:35 | the group filed under a key, if any, is the first with that key |
| Router.RoutesOf | falcon_openapi/router.py:49-53 | one recorded `add_route` call per group of a path, in the groups' order, with its instance and the map passed to `set_default_responders` |
| Router.LoadSpec | falcon_openapi/router.py:56-91 | the step-by-step `__load_spec` gives the document and base path `LoadSpecOf` defines |
| Router.GroupOperations | falcon_openapi/router.py:24-47 | the grouping loop builds the cache `GroupsFrom` defines |
| Router.OpenApiRouter.Empty | falcon_openapi/router.py:16 | a new router has no route |
| Router.OpenApiRouter.AddRoutes | falcon_openapi/router.py:20-53 | the path loop appends the routes `RoutesInto` defines and keeps the document and base path |
| Router.OpenApiRouter.New | falcon_openapi/router.py:15-53 | a new router holds the document and base path `LoadSpecOf` defines and the routes `BuildRoutes` defines, or construction fails with the first error |
| RouterProps.ModuleFile | falcon_openapi/router.py:121-122 | an `x-falcon` module's file is its dotted path with slashes for dots |
| RouterProps.DestinationFile | falcon_openapi/router.py:109-122 | every resolved destination's file is the caller's directory, the module with slashes for dots, and `.py` |
| RouterProps.OperationIdParsed | falcon_openapi/router.py:109-115 | an operationId of at least two dot-free pieces: the last is the method, the one before the class, the rest joined by dots the module |
| RouterProps.OperationIdExample | falcon_openapi/router.py:109-115 | `a.b.C.m` gives module `a.b`, class `C`, method `m` and file `a/b.py` under the caller's directory |
| RouterProps.OperationIdThreePieces | falcon_openapi/router.py:109-115 | `m.C.f` gives module `m`, class `C`, method `f` and file `m.py` |
| RouterProps.OneSegmentFails | falcon_openapi/router.py:111-113 | an operationId without a dot fails on the second pop |
| RouterProps.OperationIdWins | falcon_openapi/router.py:109-117 | with both present, `operationId` decides and `x-falcon` is ignored |
| RouterProps.XFalconResolved | falcon_openapi/router.py:117-127 | `x-falcon` names module and class; the method is its `method` verbatim, else `on_` and the lower-cased HTTP method |
| RouterProps.NoMechanismFails | falcon_openapi/router.py:129-130 | neither `operationId` nor `x-falcon`: no destination |
| RouterProps.SkipsUnresolvable | falcon_openapi/router.py:25-30 | grouping all operations of a path is grouping its resolvable operations alone |
| RouterProps.AddOperationGroups | falcon_openapi/router.py:24-47 | one operation keeps the cache consistent and only extends it; a resolved one lands in its key's group, created with an instance of its own class only when the key is new |
| RouterProps.GroupsFromGroups | falcon_openapi/router.py:24-47 | after the loop every resolvable operation lands, under its upper-cased method, in the group of its key; keys are distinct and instances belong to the path |
| RouterProps.FirstInstanceKept | falcon_openapi/router.py:35-47 | a group's instance comes from the first operation that resolves to its key; later ones with that key use that instance |
| RouterProps.AddOperationMaps | falcon_openapi/router.py:31-47 | one operation changes only the method map of its own key's group, setting its upper-cased HTTP method to its method name; every other map is unchanged |
| RouterProps.GroupsFromMaps | falcon_openapi/router.py:24-47 | after the loop each group's method map equals the reference map `MapFrom` of its key: the operations' bindings for that key applied in order |
| RouterProps.MapFromBinds | falcon_openapi/router.py:44-47 | the reference map binds a method exactly when it was bound before or some operation of that key binds it, and then to the method name of the last such operation |
| RouterProps.PathMethods | falcon_openapi/router.py:24-47 | group k of a path maps an upper-case method exactly when some operation of the path resolves to the group's key under it, and maps it to the method name of the last such operation |
| RouterProps.AddToNewGroup | falcon_openapi/router.py:35-47 | a new key instantiates its class and maps the upper-cased method to the responder |
| RouterProps.AddToCachedGroup | falcon_openapi/router.py:44-47 | a cached key adds the method to the existing group's map |
| RouterProps.GroupsOfTwo | falcon_openapi/router.py:24-47 | grouping two operations is adding them one after the other |
| RouterProps.KeyCollision | falcon_openapi/router.py:33-47 | `m1.c1.f1` and `m2.c2.f2` with `m1 + c1 == m2 + c2` share one group, served by the instance of `c1` from `m1`'s file |
| RouterProps.RoutesOfLands | falcon_openapi/router.py:49-53 | the routes of a path carry every landing of its groups |
| RouterProps.RoutesFromRoutes | falcon_openapi/router.py:20-53 | route records are only appended; each sits at base path + path, holds an instance created for that path, and carries a map of upper-case methods passed to `set_default_responders`; every resolvable operation appears in one |
| RouterProps.RoutesFromPath | falcon_openapi/router.py:20-53 | when the path loop succeeds, each path is a dict whose operations group without error, and its route records are its groups, in order, side by side in the table |
| RouterProps.RouteMethods | falcon_openapi/router.py:20-53 | route record k of path j sits at base path + path and maps an upper-case method exactly when an operation of that path resolves to its group under it, to the method name of the last such operation |

## Left out

- Regular expressions: compiling a pattern and `search` are a given matcher (pattern source, subject) -> bool. Every pattern string compiles in the model; `re.compile` at `falcon_openapi/validator.py:42` raises `re.error` on an invalid pattern and aborts construction of the validator, which the model does not capture.
- Floating point and `Decimal(float)`: numbers are `real`, tagged int, float, Decimal or bool so the dispatch is kept. IEEE rounding and decimal precision are not modelled.
- In-place updates and aliasing: dicts and lists are values. What `validate_int` writes into a schema is threaded back to the caller explicitly. Aliasing between the caller's objects and `deepcopy` are not modelled.
- Dict key uniqueness is not enforced on values; lookups find the first entry with a key.
- A parameter whose `name` is not a string cannot be filed; the model reports TypeError there, where Python files it under a hashable non-string key and raises TypeError only for an unhashable one.
- JSON and YAML parsing, `Path.exists`, `open` and `urlparse` are parameters: a map from existing paths to their text, two parsers and a URL-to-path function.
- Stack introspection (`get_app`, the caller directory in the router) is a given directory string.
- Dynamic import of handler modules is a registry from file to class to attribute names. An instance is identified by the path it was created for, its file and its class.
- A method map holds the method's name where `falcon_openapi/router.py:46-47` stores the bound method `getattr(Class, dest_method)`; the name together with the group's instance determines it.
- Falcon itself is not part of this model: `CompiledRouter`, `add_route`, `set_default_responders`, `find`, the request and response objects, and the empty `process_request`/`process_response` hooks. A registered route is recorded as (path, instance, the map passed to `set_default_responders`). The default responders that call adds and the map Falcon's `add_route` builds from the instance are not modelled.
- Several groups under one path template are all recorded, in order; Falcon's `CompiledRouter` keeps only the last `add_route` for a template, so only that group's instance would answer requests.
- `lower` and `upper` are modelled for ASCII letters, which HTTP method names are made of.
- Logging is left out.
- Python's exception messages are modelled by error kinds, not by their text.
