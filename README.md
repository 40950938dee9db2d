# Linode Terraform provider: filter engine, PostgreSQL v2 and VPC resources

This project models, in Dafny, three pieces of the Linode Terraform provider.
It proves properties of each.

- **The filter engine of the list data sources** (`frameworkfilter`).
  A user's `filter` blocks are split in two.
  - The filters on API-filterable fields whose `match_by` is null or `exact` become an `+and` of `+or` clauses sent with the list request.
  - The filters on the other fields are applied locally to the records the API returns.
  - Go reflection over the listed structs becomes an explicit record: a sequence of struct fields, each with its json tag and value.
- **The `linode_database_postgresql_v2` resource.**
  - Its Terraform model (`Model`) is a class whose methods `Flatten` and `CopyFrom` update it in place.
  - Those methods are proved against pure functions, `FlattenState` and `CopyState`, and the properties are proved about those functions.
  - The Create, Read, Update and Delete handlers are methods. Create, Read and Update return three things:
    - the diagnostics they report;
    - the API requests they make, in order;
    - what they do to the Terraform state: left untouched, stored, or removed.
  - Delete returns only the diagnostics and the requests. The framework drops the state unless Delete reports an error.
- **The `linode_vpc` resource**: its four lifecycle handlers, returning the same things as the PostgreSQL ones.

Every value of a Terraform attribute is `Null`, `Unknown` or `Known(v)`.
The API client is a record of functions from requests to answers.
Provider helpers whose code is not modelled are oracle parameters:
- `FrameworkSafeInt64ToInt`, `FrameworkSafeStringToInt` and
  `FrameworkAttemptRemoveResourceForEmptyID`;
- the rule of the `KeepOrUpdate*` helpers when known values are preserved;
- the framework's value conversions;
- `Object.As`;
- the VPC model's `FlattenVPC` and `CopyFrom`.

Each of these is passed in. The handler contracts hold for every behaviour they may have. A few lemmas (`UpdatesRoundTrip`, `CreateOptionsOfMirror`) require that narrowing succeeds unchanged and that decoding the allow list reports nothing, and say so in their preconditions.

Files:
- `wrappers.dfy`: Option and Result.
- `decimal.dfy`: `strconv.Itoa`, and a parser that is its proved inverse.
- `tf.dfy`: Terraform values, diagnostics, API errors and state outcomes.
- `filter.dfy`: the filter engine.
- `postgres_models.dfy`: the PostgreSQL model and its `Flatten`/`CopyFrom`.
- `postgres_resource.dfy`: the PostgreSQL handlers.
- `vpc_resource.dfy`: the VPC handlers.

## Model

| member | source | states |
|---|---|---|
| FrameworkFilter.GetAndFilter | linode/helper/frameworkfilter/filter.go:79-107 | An unknown filter field fails before anything is listed. Otherwise the list function is called with exactly the constructed API filter. A list error becomes the list-failure diagnostic. The result is the local filtering of the listed records. |
| FrameworkFilter.ConstructFilterString | linode/helper/frameworkfilter/filter.go:111-150 | The loop builds the API filter specified by `ConstructFilter` (clause per contributing filter, term per value). |
| FrameworkFilter.ConstructFilterFailure | linode/helper/frameworkfilter/filter.go:119-127 | Building the API filter fails exactly when some filter names a field missing from the configuration. The error names the first such field. |
| FrameworkFilter.UnconfiguredFieldFailsFirst | linode/helper/frameworkfilter/filter.go:119-127 | The first filter on an unconfigured field determines the error. |
| FrameworkFilter.ConstructFilterClauses | linode/helper/frameworkfilter/filter.go:129-150 | When every field is configured, there is one `+or` clause per contributing filter, in input order. Clause k holds one `{name: value}` term per value of the k-th contributing filter, in value order. |
| FrameworkFilter.ContributingInOrder | linode/helper/frameworkfilter/filter.go:129-137 | The filters that reach the API keep their input order and are no more numerous than the input. |
| FrameworkFilter.ContributingCounts | linode/helper/frameworkfilter/filter.go:129-137 | A filter reaches the API exactly when its field is API-filterable and its match_by is null or `exact`. It then reaches it as often as it occurs in the input. |
| FrameworkFilter.NonExactApiFilterIgnored | linode/helper/frameworkfilter/filter.go:133-137 | A filter on an API-filterable field with a match_by other than `exact` changes neither the API filter nor the local match. |
| FrameworkFilter.ApiClausesFailurePersists | linode/helper/frameworkfilter/filter.go:119-127 | Once clause building has failed on a prefix, later filters do not change the error. |
| FrameworkFilter.ApplyLocalFiltering | linode/helper/frameworkfilter/filter.go:169-189 | The loop computes `LocalFilter`: the matching records in order, or the first match error. |
| FrameworkFilter.LocalFilterFailure | linode/helper/frameworkfilter/filter.go:174-183 | Local filtering fails exactly when some record's match check fails. It then fails with the error of the first such record. |
| FrameworkFilter.LocalFilterFailurePersists | linode/helper/frameworkfilter/filter.go:174-183 | An error on a prefix of the records is the result for all of them. |
| FrameworkFilter.LocalFilterInOrder | linode/helper/frameworkfilter/filter.go:172-186 | On success, the kept records are an order-preserving subsequence of the listed ones. |
| FrameworkFilter.LocalFilterCounts | linode/helper/frameworkfilter/filter.go:172-186 | On success, each matching record is kept as often as it was listed, and a non-matching one never. |
| FrameworkFilter.OnlyApiFiltersKeepAll | linode/helper/frameworkfilter/filter.go:169-189 | When every filter is API-filterable, local filtering returns the listed records unchanged. |
| FrameworkFilter.MatchesFilter | linode/helper/frameworkfilter/filter.go:192-223 | The loop computes `Matches`: API-filterable filters are skipped, and the first resolve error, match error or mismatch ends the scan. |
| FrameworkFilter.MatchesIsConjunction | linode/helper/frameworkfilter/filter.go:192-223 | A record matches exactly when every filter on a non-API-filterable field holds for it. |
| FrameworkFilter.NoLocalFiltersMatch | linode/helper/frameworkfilter/filter.go:199-202 | Without locally applied filters every record matches. |
| FrameworkFilter.CheckFieldMatchesFilter | linode/helper/frameworkfilter/filter.go:227-263 | The recursive method computes `FieldMatches`: a slice is scanned element by element, and a scalar is normalized and looked up among the values. |
| FrameworkFilter.FieldMatches | linode/helper/frameworkfilter/filter.go:227-263 | A field matches only if the filter has at least one value. |
| FrameworkFilter.ListMatchesIffSomeElement | linode/helper/frameworkfilter/filter.go:232-248 | A slice matches only if some element matches. When no element errs, it matches exactly when some element matches. |
| FrameworkFilter.ScalarNeedsValues | linode/helper/frameworkfilter/filter.go:250-262 | A scalar field never matches an empty value list. |
| FrameworkFilter.NormalizeValue | linode/helper/frameworkfilter/filter.go:266-294 | The loop follows pointers and computes `Normalize`. |
| FrameworkFilter.Normalize | linode/helper/frameworkfilter/filter.go:266-294 | A nil pointer gives "". A string is kept. An integer gives exactly `strconv.FormatInt`'s canonical decimal text, which reads back as that integer. A boolean gives "true" or "false" according to its value. Any other type is an invalid-field-type error. |
| FrameworkFilter.ResolveStructFieldByJSON | linode/helper/frameworkfilter/filter.go:298-318 | The loop computes `ResolveField` over the struct's fields. |
| FrameworkFilter.ResolveFieldLastWins | linode/helper/frameworkfilter/filter.go:298-318 | Resolution fails exactly when no field's json tag equals the name, and fails with a field-not-found error for it. It yields v exactly when some field so tagged holds v and no later field carries the same tag. |
| PostgresModels.KeepOrUpdate | linode/databasepostgresqlv2/framework_models.go:91 | The result is always the original or the update, and it is the update whenever known values are not preserved. |
| PostgresModels.MajorVersion | linode/databasepostgresqlv2/framework_models.go:94 | The major version is a dot-free prefix of the version that is followed by a dot or ends the version. |
| PostgresModels.MajorVersionUnique | linode/databasepostgresqlv2/framework_models.go:94 | Only one prefix has those properties, so engine_id is the engine and the text before the first dot. |
| PostgresModels.EngineId | linode/databasepostgresqlv2/framework_models.go:94 | engine_id is the engine, a "/", and then the dot-free prefix of the version that ends at its first dot or at its end. |
| PostgresModels.EngineIdExamples | linode/databasepostgresqlv2/framework_models.go:94 | Version "16" (as in the unit test) and version "16.4" both give "postgresql/16". An empty version gives "postgresql/". |
| PostgresModels.PendingObjectInjective | linode/databasepostgresqlv2/framework_models.go:176-191 | Two pending maintenance items with the same object are the same item. |
| PostgresModels.PendingObjectsSize | linode/databasepostgresqlv2/framework_models.go:176-201 | The pending_updates set has at most one object per pending item. When the items are distinct it has exactly one per item. |
| PostgresModels.ToLinodego | linode/databasepostgresqlv2/framework_models.go:39-48 | The window carries the object's frequency and its three narrowed numbers, with no pending items. The diagnostics have an error exactly when one of the three narrowings does. |
| PostgresModels.UpdatesRoundTrip | linode/databasepostgresqlv2/framework_models.go:39-48 | With successful narrowing, converting a maintenance window to the `updates` object and back with ToLinodego gives the window without its pending list, and no diagnostics. |
| PostgresModels.Model.Flatten | linode/databasepostgresqlv2/framework_models.go:90-206 | The new model is `FlattenState` of the old one. The diagnostics are: the allow_list conversion's if they have an error; else those plus the members conversion's if those have an error; nil otherwise. |
| PostgresModels.FlattenMirrors | linode/databasepostgresqlv2/framework_models.go:90-206 | Without preserving known values, and when both checked conversions succeed, Flatten makes every attribute mirror the database and returns nil. Only timeouts are kept. |
| PostgresModels.FlattenStopsAtError | linode/databasepostgresqlv2/framework_models.go:104-123 | A failed allow_list conversion leaves all later attributes untouched. A failed members conversion leaves the third-stage attributes and the objects untouched. Timeouts are never touched. Flatten reports an error exactly when one of the two checked conversions has one. |
| PostgresModels.FlattenIdempotent | linode/databasepostgresqlv2/framework_models.go:90-206 | Flattening twice from the same database with the same choices is flattening once. |
| PostgresModels.FlattenKeepingAll | linode/databasepostgresqlv2/framework_models.go:90-206 | When the preserving helpers keep every attribute, Flatten changes nothing. |
| PostgresModels.Model.CopyFrom | linode/databasepostgresqlv2/framework_models.go:208-232 | The new model is `CopyState`: every attribute except timeouts is KeepOrUpdate'd from the other model's old value. |
| PostgresModels.CopyWithoutPreserving | linode/databasepostgresqlv2/framework_models.go:208-232 | Without preserving, CopyFrom makes every attribute except timeouts equal to the other model's. |
| PostgresModels.CopySelf | linode/databasepostgresqlv2/framework_models.go:208-232 | Copying a model onto an equal model changes nothing. |
| PostgresModels.Model.constructor | linode/databasepostgresqlv2/framework_models.go:56-88 | A zero Model has every attribute null. |
| PostgresModels.Model.FromState | linode/databasepostgresqlv2/framework_resource.go:58 | A Model read from a plan or state holds exactly that plan's or state's values. |
| PostgresModels.FormatTestId | linode/databasepostgresqlv2/framework_models_unit_test.go:76 | The test database's ID 12345 is written as "12345". |
| PostgresModels.FlattenOfTestDatabase | linode/databasepostgresqlv2/framework_models_unit_test.go:66-120 | Flattening the unit test's database into a zero model gives every value the test expects. This covers the ID, label, engine_id, region, type and allow list. It also covers the timestamps, port, status, version, hosts, fork, fork details, updates and pending updates. |
| PostgresModels.FlattenThenCopy | linode/databasepostgresqlv2/framework_models_unit_test.go:66-129 | Flattening into a fresh Model, then copying into another fresh Model without preserving, gives two equal models that mirror the database. |
| PostgresResource.CreateOptionsFor | linode/databasepostgresqlv2/framework_resource.go:72-98 | The request carries the planned label, region and type, the engine from engine_id, and the narrowed cluster_size. It carries an allow list exactly when that attribute is not null, and a fork exactly when fork_source is known. The fork's source is the narrowed fork_source. The fork has a restore time exactly when fork_restore_time is known, and then it is that time. The allow list sent is the planned set. The options have an error exactly when one of these fails: narrowing cluster_size, decoding a non-null allow list (`ElementsAs`), or narrowing a known fork_source. |
| PostgresResource.CreateOptionsOfMirror | linode/databasepostgresqlv2/framework_resource.go:72-82 | A plan mirroring a database asks for that database's label, region, type, engine and major version, cluster size and allow list, without a fork. |
| PostgresResource.WithId | linode/databasepostgresqlv2/framework_resource.go:176-178 | The stored ID is the decimal text of the database ID, and nothing else changes. |
| PostgresResource.StoredIdParses | linode/databasepostgresqlv2/framework_resource.go:178 | The ID stored at creation reads back as the database's integer ID. |
| PostgresResource.Provisioned | linode/databasepostgresqlv2/framework_resource.go:127-187 | Once the database exists, the state is stored exactly when the last request is the wait on the created database's poller. Without a known `updates` object it is always stored. With one, no request is made exactly when decoding or narrowing it fails, and the state is stored exactly when the window request was made and succeeded. Stored timeouts are the plan's. |
| PostgresResource.SetWindow | linode/databasepostgresqlv2/framework_resource.go:132-169 | No request is made exactly when decoding or narrowing the planned window reports an error. Otherwise the window is sent alone as one update request. A database comes back exactly when that request succeeds, with no error. A failed request adds "Failed to update PostgreSQL database" after the decoding diagnostics, and the whole list of diagnostics is stated on each path. |
| PostgresResource.Store | linode/databasepostgresqlv2/framework_resource.go:171-187 | The model is refreshed from the final database (preserving known values), and its ID is overridden. It is then stored, after which the created database's poller is waited on. A failed wait adds "Failed to wait for PostgreSQL database to finish creating" (`WaitDiags`) after the earlier diagnostics, but does not prevent storing. |
| PostgresResource.Provision | linode/databasepostgresqlv2/framework_resource.go:127-187 | The requests and the outcome are `Provisioned`'s. A state that is not stored comes with an error. A stored one has an error exactly when the wait fails. The diagnostics are stated in full on each path: the earlier ones, then those of decoding the window, then the window request's failure or the wait's. |
| PostgresResource.Create | linode/databasepostgresqlv2/framework_resource.go:48-188 | No request is made exactly when reading the plan or building the create options reports an error. Otherwise the poller is requested first. A poller error ends there with "Failed to create event poller". Otherwise the create request follows, carrying `CreateOptionsFor`'s options, and its failure appends "Failed to create PostgreSQL database" to the earlier diagnostics. Once a request is made, the diagnostics of the plan and the options stay a prefix of the result. After a successful create, the remaining requests and the outcome are `Provisioned`'s for the created database. A state that is not stored comes with an error. |
| PostgresResource.Read | linode/databasepostgresqlv2/framework_resource.go:190-238 | When the empty-ID helper reports that it removed the resource, the handler stops without a request. A 404 removes it with the warning "Database no longer exists" only. Any other error is "Unable to refresh the Database" and leaves the state untouched. Otherwise the state is flattened without preserving, and mirrors the database when the conversions succeed. |
| PostgresResource.ShouldUpdate | linode/databasepostgresqlv2/framework_resource.go:268-306 | Without a change to label, allow_list, type or `updates`, the update options are empty. A changed allow list, or a changed `updates` object, always makes an update due. `Update` asks the API exactly when it is due and decoding and ID parsing succeed. |
| PostgresResource.UpdateOptionsFor | linode/databasepostgresqlv2/framework_resource.go:268-306 | Label, allow list and type are sent exactly when they changed. The decoded `updates` object is never sent. |
| PostgresResource.UpdatesChangeSendsNothing | linode/databasepostgresqlv2/framework_resource.go:291-306 | A change to `updates` alone triggers an update request whose options are empty. |
| PostgresResource.IdFallback | linode/databasepostgresqlv2/framework_resource.go:353-358 | An empty planned ID becomes exactly the state's ID. When the planned ID is not empty, the model is unchanged. No other attribute changes. |
| PostgresResource.Update | linode/databasepostgresqlv2/framework_resource.go:240-361 | A failed decoding of a changed `updates` object stops the handler before any request. So does a planned ID that does not parse when an update is due. The API is asked exactly when label, allow_list, type or `updates` changed and decoding and parsing succeeded, once, with `UpdateOptionsFor`'s options. A failed request appends "Failed to update database (<id>)" to the earlier diagnostics and leaves the state untouched. A successful one stores the plan flattened from the answer, completed from the state, with the ID fallback. Without a change the completed plan is stored without a request. The state is stored exactly when no error is reported. A stored ID is empty only if it is the state's. With no request, an empty planned ID gives the state's ID. |
| PostgresResource.Delete | linode/databasepostgresqlv2/framework_resource.go:363-405 | An unparsable ID stops the handler before the request. A 404 answer is not an error. Any other failure is "Failed to delete the database (<id>)". |
| VpcResource.Create | linode/vpc/framework_resource.go:31-67 | The VPC is created with the planned label, region and description. A failure is "Failed to create VPC." and stores nothing. Otherwise the plan, flattened from the answer while preserving known values, is stored. |
| VpcResource.Read | linode/vpc/framework_resource.go:69-114 | An ID that does not narrow stops the handler before the request. A 404 removes the resource with the warning "VPC no longer exists." only. Any other error is "Unable to refresh the VPC.". Otherwise the state flattened from the answer is stored. |
| VpcResource.VpcShouldUpdate | linode/vpc/framework_resource.go:135-148 | Without a change the options are empty. Options with a label or a description make an update due. `VpcResource.Update` sends its request exactly when an update is due and the ID narrows. |
| VpcResource.VpcUpdateOptionsFor | linode/vpc/framework_resource.go:135-146 | Label and description are each put in the options exactly when they changed. |
| VpcResource.VpcOptionsOmitUnchanged | linode/vpc/framework_resource.go:135-148 | When nothing changed the options are empty, and non-empty options imply a change. A change with a non-empty label and description gives non-empty options. |
| VpcResource.Update | linode/vpc/framework_resource.go:116-170 | Without a change, the plan is completed from the state and stored without a request. With a change, one update request is made. A failure is "Failed to update VPC (<id>)." and stores nothing. Otherwise the answer is flattened into the plan, which is then completed from the state. |
| VpcResource.Delete | linode/vpc/framework_resource.go:172-205 | An ID that does not narrow stops the handler before the request. A 404 is not an error. Any other failure is "Failed to delete the VPC (<id>)". |
| Decimal.FormatIntRoundTrip | linode/databasepostgresqlv2/framework_models.go:91 | The decimal text strconv.Itoa gives an integer reads back as that integer. |
| Decimal.FormatIntInjective | linode/databasepostgresqlv2/framework_models.go:91 | Two integers have the same decimal text exactly when they are equal. |
| Tf.HasErrorAppend | linode/databasepostgresqlv2/framework_resource.go:58-66 | Appending diagnostics never clears an error. An error in the appended part is an error of the whole. |

## Left out

- Floating-point fields in `normalizeValue` are not modelled. The source compares `strconv.FormatFloat(f, 'f', 0, 64)`, the float rounded to integer text (filter.go:286-287). Here a float field is an `Other` value, so `Normalize` returns an invalid-field-type error instead.
- `FrameworkFilter.ToDiagnostic` gives the diagnostic text of each filter error, as the source reports it. It is descriptive only: the engine's contracts are stated on the error values.
- `GenerateID` (filter.go:64-75) is not modelled. It hashes the JSON rendering of the filters.
- JSON rendering of the API filter is not modelled, so neither is its marshal error (filter.go:152-162). The list function receives the filter tree itself.
- Logging (`tflog`), contexts and the handler timeouts are not modelled. The diagnostics of reading the plan, the state and the timeouts are one input, `requestDiags`.
- Create's event poller is not modelled beyond its creation error and its wait. The wait's outcome is an oracle keyed by the poller's `EntityID`, which is the created database's ID.
- `populateLogAttributes` is not modelled. It only sets a log field.
- `KeepOrUpdate`: the rule the `KeepOrUpdate*` helpers apply when known values are preserved is not part of this model. It is the `kept` set of attributes given to each Flatten and CopyFrom call.
- The framework's value conversions inside Flatten are not modelled. Their diagnostics are inputs. The converted values are taken to be the API's values.
- `Object.As` on the `updates` object in Create and Update is modelled only by its diagnostics, the `objectAs` oracle. A known object decodes to itself.
- `PostgresResource.Read`: `FrameworkAttemptRemoveResourceForEmptyID` is the `removeForEmptyId` oracle. The model does not tie it to an empty ID, and takes it to add no diagnostics.
- `PostgresResource.CreateOptionsFor` does not model fork_restore_time parse failures (framework_resource.go:90-94). A known restore time is taken to parse.
- `PostgresResource.Update`: the diagnostics of `ElementsAs` on the planned allow list are not modelled. The source ignores them.
- An API error's `Error()` text is not modelled. The diagnostic detail is the error's `message` instead. This applies to every handler diagnostic built from an API error: `PostgresResource.Create`, `PostgresResource.Provision`, `PostgresResource.SetWindow`, `PostgresResource.Store` (through `WaitDiags`), `PostgresResource.Read`, `PostgresResource.Update`, `PostgresResource.Delete`, `VpcResource.Create`, `VpcResource.Read`, `VpcResource.Update` and `VpcResource.Delete`.
- `State.Set` does not model its diagnostics. A stored outcome means that State.Set was called with that model.
- `VpcResource.Create`, `VpcResource.Read` and `VpcResource.Update`: VPCModel's `FlattenVPC` and `CopyFrom` are not part of this model. They are the `flatten` and `copyFrom` oracles, and only the four attributes the handlers read are modelled.
- The PostgreSQL model's 23 attributes are kept in four records, one per stage of Flatten. The order in which Flatten assigns attributes within one stage is therefore not modelled. It does not affect the result.
- Create reads `ForkSource` and `ForkRestoreTime` from the model, but the Model struct (framework_models.go:56-88) has only `fork` and `fork_details`. Here the two are separate inputs of Create.
- The engine_id version change in Update is commented out in the source, and cluster resizing is not supported, so neither is modelled.
