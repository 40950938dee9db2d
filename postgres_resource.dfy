/** The lifecycle handlers of linode_database_postgresql_v2: what each asks of
    the API, in which order, and what it leaves in the Terraform state. */
module PostgresResource {
  import opened Wrappers
  import opened Tf
  import opened PostgresModels
  import Decimal

  /** linodego.PostgresCreateOptions; a nil allow list is None. */
  datatype CreateOptions = CreateOptions(
    labelText: string, region: string, nodeType: string, engine: string, clusterSize: int,
    allowList: Option<set<string>>, fork: Option<DatabaseFork>)

  /** linodego.PostgresUpdateOptions; an empty string is an omitted field. */
  datatype UpdateOptions = UpdateOptions(
    labelText: string, allowList: Option<set<string>>, nodeType: string,
    updates: Option<MaintenanceWindow>)

  /** The requests a handler sends, in order. */
  datatype ApiCall =
    | CreatePoller
    | CreateDatabase(createOpts: CreateOptions)
    | UpdateDatabase(id: int, updateOpts: UpdateOptions)
    | GetDatabase(id: int)
    | DeleteDatabase(id: int)
    | WaitForCreate(id: int)

  /** The API client's answers, as functions of the requests. */
  datatype Client = Client(
    pollerError: Option<ApiError>,
    create: CreateOptions -> Result<PostgresDatabase, ApiError>,
    update: (int, UpdateOptions) -> Result<PostgresDatabase, ApiError>,
    get: int -> Result<PostgresDatabase, ApiError>,
    delete: int -> Option<ApiError>,
    waitError: int -> Option<ApiError>)

  /** The provider helpers whose code is not part of this model:
      FrameworkSafeInt64ToInt, FrameworkSafeStringToInt,
      FrameworkAttemptRemoveResourceForEmptyID (true when it removed the
      resource), the diagnostics of Object.As on the `updates` object and
      those of Set.ElementsAs on the allow list. */
  datatype Helpers = Helpers(
    toInt: IntConversion,
    parseId: string -> Converted,
    removeForEmptyId: Value<string> -> bool,
    objectAs: Value<ModelUpdates> -> seq<Diagnostic>,
    elementsAs: Value<set<string>> -> seq<Diagnostic>)

  /** What KeepOrUpdate and the framework conversions decide during one
      Flatten call. */
  datatype FlattenOracle = FlattenOracle(kept: set<Attr>, conv: ConversionDiags)

  // ------------------------------------------------ Create

  /** The create options built from the plan: label, region and type as
      planned, the engine slug from engine_id, the allow list only when it is
      not null (its decoding may report an error, as it does for an unknown
      set), and a fork only when fork_source is known (with its restore time
      only when fork_restore_time is known too). */
  function CreateOptionsFor(plan: ModelState, forkSource: Value<int>, forkRestoreTime: Value<Timestamp>,
                            h: Helpers): (r: (CreateOptions, seq<Diagnostic>))
    ensures r.0.labelText == StringOf(plan.identity.labelText) && r.0.region == StringOf(plan.identity.region)
    ensures r.0.nodeType == StringOf(plan.identity.nodeType)
    ensures r.0.engine == StringOf(plan.identity.engineId)
    ensures r.0.clusterSize == h.toInt(IntOf(plan.settings.clusterSize)).value
    ensures r.0.allowList.Some? <==> !plan.identity.allowList.Null?
    ensures r.0.allowList.Some? ==> r.0.allowList.value == ElementsOf(plan.identity.allowList)
    ensures r.0.fork.Some? <==> forkSource.Known?
    ensures r.0.fork.Some? ==> r.0.fork.value.source == h.toInt(forkSource.v).value
    ensures r.0.fork.Some? ==> (r.0.fork.value.restoreTime.Some? <==> forkRestoreTime.Known?)
    ensures r.0.fork.Some? && forkRestoreTime.Known? ==> r.0.fork.value.restoreTime == Some(forkRestoreTime.v)
    ensures !HasError(r.1) <==>
      !HasError(h.toInt(IntOf(plan.settings.clusterSize)).diags) &&
      (!plan.identity.allowList.Null? ==> !HasError(h.elementsAs(plan.identity.allowList))) &&
      (forkSource.Known? ==> !HasError(h.toInt(forkSource.v).diags))
  {
    var clusterSize := h.toInt(IntOf(plan.settings.clusterSize));
    var allowList := if plan.identity.allowList.Null? then None else Some(ElementsOf(plan.identity.allowList));
    var allowListDiags := if plan.identity.allowList.Null? then [] else h.elementsAs(plan.identity.allowList);
    var forkSourceConv := h.toInt(IntOf(forkSource));
    var fork := if forkSource.Known? then
                  Some(DatabaseFork(forkSourceConv.value, if forkRestoreTime.Known? then Some(forkRestoreTime.v) else None))
                else None;
    var forkDiags := if forkSource.Known? then forkSourceConv.diags else [];
    var diags := clusterSize.diags + allowListDiags + forkDiags;
    HasErrorAppend(clusterSize.diags, allowListDiags);
    HasErrorAppend(clusterSize.diags + allowListDiags, forkDiags);
    (CreateOptions(StringOf(plan.identity.labelText), StringOf(plan.identity.region), StringOf(plan.identity.nodeType),
                   StringOf(plan.identity.engineId), clusterSize.value, allowList, fork),
     diags)
  }

  /** A plan that mirrors a database asks the API for that database's label,
      region, type, engine and major version, cluster size and allow list. */
  lemma CreateOptionsOfMirror(db: PostgresDatabase, t: Timeouts, h: Helpers)
    requires forall n :: h.toInt(n) == Converted(n, [])
    requires h.elementsAs(Known(set s | s in db.allowList)) == []
    ensures var r := CreateOptionsFor(MirrorOf(db, t), Null, Null, h);
      r.0 == CreateOptions(db.labelText, db.region, db.nodeType, EngineId(db.engine, db.version),
                           db.clusterSize, Some(set s | s in db.allowList), None) &&
      r.1 == []
  {
    var none: seq<Diagnostic> := [];
    assert h.toInt(db.clusterSize) == Converted(db.clusterSize, []);
    assert none + none + none == none;
  }

  /** The update request Create sends for a planned maintenance window. */
  function WindowOnly(w: MaintenanceWindow): UpdateOptions {
    UpdateOptions("", None, "", Some(w))
  }

  /** The state Create stores: the ID is always that of the final database. */
  function WithId(s: ModelState, id: int): (r: ModelState)
    ensures r.identity.id == Known(Decimal.FormatInt(id))
    ensures r == s.(identity := r.identity)
    ensures r.identity == s.identity.(id := r.identity.id)
  {
    s.(identity := s.identity.(id := Known(Decimal.FormatInt(id))))
  }

  /** The stored ID reads back as the database's ID. */
  lemma StoredIdParses(s: ModelState, id: int)
    ensures Decimal.ParseInt(StringOf(WithId(s, id).identity.id)) == Some(id)
  {
    Decimal.FormatIntRoundTrip(id);
  }

  /** What Create does once the database exists: the requests it then makes
      and the state it leaves. A planned maintenance window is decoded,
      narrowed and sent alone; the state is stored with the model flattened
      from the created and then from the final database and that database's
      ID, and the poller set up for the created database is waited on. */
  function Provisioned(plan: ModelState, created: PostgresDatabase, client: Client, h: Helpers,
                       first: FlattenOracle, second: FlattenOracle): (r: (seq<ApiCall>, StateUpdate<ModelState>))
    ensures !r.1.Removed?
    ensures r.1.Stored? <==> r.0 != [] && r.0[|r.0| - 1] == WaitForCreate(created.id)
    ensures r.1.Stored? ==> r.1.model.timeouts == plan.timeouts
    ensures var afterFirst := FlattenState(plan, created, true, first.kept, first.conv);
      !afterFirst.objects.updates.Known? ==> r.1.Stored?
    ensures var afterFirst := FlattenState(plan, created, true, first.kept, first.conv);
      afterFirst.objects.updates.Known? ==>
        var window := ToLinodego(afterFirst.objects.updates.v, h.toInt);
        (r.0 == [] <==> HasError(h.objectAs(afterFirst.objects.updates) + window.1)) &&
        (r.1.Stored? <==> r.0 != [] && client.update(created.id, WindowOnly(window.0)).Success?)
  {
    var afterFirst := FlattenState(plan, created, true, first.kept, first.conv);
    if !afterFirst.objects.updates.Known? then
      ([WaitForCreate(created.id)], Stored(WithId(FlattenState(afterFirst, created, true, second.kept, second.conv), created.id)))
    else
      var window := ToLinodego(afterFirst.objects.updates.v, h.toInt);
      var request := UpdateDatabase(created.id, WindowOnly(window.0));
      var answer := client.update(created.id, WindowOnly(window.0));
      if HasError(h.objectAs(afterFirst.objects.updates) + window.1) then ([], Untouched)
      else if answer.Failure? then ([request], Untouched)
      else
        ([request, WaitForCreate(created.id)],
         Stored(WithId(FlattenState(afterFirst, answer.value, true, second.kept, second.conv), answer.value.id)))
  }

  /** The diagnostics of waiting for the created database: none, or the
      wait's error. */
  function WaitDiags(client: Client, waitId: int): (r: seq<Diagnostic>)
    ensures HasError(r) <==> client.waitError(waitId).Some?
  {
    if client.waitError(waitId).Some? then
      var failure := Diagnostic(Error, "Failed to wait for PostgreSQL database to finish creating",
                                client.waitError(waitId).value.message);
      assert [failure][0] == failure;
      [failure]
    else []
  }

  /** Create's request for a planned maintenance window: decode the object,
      narrow its numbers, and send it alone; None when any step failed. */
  method SetWindow(updates: ModelUpdates, created: PostgresDatabase, prior: seq<Diagnostic>, client: Client, h: Helpers)
    returns (diags: seq<Diagnostic>, calls: seq<ApiCall>, updated: Option<PostgresDatabase>)
    requires !HasError(prior)
    ensures var window := ToLinodego(updates, h.toInt);
      calls == [] <==> HasError(h.objectAs(Known(updates)) + window.1)
    ensures var window := ToLinodego(updates, h.toInt);
      calls == [] ==> diags == prior + h.objectAs(Known(updates)) ||
                      diags == prior + h.objectAs(Known(updates)) + window.1
    ensures var window := ToLinodego(updates, h.toInt).0;
      calls == [] || calls == [UpdateDatabase(created.id, WindowOnly(window))]
    ensures var window := ToLinodego(updates, h.toInt).0;
      updated.Some? <==> calls != [] && client.update(created.id, WindowOnly(window)).Success?
    ensures var window := ToLinodego(updates, h.toInt);
      updated.Some? ==> updated.value == client.update(created.id, WindowOnly(window.0)).value &&
                        diags == prior + h.objectAs(Known(updates)) + window.1 && !HasError(diags)
    ensures updated.None? ==> HasError(diags)
    ensures var window := ToLinodego(updates, h.toInt);
      calls != [] && client.update(created.id, WindowOnly(window.0)).Failure? ==>
        diags == prior + h.objectAs(Known(updates)) + window.1 +
          [Diagnostic(Error, "Failed to update PostgreSQL database",
                      client.update(created.id, WindowOnly(window.0)).error.message)]
  {
    diags, calls, updated := prior, [], None;
    var asDiags := h.objectAs(Known(updates));
    var window := ToLinodego(updates, h.toInt);
    HasErrorAppend(diags, asDiags);
    HasErrorAppend(asDiags, window.1);
    diags := diags + asDiags;
    if HasError(diags) {
      return;
    }
    HasErrorAppend(diags, window.1);
    diags := diags + window.1;
    if HasError(diags) {
      return;
    }
    calls := [UpdateDatabase(created.id, WindowOnly(window.0))];
    var answer := client.update(created.id, WindowOnly(window.0));
    if answer.Failure? {
      var failure := Diagnostic(Error, "Failed to update PostgreSQL database", answer.error.message);
      HasErrorAppend(diags, [failure]);
      assert [failure][0] == failure;
      diags := diags + [failure];
      return;
    }
    updated := Some(answer.value);
  }

  /** The second half of Resource.Create, from the created database on. */
  method Provision(plan: ModelState, created: PostgresDatabase, prior: seq<Diagnostic>, client: Client, h: Helpers,
                   first: FlattenOracle, second: FlattenOracle)
    returns (diags: seq<Diagnostic>, calls: seq<ApiCall>, outcome: StateUpdate<ModelState>)
    requires !HasError(prior)
    ensures calls == Provisioned(plan, created, client, h, first, second).0
    ensures outcome == Provisioned(plan, created, client, h, first, second).1
    ensures !outcome.Stored? ==> HasError(diags)
    ensures outcome.Stored? ==> (HasError(diags) <==> client.waitError(created.id).Some?)
    ensures var afterFirst := FlattenState(plan, created, true, first.kept, first.conv);
      !afterFirst.objects.updates.Known? ==> diags == prior + WaitDiags(client, created.id)
    ensures var afterFirst := FlattenState(plan, created, true, first.kept, first.conv);
      afterFirst.objects.updates.Known? ==>
        var window := ToLinodego(afterFirst.objects.updates.v, h.toInt);
        var decoded := prior + h.objectAs(afterFirst.objects.updates) + window.1;
        (calls == [] ==> diags == prior + h.objectAs(afterFirst.objects.updates) || diags == decoded) &&
        (calls == [UpdateDatabase(created.id, WindowOnly(window.0))] ==>
           diags == decoded + [Diagnostic(Error, "Failed to update PostgreSQL database",
                                          client.update(created.id, WindowOnly(window.0)).error.message)]) &&
        (outcome.Stored? ==> diags == decoded + WaitDiags(client, created.id))
  {
    diags, calls, outcome := prior, [], Untouched;
    var data := new Model.FromState(plan);
    var _ := data.Flatten(created, true, first.kept, first.conv);
    ghost var afterFirst := data.State();
    assert afterFirst == FlattenState(plan, created, true, first.kept, first.conv);
    var db := created;
    if data.objects.updates.Known? {
      var windowDiags, windowCalls, updated := SetWindow(data.objects.updates.v, created, diags, client, h);
      diags, calls := windowDiags, windowCalls;
      assert Known(data.objects.updates.v) == afterFirst.objects.updates;
      if updated.None? {
        return;
      }
      db := updated.value;
    }
    diags, calls, outcome := Store(data, db, created.id, diags, calls, client, second);
    assert outcome == Stored(WithId(FlattenState(afterFirst, db, true, second.kept, second.conv), db.id));
  }

  /** The end of Resource.Create: refresh the model from the final database,
      override its ID, store it, and wait on the poller of the created
      database (`waitId`) for the provisioning to finish. */
  method Store(data: Model, db: PostgresDatabase, waitId: int, prior: seq<Diagnostic>, priorCalls: seq<ApiCall>,
               client: Client, second: FlattenOracle)
    returns (diags: seq<Diagnostic>, calls: seq<ApiCall>, outcome: StateUpdate<ModelState>)
    requires !HasError(prior)
    modifies data
    ensures calls == priorCalls + [WaitForCreate(waitId)]
    ensures outcome == Stored(WithId(FlattenState(old(data.State()), db, true, second.kept, second.conv), db.id))
    ensures diags == prior + WaitDiags(client, waitId)
    ensures HasError(diags) <==> client.waitError(waitId).Some?
  {
    diags := prior;
    var _ := data.Flatten(db, true, second.kept, second.conv);
    data.identity := data.identity.(id := Known(Decimal.FormatInt(db.id)));
    outcome := Stored(data.State());
    calls := priorCalls + [WaitForCreate(waitId)];
    var waitError := client.waitError(waitId);
    if waitError.Some? {
      var failure := Diagnostic(Error, "Failed to wait for PostgreSQL database to finish creating", waitError.value.message);
      HasErrorAppend(diags, [failure]);
      assert [failure][0] == failure;
      diags := diags + [failure];
    }
  }

  /** Resource.Create. A failure while reading the plan or building the create
      options sends nothing; past the poller and the create request, the
      created database may get its planned maintenance window, and the state
      is stored before the provisioning is waited for, so a failed wait is
      reported but the state is still stored. */
  method Create(plan: ModelState, forkSource: Value<int>, forkRestoreTime: Value<Timestamp>,
                requestDiags: seq<Diagnostic>, client: Client, h: Helpers,
                first: FlattenOracle, second: FlattenOracle)
    returns (diags: seq<Diagnostic>, calls: seq<ApiCall>, outcome: StateUpdate<ModelState>)
    ensures HasError(requestDiags) ==> diags == requestDiags && calls == [] && outcome == Untouched
    ensures var opts := CreateOptionsFor(plan, forkSource, forkRestoreTime, h);
      (!HasError(requestDiags) && HasError(requestDiags + opts.1)) ==>
        diags == requestDiags + opts.1 && calls == [] && outcome == Untouched
    ensures calls == [] <==> HasError(requestDiags + CreateOptionsFor(plan, forkSource, forkRestoreTime, h).1)
    ensures calls != [] ==> calls[0] == CreatePoller
    ensures calls == [CreatePoller] <==> calls != [] && client.pollerError.Some?
    ensures calls == [CreatePoller] ==>
      outcome == Untouched &&
      diags == requestDiags + CreateOptionsFor(plan, forkSource, forkRestoreTime, h).1 +
        [Diagnostic(Error, "Failed to create event poller", client.pollerError.value.message)]
    ensures var opts := CreateOptionsFor(plan, forkSource, forkRestoreTime, h).0;
      |calls| >= 2 ==> calls[1] == CreateDatabase(opts)
    ensures var opts := CreateOptionsFor(plan, forkSource, forkRestoreTime, h).0;
      |calls| >= 2 && client.create(opts).Failure? ==>
        calls == [CreatePoller, CreateDatabase(opts)] && outcome == Untouched &&
        diags == requestDiags + CreateOptionsFor(plan, forkSource, forkRestoreTime, h).1 +
          [Diagnostic(Error, "Failed to create PostgreSQL database", client.create(opts).error.message)]
    ensures calls != [] ==> requestDiags + CreateOptionsFor(plan, forkSource, forkRestoreTime, h).1 <= diags
    ensures var opts := CreateOptionsFor(plan, forkSource, forkRestoreTime, h).0;
      |calls| >= 2 && client.create(opts).Success? ==>
        var later := Provisioned(plan, client.create(opts).value, client, h, first, second);
        calls == [CreatePoller, CreateDatabase(opts)] + later.0 && outcome == later.1
    ensures outcome.Stored? ==>
      calls[|calls| - 1].WaitForCreate? && (HasError(diags) <==> client.waitError(calls[|calls| - 1].id).Some?)
    ensures !outcome.Stored? ==> HasError(diags)
    ensures !outcome.Removed?
  {
    diags, calls, outcome := requestDiags, [], Untouched;
    var opts := CreateOptionsFor(plan, forkSource, forkRestoreTime, h);
    HasErrorAppend(diags, opts.1);
    if HasError(diags) {
      return;
    }
    diags := diags + opts.1;
    if HasError(diags) {
      return;
    }
    calls := [CreatePoller];
    if client.pollerError.Some? {
      var failure := Diagnostic(Error, "Failed to create event poller", client.pollerError.value.message);
      HasErrorAppend(diags, [failure]);
      assert [failure][0] == failure;
      diags := diags + [failure];
      return;
    }
    calls := calls + [CreateDatabase(opts.0)];
    var created := client.create(opts.0);
    if created.Failure? {
      var failure := Diagnostic(Error, "Failed to create PostgreSQL database", created.error.message);
      HasErrorAppend(diags, [failure]);
      assert [failure][0] == failure;
      diags := diags + [failure];
      return;
    }
    var provisionDiags, provisionCalls, provisioned := Provision(plan, created.value, diags, client, h, first, second);
    assert provisionCalls != [] ==> (calls + provisionCalls)[|calls + provisionCalls| - 1] == provisionCalls[|provisionCalls| - 1];
    diags, calls, outcome := provisionDiags, calls + provisionCalls, provisioned;
    assert calls[..2] == [CreatePoller, CreateDatabase(opts.0)];
  }

  // ------------------------------------------------ Read

  /** Resource.Read. An empty ID removes the resource without asking the API;
      a database that is gone (404) is removed from state with a warning only;
      otherwise the state is refreshed from the API without preserving known
      values. */
  method Read(state: ModelState, requestDiags: seq<Diagnostic>, client: Client, h: Helpers, refresh: FlattenOracle)
    returns (diags: seq<Diagnostic>, calls: seq<ApiCall>, outcome: StateUpdate<ModelState>)
    ensures HasError(requestDiags) ==> diags == requestDiags && calls == [] && outcome == Untouched
    ensures !HasError(requestDiags) && h.removeForEmptyId(state.identity.id) ==>
      diags == requestDiags && calls == [] && outcome == Removed
    ensures var id := h.parseId(StringOf(state.identity.id));
      calls == [] || calls == [GetDatabase(id.value)]
    ensures var id := h.parseId(StringOf(state.identity.id));
      calls == [] <==> HasError(requestDiags) || h.removeForEmptyId(state.identity.id) || HasError(requestDiags + id.diags)
    ensures var id := h.parseId(StringOf(state.identity.id));
      calls != [] && client.get(id.value).Failure? && IsNotFound(client.get(id.value).error) ==>
        outcome == Removed && !HasError(diags) &&
        diags == requestDiags + id.diags +
          [Diagnostic(Warning, "Database no longer exists",
                      "Removing PostgreSQL database with ID " + Decimal.FormatInt(id.value) +
                      " from state because it no longer exists")]
    ensures var id := h.parseId(StringOf(state.identity.id));
      calls != [] && client.get(id.value).Failure? && !IsNotFound(client.get(id.value).error) ==>
        outcome == Untouched &&
        diags == requestDiags + id.diags +
          [Diagnostic(Error, "Unable to refresh the Database", client.get(id.value).error.message)]
    ensures outcome.Stored? <==> calls != [] && client.get(calls[0].id).Success?
    ensures outcome.Stored? ==>
      var db := client.get(calls[0].id).value;
      outcome.model == FlattenState(state, db, false, refresh.kept, refresh.conv) &&
      diags == requestDiags + h.parseId(StringOf(state.identity.id)).diags &&
      (!HasError(refresh.conv.allowList + refresh.conv.members) ==> outcome.model == MirrorOf(db, state.timeouts))
  {
    diags, calls, outcome := requestDiags, [], Untouched;
    if HasError(diags) {
      return;
    }
    if h.removeForEmptyId(state.identity.id) {
      outcome := Removed;
      return;
    }
    var id := h.parseId(StringOf(state.identity.id));
    diags := diags + id.diags;
    if HasError(diags) {
      return;
    }
    calls := [GetDatabase(id.value)];
    var got := client.get(id.value);
    if got.Failure? {
      if IsNotFound(got.error) {
        var warning := Diagnostic(Warning, "Database no longer exists",
          "Removing PostgreSQL database with ID " + Decimal.FormatInt(id.value) + " from state because it no longer exists");
        HasErrorAppend(diags, [warning]);
        diags := diags + [warning];
        outcome := Removed;
        return;
      }
      diags := diags + [Diagnostic(Error, "Unable to refresh the Database", got.error.message)];
      return;
    }
    var data := new Model.FromState(state);
    var _ := data.Flatten(got.value, false, refresh.kept, refresh.conv);
    if !HasError(refresh.conv.allowList + refresh.conv.members) {
      FlattenMirrors(state, got.value, refresh.kept, refresh.conv);
    }
    outcome := Stored(data.State());
  }

  // ------------------------------------------------ Update

  /** The attributes whose change Update sends to the API. */
  function ShouldUpdate(plan: ModelState, state: ModelState): (r: bool)
    ensures !r ==> UpdateOptionsFor(plan, state) == UpdateOptions("", None, "", None)
    ensures UpdateOptionsFor(plan, state).allowList.Some? ==> r
    ensures state.objects.updates != plan.objects.updates ==> r
  {
    state.identity.labelText != plan.identity.labelText ||
    state.identity.allowList != plan.identity.allowList ||
    state.identity.nodeType != plan.identity.nodeType ||
    state.objects.updates != plan.objects.updates
  }

  /** The update options: each of label, allow list and type only when it
      changed; the decoded `updates` object is never included. */
  function UpdateOptionsFor(plan: ModelState, state: ModelState): (r: UpdateOptions)
    ensures r.labelText == (if state.identity.labelText != plan.identity.labelText then StringOf(plan.identity.labelText) else "")
    ensures r.allowList.Some? <==> state.identity.allowList != plan.identity.allowList
    ensures r.allowList.Some? ==> r.allowList.value == ElementsOf(plan.identity.allowList)
    ensures r.nodeType == (if state.identity.nodeType != plan.identity.nodeType then StringOf(plan.identity.nodeType) else "")
    ensures r.updates.None?
  {
    UpdateOptions(
      if state.identity.labelText != plan.identity.labelText then StringOf(plan.identity.labelText) else "",
      if state.identity.allowList != plan.identity.allowList then Some(ElementsOf(plan.identity.allowList)) else None,
      if state.identity.nodeType != plan.identity.nodeType then StringOf(plan.identity.nodeType) else "",
      None)
  }

  /** A change to `updates` alone sends an update request that changes nothing. */
  lemma UpdatesChangeSendsNothing(plan: ModelState, state: ModelState)
    requires state.identity.labelText == plan.identity.labelText
    requires state.identity.allowList == plan.identity.allowList
    requires state.identity.nodeType == plan.identity.nodeType
    requires state.objects.updates != plan.objects.updates
    ensures ShouldUpdate(plan, state)
    ensures UpdateOptionsFor(plan, state) == UpdateOptions("", None, "", None)
  {
  }

  /** The Crossplane workaround: an empty planned ID falls back to the state's. */
  function IdFallback(s: ModelState, stateId: Value<string>): (r: ModelState)
    ensures StringOf(s.identity.id) == "" ==> r.identity.id == stateId
    ensures StringOf(s.identity.id) != "" ==> r == s
    ensures r == s.(identity := r.identity) && r.identity == s.identity.(id := r.identity.id)
  {
    if StringOf(s.identity.id) == "" then s.(identity := s.identity.(id := stateId)) else s
  }

  /** The diagnostics of decoding the planned `updates` object, which Update
      does only when that object changed. */
  function DecodeDiags(plan: ModelState, state: ModelState, h: Helpers): seq<Diagnostic> {
    if state.objects.updates != plan.objects.updates then h.objectAs(plan.objects.updates) else []
  }

  /** Resource.Update. Decoding a changed `updates` object may fail before
      anything is sent. The API is asked exactly when a sent attribute changed
      and the planned ID parses, and only once; the plan is then refreshed from
      the answer. Without a change the plan, completed from the state, is
      stored without asking the API. */
  method Update(plan: ModelState, state: ModelState, requestDiags: seq<Diagnostic>, client: Client, h: Helpers,
                refresh: FlattenOracle, copyKept: set<Attr>)
    returns (diags: seq<Diagnostic>, calls: seq<ApiCall>, outcome: StateUpdate<ModelState>)
    ensures HasError(requestDiags) ==> diags == requestDiags && calls == [] && outcome == Untouched
    ensures !HasError(requestDiags) && HasError(DecodeDiags(plan, state, h)) ==>
      diags == requestDiags + DecodeDiags(plan, state, h) && calls == [] && outcome == Untouched
    ensures var id := h.parseId(StringOf(plan.identity.id));
      !HasError(requestDiags + DecodeDiags(plan, state, h)) && ShouldUpdate(plan, state) && HasError(id.diags) ==>
        diags == requestDiags + DecodeDiags(plan, state, h) + id.diags && calls == [] && outcome == Untouched
    ensures var id := h.parseId(StringOf(plan.identity.id));
      !HasError(requestDiags + DecodeDiags(plan, state, h) + id.diags) && ShouldUpdate(plan, state) ==>
        calls == [UpdateDatabase(id.value, UpdateOptionsFor(plan, state))]
    ensures calls != [] ==> ShouldUpdate(plan, state)
    ensures var id := h.parseId(StringOf(plan.identity.id));
      calls != [] && client.update(id.value, UpdateOptionsFor(plan, state)).Failure? ==>
        outcome == Untouched &&
        diags == requestDiags + DecodeDiags(plan, state, h) + id.diags +
          [Diagnostic(Error, "Failed to update database (" + Decimal.FormatInt(id.value) + ")",
                      client.update(id.value, UpdateOptionsFor(plan, state)).error.message)]
    ensures var id := h.parseId(StringOf(plan.identity.id));
      var answer := client.update(id.value, UpdateOptionsFor(plan, state));
      calls != [] && answer.Success? ==>
        diags == requestDiags + DecodeDiags(plan, state, h) + id.diags &&
        outcome == Stored(IdFallback(CopyState(FlattenState(plan, answer.value, false, refresh.kept, refresh.conv),
                                               state, true, copyKept),
                                     state.identity.id))
    ensures !ShouldUpdate(plan, state) && !HasError(requestDiags) ==>
      calls == [] && diags == requestDiags &&
      outcome == Stored(IdFallback(CopyState(plan, state, true, copyKept), state.identity.id))
    ensures outcome.Stored? <==> !HasError(diags)
    ensures outcome.Stored? ==> outcome.model.timeouts == plan.timeouts
    ensures outcome.Stored? && StringOf(outcome.model.identity.id) == "" ==> outcome.model.identity.id == state.identity.id
    ensures outcome.Stored? && calls == [] && StringOf(plan.identity.id) == "" ==>
      outcome.model.identity.id == state.identity.id
    ensures !outcome.Removed?
  {
    diags, calls, outcome := requestDiags, [], Untouched;
    HasErrorAppend(requestDiags, DecodeDiags(plan, state, h));
    HasErrorAppend(requestDiags + DecodeDiags(plan, state, h), h.parseId(StringOf(plan.identity.id)).diags);
    if HasError(diags) {
      return;
    }
    var opts := UpdateOptionsFor(plan, state);
    var shouldUpdate := ShouldUpdate(plan, state);
    if state.objects.updates != plan.objects.updates {
      diags := diags + h.objectAs(plan.objects.updates);
      assert diags == requestDiags + DecodeDiags(plan, state, h);
      if HasError(diags) {
        return;
      }
    } else {
      assert diags + DecodeDiags(plan, state, h) == diags;
    }
    assert diags == requestDiags + DecodeDiags(plan, state, h);
    var data := new Model.FromState(plan);
    if shouldUpdate {
      var id := h.parseId(StringOf(plan.identity.id));
      diags := diags + id.diags;
      if HasError(diags) {
        return;
      }
      calls := [UpdateDatabase(id.value, opts)];
      var updated := client.update(id.value, opts);
      if updated.Failure? {
        var failure := Diagnostic(Error, "Failed to update database (" + Decimal.FormatInt(id.value) + ")",
                                  updated.error.message);
        HasErrorAppend(diags, [failure]);
        assert [failure][0] == failure;
        diags := diags + [failure];
        return;
      }
      var _ := data.Flatten(updated.value, false, refresh.kept, refresh.conv);
    }
    var prior := new Model.FromState(state);
    data.CopyFrom(prior, true, copyKept);
    if StringOf(data.identity.id) == "" {
      data.identity := data.identity.(id := prior.identity.id);
    }
    outcome := Stored(data.State());
  }

  // ------------------------------------------------ Delete

  /** Resource.Delete: the framework drops the state unless an error is
      reported. An already deleted database (404) is not an error; any other
      failure is. */
  method Delete(state: ModelState, requestDiags: seq<Diagnostic>, client: Client, h: Helpers)
    returns (diags: seq<Diagnostic>, calls: seq<ApiCall>)
    ensures HasError(requestDiags) ==> diags == requestDiags && calls == []
    ensures var id := h.parseId(StringOf(state.identity.id));
      calls == [] || calls == [DeleteDatabase(id.value)]
    ensures var id := h.parseId(StringOf(state.identity.id));
      calls == [] <==> HasError(requestDiags + id.diags)
    ensures var id := h.parseId(StringOf(state.identity.id));
      calls != [] ==>
        (HasError(diags) <==> client.delete(id.value).Some? && !IsNotFound(client.delete(id.value).value))
    ensures var id := h.parseId(StringOf(state.identity.id));
      calls != [] && client.delete(id.value).Some? && !IsNotFound(client.delete(id.value).value) ==>
        diags == requestDiags + id.diags +
          [Diagnostic(Error, "Failed to delete the database (" + StringOf(state.identity.id) + ")",
                      client.delete(id.value).value.message)]
  {
    var id := h.parseId(StringOf(state.identity.id));
    HasErrorAppend(requestDiags, id.diags);
    diags, calls := requestDiags, [];
    if HasError(diags) {
      return;
    }
    diags := diags + id.diags;
    if HasError(diags) {
      return;
    }
    calls := [DeleteDatabase(id.value)];
    var err := client.delete(id.value);
    if err.Some? && !IsNotFound(err.value) {
      var failure := Diagnostic(Error, "Failed to delete the database (" + StringOf(state.identity.id) + ")", err.value.message);
      HasErrorAppend(diags, [failure]);
      assert [failure][0] == failure;
      diags := diags + [failure];
    }
  }
}
