/** The lifecycle handlers of linode_vpc. */
module VpcResource {
  import opened Wrappers
  import opened Tf
  import Decimal

  /** The attributes of VPCModel that the handlers read; the rest of the model
      is carried by the flatten and copy helpers. */
  datatype VpcModel = VpcModel(
    id: Value<int>, labelText: Value<string>, description: Value<string>, region: Value<string>)

  /** linodego.VPC as the handlers see it. */
  datatype Vpc = Vpc(id: int, labelText: string, description: string, region: string)

  datatype VpcCreateOptions = VpcCreateOptions(labelText: string, region: string, description: string)

  /** linodego.VPCUpdateOptions; an empty string is an omitted field. */
  datatype VpcUpdateOptions = VpcUpdateOptions(labelText: string, description: string)

  datatype VpcCall =
    | CreateVpc(createOpts: VpcCreateOptions)
    | GetVpc(id: int)
    | UpdateVpc(id: int, updateOpts: VpcUpdateOptions)
    | DeleteVpc(id: int)

  /** The API client's answers, as functions of the requests. */
  datatype VpcClient = VpcClient(
    create: VpcCreateOptions -> Result<Vpc, ApiError>,
    get: int -> Result<Vpc, ApiError>,
    update: (int, VpcUpdateOptions) -> Result<Vpc, ApiError>,
    delete: int -> Option<ApiError>)

  /** The helpers whose code is not part of this model: VPCModel.FlattenVPC
      and VPCModel.CopyFrom (each with its preserveKnown flag) and
      FrameworkSafeInt64ToInt. */
  datatype VpcHelpers = VpcHelpers(
    flatten: (VpcModel, Vpc, bool) -> VpcModel,
    copyFrom: (VpcModel, VpcModel, bool) -> VpcModel,
    toInt: IntConversion)

  /** Resource.Create: create the VPC with the planned label, region and
      description, then store the plan refreshed from the answer. */
  method Create(plan: VpcModel, requestDiags: seq<Diagnostic>, client: VpcClient, h: VpcHelpers)
    returns (diags: seq<Diagnostic>, calls: seq<VpcCall>, outcome: StateUpdate<VpcModel>)
    ensures HasError(requestDiags) ==> diags == requestDiags && calls == [] && outcome == Untouched
    ensures var opts := VpcCreateOptions(StringOf(plan.labelText), StringOf(plan.region), StringOf(plan.description));
      !HasError(requestDiags) ==>
        calls == [CreateVpc(opts)] &&
        (client.create(opts).Failure? ==>
           outcome == Untouched &&
           diags == requestDiags + [Diagnostic(Error, "Failed to create VPC.", client.create(opts).error.message)]) &&
        (client.create(opts).Success? ==>
           outcome == Stored(h.flatten(plan, client.create(opts).value, true)) && diags == requestDiags)
    ensures !outcome.Removed?
  {
    diags, calls, outcome := requestDiags, [], Untouched;
    if HasError(diags) {
      return;
    }
    var opts := VpcCreateOptions(StringOf(plan.labelText), StringOf(plan.region), StringOf(plan.description));
    calls := [CreateVpc(opts)];
    var created := client.create(opts);
    if created.Failure? {
      diags := diags + [Diagnostic(Error, "Failed to create VPC.", created.error.message)];
      return;
    }
    var data := h.flatten(plan, created.value, true);
    outcome := Stored(data);
  }

  /** Resource.Read: a VPC that is gone (404) is removed from state with a
      warning only. */
  method Read(state: VpcModel, requestDiags: seq<Diagnostic>, client: VpcClient, h: VpcHelpers)
    returns (diags: seq<Diagnostic>, calls: seq<VpcCall>, outcome: StateUpdate<VpcModel>)
    ensures HasError(requestDiags) ==> diags == requestDiags && calls == [] && outcome == Untouched
    ensures var id := h.toInt(IntOf(state.id));
      calls == [] <==> HasError(requestDiags + id.diags)
    ensures var id := h.toInt(IntOf(state.id));
      calls != [] ==>
        calls == [GetVpc(id.value)] &&
        (client.get(id.value).Failure? && IsNotFound(client.get(id.value).error) ==>
           outcome == Removed && !HasError(diags) &&
           diags == requestDiags + id.diags +
             [Diagnostic(Warning, "VPC no longer exists.",
                         "Removing Linode VPC with ID " + Decimal.FormatInt(id.value) +
                         " from state because it no longer exists.")]) &&
        (client.get(id.value).Failure? && !IsNotFound(client.get(id.value).error) ==>
           outcome == Untouched &&
           diags == requestDiags + id.diags +
             [Diagnostic(Error, "Unable to refresh the VPC.", client.get(id.value).error.message)]) &&
        (client.get(id.value).Success? ==>
           outcome == Stored(h.flatten(state, client.get(id.value).value, false)) && diags == requestDiags + id.diags)
    ensures outcome.Stored? || outcome.Removed? ==> calls != []
  {
    var id := h.toInt(IntOf(state.id));
    HasErrorAppend(requestDiags, id.diags);
    diags, calls, outcome := requestDiags, [], Untouched;
    if HasError(diags) {
      return;
    }
    diags := diags + id.diags;
    if HasError(diags) {
      return;
    }
    calls := [GetVpc(id.value)];
    var got := client.get(id.value);
    if got.Failure? {
      if IsNotFound(got.error) {
        var warning := Diagnostic(Warning, "VPC no longer exists.",
          "Removing Linode VPC with ID " + Decimal.FormatInt(id.value) + " from state because it no longer exists.");
        HasErrorAppend(diags, [warning]);
        diags := diags + [warning];
        outcome := Removed;
        return;
      }
      diags := diags + [Diagnostic(Error, "Unable to refresh the VPC.", got.error.message)];
      return;
    }
    var data := h.flatten(state, got.value, false);
    outcome := Stored(data);
  }

  /** Update sends a request only when the label or the description changed. */
  function VpcShouldUpdate(plan: VpcModel, state: VpcModel): (r: bool)
    ensures !r ==> VpcUpdateOptionsFor(plan, state) == VpcUpdateOptions("", "")
    ensures VpcUpdateOptionsFor(plan, state).labelText != "" || VpcUpdateOptionsFor(plan, state).description != "" ==> r
  {
    state.description != plan.description || state.labelText != plan.labelText
  }

  /** The update options: each field only when it changed. */
  function VpcUpdateOptionsFor(plan: VpcModel, state: VpcModel): (r: VpcUpdateOptions)
    ensures state.labelText != plan.labelText ==> r.labelText == StringOf(plan.labelText)
    ensures state.labelText == plan.labelText ==> r.labelText == ""
    ensures state.description != plan.description ==> r.description == StringOf(plan.description)
    ensures state.description == plan.description ==> r.description == ""
  {
    VpcUpdateOptions(
      if state.labelText != plan.labelText then StringOf(plan.labelText) else "",
      if state.description != plan.description then StringOf(plan.description) else "")
  }

  /** Whenever no update is needed the options are empty; the converse fails
      only for a change to an empty label or description. */
  lemma VpcOptionsOmitUnchanged(plan: VpcModel, state: VpcModel)
    ensures !VpcShouldUpdate(plan, state) ==> VpcUpdateOptionsFor(plan, state) == VpcUpdateOptions("", "")
    ensures VpcUpdateOptionsFor(plan, state) != VpcUpdateOptions("", "") ==> VpcShouldUpdate(plan, state)
    ensures VpcShouldUpdate(plan, state) && StringOf(plan.labelText) != "" && StringOf(plan.description) != "" ==>
      VpcUpdateOptionsFor(plan, state) != VpcUpdateOptions("", "")
  {
  }

  /** Resource.Update: when nothing changed, the plan, completed from the
      state, is stored without a request. */
  method Update(plan: VpcModel, state: VpcModel, requestDiags: seq<Diagnostic>, client: VpcClient, h: VpcHelpers)
    returns (diags: seq<Diagnostic>, calls: seq<VpcCall>, outcome: StateUpdate<VpcModel>)
    ensures HasError(requestDiags) ==> diags == requestDiags && calls == [] && outcome == Untouched
    ensures !HasError(requestDiags) && !VpcShouldUpdate(plan, state) ==>
      calls == [] && diags == requestDiags && outcome == Stored(h.copyFrom(plan, state, true))
    ensures var id := h.toInt(IntOf(plan.id));
      !HasError(requestDiags) && VpcShouldUpdate(plan, state) ==>
        (if HasError(requestDiags + id.diags) then
           calls == [] && outcome == Untouched && diags == requestDiags + id.diags
         else
           var answer := client.update(id.value, VpcUpdateOptionsFor(plan, state));
           calls == [UpdateVpc(id.value, VpcUpdateOptionsFor(plan, state))] &&
           (answer.Failure? ==>
              outcome == Untouched &&
              diags == requestDiags + id.diags +
                [Diagnostic(Error, "Failed to update VPC (" + Decimal.FormatInt(id.value) + ").", answer.error.message)]) &&
           (answer.Success? ==>
              outcome == Stored(h.copyFrom(h.flatten(plan, answer.value, false), state, true)) &&
              diags == requestDiags + id.diags))
    ensures !outcome.Removed?
  {
    diags, calls, outcome := requestDiags, [], Untouched;
    if HasError(diags) {
      return;
    }
    var opts := VpcUpdateOptionsFor(plan, state);
    var shouldUpdate := VpcShouldUpdate(plan, state);
    var data := plan;
    if shouldUpdate {
      var id := h.toInt(IntOf(plan.id));
      diags := diags + id.diags;
      if HasError(diags) {
        return;
      }
      calls := [UpdateVpc(id.value, opts)];
      var updated := client.update(id.value, opts);
      if updated.Failure? {
        diags := diags + [Diagnostic(Error, "Failed to update VPC (" + Decimal.FormatInt(id.value) + ").", updated.error.message)];
        return;
      }
      data := h.flatten(data, updated.value, false);
    }
    data := h.copyFrom(data, state, true);
    outcome := Stored(data);
  }

  /** Resource.Delete: the framework drops the state unless an error is
      reported. An already deleted VPC (404) is not an error; any other
      failure is. */
  method Delete(state: VpcModel, requestDiags: seq<Diagnostic>, client: VpcClient, h: VpcHelpers)
    returns (diags: seq<Diagnostic>, calls: seq<VpcCall>)
    ensures HasError(requestDiags) ==> diags == requestDiags && calls == []
    ensures var id := h.toInt(IntOf(state.id));
      calls == [] <==> HasError(requestDiags + id.diags)
    ensures var id := h.toInt(IntOf(state.id));
      calls != [] ==>
        calls == [DeleteVpc(id.value)] &&
        (HasError(diags) <==> client.delete(id.value).Some? && !IsNotFound(client.delete(id.value).value)) &&
        (client.delete(id.value).Some? && !IsNotFound(client.delete(id.value).value) ==>
          diags == requestDiags + id.diags +
            [Diagnostic(Error, "Failed to delete the VPC (" + Decimal.FormatInt(IntOf(state.id)) + ")",
                        client.delete(id.value).value.message)])
  {
    var id := h.toInt(IntOf(state.id));
    HasErrorAppend(requestDiags, id.diags);
    diags, calls := requestDiags, [];
    if HasError(diags) {
      return;
    }
    diags := diags + id.diags;
    if HasError(diags) {
      return;
    }
    calls := [DeleteVpc(id.value)];
    var err := client.delete(id.value);
    if err.Some? && !IsNotFound(err.value) {
      var failure := Diagnostic(Error, "Failed to delete the VPC (" + Decimal.FormatInt(IntOf(state.id)) + ")", err.value.message);
      HasErrorAppend(diags, [failure]);
      assert [failure][0] == failure;
      diags := diags + [failure];
    }
  }
}
