/** The Terraform plugin framework's attribute values, diagnostics and
    resource-state outcomes, and the API client's error shape, as plain values. */
module Tf {
  import opened Wrappers

  /** A framework attribute value (types.String, types.Int64, types.Set, ...):
      null, unknown (not yet computed), or a known value. */
  datatype Value<T> = Null | Unknown | Known(v: T)

  /** ValueString(): the empty string unless the value is known. */
  function StringOf(x: Value<string>): string {
    if x.Known? then x.v else ""
  }

  /** ValueInt64(): zero unless the value is known. */
  function IntOf(x: Value<int>): int {
    if x.Known? then x.v else 0
  }

  /** ElementsAs on a string set: no elements unless the set is known. */
  function ElementsOf(x: Value<set<string>>): set<string> {
    if x.Known? then x.v else {}
  }

  /** RFC 3339 timestamps are carried as their text. */
  type Timestamp = string

  /** NewRFC3339TimePointerValue: a nil time is the null value. */
  function TimeOf(t: Option<Timestamp>): Value<Timestamp> {
    if t.Some? then Known(t.value) else Null
  }

  datatype Severity = Error | Warning

  datatype Diagnostic = Diagnostic(severity: Severity, summary: string, detail: string)

  /** diag.Diagnostics.HasError */
  predicate HasError(ds: seq<Diagnostic>) {
    exists i :: 0 <= i < |ds| && ds[i].severity == Error
  }

  /** Appending diagnostics never clears an error, and an error in the
      appended part is one in the whole. */
  lemma HasErrorAppend(a: seq<Diagnostic>, b: seq<Diagnostic>)
    ensures HasError(a + b) <==> HasError(a) || HasError(b)
  {
    if HasError(a) {
      var i :| 0 <= i < |a| && a[i].severity == Error;
      assert (a + b)[i] == a[i];
    }
    if HasError(b) {
      var i :| 0 <= i < |b| && b[i].severity == Error;
      assert (a + b)[|a| + i] == b[i];
    }
    if HasError(a + b) {
      var i :| 0 <= i < |a + b| && (a + b)[i].severity == Error;
      if i < |a| {
        assert a[i] == (a + b)[i];
      } else {
        assert b[i - |a|] == (a + b)[i];
      }
    }
  }

  /** The result of a provider helper that converts a number and reports
      a diagnostic when it cannot (FrameworkSafeInt64ToInt, FrameworkSafeStringToInt). */
  datatype Converted = Converted(value: int, diags: seq<Diagnostic>)

  /** A narrowing conversion such as FrameworkSafeInt64ToInt. */
  type IntConversion = int -> Converted

  /** An error returned by the API client: a *linodego.Error with its HTTP
      status code, or any other error. */
  datatype ApiError = LinodeError(code: int, message: string) | OtherError(message: string)

  /** err.(*linodego.Error) with Code == 404 */
  predicate IsNotFound(e: ApiError) {
    e.LinodeError? && e.code == 404
  }

  /** What a lifecycle handler leaves in resp.State: the prior state untouched,
      a newly stored model (resp.State.Set) or the resource removed
      (resp.State.RemoveResource). */
  datatype StateUpdate<M> = Untouched | Stored(model: M) | Removed
}
