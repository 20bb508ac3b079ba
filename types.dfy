/**
 * The OllamaModel custom resource (api/v1alpha1/ollamamodel_types.go):
 * the ModelState enumeration, the spec and status records, the object
 * metadata the controller and the REST handlers touch, and the schema
 * constraints of the kubebuilder validation markers as predicates.
 */
module Types {
  import opened Wrappers

  /** One byte of a Go string. */
  type byte = x: int | 0 <= x < 256

  /** Go's int64. */
  type int64 = x: int | -0x8000_0000_0000_0000 <= x < 0x8000_0000_0000_0000

  /**
   * A metav1.Time, carried as its RFC3339 rendering. The rendering of a
   * real instant is never empty; the clock itself is a parameter.
   */
  type Time = s: string | |s| > 0 witness "1970-01-01T00:00:00Z"

  /** ModelState. `Unset` is the zero value "" that the controller tests for. */
  datatype ModelState = Unset | Pending | Pulling | Ready | Failed

  function StateName(st: ModelState): string
  {
    match st
    case Unset => ""
    case Pending => "Pending"
    case Pulling => "Pulling"
    case Ready => "Ready"
    case Failed => "Failed"
  }

  /**
   * Reads a state as the schema admits it: one of the four enumerated
   * names, or the empty string that `omitempty` leaves for an unset state.
   */
  function ParseState(s: string): (r: Option<ModelState>)
    ensures r.Some? <==> s in {"", "Pending", "Pulling", "Ready", "Failed"}
    ensures r.Some? ==> StateName(r.value) == s
  {
    if s == "" then Some(Unset)
    else if s == "Pending" then Some(Pending)
    else if s == "Pulling" then Some(Pulling)
    else if s == "Ready" then Some(Ready)
    else if s == "Failed" then Some(Failed)
    else None
  }

  lemma StateNameRoundTrip(st: ModelState)
    ensures ParseState(StateName(st)) == Some(st)
    ensures StateName(st) in {"", "Pending", "Pulling", "Ready", "Failed"}
  {
  }

  /** OllamaModelSpec. */
  datatype ModelSpec = ModelSpec(name: string, tag: string)

  /** OllamaModelStatus. */
  datatype ModelStatus = ModelStatus(
    state: ModelState,
    lastPullTime: Option<Time>,
    digest: string,
    size: int64,
    formattedSize: string,
    error: string)

  /** The status of a freshly created record: every field at its zero value. */
  const EmptyStatus := ModelStatus(Unset, None, "", 0, "", "")

  /**
   * The part of ObjectMeta the core reads and writes. `deleting` stands for
   * a non-zero DeletionTimestamp. A nil annotation map reads like an empty
   * one, so both are the empty map here.
   */
  datatype ObjectMeta = ObjectMeta(
    name: string,
    namespace: string,
    finalizers: seq<string>,
    annotations: map<string, string>,
    deleting: bool)

  /** OllamaModel. */
  datatype OllamaModel = OllamaModel(meta: ObjectMeta, spec: ModelSpec, status: ModelStatus)

  predicate IsLowerHexDigit(c: char)
  {
    '0' <= c <= '9' || 'a' <= c <= 'f'
  }

  /** Spec Name and Tag: Required, MinLength=1. */
  predicate ValidSpec(spec: ModelSpec)
  {
    |spec.name| >= 1 && |spec.tag| >= 1
  }

  /** Digest: Pattern=`^[a-f0-9]{64}$`, checked only when the field is present. */
  predicate ValidDigest(d: string)
  {
    d == "" || (|d| == 64 && forall i :: 0 <= i < |d| ==> IsLowerHexDigit(d[i]))
  }

  /**
   * The status schema: digest pattern, Size Minimum=0, Error MaxLength=1024.
   * The state is an enumeration by construction and LastPullTime is optional.
   */
  predicate ValidStatus(st: ModelStatus)
  {
    ValidDigest(st.digest) && st.size >= 0 && |st.error| <= 1024
  }

  predicate ValidModel(m: OllamaModel)
  {
    ValidSpec(m.spec) && ValidStatus(m.status)
  }

  lemma EmptyStatusValid()
    ensures ValidStatus(EmptyStatus) && EmptyStatus.state == Unset && EmptyStatus.lastPullTime == None
  {
  }
}
