/**
 * The OllamaModel reconciler (internal/controller/ollamamodel_controller.go).
 *
 * The functions state what one reconciliation pass does: which calls it
 * makes on the Ollama client and on the store, in which order, and which
 * record and ctrl.Result it ends with. The methods do the same pass step by
 * step, with the source's counted retry loops and its list scan, and are
 * proved to agree with the functions.
 */
module Controller {
  import opened Wrappers
  import opened Types
  import opened Env
  import Format
  import Text

  const Finalizer := "ollama.smithforge.dev/finalizer"
  const RefreshAnnotation := "ollama.smithforge.dev/refresh"
  const MaxRetries: nat := 3
  /** RequeueAfter, in seconds, after a failed store write. */
  const ShortDelay: nat := 5
  /** RequeueAfter, in seconds, after a failed pull. */
  const LongDelay: nat := 30

  /** ctrl.Result together with the error returned beside it; requeueAfter 0 means no requeue. */
  datatype Result = Result(requeueAfter: nat, err: Option<string>)

  const Done := Result(0, None)

  /** The record as the pass leaves it, the calls made, and what the pass returns. */
  datatype Outcome = Outcome(record: OllamaModel, session: Session, result: Result)

  /** What r.Get found for the request. */
  datatype Fetch = Found(record: OllamaModel) | Missing | FetchFailed(message: string)

  /** The daemon's addressing key "name:tag". */
  function ModelRef(spec: ModelSpec): string
  {
    spec.name + ":" + spec.tag
  }

  predicate IsModelNotFound(message: string)
  {
    Text.Contains(message, "model not found")
  }

  /** A Delete reply that ends the retry loop: success, or the model is already gone. */
  predicate Settles(r: Reply)
  {
    r.Ok? || IsModelNotFound(r.message)
  }

  predicate RefreshRequested(m: OllamaModel)
  {
    RefreshAnnotation in m.meta.annotations && m.meta.annotations[RefreshAnnotation] == "true"
  }

  /** controllerutil.AddFinalizer: appends the token unless it is already there. */
  function AddFinalizer(fs: seq<string>, f: string): (r: seq<string>)
    ensures forall x :: x in r <==> x in fs || x == f
    ensures f in fs ==> r == fs
    ensures f !in fs ==> r == fs + [f]
  {
    if f in fs then fs else fs + [f]
  }

  /** controllerutil.RemoveFinalizer: drops every copy of the token, keeping the others in order. */
  function RemoveFinalizer(fs: seq<string>, f: string): (r: seq<string>)
    ensures forall x :: x in r <==> x in fs && x != f
    ensures |r| <= |fs|
  {
    if fs == [] then []
    else (if fs[0] == f then [] else [fs[0]]) + RemoveFinalizer(fs[1..], f)
  }

  /** Removal works piece by piece, so the remaining finalizers keep their order. */
  lemma {:induction false} RemoveFinalizerAppend(a: seq<string>, b: seq<string>, f: string)
    ensures RemoveFinalizer(a + b, f) == RemoveFinalizer(a, f) + RemoveFinalizer(b, f)
  {
    if a == [] {
      assert a + b == b;
    } else {
      var s := a + b;
      assert s[0] == a[0] && s[1..] == a[1..] + b;
      RemoveFinalizerAppend(a[1..], b, f);
    }
  }

  /** On one finalizer: the token goes, any other stays. */
  lemma RemoveFinalizerSingle(x: string, f: string)
    ensures RemoveFinalizer([x], f) == if x == f then [] else [x]
  {
    assert [x][1..] == [];
  }

  function WithState(m: OllamaModel, st: ModelState): OllamaModel
  {
    m.(status := m.status.(state := st))
  }

  /** The Result of a pass that ends with one store write. */
  function Persisted(r: Reply): Result
  {
    if r.Ok? then Done else Result(ShortDelay, Some(r.message))
  }

  // ---------------------------------------------------------------------
  // handleDeletion

  /** Delete attempts i, i+1, ... of the loop; returns deleteErr as the loop leaves it. */
  function DeleteRetry(o: Oracle, s: Session, model: string, i: nat, last: Option<string>): (Option<string>, Session)
    decreases MaxRetries - i
  {
    if i >= MaxRetries then (last, s)
    else
      var (r, s1) := CallDelete(o, s, model);
      if Settles(r) then (None, s1)
      else DeleteRetry(o, s1, model, i + 1, Some(r.message))
  }

  function Deletion(o: Oracle, s: Session, m: OllamaModel): Outcome
  {
    if Finalizer in m.meta.finalizers then
      var (_, s1) := DeleteRetry(o, s, ModelRef(m.spec), 0, None);
      var m1 := m.(meta := m.meta.(finalizers := RemoveFinalizer(m.meta.finalizers, Finalizer)));
      var (r, s2) := CallUpdate(o, s1, m1);
      Outcome(m1, s2, Persisted(r))
    else
      Outcome(m, s, Done)
  }

  // ---------------------------------------------------------------------
  // updateModelDetails

  /** Status().Update attempts i, i+1, ...; the error is returned only after the last attempt fails. */
  function StatusRetry(o: Oracle, s: Session, m: OllamaModel, i: nat): (Option<string>, Session)
    decreases MaxRetries - i
  {
    if i >= MaxRetries then (None, s)
    else
      var (r, s1) := CallStatusUpdate(o, s, m);
      if r.Ok? then (None, s1)
      else if i == MaxRetries - 1 then (Some(r.message), s1)
      else StatusRetry(o, s1, m, i + 1)
  }

  /** The index of the first listed model with the given name. */
  function FirstMatch(models: seq<ListedModel>, model: string): (r: Option<nat>)
    ensures r.Some? ==> r.value < |models| && models[r.value].name == model
    ensures r.Some? ==> forall j :: 0 <= j < r.value ==> models[j].name != model
    ensures r.None? <==> forall j :: 0 <= j < |models| ==> models[j].name != model
  {
    if models == [] then None
    else if models[0].name == model then Some(0)
    else match FirstMatch(models[1..], model)
      case None => None
      case Some(i) => Some(i + 1)
  }

  /** Size and FormattedSize from the first matching entry; unchanged without a match. */
  function ApplySize(st: ModelStatus, models: seq<ListedModel>, model: string): ModelStatus
  {
    match FirstMatch(models, model)
    case None => st
    case Some(i) => st.(size := models[i].size, formattedSize := Format.FormatBytes(models[i].size))
  }

  /** The Show and List calls of updateModelDetails and what they contribute to the status. */
  function Observe(o: Oracle, s: Session, st: ModelStatus, model: string): (ModelStatus, Session)
  {
    var (sr, s1) := CallShow(o, s, model);
    match sr
    case ShowFailed(_) => (st, s1)
    case Shown(mf) =>
      var st1 := if |mf| > 0 then st.(digest := Format.Digest(mf)) else st;
      var (lr, s2) := CallList(o, s1);
      match lr
      case ListFailed(_) => (st1, s2)
      case Listed(models) => (ApplySize(st1, models, model), s2)
  }

  function Details(o: Oracle, s: Session, m: OllamaModel, now: Time): Outcome
  {
    var m1 := m.(status := m.status.(state := Ready, lastPullTime := Some(now)));
    var (st, s1) := Observe(o, s, m1.status, ModelRef(m.spec));
    var m2 := m1.(status := st);
    var (err, s2) := StatusRetry(o, s1, m2, 0);
    Outcome(m2, s2, Result(0, err))
  }

  // ---------------------------------------------------------------------
  // refreshModel and the pull in Reconcile

  /** Pull attempts i, i+1, ...; returns pullErr as the loop leaves it. */
  function PullRetry(o: Oracle, s: Session, model: string, i: nat, last: Option<string>): (Option<string>, Session)
    decreases MaxRetries - i
  {
    if i >= MaxRetries then (last, s)
    else
      var (r, s1) := CallPull(o, s, model);
      if r.Ok? then (None, s1)
      else PullRetry(o, s1, model, i + 1, Some(r.message))
  }

  /** After a failed pull: state Failed with the pull's error text, persisted; requeue after 30s. */
  function RecordPullFailure(o: Oracle, s: Session, m: OllamaModel, pullError: string): Outcome
  {
    var m1 := m.(status := m.status.(state := Failed, error := pullError));
    var (u, s1) := CallStatusUpdate(o, s, m1);
    Outcome(m1, s1, if u.Err? then Result(ShortDelay, Some(u.message)) else Result(LongDelay, Some(pullError)))
  }

  /** The annotation value that acknowledges a refresh. */
  function Completed(now: Time): string
  {
    "completed-" + now
  }

  function Refresh(o: Oracle, s: Session, m: OllamaModel, now: Time): Outcome
  {
    var m1 := WithState(m, Pulling);
    var (r, s1) := CallStatusUpdate(o, s, m1);
    if r.Err? then Outcome(m1, s1, Result(ShortDelay, Some(r.message)))
    else
      var (pullErr, s2) := PullRetry(o, s1, ModelRef(m.spec), 0, None);
      if pullErr.Some? then RecordPullFailure(o, s2, m1, pullErr.value)
      else
        var d := Details(o, s2, m1, now);
        if d.result.err.Some? then d
        else
          var m3 := d.record.(meta := d.record.meta.(
            annotations := d.record.meta.annotations[RefreshAnnotation := Completed(now)]));
          var (u, s3) := CallUpdate(o, d.session, m3);
          Outcome(m3, s3, Persisted(u))
  }

  /** Show failed while Pending: persist Pulling, pull once, then record the failure or the details. */
  function PullFromPending(o: Oracle, s: Session, m: OllamaModel, now: Time): Outcome
  {
    var m1 := WithState(m, Pulling);
    var (r, s1) := CallStatusUpdate(o, s, m1);
    if r.Err? then Outcome(m1, s1, Result(ShortDelay, Some(r.message)))
    else
      var (p, s2) := CallPull(o, s1, ModelRef(m.spec));
      if p.Err? then RecordPullFailure(o, s2, m1, p.message)
      else Details(o, s2, m1, now)
  }

  // ---------------------------------------------------------------------
  // Reconcile

  /** One pass over a record that r.Get found: the decision ladder of Reconcile. */
  function Pass(o: Oracle, s: Session, m: OllamaModel, now: Time): Outcome
  {
    if m.meta.deleting then Deletion(o, s, m)
    else if Finalizer !in m.meta.finalizers then
      var m1 := m.(meta := m.meta.(finalizers := AddFinalizer(m.meta.finalizers, Finalizer)));
      var (r, s1) := CallUpdate(o, s, m1);
      Outcome(m1, s1, Persisted(r))
    else if RefreshRequested(m) then Refresh(o, s, m, now)
    else if m.status.state == Unset then
      var m1 := WithState(m, Pending);
      var (r, s1) := CallStatusUpdate(o, s, m1);
      Outcome(m1, s1, Persisted(r))
    else
      var (sr, s1) := CallShow(o, s, ModelRef(m.spec));
      if sr.ShowFailed? then
        if m.status.state == Pending then PullFromPending(o, s1, m, now)
        else Outcome(m, s1, Done)
      else if m.status.state != Ready then Details(o, s1, m, now)
      else Outcome(m, s1, Done)
  }

  // ---------------------------------------------------------------------
  // The imperative pass

  method HandleDeletion(o: Oracle, s: Session, m: OllamaModel) returns (out: Outcome)
    ensures out == Deletion(o, s, m)
  {
    var model := ModelRef(m.spec);
    var record, session := m, s;
    if Finalizer in record.meta.finalizers {
      var deleteErr: Option<string> := None;
      var i := 0;
      while i < MaxRetries
        invariant 0 <= i <= MaxRetries
        invariant DeleteRetry(o, session, model, i, deleteErr) == DeleteRetry(o, s, model, 0, None)
      {
        var call := CallDelete(o, session, model);
        session := call.1;
        if call.0.Ok? || IsModelNotFound(call.0.message) {
          deleteErr := None;
          break;
        }
        deleteErr := Some(call.0.message);
        i := i + 1;
      }
      record := record.(meta := record.meta.(finalizers := RemoveFinalizer(record.meta.finalizers, Finalizer)));
      var update := CallUpdate(o, session, record);
      session := update.1;
      if update.0.Err? {
        return Outcome(record, session, Result(ShortDelay, Some(update.0.message)));
      }
    }
    return Outcome(record, session, Done);
  }

  method UpdateModelDetails(o: Oracle, s: Session, m: OllamaModel, now: Time) returns (out: Outcome)
    ensures out == Details(o, s, m, now)
  {
    var model := ModelRef(m.spec);
    var record := m.(status := m.status.(state := Ready, lastPullTime := Some(now)));
    var session := s;
    var show := CallShow(o, session, model);
    session := show.1;
    if show.0.Shown? {
      var modelfile := show.0.modelfile;
      if |modelfile| > 0 {
        record := record.(status := record.status.(digest := Format.Digest(modelfile)));
      }
      var list := CallList(o, session);
      session := list.1;
      if list.0.Listed? {
        var models := list.0.models;
        ghost var before := record.status;
        var i := 0;
        while i < |models|
          invariant 0 <= i <= |models|
          invariant forall j :: 0 <= j < i ==> models[j].name != model
          invariant record.status == before
        {
          if models[i].name == model {
            record := record.(status := record.status.(size := models[i].size,
                                                        formattedSize := Format.FormatBytes(models[i].size)));
            assert FirstMatch(models, model) == Some(i);
            break;
          }
          i := i + 1;
        }
        assert record.status == ApplySize(before, models, model);
      }
    }
    ghost var observed := session;
    var i := 0;
    while i < MaxRetries
      invariant 0 <= i <= MaxRetries
      invariant StatusRetry(o, session, record, i) == StatusRetry(o, observed, record, 0)
    {
      var update := CallStatusUpdate(o, session, record);
      session := update.1;
      if update.0.Err? {
        if i == MaxRetries - 1 {
          return Outcome(record, session, Result(0, Some(update.0.message)));
        }
        i := i + 1;
        continue;
      }
      break;
    }
    return Outcome(record, session, Done);
  }

  method RefreshModel(o: Oracle, s: Session, m: OllamaModel, now: Time) returns (out: Outcome)
    ensures out == Refresh(o, s, m, now)
  {
    var model := ModelRef(m.spec);
    var record := WithState(m, Pulling);
    var session := s;
    var update := CallStatusUpdate(o, session, record);
    session := update.1;
    if update.0.Err? {
      return Outcome(record, session, Result(ShortDelay, Some(update.0.message)));
    }
    ghost var pulling := session;
    var pullErr: Option<string> := None;
    var i := 0;
    while i < MaxRetries
      invariant 0 <= i <= MaxRetries
      invariant PullRetry(o, session, model, i, pullErr) == PullRetry(o, pulling, model, 0, None)
    {
      var pull := CallPull(o, session, model);
      session := pull.1;
      if pull.0.Ok? {
        pullErr := None;
        break;
      }
      pullErr := Some(pull.0.message);
      i := i + 1;
    }
    if pullErr.Some? {
      record := record.(status := record.status.(state := Failed, error := pullErr.value));
      var failed := CallStatusUpdate(o, session, record);
      session := failed.1;
      if failed.0.Err? {
        return Outcome(record, session, Result(ShortDelay, Some(failed.0.message)));
      }
      return Outcome(record, session, Result(LongDelay, pullErr));
    }
    var details := UpdateModelDetails(o, session, record, now);
    if details.result.err.Some? {
      return details;
    }
    record, session := details.record, details.session;
    record := record.(meta := record.meta.(annotations := record.meta.annotations[RefreshAnnotation := Completed(now)]));
    var ack := CallUpdate(o, session, record);
    session := ack.1;
    if ack.0.Err? {
      return Outcome(record, session, Result(ShortDelay, Some(ack.0.message)));
    }
    return Outcome(record, session, Done);
  }

  /** Reconcile: fetch the record, then walk the decision ladder. */
  method Reconcile(o: Oracle, s: Session, fetched: Fetch, now: Time)
    returns (record: Option<OllamaModel>, session: Session, result: Result)
    ensures fetched.Missing? ==> record == None && session == s && result == Done
    ensures fetched.FetchFailed? ==> record == None && session == s && result == Result(0, Some(fetched.message))
    ensures fetched.Found? ==> record.Some? && Outcome(record.value, session, result) == Pass(o, s, fetched.record, now)
  {
    session := s;
    if fetched.Missing? {
      return None, session, Done;
    }
    if fetched.FetchFailed? {
      return None, session, Result(0, Some(fetched.message));
    }
    var m := fetched.record;
    var model := ModelRef(m.spec);
    var out: Outcome;
    if m.meta.deleting {
      out := HandleDeletion(o, s, m);
      return Some(out.record), out.session, out.result;
    }
    if Finalizer !in m.meta.finalizers {
      m := m.(meta := m.meta.(finalizers := AddFinalizer(m.meta.finalizers, Finalizer)));
      var update := CallUpdate(o, session, m);
      session := update.1;
      if update.0.Err? {
        return Some(m), session, Result(ShortDelay, Some(update.0.message));
      }
      return Some(m), session, Done;
    }
    if RefreshAnnotation in m.meta.annotations && m.meta.annotations[RefreshAnnotation] == "true" {
      out := RefreshModel(o, s, m, now);
      return Some(out.record), out.session, out.result;
    }
    if m.status.state == Unset {
      m := WithState(m, Pending);
      var update := CallStatusUpdate(o, session, m);
      session := update.1;
      if update.0.Err? {
        return Some(m), session, Result(ShortDelay, Some(update.0.message));
      }
      return Some(m), session, Done;
    }
    var show := CallShow(o, session, model);
    session := show.1;
    if show.0.ShowFailed? {
      if m.status.state == Pending {
        m := WithState(m, Pulling);
        var update := CallStatusUpdate(o, session, m);
        session := update.1;
        if update.0.Err? {
          return Some(m), session, Result(ShortDelay, Some(update.0.message));
        }
        var pull := CallPull(o, session, model);
        session := pull.1;
        if pull.0.Err? {
          var pullError := pull.0.message;
          m := m.(status := m.status.(state := Failed, error := pullError));
          var failed := CallStatusUpdate(o, session, m);
          session := failed.1;
          if failed.0.Err? {
            return Some(m), session, Result(ShortDelay, Some(failed.0.message));
          }
          return Some(m), session, Result(LongDelay, Some(pullError));
        }
        out := UpdateModelDetails(o, session, m, now);
        return Some(out.record), out.session, out.result;
      }
    } else if m.status.state != Ready {
      out := UpdateModelDetails(o, session, m, now);
      return Some(out.record), out.session, out.result;
    }
    return Some(m), session, Done;
  }
}
