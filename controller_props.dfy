/**
 * Properties of one reconciliation pass: the deletion guard, the first two
 * passes, refresh, the pull from Pending, idempotence on a Ready record, the
 * details update and the retry budgets.
 */
module ControllerProperties {
  import opened Wrappers
  import opened Types
  import opened Env
  import opened Controller
  import Format

  // ---------------------------------------------------------------------
  // The three retry loops

  /**
   * The delete loop calls Delete once per attempt and stops early exactly when
   * an attempt succeeds or reports that the model is not found.
   */
  lemma {:induction false} DeleteRetryShape(o: Oracle, s: Session, model: string, i: nat, last: Option<string>)
    requires i < MaxRetries
    ensures var (err, s') := DeleteRetry(o, s, model, i, last);
      var k := s'.deletes - s.deletes;
      && 1 <= k <= MaxRetries - i
      && s' == s.(trace := s.trace + Repeat(Delete(model), k), deletes := s.deletes + k)
      && (forall j | s.deletes <= j < s'.deletes - 1 :: !Settles(o.delete(j)))
      && (k < MaxRetries - i ==> Settles(o.delete(s'.deletes - 1)))
      && (err.None? <==> Settles(o.delete(s'.deletes - 1)))
    decreases MaxRetries - i
  {
    var (r, s1) := CallDelete(o, s, model);
    if !Settles(r) && i + 1 < MaxRetries {
      DeleteRetryShape(o, s1, model, i + 1, Some(r.message));
      var (err, s') := DeleteRetry(o, s1, model, i + 1, Some(r.message));
      var k := s'.deletes - s1.deletes;
      assert [Delete(model)] + Repeat(Delete(model), k) == Repeat(Delete(model), k + 1);
    }
  }

  /** The pull loop of refreshModel: at most three Pull calls, stopping at the first success. */
  lemma {:induction false} PullRetryShape(o: Oracle, s: Session, model: string, i: nat, last: Option<string>)
    requires i < MaxRetries
    ensures var (err, s') := PullRetry(o, s, model, i, last);
      var k := s'.pulls - s.pulls;
      && 1 <= k <= MaxRetries - i
      && s' == s.(trace := s.trace + Repeat(Pull(model), k), pulls := s.pulls + k)
      && (forall j | s.pulls <= j < s'.pulls - 1 :: o.pull(j).Err?)
      && (err.None? <==> o.pull(s'.pulls - 1).Ok?)
      && (err.Some? ==> k == MaxRetries - i && err.value == o.pull(s'.pulls - 1).message)
    decreases MaxRetries - i
  {
    var (r, s1) := CallPull(o, s, model);
    if r.Err? && i + 1 < MaxRetries {
      PullRetryShape(o, s1, model, i + 1, Some(r.message));
      var (err, s') := PullRetry(o, s1, model, i + 1, Some(r.message));
      var k := s'.pulls - s1.pulls;
      assert [Pull(model)] + Repeat(Pull(model), k) == Repeat(Pull(model), k + 1);
    }
  }

  /**
   * The status write of updateModelDetails: at most three Status().Update
   * calls, stopping at the first success; the error of the last attempt is
   * returned only when all of them failed.
   */
  lemma {:induction false} StatusRetryShape(o: Oracle, s: Session, m: OllamaModel, i: nat)
    requires i < MaxRetries
    ensures var (err, s') := StatusRetry(o, s, m, i);
      var k := s'.statusUpdates - s.statusUpdates;
      && 1 <= k <= MaxRetries - i
      && s' == s.(trace := s.trace + Repeat(StatusUpdate(m), k), statusUpdates := s.statusUpdates + k)
      && (forall j | s.statusUpdates <= j < s'.statusUpdates - 1 :: o.statusUpdate(j).Err?)
      && (err.None? <==> o.statusUpdate(s'.statusUpdates - 1).Ok?)
      && (err.Some? ==> k == MaxRetries - i && err.value == o.statusUpdate(s'.statusUpdates - 1).message)
    decreases MaxRetries - i
  {
    var (r, s1) := CallStatusUpdate(o, s, m);
    if r.Err? && i + 1 < MaxRetries {
      StatusRetryShape(o, s1, m, i + 1);
      var (err, s') := StatusRetry(o, s1, m, i + 1);
      var k := s'.statusUpdates - s1.statusUpdates;
      assert [StatusUpdate(m)] + Repeat(StatusUpdate(m), k) == Repeat(StatusUpdate(m), k + 1);
    }
  }

  // ---------------------------------------------------------------------
  // updateModelDetails

  /** The size fields after the list scan: from the first entry named "name:tag", otherwise as before. */
  function ExpectedSize(o: Oracle, s: Session, st: ModelStatus, model: string): (int64, string)
  {
    var sr := o.show(s.shows);
    var lr := o.list(s.lists);
    if sr.Shown? && lr.Listed? then
      match FirstMatch(lr.models, model)
      case Some(i) => (lr.models[i].size, Format.FormatBytes(lr.models[i].size))
      case None => (st.size, st.formattedSize)
    else (st.size, st.formattedSize)
  }

  /**
   * updateModelDetails marks the record Ready at `now`, takes the digest from
   * a non-empty Modelfile and the size from the list, and leaves everything
   * else, the error text included, as it was.
   */
  lemma DetailsStatus(o: Oracle, s: Session, m: OllamaModel, now: Time)
    ensures var d := Details(o, s, m, now);
      var sr := o.show(s.shows);
      && d.record.meta == m.meta && d.record.spec == m.spec
      && d.record.status.state == Ready
      && d.record.status.lastPullTime == Some(now)
      && d.record.status.error == m.status.error
      && d.record.status.digest == (if sr.Shown? && |sr.modelfile| > 0 then Format.Digest(sr.modelfile) else m.status.digest)
      && (d.record.status.size, d.record.status.formattedSize) == ExpectedSize(o, s, m.status, ModelRef(m.spec))
      && d.result.requeueAfter == 0
  {
  }

  /**
   * The calls of updateModelDetails: Show, List when Show succeeded, then one
   * to three status writes of the final record; the pass reports an error
   * exactly when the last of three writes failed.
   */
  lemma DetailsCalls(o: Oracle, s: Session, m: OllamaModel, now: Time)
    ensures var d := Details(o, s, m, now);
      var model := ModelRef(m.spec);
      var listed := o.show(s.shows).Shown?;
      var observed := s.(trace := s.trace + [Show(model)] + (if listed then [List] else []),
                         shows := s.shows + 1, lists := if listed then s.lists + 1 else s.lists);
      var k := d.session.statusUpdates - s.statusUpdates;
      && 1 <= k <= MaxRetries
      && d.session == observed.(trace := observed.trace + Repeat(StatusUpdate(d.record), k),
                                statusUpdates := s.statusUpdates + k)
      && (forall j | s.statusUpdates <= j < d.session.statusUpdates - 1 :: o.statusUpdate(j).Err?)
      && (d.result.err.None? <==> o.statusUpdate(d.session.statusUpdates - 1).Ok?)
      && (d.result.err.Some? ==> k == MaxRetries && d.result.err.value == o.statusUpdate(d.session.statusUpdates - 1).message)
  {
    var m1 := m.(status := m.status.(state := Ready, lastPullTime := Some(now)));
    var (st, s1) := Observe(o, s, m1.status, ModelRef(m.spec));
    StatusRetryShape(o, s1, m1.(status := st), 0);
  }

  // ---------------------------------------------------------------------
  // Deletion

  /**
   * A record marked for deletion that carries the finalizer: Delete("name:tag")
   * is attempted one to three times (a "model not found" error ends the loop
   * like a success), then the finalizer is removed and Update is called,
   * whatever the deletes returned.
   */
  lemma DeletionWithFinalizer(o: Oracle, s: Session, m: OllamaModel, now: Time)
    requires m.meta.deleting && Finalizer in m.meta.finalizers
    ensures var p := Pass(o, s, m, now);
      var k := p.session.deletes - s.deletes;
      && 1 <= k <= MaxRetries
      && p.record == m.(meta := m.meta.(finalizers := RemoveFinalizer(m.meta.finalizers, Finalizer)))
      && Finalizer !in p.record.meta.finalizers
      && p.session.trace == s.trace + Repeat(Delete(ModelRef(m.spec)), k) + [Update(p.record)]
      && (forall j | s.deletes <= j < p.session.deletes - 1 :: !Settles(o.delete(j)))
      && (k < MaxRetries ==> Settles(o.delete(p.session.deletes - 1)))
      && p.result == (if o.update(s.updates).Ok? then Done else Result(ShortDelay, Some(o.update(s.updates).message)))
  {
    DeleteRetryShape(o, s, ModelRef(m.spec), 0, None);
  }

  /** Without the finalizer a deletion pass does nothing at all. */
  lemma DeletionWithoutFinalizer(o: Oracle, s: Session, m: OllamaModel, now: Time)
    requires m.meta.deleting && Finalizer !in m.meta.finalizers
    ensures Pass(o, s, m, now) == Outcome(m, s, Done)
  {
  }

  // ---------------------------------------------------------------------
  // The first two passes

  /** A live record without the finalizer: the pass only adds it and calls Update. */
  lemma FirstPassAddsFinalizer(o: Oracle, s: Session, m: OllamaModel, now: Time)
    requires !m.meta.deleting && Finalizer !in m.meta.finalizers
    ensures var p := Pass(o, s, m, now);
      && p.record == m.(meta := m.meta.(finalizers := m.meta.finalizers + [Finalizer]))
      && p.session == s.(trace := s.trace + [Update(p.record)], updates := s.updates + 1)
      && p.result == (if o.update(s.updates).Ok? then Done else Result(ShortDelay, Some(o.update(s.updates).message)))
  {
  }

  /** With the finalizer, no refresh asked for and state "": the pass only persists Pending. */
  lemma SecondPassInitializes(o: Oracle, s: Session, m: OllamaModel, now: Time)
    requires !m.meta.deleting && Finalizer in m.meta.finalizers && !RefreshRequested(m) && m.status.state == Unset
    ensures var p := Pass(o, s, m, now);
      && p.record == WithState(m, Pending)
      && p.session == s.(trace := s.trace + [StatusUpdate(p.record)], statusUpdates := s.statusUpdates + 1)
      && p.result == (if o.statusUpdate(s.statusUpdates).Ok? then Done
                      else Result(ShortDelay, Some(o.statusUpdate(s.statusUpdates).message)))
  {
  }

  // ---------------------------------------------------------------------
  // Show and pull

  /** A pass that gets past the first rungs calls Show once and nothing else before acting on its reply. */
  predicate Live(m: OllamaModel)
  {
    !m.meta.deleting && Finalizer in m.meta.finalizers && !RefreshRequested(m) && m.status.state != Unset
  }

  function AfterShow(s: Session, m: OllamaModel): Session
  {
    s.(trace := s.trace + [Show(ModelRef(m.spec))], shows := s.shows + 1)
  }

  /**
   * Idempotence: a Ready record is left alone. Whether Show succeeds or not,
   * the pass makes the one Show call, no Pull, no Delete, no write, and
   * returns an empty Result.
   */
  lemma ReadyIsStable(o: Oracle, s: Session, m: OllamaModel, now: Time)
    requires Live(m) && m.status.state == Ready
    ensures Pass(o, s, m, now) == Outcome(m, AfterShow(s, m), Done)
  {
  }

  /** Any Show error counts as "absent"; outside Pending that is a no-op (Pulling and Failed stay as they are). */
  lemma ShowFailureOutsidePending(o: Oracle, s: Session, m: OllamaModel, now: Time)
    requires Live(m) && m.status.state != Pending && o.show(s.shows).ShowFailed?
    ensures Pass(o, s, m, now) == Outcome(m, AfterShow(s, m), Done)
  {
  }

  /**
   * Show failed while Pending: Pulling is persisted before exactly one Pull;
   * a failed pull leaves the record Failed with the pull's error text and
   * asks for a requeue after 30 seconds.
   */
  lemma PullFromPendingFails(o: Oracle, s: Session, m: OllamaModel, now: Time)
    requires Live(m) && m.status.state == Pending && o.show(s.shows).ShowFailed?
    requires o.statusUpdate(s.statusUpdates).Ok? && o.pull(s.pulls).Err?
    ensures var p := Pass(o, s, m, now);
      var e := o.pull(s.pulls).message;
      var model := ModelRef(m.spec);
      && p.record == m.(status := m.status.(state := Failed, error := e))
      && p.session.trace == s.trace + [Show(model), StatusUpdate(WithState(m, Pulling)), Pull(model), StatusUpdate(p.record)]
      && p.session.pulls == s.pulls + 1
      && p.result == (if o.statusUpdate(s.statusUpdates + 1).Ok? then Result(LongDelay, Some(e))
                      else Result(ShortDelay, Some(o.statusUpdate(s.statusUpdates + 1).message)))
  {
  }

  /** Show failed while Pending and the Pulling write failed: no Pull, requeue after 5 seconds. */
  lemma PullFromPendingNotPersisted(o: Oracle, s: Session, m: OllamaModel, now: Time)
    requires Live(m) && m.status.state == Pending && o.show(s.shows).ShowFailed?
    requires o.statusUpdate(s.statusUpdates).Err?
    ensures var p := Pass(o, s, m, now);
      && p.record == WithState(m, Pulling)
      && p.session.trace == s.trace + [Show(ModelRef(m.spec)), StatusUpdate(p.record)]
      && p.session.pulls == s.pulls
      && p.result == Result(ShortDelay, Some(o.statusUpdate(s.statusUpdates).message))
  {
  }

  /**
   * Show failed while Pending and the one Pull succeeded: the record becomes
   * Ready through updateModelDetails, with the calls Show, StatusUpdate(Pulling),
   * Pull, then those of updateModelDetails.
   */
  lemma PullFromPendingSucceeds(o: Oracle, s: Session, m: OllamaModel, now: Time)
    requires Live(m) && m.status.state == Pending && o.show(s.shows).ShowFailed?
    requires o.statusUpdate(s.statusUpdates).Ok? && o.pull(s.pulls).Ok?
    ensures var p := Pass(o, s, m, now);
      var model := ModelRef(m.spec);
      var m1 := WithState(m, Pulling);
      var s2 := s.(trace := s.trace + [Show(model), StatusUpdate(m1), Pull(model)],
                   shows := s.shows + 1, statusUpdates := s.statusUpdates + 1, pulls := s.pulls + 1);
      && p == Details(o, s2, m1, now)
      && p.record.status.state == Ready && p.record.status.lastPullTime == Some(now)
      && p.session.pulls == s.pulls + 1
  {
    var model := ModelRef(m.spec);
    var m1 := WithState(m, Pulling);
    var s2 := s.(trace := s.trace + [Show(model), StatusUpdate(m1), Pull(model)],
                 shows := s.shows + 1, statusUpdates := s.statusUpdates + 1, pulls := s.pulls + 1);
    assert s.trace + [Show(model)] + [StatusUpdate(m1)] + [Pull(model)] == s.trace + [Show(model), StatusUpdate(m1), Pull(model)];
    DetailsStatus(o, s2, m1, now);
  }

  /**
   * Show succeeded on a record that is not Ready (Pending, Pulling or Failed):
   * the model is taken as already pulled and marked Ready, keeping any old
   * error text.
   */
  lemma ShowSuccessMarksReady(o: Oracle, s: Session, m: OllamaModel, now: Time)
    requires Live(m) && m.status.state != Ready && o.show(s.shows).Shown?
    ensures var p := Pass(o, s, m, now);
      && p == Details(o, AfterShow(s, m), m, now)
      && p.record.status.state == Ready
      && p.record.status.error == m.status.error
      && p.session.pulls == s.pulls && p.session.deletes == s.deletes
  {
    DetailsStatus(o, AfterShow(s, m), m, now);
    DetailsCalls(o, AfterShow(s, m), m, now);
  }

  // ---------------------------------------------------------------------
  // Refresh

  predicate EntersRefresh(m: OllamaModel)
  {
    !m.meta.deleting && Finalizer in m.meta.finalizers && RefreshRequested(m)
  }

  /** A refresh begins by persisting Pulling; if that write fails nothing else happens. */
  lemma RefreshPersistsPullingFirst(o: Oracle, s: Session, m: OllamaModel, now: Time)
    requires EntersRefresh(m)
    ensures var p := Pass(o, s, m, now);
      && |p.session.trace| > |s.trace|
      && p.session.trace[..|s.trace| + 1] == s.trace + [StatusUpdate(WithState(m, Pulling))]
      && p.session.pulls - s.pulls <= MaxRetries
      && p.session.deletes == s.deletes
    ensures o.statusUpdate(s.statusUpdates).Err? ==>
      Pass(o, s, m, now) == Outcome(WithState(m, Pulling),
        s.(trace := s.trace + [StatusUpdate(WithState(m, Pulling))], statusUpdates := s.statusUpdates + 1),
        Result(ShortDelay, Some(o.statusUpdate(s.statusUpdates).message)))
  {
    var m1 := WithState(m, Pulling);
    var (r, s1) := CallStatusUpdate(o, s, m1);
    if r.Ok? {
      PullRetryShape(o, s1, ModelRef(m.spec), 0, None);
      var (pullErr, s2) := PullRetry(o, s1, ModelRef(m.spec), 0, None);
      assert s2.trace[..|s.trace| + 1] == s.trace + [StatusUpdate(m1)];
      if pullErr.None? {
        DetailsCalls(o, s2, m1, now);
        var d := Details(o, s2, m1, now);
        assert d.session.trace[..|s2.trace|] == s2.trace;
        assert d.session.trace[..|s.trace| + 1] == s.trace + [StatusUpdate(m1)];
      }
    }
  }

  /** The first call of a refreshing pass persists Pulling. */
  lemma RefreshFirstCall(o: Oracle, s: Session, m: OllamaModel, now: Time)
    requires EntersRefresh(m)
    ensures var p := Pass(o, s, m, now);
      |p.session.trace| > |s.trace| && p.session.trace[|s.trace|] == StatusUpdate(WithState(m, Pulling))
  {
    RefreshPersistsPullingFirst(o, s, m, now);
    var p := Pass(o, s, m, now);
    assert p.session.trace[..|s.trace| + 1][|s.trace|] == p.session.trace[|s.trace|];
  }

  /**
   * All three pulls of a refresh fail: the record ends Failed with the last
   * pull's error text, the refresh annotation untouched, and the pass asks
   * for a requeue after 30 seconds once the Failed status is written.
   */
  lemma RefreshFails(o: Oracle, s: Session, m: OllamaModel, now: Time)
    requires EntersRefresh(m) && o.statusUpdate(s.statusUpdates).Ok?
    requires forall j | s.pulls <= j < s.pulls + MaxRetries :: o.pull(j).Err?
    ensures var p := Pass(o, s, m, now);
      var e := o.pull(s.pulls + MaxRetries - 1).message;
      var model := ModelRef(m.spec);
      && p.record == m.(status := m.status.(state := Failed, error := e))
      && p.record.meta == m.meta
      && p.session.trace == s.trace + [StatusUpdate(WithState(m, Pulling))] + Repeat(Pull(model), MaxRetries)
                            + [StatusUpdate(p.record)]
      && p.result == (if o.statusUpdate(s.statusUpdates + 1).Ok? then Result(LongDelay, Some(e))
                      else Result(ShortDelay, Some(o.statusUpdate(s.statusUpdates + 1).message)))
  {
    var m1 := WithState(m, Pulling);
    var (r, s1) := CallStatusUpdate(o, s, m1);
    PullRetryShape(o, s1, ModelRef(m.spec), 0, None);
  }

  /**
   * A pull of the refresh succeeds: the record becomes Ready; when the status
   * and the final Update are written, the annotation has been rewritten to
   * "completed-<now>" and no longer asks for a refresh. A failed status write
   * leaves the annotation as it was, so the next pass refreshes again.
   */
  lemma RefreshSucceeds(o: Oracle, s: Session, m: OllamaModel, now: Time, j: nat)
    requires EntersRefresh(m) && o.statusUpdate(s.statusUpdates).Ok?
    requires s.pulls <= j < s.pulls + MaxRetries && o.pull(j).Ok?
    ensures var p := Pass(o, s, m, now);
      && p.record.status.state == Ready
      && p.record.status.lastPullTime == Some(now)
      && p.record.status.error == m.status.error
      && p.record.spec == m.spec
      && p.session.pulls - s.pulls <= j - s.pulls + 1
      && (p.result.err.Some? && p.result.requeueAfter == 0 ==> p.record.meta == m.meta)
      && (p.result.err.None? || p.result.requeueAfter == ShortDelay ==>
            p.record.meta == m.meta.(annotations := m.meta.annotations[RefreshAnnotation := Completed(now)]))
      && !(p.result.err.None? && RefreshRequested(p.record))
  {
    var m1 := WithState(m, Pulling);
    var (r, s1) := CallStatusUpdate(o, s, m1);
    PullRetryShape(o, s1, ModelRef(m.spec), 0, None);
    var (pullErr, s2) := PullRetry(o, s1, ModelRef(m.spec), 0, None);
    assert pullErr.None?;
    DetailsStatus(o, s2, m1, now);
    DetailsCalls(o, s2, m1, now);
  }

  /**
   * Refresh terminates: after a refresh whose writes all succeeded, the next
   * pass, whatever the daemon and the store answer, makes one Show call and
   * changes nothing.
   */
  lemma RefreshIsSelfTerminating(o: Oracle, s: Session, m: OllamaModel, now: Time, o': Oracle, s': Session, later: Time)
    requires EntersRefresh(m) && Pass(o, s, m, now).result == Done
    ensures var r := Pass(o, s, m, now).record;
      Pass(o', s', r, later) == Outcome(r, AfterShow(s', r), Done)
  {
    var m1 := WithState(m, Pulling);
    var (u, s1) := CallStatusUpdate(o, s, m1);
    var (pullErr, s2) := PullRetry(o, s1, ModelRef(m.spec), 0, None);
    DetailsStatus(o, s2, m1, now);
    var r := Pass(o, s, m, now).record;
    assert r.meta.annotations[RefreshAnnotation] == Completed(now);
    assert Completed(now) != "true";
    ReadyIsStable(o', s', r, later);
  }

  // ---------------------------------------------------------------------
  // The whole pass

  /**
   * Budgets and discipline of any pass: calls are only appended; at most
   * three deletes, three pulls, four status writes and one Update; Delete is
   * called only for a record marked for deletion, Pull only on a refresh or
   * after Show failed on a Pending record.
   */
  lemma PassDiscipline(o: Oracle, s: Session, m: OllamaModel, now: Time)
    ensures var p := Pass(o, s, m, now);
      && |s.trace| <= |p.session.trace| && p.session.trace[..|s.trace|] == s.trace
      && s.deletes <= p.session.deletes <= s.deletes + MaxRetries
      && s.pulls <= p.session.pulls <= s.pulls + MaxRetries
      && s.statusUpdates <= p.session.statusUpdates <= s.statusUpdates + 4
      && s.updates <= p.session.updates <= s.updates + 1
      && (p.session.deletes > s.deletes ==> m.meta.deleting)
      && (p.session.pulls > s.pulls ==>
            !m.meta.deleting && Finalizer in m.meta.finalizers &&
            (RefreshRequested(m) || (m.status.state == Pending && o.show(s.shows).ShowFailed?)))
      && (m.meta.deleting ==> p.session.pulls == s.pulls && p.session.statusUpdates == s.statusUpdates)
  {
    var p := Pass(o, s, m, now);
    if m.meta.deleting {
      if Finalizer in m.meta.finalizers {
        DeletionWithFinalizer(o, s, m, now);
        assert p.session.trace[..|s.trace|] == s.trace;
      }
    } else if Finalizer !in m.meta.finalizers {
    } else if RefreshRequested(m) {
      RefreshBudget(o, s, m, now);
    } else if m.status.state == Unset {
    } else if o.show(s.shows).ShowFailed? {
      if m.status.state == Pending {
        PullFromPendingBudget(o, AfterShow(s, m), m, now);
      }
    } else if m.status.state != Ready {
      DetailsBudget(o, AfterShow(s, m), m, now);
    }
  }

  /** updateModelDetails only appends: a Show, maybe a List, and one to three status writes. */
  lemma DetailsBudget(o: Oracle, s: Session, m: OllamaModel, now: Time)
    ensures var d := Details(o, s, m, now);
      && |s.trace| <= |d.session.trace| && d.session.trace[..|s.trace|] == s.trace
      && d.session.deletes == s.deletes && d.session.pulls == s.pulls && d.session.updates == s.updates
      && s.statusUpdates < d.session.statusUpdates <= s.statusUpdates + MaxRetries
  {
    DetailsCalls(o, s, m, now);
    var d := Details(o, s, m, now);
    assert d.session.trace[..|s.trace|] == s.trace;
  }

  lemma PullFromPendingBudget(o: Oracle, s: Session, m: OllamaModel, now: Time)
    ensures var p := PullFromPending(o, s, m, now);
      && |s.trace| <= |p.session.trace| && p.session.trace[..|s.trace|] == s.trace
      && p.session.deletes == s.deletes && s.pulls <= p.session.pulls <= s.pulls + 1
      && s.statusUpdates < p.session.statusUpdates <= s.statusUpdates + 4 && p.session.updates == s.updates
  {
    var m1 := WithState(m, Pulling);
    var (r, s1) := CallStatusUpdate(o, s, m1);
    if r.Ok? {
      var (pr, s2) := CallPull(o, s1, ModelRef(m.spec));
      if pr.Ok? {
        DetailsBudget(o, s2, m1, now);
        var d := Details(o, s2, m1, now);
        assert d.session.trace[..|s.trace|] == d.session.trace[..|s2.trace|][..|s.trace|];
      }
    }
  }

  lemma RefreshBudget(o: Oracle, s: Session, m: OllamaModel, now: Time)
    requires EntersRefresh(m)
    ensures var p := Refresh(o, s, m, now);
      && |s.trace| <= |p.session.trace| && p.session.trace[..|s.trace|] == s.trace
      && p.session.deletes == s.deletes
      && s.pulls <= p.session.pulls <= s.pulls + MaxRetries
      && s.statusUpdates < p.session.statusUpdates <= s.statusUpdates + 4
      && s.updates <= p.session.updates <= s.updates + 1
  {
    var m1 := WithState(m, Pulling);
    var (r, s1) := CallStatusUpdate(o, s, m1);
    if r.Ok? {
      PullRetryShape(o, s1, ModelRef(m.spec), 0, None);
      var (pullErr, s2) := PullRetry(o, s1, ModelRef(m.spec), 0, None);
      assert s2.trace[..|s.trace|] == s.trace;
      if pullErr.None? {
        DetailsBudget(o, s2, m1, now);
        var d := Details(o, s2, m1, now);
        assert d.session.trace[..|s.trace|] == d.session.trace[..|s2.trace|][..|s.trace|];
      }
    }
  }

  // ---------------------------------------------------------------------
  // The status schema

  /**
   * A daemon whose pull errors fit Error's MaxLength, whose listed sizes are
   * not negative, and whose Modelfiles are empty or at least 32 bytes long.
   */
  ghost predicate SchemaFriendly(o: Oracle)
  {
    && (forall i: nat :: o.pull(i).Err? ==> |o.pull(i).message| <= 1024)
    && (forall i: nat :: o.show(i).Shown? ==> |o.show(i).modelfile| == 0 || |o.show(i).modelfile| >= 32)
    && (forall i: nat :: o.list(i).Listed? ==> forall e | e in o.list(i).models :: e.size >= 0)
  }

  lemma DetailsKeepStatusValid(o: Oracle, s: Session, m: OllamaModel, now: Time)
    requires ValidStatus(m.status) && SchemaFriendly(o)
    ensures ValidStatus(Details(o, s, m, now).record.status)
  {
    DetailsStatus(o, s, m, now);
    var sr := o.show(s.shows);
    if sr.Shown? && |sr.modelfile| > 0 {
      Format.DigestShape(sr.modelfile);
    }
    var lr := o.list(s.lists);
    if sr.Shown? && lr.Listed? {
      var k := FirstMatch(lr.models, ModelRef(m.spec));
      if k.Some? {
        assert lr.models[k.value] in lr.models;
      }
    }
  }

  /**
   * Every status the reconciler writes satisfies the schema, provided the
   * record did and the daemon's replies fit it: the reconciler itself never
   * makes the digest, the size or the error text invalid.
   */
  lemma PassKeepsStatusValid(o: Oracle, s: Session, m: OllamaModel, now: Time)
    requires ValidStatus(m.status) && SchemaFriendly(o)
    ensures ValidStatus(Pass(o, s, m, now).record.status)
  {
    if m.meta.deleting || Finalizer !in m.meta.finalizers {
    } else if RefreshRequested(m) {
      var m1 := WithState(m, Pulling);
      var (r, s1) := CallStatusUpdate(o, s, m1);
      if r.Ok? {
        PullRetryShape(o, s1, ModelRef(m.spec), 0, None);
        var (pullErr, s2) := PullRetry(o, s1, ModelRef(m.spec), 0, None);
        if pullErr.None? {
          DetailsKeepStatusValid(o, s2, m1, now);
        }
      }
    } else if m.status.state != Unset {
      var s1 := AfterShow(s, m);
      if o.show(s.shows).ShowFailed? {
        if m.status.state == Pending {
          var m1 := WithState(m, Pulling);
          var (r, s2) := CallStatusUpdate(o, s1, m1);
          var (pr, s3) := CallPull(o, s2, ModelRef(m.spec));
          if r.Ok? && pr.Ok? {
            DetailsKeepStatusValid(o, s3, m1, now);
          }
        }
      } else if m.status.state != Ready {
        DetailsKeepStatusValid(o, s1, m, now);
      }
    }
  }

  /** A record that has been through creation and the first pass, waiting in Pending. */
  const PendingRecord := OllamaModel(
    ObjectMeta("llama", "default", [Finalizer], map[], false),
    ModelSpec("llama3.2", "1b"),
    EmptyStatus.(state := Pending))

  /** A daemon that has the model nowhere and answers a pull with `message`. */
  function PullRefused(message: string): Oracle
  {
    Oracle(
      (_: nat) => ShowFailed("model not found"),
      (_: nat) => Err(message),
      (_: nat) => Ok,
      (_: nat) => Listed([]),
      (_: nat) => Ok,
      (_: nat) => Ok)
  }

  /**
   * Without the assumption on the daemon the schema can be broken: the pull
   * error is copied into Status.Error uncut, so a 1025-character error text
   * yields a status that the Error MaxLength of 1024 rejects.
   */
  lemma OverlongPullErrorBreaksSchema()
    ensures ValidModel(PendingRecord)
    ensures var p := Pass(PullRefused(Format.Zeros(1025)), Start, PendingRecord, "2024-01-01T00:00:00Z");
      && p.record.status.state == Failed
      && p.result == Result(LongDelay, Some(Format.Zeros(1025)))
      && !ValidStatus(p.record.status)
  {
    var o := PullRefused(Format.Zeros(1025));
    PullFromPendingFails(o, Start, PendingRecord, "2024-01-01T00:00:00Z");
  }

  /**
   * The same daemon, with a store that accepts the first status write and
   * refuses the second with `rejection`, as an API server checking status
   * writes against the schema refuses a 1025-character Error.
   */
  function PullRefusedSchemaChecked(message: string, rejection: string): Oracle
  {
    Oracle(
      (_: nat) => ShowFailed("model not found"),
      (_: nat) => Err(message),
      (_: nat) => Ok,
      (_: nat) => Listed([]),
      (_: nat) => Ok,
      (i: nat) => if i == 0 then Ok else Err(rejection))
  }

  /**
   * When the store refuses the overlong Failed status, the pass requeues after
   * 5 seconds with the refusal, and the last status persisted is Pulling. A
   * later pass on that Pulling record, with Show still failing, makes one Show
   * call and changes nothing: the record stays Pulling.
   */
  lemma OverlongPullErrorLeavesPulling(rejection: string, later: Time)
    ensures var o := PullRefusedSchemaChecked(Format.Zeros(1025), rejection);
      var p := Pass(o, Start, PendingRecord, "2024-01-01T00:00:00Z");
      var model := ModelRef(PendingRecord.spec);
      var stored := WithState(PendingRecord, Pulling);
      && p.session.trace == [Show(model), StatusUpdate(stored), Pull(model), StatusUpdate(p.record)]
      && !ValidStatus(p.record.status)
      && p.result == Result(ShortDelay, Some(rejection))
      && ValidModel(stored)
      && Pass(o, p.session, stored, later) == Outcome(stored, AfterShow(p.session, stored), Done)
  {
    var o := PullRefusedSchemaChecked(Format.Zeros(1025), rejection);
    var stored := WithState(PendingRecord, Pulling);
    PullFromPendingFails(o, Start, PendingRecord, "2024-01-01T00:00:00Z");
    var p := Pass(o, Start, PendingRecord, "2024-01-01T00:00:00Z");
    ShowFailureOutsidePending(o, p.session, stored, later);
  }
}
