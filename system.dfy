/**
 * The API and the reconciler together: what a request leaves in the store
 * and what the next reconciliation pass does with it.
 */
module System {
  import opened Wrappers
  import opened Types
  import opened Env
  import opened Controller
  import ControllerProperties
  import opened Handlers
  import HandlerProperties

  /**
   * A record created through the API is adopted by the next two passes: the
   * first only adds the finalizer, the second only sets Pending; neither
   * calls the Ollama daemon.
   */
  lemma CreatedRecordIsAdopted(req: ModelRequest, ns: string, o: Oracle, s: Session, now: Time)
    requires req.name != "" && req.tag != ""
    requires o.update(s.updates).Ok?
    ensures var m := NewRecord(req, ns);
      var p1 := Pass(o, s, m, now);
      var p2 := Pass(o, p1.session, p1.record, now);
      && p1.record.meta.finalizers == [Finalizer]
      && p1.session.trace == s.trace + [Update(p1.record)]
      && p1.result == Done
      && p2.record == WithState(p1.record, Pending)
      && p2.session.trace == p1.session.trace + [StatusUpdate(p2.record)]
  {
    var m := NewRecord(req, ns);
    ControllerProperties.FirstPassAddsFinalizer(o, s, m, now);
    var p1 := Pass(o, s, m, now);
    assert !RefreshRequested(p1.record);
    ControllerProperties.SecondPassInitializes(o, p1.session, p1.record, now);
  }

  /**
   * After the refresh endpoint succeeds on an adopted live record, the next
   * pass refreshes it: its first call persists the state Pulling.
   */
  lemma RefreshRequestStartsPull(st: Store, f: Faults, ns: string, name: string, o: Oracle, s: Session, now: Time)
    requires f.get.None? && f.update.None? && Find(st, Key(ns, name)).Some?
    requires var m := HandlerProperties.At(st, Key(ns, name)); Finalizer in m.meta.finalizers && !m.meta.deleting
    ensures var r := HandlerProperties.At(Handlers.RefreshModel(st, f, ns, name).store, Key(ns, name));
      var p := Pass(o, s, r, now);
      && RefreshRequested(r)
      && |p.session.trace| > |s.trace|
      && p.session.trace[|s.trace|] == StatusUpdate(WithState(r, Pulling))
  {
    var k := Key(ns, name);
    var i := Find(st, k).value;
    var h := Handlers.RefreshModel(st, f, ns, name);
    HandlerProperties.RefreshOnlySetsAnnotation(st, f, ns, name);
    assert forall j :: 0 <= j < i ==> KeyOf(h.store[j]) != k;
    HandlerProperties.FindFirst(h.store, k, i);
    ControllerProperties.RefreshFirstCall(o, s, h.store[i], now);
  }

  /**
   * Deleting through the API a record that carries the finalizer leaves it
   * marked for deletion; the next pass then calls Delete("name:tag") on the
   * daemon and removes the finalizer.
   */
  lemma DeleteRequestStartsCleanup(st: Store, f: Faults, ns: string, name: string, o: Oracle, s: Session, now: Time)
    requires UniqueKeys(st)
    requires f.get.None? && f.delete.None? && Find(st, Key(ns, name)).Some?
    requires Finalizer in HandlerProperties.At(st, Key(ns, name)).meta.finalizers
    ensures var k := Key(ns, name);
      var h := DeleteModel(st, f, ns, name);
      Find(h.store, k).Some? &&
      var r := HandlerProperties.At(h.store, k);
      var p := Pass(o, s, r, now);
      && r.meta.deleting
      && |p.session.trace| > |s.trace|
      && p.session.trace[|s.trace|] == Delete(ModelRef(r.spec))
      && Finalizer !in p.record.meta.finalizers
      && p.session.trace[|p.session.trace| - 1] == Update(p.record)
  {
    var k := Key(ns, name);
    HandlerProperties.DeleteSucceeds(st, f, ns, name);
    var r := HandlerProperties.At(DeleteModel(st, f, ns, name).store, k);
    ControllerProperties.DeletionWithFinalizer(o, s, r, now);
    var p := Pass(o, s, r, now);
    var n := p.session.deletes - s.deletes;
    assert p.session.trace == s.trace + Repeat(Delete(ModelRef(r.spec)), n) + [Update(p.record)];
    assert p.session.trace[|s.trace|] == Repeat(Delete(ModelRef(r.spec)), n)[0];
  }

  /**
   * What the API shows after a pass found the model on the daemon: state
   * "Ready" and the pull time of that pass.
   */
  lemma ApiShowsReadyAfterDetails(o: Oracle, s: Session, m: OllamaModel, now: Time)
    requires ControllerProperties.Live(m) && m.status.state != Ready && o.show(s.shows).Shown?
    ensures var r := ConvertModelToResponse(Pass(o, s, m, now).record);
      r.state == "Ready" && r.lastPullTime == now && r.error == m.status.error
  {
    ControllerProperties.ShowSuccessMarksReady(o, s, m, now);
  }
}
