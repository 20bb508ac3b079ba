/** Properties of the REST handlers: validation, status mapping, the store effects and the identifier. */
module HandlerProperties {
  import opened Wrappers
  import opened Types
  import opened Handlers
  import Controller

  predicate ValidRequest(body: Decoded)
  {
    body.Decoded? && body.request.name != "" && body.request.tag != ""
  }

  /**
   * createModel answers 400 without touching the store exactly when the body
   * does not decode or lacks a name or a tag.
   */
  lemma CreateValidation(st: Store, f: Faults, ns: string, body: Decoded)
    ensures var h := CreateModel(st, f, ns, body);
      (h.reply.ErrorReply? && h.reply.status == StatusBadRequest && h.calls == []) <==> !ValidRequest(body)
    ensures !ValidRequest(body) ==> CreateModel(st, f, ns, body).store == st
    ensures body.Undecodable? ==> CreateModel(st, f, ns, body).reply.message == "invalid request: " + body.message
    ensures body.Decoded? && !ValidRequest(body) ==>
      CreateModel(st, f, ns, body).reply.message == "name and tag are required"
  {
  }

  /** A record with the identifier already exists: 409 and no Create. */
  lemma CreateConflict(st: Store, f: Faults, ns: string, body: Decoded)
    requires ValidRequest(body) && f.get.None?
    requires Find(st, Key(ns, ModelId(body.request))).Some?
    ensures var id := ModelId(body.request);
      CreateModel(st, f, ns, body) ==
        Handled(st, [GetCall(Key(ns, id))], ErrorReply(StatusConflict, "model already exists: " + id))
  {
  }

  /** The existence check fails with another error: 500 with its text and no Create. */
  lemma CreateLookupFailure(st: Store, f: Faults, ns: string, body: Decoded)
    requires ValidRequest(body) && f.get.Some?
    ensures CreateModel(st, f, ns, body) ==
      Handled(st, [GetCall(Key(ns, ModelId(body.request)))], ErrorReply(StatusInternalServerError, f.get.value))
  {
  }

  /**
   * A successful create stores one new record: named "name-tag" in the
   * configured namespace, the request's name and tag as its spec, no
   * finalizers or annotations and an empty status. The record satisfies the
   * schema and the reply is 201 with its projection.
   */
  lemma CreateSucceeds(st: Store, f: Faults, ns: string, body: Decoded)
    requires ValidRequest(body) && f.get.None? && f.create.None?
    requires Find(st, Key(ns, ModelId(body.request))).None?
    ensures var h := CreateModel(st, f, ns, body);
      var req := body.request;
      var m := NewRecord(req, ns);
      && h.store == st + [m]
      && h.calls == [GetCall(Key(ns, ModelId(req))), CreateCall(m)]
      && h.reply == JsonReply(StatusCreated, ModelDoc(ConvertModelToResponse(m)))
      && m.meta.name == ModelId(req) && m.meta.namespace == ns
      && m.spec == ModelSpec(req.name, req.tag)
      && m.status == EmptyStatus && m.meta.finalizers == [] && m.meta.annotations == map[] && !m.meta.deleting
      && ValidModel(m)
  {
  }

  /** The store refuses the Create: 500 with its text, nothing stored. */
  lemma CreateFailure(st: Store, f: Faults, ns: string, body: Decoded)
    requires ValidRequest(body) && f.get.None? && f.create.Some?
    requires Find(st, Key(ns, ModelId(body.request))).None?
    ensures var h := CreateModel(st, f, ns, body);
      h.store == st && h.reply == ErrorReply(StatusInternalServerError, f.create.value) && |h.calls| == 2
  {
  }

  lemma {:induction false} FindAppend(st: Store, m: OllamaModel)
    requires Find(st, KeyOf(m)).None?
    ensures Find(st + [m], KeyOf(m)) == Some(|st|)
  {
    if st != [] {
      assert (st + [m])[1..] == st[1..] + [m];
      FindAppend(st[1..], m);
    }
  }

  /** Create, then get by the identifier: 200 with the same projection the create returned. */
  lemma CreateThenGet(st: Store, f: Faults, ns: string, body: Decoded)
    requires ValidRequest(body) && f.get.None? && f.create.None?
    requires Find(st, Key(ns, ModelId(body.request))).None?
    ensures var h := CreateModel(st, f, ns, body);
      var g := GetModel(h.store, NoFaults, ns, ModelId(body.request));
      && g.reply == JsonReply(StatusOK, h.reply.doc)
      && g.store == h.store
  {
    FindAppend(st, NewRecord(body.request, ns));
  }

  /**
   * get, delete and refresh look the record up first: NotFound gives 404
   * "model not found: <name>", any other error 500 with its text, and in
   * either case no further store call is made.
   */
  lemma LookupFailureStops(st: Store, f: Faults, ns: string, name: string)
    requires !Get(st, f, Key(ns, name)).Present?
    ensures var expected := Handled(st, [GetCall(Key(ns, name))],
        if f.get.Some? then ErrorReply(StatusInternalServerError, f.get.value)
        else ErrorReply(StatusNotFound, "model not found: " + name));
      && GetModel(st, f, ns, name) == expected
      && DeleteModel(st, f, ns, name) == expected
      && RefreshModel(st, f, ns, name) == expected
  {
  }

  /** The record a found key refers to. */
  function At(st: Store, k: Key): OllamaModel
    requires Find(st, k).Some?
  {
    st[Find(st, k).value]
  }

  /**
   * A successful delete answers 204 with no body. A record that still has
   * finalizers stays, marked for deletion and otherwise unchanged; one
   * without is gone.
   */
  lemma DeleteSucceeds(st: Store, f: Faults, ns: string, name: string)
    requires UniqueKeys(st)
    requires f.get.None? && f.delete.None? && Find(st, Key(ns, name)).Some?
    ensures var h := DeleteModel(st, f, ns, name);
      var k := Key(ns, name);
      var m := At(st, k);
      && h.reply == EmptyReply(StatusNoContent)
      && h.calls == [GetCall(k), DeleteCall(k)]
      && (m.meta.finalizers != [] ==> Find(h.store, k).Some? && At(h.store, k) == m.(meta := m.meta.(deleting := true)))
      && (m.meta.finalizers == [] ==> Find(h.store, k).None? && |h.store| == |st| - 1)
  {
    var k := Key(ns, name);
    var i := Find(st, k).value;
    var h := DeleteModel(st, f, ns, name);
    if st[i].meta.finalizers != [] {
      assert forall j :: 0 <= j < i ==> KeyOf(h.store[j]) != k;
      assert KeyOf(h.store[i]) == k;
      FindFirst(h.store, k, i);
    } else {
      forall j | 0 <= j < |h.store|
        ensures KeyOf(h.store[j]) != k
      {
        if j >= i {
          assert h.store[j] == st[j + 1];
        }
      }
    }
  }

  lemma {:induction false} FindFirst(st: Store, k: Key, i: nat)
    requires i < |st| && KeyOf(st[i]) == k
    requires forall j :: 0 <= j < i ==> KeyOf(st[j]) != k
    ensures Find(st, k) == Some(i)
  {
    if i > 0 {
      assert forall j :: 0 <= j < i - 1 ==> st[1..][j] == st[j + 1];
      FindFirst(st[1..], k, i - 1);
    }
  }

  /** The store refuses the Delete: 500 with its text, nothing changed. */
  lemma DeleteFailure(st: Store, f: Faults, ns: string, name: string)
    requires f.get.None? && f.delete.Some? && Find(st, Key(ns, name)).Some?
    ensures DeleteModel(st, f, ns, name) ==
      Handled(st, [GetCall(Key(ns, name)), DeleteCall(Key(ns, name))], ErrorReply(StatusInternalServerError, f.delete.value))
  {
  }

  /**
   * The refresh handler changes one thing: the refresh annotation becomes
   * "true". Other annotations, the spec, the status and every other record
   * are kept, the record now asks the controller for a refresh, and the
   * reply is 202 with the record's unchanged projection.
   */
  lemma RefreshOnlySetsAnnotation(st: Store, f: Faults, ns: string, name: string)
    requires f.get.None? && f.update.None? && Find(st, Key(ns, name)).Some?
    ensures var h := RefreshModel(st, f, ns, name);
      var i := Find(st, Key(ns, name)).value;
      var m := st[i];
      var m' := h.store[i];
      && |h.store| == |st|
      && (forall j :: 0 <= j < |st| && j != i ==> h.store[j] == st[j])
      && m'.spec == m.spec && m'.status == m.status
      && m'.meta.name == m.meta.name && m'.meta.namespace == m.meta.namespace
      && m'.meta.finalizers == m.meta.finalizers && m'.meta.deleting == m.meta.deleting
      && m'.meta.annotations[Controller.RefreshAnnotation] == "true"
      && (forall a :: a != Controller.RefreshAnnotation ==>
            (a in m'.meta.annotations <==> a in m.meta.annotations) &&
            (a in m.meta.annotations ==> m'.meta.annotations[a] == m.meta.annotations[a]))
      && Controller.RefreshRequested(m')
      && h.calls == [GetCall(Key(ns, name)), UpdateCall(m')]
      && h.reply == JsonReply(StatusAccepted, ModelDoc(ConvertModelToResponse(m)))
  {
    var i := Find(st, Key(ns, name)).value;
    ConvertIgnoresBookkeeping(st[i], WithRefresh(st[i]));
  }

  /** The store refuses the Update: 500 with its text, nothing changed. */
  lemma RefreshFailure(st: Store, f: Faults, ns: string, name: string)
    requires f.get.None? && f.update.Some? && Find(st, Key(ns, name)).Some?
    ensures var h := RefreshModel(st, f, ns, name);
      h.store == st && h.reply == ErrorReply(StatusInternalServerError, f.update.value) && |h.calls| == 2
  {
  }

  /** listModels answers with one converted item per record of the namespace, in store order. */
  lemma ListReturnsEveryRecord(st: Store, f: Faults, ns: string)
    ensures var h := ListModels(st, f, ns);
      && h.store == st && h.calls == [ListCall(ns)]
      && (f.list.Some? ==> h.reply == ErrorReply(StatusInternalServerError, f.list.value))
      && (f.list.None? ==>
            var rs := InNamespace(st, ns);
            && h.reply.JsonReply? && h.reply.status == StatusOK && h.reply.doc.ListDoc?
            && |h.reply.doc.items| == |rs|
            && forall i :: 0 <= i < |rs| ==> h.reply.doc.items[i] == ConvertModelToResponse(rs[i]))
    ensures ns == "" ==> InNamespace(st, ns) == st
  {
    ConvertEachIsPointwise(InNamespace(st, ns));
    EmptyNamespaceListsAll(st);
  }

  /** No handler can make two records share a key. */
  lemma HandlersKeepKeysUnique(st: Store, f: Faults, ns: string, name: string, body: Decoded)
    requires UniqueKeys(st)
    ensures UniqueKeys(CreateModel(st, f, ns, body).store)
    ensures UniqueKeys(DeleteModel(st, f, ns, name).store)
    ensures UniqueKeys(RefreshModel(st, f, ns, name).store)
    ensures UniqueKeys(ListModels(st, f, ns).store) && UniqueKeys(GetModel(st, f, ns, name).store)
  {
    CreateKeepsKeysUnique(st, f, ns, body);
    var k := Key(ns, name);
    if f.get.None? && Find(st, k).Some? {
      var i := Find(st, k).value;
      DeleteAtKeepsKeysUnique(st, i);
      SameKeysKeepUnique(st, Replace(st, i, WithRefresh(st[i])));
    }
  }

  lemma CreateKeepsKeysUnique(st: Store, f: Faults, ns: string, body: Decoded)
    requires UniqueKeys(st)
    ensures UniqueKeys(CreateModel(st, f, ns, body).store)
  {
  }

  /** A store with the keys of a store whose keys are unique has unique keys. */
  lemma SameKeysKeepUnique(st: Store, d: Store)
    requires UniqueKeys(st) && |d| == |st|
    requires forall j :: 0 <= j < |d| ==> KeyOf(d[j]) == KeyOf(st[j])
    ensures UniqueKeys(d)
  {
  }

  lemma DeleteAtKeepsKeysUnique(st: Store, i: nat)
    requires UniqueKeys(st) && i < |st|
    ensures UniqueKeys(DeleteAt(st, i))
  {
    var d := DeleteAt(st, i);
    if st[i].meta.finalizers == [] {
      forall a, b | 0 <= a < b < |d|
        ensures KeyOf(d[a]) != KeyOf(d[b])
      {
        var a' := if a < i then a else a + 1;
        var b' := if b < i then b else b + 1;
        assert d[a] == st[a'] && d[b] == st[b'];
      }
    } else {
      SameKeysKeepUnique(st, d);
    }
  }

  /**
   * The identifier is not injective: two different requests collide, and
   * once the first is created the second is refused with 409.
   */
  lemma ModelIdCollides(st: Store, ns: string)
    requires Find(st, Key(ns, "a-b-c")).None?
    ensures ModelRequest("a-b", "c") != ModelRequest("a", "b-c")
    ensures ModelId(ModelRequest("a-b", "c")) == ModelId(ModelRequest("a", "b-c")) == "a-b-c"
    ensures var h1 := CreateModel(st, NoFaults, ns, Decoded(ModelRequest("a-b", "c")));
      var h2 := CreateModel(h1.store, NoFaults, ns, Decoded(ModelRequest("a", "b-c")));
      && h1.reply.JsonReply? && h1.reply.status == StatusCreated
      && h2.reply == ErrorReply(StatusConflict, "model already exists: a-b-c")
      && h2.store == h1.store
  {
    assert ModelId(ModelRequest("a-b", "c")) == "a-b-c";
    assert ModelId(ModelRequest("a", "b-c")) == "a-b-c";
    FindAppend(st, NewRecord(ModelRequest("a-b", "c"), ns));
  }

  /** The index of the first '-' in s, or |s| when there is none. */
  function FirstDash(s: string): nat
  {
    if s == [] || s[0] == '-' then 0 else 1 + FirstDash(s[1..])
  }

  lemma {:induction false} FirstDashOfId(req: ModelRequest)
    requires '-' !in req.name
    ensures FirstDash(ModelId(req)) == |req.name|
    decreases |req.name|
  {
    if req.name != [] {
      var rest := ModelRequest(req.name[1..], req.tag);
      assert ModelId(req)[1..] == ModelId(rest);
      FirstDashOfId(rest);
    }
  }

  /** It is injective on requests whose name has no '-'. */
  lemma ModelIdInjective(a: ModelRequest, b: ModelRequest)
    requires '-' !in a.name && '-' !in b.name
    requires ModelId(a) == ModelId(b)
    ensures a == b
  {
    var id := ModelId(a);
    FirstDashOfId(a);
    FirstDashOfId(b);
    assert a.name == id[..|a.name|] == b.name;
    assert a.tag == id[|a.name| + 1..] == b.tag;
  }
}
