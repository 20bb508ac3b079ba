/**
 * The REST handlers (internal/api/handlers.go) over a store of OllamaModel
 * records. Each handler is a function from the store, the faults the store
 * will report for this request, and the request, to the new store, the
 * store calls made and the reply the handler sends. Writing the reply to the
 * ResponseWriter is in the Server module.
 */
module Handlers {
  import opened Wrappers
  import opened Types
  import opened Json
  import Controller

  // ---------------------------------------------------------------------
  // Requests and responses

  /** The payload of POST /api/v1/models. */
  datatype ModelRequest = ModelRequest(name: string, tag: string)

  /** The outcome of decoding the request body. */
  datatype Decoded = Decoded(request: ModelRequest) | Undecodable(message: string)

  datatype ModelResponse = ModelResponse(
    name: string,
    namespace: string,
    modelName: string,
    tag: string,
    state: string,
    size: int64,
    formattedSize: string,
    lastPullTime: string,
    error: string)

  /**
   * convertModelToResponse: the projection of a record the API shows. The
   * state is given by its name, from which it can be read back, and the pull
   * time is "" exactly when the record has none.
   */
  function ConvertModelToResponse(m: OllamaModel): (r: ModelResponse)
    ensures ParseState(r.state) == Some(m.status.state)
    ensures r.lastPullTime == "" <==> m.status.lastPullTime.None?
    ensures m.status.lastPullTime.Some? ==> r.lastPullTime == m.status.lastPullTime.value
  {
    ModelResponse(
      m.meta.name, m.meta.namespace, m.spec.name, m.spec.tag,
      StateName(m.status.state), m.status.size, m.status.formattedSize,
      if m.status.lastPullTime.Some? then m.status.lastPullTime.value else "",
      m.status.error)
  }

  /** The projection reads only the name, the namespace, the spec and the status. */
  lemma ConvertIgnoresBookkeeping(m: OllamaModel, m': OllamaModel)
    requires m.meta.name == m'.meta.name && m.meta.namespace == m'.meta.namespace
    requires m.spec == m'.spec && m.status.state == m'.status.state && m.status.size == m'.status.size
    requires m.status.formattedSize == m'.status.formattedSize && m.status.lastPullTime == m'.status.lastPullTime
    requires m.status.error == m'.status.error
    ensures ConvertModelToResponse(m) == ConvertModelToResponse(m')
  {
  }

  function Member(key: string, value: JsonValue, present: bool): seq<(string, JsonValue)>
  {
    if present then [(key, value)] else []
  }

  /** The JSON object of a ModelResponse: its members in field order, the omitempty ones only when non-zero. */
  function ResponseToJson(r: ModelResponse): JsonValue
  {
    JObject(MembersFrom(r, 0))
  }

  /** Decoding a ModelResponse the way encoding/json fills a struct. */
  function ResponseFromJson(j: JsonValue): Option<ModelResponse>
  {
    if !j.JObject? then None
    else
      var ms := j.members;
      var name := StringField(ms, "name");
      var namespace := StringField(ms, "namespace");
      var modelName := StringField(ms, "modelName");
      var tag := StringField(ms, "tag");
      var state := StringField(ms, "state");
      var size := NumberField(ms, "size");
      var formattedSize := StringField(ms, "formattedSize");
      var lastPullTime := StringField(ms, "lastPullTime");
      var error := StringField(ms, "error");
      if name.None? || namespace.None? || modelName.None? || tag.None? || state.None? || size.None?
         || formattedSize.None? || lastPullTime.None? || error.None? then None
      else if !(-0x8000_0000_0000_0000 <= size.value < 0x8000_0000_0000_0000) then None
      else Some(ModelResponse(name.value, namespace.value, modelName.value, tag.value, state.value,
                              size.value, formattedSize.value, lastPullTime.value, error.value))
  }

  lemma LookupCons(p: (string, JsonValue), rest: seq<(string, JsonValue)>, key: string)
    ensures Lookup([p] + rest, key) == if p.0 == key then Some(p.1) else Lookup(rest, key)
  {
    assert ([p] + rest)[0] == p;
    assert ([p] + rest)[1..] == rest;
  }

  lemma LookupMember(k: string, v: JsonValue, present: bool, rest: seq<(string, JsonValue)>, key: string)
    ensures Lookup(Member(k, v, present) + rest, key) == if present && k == key then Some(v) else Lookup(rest, key)
  {
    if present {
      LookupCons((k, v), rest, key);
    } else {
      assert Member(k, v, present) + rest == rest;
    }
  }

  /** The members of the JSON object from field n on. */
  function MembersFrom(r: ModelResponse, n: nat): seq<(string, JsonValue)>
    requires n <= 9
    decreases 9 - n
  {
    if n == 9 then []
    else
      var (key, value, present) := FieldAt(r, n);
      Member(key, value, present) + MembersFrom(r, n + 1)
  }

  /** The position of a JSON key among the fields of ModelResponse, 9 for any other key. */
  function KeyIndex(key: string): (n: nat)
    ensures n <= 9
  {
    if key == "name" then 0
    else if key == "namespace" then 1
    else if key == "modelName" then 2
    else if key == "tag" then 3
    else if key == "state" then 4
    else if key == "size" then 5
    else if key == "formattedSize" then 6
    else if key == "lastPullTime" then 7
    else if key == "error" then 8
    else 9
  }

  /** The member for field `at` is found, if it is written, and no other member has its key. */
  lemma {:induction false} LookupFrom(r: ModelResponse, n: nat, at: nat)
    requires n <= 9 && at < 9
    ensures Lookup(MembersFrom(r, n), FieldAt(r, at).0) ==
      if n <= at && FieldAt(r, at).2 then Some(FieldAt(r, at).1) else None
    decreases 9 - n
  {
    if n < 9 {
      var (k, w, p) := FieldAt(r, n);
      var key := FieldAt(r, at).0;
      assert KeyIndex(k) == n && KeyIndex(key) == at;
      LookupMember(k, w, p, MembersFrom(r, n + 1), key);
      LookupFrom(r, n + 1, at);
    }
  }

  /** Field n of a ModelResponse: its JSON key, its value and whether it is written. */
  function FieldAt(r: ModelResponse, n: nat): (string, JsonValue, bool)
    requires n < 9
  {
    if n == 0 then ("name", JString(r.name), true)
    else if n == 1 then ("namespace", JString(r.namespace), true)
    else if n == 2 then ("modelName", JString(r.modelName), true)
    else if n == 3 then ("tag", JString(r.tag), true)
    else if n == 4 then ("state", JString(r.state), true)
    else if n == 5 then ("size", JNumber(r.size), r.size != 0)
    else if n == 6 then ("formattedSize", JString(r.formattedSize), r.formattedSize != "")
    else if n == 7 then ("lastPullTime", JString(r.lastPullTime), r.lastPullTime != "")
    else ("error", JString(r.error), r.error != "")
  }

  /** A member list holding every field of r as the decoder reads it decodes to r. */
  lemma DecodeFields(ms: seq<(string, JsonValue)>, r: ModelResponse)
    requires StringField(ms, "name") == Some(r.name) && StringField(ms, "namespace") == Some(r.namespace)
    requires StringField(ms, "modelName") == Some(r.modelName) && StringField(ms, "tag") == Some(r.tag)
    requires StringField(ms, "state") == Some(r.state) && NumberField(ms, "size") == Some(r.size)
    requires StringField(ms, "formattedSize") == Some(r.formattedSize)
    requires StringField(ms, "lastPullTime") == Some(r.lastPullTime) && StringField(ms, "error") == Some(r.error)
    ensures ResponseFromJson(JObject(ms)) == Some(r)
  {
  }

  /** Leaving out the zero-valued fields loses nothing: a client decoding the body gets the response back. */
  lemma ResponseJsonRoundTrip(r: ModelResponse)
    ensures ResponseFromJson(ResponseToJson(r)) == Some(r)
  {
    var ms := MembersFrom(r, 0);
    RequiredFieldsRead(r);
    OptionalFieldsRead(r);
    DecodeFields(ms, r);
  }

  /** The five fields without omitempty are always written and read back. */
  lemma RequiredFieldsRead(r: ModelResponse)
    ensures StringField(MembersFrom(r, 0), "name") == Some(r.name)
    ensures StringField(MembersFrom(r, 0), "namespace") == Some(r.namespace)
    ensures StringField(MembersFrom(r, 0), "modelName") == Some(r.modelName)
    ensures StringField(MembersFrom(r, 0), "tag") == Some(r.tag)
    ensures StringField(MembersFrom(r, 0), "state") == Some(r.state)
  {
    LookupFrom(r, 0, 0);
    LookupFrom(r, 0, 1);
    LookupFrom(r, 0, 2);
    LookupFrom(r, 0, 3);
    LookupFrom(r, 0, 4);
  }

  /** The four omitempty fields read back as written, or as their zero value when left out. */
  lemma OptionalFieldsRead(r: ModelResponse)
    ensures NumberField(MembersFrom(r, 0), "size") == Some(r.size)
    ensures StringField(MembersFrom(r, 0), "formattedSize") == Some(r.formattedSize)
    ensures StringField(MembersFrom(r, 0), "lastPullTime") == Some(r.lastPullTime)
    ensures StringField(MembersFrom(r, 0), "error") == Some(r.error)
  {
    LookupFrom(r, 0, 5);
    LookupFrom(r, 0, 6);
    LookupFrom(r, 0, 7);
    LookupFrom(r, 0, 8);
  }

  function ResponsesToJson(items: seq<ModelResponse>): (js: seq<JsonValue>)
    ensures |js| == |items| && forall i :: 0 <= i < |items| ==> js[i] == ResponseToJson(items[i])
  {
    if items == [] then [] else [ResponseToJson(items[0])] + ResponsesToJson(items[1..])
  }

  /** ModelListResponse; Items is never nil, so an empty list is written as []. */
  function ListToJson(items: seq<ModelResponse>): JsonValue
  {
    JObject([("items", JArray(ResponsesToJson(items)))])
  }

  // ---------------------------------------------------------------------
  // The store

  datatype Key = Key(namespace: string, name: string)

  function KeyOf(m: OllamaModel): Key
  {
    Key(m.meta.namespace, m.meta.name)
  }

  /** The records, in the order a List returns them. */
  type Store = seq<OllamaModel>

  predicate UniqueKeys(st: Store)
  {
    forall i, j :: 0 <= i < j < |st| ==> KeyOf(st[i]) != KeyOf(st[j])
  }

  /** Errors other than NotFound that the store reports to this request, per operation. */
  datatype Faults = Faults(get: Option<string>, list: Option<string>, create: Option<string>,
                           update: Option<string>, delete: Option<string>)

  const NoFaults := Faults(None, None, None, None, None)

  datatype StoreCall =
    | GetCall(key: Key)
    | ListCall(namespace: string)
    | CreateCall(record: OllamaModel)
    | UpdateCall(record: OllamaModel)
    | DeleteCall(key: Key)

  function Find(st: Store, k: Key): (r: Option<nat>)
    ensures r.Some? ==> r.value < |st| && KeyOf(st[r.value]) == k
    ensures r.Some? ==> forall i :: 0 <= i < r.value ==> KeyOf(st[i]) != k
    ensures r.None? <==> forall i :: 0 <= i < |st| ==> KeyOf(st[i]) != k
  {
    if st == [] then None
    else if KeyOf(st[0]) == k then Some(0)
    else match Find(st[1..], k)
      case None => None
      case Some(i) => Some(i + 1)
  }

  datatype Fetched = Present(record: OllamaModel) | NotFound | GetFailed(message: string)

  /** client.Get. */
  function Get(st: Store, f: Faults, k: Key): Fetched
  {
    if f.get.Some? then GetFailed(f.get.value)
    else match Find(st, k)
      case None => NotFound
      case Some(i) => Present(st[i])
  }

  /** client.List with InNamespace: the records of one namespace in store order; "" selects every namespace. */
  function InNamespace(st: Store, ns: string): (r: Store)
    ensures forall m | m in r :: m in st && (ns == "" || m.meta.namespace == ns)
    ensures forall m | m in st && (ns == "" || m.meta.namespace == ns) :: m in r
  {
    if st == [] then []
    else (if ns == "" || st[0].meta.namespace == ns then [st[0]] else []) + InNamespace(st[1..], ns)
  }

  /** The empty namespace lists the whole store. */
  lemma {:induction false} EmptyNamespaceListsAll(st: Store)
    ensures InNamespace(st, "") == st
  {
    if st != [] {
      EmptyNamespaceListsAll(st[1..]);
      assert [st[0]] + st[1..] == st;
    }
  }

  /** The record at index i replaced. */
  function Replace(st: Store, i: nat, m: OllamaModel): (r: Store)
    requires i < |st|
    ensures |r| == |st| && r[i] == m && forall j :: 0 <= j < |st| && j != i ==> r[j] == st[j]
  {
    st[i := m]
  }

  /**
   * client.Delete as the API server carries it out: a record that still has
   * finalizers is only marked for deletion; one without is removed.
   */
  function Remove(st: Store, i: nat): (r: Store)
    requires i < |st|
    ensures |r| == |st| - 1
    ensures forall j :: 0 <= j < i ==> r[j] == st[j]
    ensures forall j :: i <= j < |r| ==> r[j] == st[j + 1]
  {
    st[..i] + st[i + 1..]
  }

  function DeleteAt(st: Store, i: nat): Store
    requires i < |st|
  {
    var m := st[i];
    if m.meta.finalizers != [] then Replace(st, i, m.(meta := m.meta.(deleting := true)))
    else Remove(st, i)
  }

  // ---------------------------------------------------------------------
  // Replies and handlers

  const StatusOK := 200
  const StatusCreated := 201
  const StatusAccepted := 202
  const StatusNoContent := 204
  const StatusBadRequest := 400
  const StatusNotFound := 404
  const StatusConflict := 409
  const StatusInternalServerError := 500

  datatype Document = ModelDoc(model: ModelResponse) | ListDoc(items: seq<ModelResponse>)

  /** What a handler sends: sendJSON, sendError, or a bare WriteHeader. */
  datatype Reply =
    | JsonReply(status: int, doc: Document)
    | ErrorReply(status: int, message: string)
    | EmptyReply(status: int)

  datatype Handled = Handled(store: Store, calls: seq<StoreCall>, reply: Reply)

  function NotFoundMessage(name: string): string
  {
    "model not found: " + name
  }

  /** The reply for a failed lookup by name, shared by get, delete and refresh. */
  function LookupError(l: Fetched, name: string): Reply
    requires !l.Present?
  {
    if l.NotFound? then ErrorReply(StatusNotFound, NotFoundMessage(name))
    else ErrorReply(StatusInternalServerError, l.message)
  }

  /** listModels. */
  function ListModels(st: Store, f: Faults, ns: string): Handled
  {
    if f.list.Some? then Handled(st, [ListCall(ns)], ErrorReply(StatusInternalServerError, f.list.value))
    else Handled(st, [ListCall(ns)], JsonReply(StatusOK, ListDoc(ConvertEach(InNamespace(st, ns)))))
  }

  function ConvertEach(ms: seq<OllamaModel>): (rs: seq<ModelResponse>)
  {
    if ms == [] then [] else [ConvertModelToResponse(ms[0])] + ConvertEach(ms[1..])
  }

  /** The loop of listModels: Items is allocated with one slot per record and filled in order. */
  method ConvertItems(ms: seq<OllamaModel>) returns (items: seq<ModelResponse>)
    ensures |items| == |ms|
    ensures forall i :: 0 <= i < |ms| ==> items[i] == ConvertModelToResponse(ms[i])
    ensures items == ConvertEach(ms)
  {
    var a := new ModelResponse[|ms|](_ => ModelResponse("", "", "", "", "", 0, "", "", ""));
    for i := 0 to |ms|
      invariant forall j :: 0 <= j < i ==> a[j] == ConvertModelToResponse(ms[j])
    {
      a[i] := ConvertModelToResponse(ms[i]);
    }
    items := a[..];
    ConvertEachIsPointwise(ms);
  }

  lemma {:induction false} ConvertEachIsPointwise(ms: seq<OllamaModel>)
    ensures |ConvertEach(ms)| == |ms|
    ensures forall i :: 0 <= i < |ms| ==> ConvertEach(ms)[i] == ConvertModelToResponse(ms[i])
  {
    if ms != [] {
      ConvertEachIsPointwise(ms[1..]);
      assert forall i :: 1 <= i < |ms| ==> ConvertEach(ms)[i] == ConvertEach(ms[1..])[i - 1];
    }
  }

  /** getModel. */
  function GetModel(st: Store, f: Faults, ns: string, name: string): Handled
  {
    var k := Key(ns, name);
    var l := Get(st, f, k);
    if !l.Present? then Handled(st, [GetCall(k)], LookupError(l, name))
    else Handled(st, [GetCall(k)], JsonReply(StatusOK, ModelDoc(ConvertModelToResponse(l.record))))
  }

  /** The identifier of a created record. */
  function ModelId(req: ModelRequest): string
  {
    req.name + "-" + req.tag
  }

  /** The record createModel builds: configured namespace, the request's name and tag, an empty status. */
  function NewRecord(req: ModelRequest, ns: string): OllamaModel
  {
    OllamaModel(ObjectMeta(ModelId(req), ns, [], map[], false), ModelSpec(req.name, req.tag), EmptyStatus)
  }

  /** createModel. */
  function CreateModel(st: Store, f: Faults, ns: string, body: Decoded): Handled
  {
    if body.Undecodable? then Handled(st, [], ErrorReply(StatusBadRequest, "invalid request: " + body.message))
    else
      var req := body.request;
      if req.name == "" || req.tag == "" then Handled(st, [], ErrorReply(StatusBadRequest, "name and tag are required"))
      else
        var id := ModelId(req);
        var k := Key(ns, id);
        var l := Get(st, f, k);
        if l.Present? then Handled(st, [GetCall(k)], ErrorReply(StatusConflict, "model already exists: " + id))
        else if l.GetFailed? then Handled(st, [GetCall(k)], ErrorReply(StatusInternalServerError, l.message))
        else
          var m := NewRecord(req, ns);
          if f.create.Some? then
            Handled(st, [GetCall(k), CreateCall(m)], ErrorReply(StatusInternalServerError, f.create.value))
          else
            Handled(st + [m], [GetCall(k), CreateCall(m)], JsonReply(StatusCreated, ModelDoc(ConvertModelToResponse(m))))
  }

  /** deleteModel. */
  function DeleteModel(st: Store, f: Faults, ns: string, name: string): Handled
  {
    var k := Key(ns, name);
    var l := Get(st, f, k);
    if !l.Present? then Handled(st, [GetCall(k)], LookupError(l, name))
    else if f.delete.Some? then
      Handled(st, [GetCall(k), DeleteCall(k)], ErrorReply(StatusInternalServerError, f.delete.value))
    else
      Handled(DeleteAt(st, Find(st, k).value), [GetCall(k), DeleteCall(k)], EmptyReply(StatusNoContent))
  }

  /** The record with the refresh annotation set to "true"; a nil map is created first. */
  function WithRefresh(m: OllamaModel): OllamaModel
  {
    m.(meta := m.meta.(annotations := m.meta.annotations[Controller.RefreshAnnotation := "true"]))
  }

  /** refreshModel. */
  function RefreshModel(st: Store, f: Faults, ns: string, name: string): Handled
  {
    var k := Key(ns, name);
    var l := Get(st, f, k);
    if !l.Present? then Handled(st, [GetCall(k)], LookupError(l, name))
    else
      var m := WithRefresh(l.record);
      if f.update.Some? then
        Handled(st, [GetCall(k), UpdateCall(m)], ErrorReply(StatusInternalServerError, f.update.value))
      else
        Handled(Replace(st, Find(st, k).value, m), [GetCall(k), UpdateCall(m)],
                JsonReply(StatusAccepted, ModelDoc(ConvertModelToResponse(m))))
  }
}
