# ollama-operator, modelled in Dafny

This project models the core of the ollama-operator, a Kubernetes operator that keeps
`OllamaModel` custom resources in step with the models pulled into an Ollama daemon, and proves
properties of that model. It covers four parts.

- **The `OllamaModel` resource** (`Types`): the `ModelState` enumeration, the spec and status
  records, and the kubebuilder validation markers written as the predicates `ValidSpec`,
  `ValidDigest`, `ValidStatus` and `ValidModel`.
- **The reconciler** (`Controller`, `ControllerProperties`, `Format`, `Text`, `Env`).
  - One reconciliation pass walks the decision ladder of `Reconcile`:
    deletion, then adding the finalizer, then refresh, then initialising to Pending, then
    Show/Pull, then marking Ready.
  - The Ollama client (`Show`, `Pull`, `Delete`, `List`) and the two store writes (`Update`,
    `Status().Update`) form a scripted `Oracle`. The k-th call of each operation gets the k-th
    reply of its script.
  - A `Session` records every call made, in order.
  - Each step is stated twice:
    - as a function (`Pass`, `Deletion`, `Refresh`, `Details`, and the three retry loops);
    - as a method that runs the source's counted retry loops and list scan step by step
      (`Reconcile`, `HandleDeletion`, `RefreshModel`, `UpdateModelDetails`), proved equal to
      the function.
  - The lemmas are stated about the functions.
  - `formatBytes` and the digest derivation are pure functions, with lemmas about them.
- **The REST handlers** (`Handlers`, `HandlerProperties`, `Json`).
  - Each handler is a function with these inputs:
    - the store (a sequence of records, so "in store order" has a meaning);
    - the faults the store reports for this request;
    - the request.
  - Each handler returns the new store, the store calls it made and the reply it sends.
  - `listModels` fills its `Items` slice in a loop (`ConvertItems`).
  - The JSON body is a value (`JsonValue`) with the `omitempty` rules of `ModelResponse`. A
    decoder shows that nothing is lost.
- **The API server** (`Server`, `ServerProperties`, `Http`).
  - `Http.Writer` is the net/http response writer, as a class:
    - the first `WriteHeader` wins;
    - a `Write` before it sends 200;
    - headers set after the status line have no effect.
  - `Server.ResponseWriter` is the status-capturing wrapper.
  - `SendJSON`, `SendError` and `http.Error` are methods on these writers.
  - The router is a class built by `NewServer` through `Use` and `HandleFunc`.
  - `ServeHTTP` runs one request through the router and the metrics and auth middleware, to a
    handler.
- **The system view** (`System`) ties the two sides together. A request made through the API
  leaves a record that the next reconciliation pass acts on in a known way.

Time is a parameter. A pass reads the clock once, as `now`, a non-empty RFC3339 string. The
store is a parameter, and so is each scripted reply.

Where the source's own comments and its code disagree, the model follows the code:
- The field comment of `Error` (api/v1alpha1/ollamamodel_types.go:76) calls it the error message
  "if the model is in failed state". But `Status.Error` is never cleared when a model leaves
  Failed.
  - `updateModelDetails` never touches the field.
  - So a record can be Ready and still carry an old error text (`DetailsStatus`,
    `ShowSuccessMarksReady`).
- The digest of a Modelfile shorter than 32 bytes is the `%064x` rendering, cut to 64 characters.
  It is not treated as absent.
  - How that rendering is padded depends on the Go release.
  - Left zero-padding is a modelling choice (see "## Left out").
  - The properties state the digest exactly only for Modelfiles of 32 bytes or more.

Two properties of the source are proved as facts about the code as written. They are not listed
as bugs:
- The pull error is copied into `Status.Error` without being cut down, so the reconciler sends
  a status that fails the 1024-character limit of the schema.
  - The store's replies are scripted and do not look at the record written. On a script that
    accepts every write, the pass ends Failed (`OverlongPullErrorBreaksSchema`).
  - An API server that checks status writes against the schema refuses that write. Scripted that
    way, the pass requeues after 5s with the refusal, and the record stays Pulling: the next pass
    does nothing while Show keeps failing (`OverlongPullErrorLeavesPulling`).
- The identifier `name-tag` of `createModel` is not injective (`ModelIdCollides`). It is injective
  when the name contains no `-` (`ModelIdInjective`).

## Model

| member | source | states |
|---|---|---|
| Types.ParseState | api/v1alpha1/ollamamodel_types.go:26-39 | a state string is accepted exactly when it is one of Pending, Pulling, Ready, Failed or the empty initial value, and it reads back as the name it came from |
| Types.StateNameRoundTrip | api/v1alpha1/ollamamodel_types.go:26-39 | every state's name is an admitted value and parses back to that state |
| Types.EmptyStatusValid | api/v1alpha1/ollamamodel_types.go:54-79 | the zero status of a new record satisfies the status schema (digest pattern, Size >= 0, Error <= 1024), with state "" and no LastPullTime |
| Text.DecimalRoundTrip | internal/controller/ollamamodel_controller.go:225 | the `%d` rendering of a count reads back as the same number |
| Text.HexRoundTrip | internal/controller/ollamamodel_controller.go:169 | the `%x` rendering of a byte string reads back as the same bytes |
| Text.ContainsIff | internal/controller/ollamamodel_controller.go:268 | the substring test holds exactly when the text occurs at some offset |
| Format.FormatSmall | internal/controller/ollamamodel_controller.go:224-226 | below 1024 the size is the `%d` text of the count followed by " B", and for a non-negative count that text reads back as the count (by `Text.DecimalRoundTrip`) |
| Format.FormatScaled | internal/controller/ollamamodel_controller.go:228-249 | from 1024 on, the size is the nearest tenth of the count in the largest reached unit (KiB..PiB), with that unit's name |
| Format.UnitExists | internal/controller/ollamamodel_controller.go:231-247 | every count of at least 1024 has exactly one unit, and PiB covers everything above its threshold |
| Format.UnitMonotone | internal/controller/ollamamodel_controller.go:231-247 | a larger count never gets a smaller unit |
| Format.RoundTenthsNearest | internal/controller/ollamamodel_controller.go:249 | the printed tenths lie within half a tenth of the exact quotient, and strictly within it outside a tie |
| Format.FormatExamples | internal/controller/ollamamodel_controller.go:213-250 | 512 and 1023 print in B; 1024 gives "1.0 KiB", 1572864 gives "1.5 MiB", 1815319791 gives "1.7 GiB" |
| Format.DigestShape | internal/controller/ollamamodel_controller.go:167-173 | the digest is never longer than 64 characters; for a Modelfile of at least 32 bytes it has exactly 64 lowercase hex digits, so it meets the Digest pattern |
| Format.DigestOfLongModelfile | internal/controller/ollamamodel_controller.go:169-172 | for a Modelfile of at least 32 bytes the digest is the hex of its first 32 bytes, and those bytes can be read back from it |
| Controller.AddFinalizer | internal/controller/ollamamodel_controller.go:79-81 | the result holds the old finalizers plus the operator's: unchanged when the finalizer was already present, and otherwise the old list with the token appended once at the end |
| Controller.RemoveFinalizer | internal/controller/ollamamodel_controller.go:285 | the result holds exactly the other finalizers, and is never longer |
| Controller.RemoveFinalizerAppend | internal/controller/ollamamodel_controller.go:285 | removal works piece by piece: removing from a + b is removing from a, then from b, so the other finalizers keep their order |
| Controller.RemoveFinalizerSingle | internal/controller/ollamamodel_controller.go:285 | on a one-element list the operator's token is removed and any other finalizer stays |
| Controller.FirstMatch | internal/controller/ollamamodel_controller.go:180-190 | the index of the first listed model named "name:tag", or none exactly when no entry has that name |
| Controller.HandleDeletion | internal/controller/ollamamodel_controller.go:253-293 | the counted delete loop, the finalizer removal and the Update give exactly the outcome of `Deletion` |
| Controller.UpdateModelDetails | internal/controller/ollamamodel_controller.go:154-211 | Show, the optional digest, the list scan with break, and the status-write loop give exactly the outcome of `Details` |
| Controller.RefreshModel | internal/controller/ollamamodel_controller.go:296-363 | the Pulling write, the pull loop, the failure path, the details update and the annotation acknowledgement give exactly the outcome of `Refresh` |
| Controller.Reconcile | internal/controller/ollamamodel_controller.go:61-151 | a record that is missing ends the pass quietly; a failed Get returns its error; a found record goes through the decision ladder and gives exactly the outcome of `Pass` |
| ControllerProperties.DeleteRetryShape | internal/controller/ollamamodel_controller.go:259-274 | Delete("name:tag") is called one to three times; every attempt but the last neither succeeded nor reported "model not found"; the loop ends early only on such an attempt; the error stays set exactly when the last attempt did not settle |
| ControllerProperties.PullRetryShape | internal/controller/ollamamodel_controller.go:310-323 | Pull is called one to three times, stopping at the first success; the error left is the last attempt's, and only after three failures |
| ControllerProperties.StatusRetryShape | internal/controller/ollamamodel_controller.go:196-208 | Status().Update is called one to three times, stopping at the first success; the error is returned only when the third attempt failed |
| ControllerProperties.DetailsStatus | internal/controller/ollamamodel_controller.go:157-194 | updateModelDetails sets Ready and LastPullTime to now, takes the digest only from a non-empty Modelfile, takes Size/FormattedSize from the first matching list entry (unchanged if there is no match or Show or List failed), never touches Error, and leaves the metadata and spec alone |
| ControllerProperties.DetailsCalls | internal/controller/ollamamodel_controller.go:163-208 | the exact calls of updateModelDetails: Show, then List only after a successful Show, then one to three status writes of the final record; an error is returned exactly when the last of three writes failed |
| ControllerProperties.DeletionWithFinalizer | internal/controller/ollamamodel_controller.go:73-76 | a record marked for deletion that has the finalizer gets one to three Delete calls and then an Update; the finalizer is removed even when every delete failed; a failed Update gives requeue after 5s |
| ControllerProperties.DeletionWithoutFinalizer | internal/controller/ollamamodel_controller.go:257-292 | a record marked for deletion without the finalizer: no call, no change, empty Result |
| ControllerProperties.FirstPassAddsFinalizer | internal/controller/ollamamodel_controller.go:79-87 | a live record without the finalizer: the only effect is appending it and one Update; no Ollama call; a failed Update gives requeue after 5s with its error |
| ControllerProperties.SecondPassInitializes | internal/controller/ollamamodel_controller.go:97-106 | with the finalizer, no refresh requested and state "": the only effect is persisting Pending; no Ollama call; a failed write gives requeue after 5s |
| ControllerProperties.ReadyIsStable | internal/controller/ollamamodel_controller.go:142-150 | idempotence: a Ready record gets one Show call and nothing else (no Pull, Delete or write) and an empty Result, whatever Show answers |
| ControllerProperties.ShowFailureOutsidePending | internal/controller/ollamamodel_controller.go:111-150 | any Show error in a state other than Pending gives no further call, no change and an empty Result |
| ControllerProperties.PullFromPendingFails | internal/controller/ollamamodel_controller.go:111-137 | Show failed while Pending: Pulling is written, then exactly one Pull; when it fails the record ends Failed with the pull's error text, and the result is requeue after 30s with that error, or 5s if that status write failed |
| ControllerProperties.PullFromPendingNotPersisted | internal/controller/ollamamodel_controller.go:115-119 | when writing Pulling fails, no Pull is made and the result is requeue after 5s with the write's error |
| ControllerProperties.PullFromPendingSucceeds | internal/controller/ollamamodel_controller.go:121-140 | after one successful Pull the pass continues as updateModelDetails on the Pulling record and ends Ready at now |
| ControllerProperties.ShowSuccessMarksReady | internal/controller/ollamamodel_controller.go:142-147 | Show succeeded on a record that is not Ready: it is marked Ready through updateModelDetails, keeping its old error text, with no Pull or Delete |
| ControllerProperties.RefreshPersistsPullingFirst | internal/controller/ollamamodel_controller.go:302-307 | a refresh runs only for the annotation value "true", and its first call writes the Pulling status; if that write fails nothing else happens and the result is requeue after 5s |
| ControllerProperties.RefreshFirstCall | internal/controller/ollamamodel_controller.go:303-304 | the first call a refreshing pass makes is the status write of the record in state Pulling |
| ControllerProperties.RefreshFails | internal/controller/ollamamodel_controller.go:325-338 | when all three pulls fail: state Failed, Error is the last pull error, the annotation and other metadata are unchanged, exactly three Pull calls, requeue after 30s (or 5s if the Failed write failed) |
| ControllerProperties.RefreshSucceeds | internal/controller/ollamamodel_controller.go:341-362 | when a pull succeeds: Ready at now, Error kept, no more pulls after the successful one; once the details are written, the annotation becomes "completed-<now>"; the record is never left both requesting a refresh and reported as done |
| ControllerProperties.RefreshIsSelfTerminating | internal/controller/ollamamodel_controller.go:347-355 | after a refresh that wrote everything, the next pass, whatever the daemon and store answer, makes one Show call and changes nothing |
| ControllerProperties.PassDiscipline | internal/controller/ollamamodel_controller.go:61-151 | in any pass, calls are only appended; at most 3 Delete, 3 Pull, 4 status writes and 1 Update; Delete only for records marked for deletion; Pull only on a refresh or after Show failed while Pending; a deletion pass never pulls or writes status |
| ControllerProperties.DetailsKeepStatusValid | internal/controller/ollamamodel_controller.go:159-208 | from a schema-valid status, updateModelDetails writes a schema-valid status, given a daemon whose listed sizes are non-negative and whose Modelfiles are empty or at least 32 bytes |
| ControllerProperties.PassKeepsStatusValid | api/v1alpha1/ollamamodel_types.go:65-78 | every status a pass leaves is schema-valid, given a valid starting status and a daemon whose listed sizes are non-negative, whose Modelfiles are empty or at least 32 bytes, and whose pull errors have at most 1024 characters |
| ControllerProperties.OverlongPullErrorBreaksSchema | internal/controller/ollamamodel_controller.go:127-136 | a pull error of 1025 characters is copied into Status.Error uncut; on a store that accepts every write, the pass ends Failed with requeue after 30s and a status that the Error MaxLength rejects |
| ControllerProperties.OverlongPullErrorLeavesPulling | internal/controller/ollamamodel_controller.go:121-136 | the same pass on a store that refuses the overlong Failed write (as the schema check of a status write does, api/v1alpha1/ollamamodel_types.go:77,82): the calls are Show, the Pulling write, Pull, the refused write; the result is requeue after 5s with the refusal; the last stored status is Pulling, and the next pass on it makes one Show call and changes nothing |
| Handlers.ConvertModelToResponse | internal/api/handlers.go:213-230 | the state is given by its name and can be read back; LastPullTime is "" exactly when the record has none, and otherwise is that time |
| Handlers.ConvertIgnoresBookkeeping | internal/api/handlers.go:213-230 | the projection depends only on name, namespace, spec, state, size, formatted size, pull time and error, not on finalizers, annotations or the deletion mark |
| Handlers.ResponseJsonRoundTrip | internal/api/handlers.go:26-36 | the omitempty JSON encoding of a ModelResponse decodes back to the same response |
| Handlers.ConvertItems | internal/api/handlers.go:57-63 | the Items loop yields one converted item per record, at the same position |
| Handlers.ConvertEachIsPointwise | internal/api/handlers.go:61-63 | the list conversion is pointwise: same length, item i is the projection of record i |
| Handlers.Find | internal/api/handlers.go:77 | the store lookup finds the first record with the namespaced name, or none exactly when no record has it |
| HandlerProperties.CreateValidation | internal/api/handlers.go:97-107 | createModel answers 400 without any store call exactly when the body does not decode or lacks a name or a tag, with "invalid request: ..." or "name and tag are required" as the message |
| HandlerProperties.CreateConflict | internal/api/handlers.go:109-116 | a record named "name-tag" already exists: 409 "model already exists: name-tag", only the Get is made, no Create |
| HandlerProperties.CreateLookupFailure | internal/api/handlers.go:117-122 | the existence check fails with an error other than NotFound: 500 with that error's text, no Create |
| HandlerProperties.CreateSucceeds | internal/api/handlers.go:124-143 | the one new record has name "name-tag", the configured namespace, spec name and tag copied from the request, no finalizers or annotations, and an empty, schema-valid status; the reply is 201 with its projection |
| HandlerProperties.CreateFailure | internal/api/handlers.go:136-140 | the store refuses the Create: 500 with the error text, nothing stored |
| HandlerProperties.CreateThenGet | internal/api/handlers.go:87-88 | after a successful create, a get by the identifier answers 200 with the same projection the create returned |
| HandlerProperties.LookupFailureStops | internal/api/handlers.go:77-85 | get, delete and refresh (and the lookups at 155-163 and 185-193) all answer 404 "model not found: <name>" on NotFound and 500 with its text on other errors, with no further store call |
| HandlerProperties.DeleteSucceeds | internal/api/handlers.go:165-173 | a successful Delete answers 204 with no body; a record with finalizers stays, only marked for deletion; one without is gone |
| HandlerProperties.DeleteFailure | internal/api/handlers.go:166-170 | the store refuses the Delete: 500 with the error text, store unchanged |
| HandlerProperties.RefreshOnlySetsAnnotation | internal/api/handlers.go:195-209 | the only change is setting the refresh annotation to "true"; other annotations, the spec, the status, the finalizers and every other record are unchanged; the reply is 202 with the projection |
| HandlerProperties.RefreshFailure | internal/api/handlers.go:201-206 | the store refuses the Update: 500 with the error text, store unchanged |
| HandlerProperties.ListReturnsEveryRecord | internal/api/handlers.go:44-66 | listModels answers 200 with exactly one converted item per record of the namespace (of every namespace when the configured namespace is ""), in store order, or 500 with the List error |
| Handlers.EmptyNamespaceListsAll | internal/api/handlers.go:50 | `InNamespace("")` selects the whole store |
| HandlerProperties.HandlersKeepKeysUnique | internal/api/handlers.go:109-140 | no handler makes two records share a namespaced name |
| HandlerProperties.ModelIdCollides | internal/api/handlers.go:110 | ("a-b","c") and ("a","b-c") are different requests with the same identifier "a-b-c"; on a store without that record the first is created with 201, and the second is then refused with 409 "model already exists: a-b-c" and nothing stored |
| HandlerProperties.ModelIdInjective | internal/api/handlers.go:110 | on requests whose name contains no '-', equal identifiers mean equal requests |
| Json.Lookup | internal/api/handlers.go:26-36 | a member lookup succeeds exactly when some member has the key |
| Server.ResponseWriter.constructor | internal/api/server.go:130 | the captured status starts at 200 and the wrapper writes to the given writer |
| Server.ResponseWriter.WriteHeader | internal/api/server.go:182-186 | the captured status becomes the argument of the last call; the wrapped writer keeps its first status |
| Server.ErrorJson | internal/api/server.go:200-204 | the error body is an object whose only key is "error", holding the message |
| Server.SendJSON | internal/api/server.go:188-198 | Content-Type application/json is set before the status line, the status is written, and then the document is the body |
| Server.SendError | internal/api/server.go:200-204 | the given status with body {"error": message} and nothing else |
| Server.HttpError | internal/api/server.go:155 | http.Error: a text/plain, nosniff response with the given code and body message + "\n" |
| Server.Send | internal/api/handlers.go:172-173 | a handler's reply on a fresh writer shows exactly its status, headers and body (sendJSON, sendError, or a bare WriteHeader for 204) |
| Server.Probe | internal/api/server.go:164-174 | the health endpoints answer 200 with the body "OK" or "Ready", and the handler sets no header |
| Server.Router.constructor | internal/api/server.go:55 | a new router has no routes and no middleware |
| Server.Router.Use | internal/api/server.go:64-65 | appends a middleware, routes unchanged |
| Server.Router.HandleFunc | internal/api/server.go:71-79 | appends one route with the verb, and the prefix joined to the template |
| Server.NewServer | internal/api/server.go:53-82 | the router has metrics then auth middleware and exactly the seven routes of the table, in registration order |
| Server.DispatchFrom | internal/api/server.go:67-79 | a request is dispatched to a route exactly when some route matches its verb and path |
| Server.ServeHTTP | internal/api/server.go:124-162 | unmatched requests get 404 or 405 with no handler; a matched request's recorded metric status is the status sent; without a valid key on a protected path the answer is 401 "Unauthorized\n" and the store is untouched; probes always pass; otherwise the handler's outcome is what the client receives |
| ServerProperties.TableIsPairwiseDisjoint | internal/api/server.go:67-79 | any two routes of the table differ in verb, in length, or in a literal segment |
| ServerProperties.RoutesUnambiguous | internal/api/server.go:67-79 | no request matches two routes of the table |
| ServerProperties.DispatchToMatch | internal/api/server.go:67-79 | in a table without overlaps, a request matching route i is dispatched to route i with its bindings |
| ServerProperties.CollectionRoutes | internal/api/server.go:71-72 | GET and POST /api/v1/models reach listModels and createModel |
| ServerProperties.ItemRoutes | internal/api/server.go:73-74 | GET and DELETE /api/v1/models/{name} reach getModel and deleteModel with name bound |
| ServerProperties.RefreshRoute | internal/api/server.go:75 | POST /api/v1/models/{name}/refresh reaches refreshModel with name bound |
| ServerProperties.HealthRoute | internal/api/server.go:78 | GET /health reaches healthCheck |
| ServerProperties.ReadinessRoute | internal/api/server.go:79 | GET /readiness reaches readinessCheck |
| ServerProperties.WrongVerbIsNotAllowed | internal/api/server.go:71-72 | another verb on /api/v1/models is answered 405 |
| ServerProperties.GetModelPath | internal/api/server.go:73 | for a non-empty name without '/', GET of its path reaches getModel with that name |
| System.CreatedRecordIsAdopted | internal/controller/ollamamodel_controller.go:79-106 | a record created through the API is adopted by the next two passes: the first only adds the finalizer, the second only sets Pending, and neither calls the daemon |
| System.RefreshRequestStartsPull | internal/api/handlers.go:195-209 | after a successful refresh request on an adopted live record, the record asks for a refresh and the next pass starts by writing Pulling |
| System.DeleteRequestStartsCleanup | internal/api/handlers.go:165-173 | after a successful delete of a record with the finalizer, the next pass calls Delete("name:tag") first and finishes with the Update that removes the finalizer |
| System.ApiShowsReadyAfterDetails | internal/api/handlers.go:213-230 | after a pass that found the model on the daemon, the API shows state "Ready", that pass's pull time and the old error text |

## Left out

- Logging, the event recorder and the Prometheus counters and histograms. The metrics
  middleware is modelled only as the status it would record.
- The `time.Sleep` backoff between retries (1s, 2s, 4s). There are no delays in the model;
  only the number of attempts is modelled.
- Context cancellation.
- Clock reads. `updateModelDetails` and the refresh acknowledgement read the clock separately;
  the model uses one `now` for the pass.
- RFC3339 formatting. Times are carried already rendered.
- The Ollama transport and the pull progress callbacks, which only log. The daemon is a scripted
  oracle and the progress callback is dropped.
- Store internals: optimistic concurrency, watch and event dispatch, `SetupWithManager`, and
  `OllamaModelList` metadata.
- What `client.Delete` does is a model choice: a record with finalizers is marked for deletion,
  one without is removed.
- Schema validation by the API server. The store's replies are scripted by call count and do
  not depend on the record written, so a refused write (such as a status with an overlong
  Error) appears only where a script says so (`OverlongPullErrorLeavesPulling`).
- The server lifecycle: `Start`, `Shutdown`, `NeedLeaderElection`, the goroutine and the timeouts.
- JSON as bytes. Documents are `JsonValue` trees; decoding a request body is reduced to a
  `Decoded`/`Undecodable` outcome carried with the request.
- A failed write to the client is not modelled: `Http.Writer` never fails. In the source,
  `json.NewEncoder(w).Encode` in `sendJSON` also returns the error of the underlying `Write`,
  for instance when the client disconnects during a large list response or the 30s write
  timeout passes. `sendJSON` then calls `http.Error`, whose `WriteHeader` on the wrapper sets
  the captured status to 500 after the first status was already sent. So the metrics middleware
  would record 500, not the status the client saw. `Server.ServeHTTP`'s promise that the
  recorded status is the status sent holds only because writes never fail in the model.
- Gorilla/mux internals. Path cleaning and redirects, query strings, and the template parser are
  left out; routes are registered as literal and variable segments.
- The "404 page not found" body of the router's 404, which is written by the router outside the
  core. The model writes only the status.
- `subtle.ConstantTimeCompare` is string equality; its timing guarantee is not modelled.
- Format.FormatBytes: float64 inexactness above 2^53 is not modelled. The value is the exact
  rational bytes/1024^k rounded to tenths, with exact ties going to the even neighbour.
- Format.Digest: how `%064x` pads the hex of a Modelfile shorter than 32 bytes depends on the Go
  release (recent fmt releases ignore the `0` flag for strings and byte slices). The left
  zero-padding is a modelling choice, so for such a Modelfile the status digest that `Details`
  and `ControllerProperties.DetailsStatus` give is that choice, not a promise of the source.
- Format.DigestShape: for the same reason, the digest of a Modelfile shorter than 32 bytes is
  stated only as at most 64 characters.
- Headers that net/http adds on the wire are not modelled: a sniffed `Content-Type` for the probe
  bodies, `Content-Length` and `Date`. Only the headers the handlers set are modelled.
- HandlerProperties.ListReturnsEveryRecord: "store order" is an abstraction. The store is a
  sequence that a create appends to, so it lists records in creation order. The real
  cache-backed `client.List` promises no order.
- Nil and empty annotation maps are both the empty map.
- `showResp` is assumed non-nil whenever `Show` returns no error.
- ControllerProperties.PassKeepsStatusValid: this holds only for a daemon whose replies fit the
  schema: listed sizes non-negative, Modelfiles empty or at least 32 bytes, pull errors of at
  most 1024 characters. The controller copies pull errors and listed sizes without checks, and
  a short Modelfile's digest rests on the padding choice above.
  `OverlongPullErrorBreaksSchema` and `OverlongPullErrorLeavesPulling` show what happens
  otherwise, with a store that accepts the write and with one that refuses it.
