/**
 * The collaborators of the reconciler, as scripted oracles: the OllamaClient
 * interface (Show, Pull, Delete, List) and the two writes it makes to the
 * Kubernetes store (Update, Status().Update). The k-th call of an operation
 * gets the k-th reply of that operation's script. A Session records every
 * call made, in order, and how many calls of each kind came before.
 */
module Env {
  import opened Types

  datatype ShowReply = Shown(modelfile: seq<byte>) | ShowFailed(message: string)

  /** One entry of ListResponse.Models. */
  datatype ListedModel = ListedModel(name: string, size: int64)

  datatype ListReply = Listed(models: seq<ListedModel>) | ListFailed(message: string)

  /** The reply of Pull, Delete, Update and Status().Update: nil, or an error with its text. */
  datatype Reply = Ok | Err(message: string)

  datatype Oracle = Oracle(
    show: nat -> ShowReply,
    pull: nat -> Reply,
    delete: nat -> Reply,
    list: nat -> ListReply,
    update: nat -> Reply,
    statusUpdate: nat -> Reply)

  /** A call to a collaborator. Store writes carry the record as it was sent. */
  datatype Call =
    | Show(model: string)
    | Pull(model: string)
    | Delete(model: string)
    | List
    | Update(record: OllamaModel)
    | StatusUpdate(record: OllamaModel)

  datatype Session = Session(
    trace: seq<Call>,
    shows: nat,
    pulls: nat,
    deletes: nat,
    lists: nat,
    updates: nat,
    statusUpdates: nat)

  const Start := Session([], 0, 0, 0, 0, 0, 0)

  function CallShow(o: Oracle, s: Session, model: string): (ShowReply, Session)
  {
    (o.show(s.shows), s.(trace := s.trace + [Show(model)], shows := s.shows + 1))
  }

  function CallPull(o: Oracle, s: Session, model: string): (Reply, Session)
  {
    (o.pull(s.pulls), s.(trace := s.trace + [Pull(model)], pulls := s.pulls + 1))
  }

  function CallDelete(o: Oracle, s: Session, model: string): (Reply, Session)
  {
    (o.delete(s.deletes), s.(trace := s.trace + [Delete(model)], deletes := s.deletes + 1))
  }

  function CallList(o: Oracle, s: Session): (ListReply, Session)
  {
    (o.list(s.lists), s.(trace := s.trace + [List], lists := s.lists + 1))
  }

  function CallUpdate(o: Oracle, s: Session, m: OllamaModel): (Reply, Session)
  {
    (o.update(s.updates), s.(trace := s.trace + [Update(m)], updates := s.updates + 1))
  }

  function CallStatusUpdate(o: Oracle, s: Session, m: OllamaModel): (Reply, Session)
  {
    (o.statusUpdate(s.statusUpdates),
     s.(trace := s.trace + [StatusUpdate(m)], statusUpdates := s.statusUpdates + 1))
  }

  /** n copies of one call. */
  function Repeat(c: Call, n: nat): (r: seq<Call>)
    ensures |r| == n && forall i :: 0 <= i < n ==> r[i] == c
  {
    if n == 0 then [] else [c] + Repeat(c, n - 1)
  }
}
