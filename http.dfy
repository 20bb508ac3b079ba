/**
 * The part of net/http's ResponseWriter the server relies on: a header map,
 * the status line and the body. The first WriteHeader fixes the status; a
 * Write before any WriteHeader sends 200; later WriteHeader calls and header
 * changes after the status line are without effect on the response.
 */
module Http {
  import opened Wrappers
  import Json

  datatype Payload = Document(doc: Json.JsonValue) | Text(text: string)

  class Writer {
    var header: map<string, string>
    var status: Option<int>
    var body: seq<Payload>

    constructor ()
      ensures header == map[] && status == None && body == []
    {
      header := map[];
      status := None;
      body := [];
    }

    /** The status the client sees. */
    function Code(): int
      reads this
    {
      if status.Some? then status.value else 200
    }

    /** Header().Set. */
    method SetHeader(key: string, value: string)
      modifies this
      ensures header == (if old(status).None? then old(header)[key := value] else old(header))
      ensures status == old(status) && body == old(body)
    {
      if status.None? {
        header := header[key := value];
      }
    }

    method WriteHeader(code: int)
      modifies this
      ensures status == (if old(status).None? then Some(code) else old(status))
      ensures header == old(header) && body == old(body)
    {
      if status.None? {
        status := Some(code);
      }
    }

    method Write(p: Payload)
      modifies this
      ensures status == (if old(status).None? then Some(200) else old(status))
      ensures body == old(body) + [p]
      ensures header == old(header)
    {
      if status.None? {
        status := Some(200);
      }
      body := body + [p];
    }
  }
}
