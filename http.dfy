/** The slice of net/http the handlers touch: the query parameters of a request
    and the status line and body written to the response. */
module Http {
  import opened Base
  import opened Types

  /** url.Values: each parameter name with the values given for it, in order. */
  type Values = map<string, seq<string>>

  /** url.Values.Get: the first value given for `key`, or "" when there is none. */
  function Get(query: Values, key: string): string
  {
    if key in query && |query[key]| > 0 then query[key][0] else ""
  }

  const StatusOK := 200
  const StatusCreated := 201
  const StatusBadRequest := 400

  /** What a handler writes after the status line: plain text (from http.Error)
      or the JSON encoding of a list of persons. */
  datatype BodyPart = Text(text: string) | Json(persons: seq<Person>)

  /** An http.ResponseWriter, seen from the client: the status line once it is
      committed, and the body written so far. */
  class ResponseWriter {
    var status: Option<int>
    var body: seq<BodyPart>

    constructor ()
      ensures status == None && body == []
    {
      status := None;
      body := [];
    }

    /** The first call commits the status; a later one is superfluous and ignored. */
    method WriteHeader(code: int)
      modifies this
      ensures status == if old(status).None? then Some(code) else old(status)
      ensures body == old(body)
    {
      if status.None? {
        status := Some(code);
      }
    }

    /** http.Error: writes the status and then the message on a line of its own. */
    method Error(message: string, code: int)
      modifies this
      ensures status == if old(status).None? then Some(code) else old(status)
      ensures body == old(body) + [Text(message + "\n")]
    {
      WriteHeader(code);
      body := body + [Text(message + "\n")];
    }

    /** json.NewEncoder(w).Encode(persons): a write before any status commits 200. */
    method Encode(persons: seq<Person>)
      modifies this
      ensures status == if old(status).None? then Some(StatusOK) else old(status)
      ensures body == old(body) + [Json(persons)]
    {
      WriteHeader(StatusOK);
      body := body + [Json(persons)];
    }
  }
}
