/** The part of Go's net/http that the handler touches: method names, status codes, the
    response writer it fills in step by step, and http.Error. */
module Http {
  import opened Wrappers

  newtype Byte = b: int | 0 <= b < 0x100

  const MethodPost := "POST"

  const StatusOK := 200
  const StatusBadRequest := 400
  const StatusUnauthorized := 401
  const StatusMethodNotAllowed := 405
  const StatusInternalServerError := 500
  const StatusGatewayTimeout := 504

  const ContentType := "Content-Type"

  /** A header map; Header().Set replaces every value of a key by one value. */
  type Header = map<string, string>

  /** A JSON document, as far as the handler produces one. */
  datatype Json = JString(text: string) | JObject(members: seq<(string, Json)>)

  /** The value of the member whose name is exactly `name` in the member list of an object the
      handler encodes (the first one, when a name repeats; the objects the handler encodes
      never repeat one). This reads the handler's own output by the names its struct tags give
      the encoder; it is not Go's decoder, which matches names case-insensitively and keeps the
      last of repeated members. */
  function Lookup(members: seq<(string, Json)>, name: string): (r: Option<Json>)
    ensures r.Some? <==> exists i :: 0 <= i < |members| && members[i].0 == name
    ensures r.Some? ==> (name, r.value) in members
  {
    if members == [] then None
    else if members[0].0 == name then Some(members[0].1)
    else Lookup(members[1..], name)
  }

  /** The member called `name` of a JSON object; None for a string or a missing member. */
  function Field(doc: Json, name: string): Option<Json> {
    match doc
    case JObject(members) => Lookup(members, name)
    case JString(_) => None
  }

  /** One write to the response body. */
  datatype Payload =
    | Raw(data: seq<Byte>)     // Write(bytes)
    | TextLine(text: string)   // fmt.Fprintln(w, text): the text and a newline
    | Encoded(doc: Json)       // json.NewEncoder(w).Encode(v): the encoding and a newline

  /** What reaches the client: the status line, the headers sent with it and the body. */
  datatype Response = Response(status: int, header: Header, body: seq<Payload>)

  /** An http.ResponseWriter. The header map can be edited until WriteHeader sends it; the
      first WriteHeader fixes the status and the headers, later ones are superfluous and
      ignored; Write sends an implicit WriteHeader(200) first when none was sent. */
  class ResponseWriter {
    var header: Header
    var wroteHeader: bool
    var status: int
    var sentHeader: Header
    var body: seq<Payload>
    /** How many times WriteHeader ran, superfluous calls included. */
    ghost var headerWrites: nat

    /** Nothing has been set or written yet: the writer a handler receives. */
    ghost predicate Unused()
      reads this
    {
      header == map[] && !wroteHeader && body == [] && headerWrites == 0
    }

    constructor ()
      ensures Unused()
    {
      header, wroteHeader, status, sentHeader, body := map[], false, 0, map[], [];
      headerWrites := 0;
    }

    /** The response the client sees once the handler returns; a handler that never wrote
        the header gets status 200 with the headers set so far. */
    function Sent(): Response
      reads this
    {
      if wroteHeader then Response(status, sentHeader, body) else Response(StatusOK, header, body)
    }

    /** Header().Set(key, value). */
    method Set(key: string, value: string)
      modifies this`header
      ensures header == old(header)[key := value]
    {
      header := header[key := value];
    }

    method WriteHeader(code: int)
      modifies this`wroteHeader, this`status, this`sentHeader, this`headerWrites
      ensures wroteHeader && headerWrites == old(headerWrites) + 1
      ensures old(wroteHeader) ==> status == old(status) && sentHeader == old(sentHeader)
      ensures !old(wroteHeader) ==> status == code && sentHeader == header
    {
      if !wroteHeader {
        wroteHeader, status, sentHeader := true, code, header;
      }
      headerWrites := headerWrites + 1;
    }

    method Write(p: Payload)
      modifies this`wroteHeader, this`status, this`sentHeader, this`headerWrites, this`body
      ensures wroteHeader && body == old(body) + [p]
      ensures old(wroteHeader) ==>
        status == old(status) && sentHeader == old(sentHeader) && headerWrites == old(headerWrites)
      ensures !old(wroteHeader) ==>
        status == StatusOK && sentHeader == header && headerWrites == old(headerWrites) + 1
    {
      if !wroteHeader {
        WriteHeader(StatusOK);
      }
      body := body + [p];
    }
  }

  const PlainText := "text/plain; charset=utf-8"

  /** http.Error: a plain-text reply holding `error` and a newline, with status `code`. */
  method Error(w: ResponseWriter, error: string, code: int)
    modifies w
    ensures w.header == old(w.header)[ContentType := PlainText]
    ensures w.body == old(w.body) + [TextLine(error)]
    ensures w.wroteHeader && w.headerWrites == old(w.headerWrites) + 1
    ensures old(w.wroteHeader) ==> w.status == old(w.status) && w.sentHeader == old(w.sentHeader)
    ensures !old(w.wroteHeader) ==> w.status == code && w.sentHeader == w.header
  {
    w.Set(ContentType, PlainText);
    w.WriteHeader(code);
    w.Write(TextLine(error));
  }
}
