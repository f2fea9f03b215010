/** The part of net/http that the two status-capturing writers wrap. */
module Http {
  import opened Wrappers

  type byte = b: int | 0 <= b < 256

  /** 200 OK, section 15.3.1 of RFC 9110. */
  const StatusOK: int := 200

  /**
   * An http.ResponseWriter as its wrappers see it: the header map, every status code it was
   * sent (in order) and the body bytes written so far.
   */
  class ResponseWriter {
    var header: map<string, seq<string>>
    var statusCalls: seq<int>
    var body: seq<byte>

    constructor ()
      ensures header == map[] && statusCalls == [] && body == []
    {
      header := map[];
      statusCalls := [];
      body := [];
    }

    method WriteHeader(code: int)
      modifies this
      ensures statusCalls == old(statusCalls) + [code]
      ensures header == old(header) && body == old(body)
    {
      statusCalls := statusCalls + [code];
    }

    method Write(bytes: seq<byte>) returns (n: int, err: Option<string>)
      modifies this
      ensures body == old(body) + bytes && n == |bytes| && err.None?
      ensures header == old(header) && statusCalls == old(statusCalls)
    {
      body := body + bytes;
      n, err := |bytes|, None;
    }
  }
}
