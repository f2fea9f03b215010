/**
 * The instrumentation middleware of the ping example: the status-capturing delegator (the last
 * `WriteHeader` wins, 200 when there was none), the bucket default of NewMiddleware and the
 * no-op middleware.
 */
module HttpInstrumentation {
  import opened Wrappers
  import Http
  import Decimal

  /**
   * responseWriterDelegator: forwards everything to `w` and remembers the last status code.
   * `Calls` is every code `WriteHeader` was called with.
   */
  class ResponseWriterDelegator {
    const w: Http.ResponseWriter
    var written: bool
    var statusCode: int
    ghost var Calls: seq<int>

    ghost predicate Valid()
      reads this
    {
      && (written <==> Calls != [])
      && (written ==> statusCode == Calls[|Calls| - 1])
    }

    /** The zero-valued delegator around `w`. */
    constructor (w: Http.ResponseWriter)
      ensures Valid() && this.w == w && !written && statusCode == 0 && Calls == []
    {
      this.w := w;
      written := false;
      statusCode := 0;
      Calls := [];
    }

    /** Header: the wrapped writer's header map. */
    method Header() returns (h: map<string, seq<string>>)
      ensures h == w.header
    {
      h := w.header;
    }

    /** Write: passed to the wrapped writer; the recorded status is untouched. */
    method Write(bytes: seq<Http.byte>) returns (n: int, err: Option<string>)
      requires Valid()
      modifies w
      ensures Valid()
      ensures w.body == old(w.body) + bytes && n == |bytes| && err.None?
      ensures w.statusCalls == old(w.statusCalls) && w.header == old(w.header)
    {
      n, err := w.Write(bytes);
    }

    /** Every call records its code, replacing the previous one, and is forwarded. */
    method WriteHeader(code: int)
      requires Valid()
      modifies this, w
      ensures Valid() && Calls == old(Calls) + [code]
      ensures written && statusCode == code
      ensures w.statusCalls == old(w.statusCalls) + [code]
      ensures w.header == old(w.header) && w.body == old(w.body)
    {
      written := true;
      statusCode := code;
      w.WriteHeader(code);
      Calls := Calls + [code];
    }

    /** The status of the last `WriteHeader`, 200 OK when there was none. */
    function StatusCode(): (code: int)
      reads this
      requires Valid()
      ensures code == if Calls == [] then Http.StatusOK else Calls[|Calls| - 1]
    {
      if !written then Http.StatusOK else statusCode
    }

    /** The status code as decimal text. */
    function Status(): (s: string)
      reads this
      requires Valid()
      ensures Decimal.Parse(s) == StatusCode()
    {
      Decimal.ParseFormat(StatusCode());
      Decimal.Format(StatusCode())
    }
  }

  // ---------------------------------------------------------------------------------------------
  // NewMiddleware.

  /** The default histogram buckets, in seconds. */
  const DefaultBuckets: seq<real> :=
    [0.001, 0.01, 0.1, 0.3, 0.6, 1.0, 3.0, 6.0, 9.0, 20.0, 30.0, 60.0, 90.0, 120.0, 240.0, 360.0, 720.0]

  predicate StrictlyIncreasing(bs: seq<real>) {
    forall i, j | 0 <= i < j < |bs| :: bs[i] < bs[j]
  }

  lemma DefaultBucketsAreValid()
    ensures |DefaultBuckets| == 17 && StrictlyIncreasing(DefaultBuckets)
  {
  }

  /** The middleware's configuration: its buckets, and whether a logger and a tracer were given. */
  datatype Middleware = Middleware(buckets: seq<real>, hasLogger: bool, hasTracer: bool)

  /** NewMiddleware: nil buckets (`None`) become the defaults; any other slice is kept as given. */
  function NewMiddleware(buckets: Option<seq<real>>, hasLogger: bool, hasTracer: bool): (m: Middleware)
    ensures buckets.None? ==> |m.buckets| == 17 && m.buckets[0] == 0.001 && m.buckets[16] == 720.0
    ensures buckets.Some? ==> m.buckets == buckets.value
    ensures StrictlyIncreasing(m.buckets) <==> buckets.None? || StrictlyIncreasing(buckets.value)
    ensures m.hasLogger == hasLogger && m.hasTracer == hasTracer
  {
    DefaultBucketsAreValid();
    Middleware(if buckets.None? then DefaultBuckets else buckets.value, hasLogger, hasTracer)
  }

  // ---------------------------------------------------------------------------------------------
  // The no-op middleware.

  /** An HTTP handler and a request, by identity. */
  datatype Handler = Handler(id: nat)
  datatype Request = Request(id: nat)

  /** One call `handler.ServeHTTP(w, r)`. */
  datatype Invocation = Invocation(handler: Handler, w: Http.ResponseWriter, r: Request)

  /** The handler function nopMiddleware.WrapHandler returns: a closure over the wrapped handler. */
  datatype NopHandlerFunc = NopHandlerFunc(inner: Handler)

  function NopWrapHandler(handlerName: string, handler: Handler): NopHandlerFunc {
    NopHandlerFunc(handler)
  }

  /** The calls one request through the returned handler makes. */
  function Serve(f: NopHandlerFunc, w: Http.ResponseWriter, r: Request): seq<Invocation> {
    [Invocation(f.inner, w, r)]
  }

  /** The wrapped handler is called exactly once, with the same writer and request. */
  lemma NopWrapHandlerCallsOnce(handlerName: string, handler: Handler, w: Http.ResponseWriter, r: Request)
    ensures var calls := Serve(NopWrapHandler(handlerName, handler), w, r);
            |calls| == 1 && calls[0].handler == handler && calls[0].w == w && calls[0].r == r
  {
  }
}
