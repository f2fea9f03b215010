/**
 * The Thanos UI recogniser `thanosSource.ParseRequestFromURL`: given a link into the Thanos
 * query UI, decide whether it is one of ours, derive the time window from `g0.range_input` and
 * collect one metric request per selector of the `g0.expr` query. The PromQL parser and
 * `model.ParseDuration` are parameters; the clock is the parameter `now`.
 */
module Thanos {
  import opened Wrappers
  import opened PromQL

  /** The configured endpoints of the Thanos source. */
  datatype ThanosSource = ThanosSource(internalEndpoint: string, externalEndpoint: string)

  /** A parsed URL as the recogniser reads it: host name, port (empty when the URL has none) and
      the query parameters with all their values. Hosts that are IPv6 literals are not modelled. */
  datatype Url = Url(hostname: string, port: string, query: map<string, seq<string>>)

  /** url.URL.Host: the host name, followed by ":port" when there is a port. */
  function Host(u: Url): string {
    if u.port == "" then u.hostname else u.hostname + ":" + u.port
  }

  /** url.Values.Get: the first value of the parameter, or "" when it has none. */
  function QueryGet(u: Url, key: string): string {
    if key in u.query && |u.query[key]| > 0 then u.query[key][0] else ""
  }

  /** net.JoinHostPort: a host containing ':' is put in brackets before ":port" is added. */
  function JoinHostPort(host: string, port: string): string {
    if ':' in host then "[" + host + "]:" + port else host + ":" + port
  }

  // ---------------------------------------------------------------------------------------------
  // Finding 1: the endpoint accessors call themselves.

  /**
   * `InternalEndpoint()` / `ExternalEndpoint()` as written: each call only makes the same call
   * again. With any budget of nested calls no value comes back.
   */
  function EndpointAccessorAsWritten(s: ThanosSource, depth: nat): Option<string> {
    if depth == 0 then None else EndpointAccessorAsWritten(s, depth - 1)
  }

  lemma {:induction false} EndpointAccessorNeverReturns(s: ThanosSource, depth: nat)
    ensures EndpointAccessorAsWritten(s, depth) == None
  {
    if depth > 0 {
      EndpointAccessorNeverReturns(s, depth - 1);
    }
  }

  /** The evidently intended accessors: the configured values. */
  function InternalEndpoint(s: ThanosSource): string {
    s.internalEndpoint
  }

  function ExternalEndpoint(s: ThanosSource): string {
    s.externalEndpoint
  }

  // ---------------------------------------------------------------------------------------------
  // Finding 2: `JoinHostPort(u.Host, u.Port())` repeats the port.

  /** The key compared with the endpoints, as written: `u.Host` already holds the port. */
  function EndpointKeyAsWritten(u: Url): string {
    JoinHostPort(Host(u), u.port)
  }

  lemma EndpointKeyAsWrittenRepeatsPort(u: Url)
    requires u.port != "" && ':' !in u.hostname
    ensures EndpointKeyAsWritten(u) == "[" + u.hostname + ":" + u.port + "]:" + u.port
    ensures EndpointKeyAsWritten(u) != Host(u)
  {
    assert Host(u)[|u.hostname|] == ':';
  }

  /** Concretely: a link to localhost:9090 is never recognised as the endpoint "localhost:9090". */
  lemma EndpointKeyAsWrittenMissesOwnEndpoint()
    ensures var u := Url("localhost", "9090", map[]);
            var s := ThanosSource("localhost:9090", "localhost:9090");
            && EndpointKeyAsWritten(u) == "[localhost:9090]:9090"
            && InternalEndpoint(s) != EndpointKeyAsWritten(u) && ExternalEndpoint(s) != EndpointKeyAsWritten(u)
            && IsOwnEndpoint(s, u)
  {
    var u := Url("localhost", "9090", map[]);
    EndpointKeyAsWrittenRepeatsPort(u);
    EndpointKeyIsHostPort(u);
  }

  /** The evidently intended key: host name and port, `net.JoinHostPort(u.Hostname(), u.Port())`. */
  function EndpointKey(u: Url): string {
    JoinHostPort(u.hostname, u.port)
  }

  /** For a URL with a port, the intended key is the URL's own "host:port". */
  lemma EndpointKeyIsHostPort(u: Url)
    requires u.port != "" && ':' !in u.hostname
    ensures EndpointKey(u) == Host(u)
  {
  }

  // ---------------------------------------------------------------------------------------------
  // Time window.

  datatype Window = Window(start: int, end: int)

  /** Nanoseconds, the unit of Go's time.Duration. */
  const Minute: int := 60_000_000_000

  /** The window assumed when the link gives no range. */
  const DefaultRange: int := 30 * Minute

  datatype ThanosError =
    | NothingQueried
    | ParseExprError(expr: string, cause: string)
    | RangeInputError(rangeInput: string, cause: string)
    | NotImplemented

  function Message(e: ThanosError): string {
    match e
    case NothingQueried => "Can't deduce much, nothing was queried!"
    case ParseExprError(expr, cause) => "parse g0.expr " + expr + ": " + cause
    case RangeInputError(rangeInput, cause) => "parse g0.range_input " + rangeInput + ": " + cause
    case NotImplemented => "not implemented"
  }

  /** The window of a link: the last `g0.range_input` up to now, thirty minutes without one. */
  function UIWindow(rangeInput: string, now: int, parseDuration: string -> Result<nat, string>): (r: Result<Window, ThanosError>)
    ensures r.Err? <==> rangeInput != "" && parseDuration(rangeInput).Err?
    ensures r.Err? ==> r.error == RangeInputError(rangeInput, parseDuration(rangeInput).error)
    ensures r.Ok? ==> r.value.end == now
    ensures r.Ok? && rangeInput == "" ==> r.value.start == now - DefaultRange
    ensures r.Ok? && rangeInput != "" ==> r.value.start == now - parseDuration(rangeInput).value
  {
    if rangeInput == "" then Ok(Window(now - DefaultRange, now))
    else
      match parseDuration(rangeInput)
      case Err(cause) => Err(RangeInputError(rangeInput, cause))
      case Ok(d) => Ok(Window(now - d, now))
  }

  // ---------------------------------------------------------------------------------------------
  // Selector collection.

  datatype MetricRequest = MetricRequest(matchers: seq<Matcher>, startTime: int, endTime: int)

  /** thanosUIRequest. */
  datatype UIRequest = UIRequest(selects: seq<MetricRequest>)

  /**
   * The matchers the Inspect callback records for `nodes`, in order: those of a vector selector,
   * and those of a matrix selector's inner vector selector.
   */
  function SelectorMatchers(nodes: seq<Expr>): seq<seq<Matcher>> {
    if nodes == [] then []
    else
      (if nodes[0].VectorSelector? || nodes[0].MatrixSelector? then [nodes[0].sel.matchers] else []) +
      SelectorMatchers(nodes[1..])
  }

  lemma {:induction false} SelectorMatchersAppend(a: seq<Expr>, b: seq<Expr>)
    ensures SelectorMatchers(a + b) == SelectorMatchers(a) + SelectorMatchers(b)
  {
    if a == [] {
      assert a + b == b;
    } else {
      assert (a + b)[0] == a[0] && (a + b)[1..] == a[1..] + b;
      SelectorMatchersAppend(a[1..], b);
    }
  }

  /**
   * The Inspect callback: visited in pre-order, every vector or matrix selector node adds one
   * request with its matchers and the shared window; other nodes add nothing.
   */
  method CollectSelects(e: Expr, w: Window) returns (selects: seq<MetricRequest>)
    ensures var groups := SelectorMatchers(PreOrder(e));
            |selects| == |groups| &&
            forall i | 0 <= i < |selects| :: selects[i] == MetricRequest(groups[i], w.start, w.end)
  {
    var nodes := PreOrder(e);
    selects := [];
    for i := 0 to |nodes|
      invariant var groups := SelectorMatchers(nodes[..i]);
                |selects| == |groups| &&
                forall j | 0 <= j < |selects| :: selects[j] == MetricRequest(groups[j], w.start, w.end)
    {
      assert nodes[..i + 1] == nodes[..i] + [nodes[i]];
      SelectorMatchersAppend(nodes[..i], [nodes[i]]);
      match nodes[i]
      case VectorSelector(vs) =>
        selects := selects + [MetricRequest(vs.matchers, w.start, w.end)];
      case MatrixSelector(vs, _) =>
        selects := selects + [MetricRequest(vs.matchers, w.start, w.end)];
      case Operation(_, _) =>
    }
    assert nodes[..|nodes|] == nodes;
  }

  lemma {:induction false} SelectorMatchersStrip(nodes: seq<Expr>)
    ensures SelectorMatchers(StripAll(nodes)) == SelectorMatchers(nodes)
  {
    if nodes != [] {
      var s := StripAll(nodes);
      assert s[0] == StripModifiers(nodes[0]) && s[1..] == StripAll(nodes[1..]);
      SelectorMatchersStrip(nodes[1..]);
    }
  }

  /** `offset` and `@` modifiers change nothing in the collected matcher groups. */
  lemma ModifiersIgnored(e: Expr)
    ensures SelectorMatchers(PreOrder(StripModifiers(e))) == SelectorMatchers(PreOrder(e))
  {
    PreOrderStrip(e);
    SelectorMatchersStrip(PreOrder(e));
  }

  /** A matrix selector is visited together with its inner vector selector: two identical groups. */
  lemma MatrixSelectorCollectedTwice(s: Selector, range: nat)
    ensures SelectorMatchers(PreOrder(MatrixSelector(s, range))) == [s.matchers, s.matchers]
  {
    var nodes := [MatrixSelector(s, range), VectorSelector(s)];
    assert PreOrder(MatrixSelector(s, range)) == nodes;
    assert nodes[1..] == [VectorSelector(s)] && nodes[1..][1..] == [];
    assert SelectorMatchers(nodes[1..]) == [s.matchers] + SelectorMatchers([]);
  }

  /** Without matrix selectors the recogniser collects exactly the groups of parser.ExtractSelectors. */
  lemma {:induction false} NoMatrixMeansExtractSelectors(nodes: seq<Expr>)
    requires forall i | 0 <= i < |nodes| :: !nodes[i].MatrixSelector?
    ensures SelectorMatchers(nodes) == VectorMatchers(nodes)
  {
    if nodes != [] {
      NoMatrixMeansExtractSelectors(nodes[1..]);
      VectorMatchersAppend([nodes[0]], nodes[1..]);
      assert [nodes[0]] + nodes[1..] == nodes;
      assert [nodes[0]][..0] == [];
    }
  }

  // ---------------------------------------------------------------------------------------------
  // The recogniser.

  /** The link points at this Thanos (its internal or external endpoint). */
  predicate IsOwnEndpoint(s: ThanosSource, u: Url) {
    InternalEndpoint(s) == EndpointKey(u) || ExternalEndpoint(s) == EndpointKey(u)
  }

  /**
   * ParseRequestFromURL. Returns (request, recognised, error): no request ever; with no `g0.expr`
   * the link is recognised, with an error, exactly when it points at this Thanos; a query that does
   * not parse or a range that does not parse is recognised with an error; otherwise the selects
   * are collected (`collected`) and dropped, and the answer is "not implemented".
   */
  method ParseRequestFromURL(s: ThanosSource, u: Url, now: int, parse: string -> Result<Expr, string>,
                             parseDuration: string -> Result<nat, string>)
    returns (request: Option<UIRequest>, recognized: bool, err: Option<ThanosError>, ghost collected: seq<MetricRequest>)
    ensures request.None?
    ensures var expr := QueryGet(u, "g0.expr");
            expr == "" ==> (recognized <==> IsOwnEndpoint(s, u)) && err == (if recognized then Some(NothingQueried) else None)
    ensures var expr := QueryGet(u, "g0.expr");
            expr != "" && parse(expr).Err? ==> recognized && err == Some(ParseExprError(expr, parse(expr).error))
    ensures var expr := QueryGet(u, "g0.expr");
            var window := UIWindow(QueryGet(u, "g0.range_input"), now, parseDuration);
            expr != "" && parse(expr).Ok? ==>
              if window.Err? then recognized && err == Some(window.error)
              else
                && !recognized && err == Some(NotImplemented)
                && var groups := SelectorMatchers(PreOrder(parse(expr).value));
                   |collected| == |groups| &&
                   forall i | 0 <= i < |collected| ::
                     collected[i] == MetricRequest(groups[i], window.value.start, window.value.end)
  {
    collected := [];
    var expr := QueryGet(u, "g0.expr");
    if expr == "" {
      var endpoint := EndpointKey(u);
      if InternalEndpoint(s) == endpoint || ExternalEndpoint(s) == endpoint {
        return None, true, Some(NothingQueried), collected;
      }
      return None, false, None, collected;
    }

    var parsed := parse(expr);
    if parsed.Err? {
      return None, true, Some(ParseExprError(expr, parsed.error)), collected;
    }

    var window: Option<Window> := None;
    var rangeInput := QueryGet(u, "g0.range_input");
    if rangeInput != "" {
      var d := parseDuration(rangeInput);
      if d.Err? {
        return None, true, Some(RangeInputError(rangeInput, d.error)), collected;
      }
      window := Some(Window(now - d.value, now));
    }
    if window.None? {
      window := Some(Window(now - DefaultRange, now));
    }

    var selects := CollectSelects(parsed.value, window.value);
    collected := selects;
    return None, false, Some(NotImplemented), collected;
  }
}
