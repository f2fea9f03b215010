# correlator, modelled in Dafny

`correlator` takes the name of a firing Prometheus alert and explains it. It asks a Thanos
querier for its alerting rules and finds the first alerting rule with that name. It parses the
rule's PromQL query and takes the matchers of its first selector. When exemplars are wanted, it
fetches the exemplars of the last five minutes and picks the first series those matchers do not
contradict. That series' first exemplar gives a trace id, the "pivot". The result is two lists:
discoveries (human-readable findings) and correlations. A correlation is a link into Thanos, Loki
(through Grafana), Jaeger or Parca. With a pivot, the logs, trace and experimental profiles links
point at that one request. Without one, the logs and profiles links point at the alert's job, and
the Jaeger search link has a fixed time window and the fixed service `demo:ping`.

The repository also has a recogniser for Thanos UI links, `ParseRequestFromURL`. It is modelled
here too. So are the HTTP helpers of the `ping` example service:
- the status-capturing writer of its logging middleware, where the first `WriteHeader` wins;
- the logging decision tables and the dispatch on a decision;
- the status-capturing delegator of its instrumentation middleware, where the last `WriteHeader`
  wins and the default is 200;
- the default histogram buckets;
- the no-op middleware.

Layout:
- `wrappers.dfy` holds `Option` and `Result`.
- `strings.dfy` and `decimal.dfy` hold the string helpers the code uses and `%v`/`%d` of an
  integer, with its inverse.
- `promql.dfy` holds label matchers, the abstract PromQL tree, its pre-order walk and
  `ExtractSelectors`.
- `correlator.dfy` holds `Correlate` (pkg/correlator/correlator.go).
- `thanos.dfy` holds the Thanos UI link recogniser (pkg/correlator/thanos.go).
- `http.dfy` holds the underlying `http.ResponseWriter`.
- `logging.dfy` models examples/observability/ping/pkg/logging/http.go.
- `instrumentation.dfy` models examples/observability/ping/pkg/httpinstrumentation/instrument_server.go.

Code the model cannot see is passed in as a function value, not modelled:
- the PromQL parser;
- regular-expression matching;
- `Matcher.String`, `url.QueryEscape`, `%v` of a label set;
- `model.ParseDuration`.

The Thanos client's answers are passed in as data:
- the client construction error;
- the result of the rules call;
- the exemplar query, as a function of (query, start, end).

The clock (`time.Now()`) is an integer parameter `now`, in nanoseconds.

`Correlate` and `ParseRequestFromURL` are methods that follow the Go code step by step: labelled
loops, `break`/`continue`, appending to slices. One exception: `ParseRequestFromURL` uses the
corrected endpoint accessors and the corrected endpoint key of "## Findings", not thanos.go:27-33
and thanos.go:44 as written. Each method is proved equal to a specification function
(`CorrelateSpec`, `FindAlert`, `SelectedSeries`, `MetricsQueryOf`, `SelectorMatchers`). The
properties are then proved as lemmas about those functions. The two writers are classes whose
fields the methods update. A ghost history `Calls` of every `WriteHeader` lets their `StatusCode`
be stated as "the first call's code" and "the last call's code, or 200".

## Model

| member | source | states |
|---|---|---|
| Correlator.Correlate | pkg/correlator/correlator.go:49-235 | On error the discoveries and correlations are empty. Otherwise the result is exactly `CorrelateSpec`: the whole pipeline of error checks, rule lookup, selector extraction, exemplar choice, discoveries and links. |
| Correlator.EmptyAlertNameFails | pkg/correlator/correlator.go:52-54 | An empty alert name fails with "not enough information", whatever the backend answers. |
| Correlator.FindFiringAlert | pkg/correlator/correlator.go:71-86 | The labelled group/rule loop returns the same verdict as scanning the flattened rule list. |
| Correlator.FindInRulesIsFirstMatch | pkg/correlator/correlator.go:71-86 | The lookup is NotFound iff no alerting rule has the name. Otherwise it is the verdict on the first alerting rule with the name: its first alert, or "no longer fires" when it has none. Recording rules are skipped. |
| Correlator.FindInRulesAppend | pkg/correlator/correlator.go:71-86 | Scanning a concatenation scans the second part only when the first found nothing. A later rule with the same name is never consulted. |
| Correlator.FindAlertScansAllRules | pkg/correlator/correlator.go:71-86 | Scanning group by group is scanning all rules in group-then-rule order. |
| Correlator.NoLongerFiresWhenFirstMatchHasNoAlerts | pkg/correlator/correlator.go:76-79 | When the first alerting rule with the name has no alerts, `Correlate` fails with "requested alert no longer fires", even if a later rule with the name fires. |
| Correlator.ResolvedRuleIsFirstMatch | pkg/correlator/correlator.go:71-86 | A successful run uses the first alert of the first alerting rule with the name. |
| Correlator.ResolvedMatchersAreFirstGroup | pkg/correlator/correlator.go:97-107 | A successful run parsed the rule query, found at least one selector, and uses the matchers of the first one. |
| Correlator.ResolvedSeries | pkg/correlator/correlator.go:109-158 | With exemplars ignored, the series is the zero value and there is no pivot. Otherwise the exemplar query over [now - 5m, now] succeeded and the series is the first qualifying one. |
| Correlator.FirstQualifying | pkg/correlator/correlator.go:123-141 | The index is the first series that no matcher contradicts. A matcher whose label the series lacks is skipped. It is None iff no series qualifies. |
| Correlator.SelectExemplarSeries | pkg/correlator/correlator.go:123-141 | The loop with its `match` flag, `break` and `continue` selects the first qualifying series, or the zero series. |
| Correlator.AbsentMatcherKeepsSelection | pkg/correlator/correlator.go:126-129 | Adding a matcher on a label the chosen series does not have never changes the choice. |
| Correlator.ExtraMatchersExcludeOnlyByContradiction | pkg/correlator/correlator.go:125-134 | A qualifying series is excluded by extra matchers iff one of them names a label it has and does not match that value. |
| Correlator.ContradictedSeriesGiveNoPivot | pkg/correlator/correlator.go:135-149 | When every series is contradicted, the zero series is chosen and the pivot id is empty. |
| Correlator.MetricsQuery | pkg/correlator/correlator.go:163-175 | The two loops build `{m1,...,mn}`, wrapped in `rate(...[1m])` once per `__name__` matcher whose value ends in `_total`. |
| Correlator.PlainSelectorQuery | pkg/correlator/correlator.go:168-175 | Without a counter matcher the query is the bare selector `{...}` with the matchers joined by ",". |
| Correlator.RateWrappedStep | pkg/correlator/correlator.go:169-175 | Each counter matcher adds one more `rate(` ... `[1m])` layer around the query built so far. |
| Correlator.BuildCorrelations | pkg/correlator/correlator.go:177-234 | The appends and the early return produce exactly `Correlations`. |
| Correlator.CorrelationsShape | pkg/correlator/correlator.go:177-234 | The metrics view comes first. With a pivot there are five links: logs, `/trace/<id>`, profiles, experimental profiles. Without one there are four: logs, trace search, profiles. No entry carries an error. |
| Correlator.PivotLinksEmbedId | pkg/correlator/correlator.go:187-213 | With a pivot, the logs, trace and experimental-profiles URLs contain the trace id verbatim. |
| Correlator.DiscoveriesShape | pkg/correlator/correlator.go:90-155 | The firing message is always first. A second discovery, containing the id, appears iff the first exemplar has a non-empty `traceID`. |
| Correlator.ExemplarAbsenceNeverFails | pkg/correlator/correlator.go:111-158 | With exemplars enabled, ending without a trace id never fails the call. That covers no series returned, none qualifying, no exemplars, or no `traceID`. The result is one discovery and the four links without a pivot. |
| Correlator.NoQualifyingSeriesNeverFails | pkg/correlator/correlator.go:118-144 | With exemplars enabled, when no returned series qualifies, the call succeeds with one discovery and four links. |
| Correlator.IgnoreExemplarGivesNoPivot | pkg/correlator/correlator.go:111-234 | With exemplars ignored, a successful run gives one discovery and four links. |
| PromQL.NegatedMatchers | pkg/correlator/correlator.go:130 | `!=` and `!~` are the negations of `=` and `=~`; `=` is string equality. |
| PromQL.PreOrder | pkg/correlator/correlator.go:101 | The walk used by `ExtractSelectors` and `Inspect` starts at the node itself. |
| PromQL.VectorMatchersAppend | pkg/correlator/correlator.go:101 | Selector extraction over a concatenation of nodes is the concatenation of the extractions. |
| PromQL.MatrixSelectorGroups | pkg/correlator/correlator.go:101 | A range selector yields its matchers once, through its inner vector selector. |
| PromQL.PreOrderStrip | pkg/correlator/thanos.go:83-103 | Dropping every `@`/offset modifier changes the walk only node by node, not its shape. |
| Thanos.UIWindow | pkg/correlator/thanos.go:56-75 | `g0.range_input` fails iff it is set and does not parse. The window ends now. It starts one range before now, or 30 minutes before when no range is set. |
| Thanos.CollectSelects | pkg/correlator/thanos.go:80-111 | In pre-order, one request per vector or matrix selector node, carrying its matchers and the shared window. |
| Thanos.ModifiersIgnored | pkg/correlator/thanos.go:83-103 | `@`, `start()`/`end()` and offsets have no effect on the collected matchers. |
| Thanos.MatrixSelectorCollectedTwice | pkg/correlator/thanos.go:80-108 | A range selector contributes two requests: one for the matrix node and one for its inner vector selector. |
| Thanos.NoMatrixMeansExtractSelectors | pkg/correlator/thanos.go:80-108 | Without range selectors, the collected groups are exactly `ExtractSelectors`. |
| Thanos.ParseRequestFromURL | pkg/correlator/thanos.go:40-117 | No request is ever returned. Without `g0.expr` the link is recognised, with "nothing was queried", iff it points at this Thanos. A query or range that does not parse is recognised with that error. Otherwise the selects are collected and dropped, and the answer is unrecognised with "not implemented". The endpoint comparison uses the corrected accessors and key of "## Findings", not lines 27-33 and 44 as written. |
| Thanos.EndpointAccessorNeverReturns | pkg/correlator/thanos.go:27-33 | As written, each endpoint accessor calls itself and never returns, however deep the call budget. |
| Thanos.EndpointKeyAsWrittenRepeatsPort | pkg/correlator/thanos.go:44 | As written, the endpoint key of `host:port` is `[host:port]:port`, never the host. |
| Thanos.EndpointKeyAsWrittenMissesOwnEndpoint | pkg/correlator/thanos.go:44-48 | As written, a link to `localhost:9090` is compared as `[localhost:9090]:9090`. So it misses a Thanos whose endpoints are `localhost:9090`, which the corrected key does match. |
| Thanos.EndpointKeyIsHostPort | pkg/correlator/thanos.go:44 | The corrected key `JoinHostPort(hostname, port)` is the URL's `host:port`. |
| Logging.ResponseWriterWithStatus.WriteHeader | examples/observability/ping/pkg/logging/http.go:41-48 | The first call records the code and forwards it. Later calls change nothing. Since wrapping, the wrapped writer has received exactly the first call's code (`ForwardsFirst`). |
| Logging.ResponseWriterWithStatus.StatusCode | examples/observability/ping/pkg/logging/http.go:36-39 | The code of the first `WriteHeader`, or 0 when there was none. |
| Logging.ResponseWriterWithStatus.Status | examples/observability/ping/pkg/logging/http.go:31-34 | The decimal text of the status code; parsing it gives `StatusCode()` back. |
| Logging.ResponseWriterWithStatus.Wrap | examples/observability/ping/pkg/logging/http.go:26-29 | A fresh wrapper: status 0, header not yet written, nothing forwarded yet. |
| Logging.GetHTTPLoggingOption | examples/observability/ping/pkg/logging/http.go:120-132 | The decision is one of the three named ones. It logs the start iff asked and the finish iff asked. Start without finish is an error, "log start call is not supported". |
| Logging.LoggingOptionRoundTrip | examples/observability/ping/pkg/logging/http.go:120-132 | Each of the three named decisions is what the table gives for its own flags. |
| Logging.GetLevel | examples/observability/ping/pkg/logging/http.go:134-148 | "INFO", "DEBUG", "WARN" and "ERROR" select their filter. Every other string allows all. |
| Logging.LevelRoundTrip | examples/observability/ping/pkg/logging/http.go:134-148 | The name of each level filter maps back to that filter. |
| Logging.LowerCaseLevelsAllowAll | examples/observability/ping/pkg/logging/http.go:136-147 | The names are case-sensitive: "info" and the like allow all. |
| Logging.DispatchOrder | examples/observability/ping/pkg/logging/http.go:95-107 | The start log comes first and the finish log last. Each exists iff the decision asks for it. A named decision calls the next handler once; any other value never calls it. `NoLogCall` gives the next handler the original writer, and the two logging decisions give it the wrapper. |
| Logging.HTTPMiddlewareServe | examples/observability/ping/pkg/logging/http.go:68-109 | A bad host:port serves the original writer without logging. Otherwise it does the steps of the decision. On the original writer every status code the handler writes reaches `w`. Through the wrapper only the first reaches `w`, and the finish log reports it (0 when there was none). Any other decision value writes nothing. |
| Logging.ServeWrapped | examples/observability/ping/pkg/logging/http.go:41-48 | A handler's sequence of `WriteHeader` calls through a fresh wrapper passes only the first code to the wrapped writer, and the wrapper reports that code. |
| HttpInstrumentation.ResponseWriterDelegator.WriteHeader | examples/observability/ping/pkg/httpinstrumentation/instrument_server.go:160-164 | Every call records its code, replacing the previous one, and is forwarded. |
| HttpInstrumentation.ResponseWriterDelegator.StatusCode | examples/observability/ping/pkg/httpinstrumentation/instrument_server.go:166-171 | The code of the last `WriteHeader`, or 200 when there was none. |
| HttpInstrumentation.ResponseWriterDelegator.Status | examples/observability/ping/pkg/httpinstrumentation/instrument_server.go:173-175 | The decimal text of the status code; parsing it gives `StatusCode()` back. |
| HttpInstrumentation.ResponseWriterDelegator.Header | examples/observability/ping/pkg/httpinstrumentation/instrument_server.go:152-154 | The wrapped writer's header map. |
| HttpInstrumentation.ResponseWriterDelegator.Write | examples/observability/ping/pkg/httpinstrumentation/instrument_server.go:156-158 | The bytes reach the wrapped writer. The recorded status is untouched. |
| HttpInstrumentation.NewMiddleware | examples/observability/ping/pkg/httpinstrumentation/instrument_server.go:51-59 | Nil buckets become the 17 defaults from 0.001 s to 720 s; other buckets are kept. The result is strictly increasing iff the given buckets are, or were nil. |
| HttpInstrumentation.DefaultBucketsAreValid | examples/observability/ping/pkg/httpinstrumentation/instrument_server.go:55 | There are 17 default buckets, strictly increasing. |
| HttpInstrumentation.NopWrapHandlerCallsOnce | examples/observability/ping/pkg/httpinstrumentation/instrument_server.go:30-36 | The no-op wrapper calls the wrapped handler exactly once, with the same writer and request. |
| Decimal.ParseFormat | examples/observability/ping/pkg/httpinstrumentation/instrument_server.go:174 | Formatting an integer in decimal and parsing it back is the identity. |

## Left out

- The HTTP calls to Thanos (`api.NewClient`, `Rules`, `QueryExemplars`) are not modelled as calls. Their results are inputs, and a failure is an input error. The context and its cancellation are left out.
- Correlator.Correlate: requires that the rule lookup does not come up empty, that is, some alerting rule has the name. Otherwise the Go code dereferences a nil alert at correlator.go:88 and panics. A panic has no model; the function cannot be called on such inputs.
- The PromQL parser, regular expressions, `Matcher.String`, `url.QueryEscape`, `%v` of a label set and `model.ParseDuration` are parameters. Their own behaviour is not modelled.
- PromQL.PreOrder: assumes the parser's tree shape, where a range selector's only child is its inner vector selector. Other node kinds are collapsed into one `Operation` node with children.
- Logging and tracing calls (`level.Debug(...).Log`, `preCall`, `postCall` output, the duration in `postCall`) are left out. Only whether, and in what order, they happen is modelled.
- The `lbl` label set at correlator.go:92-95 is left out. It is computed and never used.
- Configuration parsing, the `Correlator`/`thanosSource` constructors, the HTTP and CLI front ends, the demo services and the Prometheus metric wiring of `middleware.WrapHandler` are outside this model.
- Logging.HTTPMiddlewareServe: the check that the host contains ':' and `net.SplitHostPort` are folded into one input, "splitting fails". The decider (`shouldLog`) and its URL argument are an input decision.
- Http.ResponseWriter.Write: the underlying writer always accepts the bytes. The implicit `WriteHeader(200)` that a real writer does on a first `Write` is not recorded in `statusCalls`. The first-wins wrapper's `Write` is the embedded writer's own (http.go:20-24), so in Go, as here, the wrapper does not see that status.
- HttpInstrumentation.NewMiddleware: the registerer, logger and tracer are kept only as "given or not".
- Thanos.JoinHostPort: IPv6-literal hosts in URLs (`[::1]:9090`) are not modelled. The bracketing of a host that contains ':' is modelled.
- Times are integers in nanoseconds. Wall-clock and monotonic time and time zones are left out.
- Correlator.Correlate: correlator.go:113 reads the clock twice, once for the start and once for the end of the exemplar window. The model uses one `now` for both, so the window is exactly five minutes long.
- Other behaviour of the code that the model keeps as it is:
  - An alert name that no alerting rule has makes the code dereference a nil alert (correlator.go:88). There is no not-found error.
  - Without a pivot the code returns four links.
  - The trace id and job label are put into URLs without percent-encoding.
  - With a pivot, the Loki link and the experimental Parca link use the exemplar series' `job` label (correlator.go:193, 212). The other profiles link and the links without a pivot use the alert's `job` label.
  - The Loki query uses the label name `jobs`.
  - The Jaeger search link has fixed timestamps and the fixed service `demo:ping` (correlator.go:226).

## Findings

| source | as written | input that shows it | evidently intended | confidence | as-written member | corrected member |
|---|---|---|---|---|---|---|
| pkg/correlator/thanos.go:27-33 | `InternalEndpoint()` and `ExternalEndpoint()` call themselves | any call, such as a link without `g0.expr` | return the configured endpoints | not executed | Thanos.EndpointAccessorNeverReturns | Thanos.ParseRequestFromURL |
| pkg/correlator/thanos.go:44 | `net.JoinHostPort(u.Host, u.Port())` joins a host that already has the port | `http://localhost:9090/graph` gives `[localhost:9090]:9090` | `JoinHostPort(u.Hostname(), u.Port())`, giving `localhost:9090` | not executed | Thanos.EndpointKeyAsWrittenMissesOwnEndpoint | Thanos.EndpointKeyIsHostPort |
