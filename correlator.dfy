/**
 * The correlation pipeline of `Correlator.Correlate`: from an alert name to an ordered list of
 * discoveries (messages for a human) and an ordered list of correlations (deep links into the
 * metrics, logs, traces and profiles UIs).
 *
 * The two calls to the metrics backend (the rules listing and the exemplar query) are inputs of
 * the model (`Backend`), and so are the foreign helpers it uses (`Foreign`): the PromQL parser,
 * the regular-expression engine behind `=~`/`!~` matchers, `Matcher.String()`,
 * `url.QueryEscape` and the `%v` rendering of a label set. The clock is the parameter `now`.
 */
module Correlator {
  import opened Wrappers
  import opened Strings
  import opened PromQL

  // ---------------------------------------------------------------------------------------------
  // Data model

  /** A configured backend: where the engine reaches it and where a browser reaches it. */
  datatype Source = Source(version: string, internalEndpoint: string, externalEndpoint: string)

  /** The sources the correlator links to: Thanos (metrics), the Grafana UI for Loki (logs),
      Jaeger (traces) and Parca (profiles). */
  datatype Config = Config(thanos: Source, lokiUI: Source, jaeger: Source, parca: Source)

  datatype Input = Input(alertName: string, ignoreExemplar: bool)

  type Discovery = string

  /** One deep link. `error` is the optional `Error` field of the source's record. */
  datatype Correlation = Correlation(error: Option<string>, description: string, url: string)

  /** The result of a successful call. */
  datatype Report = Report(discoveries: seq<Discovery>, correlations: seq<Correlation>)

  /** One firing instance of an alerting rule. */
  datatype Alert = Alert(labels: Labels)

  /** A rule of the rules listing; only alerting rules take part in the lookup. */
  datatype Rule =
    | AlertingRule(name: string, query: string, labels: Labels, alerts: seq<Alert>)
    | RecordingRule(name: string, query: string, labels: Labels)

  datatype RuleGroup = RuleGroup(name: string, rules: seq<Rule>)

  datatype Exemplar = Exemplar(labels: Labels, value: real, timestamp: int)

  /** One series of the exemplar query result: the series' labels and its exemplars. */
  datatype ExemplarSeries = ExemplarSeries(seriesLabels: Labels, exemplars: seq<Exemplar>)

  /** The zero value of an exemplar series: what stays selected when no series qualifies. */
  const ZeroSeries := ExemplarSeries(map[], [])

  /**
   * The metrics backend as the correlator sees it: the error of building the HTTP client, the
   * answer to the rules listing, and the exemplar query as a function of (query, start, end).
   */
  datatype Backend = Backend(
    clientError: Option<string>,
    rules: Result<seq<RuleGroup>, string>,
    exemplars: (string, int, int) -> Result<seq<ExemplarSeries>, string>)

  /** Library code the correlator calls and this model does not define. */
  datatype Foreign = Foreign(
    parse: string -> Result<Expr, string>,
    regex: (string, string) -> bool,
    matcherString: Matcher -> string,
    queryEscape: string -> string,
    labelsString: Labels -> string)

  /** The error exits of `Correlate`, in the order they are checked. */
  datatype CorrelateError =
    | NotEnoughInformation
    | ClientError(cause: string)
    | RulesError(cause: string)
    | NoLongerFires(alertName: string)
    | ParseError(cause: string)
    | NoSelectors(query: string)
    | ExemplarsError(cause: string)

  /** The text of each error. */
  function Message(e: CorrelateError): string {
    match e
    case NotEnoughInformation => "not enough information"
    case ClientError(cause) => "new Thanos HTTP client: " + cause
    case RulesError(cause) => "rules: " + cause
    case NoLongerFires(name) => "requested alert no longer fires, alertname: " + name
    case ParseError(cause) => cause
    case NoSelectors(query) => "can find selectors for " + query
    case ExemplarsError(cause) => "exemplars: " + cause
  }

  /** Nanoseconds, the unit of Go's time.Duration. */
  const Minute: int := 60_000_000_000

  /** The exemplar query looks at the last five minutes. */
  const ExemplarLookback: int := 5 * Minute

  /** The label of an exemplar that carries the trace (request) id. */
  const TraceIdLabel := "traceID"

  /** The alerting threshold stripped from the rule query for the second metrics graph. */
  const AlertThreshold := " > 0.3"

  // ---------------------------------------------------------------------------------------------
  // Rule lookup: groups in order, rules in order, the first alerting rule with the name wins.

  predicate IsNamedAlerting(r: Rule, name: string) {
    r.AlertingRule? && r.name == name
  }

  datatype Lookup = Firing(rule: Rule, alert: Alert) | NotFiring | NotFound

  /** What the lookup makes of the selected rule: its first alert, or "no longer fires". */
  function Verdict(r: Rule): Lookup
    requires r.AlertingRule?
  {
    if |r.alerts| == 0 then NotFiring else Firing(r, r.alerts[0])
  }

  function FindInRules(rs: seq<Rule>, name: string): Lookup {
    if rs == [] then NotFound
    else if IsNamedAlerting(rs[0], name) then Verdict(rs[0])
    else FindInRules(rs[1..], name)
  }

  function FindAlert(gs: seq<RuleGroup>, name: string): Lookup {
    if gs == [] then NotFound
    else
      var l := FindInRules(gs[0].rules, name);
      if l.NotFound? then FindAlert(gs[1..], name) else l
  }

  /** Every rule of every group, groups in order. */
  function AllRules(gs: seq<RuleGroup>): seq<Rule> {
    if gs == [] then [] else gs[0].rules + AllRules(gs[1..])
  }

  /** The lookup inspects rules one at a time and stops at the first alerting rule with the name. */
  lemma {:induction false} FindInRulesIsFirstMatch(rs: seq<Rule>, name: string)
    ensures FindInRules(rs, name) == NotFound <==> forall k | 0 <= k < |rs| :: !IsNamedAlerting(rs[k], name)
    ensures forall k | 0 <= k < |rs| && IsNamedAlerting(rs[k], name) && (forall j | 0 <= j < k :: !IsNamedAlerting(rs[j], name)) ::
              FindInRules(rs, name) == Verdict(rs[k])
  {
    if rs != [] {
      FindInRulesIsFirstMatch(rs[1..], name);
      if !IsNamedAlerting(rs[0], name) {
        forall k | 1 <= k < |rs| && IsNamedAlerting(rs[k], name) && (forall j | 0 <= j < k :: !IsNamedAlerting(rs[j], name))
          ensures FindInRules(rs, name) == Verdict(rs[k])
        {
          assert rs[1..][k - 1] == rs[k];
          assert forall j | 0 <= j < k - 1 :: rs[1..][j] == rs[j + 1];
        }
        assert (forall k | 0 <= k < |rs| :: !IsNamedAlerting(rs[k], name)) <==>
               (forall k | 0 <= k < |rs[1..]| :: !IsNamedAlerting(rs[1..][k], name));
      }
    }
  }

  lemma {:induction false} FindInRulesAppend(a: seq<Rule>, b: seq<Rule>, name: string)
    ensures FindInRules(a + b, name) == if FindInRules(a, name).NotFound? then FindInRules(b, name) else FindInRules(a, name)
  {
    if a == [] {
      assert a + b == b;
    } else {
      assert (a + b)[0] == a[0] && (a + b)[1..] == a[1..] + b;
      FindInRulesAppend(a[1..], b, name);
    }
  }

  /** Scanning group by group is the same as scanning all rules in group order. */
  lemma {:induction false} FindAlertScansAllRules(gs: seq<RuleGroup>, name: string)
    ensures FindAlert(gs, name) == FindInRules(AllRules(gs), name)
  {
    if gs != [] {
      FindAlertScansAllRules(gs[1..], name);
      FindInRulesAppend(gs[0].rules, AllRules(gs[1..]), name);
    }
  }

  /**
   * The rule lookup of `Correlate`: a labelled loop over the groups and an inner loop over the
   * rules; the first alerting rule with the name either has no alerts ("no longer fires") or
   * yields its first alert.
   */
  method FindFiringAlert(groups: seq<RuleGroup>, name: string) returns (lookup: Lookup)
    ensures lookup == FindAlert(groups, name)
  {
    lookup := NotFound;
    var i := 0;
    label groupLoop:
    while i < |groups|
      invariant 0 <= i <= |groups|
      invariant lookup.NotFound?
      invariant FindAlert(groups, name) == FindAlert(groups[i..], name)
    {
      var rules := groups[i].rules;
      var j := 0;
      while j < |rules|
        invariant 0 <= j <= |rules|
        invariant FindInRules(rules, name) == FindInRules(rules[j..], name)
      {
        var r := rules[j];
        if r.AlertingRule? && r.name == name {
          if |r.alerts| == 0 {
            return NotFiring;
          }
          lookup := Firing(r, r.alerts[0]);
          break groupLoop;
        }
        assert rules[j..][1..] == rules[j + 1..];
        j := j + 1;
      }
      assert groups[i..][1..] == groups[i + 1..];
      i := i + 1;
    }
  }

  // ---------------------------------------------------------------------------------------------
  // Exemplar series selection: the first series on which every matcher whose label the series
  // carries holds. Matchers whose label is absent are skipped.

  predicate MatcherHolds(m: Matcher, s: ExemplarSeries, regex: (string, string) -> bool) {
    m.name in s.seriesLabels ==> Matches(m, s.seriesLabels[m.name], regex)
  }

  predicate Qualifies(s: ExemplarSeries, ms: seq<Matcher>, regex: (string, string) -> bool) {
    forall i | 0 <= i < |ms| :: MatcherHolds(ms[i], s, regex)
  }

  /** The index of the first qualifying series, if any. */
  function FirstQualifying(res: seq<ExemplarSeries>, ms: seq<Matcher>, regex: (string, string) -> bool): (k: Option<nat>)
    ensures k.None? <==> forall j | 0 <= j < |res| :: !Qualifies(res[j], ms, regex)
    ensures k.Some? ==> k.value < |res| && Qualifies(res[k.value], ms, regex)
    ensures k.Some? ==> forall j | 0 <= j < k.value :: !Qualifies(res[j], ms, regex)
  {
    if res == [] then None
    else if Qualifies(res[0], ms, regex) then Some(0)
    else
      match FirstQualifying(res[1..], ms, regex)
      case None =>
        assert forall j | 1 <= j < |res| :: res[j] == res[1..][j - 1];
        None
      case Some(k) =>
        assert forall j | 1 <= j <= k + 1 :: res[j] == res[1..][j - 1];
        Some(k + 1)
  }

  /** The series the exemplar lookup settles on: the first qualifying one, or the zero value. */
  function SelectedSeries(res: seq<ExemplarSeries>, ms: seq<Matcher>, regex: (string, string) -> bool): ExemplarSeries {
    match FirstQualifying(res, ms, regex)
    case Some(k) => res[k]
    case None => ZeroSeries
  }

  /**
   * The series loop of `Correlate`: for each series, a `match` flag that the matcher loop clears
   * and breaks on; the first series that keeps the flag is taken.
   */
  method SelectExemplarSeries(res: seq<ExemplarSeries>, ms: seq<Matcher>, regex: (string, string) -> bool)
    returns (exRes: ExemplarSeries)
    ensures exRes == SelectedSeries(res, ms, regex)
  {
    exRes := ZeroSeries;
    var k := 0;
    while k < |res|
      invariant 0 <= k <= |res|
      invariant forall j | 0 <= j < k :: !Qualifies(res[j], ms, regex)
    {
      var r := res[k];
      var match_ := true;
      var i := 0;
      while i < |ms|
        invariant 0 <= i <= |ms|
        invariant match_ ==> forall i' | 0 <= i' < i :: MatcherHolds(ms[i'], r, regex)
        invariant !match_ ==> !Qualifies(r, ms, regex)
      {
        var m := ms[i];
        if m.name !in r.seriesLabels {
          i := i + 1;
          continue;
        }
        if !Matches(m, r.seriesLabels[m.name], regex) {
          match_ := false;
          break;
        }
        i := i + 1;
      }
      if !match_ {
        k := k + 1;
        continue;
      }
      exRes := r;
      return;
    }
  }

  /** Adding a matcher whose label a series lacks never un-selects that series. */
  lemma AbsentMatcherKeepsSelection(res: seq<ExemplarSeries>, ms: seq<Matcher>, m: Matcher, regex: (string, string) -> bool, k: nat)
    requires FirstQualifying(res, ms, regex) == Some(k)
    requires m.name !in res[k].seriesLabels
    ensures FirstQualifying(res, ms + [m], regex) == Some(k)
    ensures SelectedSeries(res, ms + [m], regex) == res[k]
  {
    var ms' := ms + [m];
    assert forall i | 0 <= i < |ms| :: ms'[i] == ms[i];
    assert Qualifies(res[k], ms', regex);
    forall j | 0 <= j < k ensures !Qualifies(res[j], ms', regex) {
      assert !Qualifies(res[j], ms, regex);
    }
  }

  /** More matchers only exclude a series through a matcher whose label it has and whose test fails. */
  lemma ExtraMatchersExcludeOnlyByContradiction(s: ExemplarSeries, ms: seq<Matcher>, extra: seq<Matcher>, regex: (string, string) -> bool)
    requires Qualifies(s, ms, regex)
    ensures !Qualifies(s, ms + extra, regex) <==>
            exists i | 0 <= i < |extra| :: extra[i].name in s.seriesLabels && !Matches(extra[i], s.seriesLabels[extra[i].name], regex)
  {
    var all := ms + extra;
    assert forall i | 0 <= i < |extra| :: all[|ms| + i] == extra[i];
    assert forall i | 0 <= i < |ms| :: all[i] == ms[i];
  }

  /** A series with a label that contradicts one of the matchers is never selected, so when every
      series has one there is no pivot. */
  lemma ContradictedSeriesGiveNoPivot(res: seq<ExemplarSeries>, ms: seq<Matcher>, regex: (string, string) -> bool)
    requires forall j | 0 <= j < |res| :: exists i | 0 <= i < |ms| :: !MatcherHolds(ms[i], res[j], regex)
    ensures SelectedSeries(res, ms, regex) == ZeroSeries
    ensures PivotId(SelectedSeries(res, ms, regex)) == ""
  {
  }

  /** The pivot id: the trace-id label of the series' first exemplar; empty when there is none. */
  function PivotId(s: ExemplarSeries): string {
    if |s.exemplars| == 0 then "" else LabelValue(s.exemplars[0].labels, TraceIdLabel)
  }

  // ---------------------------------------------------------------------------------------------
  // The metrics query: `{m1,m2,...}`, wrapped in `rate(...[1m])` once per `__name__` matcher whose
  // value ends in `_total`.

  predicate IsCounterMatcher(m: Matcher) {
    m.name == "__name__" && HasSuffix(m.value, "_total")
  }

  function CounterMatchers(ms: seq<Matcher>): nat {
    if ms == [] then 0
    else CounterMatchers(ms[..|ms| - 1]) + (if IsCounterMatcher(ms[|ms| - 1]) then 1 else 0)
  }

  function Rendered(ms: seq<Matcher>, render: Matcher -> string): (r: seq<string>)
    ensures |r| == |ms|
  {
    if ms == [] then [] else Rendered(ms[..|ms| - 1], render) + [render(ms[|ms| - 1])]
  }

  /** `q` inside `n` applications of `rate(...[1m])`. */
  function RateWrapped(q: string, n: nat): string {
    Repeat("rate(", n) + q + Repeat("[1m])", n)
  }

  lemma RateWrappedStep(q: string, n: nat)
    ensures "rate(" + RateWrapped(q, n) + "[1m])" == RateWrapped(q, n + 1)
  {
    RepeatAppend("[1m])", n);
    assert "rate(" + RateWrapped(q, n) + "[1m])" == ("rate(" + Repeat("rate(", n)) + q + (Repeat("[1m])", n) + "[1m])");
  }

  lemma RateWrappedZero(q: string)
    ensures RateWrapped(q, 0) == q
  {
    assert Repeat("rate(", 0) == "" && Repeat("[1m])", 0) == "";
    assert "" + q + "" == q;
  }

  lemma CounterMatchersStep(ms: seq<Matcher>, i: nat)
    requires i < |ms|
    ensures CounterMatchers(ms[..i + 1]) == CounterMatchers(ms[..i]) + if IsCounterMatcher(ms[i]) then 1 else 0
  {
    assert ms[..i + 1][..i] == ms[..i];
  }

  lemma RenderedStep(ms: seq<Matcher>, render: Matcher -> string, i: nat)
    requires i < |ms|
    ensures Rendered(ms[..i + 1], render) == Rendered(ms[..i], render) + [render(ms[i])]
  {
    assert ms[..i + 1][..i] == ms[..i];
  }

  /** The metrics query in closed form: the selector text between n openings and n closings. */
  function MetricsQueryOf(ms: seq<Matcher>, render: Matcher -> string): string {
    RateWrapped("{" + Join(Rendered(ms, render), ",") + "}", CounterMatchers(ms))
  }

  /** Builds the query the way the source does: render each matcher, join, then wrap in a loop. */
  method MetricsQuery(ms: seq<Matcher>, render: Matcher -> string) returns (query: string)
    ensures query == MetricsQueryOf(ms, render)
  {
    var strMatchers: seq<string> := [];
    for i := 0 to |ms|
      invariant strMatchers == Rendered(ms[..i], render)
    {
      RenderedStep(ms, render, i);
      strMatchers := strMatchers + [render(ms[i])];
    }
    assert ms[..|ms|] == ms;
    var selector := "{" + Join(strMatchers, ",") + "}";
    query := selector;
    for i := 0 to |ms|
      invariant query == RateWrapped(selector, CounterMatchers(ms[..i]))
    {
      CounterMatchersStep(ms, i);
      var matcher := ms[i];
      if matcher.name == "__name__" {
        if HasSuffix(matcher.value, "_total") {
          RateWrappedStep(selector, CounterMatchers(ms[..i]));
          query := "rate(" + query + "[1m])";
        }
      }
    }
  }

  /** Without a counter-name matcher the query is the plain selector. */
  lemma PlainSelectorQuery(ms: seq<Matcher>, render: Matcher -> string)
    requires forall i | 0 <= i < |ms| :: !IsCounterMatcher(ms[i])
    ensures MetricsQueryOf(ms, render) == "{" + Join(Rendered(ms, render), ",") + "}"
  {
    NoCounterMatchers(ms);
    var q := "{" + Join(Rendered(ms, render), ",") + "}";
    RateWrappedZero(q);
  }

  lemma {:induction false} NoCounterMatchers(ms: seq<Matcher>)
    requires forall i | 0 <= i < |ms| :: !IsCounterMatcher(ms[i])
    ensures CounterMatchers(ms) == 0
  {
    if ms != [] {
      NoCounterMatchers(ms[..|ms| - 1]);
    }
  }

  // ---------------------------------------------------------------------------------------------
  // Link builders. Label values and the pivot id are concatenated without escaping; only the two
  // metrics queries go through url.QueryEscape.

  const LokiExplorePrefix := "/explore?orgId=1&left=%5B%22now-1h%22,%22now%22,%22Logging%22,%7B%22refId%22:%22A%22,%22expr%22:%22%7Bjobs%3D%5C%22"
  const ParcaCpuPrefix := "/?currentProfileView=icicle&expression_a=process_cpu%3Acpu%3Ananoseconds%3Acpu%3Ananoseconds%3Adelta%7B"
  const ParcaSuffix := "%3A8080%22%7D&merge_a=true&time_selection_a=relative:hour|1"
  const JaegerSearch := "/search?end=1653036151287000&limit=20&lookback=1h&maxDuration&minDuration&service=demo%3Aping&start=1653032551287000"

  const MetricsDescription := "Metric View for the source of Alert [Thanos]"
  const ExemplarLogsDescription := "Log View connected to the Exemplar [Loki via Grafana]"
  const ExemplarTraceDescription := "Trace View connected to the Exemplar [Jaeger]"
  const ProfilesDescription := "Profiles View for the same container and time [Parca]"
  const ExemplarProfilesDescription := "Experimental: Profiles View connected to the Exemplar [Parca]"
  const LogsDescription := "Log View for the same container and time [Loki via Grafana]"
  const TraceSearchDescription := "Trace View for the same container and time [Jaeger]"

  function MetricsView(cfg: Config, query: string, ruleQuery: string, escape: string -> string): Correlation {
    Correlation(None, MetricsDescription,
      "http://" + cfg.thanos.externalEndpoint +
      "/graph?g0.expr=" + escape(query) +
      "&g0.tab=0&g0.stacked=0&g0.range_input=15m&g0.max_source_resolution=0s&" +
      "g1.expr=" + escape(TrimSuffix(ruleQuery, AlertThreshold)) +
      "&g1.tab=0&g1.stacked=0&g1.range_input=15m&g1.max_source_resolution=0s&")
  }

  function ExemplarLogsView(cfg: Config, seriesJob: string, id: string): Correlation {
    Correlation(None, ExemplarLogsDescription,
      "http://" + cfg.lokiUI.externalEndpoint + LokiExplorePrefix +
      seriesJob + "%5C%22%7D%20%7C%3D%20%5C%22" + id + "%5C%22%5Cn%22%7D%5D")
  }

  function ExemplarTraceView(cfg: Config, id: string): Correlation {
    Correlation(None, ExemplarTraceDescription, "http://" + cfg.jaeger.externalEndpoint + "/trace/" + id)
  }

  function ProfilesView(cfg: Config, alertJob: string): Correlation {
    Correlation(None, ProfilesDescription,
      "http://" + cfg.parca.externalEndpoint + ParcaCpuPrefix +
      "%20job%3D%22" + "e2e-correlation-" + alertJob + ParcaSuffix)
  }

  function ExemplarProfilesView(cfg: Config, id: string, seriesJob: string): Correlation {
    Correlation(None, ExemplarProfilesDescription,
      "http://" + cfg.parca.externalEndpoint + ParcaCpuPrefix + "profile_label_trace_id%3D%22" +
      id + "%22%2C%20job%3D%22" + "e2e-correlation-" + seriesJob + ParcaSuffix)
  }

  function LogsView(cfg: Config, alertJob: string): Correlation {
    Correlation(None, LogsDescription,
      "http://" + cfg.lokiUI.externalEndpoint + LokiExplorePrefix + alertJob + "%5C%22%7D%22%7D%5D")
  }

  function TraceSearchView(cfg: Config): Correlation {
    Correlation(None, TraceSearchDescription, "http://" + cfg.jaeger.externalEndpoint + JaegerSearch)
  }

  function FiringMessage(alert: Alert, labelsString: Labels -> string): Discovery {
    "Alert is indeed firing... \U{1F631} Its labels: " + labelsString(alert.labels)
  }

  function PivotMessage(id: string): Discovery {
    "We found example Trace/Request ID for you! " + id + " \U{1F917}"
  }

  // ---------------------------------------------------------------------------------------------
  // The pipeline as a function: resolution (alert, selector group, exemplar series), then output.

  /** What the pipeline settles on before it builds any output. */
  datatype Resolution = Resolution(rule: Rule, alert: Alert, matchers: seq<Matcher>, series: ExemplarSeries)

  /**
   * The source dereferences the alert without a check when no alerting rule has the name, so a
   * call must not reach the lookup in that case.
   */
  predicate LookupReachesRule(input: Input, backend: Backend) {
    input.alertName != "" && backend.clientError.None? && backend.rules.Ok? ==>
      !FindAlert(backend.rules.value, input.alertName).NotFound?
  }

  function ExemplarSeriesFor(input: Input, backend: Backend, query: string, ms: seq<Matcher>, regex: (string, string) -> bool, now: int)
    : Result<ExemplarSeries, string>
  {
    if input.ignoreExemplar then Ok(ZeroSeries)
    else
      match backend.exemplars(query, now - ExemplarLookback, now)
      case Err(cause) => Err(cause)
      case Ok(res) => Ok(SelectedSeries(res, ms, regex))
  }

  function Resolve(input: Input, backend: Backend, foreign: Foreign, now: int): Result<Resolution, CorrelateError>
    requires LookupReachesRule(input, backend)
  {
    if input.alertName == "" then Err(NotEnoughInformation)
    else if backend.clientError.Some? then Err(ClientError(backend.clientError.value))
    else if backend.rules.Err? then Err(RulesError(backend.rules.error))
    else
      match FindAlert(backend.rules.value, input.alertName)
      case NotFiring => Err(NoLongerFires(input.alertName))
      case Firing(rule, alert) =>
        match foreign.parse(rule.query)
        case Err(cause) => Err(ParseError(cause))
        case Ok(expr) =>
          var selectors := ExtractSelectors(expr);
          if |selectors| == 0 then Err(NoSelectors(rule.query))
          else
            match ExemplarSeriesFor(input, backend, rule.query, selectors[0], foreign.regex, now)
            case Err(cause) => Err(ExemplarsError(cause))
            case Ok(series) => Ok(Resolution(rule, alert, selectors[0], series))
  }

  function Discoveries(r: Resolution, labelsString: Labels -> string): seq<Discovery> {
    var id := PivotId(r.series);
    [FiringMessage(r.alert, labelsString)] + (if id == "" then [] else [PivotMessage(id)])
  }

  function Correlations(cfg: Config, r: Resolution, foreign: Foreign): seq<Correlation> {
    var id := PivotId(r.series);
    var alertJob := LabelValue(r.alert.labels, "job");
    var seriesJob := LabelValue(r.series.seriesLabels, "job");
    [MetricsView(cfg, MetricsQueryOf(r.matchers, foreign.matcherString), r.rule.query, foreign.queryEscape)] +
    if id != "" then
      [ExemplarLogsView(cfg, seriesJob, id), ExemplarTraceView(cfg, id), ProfilesView(cfg, alertJob),
       ExemplarProfilesView(cfg, id, seriesJob)]
    else
      [LogsView(cfg, alertJob), TraceSearchView(cfg), ProfilesView(cfg, alertJob)]
  }

  function CorrelateSpec(cfg: Config, input: Input, backend: Backend, foreign: Foreign, now: int): Result<Report, CorrelateError>
    requires LookupReachesRule(input, backend)
  {
    match Resolve(input, backend, foreign, now)
    case Err(e) => Err(e)
    case Ok(r) => Ok(Report(Discoveries(r, foreign.labelsString), Correlations(cfg, r, foreign)))
  }

  /**
   * Correlate: on an error exit both lists are empty (no partial result); otherwise the lists are
   * those of the pipeline function above.
   */
  method Correlate(cfg: Config, input: Input, backend: Backend, foreign: Foreign, now: int)
    returns (d: seq<Discovery>, corr: seq<Correlation>, err: Option<CorrelateError>)
    requires LookupReachesRule(input, backend)
    ensures err.Some? ==> d == [] && corr == []
    ensures CorrelateSpec(cfg, input, backend, foreign, now) == if err.Some? then Err(err.value) else Ok(Report(d, corr))
  {
    if input.alertName == "" {
      return [], [], Some(NotEnoughInformation);
    }
    if backend.clientError.Some? {
      return [], [], Some(ClientError(backend.clientError.value));
    }
    if backend.rules.Err? {
      return [], [], Some(RulesError(backend.rules.error));
    }
    var lookup := FindFiringAlert(backend.rules.value, input.alertName);
    if lookup.NotFiring? {
      return [], [], Some(NoLongerFires(input.alertName));
    }
    var alert, alertRule := lookup.alert, lookup.rule;

    d := [FiringMessage(alert, foreign.labelsString)];

    var parsed := foreign.parse(alertRule.query);
    if parsed.Err? {
      return [], [], Some(ParseError(parsed.error));
    }
    var selectors := ExtractSelectors(parsed.value);
    if |selectors| == 0 {
      return [], [], Some(NoSelectors(alertRule.query));
    }
    var firstMatchers := selectors[0];

    var exRes := ZeroSeries;
    if !input.ignoreExemplar {
      var res := backend.exemplars(alertRule.query, now - ExemplarLookback, now);
      if res.Err? {
        return [], [], Some(ExemplarsError(res.error));
      }
      if |res.value| != 0 {
        exRes := SelectExemplarSeries(res.value, firstMatchers, foreign.regex);
      }
    }
    var resolution := Resolution(alertRule, alert, firstMatchers, exRes);
    assert Resolve(input, backend, foreign, now) == Ok(resolution);

    var exampleRequestId := "";
    if |exRes.exemplars| != 0 {
      exampleRequestId := LabelValue(exRes.exemplars[0].labels, TraceIdLabel);
      if exampleRequestId != "" {
        d := d + [PivotMessage(exampleRequestId)];
      }
    }
    assert d == Discoveries(resolution, foreign.labelsString);
    corr := BuildCorrelations(cfg, resolution, foreign, exampleRequestId);
    assert CorrelateSpec(cfg, input, backend, foreign, now) == Ok(Report(d, corr));
    return d, corr, None;
  }

  /** The correlation list of `Correlate`, appended entry by entry. */
  method BuildCorrelations(cfg: Config, r: Resolution, foreign: Foreign, exampleRequestId: string)
    returns (corr: seq<Correlation>)
    requires exampleRequestId == PivotId(r.series)
    ensures corr == Correlations(cfg, r, foreign)
  {
    var query := MetricsQuery(r.matchers, foreign.matcherString);
    corr := [MetricsView(cfg, query, r.rule.query, foreign.queryEscape)];
    var alertJob := LabelValue(r.alert.labels, "job");

    if exampleRequestId != "" {
      var seriesJob := LabelValue(r.series.seriesLabels, "job");
      corr := corr + [ExemplarLogsView(cfg, seriesJob, exampleRequestId)];
      corr := corr + [ExemplarTraceView(cfg, exampleRequestId)];
      corr := corr + [ProfilesView(cfg, alertJob)];
      corr := corr + [ExemplarProfilesView(cfg, exampleRequestId, seriesJob)];
      return;
    }

    corr := corr + [LogsView(cfg, alertJob)];
    corr := corr + [TraceSearchView(cfg)];
    corr := corr + [ProfilesView(cfg, alertJob)];
  }

  // ---------------------------------------------------------------------------------------------
  // Properties of the pipeline.

  /** An empty alert name is refused before the backend is contacted. */
  lemma EmptyAlertNameFails(cfg: Config, ignoreExemplar: bool, backend: Backend, foreign: Foreign, now: int)
    ensures LookupReachesRule(Input("", ignoreExemplar), backend)
    ensures CorrelateSpec(cfg, Input("", ignoreExemplar), backend, foreign, now) == Err(NotEnoughInformation)
  {
  }

  /** The first alerting rule with the name decides: with no alerts the call fails, whatever later
      rules of the same name hold. */
  lemma NoLongerFiresWhenFirstMatchHasNoAlerts(cfg: Config, input: Input, backend: Backend, foreign: Foreign, now: int, k: nat)
    requires input.alertName != "" && backend.clientError.None? && backend.rules.Ok?
    requires k < |AllRules(backend.rules.value)|
    requires IsNamedAlerting(AllRules(backend.rules.value)[k], input.alertName)
    requires AllRules(backend.rules.value)[k].alerts == []
    requires forall j | 0 <= j < k :: !IsNamedAlerting(AllRules(backend.rules.value)[j], input.alertName)
    ensures LookupReachesRule(input, backend)
    ensures CorrelateSpec(cfg, input, backend, foreign, now) == Err(NoLongerFires(input.alertName))
  {
    var all := AllRules(backend.rules.value);
    FindAlertScansAllRules(backend.rules.value, input.alertName);
    FindInRulesIsFirstMatch(all, input.alertName);
    assert Verdict(all[k]) == NotFiring;
    assert FindAlert(backend.rules.value, input.alertName) == NotFiring;
    assert Resolve(input, backend, foreign, now) == Err(NoLongerFires(input.alertName));
  }

  /** A successful resolution uses the first alert of the first alerting rule with the name, in
      group-then-rule order. */
  lemma ResolvedRuleIsFirstMatch(input: Input, backend: Backend, foreign: Foreign, now: int)
    requires LookupReachesRule(input, backend)
    requires Resolve(input, backend, foreign, now).Ok?
    ensures var r := Resolve(input, backend, foreign, now).value;
            var all := AllRules(backend.rules.value);
            && backend.rules.Ok?
            && r.rule.AlertingRule? && |r.rule.alerts| > 0 && r.alert == r.rule.alerts[0]
            && exists k | 0 <= k < |all| :: all[k] == r.rule && IsNamedAlerting(all[k], input.alertName) &&
                 forall j | 0 <= j < k :: !IsNamedAlerting(all[j], input.alertName)
  {
    var all := AllRules(backend.rules.value);
    FindAlertScansAllRules(backend.rules.value, input.alertName);
    FindInRulesIsFirstMatch(all, input.alertName);
    FirstNamedExists(all, input.alertName);
  }

  /** When the lookup finds something, it is the verdict on the first named alerting rule. */
  lemma {:induction false} FirstNamedExists(rs: seq<Rule>, name: string)
    requires !FindInRules(rs, name).NotFound?
    ensures exists k | 0 <= k < |rs| :: IsNamedAlerting(rs[k], name) &&
              (forall j | 0 <= j < k :: !IsNamedAlerting(rs[j], name)) && FindInRules(rs, name) == Verdict(rs[k])
  {
    if IsNamedAlerting(rs[0], name) {
      assert IsNamedAlerting(rs[0], name) && FindInRules(rs, name) == Verdict(rs[0]);
    } else {
      FirstNamedExists(rs[1..], name);
      var k :| 0 <= k < |rs[1..]| && IsNamedAlerting(rs[1..][k], name) &&
               (forall j | 0 <= j < k :: !IsNamedAlerting(rs[1..][j], name)) && FindInRules(rs[1..], name) == Verdict(rs[1..][k]);
      assert forall j | 1 <= j < k + 1 :: rs[j] == rs[1..][j - 1];
      assert IsNamedAlerting(rs[k + 1], name) && FindInRules(rs, name) == Verdict(rs[k + 1]);
    }
  }

  /** Only the first selector group of the rule query is used, and only when there is one. */
  lemma ResolvedMatchersAreFirstGroup(input: Input, backend: Backend, foreign: Foreign, now: int)
    requires LookupReachesRule(input, backend)
    requires Resolve(input, backend, foreign, now).Ok?
    ensures var r := Resolve(input, backend, foreign, now).value;
            && foreign.parse(r.rule.query).Ok?
            && |ExtractSelectors(foreign.parse(r.rule.query).value)| > 0
            && r.matchers == ExtractSelectors(foreign.parse(r.rule.query).value)[0]
  {
  }

  /** The exemplar series is the first qualifying one of the last five minutes, or none at all when
      exemplars are ignored. */
  lemma ResolvedSeries(input: Input, backend: Backend, foreign: Foreign, now: int)
    requires LookupReachesRule(input, backend)
    requires Resolve(input, backend, foreign, now).Ok?
    ensures var r := Resolve(input, backend, foreign, now).value;
            if input.ignoreExemplar then r.series == ZeroSeries && PivotId(r.series) == ""
            else
              && backend.exemplars(r.rule.query, now - ExemplarLookback, now).Ok?
              && r.series == SelectedSeries(backend.exemplars(r.rule.query, now - ExemplarLookback, now).value, r.matchers, foreign.regex)
  {
  }

  /** The discoveries: always the firing message first, then the pivot message exactly when a
      non-empty pivot id was found. */
  lemma DiscoveriesShape(r: Resolution, labelsString: Labels -> string)
    ensures var ds := Discoveries(r, labelsString);
            && 1 <= |ds| <= 2
            && ds[0] == FiringMessage(r.alert, labelsString)
            && (|ds| == 2 <==> PivotId(r.series) != "")
            && (|ds| == 2 ==> Contains(ds[1], PivotId(r.series)))
  {
    var id := PivotId(r.series);
    ContainsPiece("We found example Trace/Request ID for you! ", id, " \U{1F917}");
  }

  /** The correlations: the metrics view first; with a pivot five links (metrics, logs, trace,
      profiles, experimental profiles), otherwise four (metrics, logs, trace search, profiles); no
      entry carries an error. */
  lemma CorrelationsShape(cfg: Config, r: Resolution, foreign: Foreign)
    ensures var cs := Correlations(cfg, r, foreign);
            var id := PivotId(r.series);
            && |cs| >= 1
            && cs[0] == MetricsView(cfg, MetricsQueryOf(r.matchers, foreign.matcherString), r.rule.query, foreign.queryEscape)
            && (forall i | 0 <= i < |cs| :: cs[i].error.None?)
            && (id != "" ==>
                 && |cs| == 5
                 && cs[1].description == ExemplarLogsDescription
                 && cs[2] == Correlation(None, ExemplarTraceDescription, "http://" + cfg.jaeger.externalEndpoint + "/trace/" + id)
                 && cs[3].description == ProfilesDescription
                 && cs[4].description == ExemplarProfilesDescription)
            && (id == "" ==>
                 && |cs| == 4
                 && cs[1].description == LogsDescription
                 && cs[2].description == TraceSearchDescription
                 && cs[3].description == ProfilesDescription)
  {
  }

  lemma ExemplarLogsViewEmbedsId(cfg: Config, seriesJob: string, id: string)
    ensures Contains(ExemplarLogsView(cfg, seriesJob, id).url, id)
  {
    var head := "http://" + cfg.lokiUI.externalEndpoint + LokiExplorePrefix + seriesJob + "%5C%22%7D%20%7C%3D%20%5C%22";
    var tail := "%5C%22%5Cn%22%7D%5D";
    assert ExemplarLogsView(cfg, seriesJob, id).url == head + id + tail;
    ContainsPiece(head, id, tail);
  }

  lemma ExemplarTraceViewEmbedsId(cfg: Config, id: string)
    ensures Contains(ExemplarTraceView(cfg, id).url, id)
  {
    var head := "http://" + cfg.jaeger.externalEndpoint + "/trace/";
    assert ExemplarTraceView(cfg, id).url == head + id + "";
    ContainsPiece(head, id, "");
  }

  lemma ExemplarProfilesViewEmbedsId(cfg: Config, id: string, seriesJob: string)
    ensures Contains(ExemplarProfilesView(cfg, id, seriesJob).url, id)
  {
    var head := "http://" + cfg.parca.externalEndpoint + ParcaCpuPrefix + "profile_label_trace_id%3D%22";
    var tail := "%22%2C%20job%3D%22" + "e2e-correlation-" + seriesJob + ParcaSuffix;
    assert ExemplarProfilesView(cfg, id, seriesJob).url == head + id + tail;
    ContainsPiece(head, id, tail);
  }

  /** With a pivot, the logs, trace and experimental profiles links all carry the id verbatim. */
  lemma PivotLinksEmbedId(cfg: Config, r: Resolution, foreign: Foreign)
    requires PivotId(r.series) != ""
    ensures var cs := Correlations(cfg, r, foreign);
            var id := PivotId(r.series);
            |cs| == 5 && Contains(cs[1].url, id) && Contains(cs[2].url, id) && Contains(cs[4].url, id)
  {
    var id := PivotId(r.series);
    var seriesJob := LabelValue(r.series.seriesLabels, "job");
    ExemplarLogsViewEmbedsId(cfg, seriesJob, id);
    ExemplarTraceViewEmbedsId(cfg, id);
    ExemplarProfilesViewEmbedsId(cfg, id, seriesJob);
  }

  /**
   * With exemplars enabled, finding no usable exemplar never fails the call. This covers every way
   * of ending without a pivot id: no series returned, none qualifying, a qualifying series without
   * exemplars, or a first exemplar without a trace id. The result is then one discovery and the
   * four links without a pivot.
   */
  lemma ExemplarAbsenceNeverFails(cfg: Config, input: Input, backend: Backend, foreign: Foreign, now: int,
                                  rule: Rule, alert: Alert, expr: Expr, res: seq<ExemplarSeries>)
    requires input.alertName != "" && !input.ignoreExemplar
    requires backend.clientError.None? && backend.rules.Ok?
    requires FindAlert(backend.rules.value, input.alertName) == Firing(rule, alert)
    requires foreign.parse(rule.query) == Ok(expr) && |ExtractSelectors(expr)| > 0
    requires backend.exemplars(rule.query, now - ExemplarLookback, now) == Ok(res)
    requires PivotId(SelectedSeries(res, ExtractSelectors(expr)[0], foreign.regex)) == ""
    ensures LookupReachesRule(input, backend)
    ensures var rep := CorrelateSpec(cfg, input, backend, foreign, now);
            rep.Ok? && |rep.value.discoveries| == 1 && |rep.value.correlations| == 4
  {
  }

  /** In particular, when no returned series qualifies there is no pivot and no failure. */
  lemma NoQualifyingSeriesNeverFails(cfg: Config, input: Input, backend: Backend, foreign: Foreign, now: int,
                                     rule: Rule, alert: Alert, expr: Expr, res: seq<ExemplarSeries>)
    requires input.alertName != "" && !input.ignoreExemplar
    requires backend.clientError.None? && backend.rules.Ok?
    requires FindAlert(backend.rules.value, input.alertName) == Firing(rule, alert)
    requires foreign.parse(rule.query) == Ok(expr) && |ExtractSelectors(expr)| > 0
    requires backend.exemplars(rule.query, now - ExemplarLookback, now) == Ok(res)
    requires forall j | 0 <= j < |res| :: !Qualifies(res[j], ExtractSelectors(expr)[0], foreign.regex)
    ensures LookupReachesRule(input, backend)
    ensures var rep := CorrelateSpec(cfg, input, backend, foreign, now);
            rep.Ok? && |rep.value.discoveries| == 1 && |rep.value.correlations| == 4
  {
    assert FirstQualifying(res, ExtractSelectors(expr)[0], foreign.regex).None?;
    ExemplarAbsenceNeverFails(cfg, input, backend, foreign, now, rule, alert, expr, res);
  }

  /** Ignoring exemplars gives exactly one discovery and the four links without a pivot. */
  lemma IgnoreExemplarGivesNoPivot(cfg: Config, input: Input, backend: Backend, foreign: Foreign, now: int)
    requires LookupReachesRule(input, backend)
    requires input.ignoreExemplar
    requires CorrelateSpec(cfg, input, backend, foreign, now).Ok?
    ensures var rep := CorrelateSpec(cfg, input, backend, foreign, now).value;
            |rep.discoveries| == 1 && |rep.correlations| == 4
  {
  }
}
