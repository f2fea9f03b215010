/**
 * The HTTP logging middleware of the ping example: the status-capturing writer (the first
 * `WriteHeader` wins), the decision tables for what to log and at which level, and the dispatch
 * of a request according to the decision.
 */
module Logging {
  import opened Wrappers
  import Http
  import Decimal

  /** The codes that reach a writer when only the first `WriteHeader` is passed on. */
  function FirstOnly(codes: seq<int>): seq<int> {
    if codes == [] then [] else [codes[0]]
  }

  /** The status a first-wins writer reports after the given `WriteHeader` calls. */
  function FirstStatus(codes: seq<int>): int {
    if codes == [] then 0 else codes[0]
  }

  /**
   * ResponseWriterWithStatus: wraps a writer and keeps the status code of the first `WriteHeader`.
   * `Calls` is every code `WriteHeader` was called with; `Before` is the status codes `w` had
   * already been sent when it was wrapped.
   */
  class ResponseWriterWithStatus {
    const w: Http.ResponseWriter
    var statusCode: int
    var isHeaderWritten: bool
    ghost var Calls: seq<int>
    ghost const Before: seq<int>

    ghost predicate Valid()
      reads this
    {
      && (isHeaderWritten <==> Calls != [])
      && statusCode == FirstStatus(Calls)
    }

    /** Since it was wrapped, `w` has been sent the first call's code and nothing else. */
    ghost predicate ForwardsFirst()
      reads this, w
    {
      w.statusCalls == Before + FirstOnly(Calls)
    }

    /** WrapResponseWriterWithStatus. */
    constructor Wrap(w: Http.ResponseWriter)
      ensures Valid() && ForwardsFirst() && this.w == w && Before == w.statusCalls
      ensures statusCode == 0 && !isHeaderWritten && Calls == []
    {
      this.w := w;
      statusCode := 0;
      isHeaderWritten := false;
      Calls := [];
      Before := w.statusCalls;
    }

    /** The status of the first `WriteHeader`, 0 when there was none. */
    function StatusCode(): (code: int)
      reads this
      requires Valid()
      ensures code == if Calls == [] then 0 else Calls[0]
    {
      statusCode
    }

    /** The status code as decimal text. */
    function Status(): (s: string)
      reads this
      requires Valid()
      ensures Decimal.Parse(s) == StatusCode()
    {
      Decimal.ParseFormat(statusCode);
      Decimal.Format(statusCode)
    }

    /**
     * The first call records the code and forwards it; every later call changes nothing, so the
     * wrapped writer receives at most one status.
     */
    method WriteHeader(code: int)
      requires Valid()
      modifies this, w
      ensures Valid() && Calls == old(Calls) + [code]
      ensures old(ForwardsFirst()) ==> ForwardsFirst()
      ensures old(isHeaderWritten) ==> statusCode == old(statusCode)
      ensures !old(isHeaderWritten) ==> statusCode == code && isHeaderWritten
      ensures w.statusCalls == old(w.statusCalls) + (if old(isHeaderWritten) then [] else [code])
      ensures w.header == old(w.header) && w.body == old(w.body)
    {
      if !isHeaderWritten {
        statusCode := code;
        w.WriteHeader(code);
        isHeaderWritten := true;
      }
      Calls := Calls + [code];
    }
  }

  // ---------------------------------------------------------------------------------------------
  // Decision tables.

  /** A decision; `Other` is any other value of the underlying integer (such as the -1 returned
      beside an error), which the dispatch switch has no case for. */
  datatype Decision = NoLogCall | LogFinishCall | LogStartAndFinishCall | Other(code: int)

  /** Whether a decision logs the start of a call, and whether it logs its end. */
  predicate LogsStart(d: Decision) {
    d == LogStartAndFinishCall
  }

  predicate LogsFinish(d: Decision) {
    d == LogFinishCall || d == LogStartAndFinishCall
  }

  /** getHTTPLoggingOption: the decision that logs exactly what was asked; start alone is refused. */
  function GetHTTPLoggingOption(logStart: bool, logEnd: bool): (r: Result<Decision, string>)
    ensures r.Err? <==> logStart && !logEnd
    ensures r.Err? ==> r.error == "log start call is not supported"
    ensures r.Ok? ==> LogsStart(r.value) == logStart && LogsFinish(r.value) == logEnd
    ensures r.Ok? ==> !r.value.Other?
  {
    if !logStart && !logEnd then Ok(NoLogCall)
    else if !logStart && logEnd then Ok(LogFinishCall)
    else if logStart && logEnd then Ok(LogStartAndFinishCall)
    else Err("log start call is not supported")
  }

  /** Every named decision is what the table gives for the flags it stands for. */
  lemma LoggingOptionRoundTrip(d: Decision)
    ensures !d.Other? <==> GetHTTPLoggingOption(LogsStart(d), LogsFinish(d)) == Ok(d)
  {
  }

  /** The level filters of go-kit's `level` package. */
  datatype LevelOption = AllowAll | AllowDebug | AllowInfo | AllowWarn | AllowError

  /** The name that selects a level filter, if any. */
  function LevelName(l: LevelOption): Option<string> {
    match l
    case AllowInfo => Some("INFO")
    case AllowDebug => Some("DEBUG")
    case AllowWarn => Some("WARN")
    case AllowError => Some("ERROR")
    case AllowAll => None
  }

  /** getLevel: the four upper-case names select their filter; every other string allows all. */
  function GetLevel(lvl: string): (l: LevelOption)
    ensures l != AllowAll <==> lvl == "INFO" || lvl == "DEBUG" || lvl == "WARN" || lvl == "ERROR"
    ensures l != AllowAll ==> LevelName(l) == Some(lvl)
  {
    match lvl
    case "INFO" => AllowInfo
    case "DEBUG" => AllowDebug
    case "WARN" => AllowWarn
    case "ERROR" => AllowError
    case _ => AllowAll
  }

  lemma LevelRoundTrip(l: LevelOption)
    ensures LevelName(l).Some? ==> GetLevel(LevelName(l).value) == l
    ensures LevelName(l).None? <==> l == AllowAll
  {
  }

  /** The names are case-sensitive: the lower-case spellings allow everything. */
  lemma LowerCaseLevelsAllowAll()
    ensures GetLevel("info") == AllowAll && GetLevel("debug") == AllowAll
    ensures GetLevel("warn") == AllowAll && GetLevel("error") == AllowAll
  {
  }

  // ---------------------------------------------------------------------------------------------
  // Dispatch in HTTPMiddleware.

  /** Which writer the next handler is given. */
  datatype Target = OriginalWriter | WrappedWriter

  /** What the middleware does, in order: the start log, the call of the next handler, and the
      finish log with the status code it reports. */
  datatype Step = PreCall | Next(target: Target) | PostCall(statusCode: int)

  /** The steps a decision calls for, given the status the finish log reports. */
  function DispatchSteps(decision: Decision, reported: int): seq<Step> {
    match decision
    case NoLogCall => [Next(OriginalWriter)]
    case LogFinishCall => [Next(WrappedWriter), PostCall(reported)]
    case LogStartAndFinishCall => [PreCall, Next(WrappedWriter), PostCall(reported)]
    case Other(_) => []
  }

  /**
   * The start log comes first and the finish log last; a named decision calls the next handler
   * exactly once, any other value never calls it.
   */
  lemma DispatchOrder(decision: Decision, reported: int)
    ensures var steps := DispatchSteps(decision, reported);
            && (PreCall in steps <==> LogsStart(decision))
            && (PostCall(reported) in steps <==> LogsFinish(decision))
            && (LogsStart(decision) ==> steps[0] == PreCall)
            && (LogsFinish(decision) ==> steps[|steps| - 1] == PostCall(reported))
            && (Next(OriginalWriter) in steps <==> decision == NoLogCall)
            && (Next(WrappedWriter) in steps <==> LogsFinish(decision))
            && |set i | 0 <= i < |steps| && steps[i].Next?| == (if decision.Other? then 0 else 1)
  {
    var steps := DispatchSteps(decision, reported);
    match decision
    case NoLogCall =>
      assert (set i | 0 <= i < |steps| && steps[i].Next?) == {0};
    case LogFinishCall =>
      assert (set i | 0 <= i < |steps| && steps[i].Next?) == {0};
    case LogStartAndFinishCall =>
      assert (set i | 0 <= i < |steps| && steps[i].Next?) == {1};
    case Other(_) =>
  }

  /** The next handler writing its status codes, in order, to the writer it was given. */
  method ServeOriginal(w: Http.ResponseWriter, writes: seq<int>)
    modifies w
    ensures w.statusCalls == old(w.statusCalls) + writes
  {
    for i := 0 to |writes|
      invariant w.statusCalls == old(w.statusCalls) + writes[..i]
    {
      assert writes[..i + 1] == writes[..i] + [writes[i]];
      w.WriteHeader(writes[i]);
    }
    assert writes[..|writes|] == writes;
  }

  /** The next handler writing its status codes, in order, to a fresh wrapper: only the first one
      reaches the wrapped writer, and the wrapper reports it. */
  method ServeWrapped(wrapped: ResponseWriterWithStatus, writes: seq<int>)
    requires wrapped.Valid() && wrapped.ForwardsFirst() && wrapped.Calls == []
    modifies wrapped, wrapped.w
    ensures wrapped.Valid() && wrapped.ForwardsFirst() && wrapped.Calls == writes
    ensures wrapped.w.statusCalls == old(wrapped.w.statusCalls) + FirstOnly(writes)
    ensures wrapped.StatusCode() == FirstStatus(writes)
  {
    for i := 0 to |writes|
      invariant wrapped.Valid() && wrapped.ForwardsFirst() && wrapped.Calls == writes[..i]
      invariant wrapped.Before == old(wrapped.w.statusCalls)
    {
      assert writes[..i + 1] == writes[..i] + [writes[i]];
      wrapped.WriteHeader(writes[i]);
    }
    assert writes[..|writes|] == writes;
  }

  /**
   * The handler returned by HTTPMiddleware, serving one request. `splitHostPortFails` is a
   * `host:port` that net.SplitHostPort rejects; `decision` is what the options' decider answers;
   * the next handler is modelled by the status codes it writes, in order.
   * On the original writer every code reaches `w`; through the wrapper only the first does, and
   * the finish log reports it (0 when there was none).
   */
  method HTTPMiddlewareServe(decision: Decision, splitHostPortFails: bool, w: Http.ResponseWriter, handlerWrites: seq<int>)
    returns (steps: seq<Step>)
    modifies w
    ensures splitHostPortFails || decision == NoLogCall ==> w.statusCalls == old(w.statusCalls) + handlerWrites
    ensures !splitHostPortFails && LogsFinish(decision) ==> w.statusCalls == old(w.statusCalls) + FirstOnly(handlerWrites)
    ensures !splitHostPortFails && decision.Other? ==> w.statusCalls == old(w.statusCalls)
    ensures steps == if splitHostPortFails then [Next(OriginalWriter)]
                     else DispatchSteps(decision, FirstStatus(handlerWrites))
  {
    var wrapped := new ResponseWriterWithStatus.Wrap(w);
    if splitHostPortFails {
      ServeOriginal(w, handlerWrites);
      return [Next(OriginalWriter)];
    }
    match decision
    case NoLogCall =>
      ServeOriginal(w, handlerWrites);
      steps := [Next(OriginalWriter)];
    case LogStartAndFinishCall =>
      steps := [PreCall];
      ServeWrapped(wrapped, handlerWrites);
      steps := steps + [Next(WrappedWriter)];
      steps := steps + [PostCall(wrapped.StatusCode())];
    case LogFinishCall =>
      ServeWrapped(wrapped, handlerWrites);
      steps := [Next(WrappedWriter)];
      steps := steps + [PostCall(wrapped.StatusCode())];
    case Other(_) =>
      steps := [];
  }
}
