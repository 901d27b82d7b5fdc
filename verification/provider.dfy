/**
 * Bookkeeping of the browser status provider: the pool of idle pages, the
 * vacancy counter, and the table of armed per-request timeouts. Each event
 * (a query, a result or error reported by a page, a timer firing) is one
 * atomic step. The browser itself is an oracle: page creation either yields a
 * fresh handle or fails, and a dispatch to a page either goes out or fails.
 */
module Provider {
  import opened Wrappers
  import opened CheckerTypes
  import BrowserForm

  /** Deadline of one query, in milliseconds. */
  const REQ_TIMEOUT_MS := 10000

  const DUPLICATE_MESSAGE := "Another request is already in progress"
  const QUOTA_MESSAGE := "Please try again later"
  const TIMEOUT_MESSAGE := "Timeout exceeded"

  /** An opaque browser page handle. */
  type Page = nat

  /**
   * `pool` is the stack of idle pages, `vacantPages` the pages that may still
   * be handed out, `timeouts` the requests with an armed timer. Only the key
   * set of the source's map is kept: the timer callback consults nothing but
   * whether its request id is a key, and cancelling a handle with
   * `clearTimeout` is not modelled. A `TimerEvent` may instead fire for any id
   * at any step, which covers every firing the source allows, that of a
   * cleared or overwritten timer included.
   */
  datatype State = State(pool: seq<Page>, vacantPages: int, timeouts: set<RequestId>)

  /** What creating a page yields. */
  datatype Creation = Created(page: Page) | CreateFailed(err: Thrown)

  /** What handing the query script to a page yields. */
  datatype Dispatch = Dispatched | DispatchFailed(err: Thrown)

  /** A query handed to a page: the request id, the form to post and the request. */
  datatype Submission = Submission(reqId: RequestId, form: BrowserForm.FormParams, req: DocumentCheckParams)

  /** The result of one atomic step: the new state, the handler calls and the submissions. */
  datatype Step = Step(state: State, out: seq<Delivery>, sent: seq<Submission>)

  /** The two failure kinds a page reports: a failing page script or a failing request. */
  datatype ErrorSource = Internal | Http

  /** The part of the remote answer the provider reads. */
  datatype StatusInfo = StatusInfo(statusDate: string, status: int, errorCode: Option<int>)
  datatype CheckerResponse = CheckerResponse(meta: StatusInfo, sendStatusMsg: string)

  /** What `requestPage` yields: the new state and a page or the thrown error. */
  datatype Acquired = Acquired(state: State, page: Result<Page, Thrown>)

  /** The private constructor: an empty pool with every page vacant. */
  function Create(maxPoolSize: int): (st: State)
    ensures st.pool == [] && st.timeouts == {} && st.vacantPages == maxPoolSize
  {
    State([], maxPoolSize, {})
  }

  /** The pool invariant: the vacancy counter stays within `0..maxPoolSize`. */
  predicate Valid(st: State, maxPoolSize: int) {
    0 <= st.vacantPages <= maxPoolSize
  }

  function Pop(pool: seq<Page>): seq<Page> {
    if |pool| == 0 then pool else pool[..|pool| - 1]
  }

  /**
   * `requestPage`. The last idle page is popped; it is handed out when
   * `reusable` holds of it, and otherwise dropped and a new page created.
   * The source tests `!page.isClosed` without calling `isClosed`, so there
   * `reusable` is false of every page.
   */
  function RequestPage(st: State, reusable: Page -> bool, creation: Creation): (a: Acquired)
    ensures st.vacantPages == 0 ==>
              a == Acquired(st, Failure(Typed(QueryError(QuotaError, QUOTA_MESSAGE))))
    ensures st.vacantPages != 0 ==> a.state.pool == Pop(st.pool) && a.state.timeouts == st.timeouts
    ensures a.page.Success? ==> a.state.vacantPages == st.vacantPages - 1
    ensures a.page.Failure? ==> a.state.vacantPages == st.vacantPages
    ensures st.vacantPages != 0 && |st.pool| > 0 && reusable(st.pool[|st.pool| - 1]) ==>
              a.page == Success(st.pool[|st.pool| - 1])
    ensures st.vacantPages != 0 && !(|st.pool| > 0 && reusable(st.pool[|st.pool| - 1])) ==>
              && (creation.Created? ==> a.page == Success(creation.page))
              && (creation.CreateFailed? ==> a.page == Failure(creation.err))
  {
    if st.vacantPages == 0 then
      Acquired(st, Failure(Typed(QueryError(QuotaError, QUOTA_MESSAGE))))
    else if |st.pool| > 0 && reusable(st.pool[|st.pool| - 1]) then
      Acquired(st.(pool := Pop(st.pool), vacantPages := st.vacantPages - 1), Success(st.pool[|st.pool| - 1]))
    else
      match creation
      case Created(page) =>
        Acquired(st.(pool := Pop(st.pool), vacantPages := st.vacantPages - 1), Success(page))
      case CreateFailed(err) =>
        Acquired(st.(pool := Pop(st.pool)), Failure(err))
  }

  /** `returnPage`: a page goes back onto the pool; no page is a no-op. */
  function ReturnPage(st: State, page: Option<Page>): (st': State)
    ensures page.None? ==> st' == st
    ensures page.Some? ==> st'.pool == st.pool + [page.value] && st'.vacantPages == st.vacantPages + 1
    ensures st'.timeouts == st.timeouts
  {
    match page
    case None => st
    case Some(p) => st.(pool := st.pool + [p], vacantPages := st.vacantPages + 1)
  }

  /**
   * `queryDocumentStatus`. A request id with an armed timer is refused with a
   * quota error. Otherwise a page is acquired, the timer armed, the form
   * dispatched, and the page returned to the pool in `finally`, before any
   * answer arrives.
   */
  function Query(st: State, reqId: RequestId, p: DocumentCheckParams,
                 reusable: Page -> bool, creation: Creation, dispatch: Dispatch): (step: Step)
    ensures step.state.vacantPages == st.vacantPages
    ensures |step.out| <= 1 && |step.sent| <= 1
    ensures forall d :: d in step.out ==> d.StatusError? && d.reqId == reqId
    ensures reqId in st.timeouts ==>
              step == Step(st, [StatusError(reqId, Typed(QueryError(QuotaError, DUPLICATE_MESSAGE)))], [])
    ensures reqId !in st.timeouts && st.vacantPages == 0 ==>
              step == Step(st, [StatusError(reqId, Typed(QueryError(QuotaError, QUOTA_MESSAGE)))], [])
    ensures step.sent != [] ==>
              step.sent == [Submission(reqId, BrowserForm.BuildFormObject(p), p)] && step.out == []
    ensures step.sent == [] <==> |step.out| == 1
    ensures reqId !in st.timeouts && st.vacantPages != 0 &&
            !(|st.pool| > 0 && reusable(st.pool[|st.pool| - 1])) && creation.CreateFailed? ==>
              step == Step(st.(pool := Pop(st.pool)), [StatusError(reqId, creation.err)], [])
    ensures reqId !in st.timeouts && st.vacantPages != 0 &&
            ((|st.pool| > 0 && reusable(st.pool[|st.pool| - 1])) || creation.Created?) ==>
              && reqId in step.state.timeouts
              && (dispatch.Dispatched? ==> step.sent != [])
              && (dispatch.DispatchFailed? ==> step.out == [StatusError(reqId, dispatch.err)])
  {
    if reqId in st.timeouts then
      Step(st, [StatusError(reqId, Typed(QueryError(QuotaError, DUPLICATE_MESSAGE)))], [])
    else
      var a := RequestPage(st, reusable, creation);
      match a.page
      case Failure(err) =>
        Step(ReturnPage(a.state, None), [StatusError(reqId, err)], [])
      case Success(page) =>
        var armed := a.state.(timeouts := a.state.timeouts + {reqId});
        match dispatch
        case Dispatched =>
          Step(ReturnPage(armed, Some(page)), [], [Submission(reqId, BrowserForm.BuildFormObject(p), p)])
        case DispatchFailed(err) =>
          Step(ReturnPage(armed, Some(page)), [StatusError(reqId, err)], [])
  }

  /** The timer of `reqId` fires: a timeout is reported only while the request is still armed. */
  function TimerFired(st: State, reqId: RequestId): (step: Step)
    ensures reqId !in st.timeouts ==> step == Step(st, [], [])
    ensures reqId in st.timeouts ==>
              && step.out == [StatusError(reqId, Typed(QueryError(TimeoutError, TIMEOUT_MESSAGE)))]
              && step.state == st.(timeouts := st.timeouts - {reqId})
              && step.sent == []
  {
    if reqId !in st.timeouts then Step(st, [], [])
    else Step(st.(timeouts := st.timeouts - {reqId}),
              [StatusError(reqId, Typed(QueryError(TimeoutError, TIMEOUT_MESSAGE)))], [])
  }

  /**
   * `onResult`: the timer is cleared, then a positive remote error code is an
   * API error carrying the remote message, and anything else a status. The
   * status date is read with `parseDate` and the fixed date pattern. The
   * answer is delivered even when no timer was armed any more.
   */
  function OnResult(st: State, reqId: RequestId, req: DocumentCheckParams, data: CheckerResponse,
                    parseDate: (string, string) -> Option<Timestamp>): (step: Step)
    ensures step.state == st.(timeouts := st.timeouts - {reqId})
    ensures step.sent == [] && |step.out| == 1 && step.out[0].reqId == reqId
    ensures step.out[0].StatusError? <==> data.meta.errorCode.Some? && data.meta.errorCode.value > 0
    ensures step.out[0].StatusError? ==>
              step.out[0].err == Typed(QueryError(ApiError, data.sendStatusMsg))
    ensures step.out[0].StatusResult? ==>
              && step.out[0].status.code == data.meta.status
              && step.out[0].status.message == data.sendStatusMsg
              && step.out[0].status.request == req
              && step.out[0].status.updatedAt == parseDate(data.meta.statusDate, BrowserForm.DATE_FORMAT)
  {
    var cleared := st.(timeouts := st.timeouts - {reqId});
    var meta := data.meta;
    if meta.errorCode.Some? && meta.errorCode.value > 0 then
      Step(cleared, [StatusError(reqId, Typed(QueryError(ApiError, data.sendStatusMsg)))], [])
    else
      var date := parseDate(meta.statusDate, BrowserForm.DATE_FORMAT);
      Step(cleared, [StatusResult(reqId, DocumentStatus(date, meta.status, data.sendStatusMsg, req))], [])
  }

  /** `onError`: the timer is cleared; a page-script failure is a crawl error, a request failure an HTTP error. */
  function OnError(st: State, reqId: RequestId, source: ErrorSource, msg: string): (step: Step)
    ensures step.state == st.(timeouts := st.timeouts - {reqId})
    ensures step.sent == [] && |step.out| == 1
    ensures step.out[0] == StatusError(reqId, Typed(QueryError(
              if source == Internal then CrawlError else HttpError, msg)))
  {
    var kind := if source == Internal then CrawlError else HttpError;
    Step(st.(timeouts := st.timeouts - {reqId}), [StatusError(reqId, Typed(QueryError(kind, msg)))], [])
  }

  /** `dispose`: the pool is emptied and the browser closed. */
  function Dispose(st: State): (st': State)
    ensures st'.pool == [] && st'.vacantPages == st.vacantPages && st'.timeouts == st.timeouts
  {
    st.(pool := [])
  }

  /** One event the provider reacts to. */
  datatype Event =
    | QueryEvent(reqId: RequestId, params: DocumentCheckParams, creation: Creation, dispatch: Dispatch)
    | ResultEvent(reqId: RequestId, req: DocumentCheckParams, data: CheckerResponse)
    | ErrorEvent(reqId: RequestId, source: ErrorSource, msg: string)
    | TimerEvent(reqId: RequestId)
    | DisposeEvent

  function Apply(st: State, e: Event, reusable: Page -> bool, parseDate: (string, string) -> Option<Timestamp>): Step {
    match e
    case QueryEvent(reqId, p, creation, dispatch) => Query(st, reqId, p, reusable, creation, dispatch)
    case ResultEvent(reqId, req, data) => OnResult(st, reqId, req, data, parseDate)
    case ErrorEvent(reqId, source, msg) => OnError(st, reqId, source, msg)
    case TimerEvent(reqId) => TimerFired(st, reqId)
    case DisposeEvent => Step(Dispose(st), [], [])
  }

  /** A sequence of events applied one after another, with their handler calls collected. */
  function Run(st: State, events: seq<Event>, reusable: Page -> bool,
               parseDate: (string, string) -> Option<Timestamp>): Step
    decreases |events|
  {
    if |events| == 0 then Step(st, [], [])
    else
      var first := Apply(st, events[0], reusable, parseDate);
      var rest := Run(first.state, events[1..], reusable, parseDate);
      Step(rest.state, first.out + rest.out, first.sent + rest.sent)
  }

  /**
   * Under atomic steps no event changes the vacancy counter (each acquire is
   * matched by a return), so the pool invariant holds forever, and the pool
   * never holds more than one idle page beyond what it started with.
   */
  lemma {:induction false} RunKeepsVacancy(st: State, events: seq<Event>, reusable: Page -> bool,
                                           parseDate: (string, string) -> Option<Timestamp>, maxPoolSize: int)
    requires Valid(st, maxPoolSize)
    ensures Run(st, events, reusable, parseDate).state.vacantPages == st.vacantPages
    ensures Valid(Run(st, events, reusable, parseDate).state, maxPoolSize)
    ensures |Run(st, events, reusable, parseDate).state.pool| <= if |st.pool| < 1 then 1 else |st.pool|
    decreases |events|
  {
    if |events| > 0 {
      var first := Apply(st, events[0], reusable, parseDate);
      assert first.state.vacantPages == st.vacantPages;
      assert |first.state.pool| <= if |st.pool| < 1 then 1 else |st.pool|;
      RunKeepsVacancy(first.state, events[1..], reusable, parseDate, maxPoolSize);
    }
  }

  /** A second query under an armed request id is refused and leaves every table as it was. */
  lemma DuplicateQueryRefused(st: State, reqId: RequestId, p: DocumentCheckParams,
                              reusable: Page -> bool, creation: Creation, dispatch: Dispatch)
    requires reqId in st.timeouts
    ensures var step := Query(st, reqId, p, reusable, creation, dispatch);
            && step.state == st
            && step.out == [StatusError(reqId, Typed(QueryError(QuotaError, DUPLICATE_MESSAGE)))]
  {
  }

  /** A query that acquires a page and dispatches leaves its timer armed and the page back in the pool. */
  lemma DispatchedQueryArmsTimer(st: State, reqId: RequestId, p: DocumentCheckParams,
                                 reusable: Page -> bool, page: Page)
    requires reqId !in st.timeouts && st.vacantPages != 0
    requires |st.pool| == 0 || !reusable(st.pool[|st.pool| - 1])
    ensures var step := Query(st, reqId, p, reusable, Created(page), Dispatched);
            && step.state.timeouts == st.timeouts + {reqId}
            && step.state.pool == Pop(st.pool) + [page]
            && step.out == []
            && step.sent == [Submission(reqId, BrowserForm.BuildFormObject(p), p)]
  {
  }

  /**
   * When the dispatch fails after the timer was armed, the error is reported
   * and the timer stays armed, so its firing reports a second error, a
   * timeout, for the same query.
   */
  lemma FailedDispatchThenTimeout(st: State, reqId: RequestId, p: DocumentCheckParams,
                                  reusable: Page -> bool, page: Page, err: Thrown,
                                  parseDate: (string, string) -> Option<Timestamp>)
    requires reqId !in st.timeouts && st.vacantPages != 0
    ensures var run := Run(st, [QueryEvent(reqId, p, Created(page), DispatchFailed(err)), TimerEvent(reqId)],
                           reusable, parseDate);
            run.out == [StatusError(reqId, err), StatusError(reqId, Typed(QueryError(TimeoutError, TIMEOUT_MESSAGE)))]
  {
    var events := [QueryEvent(reqId, p, Created(page), DispatchFailed(err)), TimerEvent(reqId)];
    var first := Apply(st, events[0], reusable, parseDate);
    assert first.out == [StatusError(reqId, err)];
    assert reqId in first.state.timeouts;
    var second := Apply(first.state, TimerEvent(reqId), reusable, parseDate);
    assert events[1..] == [TimerEvent(reqId)];
    assert events[1..][1..] == [];
    assert Run(second.state, [], reusable, parseDate).out == [];
    assert Run(first.state, events[1..], reusable, parseDate).out == second.out;
  }

  /**
   * A result that arrives after the timeout fired is still delivered: the
   * handler hears both the timeout and the late answer.
   */
  lemma LateResultStillDelivered(st: State, reqId: RequestId, req: DocumentCheckParams, data: CheckerResponse,
                                 reusable: Page -> bool, parseDate: (string, string) -> Option<Timestamp>)
    requires reqId in st.timeouts
    ensures var run := Run(st, [TimerEvent(reqId), ResultEvent(reqId, req, data)], reusable, parseDate);
            && |run.out| == 2
            && run.out[0] == StatusError(reqId, Typed(QueryError(TimeoutError, TIMEOUT_MESSAGE)))
            && run.out[1].reqId == reqId
            && reqId !in run.state.timeouts
  {
    var events := [TimerEvent(reqId), ResultEvent(reqId, req, data)];
    var first := Apply(st, events[0], reusable, parseDate);
    var second := Apply(first.state, ResultEvent(reqId, req, data), reusable, parseDate);
    assert events[1..] == [ResultEvent(reqId, req, data)];
    assert events[1..][1..] == [];
    assert Run(second.state, [], reusable, parseDate) == Step(second.state, [], []);
    assert Run(first.state, events[1..], reusable, parseDate) == Step(second.state, second.out, second.sent);
  }

  /**
   * With a test that holds of open pages, an idle page on top of the pool is
   * handed out again, no page is created, and the query leaves the pool as it
   * found it.
   */
  lemma ReusedPageRestoresPool(st: State, reqId: RequestId, p: DocumentCheckParams,
                               reusable: Page -> bool, creation: Creation)
    requires reqId !in st.timeouts && st.vacantPages != 0
    requires |st.pool| > 0 && reusable(st.pool[|st.pool| - 1])
    ensures RequestPage(st, reusable, creation).page == Success(st.pool[|st.pool| - 1])
    ensures var step := Query(st, reqId, p, reusable, creation, Dispatched);
            && step.state.pool == st.pool
            && step.state.vacantPages == st.vacantPages
            && step.state.timeouts == st.timeouts + {reqId}
            && step.sent == [Submission(reqId, BrowserForm.BuildFormObject(p), p)]
  {
    assert Pop(st.pool) + [st.pool[|st.pool| - 1]] == st.pool;
  }

  /** In the source every pool page is dropped on acquire, because `reusable` is false of every page. */
  lemma SourceNeverReusesPages(st: State, page: Page)
    requires st.vacantPages != 0 && |st.pool| > 0
    ensures RequestPage(st, _ => false, Created(page)).page == Success(page)
    ensures RequestPage(st, _ => false, Created(page)).state.pool == st.pool[..|st.pool| - 1]
  {
  }
}
