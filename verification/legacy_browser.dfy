/**
 * The legacy variant of the browser status provider. It has no duplicate
 * request check, and on the page-creation path `requestPage` drops the new
 * page and yields no page, so the dispatch that follows fails and the
 * vacancy slot is never given back. Its result, error and timer callbacks are
 * the same as the current provider's and are shared with it.
 */
module LegacyBrowser {
  import opened Wrappers
  import opened CheckerTypes
  import BrowserForm
  import Provider

  /** The error V8 throws for `page.evaluate` when `page` is undefined. */
  const UNDEFINED_PAGE_MESSAGE := "Cannot read properties of undefined (reading 'evaluate')"

  /** What the legacy `requestPage` yields: a page, no page at all, or the thrown error. */
  datatype Acquired = Acquired(state: Provider.State, page: Result<Option<Provider.Page>, Thrown>)

  /** The legacy `requestPage`: on the creation path it returns nothing. */
  function RequestPage(st: Provider.State, reusable: Provider.Page -> bool, creation: Provider.Creation)
    : (a: Acquired)
    ensures st.vacantPages == 0 ==>
              a == Acquired(st, Failure(Typed(QueryError(QuotaError, Provider.QUOTA_MESSAGE))))
    ensures st.vacantPages != 0 ==> a.state.pool == Provider.Pop(st.pool) && a.state.timeouts == st.timeouts
    ensures a.page.Success? ==> a.state.vacantPages == st.vacantPages - 1
    ensures a.page.Failure? ==> a.state.vacantPages == st.vacantPages
    ensures st.vacantPages != 0 && |st.pool| > 0 && reusable(st.pool[|st.pool| - 1]) ==>
              a.page == Success(Some(st.pool[|st.pool| - 1]))
    ensures st.vacantPages != 0 && !(|st.pool| > 0 && reusable(st.pool[|st.pool| - 1])) ==>
              && (creation.Created? ==> a.page == Success(None))
              && (creation.CreateFailed? ==> a.page == Failure(creation.err))
  {
    if st.vacantPages == 0 then
      Acquired(st, Failure(Typed(QueryError(QuotaError, Provider.QUOTA_MESSAGE))))
    else if |st.pool| > 0 && reusable(st.pool[|st.pool| - 1]) then
      Acquired(st.(pool := Provider.Pop(st.pool), vacantPages := st.vacantPages - 1),
               Success(Some(st.pool[|st.pool| - 1])))
    else
      match creation
      case Created(_) =>
        Acquired(st.(pool := Provider.Pop(st.pool), vacantPages := st.vacantPages - 1), Success(None))
      case CreateFailed(err) =>
        Acquired(st.(pool := Provider.Pop(st.pool)), Failure(err))
  }

  /** The legacy `queryDocumentStatus`: it goes straight to `requestPage`. */
  function Query(st: Provider.State, reqId: RequestId, p: DocumentCheckParams,
                 reusable: Provider.Page -> bool, creation: Provider.Creation,
                 dispatch: Provider.Dispatch): (step: Provider.Step)
    ensures st.vacantPages == 0 ==>
              step == Provider.Step(st, [StatusError(reqId, Typed(QueryError(QuotaError, Provider.QUOTA_MESSAGE)))], [])
    ensures step.state.vacantPages == st.vacantPages || step.state.vacantPages == st.vacantPages - 1
    ensures |step.out| <= 1
    ensures forall d :: d in step.out ==> d.StatusError? && d.reqId == reqId
    ensures step.sent == [] <==> |step.out| == 1
    ensures step.sent != [] ==>
              step.sent == [Provider.Submission(reqId, BrowserForm.BuildFormObject(p), p)] && step.out == []
    ensures st.vacantPages != 0 && !(|st.pool| > 0 && reusable(st.pool[|st.pool| - 1])) && creation.CreateFailed? ==>
              step == Provider.Step(st.(pool := Provider.Pop(st.pool)), [StatusError(reqId, creation.err)], [])
    ensures st.vacantPages != 0 && |st.pool| > 0 && reusable(st.pool[|st.pool| - 1]) ==>
              && reqId in step.state.timeouts
              && (dispatch.Dispatched? ==> step.sent != [])
              && (dispatch.DispatchFailed? ==> step.out == [StatusError(reqId, dispatch.err)])
  {
    var a := RequestPage(st, reusable, creation);
    match a.page
    case Failure(err) =>
      Provider.Step(Provider.ReturnPage(a.state, None), [StatusError(reqId, err)], [])
    case Success(page) =>
      var armed := a.state.(timeouts := a.state.timeouts + {reqId});
      match page
      case None =>
        Provider.Step(Provider.ReturnPage(armed, None),
                      [StatusError(reqId, Untyped(UNDEFINED_PAGE_MESSAGE))], [])
      case Some(pg) =>
        match dispatch
        case Dispatched =>
          Provider.Step(Provider.ReturnPage(armed, Some(pg)), [],
                        [Provider.Submission(reqId, BrowserForm.BuildFormObject(p), p)])
        case DispatchFailed(err) =>
          Provider.Step(Provider.ReturnPage(armed, Some(pg)), [StatusError(reqId, err)], [])
  }

  function Apply(st: Provider.State, e: Provider.Event, reusable: Provider.Page -> bool,
                 parseDate: (string, string) -> Option<Timestamp>): Provider.Step {
    match e
    case QueryEvent(reqId, p, creation, dispatch) => Query(st, reqId, p, reusable, creation, dispatch)
    case _ => Provider.Apply(st, e, reusable, parseDate)
  }

  function Run(st: Provider.State, events: seq<Provider.Event>, reusable: Provider.Page -> bool,
               parseDate: (string, string) -> Option<Timestamp>): Provider.Step
    decreases |events|
  {
    if |events| == 0 then Provider.Step(st, [], [])
    else
      var first := Apply(st, events[0], reusable, parseDate);
      var rest := Run(first.state, events[1..], reusable, parseDate);
      Provider.Step(rest.state, first.out + rest.out, first.sent + rest.sent)
  }

  /**
   * A query under an armed request id is not refused: it is processed exactly
   * as if the id had no timer, whichever path `requestPage` takes.
   */
  lemma NoDuplicateCheck(st: Provider.State, reqId: RequestId, p: DocumentCheckParams,
                         reusable: Provider.Page -> bool, creation: Provider.Creation,
                         dispatch: Provider.Dispatch)
    requires reqId in st.timeouts
    ensures var armed := Query(st, reqId, p, reusable, creation, dispatch);
            var unarmed := Query(st.(timeouts := st.timeouts - {reqId}), reqId, p, reusable, creation, dispatch);
            && armed.out == unarmed.out
            && armed.sent == unarmed.sent
            && armed.state.pool == unarmed.state.pool
            && armed.state.vacantPages == unarmed.state.vacantPages
            && armed.state.timeouts == st.timeouts
  {
  }

  /**
   * On the creation path the new page is lost: the dispatch on the missing
   * page fails, the timer stays armed, and the vacancy counter ends one lower.
   */
  lemma CreatePathLosesSlot(st: Provider.State, reqId: RequestId, p: DocumentCheckParams,
                            reusable: Provider.Page -> bool, page: Provider.Page, dispatch: Provider.Dispatch)
    requires st.vacantPages != 0
    requires |st.pool| == 0 || !reusable(st.pool[|st.pool| - 1])
    ensures var step := Query(st, reqId, p, reusable, Provider.Created(page), dispatch);
            && step.state.vacantPages == st.vacantPages - 1
            && step.state.pool == Provider.Pop(st.pool)
            && step.state.timeouts == st.timeouts + {reqId}
            && step.out == [StatusError(reqId, Untyped(UNDEFINED_PAGE_MESSAGE))]
            && step.sent == []
  {
  }

  /** On the reuse path the page is handed back in `finally`, so the counter is unchanged. */
  lemma ReusePathKeepsSlot(st: Provider.State, reqId: RequestId, p: DocumentCheckParams,
                           reusable: Provider.Page -> bool, creation: Provider.Creation, dispatch: Provider.Dispatch)
    requires st.vacantPages != 0 && |st.pool| > 0 && reusable(st.pool[|st.pool| - 1])
    ensures var step := Query(st, reqId, p, reusable, creation, dispatch);
            && step.state.vacantPages == st.vacantPages
            && step.state.pool == st.pool
  {
    assert Provider.Pop(st.pool) + [st.pool[|st.pool| - 1]] == st.pool;
  }

  /**
   * Starting from an empty pool, the pool stays empty and the counter never
   * rises, whatever happens: every page the legacy provider creates is lost.
   */
  lemma {:induction false} RunNeverRefills(st: Provider.State, events: seq<Provider.Event>,
                                           reusable: Provider.Page -> bool,
                                           parseDate: (string, string) -> Option<Timestamp>)
    requires st.pool == []
    ensures Run(st, events, reusable, parseDate).state.pool == []
    ensures Run(st, events, reusable, parseDate).state.vacantPages <= st.vacantPages
    decreases |events|
  {
    if |events| > 0 {
      var first := Apply(st, events[0], reusable, parseDate);
      assert first.state.pool == [];
      assert first.state.vacantPages <= st.vacantPages;
      RunNeverRefills(first.state, events[1..], reusable, parseDate);
    }
  }

  /** Once the counter has run down to zero, every further query fails with a quota error. */
  lemma ExhaustedRefusesAll(st: Provider.State, reqId: RequestId, p: DocumentCheckParams,
                            reusable: Provider.Page -> bool, creation: Provider.Creation, dispatch: Provider.Dispatch)
    requires st.vacantPages == 0
    ensures Query(st, reqId, p, reusable, creation, dispatch).out
            == [StatusError(reqId, Typed(QueryError(QuotaError, Provider.QUOTA_MESSAGE)))]
  {
  }
}
