/** One request through the middleware in the order Django calls its hooks:
    `process_request`, `process_view`, the view (here making one database
    query through the wrapper), `process_exception` when the view raised,
    and `process_response`. Most scenarios start from an empty execution
    context, as for the first request a thread serves; the last two run a
    second request on the context the first one left behind, which nothing
    in the middleware clears. */
module Lifecycle {
  import opened Values
  import opened Meta
  import opened Spans
  import opened Django
  import opened Store
  import opened Middleware

  /** `process_request` and `process_view` on an empty context. */
  method Begin(mw: OpencensusMiddleware, request: Request, view: ViewFunc)
    returns (store: ContextStore, tracer: Tracer, root: Span)
    requires !mw.Excluded(request)
    requires mw.fromHeaders(MetaWrapper(request.meta)).Returned?
    ensures fresh(store) && fresh(tracer) && fresh(root)
    ensures store.tracer == tracer && tracer.Valid()
    ensures tracer.stack == [root] && tracer.closed == [] && !tracer.finished
    ensures store.DjangoSpan() == if request.host.Returned? then root else null
    ensures root.parent == null && root.name == view.funcName && root.kind == Server
    ensures root.attrs == ServerAttributes(request) && root.status == None
  {
    store := new ContextStore();
    mw.ProcessRequest(store, request);
    tracer := store.tracer;
    root := tracer.stack[0];
    mw.ProcessView(store, request, view);
  }

  /** The view's database query, made through the wrapper while the root
      span is current: one CLIENT span is closed under the root span, which
      stays current. */
  method Query<R>(store: ContextStore, tracer: Tracer, root: Span, call: DbCall, respond: DbCall -> Outcome<R>)
    returns (dbResult: Outcome<R>)
    requires store.tracer == tracer && tracer.Valid() && tracer.stack == [root]
    modifies tracer
    ensures tracer.Valid() && tracer.stack == [root] && tracer.finished == old(tracer.finished)
    ensures |tracer.closed| == |old(tracer.closed)| + 1 && tracer.closed[..|old(tracer.closed)|] == old(tracer.closed)
    ensures var d := tracer.closed[|old(tracer.closed)|];
      d.parent == root && d.kind == Client && d.name == call.context.vendor + ".query" && d.ended
    ensures dbResult == respond(call)
  {
    var execute := new Executor(respond);
    dbResult := TraceDbCall(store, execute, call);
  }

  /** `process_exception` when the view raised, then `process_response`. */
  method End(mw: OpencensusMiddleware, store: ContextStore, tracer: Tracer, root: Span,
             request: Request, raised: Option<Exception>, statusCode: int)
    returns (sameResponse: bool)
    requires !mw.Excluded(request)
    requires store.tracer == tracer && tracer.Valid() && tracer.stack == [root]
    requires store.DjangoSpan() == root
    modifies root`attrs, root`ended, tracer
    ensures root.attrs == ResponseAnnotated(
      if raised.Some? then ErrorAnnotated(old(root.attrs), raised.value, request.user)
      else old(root.attrs), statusCode, request.user)
    ensures root.ended && tracer.Valid() && tracer.stack == [] && tracer.finished
    ensures tracer.closed == old(tracer.closed) + [root]
    ensures sameResponse
  {
    if raised.Some? {
      mw.ProcessException(store, request, raised.value);
    }
    var response := new Response(statusCode);
    var returned := mw.ProcessResponse(store, request, response);
    sameResponse := returned == response;
  }

  /** A traced request whose host Django accepts: the tracer hands exactly
      two spans to its exporter, first the database span, closed under the
      root span, then the root span itself. The root span is named after the
      view, carries the request attributes, the error attributes when the
      view raised, the status code and the user; no span is left open and
      the trace is finished. */
  method TracedRequest<R>(mw: OpencensusMiddleware, request: Request, view: ViewFunc,
                          call: DbCall, respond: DbCall -> Outcome<R>,
                          raised: Option<Exception>, statusCode: int)
    returns (root: Span, exported: seq<Span>, openSpans: nat, finished: bool,
             dbResult: Outcome<R>, sameResponse: bool)
    requires !mw.Excluded(request)
    requires mw.fromHeaders(MetaWrapper(request.meta)).Returned?
    requires request.host.Returned?
    ensures root.parent == null && root.name == view.funcName && root.kind == Server
    ensures root.attrs == ResponseAnnotated(
      if raised.Some? then ErrorAnnotated(ServerAttributes(request), raised.value, request.user)
      else ServerAttributes(request), statusCode, request.user)
    ensures root.status == None && root.ended
    ensures |exported| == 2 && exported[1] == root
    ensures exported[0].parent == root && exported[0].kind == Client && exported[0].ended
    ensures exported[0].name == call.context.vendor + ".query"
    ensures openSpans == 0 && finished
    ensures dbResult == respond(call)
    ensures sameResponse
  {
    var store, tracer;
    store, tracer, root := Begin(mw, request, view);
    dbResult := Query(store, tracer, root, call, respond);
    sameResponse := End(mw, store, tracer, root, request, raised, statusCode);
    exported := tracer.closed;
    openSpans := |tracer.stack|;
    finished := tracer.finished;
  }

  /** A request on an excluded path: every hook returns at once, so the
      context stays empty, no tracer is created, the query runs untraced and
      the response comes back unchanged. */
  method ExcludedRequest<R>(mw: OpencensusMiddleware, request: Request, view: ViewFunc,
                            call: DbCall, respond: DbCall -> Outcome<R>,
                            raised: Option<Exception>, statusCode: int)
    returns (stored: map<string, Entry>, traced: bool, dbResult: Outcome<R>, sameResponse: bool)
    requires mw.Excluded(request)
    ensures stored == map[] && !traced
    ensures dbResult == respond(call)
    ensures sameResponse
  {
    var store := new ContextStore();
    mw.ProcessRequest(store, request);
    mw.ProcessView(store, request, view);
    var execute := new Executor(respond);
    dbResult := TraceDbCall(store, execute, call);
    if raised.Some? {
      mw.ProcessException(store, request, raised.value);
    }
    var response := new Response(statusCode);
    var returned := mw.ProcessResponse(store, request, response);
    sameResponse := returned == response;
    stored, traced := store.attrs, store.tracer != null;
  }

  /** A request whose trace headers the propagator cannot decode: the
      request and the hostname exclude list are stored, but no tracer or
      span is created and the query runs untraced. */
  method UndecodableRequest<R>(mw: OpencensusMiddleware, request: Request, view: ViewFunc,
                               call: DbCall, respond: DbCall -> Outcome<R>,
                               raised: Option<Exception>, statusCode: int)
    returns (stored: map<string, Entry>, traced: bool, dbResult: Outcome<R>, sameResponse: bool)
    requires !mw.Excluded(request)
    requires mw.fromHeaders(MetaWrapper(request.meta)).Raised?
    ensures stored == map[RequestKey := RequestEntry(request),
                          HostnamesKey := HostnamesEntry(mw.excludelistHostnames)]
    ensures !traced
    ensures dbResult == respond(call)
    ensures sameResponse
  {
    var store := new ContextStore();
    mw.ProcessRequest(store, request);
    mw.ProcessView(store, request, view);
    var execute := new Executor(respond);
    dbResult := TraceDbCall(store, execute, call);
    if raised.Some? {
      mw.ProcessException(store, request, raised.value);
    }
    var response := new Response(statusCode);
    var returned := mw.ProcessResponse(store, request, response);
    sameResponse := returned == response;
    stored, traced := store.attrs, store.tracer != null;
  }

  /** A request whose host Django rejects: `get_host()` raises while the
      root span is being set up, so the span keeps no request attributes
      and is never stored; `process_response` then finds no span, records
      no status code, and neither closes the root span nor finishes the
      trace. */
  method HostRejectedRequest(mw: OpencensusMiddleware, request: Request, view: ViewFunc,
                             statusCode: int)
    returns (name: string, attrs: map<string, Value>, ended: bool, openSpans: nat,
             finished: bool, sameResponse: bool)
    requires !mw.Excluded(request)
    requires mw.fromHeaders(MetaWrapper(request.meta)).Returned?
    requires request.host.Raised?
    ensures name == view.funcName
    ensures attrs == map[]
    ensures !ended && openSpans == 1 && !finished
    ensures sameResponse
  {
    var store, tracer, root := Begin(mw, request, view);
    var response := new Response(statusCode);
    var returned := mw.ProcessResponse(store, request, response);
    sameResponse := returned == response;
    name, attrs, ended := root.name, root.attrs, root.ended;
    openSpans := |tracer.stack|;
    finished := tracer.finished;
  }

  /** A first traced request without a query or an exception, leaving the
      context as the source does: the finished tracer is still current and
      its closed root span is still stored under 'django_span'. */
  method ServeTraced(mw: OpencensusMiddleware, request: Request, view: ViewFunc, statusCode: int)
    returns (store: ContextStore, tracer: Tracer, root: Span)
    requires !mw.Excluded(request)
    requires mw.fromHeaders(MetaWrapper(request.meta)).Returned?
    requires request.host.Returned?
    ensures fresh(store) && fresh(tracer) && fresh(root)
    ensures store.tracer == tracer && store.DjangoSpan() == root
    ensures tracer.Valid() && tracer.stack == [] && tracer.closed == [root] && tracer.finished
    ensures root.ended
  {
    store, tracer, root := Begin(mw, request, view);
    var _ := End(mw, store, tracer, root, request, None, statusCode);
  }

  /** An excluded request served after a traced one on the same context: its
      hooks do nothing, but the database wrapper still finds the earlier
      request's tracer current and traces the query there, as a span without
      parent handed to that tracer's exporter after the earlier root span. */
  method ExcludedRequestOnReusedStore<R>(mw: OpencensusMiddleware, first: Request, view: ViewFunc,
                                         firstStatus: int, second: Request,
                                         call: DbCall, respond: DbCall -> Outcome<R>)
    returns (firstRoot: Span, exported: seq<Span>, dbResult: Outcome<R>)
    requires !mw.Excluded(first)
    requires mw.fromHeaders(MetaWrapper(first.meta)).Returned?
    requires first.host.Returned?
    requires mw.Excluded(second)
    ensures |exported| == 2 && exported[0] == firstRoot
    ensures exported[1].parent == null && exported[1].kind == Client && exported[1].ended
    ensures dbResult == respond(call)
  {
    var store, tracer;
    store, tracer, firstRoot := ServeTraced(mw, first, view, firstStatus);

    mw.ProcessRequest(store, second);
    var execute := new Executor(respond);
    dbResult := TraceDbCall(store, execute, call);
    exported := tracer.closed;
  }

  /** A request whose trace headers cannot be decoded, served after a traced
      one on the same context: `process_request` stores the new request but
      leaves the earlier span under 'django_span', so `process_response`
      writes the new status code onto the earlier request's root span, which
      is already closed. */
  method UndecodableRequestOnReusedStore(mw: OpencensusMiddleware, first: Request, view: ViewFunc,
                                         firstStatus: int, second: Request, secondStatus: int)
    returns (firstRoot: Span)
    requires !mw.Excluded(first)
    requires mw.fromHeaders(MetaWrapper(first.meta)).Returned?
    requires first.host.Returned?
    requires !mw.Excluded(second)
    requires mw.fromHeaders(MetaWrapper(second.meta)).Raised?
    ensures firstRoot.ended
    ensures Lookup(firstRoot.attrs, HttpStatusCode) == Some(IntVal(secondStatus))
  {
    var store, tracer;
    store, tracer, firstRoot := ServeTraced(mw, first, view, firstStatus);

    UndecodableAfter(mw, store, tracer, firstRoot, second, secondStatus);
  }

  /** The hooks of an undecodable request on a context whose stored span is
      `root` and whose tracer has no open span. */
  method UndecodableAfter(mw: OpencensusMiddleware, store: ContextStore, tracer: Tracer, root: Span,
                          request: Request, statusCode: int)
    requires !mw.Excluded(request)
    requires mw.fromHeaders(MetaWrapper(request.meta)).Raised?
    requires store.tracer == tracer && tracer.Valid() && tracer.stack == []
    requires store.DjangoSpan() == root
    modifies store, root`attrs, tracer
    ensures root.attrs == ResponseAnnotated(old(root.attrs), statusCode, request.user)
  {
    mw.ProcessRequest(store, request);
    assert store.DjangoSpan() == root;
    var response := new Response(statusCode);
    var _ := mw.ProcessResponse(store, request, response);
  }
}
