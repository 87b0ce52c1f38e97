/** The Django tracing middleware: the four request hooks, the database call
    wrapper and the helper that records the request's user on a span. */
module Middleware {
  import opened Values
  import opened Meta
  import opened Spans
  import opened Django
  import opened Store

  // Attribute keys the middleware writes.
  const HttpHost: string := "http.host"
  const HttpMethod: string := "http.method"
  const HttpPath: string := "http.path"
  const HttpRoute: string := "http.route"
  const HttpUrl: string := "http.url"
  const HttpStatusCode: string := "http.status_code"
  const ErrorMessage: string := "error.message"
  const ErrorName: string := "error.name"
  const Stacktrace: string := "stacktrace"
  const UserIdKey: string := "django.user.id"
  const UserNameKey: string := "django.user.name"

  /** The attribute `k` of `attrs`, or None. */
  function Lookup(attrs: map<string, Value>, k: string): Option<Value>
  {
    if k in attrs then Some(attrs[k]) else None
  }

  /** The attributes of a span after `_set_django_attributes`: without a
      user nothing changes; with one, `django.user.id` is set exactly when
      the primary key is not None and `django.user.name` exactly when the
      user name is not None, each on its own, and no other key moves. */
  function WithUserAttributes(attrs: map<string, Value>, user: Option<User>): (r: map<string, Value>)
    ensures user.None? ==> r == attrs
    ensures Lookup(r, UserIdKey) ==
      if user.Some? && user.value.pk.Some? then Some(StrVal(ToStr(user.value.pk.value)))
      else Lookup(attrs, UserIdKey)
    ensures Lookup(r, UserNameKey) ==
      if user.Some? && user.value.username.Some? then Some(StrVal(ToStr(user.value.username.value)))
      else Lookup(attrs, UserNameKey)
    ensures forall k :: k != UserIdKey && k != UserNameKey ==> Lookup(r, k) == Lookup(attrs, k)
  {
    match user
    case None => attrs
    case Some(u) =>
      var withId := if u.pk.Some? then attrs[UserIdKey := StrVal(ToStr(u.pk.value))] else attrs;
      if u.username.Some? then withId[UserNameKey := StrVal(ToStr(u.username.value))] else withId
  }

  /** Recording the user twice is the same as recording it once, so
      `process_exception` followed by `process_response` leaves the user
      attributes as either one alone would. */
  lemma WithUserAttributesIdempotent(attrs: map<string, Value>, user: Option<User>)
    ensures WithUserAttributes(WithUserAttributes(attrs, user), user) == WithUserAttributes(attrs, user)
  {
    var once := WithUserAttributes(attrs, user);
    var twice := WithUserAttributes(once, user);
    forall k ensures Lookup(twice, k) == Lookup(once, k) {}
    forall k | k in twice ensures k in once && twice[k] == once[k] {
      assert Lookup(twice, k) == Lookup(once, k);
    }
    forall k | k in once ensures k in twice {
      assert Lookup(twice, k) == Lookup(once, k);
    }
  }

  /** `_set_django_attributes(span, request)`. */
  method SetDjangoAttributes(span: Span, request: Request)
    modifies span`attrs
    ensures span.attrs == WithUserAttributes(old(span.attrs), request.user)
  {
    if request.user.None? {
      return;
    }
    var user := request.user.value;
    if user.pk.Some? {
      span.AddAttribute(UserIdKey, StrVal(ToStr(user.pk.value)));
    }
    if user.username.Some? {
      span.AddAttribute(UserNameKey, StrVal(ToStr(user.username.value)));
    }
  }

  /** The stored span's attributes after `process_exception` records
      `exception`: its class name, message and traceback, then the user. */
  function ErrorAnnotated(attrs: map<string, Value>, e: Exception, user: Option<User>): (r: map<string, Value>)
    ensures Lookup(r, ErrorName) == Some(StrVal(e.name))
    ensures Lookup(r, ErrorMessage) == Some(StrVal(e.message))
    ensures Lookup(r, Stacktrace) == Some(StrVal(e.traceback))
    ensures forall k :: k !in {ErrorName, ErrorMessage, Stacktrace, UserIdKey, UserNameKey} ==>
      Lookup(r, k) == Lookup(attrs, k)
  {
    WithUserAttributes(attrs[ErrorName := StrVal(e.name)][ErrorMessage := StrVal(e.message)]
                            [Stacktrace := StrVal(e.traceback)], user)
  }

  /** The stored span's attributes after `process_response` records the
      status code, then the user. */
  function ResponseAnnotated(attrs: map<string, Value>, statusCode: int, user: Option<User>): (r: map<string, Value>)
    ensures Lookup(r, HttpStatusCode) == Some(IntVal(statusCode))
    ensures forall k :: k !in {HttpStatusCode, UserIdKey, UserNameKey} ==>
      Lookup(r, k) == Lookup(attrs, k)
  {
    WithUserAttributes(attrs[HttpStatusCode := IntVal(statusCode)], user)
  }

  /** An exception recorded by `process_exception` is still on the span
      after `process_response`, beside the status code, and the user
      attributes are those of one recording. */
  lemma ExceptionThenResponse(attrs: map<string, Value>, e: Exception, statusCode: int, user: Option<User>)
    ensures var r := ResponseAnnotated(ErrorAnnotated(attrs, e, user), statusCode, user);
      && Lookup(r, ErrorName) == Some(StrVal(e.name))
      && Lookup(r, ErrorMessage) == Some(StrVal(e.message))
      && Lookup(r, Stacktrace) == Some(StrVal(e.traceback))
      && Lookup(r, HttpStatusCode) == Some(IntVal(statusCode))
      && Lookup(r, UserIdKey) == Lookup(WithUserAttributes(attrs, user), UserIdKey)
      && Lookup(r, UserNameKey) == Lookup(WithUserAttributes(attrs, user), UserNameKey)
  {
    var errored := ErrorAnnotated(attrs, e, user);
    var r := ResponseAnnotated(errored, statusCode, user);
    assert Lookup(r, ErrorName) == Lookup(errored, ErrorName);
    assert Lookup(r, ErrorMessage) == Lookup(errored, ErrorMessage);
    assert Lookup(r, Stacktrace) == Lookup(errored, Stacktrace);
  }

  /** `context['connection']`: the database vendor and connection alias. */
  datatype DbContext = DbContext(vendor: string, alias: string)

  /** The arguments Django passes to an execute wrapper. */
  datatype DbCall = DbCall(sql: string, params: seq<Value>, many: bool, context: DbContext)

  /** The `execute` callback a wrapper receives: the rest of Django's
      execution chain, seen as a fixed answer per call, with a record of the
      calls made. */
  class Executor<R> {
    const respond: DbCall -> Outcome<R>
    ghost var calls: seq<DbCall>

    constructor (respond: DbCall -> Outcome<R>)
      ensures this.respond == respond && calls == []
    {
      this.respond := respond;
      calls := [];
    }

    method Execute(call: DbCall) returns (r: Outcome<R>)
      modifies this`calls
      ensures calls == old(calls) + [call]
      ensures r == respond(call)
    {
      r := respond(call);
      calls := calls + [call];
    }
  }

  /** The attributes of the span around a database call. */
  function DbSpanAttributes(call: DbCall): map<string, Value>
  {
    map["component" := StrVal(call.context.vendor),
        "db.instance" := StrVal(call.context.alias),
        "db.statement" := StrVal(call.sql),
        "db.type" := StrVal("sql")]
  }

  /** `_trace_db_call(execute, sql, params, many, context)`. `execute` is
      called once with the same arguments and its result or exception is
      passed on. With no current tracer nothing else happens; otherwise one
      CLIENT span is opened under the current span and closed again whatever
      `execute` does, so the open-span stack is as before, and the span
      carries exactly the four database attributes and, only when `execute`
      raised an `Exception` (not a bare `BaseException`, which the `except`
      clause lets through untouched), the status UNKNOWN / 'DB error'. */
  method TraceDbCall<R>(store: ContextStore, execute: Executor<R>, call: DbCall) returns (r: Outcome<R>)
    requires store.tracer != null ==> store.tracer.Valid()
    modifies execute`calls, store.TracerFrame()
    ensures r == execute.respond(call)
    ensures execute.calls == old(execute.calls) + [call]
    ensures store.tracer != null ==>
      var t := store.tracer;
      && t.Valid()
      && t.stack == old(t.stack)
      && t.finished == old(t.finished)
      && |t.closed| == |old(t.closed)| + 1
      && t.closed[..|old(t.closed)|] == old(t.closed)
      && var s := t.closed[|old(t.closed)|];
         && fresh(s)
         && s.parent == old(t.CurrentSpan())
         && s.name == call.context.vendor + ".query"
         && s.kind == Client
         && s.attrs == DbSpanAttributes(call)
         && s.ended
         && s.status == (if r.Raised? && r.error.isException then Some(Status(UnknownCode, "DB error")) else None)
  {
    var tracer := store.tracer;
    if tracer == null {
      r := execute.Execute(call);
      return;
    }
    var span := StartDbSpan(tracer, call);
    r := execute.Execute(call);
    EndDbSpan(tracer, span, r.Raised? && r.error.isException);
  }

  /** The part of `_trace_db_call` after `execute` has run: when the `except
      Exception:` clause ran (`failed`) the span's status becomes UNKNOWN /
      'DB error'; either way the `finally` clause closes the span, the current
      one. */
  method EndDbSpan(tracer: Tracer, span: Span, failed: bool)
    requires tracer.Valid() && tracer.stack != [] && tracer.CurrentSpan() == span
    modifies tracer`stack, tracer`closed, span`status, span`ended
    ensures tracer.Valid()
    ensures tracer.stack == old(tracer.stack)[..|old(tracer.stack)| - 1]
    ensures tracer.closed == old(tracer.closed) + [span]
    ensures span.ended
    ensures span.status == if failed then Some(Status(UnknownCode, "DB error")) else old(span.status)
  {
    if failed {
      span.SetStatus(Status(UnknownCode, "DB error"));
    }
    tracer.EndSpan();
  }

  /** The part of `_trace_db_call` before `execute` runs: a CLIENT span named
      after the vendor is opened under the current span and given the four
      database attributes. */
  method StartDbSpan(tracer: Tracer, call: DbCall) returns (span: Span)
    requires tracer.Valid()
    modifies tracer`stack
    ensures tracer.Valid()
    ensures fresh(span) && tracer.stack == old(tracer.stack) + [span]
    ensures span.parent == old(tracer.CurrentSpan())
    ensures span.name == call.context.vendor + ".query"
    ensures span.kind == Client
    ensures span.attrs == DbSpanAttributes(call)
    ensures span.status == None && !span.ended
  {
    span := tracer.StartSpan();
    span.name := call.context.vendor + ".query";
    span.kind := Client;

    AddDbAttributes(tracer, call);
  }

  /** The four `add_attribute_to_current_span` calls of `_trace_db_call`. */
  method AddDbAttributes(tracer: Tracer, call: DbCall)
    requires tracer.stack != []
    modifies tracer.Current()`attrs
    ensures tracer.CurrentSpan().attrs == old(tracer.CurrentSpan().attrs)
      ["component" := StrVal(call.context.vendor)]
      ["db.instance" := StrVal(call.context.alias)]
      ["db.statement" := StrVal(call.sql)]
      ["db.type" := StrVal("sql")]
  {
    tracer.AddAttributeToCurrentSpan("component", StrVal(call.context.vendor));
    tracer.AddAttributeToCurrentSpan("db.instance", StrVal(call.context.alias));
    tracer.AddAttributeToCurrentSpan("db.statement", StrVal(call.sql));
    tracer.AddAttributeToCurrentSpan("db.type", StrVal("sql"));
  }

  /** The attributes the root span of `request` gets in `process_request`:
      none when `get_host()` raises, else host, method, path, route (the path
      again) and absolute URL. */
  function ServerAttributes(request: Request): map<string, Value>
  {
    if request.host.Raised? then map[] else
      map[HttpHost := StrVal(request.host.value),
          HttpMethod := StrVal(request.httpMethod),
          HttpPath := StrVal(request.path),
          HttpRoute := StrVal(request.path),
          HttpUrl := StrVal(request.absoluteUri)]
  }

  /** The middleware object: the settings `__init__` reads, with the
      collaborators it uses given as functions. */
  datatype OpencensusMiddleware = OpencensusMiddleware(
    excludelistPaths: Option<seq<string>>,
    excludelistHostnames: Option<seq<string>>,
    disableTracingUrl: (string, Option<seq<string>>) -> bool,
    fromHeaders: MetaWrapper -> Outcome<SpanContext>)
  {
    /** The gate every hook evaluates first. */
    predicate Excluded(request: Request)
    {
      disableTracingUrl(request.path, excludelistPaths)
    }

    /** `process_request`: for an excluded path nothing is written. Otherwise
        the request and the hostname exclude list are stored first, outside
        the guarded block, and then the request is traced (`TraceRequest`). */
    method ProcessRequest(store: ContextStore, request: Request)
      modifies store
      ensures Excluded(request) ==> store.attrs == old(store.attrs) && store.tracer == old(store.tracer)
      ensures !Excluded(request) ==>
        RequestTraced(old(store.attrs)[RequestKey := RequestEntry(request)]
                                      [HostnamesKey := HostnamesEntry(excludelistHostnames)],
                      old(store.tracer), store, request)
      ensures !Excluded(request) && fromHeaders(MetaWrapper(request.meta)).Returned? ==>
        fresh(store.tracer) && fresh(store.tracer.stack[0]) && store.tracer.Valid()
    {
      if Excluded(request) {
        return;
      }
      store.SetAttr(RequestKey, RequestEntry(request));
      store.SetAttr(HostnamesKey, HostnamesEntry(excludelistHostnames));
      TraceRequest(store, request);
    }

    /** The state after the guarded block of `process_request`, from the
        store's attributes `before` and its tracer `tracerBefore`: if the
        propagator raises, nothing more; otherwise a new tracer is current,
        with a single open SERVER span; if `get_host()` raises, that span has
        no attributes and is not stored; otherwise it carries the five
        request attributes and is stored under 'django_span'. */
    ghost predicate RequestTraced(before: map<string, Entry>, tracerBefore: Tracer?,
                                  store: ContextStore, request: Request)
      reads store, store.tracer, if store.tracer == null then {} else set s | s in store.tracer.stack
    {
      if fromHeaders(MetaWrapper(request.meta)).Raised? then
        store.attrs == before && store.tracer == tracerBefore
      else
        && store.tracer != null
        && store.tracer.spanContext == fromHeaders(MetaWrapper(request.meta)).value
        && store.tracer.closed == [] && !store.tracer.finished
        && |store.tracer.stack| == 1
        && ServerSpanOpened(store.tracer.stack[0], request)
        && store.attrs == (if request.host.Raised? then before
                           else before[SpanKey := SpanEntry(store.tracer.stack[0])])
    }

    /** The root span of a request: an open SERVER span with no parent, the
        default name and, once `get_host()` has answered, the request's
        host, method, path, route (the path again) and absolute URL. */
    ghost predicate ServerSpanOpened(span: Span, request: Request)
      reads span
    {
      && span.parent == null
      && span.name == DefaultSpanName
      && span.kind == Server
      && span.status == None
      && !span.ended
      && span.attrs == ServerAttributes(request)
    }

    /** The guarded block of `process_request`: decode the incoming context
        from the stored request's META, create the tracer (which becomes the
        current one), open the root span and store it. A raising step ends
        the block and is swallowed. */
    method TraceRequest(store: ContextStore, request: Request)
      requires store.DjangoRequest() == Some(request)
      modifies store
      ensures RequestTraced(old(store.attrs), old(store.tracer), store, request)
      ensures fromHeaders(MetaWrapper(request.meta)).Returned? ==>
        fresh(store.tracer) && fresh(store.tracer.stack[0]) && store.tracer.Valid()
    {
      var spanContext := fromHeaders(MetaWrapper(store.DjangoRequest().value.meta));
      if spanContext.Raised? {
        return;
      }
      var tracer := new Tracer(spanContext.value);
      store.SetTracer(tracer);

      var span, traced := StartServerSpan(tracer, request);
      if traced {
        store.SetAttr(SpanKey, SpanEntry(span));
      }
    }

    /** Opening the root span: `start_span()`, kind SERVER, then the five
        request attributes; `traced` is false when `get_host()` raised, which
        leaves the span open without attributes. */
    method StartServerSpan(tracer: Tracer, request: Request) returns (span: Span, traced: bool)
      requires tracer.Valid() && tracer.stack == []
      modifies tracer`stack
      ensures tracer.Valid() && tracer.stack == [span] && fresh(span)
      ensures traced == request.host.Returned?
      ensures ServerSpanOpened(span, request)
    {
      span := tracer.StartSpan();
      span.kind := Server;
      if request.host.Raised? {
        return span, false;
      }
      AddRequestAttributes(tracer, request);
      traced := true;
      // The attribute calls leave the fields set by `start_span()` alone.
      assert span.parent == null && span.name == DefaultSpanName && span.kind == Server
        && span.status == None && !span.ended;
    }

    /** The five `add_attribute_to_current_span` calls of `process_request`,
        once `get_host()` has answered. */
    static method AddRequestAttributes(tracer: Tracer, request: Request)
      requires tracer.stack != [] && request.host.Returned?
      modifies tracer.Current()`attrs
      ensures tracer.CurrentSpan().attrs == old(tracer.CurrentSpan().attrs)
        [HttpHost := StrVal(request.host.value)]
        [HttpMethod := StrVal(request.httpMethod)]
        [HttpPath := StrVal(request.path)]
        [HttpRoute := StrVal(request.path)]
        [HttpUrl := StrVal(request.absoluteUri)]
    {
      tracer.AddAttributeToCurrentSpan(HttpHost, StrVal(request.host.value));
      tracer.AddAttributeToCurrentSpan(HttpMethod, StrVal(request.httpMethod));
      tracer.AddAttributeToCurrentSpan(HttpPath, StrVal(request.path));
      tracer.AddAttributeToCurrentSpan(HttpRoute, StrVal(request.path));
      tracer.AddAttributeToCurrentSpan(HttpUrl, StrVal(request.absoluteUri));
    }

    /** `process_view`: renames the current tracer's current span after the
        view; for an excluded path, or with no tracer or no open span, it
        changes nothing. */
    method ProcessView(store: ContextStore, request: Request, view: ViewFunc)
      modifies store.CurrentFrame()`name
      ensures var s := store.CurrentSpan();
        s != null ==> s.name == if Excluded(request) then old(s.name) else view.funcName
    {
      if Excluded(request) {
        return;
      }
      var tracer := store.tracer;
      if tracer == null {
        return;
      }
      var span := tracer.CurrentSpan();
      if span == null {
        return;
      }
      span.name := view.funcName;
    }

    /** `process_exception`: records the exception and the user on the span
        stored at request start, not on the current span, and closes
        nothing; for an excluded path, or with no stored span, it changes
        nothing. */
    method ProcessException(store: ContextStore, request: Request, exception: Exception)
      modifies store.DjangoSpanFrame()`attrs
      ensures var s := store.DjangoSpan();
        s != null ==> (s.attrs ==
          if Excluded(request) then old(s.attrs) else ErrorAnnotated(old(s.attrs), exception, request.user))
      ensures store.tracer != null ==> store.tracer.stack == old(store.tracer.stack)
    {
      if Excluded(request) {
        return;
      }
      var span := store.DjangoSpan();
      if span == null {
        return;
      }
      span.AddAttribute(ErrorName, StrVal(exception.name));
      span.AddAttribute(ErrorMessage, StrVal(exception.message));
      span.AddAttribute(Stacktrace, StrVal(exception.traceback));
      SetDjangoAttributes(span, request);
    }

    /** `process_response`: always returns the response it was given. Unless
        the path is excluded or no span is stored, it records the status
        code and the user on the stored span and then, if there is a current
        tracer, closes its current span (one pop) and finishes it. */
    method ProcessResponse(store: ContextStore, request: Request, response: Response) returns (r: Response)
      requires store.tracer != null ==> store.tracer.Valid()
      modifies store.DjangoSpanFrame()`attrs, store.TracerFrame(), store.CurrentFrame()`ended
      ensures r == response
      ensures var s := store.DjangoSpan();
        s != null ==> (s.attrs ==
          if Excluded(request) then old(s.attrs)
          else ResponseAnnotated(old(s.attrs), response.statusCode, request.user))
      ensures store.tracer != null ==>
        var t := store.tracer;
        && t.Valid()
        && if Excluded(request) || store.DjangoSpan() == null then
             t.stack == old(t.stack) && t.closed == old(t.closed) && t.finished == old(t.finished)
           else
             && t.finished
             && t.stack == Pop(old(t.stack))
             && t.closed == old(t.closed) + (if old(t.stack) == [] then [] else [old(t.CurrentSpan())])
             && (old(t.stack) != [] ==> old(t.CurrentSpan()).ended)
    {
      r := response;
      if Excluded(request) {
        return;
      }
      var span := store.DjangoSpan();
      if span == null {
        return;
      }
      span.AddAttribute(HttpStatusCode, IntVal(response.statusCode));
      SetDjangoAttributes(span, request);

      var tracer := store.tracer;
      if tracer == null {
        return;
      }
      FinishTrace(tracer);
    }

    /** The tail of `process_response`: `end_span()` then `finish()`. */
    static method FinishTrace(tracer: Tracer)
      requires tracer.Valid()
      modifies tracer, tracer.Current()`ended
      ensures tracer.Valid()
      ensures tracer.finished
      ensures tracer.stack == Pop(old(tracer.stack))
      ensures tracer.closed == old(tracer.closed) + (if old(tracer.stack) == [] then [] else [old(tracer.CurrentSpan())])
      ensures old(tracer.stack) != [] ==> old(tracer.CurrentSpan()).ended
    {
      tracer.EndSpan();
      tracer.Finish();
    }
  }
}
