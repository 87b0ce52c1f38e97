# OpenCensus Django middleware, modelled in Dafny

This project models the Django integration of OpenCensus. `OpencensusMiddleware` opens one SERVER span per
HTTP request and names it after the view. It records on that span:

- the request's host, method, path, route and URL;
- any exception the view raised;
- the response status code;
- the logged-in user.

Then it closes the span and finishes the trace. A database execute wrapper wraps every SQL call in a CLIENT span
under the current span. A small header carrier lets the trace propagator read incoming headers out of Django's
`request.META`.

Every hook first asks whether the request's path is on the exclude list, and does nothing for an excluded request.
The database wrapper has no such gate: it traces a query whenever a tracer is current.

Modules:

- `Values` (`values.dfy`): options, the outcome of a call that may raise, exceptions, attribute values, and
  Python's `str()` of an integer with its decimal round trip.
- `Meta` (`meta_wrapper.dfy`): `_DjangoMetaWrapper.get`, the mapping from a header name to its META key
  (`HTTP_` + upper case + `-` replaced by `_`), and what that mapping identifies.
- `Spans` (`spans.dfy`): spans, and the per-request tracer as the middleware uses it. The tracer holds a stack of
  open spans with a current span, `start_span`, `add_attribute_to_current_span`, `end_span` and `finish`. Its
  invariant `Valid` says:
  - no open span is ended;
  - no span is open twice;
  - each open span's parent is the span below it.
- `Django` (`django.dfy`): request, user, view and response as the middleware reads them.
- `Store` (`context_store.dfy`): the per-request execution context. It holds the named attributes
  (`django_request`, `django_span`, `excludelist_hostnames`) and the current tracer.
- `Middleware` (`middleware.dfy`):
  - the four hooks `process_request`, `process_view`, `process_exception` and `process_response`;
  - `_trace_db_call`;
  - `_set_django_attributes`.

  Each hook mutates the spans and the store in place and is specified against pure functions of the old state:
  `WithUserAttributes`, `ErrorAnnotated` and `ResponseAnnotated` give the attributes, `Pop` gives the stack, and
  `RequestTraced` gives the state after the request hook.
- `Lifecycle` (`lifecycle.dfy`): whole requests, run through the hooks in the order Django calls them. These
  start from an empty context, as a thread's first request does:
  - a traced request;
  - an excluded request;
  - a request whose trace headers cannot be decoded;
  - a request whose host Django rejects.

  Nothing in the middleware clears the context after a request, so two more scenarios run a second request on the
  context a traced request left behind:
  - an excluded request, whose query is traced into the earlier request's tracer;
  - an undecodable request, whose status code is written onto the earlier request's closed root span.

Collaborators whose code is not part of this model are inputs:

- `utils.disable_tracing_url` is a function of the path and the exclude list.
- `propagator.from_headers` is a function of the header carrier that may raise.
- `request.get_host()` is a result or an exception stored in the request.
- `request.build_absolute_uri()`, `request.method`, `request.user` and `utils.get_func_name(view_func)` are values
  stored in the request and the view.
- The database `execute` callback is a fixed function from call to outcome, with a log of the calls made.

The source's `try`/`except Exception: log.error(...)` blocks are modelled as early returns. A step that raises
(the propagator, `get_host()`, or an attribute access on a missing span or tracer) ends the block. What was done
before that step stays done.

The tracer's invariant `Valid` is required by the methods that close spans. It is not a demand the source puts on
its callers: the tracer's constructor establishes it and every tracer operation preserves it.

`_set_django_attributes` adds `django.user.id` and `django.user.name` each on its own, whenever that value is not
None (see `WithUserAttributes`).

## Model

| member | source | states |
|---|---|---|
| Meta.Upper | contrib/opencensus-ext-django/opencensus/ext/django/middleware.py:71 | `key.upper()` keeps the length and upper-cases each ASCII letter in place |
| Meta.UpperChar | contrib/opencensus-ext-django/opencensus/ext/django/middleware.py:71 | one character of `upper()`: a lower-case ASCII letter becomes the matching capital, anything else is kept |
| Meta.DashesToUnderscores | contrib/opencensus-ext-django/opencensus/ext/django/middleware.py:71 | `replace('-', '_')` keeps the length and changes exactly the dashes |
| Meta.MetaChar | contrib/opencensus-ext-django/opencensus/ext/django/middleware.py:71 | what a header character becomes in the META key: a dash becomes `_`, a lower-case ASCII letter its capital, the rest is kept; the result is never `-` or lower-case ASCII |
| Meta.HeaderKey | contrib/opencensus-ext-django/opencensus/ext/django/middleware.py:71 | the META key is `HTTP_` followed by the header name, one transformed character per character |
| Meta.MetaWrapper.Get | contrib/opencensus-ext-django/opencensus/ext/django/middleware.py:70-71 | `get` finds a value exactly when META holds the header's key, and the value is the one stored there; otherwise None |
| Meta.HeaderKeyEqual | contrib/opencensus-ext-django/opencensus/ext/django/middleware.py:70-71 | two header names share a META key if and only if they have the same length and agree up to case and dash/underscore |
| Meta.GetIgnoresCaseAndDashes | contrib/opencensus-ext-django/opencensus/ext/django/middleware.py:70-71 | `get` gives the same answer for header names that differ only in case or in `-`/`_` |
| Meta.HeaderKeyShape | contrib/opencensus-ext-django/opencensus/ext/django/middleware.py:71 | every key `get` looks up starts with `HTTP_` and holds no `-` and no lower-case ASCII letter |
| Meta.GetSeesOnlyHttpEntries | contrib/opencensus-ext-django/opencensus/ext/django/middleware.py:70-71 | for any META, `get` answers as it would on the META restricted to keys starting with `HTTP_`: other entries are never read |
| Values.NatToDecimal | contrib/opencensus-ext-django/opencensus/ext/django/middleware.py:109 | `str()` of a non-negative integer is a non-empty string of decimal digits |
| Values.ToStr | contrib/opencensus-ext-django/opencensus/ext/django/middleware.py:109-112 | `str()` of an attribute value: a string is kept, an integer is printed in decimal with a leading `-` when negative |
| Values.NoLeadingZero | contrib/opencensus-ext-django/opencensus/ext/django/middleware.py:109 | `str()` of a non-negative integer starts with `0` exactly when the integer is zero |
| Values.DecimalRoundTrip | contrib/opencensus-ext-django/opencensus/ext/django/middleware.py:109 | reading the printed digits back gives the number again |
| Values.DecimalInjective | contrib/opencensus-ext-django/opencensus/ext/django/middleware.py:109 | different non-negative integers print differently |
| Values.IntToStrShape | contrib/opencensus-ext-django/opencensus/ext/django/middleware.py:109 | a printed integer starts with `-` exactly when it is negative, followed by its digits |
| Values.IntToStrInjective | contrib/opencensus-ext-django/opencensus/ext/django/middleware.py:104-109 | different integer primary keys never give the same `django.user.id` attribute (a string key and an integer key may) |
| Spans.Pop | contrib/opencensus-ext-django/opencensus/ext/django/middleware.py:143 | closing a span removes exactly the innermost open span; an empty stack stays empty |
| Spans.Span.constructor | contrib/opencensus-ext-django/opencensus/ext/django/middleware.py:123 | a new span has the given parent, the default name, no kind, no attributes, no status, and is not ended |
| Spans.Span.AddAttribute | contrib/opencensus-ext-django/opencensus/ext/django/middleware.py:266-268 | `add_attribute` sets one key and leaves the others |
| Spans.Span.SetStatus | contrib/opencensus-ext-django/opencensus/ext/django/middleware.py:138 | `set_status` replaces the span's status |
| Spans.Tracer.constructor | contrib/opencensus-ext-django/opencensus/ext/django/middleware.py:204-208 | a new tracer keeps the decoded span context, has no open or closed span, is not finished, and satisfies its invariant |
| Spans.Tracer.Valid | contrib/opencensus-ext-django/opencensus/ext/django/middleware.py:123-143 | the tracer's invariant: no open span has ended, none is open twice, and each open span's parent is the span below it |
| Spans.Tracer.CurrentSpan | contrib/opencensus-ext-django/opencensus/ext/django/middleware.py:254 | `current_span()` is None exactly when no span is open, otherwise the innermost open span, the last one on the stack |
| Spans.Tracer.CurrentSpanIsOpen | contrib/opencensus-ext-django/opencensus/ext/django/middleware.py:254 | under the tracer's invariant the current span has not ended |
| Spans.Tracer.StartSpan | contrib/opencensus-ext-django/opencensus/ext/django/middleware.py:123 | `start_span()` pushes a fresh default span whose parent is the old current span, and keeps the invariant |
| Spans.Tracer.AddAttributeToCurrentSpan | contrib/opencensus-ext-django/opencensus/ext/django/middleware.py:127-130 | sets one attribute on the current span only |
| Spans.Tracer.EndSpan | contrib/opencensus-ext-django/opencensus/ext/django/middleware.py:143 | `end_span()` ends the current span, pops it and records it as closed; with no open span nothing changes; the invariant is kept |
| Spans.Tracer.Finish | contrib/opencensus-ext-django/opencensus/ext/django/middleware.py:274 | `finish()` marks the trace finished |
| Store.ContextStore.constructor | contrib/opencensus-ext-django/opencensus/ext/django/middleware.py:74-94 | an empty context, with no attributes and no tracer, as at the first request a thread serves |
| Store.ContextStore.SetAttr | contrib/opencensus-ext-django/opencensus/ext/django/middleware.py:190-196 | `set_opencensus_attr` sets one key and keeps the others |
| Store.ContextStore.SetTracer | contrib/opencensus-ext-django/opencensus/ext/django/middleware.py:204-208 | creating the tracer makes it the current tracer |
| Store.ContextStore.DjangoRequest | contrib/opencensus-ext-django/opencensus/ext/django/middleware.py:74-80 | `_get_django_request()` returns the stored request exactly when one is stored under `django_request` |
| Store.ContextStore.DjangoSpan | contrib/opencensus-ext-django/opencensus/ext/django/middleware.py:83-89 | `_get_django_span()` returns the stored span exactly when one is stored under `django_span` |
| Django.Response.constructor | contrib/opencensus-ext-django/opencensus/ext/django/middleware.py:266-268 | a response carries the status code the hook reads |
| Middleware.WithUserAttributes | contrib/opencensus-ext-django/opencensus/ext/django/middleware.py:97-112 | without a user nothing changes; with one, the id is set exactly when `pk` is not None and the name exactly when the user name is not None, each independently, as `str()` of the value; no other key changes |
| Middleware.WithUserAttributesIdempotent | contrib/opencensus-ext-django/opencensus/ext/django/middleware.py:97-112 | recording the user twice gives the same attributes as recording it once |
| Middleware.SetDjangoAttributes | contrib/opencensus-ext-django/opencensus/ext/django/middleware.py:97-112 | `_set_django_attributes` changes the span's attributes exactly as `WithUserAttributes` says |
| Middleware.ErrorAnnotated | contrib/opencensus-ext-django/opencensus/ext/django/middleware.py:286-302 | after `process_exception` the span holds the exception's class name, message and traceback; only those and the user keys change |
| Middleware.ResponseAnnotated | contrib/opencensus-ext-django/opencensus/ext/django/middleware.py:264-270 | after `process_response` the span holds the status code; only it and the user keys change |
| Middleware.ExceptionThenResponse | contrib/opencensus-ext-django/opencensus/ext/django/middleware.py:259-302 | the error attributes survive `process_response`, beside the status code, and the user attributes are those of one recording |
| Middleware.Executor.constructor | contrib/opencensus-ext-django/opencensus/ext/django/middleware.py:115 | the execute callback starts with no recorded call |
| Middleware.Executor.Execute | contrib/opencensus-ext-django/opencensus/ext/django/middleware.py:118 | calling `execute` logs the call and yields its fixed outcome |
| Middleware.DbSpanAttributes | contrib/opencensus-ext-django/opencensus/ext/django/middleware.py:127-130 | the four attributes of a database span: vendor, connection alias, SQL text and `db.type` = `sql` |
| Middleware.TraceDbCall | contrib/opencensus-ext-django/opencensus/ext/django/middleware.py:115-143 | `execute` runs once with the same arguments and its result or exception is passed on; without a tracer nothing else happens; with one, exactly one fresh CLIENT span named `<vendor>.query` is opened under the current span, carries the four database attributes, gets status UNKNOWN/'DB error' exactly when `execute` raised an exception the `except Exception:` clause catches, and is closed in every case, leaving the open stack as it was |
| Middleware.StartDbSpan | contrib/opencensus-ext-django/opencensus/ext/django/middleware.py:120-130 | the database span is pushed under the current span with its name, kind CLIENT and exactly the four database attributes |
| Middleware.AddDbAttributes | contrib/opencensus-ext-django/opencensus/ext/django/middleware.py:127-130 | the current span gets `component`, `db.instance`, `db.statement` and `db.type` = `sql`, over its old attributes |
| Middleware.EndDbSpan | contrib/opencensus-ext-django/opencensus/ext/django/middleware.py:132-143 | when the `except Exception:` clause ran, the span's status becomes UNKNOWN/'DB error'; in every case the `finally` clause ends and pops the span |
| Middleware.OpencensusMiddleware.ProcessRequest | contrib/opencensus-ext-django/opencensus/ext/django/middleware.py:179-239 | an excluded path changes nothing; otherwise the request and the hostname list are stored, and then the request is traced as `RequestTraced` says |
| Middleware.OpencensusMiddleware.RequestTraced | contrib/opencensus-ext-django/opencensus/ext/django/middleware.py:198-239 | the state after the guarded block: unchanged if the propagator raised; otherwise a new current tracer with the decoded context, no closed span and one open root span, which is stored under `django_span` exactly when `get_host()` answered |
| Middleware.OpencensusMiddleware.Excluded | contrib/opencensus-ext-django/opencensus/ext/django/middleware.py:186-187 | the gate every hook evaluates first, at lines 186, 247, 261 and 282: `disable_tracing_url` of the path and the path exclude list |
| Middleware.OpencensusMiddleware.TraceRequest | contrib/opencensus-ext-django/opencensus/ext/django/middleware.py:198-239 | if the propagator raises nothing more happens; otherwise a fresh tracer becomes current with one open root SERVER span, which is stored under `django_span` only when `get_host()` answers |
| Middleware.OpencensusMiddleware.StartServerSpan | contrib/opencensus-ext-django/opencensus/ext/django/middleware.py:211-228 | the root span has no parent, kind SERVER and either the five request attributes or, when `get_host()` raises, none |
| Middleware.ServerAttributes | contrib/opencensus-ext-django/opencensus/ext/django/middleware.py:213-227 | the request attributes of the root span: none when `get_host()` raises, otherwise host, method, path, route (the path again) and absolute URL |
| Middleware.OpencensusMiddleware.ServerSpanOpened | contrib/opencensus-ext-django/opencensus/ext/django/middleware.py:211-228 | the root span as `process_request` leaves it: no parent, the default name, kind SERVER, no status, open, with the request attributes |
| Middleware.OpencensusMiddleware.AddRequestAttributes | contrib/opencensus-ext-django/opencensus/ext/django/middleware.py:213-228 | the current span gets host, method, path, route (the path again) and absolute URL, in that order, over its old attributes |
| Middleware.OpencensusMiddleware.ProcessView | contrib/opencensus-ext-django/opencensus/ext/django/middleware.py:241-257 | the current span is renamed after the view unless the path is excluded |
| Middleware.OpencensusMiddleware.ProcessException | contrib/opencensus-ext-django/opencensus/ext/django/middleware.py:280-304 | the stored span, not the current one, gets the error and user attributes, unless excluded; no span is closed |
| Middleware.OpencensusMiddleware.ProcessResponse | contrib/opencensus-ext-django/opencensus/ext/django/middleware.py:259-278 | the given response is always returned; unless excluded or no span is stored, the stored span gets the status code and the user, and the current span is closed (one pop) and the trace finished; the invariant is kept |
| Middleware.OpencensusMiddleware.FinishTrace | contrib/opencensus-ext-django/opencensus/ext/django/middleware.py:272-274 | `end_span()` then `finish()`: one pop, the popped span ended and closed, the trace finished |
| Lifecycle.Begin | contrib/opencensus-ext-django/opencensus/ext/django/middleware.py:179-257 | after the request and view hooks, a fresh tracer holds exactly the root span, named after the view, with the request attributes; it is stored only when the host answered |
| Lifecycle.Query | contrib/opencensus-ext-django/opencensus/ext/django/middleware.py:115-143 | a query while the root span is current leaves the root span current and closes one CLIENT span named after the vendor whose parent is the root; it yields `execute`'s outcome |
| Lifecycle.End | contrib/opencensus-ext-django/opencensus/ext/django/middleware.py:259-304 | the exception and response hooks leave the root span annotated, ended and handed to the exporter after the spans closed before it, and the trace finished |
| Lifecycle.TracedRequest | contrib/opencensus-ext-django/opencensus/ext/django/middleware.py:179-304 | a whole traced request: the tracer exports exactly two spans, first the query's CLIENT span, closed under the root, then the root; the root is named after the view, is SERVER, carries request, error (if raised), status code and user attributes, has no status, and is closed; no span stays open; the trace is finished; the response is returned unchanged |
| Lifecycle.ExcludedRequest | contrib/opencensus-ext-django/opencensus/ext/django/middleware.py:179-304 | an excluded request on an empty context leaves it empty and creates no tracer; its query runs untraced; the response is returned unchanged |
| Lifecycle.UndecodableRequest | contrib/opencensus-ext-django/opencensus/ext/django/middleware.py:190-239 | when the propagator raises on an empty context, only the request and hostname list are stored, no tracer exists, and queries run untraced |
| Lifecycle.HostRejectedRequest | contrib/opencensus-ext-django/opencensus/ext/django/middleware.py:211-278 | when `get_host()` raises, the root span keeps no attributes and is never stored, so `process_response` leaves it open and the trace unfinished |
| Lifecycle.ServeTraced | contrib/opencensus-ext-django/opencensus/ext/django/middleware.py:179-278 | after a traced request the context still holds its finished tracer as the current one and its closed root span under `django_span` |
| Lifecycle.ExcludedRequestOnReusedStore | contrib/opencensus-ext-django/opencensus/ext/django/middleware.py:115-143 | a later excluded request's query is still traced, into the earlier tracer, as a parentless CLIENT span exported after the earlier root span |
| Lifecycle.UndecodableRequestOnReusedStore | contrib/opencensus-ext-django/opencensus/ext/django/middleware.py:259-270 | a later request whose headers cannot be decoded has its status code written onto the earlier request's root span, which is already closed |
| Lifecycle.UndecodableAfter | contrib/opencensus-ext-django/opencensus/ext/django/middleware.py:190-270 | on a context whose stored span is the given one, an undecodable request's hooks annotate that span with the new status code and user |

## Left out

- `OpencensusMiddleware.__init__`: reading the settings, loading the configured sampler, exporter and propagator,
  registering the execute wrapper, and registering the integration. The model takes the two exclude lists and the
  collaborators as given.
- Sampling: the sampler's decision, and the no-op tracer of an unsampled request, are not modelled. Every request
  that is not excluded and whose headers decode is traced.
- Exporting: `end_span` records closed spans in the tracer's `closed` list in place of the exporter. `finish()` only
  sets `finished`.
- Thread-local isolation: `execution_context` is shared per thread in the source. Here it is one explicit
  `ContextStore`, and concurrent requests are not modelled.
- Context reuse: the hooks take any context, but most `Lifecycle` scenarios start from an empty one, which holds
  only for the first request a thread serves. In the source the context outlives a request and nothing in the
  middleware clears it. Two scenarios (`ExcludedRequestOnReusedStore`, `UndecodableRequestOnReusedStore`) show what
  a later request then sees; other orders of requests are not enumerated.
- `utils.disable_tracing_url`, `utils.get_func_name`, `propagator.from_headers`, `request.get_host()` and
  `request.build_absolute_uri()` appear only through their results, because their code is not part of this model.
- The hostname check: `excludelist_hostnames` is stored but never consulted by the middleware itself.
- `_DjangoMetaWrapper.__init__`'s fallback to the stored request's META when no META is passed. The only caller
  passes META explicitly.
- Meta.Upper: `str.upper()` is modelled for ASCII letters only, and other characters are kept unchanged. Python also
  maps other letters, some of them to two characters (`'ß'.upper()` is `'SS'`). So the "same length" in
  `HeaderKeyEqual` holds only under this choice.
- Traceback formatting: `traceback.format_tb` and the `sys.exc_info()` fallback for exceptions without
  `__traceback__`. An exception carries its already formatted traceback as a string.
- Logging: the `log.error` calls in the `except` branches, and the tracer's warning when no span is open.
- Middleware.OpencensusMiddleware.TraceRequest: the `except Exception:` blocks of the hooks let a bare
  `BaseException` (such as `KeyboardInterrupt`) from the propagator or `get_host()` propagate. The model treats every
  such failure as caught. Only `TraceDbCall` tells the two kinds apart.
- A failure raised inside a tracer or span operation is not modelled. Such operations always succeed here. The
  failures that are modelled are:
  - the propagator;
  - `get_host()`;
  - the view;
  - `execute`;
  - a missing span or tracer.
- `_get_current_tracer()` creates a no-op tracer when none is current. Here, having no tracer means the hooks stop
  early, with the same visible effect.
- Attribute values are strings and integers. The status code is stored as the integer Django gives. User ids and
  names are stored as the `str()` of a string or an integer. Other Python types are not modelled.
- Fixed values from modules that are not part of this model:
  - the values of the attribute keys (`http.host`, ..., `stacktrace`), which come from OpenCensus's common attribute
    names;
  - the default span name `span`;
  - `code_pb2.UNKNOWN` = 2.
