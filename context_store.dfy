/** One request's slice of the execution context: the named attributes the
    middleware sets with `set_opencensus_attr` and the current tracer. */
module Store {
  import opened Values
  import opened Spans
  import opened Django

  const RequestKey: string := "django_request"
  const SpanKey: string := "django_span"
  const HostnamesKey: string := "excludelist_hostnames"

  /** What the middleware stores under its three keys. */
  datatype Entry =
    | RequestEntry(request: Request)
    | HostnamesEntry(hostnames: Option<seq<string>>)
    | SpanEntry(span: Span)

  class ContextStore {
    var attrs: map<string, Entry>
    var tracer: Tracer?

    constructor ()
      ensures attrs == map[] && tracer == null
    {
      attrs := map[];
      tracer := null;
    }

    /** `set_opencensus_attr(key, value)`. */
    method SetAttr(key: string, e: Entry)
      modifies this`attrs
      ensures attrs == old(attrs)[key := e]
    {
      attrs := attrs[key := e];
    }

    /** `set_opencensus_tracer(tracer)`. */
    method SetTracer(t: Tracer)
      modifies this`tracer
      ensures tracer == t
    {
      tracer := t;
    }

    /** `_get_django_request()`: None when no request is stored. */
    function DjangoRequest(): (r: Option<Request>)
      reads this
      ensures r.Some? <==> RequestKey in attrs && attrs[RequestKey].RequestEntry?
      ensures r.Some? ==> attrs[RequestKey] == RequestEntry(r.value)
    {
      if RequestKey in attrs && attrs[RequestKey].RequestEntry?
      then Some(attrs[RequestKey].request) else None
    }

    /** `_get_django_span()`: null when no span is stored. */
    function DjangoSpan(): (s: Span?)
      reads this
      ensures s != null <==> SpanKey in attrs && attrs[SpanKey].SpanEntry?
      ensures s != null ==> attrs[SpanKey] == SpanEntry(s)
    {
      if SpanKey in attrs && attrs[SpanKey].SpanEntry? then attrs[SpanKey].span else null
    }

    /** The stored span as a frame. */
    function DjangoSpanFrame(): set<Span>
      reads this
    {
      if DjangoSpan() == null then {} else {DjangoSpan()}
    }

    /** The current tracer as a frame. */
    function TracerFrame(): set<Tracer>
      reads this
    {
      if tracer == null then {} else {tracer}
    }

    /** The current tracer's current span: null without a tracer or without
        an open span. */
    function CurrentSpan(): (s: Span?)
      reads this, tracer
    {
      if tracer == null then null else tracer.CurrentSpan()
    }

    /** The current tracer's current span as a frame. */
    function CurrentFrame(): set<Span>
      reads this, tracer
    {
      if tracer == null then {} else tracer.Current()
    }
  }
}
