/** Spans and the per-request tracer that keeps the stack of open spans, as
    far as the middleware uses them. */
module Spans {
  import opened Values

  datatype SpanKind = Unspecified | Server | Client

  /** A span status: a `google.rpc.Code` value and a message. */
  datatype Status = Status(code: int, message: string)

  /** `code_pb2.UNKNOWN`. */
  const UnknownCode: int := 2

  /** The name a span gets from `tracer.start_span()` when none is given. */
  const DefaultSpanName: string := "span"

  /** The trace position decoded from the incoming headers (or a fresh one);
      the middleware only passes it on to the tracer. */
  datatype SpanContext = SpanContext(traceId: string, spanId: Option<string>, sampled: bool)

  /** The open-span stack after closing its innermost span; an empty stack
      stays empty. */
  function Pop(stack: seq<Span>): (r: seq<Span>)
    ensures stack == [] ==> r == []
    ensures stack != [] ==> r + [stack[|stack| - 1]] == stack
  {
    if stack == [] then [] else stack[..|stack| - 1]
  }

  class Span {
    var name: string
    var kind: SpanKind
    var attrs: map<string, Value>
    var status: Option<Status>
    /** Set once the span has been closed (its end time is recorded). */
    var ended: bool
    /** The span that was current when this one was started. */
    const parent: Span?

    constructor (parent: Span?)
      ensures this.parent == parent
      ensures name == DefaultSpanName && kind == Unspecified
      ensures attrs == map[] && status == None && !ended
    {
      this.parent := parent;
      name := DefaultSpanName;
      kind := Unspecified;
      attrs := map[];
      status := None;
      ended := false;
    }

    /** `span.add_attribute(key, value)`: adds or overwrites one attribute. */
    method AddAttribute(key: string, value: Value)
      modifies this`attrs
      ensures attrs == old(attrs)[key := value]
    {
      attrs := attrs[key := value];
    }

    /** `span.set_status(status)`. */
    method SetStatus(s: Status)
      modifies this`status
      ensures status == Some(s)
    {
      status := Some(s);
    }
  }

  class Tracer {
    const spanContext: SpanContext
    /** The open spans, outermost first; the last one is the current span. */
    var stack: seq<Span>
    /** The spans this tracer has closed and handed to its exporter, in the
        order it closed them. */
    var closed: seq<Span>
    /** Set by `finish()`. */
    var finished: bool

    /** Every open span is still open, appears once, and was started under
        the span below it. */
    ghost predicate Valid()
      reads this`stack, (set s | s in stack)`ended
    {
      && (forall i :: 0 <= i < |stack| ==> !stack[i].ended)
      && (forall i, j :: 0 <= i < j < |stack| ==> stack[i] != stack[j])
      && (forall i, j {:trigger stack[i], stack[j]} :: 0 <= i < j < |stack| && j == i + 1 ==> stack[j].parent == stack[i])
    }

    constructor (spanContext: SpanContext)
      ensures this.spanContext == spanContext
      ensures stack == [] && closed == [] && !finished
      ensures Valid()
    {
      this.spanContext := spanContext;
      stack := [];
      closed := [];
      finished := false;
    }

    /** `current_span()`: the innermost open span, None when no span is
        open. */
    function CurrentSpan(): (s: Span?)
      reads this
      ensures s == null <==> stack == []
      ensures s != null ==> s == stack[|stack| - 1]
    {
      if stack == [] then null else stack[|stack| - 1]
    }

    /** Under the tracer's invariant the current span is still open. */
    lemma CurrentSpanIsOpen()
      requires Valid()
      ensures CurrentSpan() != null ==> CurrentSpan() in stack && !CurrentSpan().ended
    {
    }

    /** The current span as a frame: empty when no span is open. */
    function Current(): set<Span>
      reads this
    {
      if stack == [] then {} else {stack[|stack| - 1]}
    }

    /** `start_span()`: opens a new span under the current one and makes it
        current. */
    method StartSpan() returns (s: Span)
      requires Valid()
      modifies this`stack
      ensures Valid()
      ensures fresh(s) && stack == old(stack) + [s]
      ensures s.parent == old(CurrentSpan())
      ensures s.name == DefaultSpanName && s.kind == Unspecified
      ensures s.attrs == map[] && s.status == None && !s.ended
    {
      s := new Span(CurrentSpan());
      stack := stack + [s];
    }

    /** `add_attribute_to_current_span(key, value)`. */
    method AddAttributeToCurrentSpan(key: string, value: Value)
      requires stack != []
      modifies Current()`attrs
      ensures CurrentSpan().attrs == old(CurrentSpan().attrs)[key := value]
    {
      stack[|stack| - 1].AddAttribute(key, value);
    }

    /** `end_span()`: closes the current span and makes its parent current;
        with no open span it only logs a warning and changes nothing. */
    method EndSpan()
      requires Valid()
      modifies this`stack, this`closed, Current()`ended
      ensures Valid()
      ensures stack == Pop(old(stack))
      ensures old(stack) == [] ==> closed == old(closed)
      ensures old(stack) != [] ==>
        && closed == old(closed) + [old(CurrentSpan())]
        && old(CurrentSpan()).ended
    {
      if stack != [] {
        var s := stack[|stack| - 1];
        s.ended := true;
        stack := stack[..|stack| - 1];
        closed := closed + [s];
      }
    }

    /** `finish()`: hands the trace to the exporter; only recorded here. */
    method Finish()
      modifies this`finished
      ensures finished
    {
      finished := true;
    }
  }
}
