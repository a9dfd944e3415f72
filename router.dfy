/**
 * The fasthttp server interceptor (`ServerInterceptor` in package router):
 * two hooks around one request handler. The invocation object is shared by
 * both hooks; BeforeInvoke writes its context slot and AfterInvoke changes
 * the span that slot holds, in place. Each hook is proved against its
 * specification in RouterSpec.
 */
module Router {
  import opened Wrappers
  import opened FastHTTP
  import opened Tracing
  import opened RouterSpec
  import Decimal

  /**
   * One intercepted call. Argument 0 is the request context when it is one,
   * None otherwise; the context slot carries the span from BeforeInvoke to
   * AfterInvoke.
   */
  class Invocation {
    var arg0: Option<RequestCtx>
    var context: Option<Span>

    constructor (arg0: Option<RequestCtx>)
      ensures this.arg0 == arg0 && context == None
    {
      this.arg0 := arg0;
      context := None;
    }

    /** The objects the slot refers to: its span, if any. */
    function SlotObjects(): set<object>
      reads this
    {
      if context.Some? then {context.value} else {}
    }

    function View(): InvView
      reads this, SlotObjects()
    {
      InvView(arg0, if context.Some? then Some(context.value.View()) else None)
    }
  }

  /**
   * Opens the entry span for the request at argument 0 and stores it in the
   * slot; a failure of span creation is returned unchanged and leaves the
   * slot as it was. `decode` stands for the tracing core's reading of the
   * propagation headers.
   */
  method BeforeInvoke(inv: Invocation, decode: PropagationDecoder) returns (err: Option<TracingError>)
    requires inv.arg0.Some?
    modifies inv
    ensures inv.arg0 == old(inv.arg0)
    ensures err == decode(HeaderExtractorFor(inv.arg0.value))
    ensures err.Some? ==> inv.context == old(inv.context)
    ensures err.None? ==> inv.context.Some? && fresh(inv.context.value)
    ensures (inv.View(), err) == BeforeSpec(old(inv.View()), decode(HeaderExtractorFor(inv.arg0.value)))
  {
    var ctx := inv.arg0.value;
    var r := CreateEntrySpan(SpanName(ctx.httpMethod, ctx.uri), HeaderExtractorFor(ctx), EntryOptions(ctx), decode);
    if r.Failure? {
      return Some(r.error);
    }
    inv.context := Some(r.value);
    return None;
  }

  /**
   * Closes the span in the slot: flags it when argument 0 is a request
   * context whose response status is an error status, tags the decimal
   * status, and ends it. With an empty slot it does nothing. It always
   * returns no error and never writes the invocation itself.
   */
  method AfterInvoke(inv: Invocation) returns (err: Option<TracingError>)
    modifies inv.SlotObjects()
    ensures err == None
    ensures inv.arg0 == old(inv.arg0) && inv.context == old(inv.context)
    ensures inv.View() == AfterSpec(old(inv.View()))
  {
    if inv.context.None? {
      return None;
    }
    var span := inv.context.value;
    match inv.arg0 {
      case Some(ctx) =>
        if IsErrorStatus(ctx.statusCode) {
          span.Error();
        }
        span.Tag(TagStatusCode, Decimal.Render(ctx.statusCode));
      case None =>
    }
    span.End();
    return None;
  }

  /**
   * One request as the interception mechanism drives it: a fresh invocation
   * whose argument 0 is the request context, BeforeInvoke, the handler (which
   * this model does not see), then AfterInvoke. Returns BeforeInvoke's error
   * and the state the slot's span is left in.
   */
  method InterceptOnce(ctx: RequestCtx, decode: PropagationDecoder)
    returns (err: Option<TracingError>, span: Option<SpanView>)
    ensures err == decode(HeaderExtractorFor(ctx))
    ensures err.Some? <==> span.None?
    ensures span.Some? ==>
              && span.value.name == SpanName(ctx.httpMethod, ctx.uri)
              && span.value.layer == SpanLayerHTTP && span.value.component == ComponentFastHTTP
              && span.value.endCount == 1
              && (span.value.isError <==> IsErrorStatus(ctx.statusCode))
              && span.value.tags == map[TagHTTPMethod := ctx.httpMethod, TagURL := ctx.uri,
                                        TagStatusCode := Decimal.Render(ctx.statusCode)]
  {
    var inv := new Invocation(Some(ctx));
    err := BeforeInvoke(inv, decode);
    var afterErr := AfterInvoke(inv);
    span := inv.View().context;
    RequestLifecycle(ctx, decode(HeaderExtractorFor(ctx)));
  }
}
