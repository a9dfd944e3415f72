/**
 * The slice of the tracing core the interceptor talks to: entry-span creation
 * with its options, and a span's Tag, Error and End operations, each modelled
 * only by its effect on the span's fields. How the core decodes propagation
 * headers is not part of this model: it is the `decode` parameter of
 * CreateEntrySpan, which sees the header extractor and either accepts or
 * fails with an error.
 */
module Tracing {
  import opened Wrappers

  /** The layer a span is classified under; an entry span without a layer option has none. */
  datatype SpanLayer = SpanLayerUnknown | SpanLayerHTTP

  /** The tag keys this interceptor writes. */
  datatype TagKey = TagHTTPMethod | TagURL | TagStatusCode

  /** An error reported by span creation or by a header extractor. */
  datatype TracingError = TracingError(message: string)

  /** What a header extractor answers for one header key. */
  datatype HeaderLookup = HeaderLookup(value: string, err: Option<TracingError>)

  /** The callback span creation uses to read propagation headers. */
  type HeaderExtractor = string -> HeaderLookup

  /** The tracing core's decoding of the propagated context, which may fail. */
  type PropagationDecoder = HeaderExtractor -> Option<TracingError>

  /** The variadic options of span creation (`WithLayer`, `WithTag`, `WithComponent`). */
  datatype SpanOption =
    | WithLayer(layer: SpanLayer)
    | WithTag(key: TagKey, value: string)
    | WithComponent(id: int)

  /** A span's observable state: tags are keyed uniquely, last write wins. */
  datatype SpanView = SpanView(
    name: string,
    layer: SpanLayer,
    component: int,
    tags: map<TagKey, string>,
    isError: bool,
    endCount: nat)

  /** A span as created before any option is applied. */
  function NewSpanView(name: string): SpanView {
    SpanView(name, SpanLayerUnknown, 0, map[], false, 0)
  }

  function ApplyOption(v: SpanView, o: SpanOption): (r: SpanView)
    ensures r.name == v.name && r.isError == v.isError && r.endCount == v.endCount
    ensures o.WithLayer? ==> r == v.(layer := o.layer)
    ensures o.WithTag? ==> r == v.(tags := v.tags[o.key := o.value])
    ensures o.WithComponent? ==> r == v.(component := o.id)
  {
    match o
    case WithLayer(layer) => v.(layer := layer)
    case WithTag(key, value) => v.(tags := v.tags[key := value])
    case WithComponent(id) => v.(component := id)
  }

  /**
   * The options applied in order to a span. Options only classify and tag: the
   * name is kept, and the span is neither flagged as an error nor ended.
   */
  function ApplyOptions(v: SpanView, opts: seq<SpanOption>): (r: SpanView)
    ensures r.name == v.name && r.isError == v.isError && r.endCount == v.endCount
    decreases |opts|
  {
    if opts == [] then v else ApplyOptions(ApplyOption(v, opts[0]), opts[1..])
  }

  /** A span handle; its methods change it in place. */
  class Span {
    const name: string
    const layer: SpanLayer
    const component: int
    var tags: map<TagKey, string>
    var isError: bool
    var endCount: nat

    function View(): SpanView
      reads this
    {
      SpanView(name, layer, component, tags, isError, endCount)
    }

    constructor (v: SpanView)
      ensures View() == v
    {
      name, layer, component := v.name, v.layer, v.component;
      tags, isError, endCount := v.tags, v.isError, v.endCount;
    }

    /** `span.Tag(key, value)`: sets one tag, overwriting an earlier value. */
    method Tag(key: TagKey, value: string)
      modifies this
      ensures View() == old(View()).(tags := old(tags)[key := value])
    {
      tags := tags[key := value];
    }

    /** `span.Error()`: flags the span as failed. */
    method Error()
      modifies this
      ensures View() == old(View()).(isError := true)
    {
      isError := true;
    }

    /** `span.End()`: closes the span; the count records how often it was closed. */
    method End()
      modifies this
      ensures View() == old(View()).(endCount := old(endCount) + 1)
    {
      endCount := endCount + 1;
    }
  }

  /**
   * `tracing.CreateEntrySpan(name, extractor, opts...)`: fails with the
   * decoder's error, or returns a new open span with the given name and the
   * options applied.
   */
  method CreateEntrySpan(name: string, extractor: HeaderExtractor, opts: seq<SpanOption>,
                         decode: PropagationDecoder)
    returns (r: Result<Span, TracingError>)
    ensures r.Failure? <==> decode(extractor).Some?
    ensures r.Failure? ==> r.error == decode(extractor).value
    ensures r.Success? ==> fresh(r.value) && r.value.View() == ApplyOptions(NewSpanView(name), opts)
  {
    var failure := decode(extractor);
    if failure.Some? {
      return Failure(failure.value);
    }
    var span := new Span(ApplyOptions(NewSpanView(name), opts));
    return Success(span);
  }
}
