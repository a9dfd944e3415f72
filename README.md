# fasthttp server interceptor — a Dafny model

This project models the fasthttp server plugin of the SkyWalking Go agent:
the `ServerInterceptor` in `plugins/fasthttp/router/server_intercepter.go`.
Its two hooks run around one request handler. `BeforeInvoke` opens an entry
span named `METHOD:URI` on the HTTP layer with component id 5020 and the
method and URL tags, and stores it in the invocation's context slot.
`AfterInvoke` takes the span from the slot, flags it as an error when the
response status is 400 or more, tags the decimal status code, and ends it.

Layout:

- `wrappers.dfy` (`Wrappers`): `Option` and `Result`.
- `decimal.dfy` (`Decimal`): Go's `%d` rendering of an `int`, with its inverse and the round trip.
- `fasthttp.dfy` (`FastHTTP`): the request context as a value (method, URI, headers, status) and header lookup.
- `tracing.dfy` (`Tracing`): span options, the `Span` class with `Tag`, `Error` and `End`, and `CreateEntrySpan`.
- `router_spec.dfy` (`RouterSpec`): the hooks as functions on values (`BeforeSpec`, `AfterSpec`), the span name, the entry options, and the life-cycle lemmas NoSpan → OpenSpan → EndedSpan.
- `router.dfy` (`Router`): the `Invocation` class and the hooks as methods. Each method is proved against its function in `RouterSpec`.

The source mutates state, so the hooks are methods on objects. `BeforeInvoke` writes the invocation's slot. `AfterInvoke` changes the span in place and leaves the invocation alone. Each object has a `View()` that returns its state as a value. Each method's postcondition ties the new view to a specification function of the old view. The properties are then proved as lemmas about those functions.

`AfterInvoke` does not clear the slot, so a second `AfterInvoke` on the same invocation ends the same span again; `RouterSpec.AfterRepeatedEndsEachTime` states this: the span is ended once per call.

## Model

| member | source | states |
|---|---|---|
| Router.BeforeInvoke | plugins/fasthttp/router/server_intercepter.go:31-46 | Returns exactly the error span creation reports. On that error the slot is left as it was. On success the slot holds a freshly created span whose state is the entry span, and nil is returned. The new invocation state is `BeforeSpec` of the old one. |
| Router.AfterInvoke | plugins/fasthttp/router/server_intercepter.go:48-61 | Always returns nil. It never writes the invocation: argument 0 and the slot keep their values. It may change only the span in the slot, so with an empty slot nothing at all changes. The new state is `AfterSpec` of the old one. |
| Router.InterceptOnce | plugins/fasthttp/router/server_intercepter.go:31-61 | Runs both hooks on a fresh invocation. The error is the span-creation error, and a span remains exactly when there was no error. That span is named `METHOD:URI` on the HTTP layer with component 5020. It is ended exactly once and flagged exactly when the status is ≥ 400. Its tags are exactly method, URL and the decimal status. |
| RouterSpec.SpanName | plugins/fasthttp/router/server_intercepter.go:33 | The name is the method, then one `:`, then the full URI, with nothing else. |
| RouterSpec.SpanNameRoundTrip | plugins/fasthttp/router/server_intercepter.go:33 | Splitting the name at its first colon gives back the method and the URI, provided the method contains no colon. |
| RouterSpec.HeaderExtractorNeverFails | plugins/fasthttp/router/server_intercepter.go:34-36 | The header callback never reports an error. It answers the request header's value, or "" when the header is absent. |
| RouterSpec.HeaderExtractorReadsOnlyHeaders | plugins/fasthttp/router/server_intercepter.go:34-36 | The callback's answer depends only on the request headers. |
| FastHTTP.Peek | plugins/fasthttp/router/server_intercepter.go:35 | A present header yields its value and a missing one yields the empty string. |
| RouterSpec.EntrySpanView | plugins/fasthttp/router/server_intercepter.go:33-39 | Applying the hook's options to a new span yields the name `METHOD:URI`, layer HTTP and component 5020. The tags are exactly http-method = method and url = URI. The span is neither flagged nor ended. |
| Tracing.ApplyOption | plugins/fasthttp/router/server_intercepter.go:36-39 | A layer option sets the layer, a tag option sets that one tag (overwriting an earlier value), and a component option sets the component. Every other field is kept, so the name, the error flag and the end count never change. |
| Tracing.ApplyOptions | plugins/fasthttp/router/server_intercepter.go:36-39 | Options applied in order keep the name. They leave the span unflagged and not ended. |
| Tracing.CreateEntrySpan | plugins/fasthttp/router/server_intercepter.go:33-39 | Fails exactly when the tracer's decoding fails, and returns that error. Otherwise it returns a fresh span with the given name and the options applied. |
| Tracing.Span.Tag | plugins/fasthttp/router/server_intercepter.go:57 | Sets one tag and overwrites any earlier value under the key. Nothing else changes. |
| Tracing.Span.Error | plugins/fasthttp/router/server_intercepter.go:55 | Sets the error flag. Nothing else changes. |
| Tracing.Span.End | plugins/fasthttp/router/server_intercepter.go:59 | Adds one to the end count. Nothing else changes. |
| RouterSpec.BeforeSpec | plugins/fasthttp/router/server_intercepter.go:40-45 | The creation outcome is returned unchanged, and argument 0 is kept. A failure leaves the invocation as it was. A success puts the entry span in the slot. |
| RouterSpec.AfterSpanSpec | plugins/fasthttp/router/server_intercepter.go:52-59 | Ends the span exactly once more and keeps its name, layer and component. The error flag afterwards is the old flag or'ed with "argument 0 is a request and its status is ≥ 400". With a request, the status tag becomes the decimal status for every status and the other tags are kept. Without one, the tags are unchanged. |
| RouterSpec.AfterSpec | plugins/fasthttp/router/server_intercepter.go:49-60 | Keeps argument 0. The slot is filled afterwards exactly when it was before. |
| RouterSpec.BeforeOpensSpan | plugins/fasthttp/router/server_intercepter.go:40-45 | From NoSpan, a successful BeforeInvoke reaches OpenSpan and a failed one stays in NoSpan. |
| RouterSpec.AfterEndsOpenSpan | plugins/fasthttp/router/server_intercepter.go:59 | AfterInvoke takes OpenSpan to EndedSpan with an end count of exactly one. |
| RouterSpec.AfterWithoutSpanIsNoOp | plugins/fasthttp/router/server_intercepter.go:49-51 | With an empty slot AfterInvoke changes nothing, and the phase stays NoSpan. |
| RouterSpec.StatusTagRecordsStatus | plugins/fasthttp/router/server_intercepter.go:57 | The status tag is present after AfterInvoke, and parsing it gives back the exact status. |
| RouterSpec.RequestLifecycle | plugins/fasthttp/router/server_intercepter.go:31-61 | Both hooks from an empty slot. On a creation failure the error is returned and the invocation ends exactly as it began. Otherwise NoSpan → OpenSpan → EndedSpan, with the span ended once and flagged iff status ≥ 400. Its tags are exactly method, URL and status, and the status can be read back. |
| RouterSpec.AfterRepeatedEndsEachTime | plugins/fasthttp/router/server_intercepter.go:48-61 | k AfterInvoke calls on a filled slot end the span k times. The flag and the tags stay as the first call left them. |
| Decimal.NatDigits | plugins/fasthttp/router/server_intercepter.go:57 | The digits of a natural number form a non-empty run of digits without a leading zero. |
| Decimal.Render | plugins/fasthttp/router/server_intercepter.go:57 | `%d` output is non-empty, starts with `-` exactly for negative numbers, and is otherwise canonical digits. |
| Decimal.NatDigitsRoundTrip | plugins/fasthttp/router/server_intercepter.go:57 | Reading the digits of n back gives n. |
| Decimal.RenderRoundTrip | plugins/fasthttp/router/server_intercepter.go:57 | Parsing the rendering of any integer gives the integer back. |
| Decimal.RenderInjective | plugins/fasthttp/router/server_intercepter.go:57 | Two integers render to the same text if and only if they are equal. |

## Left out

- The type assertions at `server_intercepter.go:32` and `:52` panic on a mismatch. The model does not model the panic. `BeforeInvoke` requires argument 0 to be a request context. The slot is typed `Option<Span>`, so it can hold only spans.
- The tracing core's internals are not modelled: propagation-header decoding, sampling, span timing and export. Whether creation fails is the `decode` parameter of `CreateEntrySpan`, which receives the header callback.
- `Tag`, `Error` and `End` are modelled only by their effect on the span's tags, error flag and end count.
- Tag keys are the enumeration `TagKey` and not the tracing core's key strings, because the file that defines those strings is not part of this model. A span's layer and component before any option is applied (`SpanLayerUnknown`, 0) are the model's own defaults.
- fasthttp's canonicalisation of header names in `Peek` is not modelled. Headers are a map keyed by the name as looked up.
- fasthttp's accessors (`Method`, `URI().String()`, `Header.Peek`, `Response.StatusCode`) are modelled as plain fields, not as the library code.
- The status is an unbounded integer rather than Go's 64-bit `int`. The renderer covers every value, including negative ones.
- The interception mechanism is not modelled: it decides when the hooks fire and runs the handler. Concurrency across requests is not modelled either. If a request is aborted before `AfterInvoke` runs, its span stays open, and the model does not capture this.
- `AfterInvoke`'s variadic `result` values are not modelled; the hook never reads them.
- RouterSpec.SpanNameRoundTrip: holds only for methods without a colon. fasthttp does not check the method, and RFC 9110 method tokens cannot contain a colon.
