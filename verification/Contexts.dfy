/** Identifiers and contexts of galay-tracing/common/{trace,span}_id.h and context/trace_context.h. */
module Contexts {
  import opened Wrappers
  import opened Words
  import opened Hex

  type TraceId = b: seq<byte> | |b| == 16 witness seq(16, _ => 0)

  type SpanId = b: seq<byte> | |b| == 8 witness seq(8, _ => 0)

  predicate NonZero(b: seq<byte>) {
    !AllZero(b)
  }

  function ZeroTrace(): TraceId {
    seq(16, _ => 0)
  }

  function ZeroSpan(): SpanId {
    seq(8, _ => 0)
  }

  /** TraceId::fromHex: malformed, wrongly sized or all-zero text gives the invalid id. */
  function TraceIdFromHex(hex: string): TraceId {
    match FromHex(hex, 16)
    case Some(b) => if NonZero(b) then b else ZeroTrace()
    case None => ZeroTrace()
  }

  function SpanIdFromHex(hex: string): SpanId {
    match FromHex(hex, 8)
    case Some(b) => if NonZero(b) then b else ZeroSpan()
    case None => ZeroSpan()
  }

  method ParseTraceId(hex: string) returns (id: TraceId)
    ensures id == TraceIdFromHex(hex)
  {
    var bytes := new byte[16](_ => 0);
    var ok := ParseHex(hex, bytes, 16);
    var valid := HasNonZeroByte(bytes[..]);
    assert bytes[..16] == bytes[..];
    return if !ok || !valid then ZeroTrace() else bytes[..];
  }

  method ParseSpanId(hex: string) returns (id: SpanId)
    ensures id == SpanIdFromHex(hex)
  {
    var bytes := new byte[8](_ => 0);
    var ok := ParseHex(hex, bytes, 8);
    var valid := HasNonZeroByte(bytes[..]);
    assert bytes[..8] == bytes[..];
    return if !ok || !valid then ZeroSpan() else bytes[..];
  }

  /** toHex of either kind of identifier. */
  method FormatId(id: seq<byte>) returns (hex: string)
    ensures hex == ToHex(id)
  {
    var out := new char[2 * |id|](_ => '\0');
    var _ := FormatHex(id, out);
    assert out[..] == out[..2 * |id|];
    return out[..];
  }

  datatype TraceContext = TraceContext(
    traceId: TraceId, spanId: SpanId, parentSpanId: Option<SpanId>, traceFlags: byte, tracestate: string)
  {
    predicate IsValid() {
      NonZero(traceId) && NonZero(spanId)
    }
  }

  datatype SpanContext = SpanContext(
    traceId: TraceId, spanId: SpanId, parentSpanId: Option<SpanId>, traceFlags: byte)
  {
    predicate IsValid() {
      NonZero(traceId) && NonZero(spanId)
    }

    predicate Sampled() {
      traceFlags % 2 == 1
    }

    function ToTraceContext(tracestate: string): TraceContext {
      TraceContext(traceId, spanId, parentSpanId, traceFlags, tracestate)
    }
  }

  function ToSpanContext(c: TraceContext): SpanContext {
    SpanContext(c.traceId, c.spanId, c.parentSpanId, c.traceFlags)
  }
}
