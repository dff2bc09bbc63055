/** The OTLP/HTTP JSON body of galay-tracing/kernel/otlp_http_exporter.cc: its tree, and the code that writes it. */
module OtlpBody {
  import opened Words
  import opened Hex
  import opened Contexts
  import opened Decimals
  import opened Json
  import W = JsonWriter
  import SpanGuards

  type SpanKind = SpanGuards.SpanKind

  /** The text of a finite double is taken as given; it is always a JSON number. */
  type NumberToken = t: string | IsNumber(t) witness "0"

  datatype Double = Finite(token: NumberToken) | NaN(negative: bool) | Infinite(negative: bool)

  datatype AttributeValue =
    | IntValue(signed: Int64)
    | UIntValue(unsigned: Word)
    | DoubleValue(double: Double)
    | BoolValue(flag: bool)
    | StringValue(text: string)

  datatype Attribute = Attribute(name: string, value: AttributeValue)

  datatype StatusCode = StatusUnset | StatusOk | StatusError

  datatype Status = Status(code: StatusCode, message: string)

  datatype ExportSpan = ExportSpan(
    context: SpanContext, name: string, kind: SpanKind, tracestate: string, attributes: seq<Attribute>, status: Status)

  datatype Config = Config(resource: seq<Attribute>, scopeName: string, scopeVersion: string)

  function KindName(kind: SpanKind): string {
    match kind
    case Server => "SPAN_KIND_SERVER"
    case Client => "SPAN_KIND_CLIENT"
    case Producer => "SPAN_KIND_PRODUCER"
    case Consumer => "SPAN_KIND_CONSUMER"
    case Internal => "SPAN_KIND_INTERNAL"
  }

  function StatusName(code: StatusCode): string {
    match code
    case StatusOk => "STATUS_CODE_OK"
    case StatusError => "STATUS_CODE_ERROR"
    case StatusUnset => "STATUS_CODE_UNSET"
  }

  function DoubleText(d: Double): string {
    match d
    case Finite(token) => token
    case NaN(negative) => if negative then "-nan" else "nan"
    case Infinite(negative) => if negative then "-inf" else "inf"
  }

  // ---------------------------------------------------------------- the tree

  function ValueTree(v: AttributeValue): Json {
    match v
    case IntValue(i) => Object([Member("intValue", Str(Decimal(i)))])
    case UIntValue(u) => Object([Member("intValue", Str(Decimal(u)))])
    case DoubleValue(d) => Object([Member("doubleValue", Number(DoubleText(d)))])
    case BoolValue(b) => Object([Member("boolValue", Bool(b))])
    case StringValue(s) => Object([Member("stringValue", Str(s))])
  }

  function AttributeTree(a: Attribute): Json {
    Object([Member("key", Str(a.name)), Member("value", ValueTree(a.value))])
  }

  function AttributeItems(attributes: seq<Attribute>): (items: seq<Json>)
    ensures |items| == |attributes|
  {
    seq(|attributes|, i requires 0 <= i < |attributes| => AttributeTree(attributes[i]))
  }

  function ResourceFields(resource: seq<Attribute>): seq<Member> {
    if resource == [] then []
    else [Member("resource", Object([Member("attributes", Array(AttributeItems(resource)))]))]
  }

  function ScopeFields(config: Config): seq<Member> {
    [Member("name", Str(config.scopeName))]
    + if config.scopeVersion == "" then [] else [Member("version", Str(config.scopeVersion))]
  }

  function StatusMembers(status: Status): seq<Member> {
    [Member("code", Str(StatusName(status.code)))]
    + if status.message == "" then [] else [Member("message", Str(status.message))]
  }

  /** The status is left out exactly when nothing was set. */
  function StatusFields(status: Status): seq<Member> {
    if status.code == StatusUnset && status.message == "" then []
    else [Member("status", Object(StatusMembers(status)))]
  }

  function IdentityFields(span: ExportSpan): seq<Member> {
    [Member("traceId", Str(ToHex(span.context.traceId))),
     Member("spanId", Str(ToHex(span.context.spanId))),
     Member("name", Str(span.name)),
     Member("kind", Str(KindName(span.kind)))]
  }

  function ParentFields(span: ExportSpan): seq<Member> {
    match span.context.parentSpanId
    case Some(id) => [Member("parentSpanId", Str(ToHex(id)))]
    case None => []
  }

  function StateFields(span: ExportSpan): seq<Member> {
    if span.tracestate == "" then [] else [Member("traceState", Str(span.tracestate))]
  }

  function AttributeFields(span: ExportSpan): seq<Member> {
    if span.attributes == [] then [] else [Member("attributes", Array(AttributeItems(span.attributes)))]
  }

  function SpanMembers(span: ExportSpan): seq<Member> {
    IdentityFields(span) + ParentFields(span) + StateFields(span) + AttributeFields(span) + StatusFields(span.status)
  }

  function SpanItems(spans: seq<ExportSpan>): (items: seq<Json>)
    ensures |items| == |spans|
  {
    seq(|spans|, i requires 0 <= i < |spans| => Object(SpanMembers(spans[i])))
  }

  function ScopeSpans(spans: seq<ExportSpan>, config: Config): Json {
    Object([Member("scope", Object(ScopeFields(config))), Member("spans", Array(SpanItems(spans)))])
  }

  function ResourceSpans(spans: seq<ExportSpan>, config: Config): Json {
    Object(ResourceFields(config.resource) + [Member("scopeSpans", Array([ScopeSpans(spans, config)]))])
  }

  function BodyTree(spans: seq<ExportSpan>, config: Config): Json {
    Object([Member("resourceSpans", Array([ResourceSpans(spans, config)]))])
  }

  // ---------------------------------------------------------------- plain texts

  lemma PlainValueKeys()
    ensures W.Plain("intValue") && W.Plain("doubleValue") && W.Plain("boolValue") && W.Plain("stringValue")
  {
  }

  lemma PlainAttributeKeys()
    ensures W.Plain("key") && W.Plain("value") && W.Plain("attributes") && W.Plain("resource")
  {
  }

  lemma PlainScopeKeys()
    ensures W.Plain("name") && W.Plain("version") && W.Plain("code") && W.Plain("message") && W.Plain("status")
  {
  }

  lemma PlainSpanKeys()
    ensures W.Plain("traceId") && W.Plain("spanId") && W.Plain("name") && W.Plain("kind")
    ensures W.Plain("parentSpanId") && W.Plain("traceState") && W.Plain("attributes")
  {
  }

  lemma PlainBodyKeys()
    ensures W.Plain("scope") && W.Plain("spans") && W.Plain("scopeSpans") && W.Plain("resourceSpans")
  {
  }

  lemma PlainKind(kind: SpanKind)
    ensures W.Plain(KindName(kind))
  {
  }

  lemma PlainStatus(code: StatusCode)
    ensures W.Plain(StatusName(code))
  {
  }

  lemma PlainHex(b: seq<byte>)
    ensures W.Plain(ToHex(b))
  {
    PrintedAllHex(b);
  }

  lemma PlainDecimal(n: int)
    ensures W.Plain(Decimal(n))
  {
    DigitsRoundTrip(if n < 0 then -n else n);
  }

  // ---------------------------------------------------------------- the code

  method AppendJsonString(before: string, value: string) returns (out: string)
    ensures out == before + Print(Str(value))
  {
    out := before + "\"";
    for i := 0 to |value|
      invariant out == before + "\"" + Escape(value[..i])
    {
      var ch := value[i];
      W.EscapeAppend(value[..i], ch);
      assert value[..i] + [ch] == value[..i + 1];
      W.Reassociate(before + "\"", Escape(value[..i]), EscapeChar(ch));
      match ch {
        case '"' => out := out + ['\\', '"'];
        case '\\' => out := out + ['\\', '\\'];
        case '\n' => out := out + "\\n";
        case '\r' => out := out + "\\r";
        case '\t' => out := out + "\\t";
        case _ =>
          if ch < ' ' {
            out := out + ['\\', 'u', '0', '0', HexDigit(ch as int / 16), HexDigit(ch as int % 16)];
          } else {
            out := out + [ch];
          }
      }
    }
    assert value[..|value|] == value;
    W.ClosePieces(before, "\"", Escape(value), "\"");
    out := out + "\"";
  }

  method AppendAttributeValue(before: string, value: AttributeValue) returns (out: string)
    ensures out == before + Print(ValueTree(value))
  {
    PlainValueKeys();
    match value {
      case IntValue(i) =>
        out := before + "{" + W.Name("intValue");
        PlainDecimal(i);
        W.QuotePieces(out, Decimal(i));
        W.OneField(before, "intValue", Str(Decimal(i)));
        out := out + "\"" + Decimal(i) + "\"" + "}";
      case UIntValue(u) =>
        out := before + "{" + W.Name("intValue");
        PlainDecimal(u);
        W.QuotePieces(out, Decimal(u));
        W.OneField(before, "intValue", Str(Decimal(u)));
        out := out + "\"" + Decimal(u) + "\"" + "}";
      case DoubleValue(d) =>
        out := before + "{" + W.Name("doubleValue") + DoubleText(d) + "}";
        W.OneField(before, "doubleValue", Number(DoubleText(d)));
      case BoolValue(b) =>
        out := before + "{" + W.Name("boolValue") + (if b then "true" else "false") + "}";
        W.OneField(before, "boolValue", Bool(b));
      case StringValue(s) =>
        out := AppendJsonString(before + "{" + W.Name("stringValue"), s);
        out := out + "}";
        W.OneField(before, "stringValue", Str(s));
    }
  }

  method AppendAttribute(before: string, attribute: Attribute) returns (out: string)
    ensures out == before + Print(AttributeTree(attribute))
  {
    PlainAttributeKeys();
    var name, value := Str(attribute.name), ValueTree(attribute.value);
    out := AppendJsonString(before + "{" + W.Name("key"), attribute.name);
    W.FirstField(before, "key", name);
    out := AppendAttributeValue(out + "," + W.Name("value"), attribute.value);
    W.NextField(before, [Member("key", name)], "value", value);
    W.CloseObject(before, [Member("key", name)] + [Member("value", value)]);
    assert [Member("key", name)] + [Member("value", value)] == [Member("key", name), Member("value", value)];
    out := out + "}";
  }

  method AppendAttributeArray(before: string, attributes: seq<Attribute>) returns (out: string)
    ensures out == before + Print(Array(AttributeItems(attributes)))
  {
    out := before + "[";
    W.EmptyArray(before);
    assert AttributeItems(attributes[..0]) == [];
    for i := 0 to |attributes|
      invariant out == W.OpenArray(before, AttributeItems(attributes[..i]))
    {
      var done := AttributeItems(attributes[..i]);
      var item := AttributeTree(attributes[i]);
      W.NextItem(before, done, item);
      assert done + [item] == AttributeItems(attributes[..i + 1]);
      if i != 0 {
        out := out + ",";
      } else {
        assert out + "" == out;
      }
      out := AppendAttribute(out, attributes[i]);
    }
    assert attributes[..|attributes|] == attributes;
    W.CloseArray(before, AttributeItems(attributes));
    out := out + "]";
  }

  /** Appends the resource and the comma after it, or nothing. */
  method AppendResource(before: string, resource: seq<Attribute>) returns (out: string)
    ensures out == if resource == [] then before
      else before + W.Name("resource") + Print(ResourceFields(resource)[0].value) + ","
  {
    out := before;
    if resource == [] {
      return;
    }
    PlainAttributeKeys();
    out := out + W.Name("resource");
    W.OneField(out, "attributes", Array(AttributeItems(resource)));
    out := AppendAttributeArray(out + "{" + W.Name("attributes"), resource);
    out := out + "}" + ",";
  }

  method AppendScope(before: string, config: Config) returns (out: string)
    ensures out == before + W.Name("scope") + Print(Object(ScopeFields(config)))
  {
    PlainScopeKeys();
    var start := before + W.Name("scope");
    var name := Str(config.scopeName);
    out := AppendJsonString(start + "{" + W.Name("name"), config.scopeName);
    W.FirstField(start, "name", name);
    if config.scopeVersion != "" {
      out := AppendJsonString(out + "," + W.Name("version"), config.scopeVersion);
      W.NextField(start, [Member("name", name)], "version", Str(config.scopeVersion));
    } else {
      assert ScopeFields(config) == [Member("name", name)];
    }
    W.CloseObject(start, ScopeFields(config));
    out := out + "}";
  }

  /** Appends the status as a further member of an object that has some, or nothing. */
  method AppendStatus(before: string, status: Status) returns (out: string)
    ensures out == if StatusFields(status) == [] then before
      else before + "," + W.Name("status") + Print(Object(StatusMembers(status)))
  {
    out := before;
    if status.code == StatusUnset && status.message == "" {
      return;
    }
    PlainScopeKeys();
    PlainStatus(status.code);
    var start := out + "," + W.Name("status");
    var code := Str(StatusName(status.code));
    W.QuotePieces(start + "{" + W.Name("code"), StatusName(status.code));
    W.FirstField(start, "code", code);
    out := start + "{" + W.Name("code") + "\"" + StatusName(status.code) + "\"";
    if status.message != "" {
      out := AppendJsonString(out + "," + W.Name("message"), status.message);
      W.NextField(start, [Member("code", code)], "message", Str(status.message));
    } else {
      assert StatusMembers(status) == [Member("code", code)];
    }
    W.CloseObject(start, StatusMembers(status));
    out := out + "}";
  }

  /** The members a span always has. */
  method AppendIdentity(before: string, span: ExportSpan) returns (out: string)
    ensures out == W.OpenObject(before, IdentityFields(span))
  {
    PlainSpanKeys();
    PlainKind(span.kind);
    var traceId := FormatId(span.context.traceId);
    PlainHex(span.context.traceId);
    out := before + "{" + W.Name("traceId");
    W.QuotePieces(out, traceId);
    W.FirstField(before, "traceId", Str(traceId));
    out := out + "\"" + traceId + "\"";
    ghost var fields := [Member("traceId", Str(traceId))];

    var spanId := FormatId(span.context.spanId);
    PlainHex(span.context.spanId);
    W.NextField(before, fields, "spanId", Str(spanId));
    out := out + "," + W.Name("spanId");
    W.QuotePieces(out, spanId);
    out := out + "\"" + spanId + "\"";
    fields := fields + [Member("spanId", Str(spanId))];

    W.NextField(before, fields, "name", Str(span.name));
    out := AppendJsonString(out + "," + W.Name("name"), span.name);
    fields := fields + [Member("name", Str(span.name))];

    W.NextField(before, fields, "kind", Str(KindName(span.kind)));
    out := out + "," + W.Name("kind");
    W.QuotePieces(out, KindName(span.kind));
    out := out + "\"" + KindName(span.kind) + "\"";
    fields := fields + [Member("kind", Str(KindName(span.kind)))];
    assert fields == IdentityFields(span);
  }

  method AppendSpan(before: string, span: ExportSpan) returns (out: string)
    ensures out == before + Print(Object(SpanMembers(span)))
  {
    PlainSpanKeys();
    PlainScopeKeys();
    out := AppendIdentity(before, span);
    ghost var fields := IdentityFields(span);
    if span.context.parentSpanId.Some? {
      var parent := FormatId(span.context.parentSpanId.value);
      PlainHex(span.context.parentSpanId.value);
      W.NextField(before, fields, "parentSpanId", Str(parent));
      out := out + "," + W.Name("parentSpanId");
      W.QuotePieces(out, parent);
      out := out + "\"" + parent + "\"";
    } else {
      assert fields + ParentFields(span) == fields;
    }
    fields := fields + ParentFields(span);
    if span.tracestate != "" {
      W.NextField(before, fields, "traceState", Str(span.tracestate));
      out := AppendJsonString(out + "," + W.Name("traceState"), span.tracestate);
    } else {
      assert fields + StateFields(span) == fields;
    }
    fields := fields + StateFields(span);
    if span.attributes != [] {
      W.NextField(before, fields, "attributes", Array(AttributeItems(span.attributes)));
      out := AppendAttributeArray(out + "," + W.Name("attributes"), span.attributes);
    } else {
      assert fields + AttributeFields(span) == fields;
    }
    fields := fields + AttributeFields(span);
    W.NextField(before, fields, "status", Object(StatusMembers(span.status)));
    out := AppendStatus(out, span.status);
    if StatusFields(span.status) == [] {
      assert fields + StatusFields(span.status) == fields;
    }
    fields := fields + StatusFields(span.status);
    W.CloseObject(before, fields);
    out := out + "}";
  }

  method AppendSpans(before: string, spans: seq<ExportSpan>) returns (out: string)
    ensures out == before + Print(Array(SpanItems(spans)))
  {
    out := before + "[";
    W.EmptyArray(before);
    assert SpanItems(spans[..0]) == [];
    for i := 0 to |spans|
      invariant out == W.OpenArray(before, SpanItems(spans[..i]))
    {
      var done := SpanItems(spans[..i]);
      var item := Object(SpanMembers(spans[i]));
      W.NextItem(before, done, item);
      assert done + [item] == SpanItems(spans[..i + 1]);
      if i != 0 {
        out := out + ",";
      } else {
        assert out + "" == out;
      }
      out := AppendSpan(out, spans[i]);
    }
    assert spans[..|spans|] == spans;
    W.CloseArray(before, SpanItems(spans));
    out := out + "]";
  }

  method AppendScopeSpans(before: string, spans: seq<ExportSpan>, config: Config) returns (out: string)
    ensures out == before + Print(Array([ScopeSpans(spans, config)]))
  {
    PlainBodyKeys();
    var start := before + "[";
    var scope, items := Object(ScopeFields(config)), Array(SpanItems(spans));
    out := AppendScope(start + "{", config);
    W.FirstField(start, "scope", scope);
    W.NextField(start, [Member("scope", scope)], "spans", items);
    out := AppendSpans(out + "," + W.Name("spans"), spans);
    assert [Member("scope", scope)] + [Member("spans", items)] == [Member("scope", scope), Member("spans", items)];
    W.CloseObject(start, [Member("scope", scope), Member("spans", items)]);
    W.OneItem(before, ScopeSpans(spans, config));
    out := out + "}" + "]";
  }

  /** buildOtlpJsonBody writes exactly the text of the tree. */
  method BuildOtlpJsonBody(spans: seq<ExportSpan>, config: Config) returns (body: string)
    ensures body == Print(BodyTree(spans, config))
  {
    PlainBodyKeys();
    PlainAttributeKeys();
    var outer := "" + "{" + W.Name("resourceSpans");
    var start := outer + "[";
    ghost var resource := ResourceFields(config.resource);
    ghost var scopeSpans := Array([ScopeSpans(spans, config)]);
    body := AppendResource(start + "{", config.resource);
    body := AppendScopeSpans(body + W.Name("scopeSpans"), spans, config);
    if config.resource == [] {
      W.FirstField(start, "scopeSpans", scopeSpans);
      assert resource + [Member("scopeSpans", scopeSpans)] == [Member("scopeSpans", scopeSpans)];
    } else {
      W.FirstField(start, "resource", resource[0].value);
      assert resource == [Member("resource", resource[0].value)];
      W.NextField(start, resource, "scopeSpans", scopeSpans);
    }
    W.CloseObject(start, resource + [Member("scopeSpans", scopeSpans)]);
    W.OneItem(outer, ResourceSpans(spans, config));
    W.OneField("", "resourceSpans", Array([ResourceSpans(spans, config)]));
    body := body + "}" + "]" + "}";
  }
}
