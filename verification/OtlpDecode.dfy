/** What a reader of the OTLP body gets back, and exactly when there is a body it can read. */
module OtlpDecode {
  import opened Wrappers
  import opened Words
  import opened Hex
  import opened Contexts
  import opened Decimals
  import opened Json
  import opened JsonRoundTrip
  import opened OtlpBody

  // ---------------------------------------------------------------- decoding

  datatype SentValue = SentInt(n: int) | SentDouble(token: string) | SentBool(flag: bool) | SentText(text: string)

  datatype SentAttribute = SentAttribute(name: string, value: SentValue)

  /** The fields of a span as received; None stands for a field that is absent or malformed. */
  datatype SentSpan = SentSpan(
    traceId: Option<seq<byte>>,
    spanId: Option<seq<byte>>,
    parentSpanId: Option<seq<byte>>,
    name: Option<string>,
    kind: Option<SpanKind>,
    tracestate: string,
    attributes: seq<Option<SentAttribute>>,
    status: Option<Status>)

  datatype Export = Export(
    resource: seq<Option<SentAttribute>>, scopeName: Option<string>, scopeVersion: string, spans: seq<SentSpan>)

  /** The value of the first member with the key. */
  function Lookup(members: seq<Member>, key: string): Option<Json> {
    if members == [] then None
    else if members[0].key == key then Some(members[0].value)
    else Lookup(members[1..], key)
  }

  function Field(j: Json, key: string): Option<Json> {
    if j.Object? then Lookup(j.members, key) else None
  }

  function TextOf(j: Option<Json>): Option<string> {
    if j.Some? && j.value.Str? then Some(j.value.text) else None
  }

  /** An absent text field counts as empty. */
  function TextOrEmpty(j: Option<Json>): string {
    if j.Some? && j.value.Str? then j.value.text else ""
  }

  function BytesOf(j: Option<Json>, length: nat): Option<seq<byte>> {
    match TextOf(j)
    case Some(hex) => FromHex(hex, length)
    case None => None
  }

  function ItemsOf(j: Option<Json>): seq<Json> {
    if j.Some? && j.value.Array? then j.value.items else []
  }

  function IntOf(j: Option<Json>): Option<int> {
    match TextOf(j)
    case Some(s) => ParseDecimal(s)
    case None => None
  }

  function DecodeValue(j: Json): Option<SentValue> {
    var number, double, flag, text :=
      IntOf(Field(j, "intValue")), Field(j, "doubleValue"), Field(j, "boolValue"), TextOf(Field(j, "stringValue"));
    if number.Some? then Some(SentInt(number.value))
    else if double.Some? && double.value.Number? then Some(SentDouble(double.value.token))
    else if flag.Some? && flag.value.Bool? then Some(SentBool(flag.value.value))
    else if text.Some? then Some(SentText(text.value))
    else None
  }

  function DecodeAttribute(j: Json): Option<SentAttribute> {
    var name := TextOf(Field(j, "key"));
    match Field(j, "value")
    case Some(v) =>
      var value := DecodeValue(v);
      if name.Some? && value.Some? then Some(SentAttribute(name.value, value.value)) else None
    case None => None
  }

  function DecodeAttributes(j: Option<Json>): seq<Option<SentAttribute>> {
    var items := ItemsOf(j);
    seq(|items|, i requires 0 <= i < |items| => DecodeAttribute(items[i]))
  }

  function KindOf(name: string): Option<SpanKind> {
    if name == "SPAN_KIND_SERVER" then Some(SpanGuards.Server)
    else if name == "SPAN_KIND_CLIENT" then Some(SpanGuards.Client)
    else if name == "SPAN_KIND_PRODUCER" then Some(SpanGuards.Producer)
    else if name == "SPAN_KIND_CONSUMER" then Some(SpanGuards.Consumer)
    else if name == "SPAN_KIND_INTERNAL" then Some(SpanGuards.Internal)
    else None
  }

  function CodeOf(name: string): Option<StatusCode> {
    if name == "STATUS_CODE_OK" then Some(StatusOk)
    else if name == "STATUS_CODE_ERROR" then Some(StatusError)
    else if name == "STATUS_CODE_UNSET" then Some(StatusUnset)
    else None
  }

  function DecodeKind(j: Option<Json>): Option<SpanKind> {
    match TextOf(j)
    case Some(name) => KindOf(name)
    case None => None
  }

  /** An absent status counts as unset. */
  function DecodeStatus(j: Option<Json>): Option<Status> {
    match j
    case None => Some(Status(StatusUnset, ""))
    case Some(s) =>
      match TextOf(Field(s, "code"))
      case None => None
      case Some(name) =>
        match CodeOf(name)
        case Some(code) => Some(Status(code, TextOrEmpty(Field(s, "message"))))
        case None => None
  }

  function DecodeSpan(j: Json): SentSpan {
    SentSpan(
      BytesOf(Field(j, "traceId"), 16),
      BytesOf(Field(j, "spanId"), 8),
      BytesOf(Field(j, "parentSpanId"), 8),
      TextOf(Field(j, "name")),
      DecodeKind(Field(j, "kind")),
      TextOrEmpty(Field(j, "traceState")),
      DecodeAttributes(Field(j, "attributes")),
      DecodeStatus(Field(j, "status")))
  }

  function DecodeSpans(j: Option<Json>): seq<SentSpan> {
    var items := ItemsOf(j);
    seq(|items|, i requires 0 <= i < |items| => DecodeSpan(items[i]))
  }

  /** The only element of an array member. */
  function OnlyItem(j: Json, key: string): Option<Json> {
    var items := ItemsOf(Field(j, key));
    if |items| == 1 then Some(items[0]) else None
  }

  function Decode(body: Json): Option<Export> {
    match OnlyItem(body, "resourceSpans")
    case None => None
    case Some(r) =>
      match OnlyItem(r, "scopeSpans")
      case None => None
      case Some(s) => Some(DecodeExport(r, s))
  }

  function DecodeExport(r: Json, s: Json): Export {
    var resource := Field(r, "resource");
    var scope := Field(s, "scope");
    Export(
      if resource.Some? then DecodeAttributes(Field(resource.value, "attributes")) else [],
      if scope.Some? then TextOf(Field(scope.value, "name")) else None,
      if scope.Some? then TextOrEmpty(Field(scope.value, "version")) else "",
      DecodeSpans(Field(s, "spans")))
  }

  // ---------------------------------------------------------------- what was meant

  /** Both integer types are sent as their number; a double as its text. */
  function ValueMeaning(v: AttributeValue): SentValue {
    match v
    case IntValue(i) => SentInt(i)
    case UIntValue(u) => SentInt(u)
    case DoubleValue(d) => SentDouble(DoubleText(d))
    case BoolValue(b) => SentBool(b)
    case StringValue(s) => SentText(s)
  }

  function AttributesMeaning(attributes: seq<Attribute>): seq<Option<SentAttribute>> {
    seq(|attributes|, i requires 0 <= i < |attributes| =>
      Some(SentAttribute(attributes[i].name, ValueMeaning(attributes[i].value))))
  }

  function SpanMeaning(span: ExportSpan): SentSpan {
    SentSpan(
      Some(span.context.traceId), Some(span.context.spanId), ParentMeaning(span.context.parentSpanId), Some(span.name),
      Some(span.kind), span.tracestate, AttributesMeaning(span.attributes), Some(span.status))
  }

  function ParentMeaning(parent: Option<SpanId>): Option<seq<byte>> {
    match parent
    case Some(id) => Some(id)
    case None => None
  }

  function Meaning(spans: seq<ExportSpan>, config: Config): Export {
    Export(AttributesMeaning(config.resource), Some(config.scopeName), config.scopeVersion, SpansMeaning(spans))
  }

  function SpansMeaning(spans: seq<ExportSpan>): seq<SentSpan> {
    seq(|spans|, i requires 0 <= i < |spans| => SpanMeaning(spans[i]))
  }

  // ---------------------------------------------------------------- decoding the tree

  lemma {:induction false} LookupAppend(a: seq<Member>, b: seq<Member>, key: string)
    ensures Lookup(a + b, key) == if Lookup(a, key).Some? then Lookup(a, key) else Lookup(b, key)
  {
    if a == [] {
      assert a + b == b;
    } else {
      LookupAppend(a[1..], b, key);
      assert (a + b)[1..] == a[1..] + b;
    }
  }

  lemma LookupOne(m: Member, key: string)
    ensures Lookup([m], key) == if m.key == key then Some(m.value) else None
  {
    assert [m][1..] == [];
  }

  lemma LookupTwo(m: Member, n: Member, key: string)
    ensures Lookup([m, n], key) == if m.key == key then Some(m.value) else if n.key == key then Some(n.value) else None
  {
    assert [m, n] == [m] + [n];
    LookupAppend([m], [n], key);
    LookupOne(m, key);
    LookupOne(n, key);
  }

  lemma DecodedInt(n: int)
    ensures DecodeValue(Object([Member("intValue", Str(Decimal(n)))])) == Some(SentInt(n))
  {
    DecimalRoundTrip(n);
    LookupOne(Member("intValue", Str(Decimal(n))), "intValue");
  }

  lemma DecodedValue(v: AttributeValue)
    ensures DecodeValue(ValueTree(v)) == Some(ValueMeaning(v))
  {
    match v
    case IntValue(i) => DecodedInt(i);
    case UIntValue(u) => DecodedInt(u);
    case _ =>
      var m := ValueTree(v).members[0];
      LookupOne(m, "intValue");
      LookupOne(m, "doubleValue");
      LookupOne(m, "boolValue");
      LookupOne(m, "stringValue");
  }

  lemma DecodedAttribute(a: Attribute)
    ensures DecodeAttribute(AttributeTree(a)) == Some(SentAttribute(a.name, ValueMeaning(a.value)))
  {
    var key, value := Member("key", Str(a.name)), Member("value", ValueTree(a.value));
    LookupTwo(key, value, "key");
    LookupTwo(key, value, "value");
    DecodedValue(a.value);
  }

  lemma DecodedAttributes(attributes: seq<Attribute>)
    ensures DecodeAttributes(Some(Array(AttributeItems(attributes)))) == AttributesMeaning(attributes)
  {
    forall i | 0 <= i < |attributes|
      ensures DecodeAttribute(AttributeItems(attributes)[i])
           == Some(SentAttribute(attributes[i].name, ValueMeaning(attributes[i].value)))
    {
      DecodedAttribute(attributes[i]);
    }
  }

  lemma KindRoundTrip(kind: SpanKind)
    ensures KindOf(KindName(kind)) == Some(kind)
  {
    assert "SPAN_KIND_SERVER"[10] == 'S' && "SPAN_KIND_CLIENT"[10] == 'C' && "SPAN_KIND_PRODUCER"[10] == 'P';
    assert "SPAN_KIND_CONSUMER"[10] == 'C' && "SPAN_KIND_INTERNAL"[10] == 'I';
  }

  lemma CodeRoundTrip(code: StatusCode)
    ensures CodeOf(StatusName(code)) == Some(code)
  {
    assert "STATUS_CODE_ERROR"[12] == 'E' && "STATUS_CODE_UNSET"[12] == 'U';
  }

  lemma DecodedStatus(status: Status)
    ensures DecodeStatus(Lookup(StatusFields(status), "status")) == Some(status)
  {
    if StatusFields(status) != [] {
      LookupOne(StatusFields(status)[0], "status");
      CodeRoundTrip(status.code);
      var code, message := Member("code", Str(StatusName(status.code))), Member("message", Str(status.message));
      if status.message == "" {
        assert StatusMembers(status) == [code];
        LookupOne(code, "code");
        LookupOne(code, "message");
      } else {
        assert StatusMembers(status) == [code, message];
        LookupTwo(code, message, "code");
        LookupTwo(code, message, "message");
      }
    }
  }

  // A span's members come in five groups, and no key occurs in two of them.

  function Or(a: Option<Json>, b: Option<Json>): Option<Json> {
    if a.Some? then a else b
  }

  lemma LookupSpan(span: ExportSpan, key: string)
    ensures Lookup(SpanMembers(span), key)
         == Or(Or(Or(Or(Lookup(IdentityFields(span), key), Lookup(ParentFields(span), key)),
                     Lookup(StateFields(span), key)),
                  Lookup(AttributeFields(span), key)),
               Lookup(StatusFields(span.status), key))
  {
    var a, b, c, d, e :=
      IdentityFields(span), ParentFields(span), StateFields(span), AttributeFields(span), StatusFields(span.status);
    LookupAppend(a, b, key);
    LookupAppend(a + b, c, key);
    LookupAppend(a + b + c, d, key);
    LookupAppend(a + b + c + d, e, key);
  }

  lemma LookupIdentity(span: ExportSpan, key: string)
    ensures Lookup(IdentityFields(span), key)
         == if key == "traceId" then Some(Str(ToHex(span.context.traceId)))
            else if key == "spanId" then Some(Str(ToHex(span.context.spanId)))
            else if key == "name" then Some(Str(span.name))
            else if key == "kind" then Some(Str(KindName(span.kind)))
            else None
  {
    var f := IdentityFields(span);
    assert f == [f[0], f[1]] + [f[2], f[3]];
    LookupAppend([f[0], f[1]], [f[2], f[3]], key);
    LookupTwo(f[0], f[1], key);
    LookupTwo(f[2], f[3], key);
  }

  lemma LookupOptional(span: ExportSpan, key: string)
    ensures key != "parentSpanId" ==> Lookup(ParentFields(span), key) == None
    ensures key != "traceState" ==> Lookup(StateFields(span), key) == None
    ensures key != "attributes" ==> Lookup(AttributeFields(span), key) == None
    ensures key != "status" ==> Lookup(StatusFields(span.status), key) == None
  {
    if ParentFields(span) != [] {
      LookupOne(ParentFields(span)[0], key);
    }
    if StateFields(span) != [] {
      LookupOne(StateFields(span)[0], key);
    }
    if AttributeFields(span) != [] {
      LookupOne(AttributeFields(span)[0], key);
    }
    if StatusFields(span.status) != [] {
      LookupOne(StatusFields(span.status)[0], key);
    }
  }

  lemma KeysDiffer()
    ensures "name" != "kind" && "traceState" != "attributes" && "spanId" != "status"
  {
    assert "name"[0] == 'n' && "kind"[0] == 'k';
    assert "traceState"[0] == 't' && "attributes"[0] == 'a';
    assert "spanId"[1] == 'p' && "status"[1] == 't';
  }

  lemma DecodedIdentity(span: ExportSpan)
    ensures var j := Object(SpanMembers(span));
      && BytesOf(Field(j, "traceId"), 16) == Some(span.context.traceId)
      && BytesOf(Field(j, "spanId"), 8) == Some(span.context.spanId)
      && TextOf(Field(j, "name")) == Some(span.name)
      && DecodeKind(Field(j, "kind")) == Some(span.kind)
  {
    KeysDiffer();
    LookupSpan(span, "traceId");
    LookupSpan(span, "spanId");
    LookupSpan(span, "name");
    LookupSpan(span, "kind");
    LookupIdentity(span, "traceId");
    LookupIdentity(span, "spanId");
    LookupIdentity(span, "name");
    LookupIdentity(span, "kind");
    PrintThenParse(span.context.traceId);
    PrintThenParse(span.context.spanId);
    KindRoundTrip(span.kind);
  }

  lemma DecodedParent(span: ExportSpan)
    ensures var j := Object(SpanMembers(span));
      BytesOf(Field(j, "parentSpanId"), 8) == ParentMeaning(span.context.parentSpanId)
  {
    LookupSpan(span, "parentSpanId");
    LookupIdentity(span, "parentSpanId");
    LookupOptional(span, "parentSpanId");
    if span.context.parentSpanId.Some? {
      LookupOne(ParentFields(span)[0], "parentSpanId");
      PrintThenParse(span.context.parentSpanId.value);
    }
  }

  lemma DecodedState(span: ExportSpan)
    ensures TextOrEmpty(Field(Object(SpanMembers(span)), "traceState")) == span.tracestate
  {
    KeysDiffer();
    LookupSpan(span, "traceState");
    LookupIdentity(span, "traceState");
    LookupOptional(span, "traceState");
    if span.tracestate != "" {
      LookupOne(StateFields(span)[0], "traceState");
    }
  }

  lemma DecodedSpanAttributes(span: ExportSpan)
    ensures DecodeAttributes(Field(Object(SpanMembers(span)), "attributes")) == AttributesMeaning(span.attributes)
  {
    KeysDiffer();
    LookupSpan(span, "attributes");
    LookupIdentity(span, "attributes");
    LookupOptional(span, "attributes");
    if span.attributes != [] {
      LookupOne(AttributeFields(span)[0], "attributes");
      DecodedAttributes(span.attributes);
    }
  }

  lemma DecodedSpanStatus(span: ExportSpan)
    ensures DecodeStatus(Field(Object(SpanMembers(span)), "status")) == Some(span.status)
  {
    KeysDiffer();
    LookupSpan(span, "status");
    LookupIdentity(span, "status");
    LookupOptional(span, "status");
    DecodedStatus(span.status);
  }

  lemma DecodedSpan(span: ExportSpan)
    ensures DecodeSpan(Object(SpanMembers(span))) == SpanMeaning(span)
  {
    DecodedIdentity(span);
    DecodedParent(span);
    DecodedState(span);
    DecodedSpanAttributes(span);
    DecodedSpanStatus(span);
  }

  lemma DecodedScope(config: Config)
    ensures var scope := Object(ScopeFields(config));
      TextOf(Field(scope, "name")) == Some(config.scopeName) && TextOrEmpty(Field(scope, "version")) == config.scopeVersion
  {
    var name, version := Member("name", Str(config.scopeName)), Member("version", Str(config.scopeVersion));
    if config.scopeVersion == "" {
      assert ScopeFields(config) == [name];
      LookupOne(name, "name");
      LookupOne(name, "version");
    } else {
      assert ScopeFields(config) == [name, version];
      LookupTwo(name, version, "name");
      LookupTwo(name, version, "version");
    }
  }

  lemma DecodedSpans(spans: seq<ExportSpan>)
    ensures DecodeSpans(Some(Array(SpanItems(spans)))) == SpansMeaning(spans)
  {
    forall i | 0 <= i < |spans|
      ensures DecodeSpan(SpanItems(spans)[i]) == SpanMeaning(spans[i])
    {
      DecodedSpan(spans[i]);
    }
  }

  lemma DecodedResource(spans: seq<ExportSpan>, config: Config)
    ensures OnlyItem(ResourceSpans(spans, config), "scopeSpans") == Some(ScopeSpans(spans, config))
    ensures var resource := Field(ResourceSpans(spans, config), "resource");
      && (resource.Some? <==> config.resource != [])
      && (resource.Some? ==> DecodeAttributes(Field(resource.value, "attributes")) == AttributesMeaning(config.resource))
  {
    var fields := ResourceFields(config.resource);
    var last := Member("scopeSpans", Array([ScopeSpans(spans, config)]));
    LookupAppend(fields, [last], "scopeSpans");
    LookupAppend(fields, [last], "resource");
    LookupOne(last, "scopeSpans");
    LookupOne(last, "resource");
    if config.resource != [] {
      LookupOne(fields[0], "scopeSpans");
      LookupOne(fields[0], "resource");
      LookupOne(Member("attributes", Array(AttributeItems(config.resource))), "attributes");
      DecodedAttributes(config.resource);
    }
  }

  lemma DecodedExport(spans: seq<ExportSpan>, config: Config)
    ensures DecodeExport(ResourceSpans(spans, config), ScopeSpans(spans, config)) == Meaning(spans, config)
  {
    DecodedResource(spans, config);
    assert config.resource == [] ==> AttributesMeaning(config.resource) == [];
    var scope, items := Member("scope", Object(ScopeFields(config))), Member("spans", Array(SpanItems(spans)));
    assert "scope"[1] == 'c' && "spans"[1] == 'p';
    LookupTwo(scope, items, "scope");
    LookupTwo(scope, items, "spans");
    DecodedScope(config);
    DecodedSpans(spans);
  }

  /** Decoding the tree recovers all that was meant, fields and order. */
  lemma DecodedBody(spans: seq<ExportSpan>, config: Config)
    ensures Decode(BodyTree(spans, config)) == Some(Meaning(spans, config))
  {
    LookupOne(Member("resourceSpans", Array([ResourceSpans(spans, config)])), "resourceSpans");
    assert OnlyItem(BodyTree(spans, config), "resourceSpans") == Some(ResourceSpans(spans, config));
    DecodedResource(spans, config);
    DecodedExport(spans, config);
  }

  // ---------------------------------------------------------------- when the body can be read

  predicate FiniteAttributes(attributes: seq<Attribute>) {
    forall i :: 0 <= i < |attributes| && attributes[i].value.DoubleValue? ==> attributes[i].value.double.Finite?
  }

  /** No attribute, of the resource or of a span, is a NaN or an infinity. */
  predicate AllFinite(spans: seq<ExportSpan>, config: Config) {
    && FiniteAttributes(config.resource)
    && FiniteSpans(spans)
  }

  predicate Readable(members: seq<Member>) {
    forall i :: 0 <= i < |members| ==> DoubleTokens(members[i].value)
  }

  predicate ProperMembers(members: seq<Member>) {
    forall i :: 0 <= i < |members| ==> Proper(members[i].value)
  }

  lemma MembersTogether(a: seq<Member>, b: seq<Member>)
    ensures Readable(a) && Readable(b) ==> Readable(a + b)
    ensures ProperMembers(a + b) <==> ProperMembers(a) && ProperMembers(b)
  {
    if ProperMembers(a + b) {
      assert forall i :: 0 <= i < |a| ==> a[i] == (a + b)[i];
      assert forall i :: 0 <= i < |b| ==> b[i] == (a + b)[|a| + i];
    }
  }

  lemma ValueTokens(v: AttributeValue)
    ensures DoubleTokens(ValueTree(v)) && (Proper(ValueTree(v)) <==> (v.DoubleValue? ==> v.double.Finite?))
  {
    assert ValueTree(v).members[0] in ValueTree(v).members;
    if v.DoubleValue? && !v.double.Finite? {
      NotFiniteIsBad(DoubleText(v.double), "");
    }
  }

  lemma AttributeTokens(a: Attribute)
    ensures DoubleTokens(AttributeTree(a))
    ensures Proper(AttributeTree(a)) <==> (a.value.DoubleValue? ==> a.value.double.Finite?)
  {
    ValueTokens(a.value);
    var members := AttributeTree(a).members;
    assert members[0].value == Str(a.name) && members[1].value == ValueTree(a.value);
  }

  lemma AttributesTokens(attributes: seq<Attribute>)
    ensures DoubleTokens(Array(AttributeItems(attributes)))
    ensures Proper(Array(AttributeItems(attributes))) <==> FiniteAttributes(attributes)
  {
    var items := AttributeItems(attributes);
    forall i | 0 <= i < |attributes|
      ensures DoubleTokens(items[i])
      ensures Proper(items[i]) <==> (attributes[i].value.DoubleValue? ==> attributes[i].value.double.Finite?)
    {
      AttributeTokens(attributes[i]);
    }
  }

  lemma PlainMembersTokens(members: seq<Member>)
    requires forall i :: 0 <= i < |members| ==> members[i].value.Str?
    ensures Readable(members) && ProperMembers(members)
  {
  }

  lemma StatusTokens(status: Status)
    ensures Readable(StatusFields(status)) && ProperMembers(StatusFields(status))
  {
    PlainMembersTokens(StatusMembers(status));
  }

  lemma SpanTokens(span: ExportSpan)
    ensures Readable(SpanMembers(span))
    ensures ProperMembers(SpanMembers(span)) <==> FiniteAttributes(span.attributes)
  {
    var a, b, c, d, e :=
      IdentityFields(span), ParentFields(span), StateFields(span), AttributeFields(span), StatusFields(span.status);
    PlainMembersTokens(a);
    PlainMembersTokens(b);
    PlainMembersTokens(c);
    SpanAttributeTokens(span);
    StatusTokens(span.status);
    MembersTogether(a, b);
    MembersTogether(a + b, c);
    MembersTogether(a + b + c, d);
    MembersTogether(a + b + c + d, e);
  }

  lemma SpanAttributeTokens(span: ExportSpan)
    ensures Readable(AttributeFields(span))
    ensures ProperMembers(AttributeFields(span)) <==> FiniteAttributes(span.attributes)
  {
    AttributesTokens(span.attributes);
    if span.attributes != [] {
      assert AttributeFields(span)[0].value == Array(AttributeItems(span.attributes));
    }
  }

  predicate FiniteSpans(spans: seq<ExportSpan>) {
    forall i :: 0 <= i < |spans| ==> FiniteAttributes(spans[i].attributes)
  }

  lemma SpansTokens(spans: seq<ExportSpan>)
    ensures DoubleTokens(Array(SpanItems(spans)))
    ensures Proper(Array(SpanItems(spans))) <==> FiniteSpans(spans)
  {
    var items := SpanItems(spans);
    forall i | 0 <= i < |spans|
      ensures DoubleTokens(items[i]) && (Proper(items[i]) <==> FiniteAttributes(spans[i].attributes))
    {
      SpanTokens(spans[i]);
      assert items[i] == Object(SpanMembers(spans[i]));
    }
  }

  lemma OneMember(key: string, j: Json)
    ensures DoubleTokens(j) ==> Readable([Member(key, j)])
    ensures ProperMembers([Member(key, j)]) <==> Proper(j)
  {
    assert [Member(key, j)][0].value == j;
  }

  lemma OneItemTokens(j: Json)
    ensures DoubleTokens(j) ==> DoubleTokens(Array([j]))
    ensures Proper(Array([j])) <==> Proper(j)
  {
    assert [j][0] == j;
  }

  lemma ObjectTokens(members: seq<Member>)
    ensures DoubleTokens(Object(members)) <==> Readable(members)
    ensures Proper(Object(members)) <==> ProperMembers(members)
  {
  }

  lemma ScopeTokens(spans: seq<ExportSpan>, config: Config)
    ensures DoubleTokens(ScopeSpans(spans, config)) && (Proper(ScopeSpans(spans, config)) <==> FiniteSpans(spans))
  {
    var scope, items := Object(ScopeFields(config)), Array(SpanItems(spans));
    PlainMembersTokens(ScopeFields(config));
    ObjectTokens(ScopeFields(config));
    SpansTokens(spans);
    OneMember("scope", scope);
    OneMember("spans", items);
    MembersTogether([Member("scope", scope)], [Member("spans", items)]);
    assert [Member("scope", scope)] + [Member("spans", items)] == [Member("scope", scope), Member("spans", items)];
    ObjectTokens([Member("scope", scope), Member("spans", items)]);
  }

  lemma ResourceTokens(resource: seq<Attribute>)
    ensures Readable(ResourceFields(resource))
    ensures ProperMembers(ResourceFields(resource)) <==> FiniteAttributes(resource)
  {
    var items := Array(AttributeItems(resource));
    AttributesTokens(resource);
    OneMember("attributes", items);
    ObjectTokens([Member("attributes", items)]);
    OneMember("resource", Object([Member("attributes", items)]));
  }

  lemma BodyTokens(spans: seq<ExportSpan>, config: Config)
    ensures DoubleTokens(BodyTree(spans, config)) && (Proper(BodyTree(spans, config)) <==> AllFinite(spans, config))
  {
    var scopes := Array([ScopeSpans(spans, config)]);
    ScopeTokens(spans, config);
    OneItemTokens(ScopeSpans(spans, config));
    OneMember("scopeSpans", scopes);
    ResourceTokens(config.resource);
    MembersTogether(ResourceFields(config.resource), [Member("scopeSpans", scopes)]);
    ObjectTokens(ResourceFields(config.resource) + [Member("scopeSpans", scopes)]);
    OneItemTokens(ResourceSpans(spans, config));
    OneMember("resourceSpans", Array([ResourceSpans(spans, config)]));
    ObjectTokens([Member("resourceSpans", Array([ResourceSpans(spans, config)]))]);
  }

  /**
   * A JSON reader accepts the body exactly when every double attribute is finite, and then recovers the resource,
   * the scope and every span in order.
   */
  lemma BodyRoundTrip(spans: seq<ExportSpan>, config: Config)
    ensures var parsed := Parse(Print(BodyTree(spans, config)));
      && (parsed.Some? <==> AllFinite(spans, config))
      && (parsed.Some? ==> Decode(parsed.value) == Some(Meaning(spans, config)))
  {
    BodyTokens(spans, config);
    ParsePrinted(BodyTree(spans, config));
    DecodedBody(spans, config);
  }

  /** A resource with a single NaN attribute: the body is not JSON. */
  lemma NaNBodyIsRejected()
    ensures Parse(Print(BodyTree([], Config([Attribute("x", DoubleValue(NaN(false)))], "", "")))) == None
  {
    var attributes := [Attribute("x", DoubleValue(NaN(false)))];
    assert attributes[0].value.DoubleValue? && !attributes[0].value.double.Finite?;
    BodyRoundTrip([], Config(attributes, "", ""));
  }
}
