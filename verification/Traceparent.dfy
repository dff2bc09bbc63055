/** The W3C traceparent header of galay-tracing/context/traceparent.cc. */
module Traceparent {
  import opened Wrappers
  import opened Words
  import opened Hex
  import opened Contexts

  datatype TraceparentError = Malformed | UnsupportedVersion | InvalidTraceId | InvalidSpanId | InvalidFlags

  predicate HasExpectedSeparators(value: string) {
    |value| == 55 && value[2] == '-' && value[35] == '-' && value[52] == '-'
  }

  function ParseFlags(value: string): Option<byte> {
    if |value| != 2 then None
    else
      var high, low := HexValue(value[0]), HexValue(value[1]);
      ValueRoundTrip(value[0]);
      ValueRoundTrip(value[1]);
      if high < 0 || low < 0 then None else Some(16 * high + low)
  }

  function Extract(value: string, tracestate: string): Result<TraceContext, TraceparentError> {
    if !HasExpectedSeparators(value) then Err(Malformed)
    else if value[0..2] != "00" then Err(UnsupportedVersion)
    else
      var traceId := TraceIdFromHex(value[3..35]);
      if !NonZero(traceId) then Err(InvalidTraceId)
      else
        var spanId := SpanIdFromHex(value[36..52]);
        if !NonZero(spanId) then Err(InvalidSpanId)
        else match ParseFlags(value[53..55])
          case None => Err(InvalidFlags)
          case Some(flags) => Ok(TraceContext(traceId, spanId, None, flags, tracestate))
  }

  /** The header of a context, empty for an invalid one. */
  function Header(c: TraceContext): string {
    if !c.IsValid() then ""
    else "00-" + ToHex(c.traceId) + "-" + ToHex(c.spanId) + "-"
         + [HexDigit(c.traceFlags / 16)] + [HexDigit(c.traceFlags % 16)]
  }

  method InjectTraceparent(context: TraceContext) returns (value: string)
    ensures value == Header(context)
  {
    value := "";
    if !context.IsValid() {
      return;
    }
    value := value + "00-";
    var traceId := FormatId(context.traceId);
    value := value + traceId;
    value := value + "-";
    var spanId := FormatId(context.spanId);
    value := value + spanId;
    value := value + "-";
    value := value + [HexDigit(context.traceFlags / 16)];
    value := value + [HexDigit(context.traceFlags % 16)];
  }

  // ---------------------------------------------------------------- print, then parse

  lemma HeaderParts(c: TraceContext)
    requires c.IsValid()
    ensures var h := Header(c);
      && |h| == 55 && h[0..2] == "00" && h[2] == '-' && h[3..35] == ToHex(c.traceId) && h[35] == '-'
      && h[36..52] == ToHex(c.spanId) && h[52] == '-'
      && h[53..55] == [HexDigit(c.traceFlags / 16), HexDigit(c.traceFlags % 16)]
  {
    var h := Header(c);
    assert h == "00-" + ToHex(c.traceId) + "-" + ToHex(c.spanId) + "-"
                + [HexDigit(c.traceFlags / 16)] + [HexDigit(c.traceFlags % 16)];
  }

  lemma IdText(c: TraceContext)
    requires c.IsValid()
    ensures TraceIdFromHex(ToHex(c.traceId)) == c.traceId && SpanIdFromHex(ToHex(c.spanId)) == c.spanId
  {
    PrintThenParse(c.traceId);
    PrintThenParse(c.spanId);
  }

  lemma FlagsText(flags: byte)
    ensures ParseFlags([HexDigit(flags / 16), HexDigit(flags % 16)]) == Some(flags)
  {
    DigitRoundTrip(flags / 16);
    DigitRoundTrip(flags % 16);
  }

  /** Extraction of a string with all its fields in place. */
  lemma ExtractFields(value: string, tracestate: string, trace: TraceId, span: SpanId, flags: byte)
    requires HasExpectedSeparators(value) && value[0..2] == "00" && NonZero(trace) && NonZero(span)
    requires TraceIdFromHex(value[3..35]) == trace && SpanIdFromHex(value[36..52]) == span
    requires ParseFlags(value[53..55]) == Some(flags)
    ensures Extract(value, tracestate) == Ok(TraceContext(trace, span, None, flags, tracestate))
  {
  }

  /** Extracting an injected header gives back ids and all eight flag bits, with no parent. */
  lemma InjectThenExtract(c: TraceContext, tracestate: string)
    requires c.IsValid()
    ensures Extract(Header(c), tracestate) == Ok(c.(parentSpanId := None, tracestate := tracestate))
  {
    HeaderParts(c);
    IdText(c);
    FlagsText(c.traceFlags);
    ExtractFields(Header(c), tracestate, c.traceId, c.spanId, c.traceFlags);
  }

  // ---------------------------------------------------------------- parse, then print

  /** Some character of value[from..to] is not '0'. */
  predicate HasNonZeroDigit(value: string, from: nat, to: nat)
    requires from <= to <= |value|
  {
    exists i :: from <= i < to && value[i] != '0'
  }

  predicate HexBetween(value: string, from: nat, to: nat)
    requires from <= to <= |value|
  {
    forall i :: from <= i < to ==> IsHex(value[i])
  }

  /** Version 00 of the header format, in terms of characters only. */
  predicate IsTraceparent(value: string) {
    && |value| == 55
    && value[0] == '0' && value[1] == '0'
    && value[2] == '-' && value[35] == '-' && value[52] == '-'
    && (forall i :: 0 <= i < 55 && i != 2 && i != 35 && i != 52 ==> IsHex(value[i]))
    && HasNonZeroDigit(value, 3, 35)
    && HasNonZeroDigit(value, 36, 52)
  }

  /** An id field is a valid id exactly when it is hexadecimal and not all '0'. */
  lemma IdField(value: string, from: nat, to: nat)
    requires from <= to <= |value| && (to - from) % 2 == 0
    ensures var field := value[from..to];
      (AllHex(field) && NonZero(HexBytes(field)))
      <==> (HexBetween(value, from, to) && HasNonZeroDigit(value, from, to))
  {
    var field := value[from..to];
    assert forall i :: from <= i < to ==> value[i] == field[i - from];
    if AllHex(field) {
      ZeroText(field);
      if HasNonZeroDigit(value, from, to) {
        var i :| from <= i < to && value[i] != '0';
        assert field[i - from] != '0';
      }
    } else {
      var i :| 0 <= i < |field| && !IsHex(field[i]);
      assert !IsHex(value[from + i]);
    }
  }

  lemma TraceField(value: string)
    requires |value| == 55
    ensures NonZero(TraceIdFromHex(value[3..35]))
       <==> HexBetween(value, 3, 35) && HasNonZeroDigit(value, 3, 35)
    ensures NonZero(TraceIdFromHex(value[3..35])) ==> ToHex(TraceIdFromHex(value[3..35])) == LowerAll(value[3..35])
  {
    IdField(value, 3, 35);
    if AllHex(value[3..35]) {
      ParseThenPrint(value[3..35]);
    }
  }

  lemma SpanField(value: string)
    requires |value| == 55
    ensures NonZero(SpanIdFromHex(value[36..52]))
       <==> HexBetween(value, 36, 52) && HasNonZeroDigit(value, 36, 52)
    ensures NonZero(SpanIdFromHex(value[36..52])) ==> ToHex(SpanIdFromHex(value[36..52])) == LowerAll(value[36..52])
  {
    IdField(value, 36, 52);
    if AllHex(value[36..52]) {
      ParseThenPrint(value[36..52]);
    }
  }

  lemma FlagsField(value: string)
    requires |value| == 2
    ensures ParseFlags(value).Some? <==> IsHex(value[0]) && IsHex(value[1])
    ensures ParseFlags(value).Some? ==>
      var flags := ParseFlags(value).value;
      HexDigit(flags / 16) == Lower(value[0]) && HexDigit(flags % 16) == Lower(value[1])
  {
    FlagsValue(value);
    if IsHex(value[0]) && IsHex(value[1]) {
      PairDigits(value[0], value[1]);
    }
  }

  lemma FlagsValue(value: string)
    requires |value| == 2
    ensures ParseFlags(value)
         == if IsHex(value[0]) && IsHex(value[1]) then Some(PairValue(value[0], value[1])) else None
  {
    ValueRoundTrip(value[0]);
    ValueRoundTrip(value[1]);
  }

  /** The hexadecimal positions, field by field. */
  lemma HexPositions(value: string)
    requires |value| == 55 && value[0] == '0' && value[1] == '0'
    ensures (forall i :: 0 <= i < 55 && i != 2 && i != 35 && i != 52 ==> IsHex(value[i]))
       <==> HexBetween(value, 3, 35) && HexBetween(value, 36, 52) && IsHex(value[53]) && IsHex(value[54])
  {
  }

  lemma FieldsAccept(value: string)
    requires |value| == 55
    ensures NonZero(TraceIdFromHex(value[3..35])) <==> HexBetween(value, 3, 35) && HasNonZeroDigit(value, 3, 35)
    ensures NonZero(SpanIdFromHex(value[36..52])) <==> HexBetween(value, 36, 52) && HasNonZeroDigit(value, 36, 52)
    ensures ParseFlags(value[53..55]).Some? <==> IsHex(value[53]) && IsHex(value[54])
  {
    TraceField(value);
    SpanField(value);
    FlagsField(value[53..55]);
  }

  /** Extraction succeeds exactly on well-formed headers. */
  lemma ExtractAccepts(value: string, tracestate: string)
    ensures Extract(value, tracestate).Ok? <==> IsTraceparent(value)
  {
    if |value| == 55 {
      assert value[0..2] == "00" <==> value[0] == '0' && value[1] == '0' by {
        assert value[0..2] == [value[0], value[1]];
      }
      FieldsAccept(value);
      if value[0] == '0' && value[1] == '0' {
        HexPositions(value);
      }
    }
  }

  /** Which error a rejected header gives: the first field, from the left, that is wrong. */
  lemma ExtractErrors(value: string, tracestate: string)
    ensures var separated := |value| == 55 && value[2] == '-' && value[35] == '-' && value[52] == '-';
      var version := separated && value[0] == '0' && value[1] == '0';
      var trace := version && HexBetween(value, 3, 35) && HasNonZeroDigit(value, 3, 35);
      var span := trace && HexBetween(value, 36, 52) && HasNonZeroDigit(value, 36, 52);
      var r := Extract(value, tracestate);
      && (r == Err(Malformed) <==> !separated)
      && (r == Err(UnsupportedVersion) <==> separated && !version)
      && (r == Err(InvalidTraceId) <==> version && !trace)
      && (r == Err(InvalidSpanId) <==> trace && !span)
      && (r == Err(InvalidFlags) <==> span && !(IsHex(value[53]) && IsHex(value[54])))
  {
    if |value| == 55 {
      assert value[0..2] == "00" <==> value[0] == '0' && value[1] == '0' by {
        assert value[0..2] == [value[0], value[1]];
      }
      FieldsAccept(value);
    }
  }

  /** Only an invalid context has an empty header. */
  lemma EmptyHeader(c: TraceContext)
    ensures Header(c) == "" <==> AllZero(c.traceId) || AllZero(c.spanId)
  {
  }

  lemma LowerHeader(value: string, h: string)
    requires IsTraceparent(value) && |h| == 55
    requires h[0..2] == "00" && h[2] == '-' && h[35] == '-' && h[52] == '-'
    requires h[3..35] == LowerAll(value[3..35]) && h[36..52] == LowerAll(value[36..52])
    requires h[53..55] == [Lower(value[53]), Lower(value[54])]
    ensures h == LowerAll(value)
  {
    forall i | 0 <= i < 55
      ensures h[i] == LowerAll(value)[i]
    {
      HeaderCharacter(value, h, i);
    }
  }

  /** What a successful extraction holds, field by field. */
  lemma ExtractedFields(value: string, tracestate: string)
    requires Extract(value, tracestate).Ok?
    ensures |value| == 55
    ensures var c := Extract(value, tracestate).value;
      && c.IsValid() && c.tracestate == tracestate && c.parentSpanId == None
      && c.traceId == TraceIdFromHex(value[3..35]) && c.spanId == SpanIdFromHex(value[36..52])
      && ParseFlags(value[53..55]) == Some(c.traceFlags)
  {
  }

  /** Injecting what was extracted gives the lowercase form of the header. */
  lemma ExtractThenInject(value: string, tracestate: string)
    requires Extract(value, tracestate).Ok?
    ensures var c := Extract(value, tracestate).value;
      Header(c) == LowerAll(value) && c.tracestate == tracestate && c.parentSpanId == None && c.IsValid()
  {
    ExtractAccepts(value, tracestate);
    ExtractedFields(value, tracestate);
    var c := Extract(value, tracestate).value;
    TraceField(value);
    SpanField(value);
    FlagsField(value[53..55]);
    HeaderParts(c);
    LowerHeader(value, Header(c));
  }

  lemma HeaderCharacter(value: string, h: string, i: nat)
    requires IsTraceparent(value) && |h| == 55 && i < 55
    requires h[0..2] == "00" && h[2] == '-' && h[35] == '-' && h[52] == '-'
    requires h[3..35] == LowerAll(value[3..35]) && h[36..52] == LowerAll(value[36..52])
    requires h[53..55] == [Lower(value[53]), Lower(value[54])]
    ensures h[i] == Lower(value[i])
  {
    if i < 2 {
      assert h[i] == h[0..2][i];
    } else if 3 <= i < 35 {
      assert h[i] == h[3..35][i - 3];
    } else if 36 <= i < 52 {
      assert h[i] == h[36..52][i - 36];
    } else if 53 <= i {
      assert h[i] == h[53..55][i - 53];
    }
  }
}
