/**
 * The samplers of galay-tracing/kernel/sampler.cc. Ratios are exact reals, so the threshold is not rounded.
 */
module Sampling {
  import opened Wrappers
  import opened Words
  import opened Contexts

  datatype Sampler = AlwaysOn | AlwaysOff | ParentBased(root: Sampler) | TraceIdRatio(ratio: real)

  function Clamp(x: real): real {
    if x < 0.0 then 0.0 else if x > 1.0 then 1.0 else x
  }

  function ShouldSample(sampler: Sampler, parent: Option<SpanContext>, traceId: TraceId): bool {
    match sampler
    case AlwaysOn => true
    case AlwaysOff => false
    case ParentBased(root) =>
      if parent.Some? && parent.value.IsValid() then parent.value.Sampled() else ShouldSample(root, None, traceId)
    case TraceIdRatio(ratio) => RatioSamples(Clamp(ratio), BigEndian(traceId[..8]))
  }

  predicate RatioSamples(ratio: real, high: int) {
    if ratio <= 0.0 then false
    else if ratio >= 1.0 then true
    else high as real / 18446744073709551616.0 < ratio
  }

  // ---------------------------------------------------------------- the high word

  function BigEndian(b: seq<byte>): nat {
    if b == [] then 0 else 256 * BigEndian(b[..|b| - 1]) + b[|b| - 1]
  }

  lemma {:induction false} BigEndianBound(b: seq<byte>)
    ensures BigEndian(b) < Pow256(|b|)
  {
    if b != [] {
      BigEndianBound(b[..|b| - 1]);
    }
  }

  lemma {:induction false} Pow256Grows(m: nat, n: nat)
    requires m <= n
    ensures Pow256(m) <= Pow256(n)
  {
    if m < n {
      Pow256Grows(m, n - 1);
    }
  }

  /** The shift never loses a bit, and the result is the big-endian value of the first eight bytes. */
  method TraceIdHighBits(traceId: TraceId) returns (value: Word)
    ensures value == BigEndian(traceId[..8])
  {
    value := 0;
    for i := 0 to 8
      invariant value == BigEndian(traceId[..i])
    {
      BigEndianBound(traceId[..i]);
      Pow256Grows(i, 7);
      Pow256Words();
      assert traceId[..i + 1][..i] == traceId[..i];
      value := value * 256 % 0x1_0000_0000_0000_0000 + traceId[i];
    }
  }

  function BigEndianBytes(value: nat, n: nat): (b: seq<byte>)
    ensures |b| == n
  {
    if n == 0 then [] else BigEndianBytes(value / 256, n - 1) + [value % 256]
  }

  /** Bytes and values below 256^n correspond one to one. */
  lemma {:induction false} BigEndianRoundTrip(value: nat, n: nat)
    requires value < Pow256(n)
    ensures BigEndian(BigEndianBytes(value, n)) == value
  {
    if n > 0 {
      BigEndianRoundTrip(value / 256, n - 1);
      var b := BigEndianBytes(value, n);
      assert b[..|b| - 1] == BigEndianBytes(value / 256, n - 1);
    }
  }

  lemma {:induction false} BytesRoundTrip(b: seq<byte>)
    ensures BigEndianBytes(BigEndian(b), |b|) == b
  {
    if b != [] {
      BytesRoundTrip(b[..|b| - 1]);
      assert BigEndian(b) / 256 == BigEndian(b[..|b| - 1]) && BigEndian(b) % 256 == b[|b| - 1];
    }
  }

  lemma HighWordBound(traceId: TraceId)
    ensures BigEndian(traceId[..8]) < 0x1_0000_0000_0000_0000
  {
    BigEndianBound(traceId[..8]);
    Pow256Words();
  }

  // ---------------------------------------------------------------- the ratio threshold

  /** For every real ratio, the clamped ones included, the decision compares the high word with ratio * 2^64. */
  lemma RatioDecision(ratio: real, parent: Option<SpanContext>, traceId: TraceId)
    ensures ShouldSample(TraceIdRatio(ratio), parent, traceId) <==>
      BigEndian(traceId[..8]) as real < ratio * 18446744073709551616.0
  {
    HighWordBound(traceId);
    RatioCompares(ratio, BigEndian(traceId[..8]));
  }

  lemma RatioCompares(ratio: real, high: Word)
    ensures RatioSamples(Clamp(ratio), high) <==> high as real < ratio * 18446744073709551616.0
  {
    var quotient := high as real / 18446744073709551616.0;
    assert quotient * 18446744073709551616.0 == high as real;
  }

  lemma RatioMonotone(low: real, high: real, parent: Option<SpanContext>, traceId: TraceId)
    requires low <= high && ShouldSample(TraceIdRatio(low), parent, traceId)
    ensures ShouldSample(TraceIdRatio(high), parent, traceId)
  {
    RatioDecision(low, parent, traceId);
    RatioDecision(high, parent, traceId);
  }

  function Ceiling(x: real): int {
    if x.Floor as real == x then x.Floor else x.Floor + 1
  }

  function HighWords(ratio: real): set<int> {
    set w | 0 <= w < 0x1_0000_0000_0000_0000 && RatioSamples(Clamp(ratio), w)
  }

  function Below(n: nat): set<int> {
    if n == 0 then {} else Below(n - 1) + {n - 1}
  }

  lemma {:induction false} BelowSize(n: nat)
    ensures |Below(n)| == n && forall w :: w in Below(n) <==> 0 <= w < n
  {
    if n > 0 {
      BelowSize(n - 1);
    }
  }

  lemma CeilingCompares(w: int, x: real)
    ensures w as real < x <==> w < Ceiling(x)
  {
  }

  /** Exactly ceil(ratio * 2^64) of the 2^64 high words are sampled; below 0 none and above 1 all. */
  lemma SampledHighWords(ratio: real)
    ensures |HighWords(ratio)| ==
      if ratio <= 0.0 then 0
      else if ratio >= 1.0 then 0x1_0000_0000_0000_0000
      else Ceiling(ratio * 18446744073709551616.0)
  {
    var n := if ratio <= 0.0 then 0
             else if ratio >= 1.0 then 0x1_0000_0000_0000_0000
             else Ceiling(ratio * 18446744073709551616.0);
    assert 0 <= n <= 0x1_0000_0000_0000_0000;
    forall w | 0 <= w < 0x1_0000_0000_0000_0000
      ensures w in HighWords(ratio) <==> w < n
    {
      RatioCompares(ratio, w);
      CeilingCompares(w, ratio * 18446744073709551616.0);
    }
    BelowSize(n);
    assert HighWords(ratio) == Below(n);
  }

  /** Each high word belongs to some trace id, and the words of HighWords are those whose ids are sampled. */
  lemma HighWordsAreIds(ratio: real, parent: Option<SpanContext>, high: Word, rest: seq<byte>)
    requires |rest| == 8
    ensures var id: TraceId := BigEndianBytes(high, 8) + rest;
      BigEndian(id[..8]) == high && (ShouldSample(TraceIdRatio(ratio), parent, id) <==> high in HighWords(ratio))
  {
    Pow256Words();
    BigEndianRoundTrip(high, 8);
    var id: TraceId := BigEndianBytes(high, 8) + rest;
    assert id[..8] == BigEndianBytes(high, 8);
  }

  // ---------------------------------------------------------------- parents and the global sampler

  /** The sampler a parent-based one ends up asking when there is no valid parent. */
  function Root(sampler: Sampler): Sampler {
    match sampler
    case ParentBased(root) => Root(root)
    case _ => sampler
  }

  /** Without a valid parent, a stack of parent-based samplers of any depth decides like its root. */
  lemma {:induction false} RootDecides(sampler: Sampler, parent: Option<SpanContext>, traceId: TraceId)
    requires parent.Some? ==> !parent.value.IsValid()
    ensures ShouldSample(sampler, parent, traceId) == ShouldSample(Root(sampler), None, traceId)
  {
    if sampler.ParentBased? {
      RootDecides(sampler.root, None, traceId);
    }
  }

  /** With a valid parent, a parent-based sampler over any root takes over the parent's decision. */
  lemma ParentDecides(root: Sampler, parent: SpanContext, traceId: TraceId)
    requires NonZero(parent.traceId) && NonZero(parent.spanId)
    ensures ShouldSample(ParentBased(root), Some(parent), traceId) <==> parent.traceFlags % 2 == 1
  {
  }

  /** The two fixed samplers decide like the ratios 1 and 0. */
  lemma FixedSamplers(parent: Option<SpanContext>, traceId: TraceId)
    ensures ShouldSample(AlwaysOn, parent, traceId) == ShouldSample(TraceIdRatio(1.0), parent, traceId) == true
    ensures ShouldSample(AlwaysOff, parent, traceId) == ShouldSample(TraceIdRatio(0.0), parent, traceId) == false
  {
    RatioDecision(1.0, parent, traceId);
    RatioDecision(0.0, parent, traceId);
    HighWordBound(traceId);
  }

  /** A child under a parent whose decision this sampler took gets the same decision, whatever the sampler. */
  lemma ChildFollows(sampler: Sampler, grandparent: Option<SpanContext>, parent: SpanContext)
    requires parent.IsValid()
    requires parent.Sampled() == ShouldSample(sampler, grandparent, parent.traceId)
    ensures ShouldSample(sampler, Some(parent), parent.traceId) == parent.Sampled()
  {
  }

  /** The process-wide sampler; nothing installed means parent-based over always-on. */
  class Registry {
    var installed: Option<Sampler>

    constructor ()
      ensures installed == None
    {
      installed := None;
    }

    method SetSampler(sampler: Option<Sampler>)
      modifies this
      ensures installed == sampler
    {
      installed := sampler;
    }

    function CurrentSampler(): (s: Sampler)
      reads this
      ensures installed.Some? ==> s == installed.value
      ensures installed == None ==>
        forall parent: Option<SpanContext>, id ::
          ShouldSample(s, parent, id) == (parent.Some? && parent.value.IsValid() ==> parent.value.Sampled())
    {
      if installed.Some? then installed.value else ParentBased(AlwaysOn)
    }
  }
}
