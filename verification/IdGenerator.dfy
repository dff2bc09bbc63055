/**
 Random identifiers of galay-tracing/common/id_format.cc: a SplitMix64 stream per thread and the
 retry loops on top of it.  The seed is an arbitrary word; memcpy is modelled for a little-endian host.
 */
module IdGenerator {
  import opened Words

  // The constants are written out where they are used: the solver then only meets linear arithmetic.

  function Times1(x: Word): Word {
    (x * 0xbf58476d1ce4e5b9) % 0x1_0000_0000_0000_0000
  }

  function Times2(x: Word): Word {
    (x * 0x94d049bb133111eb) % 0x1_0000_0000_0000_0000
  }

  /** The state after k more draws. */
  function Advance(seed: Word, k: nat): Word {
    (seed + k * 0x9e3779b97f4a7c15) % 0x1_0000_0000_0000_0000
  }

  function XorShift(x: Word, k: nat): Word {
    XorShiftBound(x, k);
    Xor(x, Shr(x, k))
  }

  /** The output function of SplitMix64. */
  function Mix(v: Word): Word {
    XorShift(Times2(XorShift(Times1(XorShift(v, 30)), 27)), 31)
  }

  /** Value number k of the stream (the first one is number 1). */
  function Draw(seed: Word, k: nat): Word
    decreases k
  {
    if k == 0 then Mix(seed) else Draw((seed + 0x9e3779b97f4a7c15) % 0x1_0000_0000_0000_0000, k - 1)
  }

  lemma ModDrop(x: int, q: int)
    ensures (x + 0x1_0000_0000_0000_0000 * q) % 0x1_0000_0000_0000_0000 == x % 0x1_0000_0000_0000_0000
  {
    var d := (x + 0x1_0000_0000_0000_0000 * q) / 0x1_0000_0000_0000_0000 - (x / 0x1_0000_0000_0000_0000 + q);
    assert (x + 0x1_0000_0000_0000_0000 * q) % 0x1_0000_0000_0000_0000
        == x % 0x1_0000_0000_0000_0000 - 0x1_0000_0000_0000_0000 * d;
  }

  lemma AdvanceShift(seed: Word, next: Word, k: nat)
    requires next == (seed + 0x9e3779b97f4a7c15) % 0x1_0000_0000_0000_0000
    ensures Advance(next, k) == Advance(seed, k + 1)
  {
    var q := (seed + 0x9e3779b97f4a7c15) / 0x1_0000_0000_0000_0000;
    assert seed + (k + 1) * 0x9e3779b97f4a7c15 == next + k * 0x9e3779b97f4a7c15 + 0x1_0000_0000_0000_0000 * q;
    ModDrop(next + k * 0x9e3779b97f4a7c15, q);
  }

  lemma {:induction false} DrawIsMixed(seed: Word, k: nat)
    ensures Draw(seed, k) == Mix(Advance(seed, k))
    decreases k
  {
    if k > 0 {
      var next := (seed + 0x9e3779b97f4a7c15) % 0x1_0000_0000_0000_0000;
      DrawIsMixed(next, k - 1);
      AdvanceShift(seed, next, k - 1);
    } else {
      assert Advance(seed, 0) == seed;
    }
  }

  // ---------------------------------------------------------------- the mixing function is injective

  /** No small multiple of an odd constant is a multiple of 2^64: its inverse modulo 2^64 gives the quotient away. */
  lemma SmallMultiple1(d: int, k: int)
    requires -0x1_0000_0000_0000_0000 < d < 0x1_0000_0000_0000_0000
    requires d * 0xbf58476d1ce4e5b9 == 0x1_0000_0000_0000_0000 * k
    ensures d == 0
  {
    var e := k * 0x96de1b173f119089 - d * 0x70c3bca78f27f46c;
    assert d == 0x1_0000_0000_0000_0000 * e;
  }

  lemma SmallMultiple2(d: int, k: int)
    requires -0x1_0000_0000_0000_0000 < d < 0x1_0000_0000_0000_0000
    requires d * 0x94d049bb133111eb == 0x1_0000_0000_0000_0000 * k
    ensures d == 0
  {
    var e := k * 0x319642b2d24d8ec3 - d * 0x1cd336eda85f1453;
    assert d == 0x1_0000_0000_0000_0000 * e;
  }

  lemma SmallMultipleGamma(d: int, k: int)
    requires -0x1_0000_0000_0000_0000 < d < 0x1_0000_0000_0000_0000
    requires d * 0x9e3779b97f4a7c15 == 0x1_0000_0000_0000_0000 * k
    ensures d == 0
  {
    var e := k * 0xf1de83e19937733d - d * 0x957bbf35006ed677;
    assert d == 0x1_0000_0000_0000_0000 * e;
  }

  lemma Times1Injective(x: Word, y: Word)
    requires Times1(x) == Times1(y)
    ensures x == y
  {
    SmallMultiple1(x - y, (x * 0xbf58476d1ce4e5b9) / 0x1_0000_0000_0000_0000
                          - (y * 0xbf58476d1ce4e5b9) / 0x1_0000_0000_0000_0000);
  }

  lemma Times2Injective(x: Word, y: Word)
    requires Times2(x) == Times2(y)
    ensures x == y
  {
    SmallMultiple2(x - y, (x * 0x94d049bb133111eb) / 0x1_0000_0000_0000_0000
                          - (y * 0x94d049bb133111eb) / 0x1_0000_0000_0000_0000);
  }

  lemma MixInjective(x: Word, y: Word)
    requires Mix(x) == Mix(y)
    ensures x == y
  {
    var x1, y1 := XorShift(x, 30), XorShift(y, 30);
    var x2, y2 := XorShift(Times1(x1), 27), XorShift(Times1(y1), 27);
    XorShiftInjective(Times2(x2), Times2(y2), 31);
    Times2Injective(x2, y2);
    XorShiftInjective(Times1(x1), Times1(y1), 27);
    Times1Injective(x1, y1);
    XorShiftInjective(x, y, 30);
  }

  lemma {:induction false} ShrZero(k: nat)
    ensures Shr(0, k) == 0
  {
    if k > 0 {
      ShrZero(k - 1);
    }
  }

  /** Only the word 0 is mixed to 0. */
  lemma MixZero(x: Word)
    ensures Mix(x) == 0 <==> x == 0
  {
    ShrZero(30);
    ShrZero(27);
    ShrZero(31);
    assert Times1(0) == 0 && Times2(0) == 0 && Xor(0, 0) == 0;
    assert XorShift(0, 30) == 0 && XorShift(0, 27) == 0 && XorShift(0, 31) == 0;
    if Mix(x) == 0 {
      MixInjective(x, 0);
    }
  }

  lemma StatesDistinct(seed: Word, i: nat, j: nat)
    requires i < j < i + 0x1_0000_0000_0000_0000
    ensures Advance(seed, i) != Advance(seed, j)
  {
    if Advance(seed, i) == Advance(seed, j) {
      SmallMultipleGamma(j - i, (seed + j * 0x9e3779b97f4a7c15) / 0x1_0000_0000_0000_0000
                                - (seed + i * 0x9e3779b97f4a7c15) / 0x1_0000_0000_0000_0000);
    }
  }

  /** Any 2^64 consecutive draws are pairwise distinct. */
  lemma DrawsDistinct(seed: Word, i: nat, j: nat)
    requires i < j < i + 0x1_0000_0000_0000_0000
    ensures Draw(seed, i) != Draw(seed, j)
  {
    StatesDistinct(seed, i, j);
    DrawIsMixed(seed, i);
    DrawIsMixed(seed, j);
    if Draw(seed, i) == Draw(seed, j) {
      MixInjective(Advance(seed, i), Advance(seed, j));
    }
  }

  // ---------------------------------------------------------------- bytes

  /** n bytes, least significant first. */
  function LittleEndian(w: nat, n: nat): seq<byte> {
    if n == 0 then [] else [w % 256] + LittleEndian(w / 256, n - 1)
  }

  function FromLittleEndian(b: seq<byte>): nat {
    if b == [] then 0 else b[0] + 256 * FromLittleEndian(b[1..])
  }

  lemma {:induction false} LittleEndianRoundTrip(w: nat, n: nat)
    requires w < Pow256(n)
    ensures |LittleEndian(w, n)| == n && FromLittleEndian(LittleEndian(w, n)) == w
  {
    if n > 0 {
      LittleEndianRoundTrip(w / 256, n - 1);
      assert LittleEndian(w, n)[1..] == LittleEndian(w / 256, n - 1);
    }
  }

  lemma WordBytes(w: Word)
    ensures |LittleEndian(w, 8)| == 8 && FromLittleEndian(LittleEndian(w, 8)) == w
  {
    Pow256Words();
    LittleEndianRoundTrip(w, 8);
  }

  lemma {:induction false} AllZeroValue(b: seq<byte>)
    ensures AllZero(b) <==> FromLittleEndian(b) == 0
  {
    if b != [] {
      AllZeroValue(b[1..]);
      if AllZero(b[1..]) && b[0] == 0 {
        assert forall i :: 0 < i < |b| ==> b[i] == b[1..][i - 1];
      }
      assert AllZero(b) ==> AllZero(b[1..]);
    }
  }

  // ---------------------------------------------------------------- identifiers made from a stream of words

  /** Word number k of a random stream. */
  type Stream = nat -> Word

  /** Words a SpanId takes, after k words: one, or two if the first was zero. */
  function SpanDraws(stream: Stream, k: nat): nat {
    if stream(k + 1) == 0 then 2 else 1
  }

  datatype IdKind = TraceKind | SpanKind

  function DrawsFor(stream: Stream, k: nat, kind: IdKind): nat {
    if kind == TraceKind then 2 else SpanDraws(stream, k)
  }

  /** The identifier made after k words, in its byte form. */
  function IdBytes(stream: Stream, k: nat, kind: IdKind): seq<byte> {
    if kind == TraceKind then LittleEndian(stream(k + 1), 8) + LittleEndian(stream(k + 2), 8)
    else LittleEndian(stream(k + SpanDraws(stream, k)), 8)
  }

  /** The identifiers a thread makes for a list of demands, starting after k words. */
  function Ids(stream: Stream, k: nat, kinds: seq<IdKind>): seq<seq<byte>>
    decreases |kinds|
  {
    if kinds == [] then []
    else [IdBytes(stream, k, kinds[0])] + Ids(stream, k + DrawsFor(stream, k, kinds[0]), kinds[1..])
  }

  function TotalDraws(stream: Stream, k: nat, kinds: seq<IdKind>): nat
    decreases |kinds|
  {
    if kinds == [] then 0
    else
      var n := DrawsFor(stream, k, kinds[0]);
      n + TotalDraws(stream, k + n, kinds[1..])
  }

  lemma AllZeroParts(b: seq<byte>, n: nat)
    requires n <= |b|
    ensures AllZero(b) <==> AllZero(b[..n]) && AllZero(b[n..])
  {
    if AllZero(b[..n]) && AllZero(b[n..]) {
      forall i | 0 <= i < |b|
        ensures b[i] == 0
      {
        assert if i < n then b[i] == b[..n][i] else b[i] == b[n..][i - n];
      }
    }
  }

  /** Every generated identifier is valid: it has a non-zero byte. */
  lemma IdValid(stream: Stream, k: nat, kind: IdKind)
    requires stream(k + 1) != 0 || stream(k + 2) != 0
    ensures |IdBytes(stream, k, kind)| == (if kind == TraceKind then 16 else 8)
    ensures !AllZero(IdBytes(stream, k, kind))
  {
    var a, b := stream(k + 1), stream(k + 2);
    ZeroChunk(a);
    ZeroChunk(b);
    if kind == TraceKind {
      var id := IdBytes(stream, k, kind);
      assert id[..8] == LittleEndian(a, 8) && id[8..] == LittleEndian(b, 8);
      AllZeroParts(id, 8);
    }
  }

  /** The number of the word that fills the first eight bytes. */
  function FirstDraw(stream: Stream, k: nat, kind: IdKind): nat {
    if kind == TraceKind then k + 1 else k + SpanDraws(stream, k)
  }

  lemma FirstBytes(stream: Stream, k: nat, kind: IdKind)
    ensures |IdBytes(stream, k, kind)| >= 8
    ensures FromLittleEndian(IdBytes(stream, k, kind)[..8]) == stream(FirstDraw(stream, k, kind))
  {
    WordBytes(stream(FirstDraw(stream, k, kind)));
    WordBytes(stream(k + 2));
    assert IdBytes(stream, k, kind)[..8] == LittleEndian(stream(FirstDraw(stream, k, kind)), 8);
  }

  lemma {:induction false} IdsLength(stream: Stream, k: nat, kinds: seq<IdKind>)
    ensures |Ids(stream, k, kinds)| == |kinds|
    decreases |kinds|
  {
    if kinds != [] {
      IdsLength(stream, k + DrawsFor(stream, k, kinds[0]), kinds[1..]);
    }
  }

  /** Identifier number i of a run is made after the words of the identifiers before it. */
  lemma {:induction false} IdAt(stream: Stream, k: nat, kinds: seq<IdKind>, i: nat)
    requires i < |kinds|
    ensures |Ids(stream, k, kinds)| == |kinds|
    ensures Ids(stream, k, kinds)[i] == IdBytes(stream, k + TotalDraws(stream, k, kinds[..i]), kinds[i])
    decreases |kinds|
  {
    IdsLength(stream, k, kinds);
    if i > 0 {
      IdAt(stream, k + DrawsFor(stream, k, kinds[0]), kinds[1..], i - 1);
      assert kinds[..i][0] == kinds[0] && kinds[..i][1..] == kinds[1..][..i - 1];
    }
  }

  lemma {:induction false} TotalDrawsGrow(stream: Stream, k: nat, kinds: seq<IdKind>, i: nat, j: nat)
    requires i < j <= |kinds|
    ensures TotalDraws(stream, k, kinds[..i]) + DrawsFor(stream, k + TotalDraws(stream, k, kinds[..i]), kinds[i])
         <= TotalDraws(stream, k, kinds[..j])
    decreases i
  {
    var n := DrawsFor(stream, k, kinds[0]);
    assert kinds[..j][0] == kinds[0] && kinds[..j][1..] == kinds[1..][..j - 1];
    if i > 0 {
      assert kinds[..i][0] == kinds[0] && kinds[..i][1..] == kinds[1..][..i - 1];
      TotalDrawsGrow(stream, k + n, kinds[1..], i - 1, j - 1);
    }
  }

  /** The number of the word in the first eight bytes of identifier i of a run. */
  function IdDraw(stream: Stream, k: nat, kinds: seq<IdKind>, i: nat): nat
    requires i < |kinds|
  {
    FirstDraw(stream, k + TotalDraws(stream, k, kinds[..i]), kinds[i])
  }

  lemma IdDrawsApart(stream: Stream, k: nat, kinds: seq<IdKind>, i: nat, j: nat)
    requires i < j < |kinds|
    ensures k < IdDraw(stream, k, kinds, i) < IdDraw(stream, k, kinds, j) <= k + TotalDraws(stream, k, kinds)
  {
    TotalDrawsGrow(stream, k, kinds, i, j);
    TotalDrawsGrow(stream, k, kinds, j, |kinds|);
    assert kinds[..|kinds|] == kinds;
  }

  /** Identifiers whose first words differ are different. */
  lemma IdsDiffer(stream: Stream, k: nat, kinds: seq<IdKind>, i: nat, j: nat)
    requires i < |kinds| && j < |kinds|
    requires stream(IdDraw(stream, k, kinds, i)) != stream(IdDraw(stream, k, kinds, j))
    ensures |Ids(stream, k, kinds)| == |kinds|
    ensures Ids(stream, k, kinds)[i] != Ids(stream, k, kinds)[j]
  {
    IdAt(stream, k, kinds, i);
    IdAt(stream, k, kinds, j);
    FirstBytes(stream, k + TotalDraws(stream, k, kinds[..i]), kinds[i]);
    FirstBytes(stream, k + TotalDraws(stream, k, kinds[..j]), kinds[j]);
    var a, b := Ids(stream, k, kinds)[i], Ids(stream, k, kinds)[j];
    assert FromLittleEndian(a[..8]) != FromLittleEndian(b[..8]);
  }

  // ---------------------------------------------------------------- the SplitMix64 stream

  function SplitMix(seed: Word): Stream {
    (k: nat) => Draw(seed, k)
  }

  /** Two zeros in a row do not happen. */
  lemma NoTwoZeros(seed: Word, k: nat)
    ensures SplitMix(seed)(k) != 0 || SplitMix(seed)(k + 1) != 0
  {
    DrawsDistinct(seed, k, k + 1);
  }

  /** Identifiers of one thread never repeat while it has made at most 2^64 draws. */
  lemma IdsNeverRepeat(seed: Word, k: nat, kinds: seq<IdKind>, i: nat, j: nat)
    requires i < j < |kinds| && TotalDraws(SplitMix(seed), k, kinds) <= 0x1_0000_0000_0000_0000
    ensures |Ids(SplitMix(seed), k, kinds)| == |kinds|
    ensures Ids(SplitMix(seed), k, kinds)[i] != Ids(SplitMix(seed), k, kinds)[j]
  {
    var stream := SplitMix(seed);
    IdDrawsApart(stream, k, kinds, i, j);
    DrawsDistinct(seed, IdDraw(stream, k, kinds, i), IdDraw(stream, k, kinds, j));
    IdsDiffer(stream, k, kinds, i, j);
  }

  // ---------------------------------------------------------------- the code

  /** The thread-local generator; seed and draws are ghosts that name the position in the stream. */
  class Generator {
    var state: Word
    ghost const seed: Word
    ghost var draws: nat

    ghost predicate Valid()
      reads this
    {
      state == Advance(seed, draws)
    }

    constructor (seed: Word)
      ensures Valid() && this.seed == seed && draws == 0
    {
      state := seed;
      this.seed := seed;
      draws := 0;
    }

    method NextRandom64() returns (value: Word)
      requires Valid()
      modifies this
      ensures Valid() && draws == old(draws) + 1 && value == SplitMix(seed)(draws)
    {
      AdvanceOne(seed, draws);
      state := (state + 0x9e3779b97f4a7c15) % 0x1_0000_0000_0000_0000;
      draws := draws + 1;
      value := state;
      value := XorShift(value, 30) * 0xbf58476d1ce4e5b9 % 0x1_0000_0000_0000_0000;
      value := XorShift(value, 27) * 0x94d049bb133111eb % 0x1_0000_0000_0000_0000;
      value := XorShift(value, 31);
      DrawIsMixed(seed, draws);
    }

    /** fillRandomBytes for eight bytes, and the test of the retry loop; the word is returned for the proof. */
    method FillEight() returns (id: seq<byte>, found: bool, ghost word: Word)
      requires Valid()
      modifies this
      ensures Valid() && draws == old(draws) + 1 && word == SplitMix(seed)(draws)
      ensures id == LittleEndian(word, 8) && (found <==> word != 0)
    {
      var chunk := NextRandom64();
      word := chunk;
      id := LittleEndian(chunk, 8);
      found := HasNonZeroByte(id);
      ZeroChunk(chunk);
    }

    method MakeRandomSpanId() returns (id: seq<byte>, rounds: nat)
      requires Valid()
      modifies this
      ensures Valid() && id == IdBytes(SplitMix(seed), old(draws), SpanKind) && !AllZero(id)
      ensures rounds == SpanDraws(SplitMix(seed), old(draws)) <= 2 && draws == old(draws) + rounds
    {
      ghost var stream, start := SplitMix(seed), draws;
      NoTwoZeros(seed, start + 1);
      IdValid(stream, start, SpanKind);
      ghost var word;
      var found;
      id, found, word := FillEight();
      rounds := 1;
      while !found
        invariant Valid() && draws == start + rounds && id == LittleEndian(stream(draws), 8)
        invariant (rounds == 1 && (found <==> stream(start + 1) != 0)) || (rounds == 2 && found && stream(start + 1) == 0)
        decreases 2 - rounds
      {
        id, found, word := FillEight();
        rounds := rounds + 1;
      }
    }

    method MakeRandomTraceId() returns (id: seq<byte>, rounds: nat)
      requires Valid()
      modifies this
      ensures Valid() && id == IdBytes(SplitMix(seed), old(draws), TraceKind) && !AllZero(id)
      ensures rounds == 1 && draws == old(draws) + 2
    {
      NoTwoZeros(seed, draws + 1);
      IdValid(SplitMix(seed), draws, TraceKind);
      id, rounds := [], 0;
      var found := false;
      while !found
        invariant Valid() && rounds <= 1 && draws == old(draws) + 2 * rounds && (found <==> rounds == 1)
        invariant found ==> id == IdBytes(SplitMix(seed), old(draws), TraceKind)
        decreases 1 - rounds
      {
        var first := NextRandom64();
        var second := NextRandom64();
        id, rounds := LittleEndian(first, 8) + LittleEndian(second, 8), rounds + 1;
        assert draws == old(draws) + 2 && id == IdBytes(SplitMix(seed), old(draws), TraceKind);
        found := HasNonZeroByte(id);
      }
    }
  }

  lemma AdvanceOne(seed: Word, k: nat)
    ensures (Advance(seed, k) + 0x9e3779b97f4a7c15) % 0x1_0000_0000_0000_0000 == Advance(seed, k + 1)
  {
    var q := (seed + k * 0x9e3779b97f4a7c15) / 0x1_0000_0000_0000_0000;
    assert seed + (k + 1) * 0x9e3779b97f4a7c15
        == Advance(seed, k) + 0x9e3779b97f4a7c15 + 0x1_0000_0000_0000_0000 * q;
    ModDrop(Advance(seed, k) + 0x9e3779b97f4a7c15, q);
  }

  lemma ZeroChunk(chunk: Word)
    ensures |LittleEndian(chunk, 8)| == 8 && (AllZero(LittleEndian(chunk, 8)) <==> chunk == 0)
  {
    WordBytes(chunk);
    AllZeroValue(LittleEndian(chunk, 8));
  }
}
