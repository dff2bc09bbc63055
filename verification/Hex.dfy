/** Hexadecimal text of galay-tracing/common/id_format.{h,cc}: one digit, the parser and the printer. */
module Hex {
  import opened Wrappers
  import opened Words

  /** Value of a hexadecimal digit of either case, -1 for any other character. */
  function HexValue(ch: char): int {
    if '0' <= ch <= '9' then ch as int - '0' as int
    else if 'a' <= ch <= 'f' then ch as int - 'a' as int + 10
    else if 'A' <= ch <= 'F' then ch as int - 'A' as int + 10
    else -1
  }

  predicate IsHex(ch: char) {
    '0' <= ch <= '9' || 'a' <= ch <= 'f' || 'A' <= ch <= 'F'
  }

  function HexDigit(v: nat): char
    requires v < 16
  {
    "0123456789abcdef"[v]
  }

  function Lower(ch: char): char {
    if 'A' <= ch <= 'Z' then (ch as int - 'A' as int + 'a' as int) as char else ch
  }

  function LowerAll(s: string): string {
    seq(|s|, i requires 0 <= i < |s| => Lower(s[i]))
  }

  lemma DigitRoundTrip(v: nat)
    requires v < 16
    ensures HexValue(HexDigit(v)) == v && IsHex(HexDigit(v)) && Lower(HexDigit(v)) == HexDigit(v)
    ensures HexDigit(v) == '0' <==> v == 0
  {
  }

  /** The digits are in the order of their values, so each value has its usual digit. */
  lemma DigitsIncrease(v: nat, w: nat)
    requires v < w < 16
    ensures HexDigit(v) < HexDigit(w)
  {
  }

  lemma ValueRoundTrip(ch: char)
    ensures HexValue(ch) < 16 && (HexValue(ch) >= 0 <==> IsHex(ch))
    ensures IsHex(ch) ==> HexValue(ch) >= 0 && HexDigit(HexValue(ch)) == Lower(ch)
    ensures HexValue(ch) == 0 <==> ch == '0'
  {
  }

  // ---------------------------------------------------------------- specification

  /** Two lowercase digits a byte, most significant first. */
  function ToHex(bytes: seq<byte>): (s: string)
    ensures |s| == 2 * |bytes|
  {
    seq(2 * |bytes|, i requires 0 <= i < 2 * |bytes| =>
      HexDigit(if i % 2 == 0 then bytes[i / 2] / 16 else bytes[i / 2] % 16))
  }

  predicate AllHex(s: string) {
    forall i :: 0 <= i < |s| ==> IsHex(s[i])
  }

  function PairValue(high: char, low: char): byte
    requires IsHex(high) && IsHex(low)
  {
    ValueRoundTrip(high);
    ValueRoundTrip(low);
    16 * HexValue(high) + HexValue(low)
  }

  /** The two digits of a pair's value are the lowercase forms of the pair. */
  lemma PairDigits(high: char, low: char)
    requires IsHex(high) && IsHex(low)
    ensures var v := PairValue(high, low); HexDigit(v / 16) == Lower(high) && HexDigit(v % 16) == Lower(low)
  {
    ValueRoundTrip(high);
    ValueRoundTrip(low);
    assert PairValue(high, low) / 16 == HexValue(high) && PairValue(high, low) % 16 == HexValue(low);
  }

  function HexBytes(s: string): (b: seq<byte>)
    requires |s| % 2 == 0 && AllHex(s)
    ensures |b| == |s| / 2
  {
    seq(|s| / 2, i requires 0 <= i < |s| / 2 => PairValue(s[2 * i], s[2 * i + 1]))
  }

  /** The bytes of a text of exactly n bytes, if it is one. */
  function FromHex(s: string, n: nat): Option<seq<byte>> {
    if |s| == 2 * n && AllHex(s) then Some(HexBytes(s)) else None
  }

  lemma PrintedAt(bytes: seq<byte>, i: nat)
    requires i < |bytes|
    ensures var s := ToHex(bytes); IsHex(s[2 * i]) && IsHex(s[2 * i + 1]) && PairValue(s[2 * i], s[2 * i + 1]) == bytes[i]
  {
    DigitRoundTrip(bytes[i] / 16);
    DigitRoundTrip(bytes[i] % 16);
    assert ToHex(bytes)[2 * i] == HexDigit(bytes[i] / 16);
    assert ToHex(bytes)[2 * i + 1] == HexDigit(bytes[i] % 16);
  }

  lemma PrintedAllHex(bytes: seq<byte>)
    ensures AllHex(ToHex(bytes))
  {
    forall i | 0 <= i < 2 * |bytes|
      ensures IsHex(ToHex(bytes)[i])
    {
      PrintedAt(bytes, i / 2);
      assert i == 2 * (i / 2) || i == 2 * (i / 2) + 1;
    }
  }

  /** Parsing inverts printing, at every length. */
  lemma PrintThenParse(bytes: seq<byte>)
    ensures FromHex(ToHex(bytes), |bytes|) == Some(bytes)
  {
    PrintedAllHex(bytes);
    var back := HexBytes(ToHex(bytes));
    forall i | 0 <= i < |bytes|
      ensures back[i] == bytes[i]
    {
      PrintedAt(bytes, i);
    }
    assert back == bytes;
  }

  lemma ReprintedAt(s: string, i: nat)
    requires |s| % 2 == 0 && AllHex(s) && i < |s|
    ensures ToHex(HexBytes(s))[i] == Lower(s[i])
  {
    var k := i / 2;
    PairDigits(s[2 * k], s[2 * k + 1]);
    assert HexBytes(s)[k] == PairValue(s[2 * k], s[2 * k + 1]);
    assert i == 2 * k || i == 2 * k + 1;
  }

  /** Printing what was parsed gives the lowercase form of the text. */
  lemma ParseThenPrint(s: string)
    requires |s| % 2 == 0 && AllHex(s)
    ensures ToHex(HexBytes(s)) == LowerAll(s)
  {
    forall i | 0 <= i < |s|
      ensures ToHex(HexBytes(s))[i] == Lower(s[i])
    {
      ReprintedAt(s, i);
    }
  }

  /** The bytes are all zero exactly when every character is '0'. */
  lemma ZeroText(s: string)
    requires |s| % 2 == 0 && AllHex(s)
    ensures (forall i :: 0 <= i < |s| / 2 ==> HexBytes(s)[i] == 0) <==> (forall i :: 0 <= i < |s| ==> s[i] == '0')
  {
    forall i | 0 <= i < |s| / 2
      ensures HexBytes(s)[i] == 0 <==> s[2 * i] == '0' && s[2 * i + 1] == '0'
    {
      ValueRoundTrip(s[2 * i]);
      ValueRoundTrip(s[2 * i + 1]);
    }
    if forall i :: 0 <= i < |s| / 2 ==> HexBytes(s)[i] == 0 {
      forall i | 0 <= i < |s|
        ensures s[i] == '0'
      {
        assert HexBytes(s)[i / 2] == 0;
        assert i == 2 * (i / 2) || i == 2 * (i / 2) + 1;
      }
    }
  }

  // ---------------------------------------------------------------- the code

  /** parseHex: fills out[..len] and reports success; characters after the first bad pair are not read. */
  method ParseHex(hex: string, out: array?<byte>, len: nat) returns (ok: bool)
    requires out != null ==> len <= out.Length
    modifies out
    ensures ok <==> out != null && FromHex(hex, len).Some?
    ensures ok ==> out[..len] == FromHex(hex, len).value
    ensures out != null ==> out[len..] == old(out[len..])
  {
    if out == null || |hex| != len * 2 {
      return false;
    }
    for i := 0 to len
      invariant forall j :: 0 <= j < 2 * i ==> IsHex(hex[j])
      invariant forall j :: 0 <= j < i ==> out[j] == PairValue(hex[2 * j], hex[2 * j + 1])
      invariant out[len..] == old(out[len..])
    {
      var high := HexValue(hex[i * 2]);
      var low := HexValue(hex[i * 2 + 1]);
      ValueRoundTrip(hex[i * 2]);
      ValueRoundTrip(hex[i * 2 + 1]);
      if high < 0 || low < 0 {
        return false;
      }
      out[i] := 16 * high + low;
    }
    return true;
  }

  /** formatHex: writes 2 * |bytes| characters if the buffer has room for them. */
  method FormatHex(bytes: seq<byte>, out: array?<char>) returns (ok: bool)
    modifies out
    ensures ok <==> out != null && out.Length >= 2 * |bytes|
    ensures ok ==> out[..2 * |bytes|] == ToHex(bytes) && out[2 * |bytes|..] == old(out[2 * |bytes|..])
    ensures !ok && out != null ==> out[..] == old(out[..])
  {
    if out == null || out.Length < |bytes| * 2 {
      return false;
    }
    for i := 0 to |bytes|
      invariant forall j :: 0 <= j < 2 * i ==> out[j] == ToHex(bytes)[j]
      invariant out[2 * |bytes|..] == old(out[2 * |bytes|..])
    {
      out[i * 2] := HexDigit(bytes[i] / 16);
      out[i * 2 + 1] := HexDigit(bytes[i] % 16);
    }
    return true;
  }
}
