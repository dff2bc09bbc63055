/** Reading what was printed: when it gives the value back, and when it fails. */
module JsonRoundTrip {
  import opened Wrappers
  import opened Hex
  import opened Json

  // ---------------------------------------------------------------- strings

  lemma EscapedControl(c: char, tail: string)
    requires c < ' '
    ensures ReadUnicode(['0', '0', HexDigit(c as int / 16), HexDigit(c as int % 16)] + tail) == Got(c, tail)
  {
    var high, low := HexDigit(c as int / 16), HexDigit(c as int % 16);
    DigitRoundTrip(c as int / 16);
    DigitRoundTrip(c as int % 16);
    var s := ['0', '0', high, low] + tail;
    assert s[0] == '0' && s[1] == '0' && s[2] == high && s[3] == low && s[4..] == tail;
    assert PairValue('0', '0') == 0 && PairValue(high, low) == c as int;
  }

  lemma ReadEscapePair(c: char, e: char, tail: string)
    requires ReadEscape([e] + tail) == Got(c, tail)
    ensures ReadString(['\\', e] + tail) == Prepend(c, ReadString(tail))
  {
    var s := ['\\', e] + tail;
    assert s[0] == '\\' && s[1..] == [e] + tail;
  }

  lemma ShortEscapes(e: char, tail: string)
    ensures e == '"' || e == '\\' ==> ReadEscape([e] + tail) == Got(e, tail)
    ensures ReadEscape(['n'] + tail) == Got('\n', tail)
    ensures ReadEscape(['r'] + tail) == Got('\r', tail)
    ensures ReadEscape(['t'] + tail) == Got('\t', tail)
  {
    assert ([e] + tail)[1..] == (['n'] + tail)[1..] == (['r'] + tail)[1..] == (['t'] + tail)[1..] == tail;
  }

  lemma ReadControl(c: char, tail: string)
    requires c < ' '
    ensures ReadString(['\\', 'u', '0', '0', HexDigit(c as int / 16), HexDigit(c as int % 16)] + tail)
         == Prepend(c, ReadString(tail))
  {
    var digits := ['0', '0', HexDigit(c as int / 16), HexDigit(c as int % 16)] + tail;
    EscapedControl(c, tail);
    var s := ['\\', 'u', '0', '0', HexDigit(c as int / 16), HexDigit(c as int % 16)] + tail;
    assert s[0] == '\\' && s[1..][0] == 'u' && s[1..][1..] == digits;
  }

  /** Reading undoes the escaping of one character, whatever follows. */
  lemma ReadOne(c: char, tail: string)
    ensures ReadString(EscapeChar(c) + tail) == Prepend(c, ReadString(tail))
  {
    if c == '"' || c == '\\' || c == '\n' || c == '\r' || c == '\t' {
      ShortEscapes(c, tail);
      ReadEscapePair(c, EscapeChar(c)[1], tail);
      assert EscapeChar(c) == ['\\', EscapeChar(c)[1]];
    } else if c < ' ' {
      ReadControl(c, tail);
    } else {
      assert (EscapeChar(c) + tail)[1..] == tail;
    }
  }

  /** Every string, of any characters, is read back from its escaped form. */
  lemma {:induction false} ReadEscaped(s: string, rest: string)
    ensures ReadString(Escape(s) + "\"" + rest) == Got(s, rest)
  {
    var text := Escape(s) + "\"" + rest;
    if s == "" {
      assert text[0] == '"' && text[1..] == rest;
    } else {
      ReadEscaped(s[1..], rest);
      var tail := Escape(s[1..]) + "\"" + rest;
      assert text == EscapeChar(s[0]) + tail;
      ReadOne(s[0], tail);
      assert [s[0]] + s[1..] == s;
    }
  }

  // ---------------------------------------------------------------- numbers

  /** Nothing that could continue a number. */
  predicate Stops(rest: string) {
    rest == "" || !(IsDigit(rest[0]) || rest[0] == '.' || rest[0] == 'e' || rest[0] == 'E' || rest[0] == '+' || rest[0] == '-')
  }

  lemma {:induction false} DigitsStop(t: string, rest: string, i: nat)
    requires i <= |t| && Stops(rest)
    ensures DigitsEnd(t + rest, i) == DigitsEnd(t, i)
    decreases |t| - i
  {
    if i < |t| && IsDigit(t[i]) {
      DigitsStop(t, rest, i + 1);
    }
  }

  lemma ExponentStops(t: string, rest: string, i: nat)
    requires i <= |t| && Stops(rest)
    ensures ExponentEnd(t + rest, i) == ExponentEnd(t, i)
  {
    DigitsStop(t, rest, i);
    if i + 1 <= |t| {
      DigitsStop(t, rest, i + 1);
    }
    if i + 2 <= |t| {
      DigitsStop(t, rest, i + 2);
    }
  }

  lemma FractionStops(t: string, rest: string, i: nat)
    requires i <= |t| && Stops(rest)
    ensures FractionEnd(t + rest, i) == FractionEnd(t, i)
  {
    if i + 1 <= |t| {
      DigitsStop(t, rest, i + 1);
    }
  }

  lemma IntStops(t: string, rest: string, i: nat)
    requires i <= |t| && Stops(rest)
    ensures IntEnd(t + rest, i) == IntEnd(t, i)
  {
    DigitsStop(t, rest, i);
  }

  /** What follows a token does not change how far the number in it goes. */
  lemma NumberStops(t: string, rest: string)
    requires t != "" && Stops(rest)
    ensures NumberEnd(t + rest) == NumberEnd(t)
  {
    var start := if t[0] == '-' then 1 else 0;
    IntStops(t, rest, start);
    var i := IntEnd(t, start);
    if i.Some? {
      FractionStops(t, rest, i.value);
      var j := FractionEnd(t, i.value);
      if j.Some? {
        ExponentStops(t, rest, j.value);
      }
    }
  }

  lemma NumberBegins(t: string)
    requires IsNumber(t)
    ensures t != "" && (t[0] == '-' || IsDigit(t[0]))
  {
  }

  // ---------------------------------------------------------------- values

  /** Every number token is a JSON number. */
  predicate Proper(j: Json) {
    match j
    case Number(t) => IsNumber(t)
    case Array(items) => forall i :: 0 <= i < |items| ==> Proper(items[i])
    case Object(members) => forall i :: 0 <= i < |members| ==> Proper(members[i].value)
    case _ => true
  }

  /** The texts the C++ library prints for values that are not finite. */
  predicate NotFinite(t: string) {
    t == "nan" || t == "-nan" || t == "inf" || t == "-inf"
  }

  /** Every number token is the text of some double. */
  predicate DoubleTokens(j: Json) {
    match j
    case Number(t) => IsNumber(t) || NotFinite(t)
    case Array(items) => forall i :: 0 <= i < |items| ==> DoubleTokens(items[i])
    case Object(members) => forall i :: 0 <= i < |members| ==> DoubleTokens(members[i].value)
    case _ => true
  }

  /** Neither space nor a closing bracket. */
  predicate Begins(c: char) {
    c != ' ' && c != '\t' && c != '\n' && c != '\r' && c != ']' && c != '}'
  }

  lemma FirstCharacter(j: Json)
    requires DoubleTokens(j)
    ensures Print(j) != "" && Begins(Print(j)[0])
  {
    if j.Number? && IsNumber(j.token) {
      NumberBegins(j.token);
    }
  }

  lemma NoSpace(s: string)
    requires s != "" && Begins(s[0])
    ensures SkipSpace(s) == s
  {
  }

  lemma ReadLiteral(j: Json, rest: string)
    requires j.Null? || j.Bool?
    ensures ReadValue(Print(j) + rest) == Got(j, rest)
  {
    var word := Print(j);
    var s := word + rest;
    assert s[0] == word[0] && s[..|word|] == word && s[|word|..] == rest;
    NoSpace(s);
  }

  lemma ReadToken(t: string, rest: string)
    requires IsNumber(t) && Stops(rest)
    ensures ReadValue(t + rest) == Got(Number(t), rest)
  {
    var s := t + rest;
    NumberBegins(t);
    NumberStops(t, rest);
    assert s[0] == t[0] && s[..|t|] == t && s[|t|..] == rest;
    NoSpace(s);
  }

  lemma ReadText(t: string, rest: string)
    ensures ReadValue(Quoted(t) + rest) == Got(Str(t), rest)
  {
    var s := Quoted(t) + rest;
    ReadEscaped(t, rest);
    assert s[0] == '"' && s[1..] == Escape(t) + "\"" + rest;
    NoSpace(s);
  }

  // The text of a list up to its closing bracket, and what follows the first element.

  function ItemsText(items: seq<Json>, rest: string): string
    requires items != []
    decreases items, 1
  {
    Print(items[0]) + AfterItem(items, rest)
  }

  function AfterItem(items: seq<Json>, rest: string): string
    requires items != []
    decreases items, 0
  {
    if |items| == 1 then [']'] + rest else [','] + ItemsText(items[1..], rest)
  }

  function MembersText(members: seq<Member>, rest: string): string
    requires members != []
    decreases members, 1
  {
    PrintMember(members[0]) + AfterMember(members, rest)
  }

  function AfterMember(members: seq<Member>, rest: string): string
    requires members != []
    decreases members, 0
  {
    if |members| == 1 then ['}'] + rest else [','] + MembersText(members[1..], rest)
  }

  lemma {:induction false} ItemsPrinted(items: seq<Json>, rest: string)
    requires items != []
    ensures PrintItems(items) + "]" + rest == ItemsText(items, rest)
  {
    if |items| > 1 {
      ItemsPrinted(items[1..], rest);
      Regroup(Print(items[0]), PrintItems(items[1..]), "]", rest);
    } else {
      assert Print(items[0]) + "]" + rest == Print(items[0]) + ([']'] + rest);
    }
  }

  lemma Regroup(a: string, b: string, c: string, rest: string)
    ensures a + "," + b + c + rest == a + ([','] + (b + c + rest))
  {
  }

  lemma {:induction false} MembersPrinted(members: seq<Member>, rest: string)
    requires members != []
    ensures PrintMembers(members) + "}" + rest == MembersText(members, rest)
  {
    if |members| > 1 {
      MembersPrinted(members[1..], rest);
      Regroup(PrintMember(members[0]), PrintMembers(members[1..]), "}", rest);
    } else {
      assert PrintMember(members[0]) + "}" + rest == PrintMember(members[0]) + (['}'] + rest);
    }
  }

  lemma AfterStops(items: seq<Json>, members: seq<Member>, rest: string)
    ensures items != [] ==> Stops(AfterItem(items, rest))
    ensures members != [] ==> Stops(AfterMember(members, rest))
  {
  }

  function AsArray(r: Read<seq<Json>>): Read<Json> {
    if r.Got? then Got(Array(r.value), r.rest) else Bad
  }

  function AsObject(r: Read<seq<Member>>): Read<Json> {
    if r.Got? then Got(Object(r.value), r.rest) else Bad
  }

  function AsMember(key: string, r: Read<Json>): Read<Member> {
    if r.Got? then Got(Member(key, r.value), r.rest) else Bad
  }

  function Cons<T>(x: T, r: Read<seq<T>>): Read<seq<T>> {
    if r.Got? then Got([x] + r.value, r.rest) else Bad
  }

  lemma OpenArray(inner: string)
    requires inner != "" && Begins(inner[0])
    ensures ReadValue("[" + inner) == AsArray(ReadItems(inner))
  {
    var s := "[" + inner;
    assert s[0] == '[' && s[1..] == inner;
    NoSpace(s);
    NoSpace(inner);
  }

  lemma OpenObject(inner: string)
    requires inner != "" && Begins(inner[0])
    ensures ReadValue("{" + inner) == AsObject(ReadMembers(inner))
  {
    var s := "{" + inner;
    assert s[0] == '{' && s[1..] == inner;
    NoSpace(s);
    NoSpace(inner);
  }

  lemma ReadEmpty(rest: string)
    ensures ReadValue("[]" + rest) == Got(Array([]), rest) && ReadValue("{}" + rest) == Got(Object([]), rest)
  {
    var a, o := "[]" + rest, "{}" + rest;
    assert a[0] == '[' && a[1..][0] == ']' && a[1..][1..] == rest;
    assert o[0] == '{' && o[1..][0] == '}' && o[1..][1..] == rest;
  }

  lemma ReadArray(items: seq<Json>, rest: string)
    requires items != [] && DoubleTokens(items[0])
    ensures ReadValue(Print(Array(items)) + rest) == AsArray(ReadItems(ItemsText(items, rest)))
  {
    var inner := ItemsText(items, rest);
    ItemsPrinted(items, rest);
    assert Print(Array(items)) + rest == "[" + (PrintItems(items) + "]" + rest);
    FirstCharacter(items[0]);
    OpenArray(inner);
  }

  lemma ReadObject(members: seq<Member>, rest: string)
    requires members != []
    ensures ReadValue(Print(Object(members)) + rest) == AsObject(ReadMembers(MembersText(members, rest)))
  {
    var inner := MembersText(members, rest);
    MembersPrinted(members, rest);
    assert Print(Object(members)) + rest == "{" + (PrintMembers(members) + "}" + rest);
    assert PrintMember(members[0])[0] == '"';
    OpenObject(inner);
  }

  lemma ReadKey(m: Member, rest: string)
    ensures ReadMember(PrintMember(m) + rest) == AsMember(m.key, ReadValue(Print(m.value) + rest))
  {
    var s := PrintMember(m) + rest;
    var tail := ":" + (Print(m.value) + rest);
    KeyText(m, rest);
    assert s[0] == '"';
    ReadEscaped(m.key, tail);
    assert tail[0] == ':' && tail[1..] == Print(m.value) + rest;
    NoSpace(s);
    NoSpace(tail);
  }

  lemma KeyText(m: Member, rest: string)
    ensures var s := PrintMember(m) + rest;
      s != "" && s[0] == '"' && s[1..] == Escape(m.key) + "\"" + (":" + (Print(m.value) + rest))
  {
    KeyPieces(Escape(m.key), Print(m.value), rest);
  }

  lemma KeyPieces(key: string, value: string, rest: string)
    ensures var s := ("\"" + key + "\"") + ":" + value + rest;
      s != "" && s[0] == '"' && s[1..] == key + "\"" + (":" + (value + rest))
  {
  }

  lemma NextItem(items: seq<Json>, rest: string)
    requires items != []
    requires ReadValue(Print(items[0]) + AfterItem(items, rest)) == Got(items[0], AfterItem(items, rest))
    ensures ReadItems(ItemsText(items, rest))
         == if |items| == 1 then Got(items, rest) else Cons(items[0], ReadItems(ItemsText(items[1..], rest)))
  {
    var after := AfterItem(items, rest);
    NoSpaceAfter(after);
    if |items| == 1 {
      assert after[1..] == rest && items == [items[0]];
    } else {
      assert after[1..] == ItemsText(items[1..], rest);
    }
  }

  lemma NextMember(members: seq<Member>, rest: string)
    requires members != []
    requires ReadValue(Print(members[0].value) + AfterMember(members, rest))
          == Got(members[0].value, AfterMember(members, rest))
    ensures ReadMembers(MembersText(members, rest))
         == if |members| == 1 then Got(members, rest)
            else Cons(members[0], ReadMembers(MembersText(members[1..], rest)))
  {
    var after := AfterMember(members, rest);
    ReadKey(members[0], after);
    NoSpaceAfter(after);
    if |members| == 1 {
      assert after[1..] == rest && members == [members[0]];
    } else {
      assert after[1..] == MembersText(members[1..], rest);
    }
  }

  lemma NoSpaceAfter(s: string)
    requires s != "" && (s[0] == ',' || s[0] == ']' || s[0] == '}')
    ensures SkipSpace(s) == s
  {
  }

  /** A value whose number tokens are proper is read back from its text. */
  lemma {:induction false} ReadPrinted(j: Json, rest: string)
    requires Proper(j) && Stops(rest)
    ensures ReadValue(Print(j) + rest) == Got(j, rest)
    decreases j, 1
  {
    match j
    case Array(items) =>
      if items == [] {
        ReadEmpty(rest);
        assert Print(j) == "[]";
      } else {
        ProperTokens(items[0]);
        ReadPrintedItems(items, rest);
        ReadArray(items, rest);
      }
    case Object(members) =>
      if members == [] {
        ReadEmpty(rest);
        assert Print(j) == "{}";
      } else {
        ReadPrintedMembers(members, rest);
        ReadObject(members, rest);
      }
    case Number(t) => ReadToken(t, rest);
    case Str(t) => ReadText(t, rest);
    case _ => ReadLiteral(j, rest);
  }

  lemma {:induction false} ReadPrintedItems(items: seq<Json>, rest: string)
    requires items != [] && forall i :: 0 <= i < |items| ==> Proper(items[i])
    ensures ReadItems(ItemsText(items, rest)) == Got(items, rest)
    decreases items, 0
  {
    AfterStops(items, [], rest);
    ReadPrinted(items[0], AfterItem(items, rest));
    NextItem(items, rest);
    if |items| > 1 {
      ReadPrintedItems(items[1..], rest);
      assert [items[0]] + items[1..] == items;
    }
  }

  lemma {:induction false} ReadPrintedMembers(members: seq<Member>, rest: string)
    requires members != [] && forall i :: 0 <= i < |members| ==> Proper(members[i].value)
    ensures ReadMembers(MembersText(members, rest)) == Got(members, rest)
    decreases members, 0
  {
    AfterStops([], members, rest);
    ReadPrinted(members[0].value, AfterMember(members, rest));
    NextMember(members, rest);
    if |members| > 1 {
      ReadPrintedMembers(members[1..], rest);
      assert [members[0]] + members[1..] == members;
    }
  }

  lemma ProperTokens(j: Json)
    requires Proper(j)
    ensures DoubleTokens(j)
  {
  }

  // ---------------------------------------------------------------- values that are not finite

  lemma NotFiniteIsBad(t: string, rest: string)
    requires NotFinite(t)
    ensures ReadValue(t + rest) == Bad && !IsNumber(t)
  {
    var s := t + rest;
    NoSpace(s);
    if t == "nan" {
      assert s[0] == 'n' && s[1] == 'a' && "null"[1] == 'u';
      assert |s| >= 4 ==> s[..4][1] == 'a';
    } else if t == "inf" {
      assert s[0] == 'i';
    } else {
      assert s[0] == '-' && !IsDigit(s[1]);
    }
  }

  /** One improper token anywhere makes the whole value unreadable, whatever follows it. */
  lemma {:induction false} ReadImproper(j: Json, rest: string)
    requires DoubleTokens(j) && !Proper(j)
    ensures ReadValue(Print(j) + rest) == Bad
    decreases j, 1
  {
    match j
    case Number(t) => NotFiniteIsBad(t, rest);
    case Array(items) =>
      ReadImproperItems(items, rest);
      ReadArray(items, rest);
    case Object(members) =>
      ReadImproperMembers(members, rest);
      ReadObject(members, rest);
  }

  lemma {:induction false} ReadImproperItems(items: seq<Json>, rest: string)
    requires forall i :: 0 <= i < |items| ==> DoubleTokens(items[i])
    requires exists i :: 0 <= i < |items| && !Proper(items[i])
    ensures ReadItems(ItemsText(items, rest)) == Bad
    decreases items, 0
  {
    AfterStops(items, [], rest);
    if !Proper(items[0]) {
      ReadImproper(items[0], AfterItem(items, rest));
    } else {
      ReadPrinted(items[0], AfterItem(items, rest));
      NextItem(items, rest);
      var i :| 0 <= i < |items| && !Proper(items[i]);
      assert items[1..][i - 1] == items[i];
      ReadImproperItems(items[1..], rest);
    }
  }

  lemma {:induction false} ReadImproperMembers(members: seq<Member>, rest: string)
    requires forall i :: 0 <= i < |members| ==> DoubleTokens(members[i].value)
    requires exists i :: 0 <= i < |members| && !Proper(members[i].value)
    ensures ReadMembers(MembersText(members, rest)) == Bad
    decreases members, 0
  {
    AfterStops([], members, rest);
    if !Proper(members[0].value) {
      ReadKey(members[0], AfterMember(members, rest));
      ReadImproper(members[0].value, AfterMember(members, rest));
    } else {
      ReadPrinted(members[0].value, AfterMember(members, rest));
      NextMember(members, rest);
      var i :| 0 <= i < |members| && !Proper(members[i].value);
      assert members[1..][i - 1] == members[i];
      ReadImproperMembers(members[1..], rest);
    }
  }

  /** The text of a value is accepted exactly when its tokens are numbers, and then it gives the value back. */
  lemma ParsePrinted(j: Json)
    requires DoubleTokens(j)
    ensures Parse(Print(j)) == if Proper(j) then Some(j) else None
  {
    assert Print(j) + "" == Print(j);
    if Proper(j) {
      ReadPrinted(j, "");
    } else {
      ReadImproper(j, "");
    }
  }
}
