/**
 * JSON values, their compact text, and a reader for the grammar of RFC 8259 (sections 2 to 7). A character stands
 * for one unit of text; number tokens are kept as written.
 */
module Json {
  import opened Wrappers
  import opened Hex

  datatype Json =
    | Null
    | Bool(value: bool)
    | Number(token: string)
    | Str(text: string)
    | Array(items: seq<Json>)
    | Object(members: seq<Member>)

  datatype Member = Member(key: string, value: Json)

  // ---------------------------------------------------------------- printing

  /** Escaping of one character as the exporter does it. */
  function EscapeChar(c: char): string {
    if c == '"' || c == '\\' then ['\\', c]
    else if c == '\n' then "\\n"
    else if c == '\r' then "\\r"
    else if c == '\t' then "\\t"
    else if c < ' ' then ['\\', 'u', '0', '0', HexDigit(c as int / 16), HexDigit(c as int % 16)]
    else [c]
  }

  function Escape(s: string): string {
    if s == "" then "" else EscapeChar(s[0]) + Escape(s[1..])
  }

  function Quoted(s: string): string {
    "\"" + Escape(s) + "\""
  }

  function Print(j: Json): string {
    match j
    case Null => "null"
    case Bool(b) => if b then "true" else "false"
    case Number(t) => t
    case Str(s) => Quoted(s)
    case Array(items) => "[" + PrintItems(items) + "]"
    case Object(members) => "{" + PrintMembers(members) + "}"
  }

  function PrintItems(items: seq<Json>): string {
    if items == [] then ""
    else if |items| == 1 then Print(items[0])
    else Print(items[0]) + "," + PrintItems(items[1..])
  }

  function PrintMember(m: Member): string {
    Quoted(m.key) + ":" + Print(m.value)
  }

  function PrintMembers(members: seq<Member>): string {
    if members == [] then ""
    else if |members| == 1 then PrintMember(members[0])
    else PrintMember(members[0]) + "," + PrintMembers(members[1..])
  }

  // ---------------------------------------------------------------- reading

  /** What a reader of part of a text returns: the value read and the text after it. */
  datatype Read<+T> = Got(value: T, rest: string) | Bad

  function SkipSpace(s: string): (r: string)
    ensures |r| <= |s|
  {
    if s != "" && (s[0] == ' ' || s[0] == '\t' || s[0] == '\n' || s[0] == '\r') then SkipSpace(s[1..]) else s
  }

  predicate StartsWith(s: string, word: string) {
    |word| <= |s| && s[..|word|] == word
  }

  /** Four hexadecimal digits. */
  function ReadUnit(s: string): (r: Read<nat>)
    ensures r.Got? ==> |r.rest| < |s| && r.value < 0x1_0000
  {
    if |s| >= 4 && IsHex(s[0]) && IsHex(s[1]) && IsHex(s[2]) && IsHex(s[3]) then
      Got(256 * PairValue(s[0], s[1]) + PairValue(s[2], s[3]), s[4..])
    else Bad
  }

  /**
   * The character of a \u escape, from its four digits on. A character outside the first plane takes two escapes;
   * an unpaired surrogate stands for no character.
   */
  function ReadUnicode(s: string): (r: Read<char>)
    ensures r.Got? ==> |r.rest| < |s|
  {
    match ReadUnit(s)
    case Bad => Bad
    case Got(unit, rest) =>
      if unit < 0xD800 || unit >= 0xE000 then Got(unit as char, rest)
      else if unit < 0xDC00 && StartsWith(rest, "\\u") then
        match ReadUnit(rest[2..])
        case Got(low, after) =>
          if 0xDC00 <= low < 0xE000 then
            Got((0x1_0000 + 0x400 * (unit - 0xD800) + (low - 0xDC00)) as char, after)
          else Bad
        case Bad => Bad
      else Bad
  }

  /** The character of an escape, from just after the backslash. */
  function ReadEscape(s: string): (r: Read<char>)
    ensures r.Got? ==> |r.rest| < |s|
  {
    if s == "" then Bad
    else match s[0]
      case '"' => Got('"', s[1..])
      case '\\' => Got('\\', s[1..])
      case '/' => Got('/', s[1..])
      case 'b' => Got(8 as char, s[1..])
      case 'f' => Got(12 as char, s[1..])
      case 'n' => Got('\n', s[1..])
      case 'r' => Got('\r', s[1..])
      case 't' => Got('\t', s[1..])
      case 'u' => ReadUnicode(s[1..])
      case _ => Bad
  }

  function Prepend(c: char, r: Read<string>): Read<string> {
    if r.Got? then Got([c] + r.value, r.rest) else Bad
  }

  /** The contents of a string, from just after its opening quote. */
  function ReadString(s: string): (r: Read<string>)
    ensures r.Got? ==> |r.rest| < |s|
    decreases |s|
  {
    if s == "" then Bad
    else if s[0] == '"' then Got("", s[1..])
    else if s[0] == '\\' then
      match ReadEscape(s[1..])
      case Got(c, rest) => Prepend(c, ReadString(rest))
      case Bad => Bad
    else if s[0] < ' ' then Bad
    else Prepend(s[0], ReadString(s[1..]))
  }

  predicate IsDigit(c: char) {
    '0' <= c <= '9'
  }

  /** The position after the digits that begin at i. */
  function DigitsEnd(s: string, i: nat): (k: nat)
    requires i <= |s|
    ensures i <= k <= |s|
    decreases |s| - i
  {
    if i < |s| && IsDigit(s[i]) then DigitsEnd(s, i + 1) else i
  }

  /** One or more digits. */
  function SomeDigits(s: string, i: nat): (k: Option<nat>)
    requires i <= |s|
    ensures k.Some? ==> i < k.value <= |s|
  {
    if DigitsEnd(s, i) == i then None else Some(DigitsEnd(s, i))
  }

  /** Zero, or digits that do not begin with zero. */
  function IntEnd(s: string, i: nat): (k: Option<nat>)
    requires i <= |s|
    ensures k.Some? ==> i < k.value <= |s|
  {
    if i < |s| && s[i] == '0' then Some(i + 1) else SomeDigits(s, i)
  }

  function FractionEnd(s: string, i: nat): (k: Option<nat>)
    requires i <= |s|
    ensures k.Some? ==> i <= k.value <= |s|
  {
    if i < |s| && s[i] == '.' then SomeDigits(s, i + 1) else Some(i)
  }

  function ExponentEnd(s: string, i: nat): (k: Option<nat>)
    requires i <= |s|
    ensures k.Some? ==> i <= k.value <= |s|
  {
    if i < |s| && (s[i] == 'e' || s[i] == 'E') then
      SomeDigits(s, if i + 1 < |s| && (s[i + 1] == '+' || s[i + 1] == '-') then i + 2 else i + 1)
    else Some(i)
  }

  function NumberEnd(s: string): (k: Option<nat>)
    ensures k.Some? ==> 0 < k.value <= |s|
  {
    match IntEnd(s, if s != "" && s[0] == '-' then 1 else 0)
    case None => None
    case Some(i) =>
      match FractionEnd(s, i)
      case None => None
      case Some(j) => ExponentEnd(s, j)
  }

  /** The whole text is one JSON number. */
  predicate IsNumber(s: string) {
    NumberEnd(s) == Some(|s|)
  }

  function ReadNumber(s: string): (r: Read<Json>)
    ensures r.Got? ==> |r.rest| < |s|
  {
    match NumberEnd(s)
    case Some(k) => Got(Number(s[..k]), s[k..])
    case None => Bad
  }

  function ReadWord(s: string, word: string, j: Json): (r: Read<Json>)
    requires word != ""
    ensures r.Got? ==> |r.rest| < |s|
  {
    if StartsWith(s, word) then Got(j, s[|word|..]) else Bad
  }

  /** A value, with space allowed before it. */
  function ReadValue(text: string): (r: Read<Json>)
    ensures r.Got? ==> |r.rest| < |text|
    decreases |text|, 1
  {
    var s := SkipSpace(text);
    if s == "" then Bad
    else if s[0] == '{' then
      var inner := SkipSpace(s[1..]);
      if inner != "" && inner[0] == '}' then Got(Object([]), inner[1..])
      else match ReadMembers(inner)
        case Got(members, rest) => Got(Object(members), rest)
        case Bad => Bad
    else if s[0] == '[' then
      var inner := SkipSpace(s[1..]);
      if inner != "" && inner[0] == ']' then Got(Array([]), inner[1..])
      else match ReadItems(inner)
        case Got(items, rest) => Got(Array(items), rest)
        case Bad => Bad
    else if s[0] == '"' then
      match ReadString(s[1..])
      case Got(t, rest) => Got(Str(t), rest)
      case Bad => Bad
    else if s[0] == 'n' then ReadWord(s, "null", Null)
    else if s[0] == 't' then ReadWord(s, "true", Bool(true))
    else if s[0] == 'f' then ReadWord(s, "false", Bool(false))
    else ReadNumber(s)
  }

  /** One or more values separated by commas, and the closing bracket. */
  function ReadItems(s: string): (r: Read<seq<Json>>)
    ensures r.Got? ==> |r.rest| < |s|
    decreases |s|, 2
  {
    match ReadValue(s)
    case Bad => Bad
    case Got(j, rest) =>
      var after := SkipSpace(rest);
      if after == "" then Bad
      else if after[0] == ']' then Got([j], after[1..])
      else if after[0] != ',' then Bad
      else match ReadItems(after[1..])
        case Got(items, end) => Got([j] + items, end)
        case Bad => Bad
  }

  function ReadMember(text: string): (r: Read<Member>)
    ensures r.Got? ==> |r.rest| < |text|
    decreases |text|, 2
  {
    var s := SkipSpace(text);
    if s == "" || s[0] != '"' then Bad
    else match ReadString(s[1..])
      case Bad => Bad
      case Got(key, rest) =>
        var after := SkipSpace(rest);
        if after == "" || after[0] != ':' then Bad
        else match ReadValue(after[1..])
          case Got(j, end) => Got(Member(key, j), end)
          case Bad => Bad
  }

  /** One or more members separated by commas, and the closing brace. */
  function ReadMembers(s: string): (r: Read<seq<Member>>)
    ensures r.Got? ==> |r.rest| < |s|
    decreases |s|, 3
  {
    match ReadMember(s)
    case Bad => Bad
    case Got(m, rest) =>
      var after := SkipSpace(rest);
      if after == "" then Bad
      else if after[0] == '}' then Got([m], after[1..])
      else if after[0] != ',' then Bad
      else match ReadMembers(after[1..])
        case Got(members, end) => Got([m] + members, end)
        case Bad => Bad
  }

  /** A JSON text: one value with space around it. */
  function Parse(text: string): Option<Json> {
    match ReadValue(text)
    case Got(j, rest) => if SkipSpace(rest) == "" then Some(j) else None
    case Bad => None
  }
}
