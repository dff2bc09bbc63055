/** Texts of objects and arrays that are still open, as an appending writer sees them. */
module JsonWriter {
  import opened Json

  /** A string that needs no escaping. */
  predicate Plain(s: string) {
    forall i :: 0 <= i < |s| ==> s[i] >= ' ' && s[i] != '"' && s[i] != '\\'
  }

  function Name(key: string): string {
    "\"" + key + "\":"
  }

  lemma {:induction false} PlainEscape(s: string)
    requires Plain(s)
    ensures Escape(s) == s
  {
    if s != "" {
      PlainEscape(s[1..]);
      assert EscapeChar(s[0]) == [s[0]] && [s[0]] + s[1..] == s;
    }
  }

  lemma PlainText(s: string)
    requires Plain(s)
    ensures Print(Str(s)) == "\"" + s + "\""
  {
    PlainEscape(s);
  }

  lemma MemberText(key: string, j: Json)
    requires Plain(key)
    ensures PrintMember(Member(key, j)) == Name(key) + Print(j)
  {
    PlainEscape(key);
    assert "\"" + key + "\"" + ":" == Name(key);
  }

  lemma {:induction false} EscapeAppend(s: string, c: char)
    ensures Escape(s + [c]) == Escape(s) + EscapeChar(c)
  {
    var all := s + [c];
    if s == "" {
      assert all[0] == c && all[1..] == "";
    } else {
      EscapeAppend(s[1..], c);
      assert all[0] == s[0] && all[1..] == s[1..] + [c];
      Reassociate(EscapeChar(s[0]), Escape(s[1..]), EscapeChar(c));
    }
  }

  lemma Reassociate(a: string, b: string, c: string)
    ensures a + (b + c) == a + b + c
  {
  }

  // ---------------------------------------------------------------- objects

  /** The text before an object and the object without its closing brace. */
  function OpenObject(before: string, members: seq<Member>): string {
    before + "{" + PrintMembers(members)
  }

  lemma {:induction false} MembersAppend(members: seq<Member>, m: Member)
    requires members != []
    ensures PrintMembers(members + [m]) == PrintMembers(members) + "," + PrintMember(m)
  {
    var all := members + [m];
    assert all[0] == members[0] && all[1..] == members[1..] + [m];
    if |members| > 1 {
      MembersAppend(members[1..], m);
      Associate(PrintMember(members[0]) + ",", PrintMembers(members[1..]), ",", PrintMember(m));
    }
  }

  lemma Associate(a: string, b: string, c: string, d: string)
    ensures a + (b + c + d) == a + b + c + d
  {
  }

  lemma FirstField(before: string, key: string, j: Json)
    requires Plain(key)
    ensures before + "{" + Name(key) + Print(j) == OpenObject(before, [Member(key, j)])
  {
    MemberText(key, j);
    Associate(before + "{", Name(key), Print(j), "");
    assert Name(key) + Print(j) + "" == Name(key) + Print(j);
    assert before + "{" + Name(key) + Print(j) + "" == before + "{" + Name(key) + Print(j);
  }

  lemma NextField(before: string, members: seq<Member>, key: string, j: Json)
    requires Plain(key) && members != []
    ensures OpenObject(before, members) + "," + Name(key) + Print(j)
         == OpenObject(before, members + [Member(key, j)])
  {
    MemberText(key, j);
    MembersAppend(members, Member(key, j));
    FieldPieces(before + "{", PrintMembers(members), Name(key), Print(j));
  }

  lemma FieldPieces(before: string, members: string, name: string, value: string)
    ensures before + members + "," + name + value == before + (members + "," + (name + value))
  {
  }

  /** A text between quotes, appended piece by piece. */
  lemma QuotePieces(before: string, s: string)
    requires Plain(s)
    ensures before + "\"" + s + "\"" == before + Print(Str(s))
  {
    PlainText(s);
    assert before + "\"" + s + "\"" == before + ("\"" + s + "\"");
  }

  lemma CloseObject(before: string, members: seq<Member>)
    ensures OpenObject(before, members) + "}" == before + Print(Object(members))
  {
    ClosePieces(before, "{", PrintMembers(members), "}");
  }

  lemma ClosePieces(before: string, open: string, inner: string, close: string)
    ensures before + open + inner + close == before + (open + inner + close)
  {
  }

  lemma OneField(before: string, key: string, j: Json)
    requires Plain(key)
    ensures before + "{" + Name(key) + Print(j) + "}" == before + Print(Object([Member(key, j)]))
  {
    FirstField(before, key, j);
    CloseObject(before, [Member(key, j)]);
  }

  // ---------------------------------------------------------------- arrays

  function OpenArray(before: string, items: seq<Json>): string {
    before + "[" + PrintItems(items)
  }

  lemma {:induction false} ItemsAppend(items: seq<Json>, j: Json)
    requires items != []
    ensures PrintItems(items + [j]) == PrintItems(items) + "," + Print(j)
  {
    var all := items + [j];
    assert all[0] == items[0] && all[1..] == items[1..] + [j];
    if |items| > 1 {
      ItemsAppend(items[1..], j);
      Associate(Print(items[0]) + ",", PrintItems(items[1..]), ",", Print(j));
    }
  }

  lemma NextItem(before: string, items: seq<Json>, j: Json)
    ensures OpenArray(before, items) + (if items == [] then "" else ",") + Print(j)
         == OpenArray(before, items + [j])
  {
    if items == [] {
      assert items + [j] == [j];
      assert before + "[" + "" + "" + Print(j) == before + "[" + Print(j);
    } else {
      ItemsAppend(items, j);
      Associate(before + "[", PrintItems(items), ",", Print(j));
    }
  }

  lemma CloseArray(before: string, items: seq<Json>)
    ensures OpenArray(before, items) + "]" == before + Print(Array(items))
  {
    ClosePieces(before, "[", PrintItems(items), "]");
  }

  lemma OneItem(before: string, j: Json)
    ensures before + "[" + Print(j) + "]" == before + Print(Array([j]))
  {
    CloseArray(before, [j]);
  }

  lemma EmptyArray(before: string)
    ensures OpenArray(before, []) == before + "["
  {
  }
}
