/** The request guard that measures JSON nesting on the raw text, and the nesting of the value the text denotes. */
module JsonDepth {
  import opened Base

  // ----- The scanner -----

  datatype Scan = Scan(depth: int, max: int, inString: bool, escaped: bool)

  const START := Scan(0, 0, false, false)

  function Max(a: int, b: int): int {
    if a >= b then a else b
  }

  function ScanChar(s: Scan, ch: char): Scan {
    if s.inString then
      if s.escaped then s.(escaped := false)
      else if ch == '\\' then s.(escaped := true)
      else if ch == '"' then s.(inString := false)
      else s
    else if ch == '"' then s.(inString := true)
    else if ch == '{' || ch == '[' then s.(depth := s.depth + 1, max := Max(s.depth + 1, s.max))
    else if ch == '}' || ch == ']' then s.(depth := s.depth - 1)
    else s
  }

  function ScanText(s: Scan, text: string): Scan
    decreases text
  {
    if text == "" then s else ScanText(ScanChar(s, text[0]), text[1..])
  }

  /** `jsonNestingDepth` as its loop runs. */
  method JsonNestingDepth(body: string) returns (deepest: int)
    ensures deepest == ScanText(START, body).max
  {
    var depth, inString, escaped := 0, false, false;
    deepest := 0;
    assert body[0..] == body;
    for i := 0 to |body|
      invariant ScanText(START, body) == ScanText(Scan(depth, deepest, inString, escaped), body[i..])
    {
      assert body[i..][1..] == body[i + 1..];
      var ch := body[i];
      if inString {
        if escaped {
          escaped := false;
        } else if ch == '\\' {
          escaped := true;
        } else if ch == '"' {
          inString := false;
        }
        continue;
      }
      if ch == '"' {
        inString := true;
      } else if ch == '{' || ch == '[' {
        depth := depth + 1;
        if depth > deepest {
          deepest := depth;
        }
      } else if ch == '}' || ch == ']' {
        depth := depth - 1;
      }
    }
    assert body[|body|..] == "";
  }

  // ----- JSON texts (RFC 8259, sections 2 to 7) -----

  /** A character of a string: itself, a two-character escape, or four hexadecimal digits. */
  datatype StringChar = Plain(c: char) | Escape(c: char) | Unicode(digits: string)

  /**
   * A JSON text with its layout: every run of white space is kept, a number or literal is its own token,
   * and an empty array or object may hold white space.
   */
  datatype Value =
    | Token(text: string)
    | Quoted(chars: seq<StringChar>)
    | Array(blank: string, items: Items)
    | Object(blank: string, members: Members)

  datatype Items = NoItems | Item(before: string, value: Value, after: string, rest: Items)

  datatype Members =
    | NoMembers
    | Member(before: string, key: seq<StringChar>, afterKey: string, beforeValue: string, value: Value, after: string,
             rest: Members)

  predicate White(s: string) {
    forall c :: c in s ==> c in " \t\n\r"
  }

  predicate TokenText(s: string) {
    s in ["true", "false", "null"] || (s != "" && forall c :: c in s ==> c in "-+.eE0123456789")
  }

  predicate CharFormed(c: StringChar) {
    match c
    case Plain(p) => p != '"' && p != '\\' && p >= ' '
    case Escape(e) => e in "\"\\/bfnrt"
    case Unicode(d) => |d| == 4 && forall h :: h in d ==> h in "0123456789abcdefABCDEF"
  }

  predicate CharsFormed(chars: seq<StringChar>) {
    forall c :: c in chars ==> CharFormed(c)
  }

  predicate Formed(v: Value) {
    match v
    case Token(text) => TokenText(text)
    case Quoted(chars) => CharsFormed(chars)
    case Array(blank, items) => White(blank) && ItemsFormed(items)
    case Object(blank, members) => White(blank) && MembersFormed(members)
  }

  predicate ItemsFormed(items: Items) {
    match items
    case NoItems => true
    case Item(before, value, after, rest) => White(before) && Formed(value) && White(after) && ItemsFormed(rest)
  }

  predicate MembersFormed(members: Members) {
    match members
    case NoMembers => true
    case Member(before, key, afterKey, beforeValue, value, after, rest) =>
      && White(before) && CharsFormed(key) && White(afterKey) && White(beforeValue)
      && Formed(value) && White(after) && MembersFormed(rest)
  }

  function CharText(c: StringChar): string {
    match c
    case Plain(p) => [p]
    case Escape(e) => ['\\', e]
    case Unicode(d) => "\\u" + d
  }

  function CharsText(chars: seq<StringChar>): string {
    if chars == [] then "" else CharText(chars[0]) + CharsText(chars[1..])
  }

  function QuotedText(chars: seq<StringChar>): string {
    "\"" + CharsText(chars) + "\""
  }

  function Text(v: Value): string {
    match v
    case Token(text) => text
    case Quoted(chars) => QuotedText(chars)
    case Array(blank, items) => "[" + (if items.NoItems? then blank else ItemsText(items)) + "]"
    case Object(blank, members) => "{" + (if members.NoMembers? then blank else MembersText(members)) + "}"
  }

  function ItemsText(items: Items): string {
    match items
    case NoItems => ""
    case Item(before, value, after, rest) =>
      before + Text(value) + after + (if rest.NoItems? then "" else "," + ItemsText(rest))
  }

  function MembersText(members: Members): string {
    match members
    case NoMembers => ""
    case Member(before, key, afterKey, beforeValue, value, after, rest) =>
      before + QuotedText(key) + afterKey + ":" + beforeValue + Text(value) + after
      + (if rest.NoMembers? then "" else "," + MembersText(rest))
  }

  /** How deep the arrays and objects of a value nest. */
  function Depth(v: Value): nat {
    match v
    case Token(_) => 0
    case Quoted(_) => 0
    case Array(_, items) => 1 + ItemsDepth(items)
    case Object(_, members) => 1 + MembersDepth(members)
  }

  function ItemsDepth(items: Items): nat {
    match items
    case NoItems => 0
    case Item(_, value, _, rest) => if Depth(value) >= ItemsDepth(rest) then Depth(value) else ItemsDepth(rest)
  }

  function MembersDepth(members: Members): nat {
    match members
    case NoMembers => 0
    case Member(_, _, _, _, value, _, rest) =>
      if Depth(value) >= MembersDepth(rest) then Depth(value) else MembersDepth(rest)
  }

  // ----- The scanner measures the value -----

  lemma {:induction false} ScanAppend(s: Scan, a: string, b: string)
    ensures ScanText(s, a + b) == ScanText(ScanText(s, a), b)
    decreases a
  {
    if a == "" {
      assert a + b == b;
    } else {
      assert (a + b)[1..] == a[1..] + b;
      ScanAppend(ScanChar(s, a[0]), a[1..], b);
    }
  }

  /** Outside strings, only quotes and brackets matter. */
  predicate Inert(s: string) {
    forall c :: c in s ==> c !in "\"{}[]"
  }

  lemma {:induction false} ScanInert(s: Scan, text: string)
    requires !s.inString && Inert(text)
    ensures ScanText(s, text) == s
    decreases text
  {
    if text != "" {
      assert text[0] in text;
      ScanInert(s, text[1..]);
    }
  }

  /** Between tokens, no deeper than the deepest so far. */
  predicate Steady(s: Scan) {
    !s.inString && !s.escaped && s.depth <= s.max
  }

  /** After something of this depth was read from here. */
  function Deeper(s: Scan, depth: nat): Scan {
    s.(max := Max(s.max, s.depth + depth))
  }

  lemma ScanOne(s: Scan, c: char)
    ensures ScanText(s, [c]) == ScanChar(s, c)
  {
  }

  lemma {:induction false} ScanDigits(s: Scan, digits: string)
    requires s.inString && !s.escaped && forall h :: h in digits ==> h in "0123456789abcdefABCDEF"
    ensures ScanText(s, digits) == s
    decreases digits
  {
    if digits != "" {
      assert digits[0] in digits;
      ScanDigits(s, digits[1..]);
    }
  }

  /** No character of a string, however it is written, ends it. */
  lemma CharScans(s: Scan, c: StringChar)
    requires s.inString && !s.escaped && CharFormed(c)
    ensures ScanText(s, CharText(c)) == s
  {
    match c {
      case Plain(p) => ScanOne(s, p);
      case Escape(e) =>
        ScanAppend(s, ['\\'], [e]);
        ScanOne(s, '\\');
        ScanOne(s.(escaped := true), e);
        assert ['\\', e] == ['\\'] + [e];
      case Unicode(d) =>
        ScanAppend(s, "\\u", d);
        ScanAppend(s, ['\\'], ['u']);
        ScanOne(s, '\\');
        ScanOne(s.(escaped := true), 'u');
        assert "\\u" == ['\\'] + ['u'];
        ScanDigits(s, d);
    }
  }

  lemma {:induction false} CharsScan(s: Scan, chars: seq<StringChar>)
    requires s.inString && !s.escaped && CharsFormed(chars)
    ensures ScanText(s, CharsText(chars)) == s
    decreases chars
  {
    if chars != [] {
      assert chars[0] in chars;
      CharScans(s, chars[0]);
      ScanAppend(s, CharText(chars[0]), CharsText(chars[1..]));
      CharsScan(s, chars[1..]);
    }
  }

  lemma QuotedScans(s: Scan, chars: seq<StringChar>)
    requires Steady(s) && CharsFormed(chars)
    ensures ScanText(s, QuotedText(chars)) == s
  {
    ScanAppend(s, "\"" + CharsText(chars), "\"");
    ScanAppend(s, "\"", CharsText(chars));
    ScanOne(s, '"');
    CharsScan(s.(inString := true), chars);
    ScanOne(s.(inString := true), '"');
  }

  /** An opening bracket, an inside of some depth, a closing bracket. */
  lemma BracketScans(s: Scan, open: char, close: char, inside: string, depth: nat)
    requires Steady(s) && open in "{[" && close in "}]"
    requires var entered := Deeper(s, 1).(depth := s.depth + 1);
             ScanText(entered, inside) == Deeper(entered, depth)
    ensures ScanText(s, [open] + inside + [close]) == Deeper(s, 1 + depth)
  {
    ScanAppend(s, [open] + inside, [close]);
    ScanAppend(s, [open], inside);
    ScanOne(s, open);
    ScanOne(Deeper(Deeper(s, 1).(depth := s.depth + 1), depth), close);
  }

  lemma TokenInert(text: string)
    requires TokenText(text)
    ensures Inert(text)
  {
    assert Inert("true") && Inert("false") && Inert("null");
  }

  /** The scanner passes a value leaving its depth in the maximum and everything else as it was. */
  lemma {:induction false} ValueScans(s: Scan, v: Value)
    requires Steady(s) && Formed(v)
    ensures ScanText(s, Text(v)) == Deeper(s, Depth(v))
    decreases v, 0
  {
    match v {
      case Token(text) =>
        TokenInert(text);
        ScanInert(s, text);
      case Quoted(chars) => QuotedScans(s, chars);
      case Array(blank, items) => ArrayScans(s, blank, items);
      case Object(blank, members) => ObjectScans(s, blank, members);
    }
  }

  lemma {:induction false} ArrayScans(s: Scan, blank: string, items: Items)
    requires Steady(s) && White(blank) && ItemsFormed(items)
    ensures ScanText(s, "[" + (if items.NoItems? then blank else ItemsText(items)) + "]") ==
            Deeper(s, 1 + ItemsDepth(items))
    decreases items, 1
  {
    var entered := Deeper(s, 1).(depth := s.depth + 1);
    if items.NoItems? {
      ScanInert(entered, blank);
    } else {
      ItemsScan(entered, items);
    }
    BracketScans(s, '[', ']', if items.NoItems? then blank else ItemsText(items), ItemsDepth(items));
  }

  lemma {:induction false} ObjectScans(s: Scan, blank: string, members: Members)
    requires Steady(s) && White(blank) && MembersFormed(members)
    ensures ScanText(s, "{" + (if members.NoMembers? then blank else MembersText(members)) + "}") ==
            Deeper(s, 1 + MembersDepth(members))
    decreases members, 1
  {
    var entered := Deeper(s, 1).(depth := s.depth + 1);
    if members.NoMembers? {
      ScanInert(entered, blank);
    } else {
      MembersScan(entered, members);
    }
    BracketScans(s, '{', '}', if members.NoMembers? then blank else MembersText(members), MembersDepth(members));
  }

  /** A value between white space. */
  lemma {:induction false} PaddedScans(s: Scan, before: string, v: Value, after: string)
    requires Steady(s) && White(before) && Formed(v) && White(after)
    ensures ScanText(s, before + Text(v) + after) == Deeper(s, Depth(v))
    decreases v, 1
  {
    ScanAppend(s, before + Text(v), after);
    ScanAppend(s, before, Text(v));
    ScanInert(s, before);
    ValueScans(s, v);
    ScanInert(Deeper(s, Depth(v)), after);
  }

  lemma {:induction false} ItemsScan(s: Scan, items: Items)
    requires Steady(s) && ItemsFormed(items)
    ensures ScanText(s, ItemsText(items)) == Deeper(s, ItemsDepth(items))
    decreases items, 0
  {
    match items {
      case NoItems =>
      case Item(before, value, after, rest) =>
        PaddedScans(s, before, value, after);
        var read := Deeper(s, Depth(value));
        if rest.NoItems? {
          assert before + Text(value) + after + "" == before + Text(value) + after;
        } else {
          ScanAppend(s, before + Text(value) + after, "," + ItemsText(rest));
          ScanAppend(read, ",", ItemsText(rest));
          ScanOne(read, ',');
          ItemsScan(read, rest);
        }
    }
  }

  lemma {:induction false} MembersScan(s: Scan, members: Members)
    requires Steady(s) && MembersFormed(members)
    ensures ScanText(s, MembersText(members)) == Deeper(s, MembersDepth(members))
    decreases members, 0
  {
    match members {
      case NoMembers =>
      case Member(before, key, afterKey, beforeValue, value, after, rest) =>
        var name := before + QuotedText(key) + afterKey + ":";
        NameScans(s, before, key, afterKey);
        PaddedScans(s, beforeValue, value, after);
        ScanAppend(s, name, beforeValue + Text(value) + after);
        assert name + (beforeValue + Text(value) + after) == name + beforeValue + Text(value) + after;
        var read := Deeper(s, Depth(value));
        if rest.NoMembers? {
          assert name + beforeValue + Text(value) + after + "" == name + beforeValue + Text(value) + after;
        } else {
          ScanAppend(s, name + beforeValue + Text(value) + after, "," + MembersText(rest));
          ScanAppend(read, ",", MembersText(rest));
          ScanOne(read, ',');
          MembersScan(read, rest);
        }
    }
  }

  /** A member's name, up to its colon. */
  lemma NameScans(s: Scan, before: string, key: seq<StringChar>, afterKey: string)
    requires Steady(s) && White(before) && CharsFormed(key) && White(afterKey)
    ensures ScanText(s, before + QuotedText(key) + afterKey + ":") == s
  {
    ScanAppend(s, before + QuotedText(key) + afterKey, ":");
    ScanAppend(s, before + QuotedText(key), afterKey);
    ScanAppend(s, before, QuotedText(key));
    ScanInert(s, before);
    QuotedScans(s, key);
    ScanInert(s, afterKey);
    ScanOne(s, ':');
  }

  /** For every well-formed JSON text, `jsonNestingDepth` is the nesting depth of the value it denotes. */
  lemma DepthMeasured(before: string, v: Value, after: string)
    requires White(before) && Formed(v) && White(after)
    ensures ScanText(START, before + Text(v) + after).max == Depth(v)
  {
    PaddedScans(START, before, v, after);
  }
}
