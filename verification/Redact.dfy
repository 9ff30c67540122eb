/** Credential redaction by pattern, in strings and in JSON values. */
module Redact {
  import opened Base
  import opened Json
  import opened Sse

  /**
   * A credential shape: one of some prefixes, white space if `gap`, then at least `min` characters of a
   * class (exactly `min` if `exact`), then any number of `=` if `padded`.
   */
  datatype Pattern = Pattern(prefixes: seq<string>, gap: bool, body: char -> bool, min: nat, exact: bool, padded: bool)

  predicate Digit(c: char) {
    '0' <= c <= '9'
  }

  predicate Upper(c: char) {
    'A' <= c <= 'Z'
  }

  predicate DigitOrUpper(c: char) {
    Digit(c) || Upper(c)
  }

  predicate AlphaNum(c: char) {
    Digit(c) || Upper(c) || 'a' <= c <= 'z'
  }

  predicate AlphaNumDash(c: char) {
    AlphaNum(c) || c == '_' || c == '-'
  }

  predicate TokenChar(c: char) {
    AlphaNumDash(c) || c == '.' || c == '~' || c == '+' || c == '/'
  }

  const PATTERNS: seq<Pattern> := [
    Pattern(["sk-ant-", "sk-or-", "sk-proj-", "sk-live-", "sk-test-", "sk-svcacct-"],
            false, AlphaNumDash, 8, false, false),
    Pattern(["sk-"], false, AlphaNum, 16, false, false),
    Pattern(["Bearer"], true, TokenChar, 8, false, true),
    Pattern(["AIza"], false, AlphaNumDash, 35, true, false),
    Pattern(["xai-"], false, AlphaNum, 16, false, false),
    Pattern(["gsk_"], false, AlphaNum, 20, false, false),
    Pattern(["AKIA"], false, DigitOrUpper, 16, true, false)
  ]

  const REDACTED := "<redacted>"
  const REDACTED_SECRET := "<redacted:secret>"

  /** How many leading characters are of a class. */
  function Leading(inside: char -> bool, t: string): (n: nat)
    ensures n <= |t|
  {
    if t == "" || !inside(t[0]) then 0 else 1 + Leading(inside, t[1..])
  }

  function PadLength(p: Pattern, t: string): (n: nat)
    ensures n <= |t|
  {
    if p.padded then Leading((c: char) => c == '=', t) else 0
  }

  /** The length of the match of what follows the prefix and the gap at the start of `t`. */
  function BodyLength(p: Pattern, t: string): (n: Option<nat>)
    ensures n.Some? ==> n.value <= |t|
  {
    var body := Leading(p.body, t);
    if body < p.min then None
    else
      var taken := if p.exact then p.min else body;
      Some(taken + PadLength(p, t[taken..]))
  }

  function GapLength(p: Pattern, t: string): (n: nat)
    ensures n <= |t|
  {
    if p.gap then Leading(IsSpace, t) else 0
  }

  /** The length of the match of what follows the prefix at the start of `t`. */
  function RestLength(p: Pattern, t: string): (n: Option<nat>)
    ensures n.Some? ==> n.value <= |t|
  {
    var gap := GapLength(p, t);
    var body := BodyLength(p, t[gap..]);
    if (p.gap && gap == 0) || body.None? then None else Some(gap + body.value)
  }

  /** The length of the match at the start of `t` by the first prefix that has one, 0 when there is none. */
  function LengthFrom(p: Pattern, prefixes: seq<string>, t: string): (n: nat)
    ensures n <= |t|
  {
    if prefixes == [] then 0
    else
      var rest := if prefixes[0] <= t then RestLength(p, t[|prefixes[0]|..]) else None;
      if rest.Some? then |prefixes[0]| + rest.value else LengthFrom(p, prefixes[1..], t)
  }

  function MatchAt(p: Pattern, t: string): (n: nat)
    ensures n <= |t|
  {
    LengthFrom(p, p.prefixes, t)
  }

  /** The leftmost match at or after `i`; `|s|` when there is none. */
  function FindMatch(p: Pattern, s: string, i: nat): (j: nat)
    requires i <= |s|
    ensures i <= j <= |s|
    decreases |s| - i
  {
    if i == |s| || MatchAt(p, s[i..]) > 0 then i else FindMatch(p, s, i + 1)
  }

  /** A text whose middle was replaced. */
  function Spliced(before: string, after: string): string {
    before + REDACTED_SECRET + after
  }

  /** `String.prototype.replace` with a global pattern. */
  function ReplaceAll(p: Pattern, s: string): string
    decreases |s|
  {
    var j := FindMatch(p, s, 0);
    var n := MatchAt(p, s[j..]);
    if j == |s| || n == 0 then s else Spliced(s[..j], ReplaceAll(p, s[j + n..]))
  }

  function ReplaceEach(patterns: seq<Pattern>, s: string): string {
    if patterns == [] then s
    else ReplaceAll(patterns[|patterns| - 1], ReplaceEach(patterns[..|patterns| - 1], s))
  }

  lemma EachNext(patterns: seq<Pattern>, i: nat, s: string)
    requires i < |patterns|
    ensures ReplaceEach(patterns[..i + 1], s) == ReplaceAll(patterns[i], ReplaceEach(patterns[..i], s))
  {
    assert patterns[..i + 1][..i] == patterns[..i];
  }

  /** `redactString`. */
  method RedactString(input: string) returns (out: string)
    ensures out == ReplaceEach(PATTERNS, input)
  {
    out := input;
    for i := 0 to |PATTERNS|
      invariant out == ReplaceEach(PATTERNS[..i], input)
    {
      EachNext(PATTERNS, i, input);
      out := ReplaceAll(PATTERNS[i], out);
    }
    assert PATTERNS[..|PATTERNS|] == PATTERNS;
  }

  ghost predicate Clear(p: Pattern, s: string) {
    forall i :: 0 <= i < |s| ==> MatchAt(p, s[i..]) == 0
  }

  lemma {:induction false} LeadingStops(inside: char -> bool, x: string, z: char, w: string)
    requires !inside(z)
    ensures Leading(inside, x + [z] + w) == Leading(inside, x)
    decreases x
  {
    if x != "" {
      assert (x + [z] + w)[1..] == x[1..] + [z] + w;
      LeadingStops(inside, x[1..], z, w);
    }
  }

  // ----- Matches do not cross a character no pattern uses -----

  ghost predicate Inert(p: Pattern, z: char) {
    !IsSpace(z) && !p.body(z) && z != '=' && forall pre :: pre in p.prefixes ==> z !in pre
  }

  lemma Dropped(x: string, z: char, w: string, n: nat)
    requires n <= |x|
    ensures (x + [z] + w)[n..] == x[n..] + [z] + w
  {
  }

  lemma BodyStops(p: Pattern, x: string, z: char, w: string)
    requires Inert(p, z)
    ensures BodyLength(p, x + [z] + w) == BodyLength(p, x)
  {
    LeadingStops(p.body, x, z, w);
    var body := Leading(p.body, x);
    if body >= p.min {
      var taken := if p.exact then p.min else body;
      Dropped(x, z, w, taken);
      LeadingStops((c: char) => c == '=', x[taken..], z, w);
    }
  }

  lemma RestStops(p: Pattern, x: string, z: char, w: string)
    requires Inert(p, z)
    ensures RestLength(p, x + [z] + w) == RestLength(p, x)
  {
    LeadingStops(IsSpace, x, z, w);
    var gap := GapLength(p, x);
    Dropped(x, z, w, gap);
    BodyStops(p, x[gap..], z, w);
  }

  lemma PrefixStops(pre: string, x: string, z: char, w: string)
    requires z !in pre
    ensures pre <= x + [z] + w <==> pre <= x
  {
    if |pre| > |x| {
      assert pre[|x|] != z && (x + [z] + w)[|x|] == z;
    }
  }

  lemma {:induction false} LengthStops(p: Pattern, prefixes: seq<string>, x: string, z: char, w: string)
    requires Inert(p, z) && forall pre :: pre in prefixes ==> z !in pre
    ensures LengthFrom(p, prefixes, x + [z] + w) == LengthFrom(p, prefixes, x)
    decreases prefixes
  {
    if prefixes != [] {
      var pre := prefixes[0];
      PrefixStops(pre, x, z, w);
      if pre <= x {
        Dropped(x, z, w, |pre|);
        RestStops(p, x[|pre|..], z, w);
      }
      LengthStops(p, prefixes[1..], x, z, w);
    }
  }

  lemma MatchStops(p: Pattern, x: string, z: char, w: string)
    requires Inert(p, z)
    ensures MatchAt(p, x + [z] + w) == MatchAt(p, x)
  {
    LengthStops(p, p.prefixes, x, z, w);
  }

  /** Text on either side of such a character matches by itself or not at all. */
  lemma ClearAround(p: Pattern, x: string, z: char, w: string)
    requires Inert(p, z) && Clear(p, x) && Clear(p, w) && MatchAt(p, "") == 0
    ensures Clear(p, x + [z] + w)
  {
    var t := x + [z] + w;
    forall i | 0 <= i < |t|
      ensures MatchAt(p, t[i..]) == 0
    {
      if i <= |x| {
        Dropped(x, z, w, i);
        MatchStops(p, x[i..], z, w);
        assert i == |x| ==> x[i..] == "";
      } else {
        assert t[i..] == w[i - |x| - 1..];
      }
    }
  }

  // ----- A match stays one when more text follows -----

  lemma {:induction false} LeadingExtends(inside: char -> bool, x: string, y: string)
    ensures Leading(inside, x) <= Leading(inside, x + y)
    ensures Leading(inside, x) < |x| ==> Leading(inside, x + y) == Leading(inside, x) && !inside(x[Leading(inside, x)])
    decreases x
  {
    if x != "" {
      assert (x + y)[1..] == x[1..] + y;
      LeadingExtends(inside, x[1..], y);
    }
  }

  /** Some text is required after the gap, and none of it is white space. */
  ghost predicate Solid(p: Pattern) {
    p.min > 0 && (forall c :: p.body(c) ==> !IsSpace(c)) && forall pre :: pre in p.prefixes ==> pre != ""
  }

  lemma BodyExtends(p: Pattern, x: string, y: string)
    requires BodyLength(p, x).Some?
    ensures BodyLength(p, x + y).Some?
  {
    LeadingExtends(p.body, x, y);
  }

  lemma RestExtends(p: Pattern, x: string, y: string)
    requires Solid(p) && RestLength(p, x).Some?
    ensures RestLength(p, x + y).Some? && RestLength(p, x + y).value > 0
  {
    var gap := GapLength(p, x);
    assert Leading(p.body, x[gap..]) > 0;
    LeadingExtends(IsSpace, x, y);
    assert (x + y)[gap..] == x[gap..] + y;
    BodyExtends(p, x[gap..], y);
  }

  lemma PrefixExtends(p: Pattern, pre: string, x: string, y: string)
    requires Solid(p) && pre <= x && RestLength(p, x[|pre|..]).Some?
    ensures pre <= x + y && RestLength(p, (x + y)[|pre|..]).Some? && RestLength(p, (x + y)[|pre|..]).value > 0
  {
    assert (x + y)[|pre|..] == x[|pre|..] + y;
    RestExtends(p, x[|pre|..], y);
  }

  lemma {:induction false} LengthExtends(p: Pattern, prefixes: seq<string>, x: string, y: string)
    requires Solid(p) && LengthFrom(p, prefixes, x) > 0
    ensures LengthFrom(p, prefixes, x + y) > 0
    decreases prefixes
  {
    var pre := prefixes[0];
    if pre <= x && RestLength(p, x[|pre|..]).Some? {
      PrefixExtends(p, pre, x, y);
    } else {
      LengthExtends(p, prefixes[1..], x, y);
    }
  }

  /** Part of clear text is clear. */
  lemma ClearSlice(p: Pattern, s: string, i: nat, j: nat)
    requires Solid(p) && Clear(p, s) && i <= j <= |s|
    ensures Clear(p, s[i..j])
  {
    forall k | 0 <= k < j - i
      ensures MatchAt(p, s[i..j][k..]) == 0
    {
      assert s[i + k..] == s[i..j][k..] + s[j..];
      if MatchAt(p, s[i..j][k..]) > 0 {
        LengthExtends(p, p.prefixes, s[i..j][k..], s[j..]);
      }
    }
  }

  /** Text before the leftmost match is clear. */
  lemma ClearBefore(p: Pattern, s: string, j: nat)
    requires Solid(p) && j <= |s| && forall k :: 0 <= k < j ==> MatchAt(p, s[k..]) == 0
    ensures Clear(p, s[..j])
  {
    forall k | 0 <= k < j
      ensures MatchAt(p, s[..j][k..]) == 0
    {
      assert s[k..] == s[..j][k..] + s[j..];
      if MatchAt(p, s[..j][k..]) > 0 {
        LengthExtends(p, p.prefixes, s[..j][k..], s[j..]);
      }
    }
  }

  lemma {:induction false} FindsLeftmost(p: Pattern, s: string, i: nat)
    requires i <= |s|
    ensures forall k :: i <= k < FindMatch(p, s, i) ==> MatchAt(p, s[k..]) == 0
    ensures FindMatch(p, s, i) < |s| ==> MatchAt(p, s[FindMatch(p, s, i)..]) > 0
    decreases |s| - i
  {
    if i < |s| && MatchAt(p, s[i..]) == 0 {
      FindsLeftmost(p, s, i + 1);
    }
  }

  // ----- The replacement is clear, and keeps its neighbours apart -----

  /** The replacement is of no pattern's making. */
  ghost predicate Shielded(p: Pattern) {
    && Solid(p) && Inert(p, '<') && Inert(p, ':') && Inert(p, '>')
    && Clear(p, "redacted") && Clear(p, "secret") && MatchAt(p, "") == 0
  }

  lemma ClearJoin(p: Pattern, a: string, b: string)
    requires Shielded(p) && Clear(p, a) && Clear(p, b)
    ensures Clear(p, Spliced(a, b))
  {
    ClearAround(p, a, '<', "redacted");
    ClearAround(p, a + ['<'] + "redacted", ':', "secret");
    ClearAround(p, a + ['<'] + "redacted" + [':'] + "secret", '>', b);
    assert Spliced(a, b) == a + ['<'] + "redacted" + [':'] + "secret" + ['>'] + b;
  }

  lemma {:induction false} ReplaceStep(p: Pattern, s: string, j: nat, n: nat, after: string)
    requires j < |s| && FindMatch(p, s, 0) == j && MatchAt(p, s[j..]) == n > 0 && after == ReplaceAll(p, s[j + n..])
    ensures ReplaceAll(p, s) == Spliced(s[..j], after)
  {
  }

  lemma {:induction false} ReplaceClears(p: Pattern, s: string)
    requires Shielded(p)
    ensures Clear(p, ReplaceAll(p, s))
    decreases |s|
  {
    var j := FindMatch(p, s, 0);
    FindsLeftmost(p, s, 0);
    if j < |s| {
      var n := MatchAt(p, s[j..]);
      var after := ReplaceAll(p, s[j + n..]);
      ClearBefore(p, s, j);
      ReplaceClears(p, s[j + n..]);
      ClearJoin(p, s[..j], after);
      ReplaceStep(p, s, j, n, after);
    } else {
      ClearBefore(p, s, j);
      assert s[..j] == s;
    }
  }

  lemma {:induction false} ReplaceKeeps(p: Pattern, q: Pattern, s: string)
    requires Shielded(q) && Clear(q, s)
    ensures Clear(q, ReplaceAll(p, s))
    decreases |s|
  {
    var j := FindMatch(p, s, 0);
    var n := MatchAt(p, s[j..]);
    if j < |s| && n > 0 {
      ClearSlice(q, s, 0, j);
      ClearSlice(q, s, j + n, |s|);
      assert s[j + n..|s|] == s[j + n..] && s[0..j] == s[..j];
      ReplaceKeeps(p, q, s[j + n..]);
      ClearJoin(q, s[..j], ReplaceAll(p, s[j + n..]));
    }
  }

  lemma ReplaceNothing(p: Pattern, s: string)
    requires Clear(p, s)
    ensures ReplaceAll(p, s) == s
  {
    FindsLeftmost(p, s, 0);
  }

  // ----- The seven patterns -----

  lemma {:induction false} NoPrefix(p: Pattern, prefixes: seq<string>, t: string)
    requires forall pre :: pre in prefixes ==> !(pre <= t)
    ensures LengthFrom(p, prefixes, t) == 0
    decreases prefixes
  {
    if prefixes != [] {
      assert prefixes[0] in prefixes;
      assert forall q :: q in prefixes[1..] ==> q in prefixes;
      NoPrefix(p, prefixes[1..], t);
    }
  }

  /** Two characters or more, all of them ordinary, that begin like neither part of the replacement. */
  predicate Foreign(pre: string) {
    && |pre| >= 2 && pre[0] !in "redact" && !(pre[0] == 's' && pre[1] == 'e')
    && forall c :: c in pre ==> AlphaNumDash(c)
  }

  lemma ForeignClear(p: Pattern, word: string)
    requires (forall pre :: pre in p.prefixes ==> Foreign(pre)) && word in ["redacted", "secret", ""]
    ensures Clear(p, word) && MatchAt(p, "") == 0
  {
    NoPrefix(p, p.prefixes, "");
    forall i | 0 <= i < |word|
      ensures MatchAt(p, word[i..]) == 0
    {
      forall pre | pre in p.prefixes
        ensures !(pre <= word[i..])
      {
        if i == 0 && word == "secret" {
          assert |word[i..]| >= 2 && word[i..][0] == 's' && word[i..][1] == 'e';
        } else {
          assert word[i..][0] == word[i] && word[i] in "redact";
        }
      }
      NoPrefix(p, p.prefixes, word[i..]);
    }
  }

  lemma ShieldedBy(p: Pattern)
    requires p.min > 0 && forall c :: p.body(c) ==> TokenChar(c)
    requires forall pre :: pre in p.prefixes ==> Foreign(pre)
    ensures Shielded(p)
  {
    ForeignClear(p, "redacted");
    ForeignClear(p, "secret");
  }

  lemma ForeignKeys()
    ensures forall pre :: pre in PATTERNS[0].prefixes ==> Foreign(pre)
  {
    assert Foreign("sk-ant-") && Foreign("sk-or-") && Foreign("sk-proj-") && Foreign("sk-live-") && Foreign("sk-test-");
    assert Foreign("sk-svcacct-");
  }

  lemma ForeignPrefixes(i: nat)
    requires i < |PATTERNS|
    ensures forall pre :: pre in PATTERNS[i].prefixes ==> Foreign(pre)
  {
    if i == 0 {
      ForeignKeys();
    } else {
      assert Foreign("sk-") && Foreign("Bearer") && Foreign("AIza") && Foreign("xai-") && Foreign("gsk_")
             && Foreign("AKIA");
    }
  }

  lemma AllShielded(i: nat)
    requires i < |PATTERNS|
    ensures Shielded(PATTERNS[i])
  {
    ForeignPrefixes(i);
    ShieldedBy(PATTERNS[i]);
  }

  // ----- What redaction guarantees -----

  /** No credential is left in a text. */
  ghost predicate Clean(s: string) {
    AllClear(PATTERNS, s)
  }

  ghost predicate AllClear(patterns: seq<Pattern>, s: string) {
    forall k :: 0 <= k < |patterns| ==> Clear(patterns[k], s)
  }

  ghost predicate AllShieldedIn(patterns: seq<Pattern>) {
    forall k :: 0 <= k < |patterns| ==> Shielded(patterns[k])
  }

  lemma ClearsOneMore(patterns: seq<Pattern>, last: Pattern, before: string)
    requires AllShieldedIn(patterns) && Shielded(last) && AllClear(patterns, before)
    ensures AllClear(patterns + [last], ReplaceAll(last, before))
  {
    ReplaceClears(last, before);
    forall k | 0 <= k < |patterns|
      ensures Clear(patterns[k], ReplaceAll(last, before))
    {
      ReplaceKeeps(last, patterns[k], before);
    }
  }

  /** Replacing shielded patterns in turn clears them all: a later one brings no earlier one back. */
  lemma {:induction false} EachClears(patterns: seq<Pattern>, s: string)
    requires AllShieldedIn(patterns)
    ensures AllClear(patterns, ReplaceEach(patterns, s))
    decreases patterns
  {
    if patterns != [] {
      var rest, last := patterns[..|patterns| - 1], patterns[|patterns| - 1];
      EachClears(rest, s);
      ClearsOneMore(rest, last, ReplaceEach(rest, s));
      assert patterns == rest + [last];
    }
  }

  /** The output of `redactString` holds no match of any of the patterns. */
  lemma RedactedIsClean(s: string)
    ensures Clean(ReplaceEach(PATTERNS, s))
  {
    forall k | 0 <= k < |PATTERNS|
      ensures Shielded(PATTERNS[k])
    {
      AllShielded(k);
    }
    EachClears(PATTERNS, s);
  }

  lemma {:induction false} EachNothing(patterns: seq<Pattern>, s: string)
    requires AllClear(patterns, s)
    ensures ReplaceEach(patterns, s) == s
    decreases patterns
  {
    if patterns != [] {
      var n := |patterns| - 1;
      assert forall k :: 0 <= k < n ==> patterns[..n][k] == patterns[k];
      EachNothing(patterns[..n], s);
      ReplaceNothing(patterns[n], s);
    }
  }

  /** Redaction changes a text exactly when there is a credential in it. */
  lemma RedactsOnlyCredentials(s: string)
    ensures ReplaceEach(PATTERNS, s) == s <==> Clean(s)
  {
    RedactedIsClean(s);
    if Clean(s) {
      EachNothing(PATTERNS, s);
    }
  }

  lemma RedactStringIdempotent(s: string)
    ensures ReplaceEach(PATTERNS, ReplaceEach(PATTERNS, s)) == ReplaceEach(PATTERNS, s)
  {
    RedactedIsClean(s);
    RedactsOnlyCredentials(ReplaceEach(PATTERNS, s));
  }

  // ----- Values -----

  /** `redactValue` under no key; `sensitive` says which keys hold what must be dropped. */
  function RedactValue(value: Json, sensitive: string -> bool): Json
    decreases value
  {
    match value
    case Str(s) => Str(ReplaceEach(PATTERNS, s))
    case Arr(items) => Arr(seq(|items|, i requires 0 <= i < |items| => RedactValue(items[i], sensitive)))
    case Obj(fields) =>
      Obj(map k | k in fields ::
            if fields[k] != Null && sensitive(k) then Str(REDACTED) else RedactValue(fields[k], sensitive))
    case _ => value
  }

  /** No string anywhere in a value holds a credential. The keys of objects are not looked at. */
  ghost predicate CleanValue(value: Json)
    decreases value
  {
    match value
    case Str(s) => Clean(s)
    case Arr(items) => forall i :: 0 <= i < |items| ==> CleanValue(items[i])
    case Obj(fields) => forall k :: k in fields ==> CleanValue(fields[k])
    case _ => true
  }

  lemma DropClear(p: Pattern)
    requires Shielded(p)
    ensures Clear(p, REDACTED)
  {
    ClearAround(p, "", '<', "redacted");
    ClearAround(p, "" + ['<'] + "redacted", '>', "");
    assert REDACTED == "" + ['<'] + "redacted" + ['>'] + "";
  }

  lemma RedactedClean()
    ensures Clean(REDACTED) && ReplaceEach(PATTERNS, REDACTED) == REDACTED
  {
    forall k | 0 <= k < |PATTERNS|
      ensures Clear(PATTERNS[k], REDACTED)
    {
      AllShielded(k);
      DropClear(PATTERNS[k]);
    }
    RedactsOnlyCredentials(REDACTED);
  }

  /** What one entry of an object becomes. */
  function RedactField(key: string, value: Json, sensitive: string -> bool): Json {
    if value != Null && sensitive(key) then Str(REDACTED) else RedactValue(value, sensitive)
  }

  /** Whatever a value holds, however deep, no string of its redaction holds a credential. */
  lemma {:induction false} RedactedValueIsClean(value: Json, sensitive: string -> bool)
    ensures CleanValue(RedactValue(value, sensitive))
    decreases value
  {
    match value {
      case Str(s) => RedactedIsClean(s);
      case Arr(items) =>
        forall i | 0 <= i < |items|
          ensures CleanValue(RedactValue(items[i], sensitive))
        {
          RedactedValueIsClean(items[i], sensitive);
        }
      case Obj(fields) =>
        forall k | k in fields
          ensures CleanValue(RedactValue(fields[k], sensitive))
        {
          RedactedValueIsClean(fields[k], sensitive);
        }
        FieldsClean(fields, sensitive);
      case _ =>
    }
  }

  lemma FieldsClean(fields: map<string, Json>, sensitive: string -> bool)
    requires forall k :: k in fields ==> CleanValue(RedactValue(fields[k], sensitive))
    ensures CleanValue(RedactValue(Obj(fields), sensitive))
  {
    var dropped := Str(REDACTED);
    assert CleanValue(dropped) by {
      RedactedClean();
    }
    forall k | k in fields
      ensures CleanValue(RedactField(k, fields[k], sensitive))
    {
    }
  }

  // ----- Keys -----

  /** No string and no key anywhere in a value holds a credential. */
  ghost predicate CleanThroughout(value: Json)
    decreases value
  {
    match value
    case Str(s) => Clean(s)
    case Arr(items) => forall i :: 0 <= i < |items| ==> CleanThroughout(items[i])
    case Obj(fields) => forall k :: k in fields ==> Clean(k) && CleanThroughout(fields[k])
    case _ => true
  }

  /** No key that redaction leaves standing holds a credential: those below a dropped entry do not count. */
  ghost predicate CleanKeys(value: Json, sensitive: string -> bool)
    decreases value
  {
    match value
    case Arr(items) => forall i :: 0 <= i < |items| ==> CleanKeys(items[i], sensitive)
    case Obj(fields) =>
      forall k :: k in fields ==> Clean(k) && ((fields[k] != Null && sensitive(k)) || CleanKeys(fields[k], sensitive))
    case _ => true
  }

  lemma ItemsThroughout(items: seq<Json>, sensitive: string -> bool)
    requires forall i :: 0 <= i < |items| ==>
               (CleanThroughout(RedactValue(items[i], sensitive)) <==> CleanKeys(items[i], sensitive))
    ensures CleanThroughout(RedactValue(Arr(items), sensitive)) <==> CleanKeys(Arr(items), sensitive)
  {
    var redacted := RedactValue(Arr(items), sensitive).items;
    assert |redacted| == |items| && forall i :: 0 <= i < |items| ==> redacted[i] == RedactValue(items[i], sensitive);
  }

  lemma FieldsThroughout(fields: map<string, Json>, sensitive: string -> bool)
    requires forall k :: k in fields ==>
               (CleanThroughout(RedactField(k, fields[k], sensitive)) <==>
                (fields[k] != Null && sensitive(k)) || CleanKeys(fields[k], sensitive))
    ensures CleanThroughout(RedactValue(Obj(fields), sensitive)) <==> CleanKeys(Obj(fields), sensitive)
  {
    var redacted := RedactValue(Obj(fields), sensitive).fields;
    assert redacted.Keys == fields.Keys;
    assert forall k :: k in fields ==> redacted[k] == RedactField(k, fields[k], sensitive);
  }

  /** A redacted value is free of credentials, keys and all, exactly when the keys left standing were. */
  lemma {:induction false} CleanThroughoutIffKeysClean(value: Json, sensitive: string -> bool)
    ensures CleanThroughout(RedactValue(value, sensitive)) <==> CleanKeys(value, sensitive)
    decreases value
  {
    match value {
      case Str(s) => RedactedIsClean(s);
      case Arr(items) =>
        forall i | 0 <= i < |items|
          ensures CleanThroughout(RedactValue(items[i], sensitive)) <==> CleanKeys(items[i], sensitive)
        {
          CleanThroughoutIffKeysClean(items[i], sensitive);
        }
        ItemsThroughout(items, sensitive);
      case Obj(fields) =>
        forall k | k in fields
          ensures CleanThroughout(RedactField(k, fields[k], sensitive)) <==>
                  (fields[k] != Null && sensitive(k)) || CleanKeys(fields[k], sensitive)
        {
          CleanThroughoutIffKeysClean(fields[k], sensitive);
          RedactedClean();
        }
        FieldsThroughout(fields, sensitive);
      case _ =>
    }
  }

  /** A key that is itself a credential. */
  const KEY_ID: string := "AKIA" + seq(16, _ => 'X')

  lemma {:induction false} LeadingAll(inside: char -> bool, t: string)
    requires forall c :: c in t ==> inside(c)
    ensures Leading(inside, t) == |t|
  {
    if t != "" {
      LeadingAll(inside, t[1..]);
    }
  }

  lemma ExactBody(p: Pattern, rest: string)
    requires !p.gap && p.exact && !p.padded && |rest| == p.min && forall c :: c in rest ==> p.body(c)
    ensures RestLength(p, rest) == Some(p.min)
  {
    LeadingAll(p.body, rest);
    assert rest[0..] == rest;
  }

  lemma OnePrefix(p: Pattern, pre: string, rest: string)
    requires p.prefixes == [pre] && pre != "" && RestLength(p, rest).Some?
    ensures pre + rest != "" && !Clear(p, pre + rest)
  {
    assert (pre + rest)[|pre|..] == rest;
    assert LengthFrom(p, [pre], pre + rest) == |pre| + RestLength(p, rest).value;
    assert (pre + rest)[0..] == pre + rest;
  }

  lemma KeyIdMatches()
    ensures !Clean(KEY_ID)
  {
    var p, rest := PATTERNS[6], seq(16, _ => 'X');
    assert p == Pattern(["AKIA"], false, DigitOrUpper, 16, true, false);
    ExactBody(p, rest);
    OnePrefix(p, "AKIA", rest);
  }

  /** A credential in a key is left where it is, whether or not its entry is dropped. */
  lemma KeysAreLeft(sensitive: string -> bool)
    ensures var value := Obj(map[KEY_ID := Num(1)]);
            CleanValue(RedactValue(value, sensitive)) && !CleanThroughout(RedactValue(value, sensitive))
  {
    var value := Obj(map[KEY_ID := Num(1)]);
    RedactedValueIsClean(value, sensitive);
    KeyIdMatches();
    assert KEY_ID in RedactValue(value, sensitive).fields;
  }

  lemma NullStaysNull(value: Json, sensitive: string -> bool)
    ensures RedactValue(value, sensitive) == Null <==> value == Null
  {
  }

  predicate Settled(value: Json, sensitive: string -> bool) {
    RedactValue(value, sensitive) == value
  }

  lemma ItemsSettle(items: seq<Json>, sensitive: string -> bool)
    requires forall i :: 0 <= i < |items| ==> Settled(items[i], sensitive)
    ensures Settled(Arr(items), sensitive)
  {
    assert RedactValue(Arr(items), sensitive).items == items;
  }

  lemma FieldsSettle(fields: map<string, Json>, sensitive: string -> bool)
    requires forall k :: k in fields ==> RedactField(k, fields[k], sensitive) == fields[k]
    ensures Settled(Obj(fields), sensitive)
  {
    assert RedactValue(Obj(fields), sensitive).fields == fields;
  }

  lemma FieldSettles(key: string, value: Json, sensitive: string -> bool)
    requires Settled(RedactValue(value, sensitive), sensitive)
    ensures var once := RedactField(key, value, sensitive);
            RedactField(key, once, sensitive) == once
  {
    RedactedClean();
    NullStaysNull(value, sensitive);
  }

  /** Redacting twice is redacting once, nested values and sensitive keys included. */
  lemma {:induction false} RedactValueIdempotent(value: Json, sensitive: string -> bool)
    ensures Settled(RedactValue(value, sensitive), sensitive)
    decreases value
  {
    match value {
      case Str(s) => RedactStringIdempotent(s);
      case Arr(items) =>
        forall i | 0 <= i < |items|
          ensures Settled(RedactValue(items[i], sensitive), sensitive)
        {
          RedactValueIdempotent(items[i], sensitive);
        }
        ItemsSettle(RedactValue(value, sensitive).items, sensitive);
      case Obj(fields) =>
        forall k | k in fields
          ensures var once := RedactField(k, fields[k], sensitive);
                  RedactField(k, once, sensitive) == once
        {
          RedactValueIdempotent(fields[k], sensitive);
          FieldSettles(k, fields[k], sensitive);
        }
        FieldsSettle(RedactValue(value, sensitive).fields, sensitive);
      case _ =>
    }
  }
}
