/**
 * What the redactor takes for a credential, character by character: the seven shapes, that a text is clean
 * exactly when it holds none of them, and that a credential is replaced whole.
 */
module RedactShapes {
  import opened Base
  import opened Json
  import opened Sse
  import opened Redact

  const DIGITS := "0123456789"
  const UPPER := "ABCDEFGHIJKLMNOPQRSTUVWXYZ"
  const LOWER := "abcdefghijklmnopqrstuvwxyz"

  /** The character classes of the patterns, spelled out. */
  lemma ClassesAre(c: char)
    ensures DigitOrUpper(c) <==> c in DIGITS || c in UPPER
    ensures AlphaNum(c) <==> c in DIGITS || c in UPPER || c in LOWER
    ensures AlphaNumDash(c) <==> c in DIGITS || c in UPPER || c in LOWER || c == '_' || c == '-'
    ensures TokenChar(c) <==> c in DIGITS || c in UPPER || c in LOWER || c in "._~+/-"
  {
    DigitsAre(c);
    UpperAre(c);
    LowerAre(c);
  }

  lemma DigitsAre(c: char)
    ensures c in DIGITS <==> '0' <= c <= '9'
  {
    if '0' <= c <= '9' {
      assert DIGITS[(c - '0') as int] == c;
    }
  }

  lemma UpperAre(c: char)
    ensures c in UPPER <==> 'A' <= c <= 'Z'
  {
    if 'A' <= c <= 'Z' {
      assert UPPER[(c - 'A') as int] == c;
    }
  }

  lemma LowerAre(c: char)
    ensures c in LOWER <==> 'a' <= c <= 'z'
  {
    if 'a' <= c <= 'z' {
      assert LOWER[(c - 'a') as int] == c;
    }
  }

  // ----- The shapes -----

  predicate All(inside: char -> bool, t: string, i: nat, j: nat)
    requires i <= j <= |t|
  {
    forall k :: i <= k < j ==> inside(t[k])
  }

  /** A prefix and at least so many characters of a class. */
  predicate Key(t: string, pre: string, inside: char -> bool, min: nat) {
    pre <= t && |t| >= |pre| + min && All(inside, t, |pre|, |t|)
  }

  /** A bearer token: white space and at least eight characters after the word. */
  predicate Token(t: string, gap: nat) {
    "Bearer" <= t && gap >= 1 && |t| >= 6 + gap + 8 && All(IsSpace, t, 6, 6 + gap) && All(TokenChar, t, 6 + gap, |t|)
  }

  /** The seven shapes of a credential. */
  predicate Credential(t: string) {
    || Key(t, "sk-ant-", AlphaNumDash, 8) || Key(t, "sk-or-", AlphaNumDash, 8) || Key(t, "sk-proj-", AlphaNumDash, 8)
    || Key(t, "sk-live-", AlphaNumDash, 8) || Key(t, "sk-test-", AlphaNumDash, 8)
    || Key(t, "sk-svcacct-", AlphaNumDash, 8)
    || Key(t, "sk-", AlphaNum, 16)
    || (exists gap: nat :: gap <= |t| && Token(t, gap))
    || Key(t, "AIza", AlphaNumDash, 35)
    || Key(t, "xai-", AlphaNum, 16)
    || Key(t, "gsk_", AlphaNum, 20)
    || Key(t, "AKIA", DigitOrUpper, 16)
  }

  lemma {:induction false} LeadingHolds(inside: char -> bool, t: string)
    ensures All(inside, t, 0, Leading(inside, t))
    ensures Leading(inside, t) < |t| ==> !inside(t[Leading(inside, t)])
  {
    if t != "" && inside(t[0]) {
      LeadingHolds(inside, t[1..]);
      var n := Leading(inside, t[1..]);
      assert forall k :: 1 <= k < n + 1 ==> t[k] == t[1..][k - 1];
    }
  }

  lemma LeadingAtLeast(inside: char -> bool, t: string, n: nat)
    requires n <= |t| && All(inside, t, 0, n)
    ensures Leading(inside, t) >= n
    ensures n < |t| && !inside(t[n]) ==> Leading(inside, t) == n
    ensures n == |t| ==> Leading(inside, t) == n
  {
    LeadingHolds(inside, t);
  }

  /** A prefix, a gap where the pattern has one, and as many characters of the class as it asks for. */
  predicate Found(p: Pattern, pre: string, gap: nat, t: string) {
    pre <= t && |t| >= |pre| + gap + p.min && (if p.gap then gap >= 1 else gap == 0)
    && All(IsSpace, t, |pre|, |pre| + gap) && All(p.body, t, |pre| + gap, |pre| + gap + p.min)
  }

  lemma AllSlice(inside: char -> bool, t: string, from: nat, i: nat, j: nat)
    requires from + i <= from + j <= |t|
    ensures All(inside, t[from..], i, j) <==> All(inside, t, from + i, from + j)
  {
    var rest := t[from..];
    assert forall k :: i <= k < j ==> rest[k] == t[from + k];
    assert forall k :: from + i <= k < from + j ==> rest[k - from] == t[k];
  }

  /** What follows a prefix matches exactly when a gap and a body are found there. */
  lemma RestFound(p: Pattern, pre: string, t: string) returns (gap: nat)
    requires Solid(p) && pre <= t && RestLength(p, t[|pre|..]).Some?
    ensures Found(p, pre, gap, t)
  {
    var rest := t[|pre|..];
    gap := GapLength(p, rest);
    LeadingHolds(IsSpace, rest);
    LeadingHolds(p.body, rest[gap..]);
    AllSlice(IsSpace, t, |pre|, 0, gap);
    assert rest[gap..] == t[|pre| + gap..];
    AllSlice(p.body, t, |pre| + gap, 0, p.min);
  }

  lemma FoundRest(p: Pattern, pre: string, gap: nat, t: string)
    requires Solid(p) && Found(p, pre, gap, t)
    ensures RestLength(p, t[|pre|..]).Some?
  {
    var rest := t[|pre|..];
    AllSlice(IsSpace, t, |pre|, 0, gap);
    assert rest[gap] == t[|pre| + gap] && p.body(t[|pre| + gap]);
    LeadingAtLeast(IsSpace, rest, gap);
    assert GapLength(p, rest) == gap;
    assert rest[gap..] == t[|pre| + gap..];
    AllSlice(p.body, t, |pre| + gap, 0, p.min);
    LeadingAtLeast(p.body, rest[gap..], p.min);
  }

  lemma {:induction false} MatchFound(p: Pattern, prefixes: seq<string>, t: string) returns (pre: string, gap: nat)
    requires Solid(p) && LengthFrom(p, prefixes, t) > 0
    ensures pre in prefixes && Found(p, pre, gap, t)
    decreases prefixes
  {
    if prefixes[0] <= t && RestLength(p, t[|prefixes[0]|..]).Some? {
      pre := prefixes[0];
      gap := RestFound(p, pre, t);
    } else {
      pre, gap := MatchFound(p, prefixes[1..], t);
    }
  }

  lemma {:induction false} FoundMatches(p: Pattern, prefixes: seq<string>, pre: string, gap: nat, t: string)
    requires Solid(p) && pre in prefixes && Found(p, pre, gap, t) && forall q :: q in prefixes ==> q != ""
    ensures LengthFrom(p, prefixes, t) > 0
    decreases prefixes
  {
    if prefixes[0] == pre {
      FoundRest(p, pre, gap, t);
    } else {
      assert prefixes == [prefixes[0]] + prefixes[1..];
      assert forall q :: q in prefixes[1..] ==> q in prefixes;
      FoundMatches(p, prefixes[1..], pre, gap, t);
    }
  }

  // ----- Clean means: no credential anywhere -----

  /** Whatever a pattern finds is a credential. */
  lemma FoundIsCredential(k: nat, pre: string, gap: nat, t: string) returns (j: nat)
    requires k < |PATTERNS| && pre in PATTERNS[k].prefixes && Found(PATTERNS[k], pre, gap, t)
    ensures j <= |t| && Credential(t[..j])
  {
    var p := PATTERNS[k];
    j := |pre| + gap + p.min;
    var found := t[..j];
    assert pre <= found && All(p.body, found, |pre| + gap, j) && All(IsSpace, found, |pre|, |pre| + gap);
    if k == 2 {
      assert pre == "Bearer" && Token(found, gap);
    } else {
      assert Key(found, pre, p.body, p.min);
    }
  }

  lemma KeyFound(p: Pattern, t: string, pre: string)
    requires Solid(p) && pre in p.prefixes && !p.gap && Key(t, pre, p.body, p.min)
    ensures MatchAt(p, t) > 0
  {
    FoundMatches(p, p.prefixes, pre, 0, t);
  }

  lemma TokenFound(t: string, gap: nat)
    requires Token(t, gap) && Solid(PATTERNS[2])
    ensures MatchAt(PATTERNS[2], t) > 0
  {
    FoundMatches(PATTERNS[2], PATTERNS[2].prefixes, "Bearer", gap, t);
  }

  lemma PatternSolid(k: nat)
    requires k < |PATTERNS|
    ensures Solid(PATTERNS[k])
  {
    AllShielded(k);
  }

  /** Every credential is found by some pattern. */
  lemma CredentialIsFound(t: string) returns (k: nat)
    requires Credential(t)
    ensures k < |PATTERNS| && MatchAt(PATTERNS[k], t) > 0
  {
    if gap: nat :| gap <= |t| && Token(t, gap) {
      k := 2;
      PatternSolid(2);
      TokenFound(t, gap);
    } else if Key(t, "sk-", AlphaNum, 16) {
      k := 1;
      PatternSolid(1);
      KeyFound(PATTERNS[1], t, "sk-");
    } else {
      k := OtherKeyFound(t);
    }
  }

  lemma OtherKeyFound(t: string) returns (k: nat)
    requires Credential(t) && !Key(t, "sk-", AlphaNum, 16) && forall gap: nat :: gap <= |t| ==> !Token(t, gap)
    ensures k < |PATTERNS| && MatchAt(PATTERNS[k], t) > 0
  {
    k := if Key(t, "AIza", AlphaNumDash, 35) then 3 else if Key(t, "xai-", AlphaNum, 16) then 4
         else if Key(t, "gsk_", AlphaNum, 20) then 5 else if Key(t, "AKIA", DigitOrUpper, 16) then 6 else 0;
    PatternSolid(k);
    if k == 0 {
      DashedKeyFound(t);
    } else {
      KeyFound(PATTERNS[k], t, if k == 3 then "AIza" else if k == 4 then "xai-" else if k == 5 then "gsk_" else "AKIA");
    }
  }

  lemma DashedKeyFound(t: string)
    requires Solid(PATTERNS[0])
    requires || Key(t, "sk-ant-", AlphaNumDash, 8) || Key(t, "sk-or-", AlphaNumDash, 8)
             || Key(t, "sk-proj-", AlphaNumDash, 8) || Key(t, "sk-live-", AlphaNumDash, 8)
             || Key(t, "sk-test-", AlphaNumDash, 8) || Key(t, "sk-svcacct-", AlphaNumDash, 8)
    ensures MatchAt(PATTERNS[0], t) > 0
  {
    var pre := if Key(t, "sk-ant-", AlphaNumDash, 8) then "sk-ant-"
               else if Key(t, "sk-or-", AlphaNumDash, 8) then "sk-or-"
               else if Key(t, "sk-proj-", AlphaNumDash, 8) then "sk-proj-"
               else if Key(t, "sk-live-", AlphaNumDash, 8) then "sk-live-"
               else if Key(t, "sk-test-", AlphaNumDash, 8) then "sk-test-" else "sk-svcacct-";
    KeyFound(PATTERNS[0], t, pre);
  }

  /** A text is clean exactly when no part of it is a credential. */
  lemma CleanIs(s: string)
    ensures Clean(s) <==> forall i, j :: 0 <= i <= j <= |s| ==> !Credential(s[i..j])
  {
    if Clean(s) {
      forall i, j | 0 <= i <= j <= |s|
        ensures !Credential(s[i..j])
      {
        if Credential(s[i..j]) {
          NotClean(s, i, j);
        }
      }
    }
    if !Clean(s) {
      var i, j := HoldsCredential(s);
    }
  }

  lemma NotClean(s: string, i: nat, j: nat)
    requires i <= j <= |s| && Credential(s[i..j])
    ensures !Clean(s)
  {
    var k := CredentialIsFound(s[i..j]);
    PatternSolid(k);
    LengthExtends(PATTERNS[k], PATTERNS[k].prefixes, s[i..j], s[j..]);
    assert s[i..] == s[i..j] + s[j..];
    assert i < |s|;
    assert !Clear(PATTERNS[k], s);
  }

  lemma HoldsCredential(s: string) returns (i: nat, j: nat)
    requires !Clean(s)
    ensures i <= j <= |s| && Credential(s[i..j])
  {
    var k :| 0 <= k < |PATTERNS| && !Clear(PATTERNS[k], s);
    i :| 0 <= i < |s| && MatchAt(PATTERNS[k], s[i..]) != 0;
    PatternSolid(k);
    var pre, gap := MatchFound(PATTERNS[k], PATTERNS[k].prefixes, s[i..]);
    var n := FoundIsCredential(k, pre, gap, s[i..]);
    j := i + n;
    assert s[i..][..n] == s[i..j];
  }

  // ----- A credential is replaced whole -----

  /** Where a match ends: after every further character of the class, unless the length is fixed. */
  ghost predicate EndsAt(p: Pattern, pre: string, gap: nat, t: string, end: nat) {
    && |pre| + gap + p.min <= end <= |t| && All(p.body, t, |pre| + gap, end)
    && if p.exact then end == |pre| + gap + p.min else end < |t| ==> !p.body(t[end])
  }

  lemma BodyRuns(p: Pattern, t: string, from: nat, end: nat)
    requires p.min > 0 && from + p.min <= end <= |t| && All(p.body, t, from, end)
    requires if p.exact then end == from + p.min else end < |t| ==> !p.body(t[end])
    ensures Leading(p.body, t[from..]) >= p.min
    ensures !p.exact ==> Leading(p.body, t[from..]) == end - from
  {
    AllSlice(p.body, t, from, 0, end - from);
    assert end < |t| ==> t[from..][end - from] == t[end];
    LeadingAtLeast(p.body, t[from..], end - from);
  }

  lemma {:induction false} RestIs(p: Pattern, t: string, gap: nat, body: string, n: nat)
    requires gap <= |t| && body == t[gap..] && GapLength(p, t) == gap && (p.gap ==> gap > 0)
    requires Leading(p.body, body) == n >= p.min
    ensures var taken := if p.exact then p.min else n;
            RestLength(p, t) == Some(gap + taken + PadLength(p, body[taken..]))
  {
  }

  lemma {:induction false} WholeRest(p: Pattern, pre: string, gap: nat, t: string, end: nat)
    requires Solid(p) && !p.padded && Found(p, pre, gap, t) && EndsAt(p, pre, gap, t, end)
    ensures RestLength(p, t[|pre|..]) == Some(end - |pre|)
  {
    GapIs(p, pre, gap, t);
    BodyRuns(p, t, |pre| + gap, end);
    WholeRestIs(p, t[|pre|..], gap, t[|pre| + gap..], end - |pre| - gap);
  }

  lemma {:induction false} WholeRestIs(p: Pattern, rest: string, gap: nat, body: string, taken: nat)
    requires !p.padded && gap <= |rest| && rest[gap..] == body && GapLength(p, rest) == gap && (p.gap ==> gap > 0)
    requires Leading(p.body, body) >= p.min
    requires taken == if p.exact then p.min else Leading(p.body, body)
    ensures RestLength(p, rest) == Some(gap + taken)
  {
    RestIs(p, rest, gap, body, Leading(p.body, body));
  }

  lemma GapIs(p: Pattern, pre: string, gap: nat, t: string)
    requires Solid(p) && Found(p, pre, gap, t)
    ensures GapLength(p, t[|pre|..]) == gap
  {
    var rest := t[|pre|..];
    AllSlice(IsSpace, t, |pre|, 0, gap);
    assert rest[gap] == t[|pre| + gap] && p.body(t[|pre| + gap]);
    LeadingAtLeast(IsSpace, rest, gap);
  }

  lemma {:induction false} OnlyPrefix(p: Pattern, prefixes: seq<string>, pre: string, t: string)
    requires pre in prefixes && pre <= t && RestLength(p, t[|pre|..]).Some?
    requires forall q :: q in prefixes && q <= t ==> q == pre
    ensures LengthFrom(p, prefixes, t) == |pre| + RestLength(p, t[|pre|..]).value
    decreases prefixes
  {
    if prefixes[0] != pre {
      assert prefixes[0] in prefixes;
      assert !(prefixes[0] <= t) && prefixes == [prefixes[0]] + prefixes[1..];
      assert forall q :: q in prefixes[1..] ==> q in prefixes;
      OnlyPrefix(p, prefixes[1..], pre, t);
    }
  }

  lemma {:induction false} FirstMatch(p: Pattern, s: string, i: nat, j: nat)
    requires i <= j < |s| && MatchAt(p, s[j..]) > 0 && forall k :: i <= k < j ==> MatchAt(p, s[k..]) == 0
    ensures FindMatch(p, s, i) == j
    decreases j - i
  {
    if i < j {
      FirstMatch(p, s, i + 1, j);
    }
  }

  /**
   * The first match of a pattern is replaced from its prefix to the last character it can take, and the text
   * after it is searched on. The bearer pattern, which may end in padding, is not among these.
   */
  lemma ReplacedWhole(k: nat, pre: string, before: string, t: string, end: nat)
    requires k < |PATTERNS| && k != 2 && pre in PATTERNS[k].prefixes
    requires Found(PATTERNS[k], pre, 0, t) && EndsAt(PATTERNS[k], pre, 0, t, end)
    requires forall i :: 0 <= i < |before| ==> MatchAt(PATTERNS[k], (before + t)[i..]) == 0
    ensures ReplaceAll(PATTERNS[k], before + t) == before + "<redacted:secret>" + ReplaceAll(PATTERNS[k], t[end..])
  {
    PatternSolid(k);
    OneFits(k, pre, t);
    WholeMatch(PATTERNS[k], pre, t, end);
    ReplaceFirst(PATTERNS[k], before, t, end);
  }

  lemma WholeMatch(p: Pattern, pre: string, t: string, end: nat)
    requires Solid(p) && !p.padded && pre in p.prefixes && Found(p, pre, 0, t) && EndsAt(p, pre, 0, t, end)
    requires forall q :: q in p.prefixes && q <= t ==> q == pre
    ensures MatchAt(p, t) == end
  {
    WholeRest(p, pre, 0, t, end);
    OnlyPrefix(p, p.prefixes, pre, t);
  }

  lemma {:induction false} ReplaceFirst(p: Pattern, before: string, t: string, n: nat)
    requires n > 0 && MatchAt(p, t) == n
    requires forall i :: 0 <= i < |before| ==> MatchAt(p, (before + t)[i..]) == 0
    ensures ReplaceAll(p, before + t) == before + "<redacted:secret>" + ReplaceAll(p, t[n..])
  {
    var s, j := before + t, |before|;
    assert s[j..] == t && s[..j] == before && s[j + n..] == t[n..];
    FirstMatch(p, s, 0, j);
    ReplaceStep(p, s, j, n, ReplaceAll(p, t[n..]));
  }

  /** No two prefixes of a pattern fit one text. */
  lemma OneFits(k: nat, pre: string, t: string)
    requires k < |PATTERNS| && pre in PATTERNS[k].prefixes && pre <= t
    ensures forall q :: q in PATTERNS[k].prefixes && q <= t ==> q == pre
  {
    if k == 0 {
      assert forall q :: q in PATTERNS[0].prefixes ==> |q| > 3;
      forall q | q in PATTERNS[0].prefixes && q <= t
        ensures q == pre
      {
        assert q[3] == t[3] == pre[3];
        FourthTells(q, pre);
      }
    }
  }

  lemma FourthTells(a: string, b: string)
    requires a in PATTERNS[0].prefixes && b in PATTERNS[0].prefixes && |a| > 3 && |b| > 3 && a[3] == b[3]
    ensures a == b
  {
    assert "sk-ant-"[3] == 'a' && "sk-or-"[3] == 'o' && "sk-proj-"[3] == 'p' && "sk-live-"[3] == 'l';
    assert "sk-test-"[3] == 't' && "sk-svcacct-"[3] == 's';
  }

  /** A bearer token is replaced with its padding. */
  lemma TokenReplaced(before: string, t: string, gap: nat, end: nat, padded: nat)
    requires Found(PATTERNS[2], "Bearer", gap, t) && EndsAt(PATTERNS[2], "Bearer", gap, t, end)
    requires end <= padded <= |t| && (forall i :: end <= i < padded ==> t[i] == '=')
    requires padded < |t| ==> t[padded] != '='
    requires forall i :: 0 <= i < |before| ==> MatchAt(PATTERNS[2], (before + t)[i..]) == 0
    ensures ReplaceAll(PATTERNS[2], before + t) == before + "<redacted:secret>" + ReplaceAll(PATTERNS[2], t[padded..])
  {
    PatternSolid(2);
    TokenRest(t, gap, end, padded);
    OneFits(2, "Bearer", t);
    OnlyPrefix(PATTERNS[2], PATTERNS[2].prefixes, "Bearer", t);
    ReplaceFirst(PATTERNS[2], before, t, padded);
  }

  lemma TokenRest(t: string, gap: nat, end: nat, padded: nat)
    requires Solid(PATTERNS[2])
    requires Found(PATTERNS[2], "Bearer", gap, t) && EndsAt(PATTERNS[2], "Bearer", gap, t, end)
    requires end <= padded <= |t| && (forall i :: end <= i < padded ==> t[i] == '=')
    requires padded < |t| ==> t[padded] != '='
    ensures RestLength(PATTERNS[2], t[6..]) == Some(padded - 6)
  {
    var p := PATTERNS[2];
    GapIs(p, "Bearer", gap, t);
    BodyRuns(p, t, 6 + gap, end);
    PadRuns(t, end, padded);
    var body := t[6 + gap..];
    assert t[6..][gap..] == body && body[end - 6 - gap..] == t[end..];
    RestIs(p, t[6..], gap, body, end - 6 - gap);
  }

  lemma PadRuns(t: string, end: nat, padded: nat)
    requires end <= padded <= |t| && (forall i :: end <= i < padded ==> t[i] == '=')
    requires padded < |t| ==> t[padded] != '='
    ensures PadLength(PATTERNS[2], t[end..]) == padded - end
  {
    var rest := t[end..];
    assert forall i :: 0 <= i < padded - end ==> rest[i] == t[end + i];
    assert padded < |t| ==> rest[padded - end] == t[padded];
    LeadingAtLeast((c: char) => c == '=', rest, padded - end);
  }

  // ----- Values -----

  /**
   * What becomes of an object's entry: null stays, anything else under a sensitive key is dropped, and otherwise
   * the value is redacted itself. Keys are never added or lost, and numbers and booleans never change.
   */
  lemma FieldBecomes(fields: map<string, Json>, sensitive: string -> bool, key: string)
    requires key in fields
    ensures RedactValue(Obj(fields), sensitive).Obj?
    ensures var after := RedactValue(Obj(fields), sensitive).fields;
            && after.Keys == fields.Keys
            && after[key] == if fields[key] == Null then Null
                             else if sensitive(key) then Str("<redacted>")
                             else RedactValue(fields[key], sensitive)
    ensures fields[key].Num? || fields[key].Bool? ==> RedactValue(fields[key], sensitive) == fields[key]
  {
  }
}
