/**
 Workflow-scope patterns: the shell glob that decides access, and the SQL LIKE pattern
 that filters rows before a page is cut.
 */
module ScopePattern {
  import opened Text
  import opened Wrappers

  datatype Token = Star | One | Lit(c: char) | Class(body: string)

  /** Which characters a bracket class holds is the matcher library's business. */
  type ClassRule = (string, char) -> bool

  // ---------------------------------------------------------------- globs

  function Find(s: string, c: char): Option<nat> {
    if s == [] then None
    else if s[0] == c then Some(0)
    else
      match Find(s[1..], c)
      case None => None
      case Some(i) => Some(i + 1)
  }

  lemma {:induction false} FindFinds(s: string, c: char)
    ensures Find(s, c).Some? ==> Find(s, c).value < |s| && s[Find(s, c).value] == c
  {
    if s != [] { FindFinds(s[1..], c); }
  }

  /** Where the class opened just before `s` closes: a leading `!`, then a leading `]`,
      belong to the class. */
  function ClosesAt(s: string): (at: Option<nat>)
    ensures at.Some? ==> 1 <= at.value < |s|
  {
    var i := if |s| > 0 && s[0] == '!' then 1 else 0;
    var j := if |s| > i && s[i] == ']' then i + 1 else i;
    FindFinds(s[j..], ']');
    match Find(s[j..], ']')
    case None => None
    case Some(k) => Some(j + k)
  }

  /** The tokens of a glob; a `[` that never closes is itself. */
  function Glob(p: string): seq<Token>
    decreases |p|
  {
    if p == [] then []
    else if p[0] == '*' then [Star] + Glob(p[1..])
    else if p[0] == '?' then [One] + Glob(p[1..])
    else if p[0] == '[' && ClosesAt(p[1..]).Some? then
      var close := 1 + ClosesAt(p[1..]).value;
      [Class(p[1..close])] + Glob(p[close + 1..])
    else [Lit(p[0])] + Glob(p[1..])
  }

  /** Whether the tokens match the whole string. */
  predicate Matches(tokens: seq<Token>, s: string, rule: ClassRule)
    decreases |tokens|, |s|
  {
    if tokens == [] then s == []
    else
      match tokens[0]
      case Star => Matches(tokens[1..], s, rule) || (s != [] && Matches(tokens, s[1..], rule))
      case One => s != [] && Matches(tokens[1..], s[1..], rule)
      case Lit(c) => s != [] && s[0] == c && Matches(tokens[1..], s[1..], rule)
      case Class(body) => s != [] && rule(body, s[0]) && Matches(tokens[1..], s[1..], rule)
  }

  predicate MatchWorkflowScope(pattern: string, id: string, rule: ClassRule) {
    Matches(Glob(pattern), id, rule)
  }

  // ---------------------------------------------------------------- LIKE

  /** The tokens of a LIKE pattern under `ESCAPE '\'`; None when an escape precedes
      nothing it may escape. */
  function Like(p: string): Option<seq<Token>> {
    if p == [] then Some([])
    else if p[0] == '\\' then
      if |p| > 1 && p[1] in {'%', '_', '\\'} then Prefix(Lit(p[1]), Like(p[2..])) else None
    else Prefix(if p[0] == '%' then Star else if p[0] == '_' then One else Lit(p[0]), Like(p[1..]))
  }

  function Prefix(t: Token, rest: Option<seq<Token>>): Option<seq<Token>> {
    match rest
    case None => None
    case Some(tokens) => Some([t] + tokens)
  }

  predicate LikeMatches(pattern: string, s: string, rule: ClassRule) {
    Like(pattern).Some? && Matches(Like(pattern).value, s, rule)
  }

  /** The five replacements, in the order they are made. */
  function ToSqlLike(pattern: string): string {
    var escaped := ReplaceChar(ReplaceChar(ReplaceChar(pattern, '\\', "\\\\"), '%', "\\%"), '_', "\\_");
    ReplaceChar(ReplaceChar(escaped, '*', "%"), '?', "_")
  }

  function EscapeChar(c: char): string {
    if c == '\\' then "\\\\" else if c == '%' then "\\%" else if c == '_' then "\\_"
    else if c == '*' then "%" else if c == '?' then "_" else [c]
  }

  lemma ReplaceIn(s: string, c: char, with: string)
    requires |s| == 1 || |s| == 2
    ensures |s| == 1 ==> ReplaceChar(s, c, with) == if s[0] == c then with else s
    ensures |s| == 2 ==>
              ReplaceChar(s, c, with) == (if s[0] == c then with else [s[0]]) + (if s[1] == c then with else [s[1]])
  {
    assert s[1..] == if |s| == 1 then [] else [s[1]];
    assert ReplaceChar([], c, with) == [];
  }

  lemma OneChar(c: char)
    ensures ToSqlLike([c]) == EscapeChar(c)
  {
    var a := ReplaceChar([c], '\\', "\\\\");
    ReplaceIn([c], '\\', "\\\\");
    ReplaceIn(a, '%', "\\%");
    var b := ReplaceChar(a, '%', "\\%");
    ReplaceIn(b, '_', "\\_");
    var d := ReplaceChar(b, '_', "\\_");
    ReplaceIn(d, '*', "%");
    var e := ReplaceChar(d, '*', "%");
    ReplaceIn(e, '?', "_");
  }

  /** The replacements never meet: together they translate one character at a time. */
  lemma {:induction false} TranslatesCharByChar(p: string)
    requires p != []
    ensures ToSqlLike(p) == EscapeChar(p[0]) + ToSqlLike(p[1..])
  {
    var x, y := [p[0]], p[1..];
    assert p == x + y;
    ReplaceConcat(x, y, '\\', "\\\\");
    var x1, y1 := ReplaceChar(x, '\\', "\\\\"), ReplaceChar(y, '\\', "\\\\");
    ReplaceConcat(x1, y1, '%', "\\%");
    var x2, y2 := ReplaceChar(x1, '%', "\\%"), ReplaceChar(y1, '%', "\\%");
    ReplaceConcat(x2, y2, '_', "\\_");
    var x3, y3 := ReplaceChar(x2, '_', "\\_"), ReplaceChar(y2, '_', "\\_");
    ReplaceConcat(x3, y3, '*', "%");
    ReplaceConcat(ReplaceChar(x3, '*', "%"), ReplaceChar(y3, '*', "%"), '?', "_");
    OneChar(p[0]);
  }

  /** One character of a pattern, read with no bracket classes. */
  function PlainToken(c: char): Token {
    if c == '*' then Star else if c == '?' then One else Lit(c)
  }

  function Plain(p: string): seq<Token> {
    if p == [] then [] else [PlainToken(p[0])] + Plain(p[1..])
  }

  lemma LikeStep(c: char, rest: string)
    ensures Like(EscapeChar(c) + rest) == Prefix(PlainToken(c), Like(rest))
  {
    var p := EscapeChar(c) + rest;
    assert p[|EscapeChar(c)|..] == rest;
  }

  /** The translation reads every character as itself, except the two wildcards. */
  lemma {:induction false} LikeIsPlain(p: string)
    ensures Like(ToSqlLike(p)) == Some(Plain(p))
  {
    if p != [] {
      hide Like, ToSqlLike, EscapeChar, PlainToken;
      TranslatesCharByChar(p);
      LikeIsPlain(p[1..]);
      LikeStep(p[0], ToSqlLike(p[1..]));
    }
  }

  // ---------------------------------------------------------------- agreement

  /** A bracket opens somewhere and closes again. */
  predicate HasClass(p: string) {
    p != [] && ((p[0] == '[' && ClosesAt(p[1..]).Some?) || HasClass(p[1..]))
  }

  lemma {:induction false} GlobIsPlain(p: string)
    requires !HasClass(p)
    ensures Glob(p) == Plain(p)
  {
    if p != [] { GlobIsPlain(p[1..]); }
  }

  /** The fewest characters a match has. */
  function Fewest(tokens: seq<Token>): nat {
    if tokens == [] then 0 else (if tokens[0].Star? then 0 else 1) + Fewest(tokens[1..])
  }

  lemma {:induction false} AtLeast(tokens: seq<Token>, s: string, rule: ClassRule)
    requires Matches(tokens, s, rule)
    ensures |s| >= Fewest(tokens)
    decreases |tokens|, |s|
  {
    if tokens != [] {
      if tokens[0].Star? {
        if Matches(tokens[1..], s, rule) {
          AtLeast(tokens[1..], s, rule);
        } else {
          AtLeast(tokens, s[1..], rule);
        }
      } else {
        AtLeast(tokens[1..], s[1..], rule);
      }
    }
  }

  /** What matches has a match with nothing in place of the stars. */
  lemma {:induction false} Shortest(tokens: seq<Token>, s: string, rule: ClassRule) returns (t: string)
    requires Matches(tokens, s, rule)
    ensures Matches(tokens, t, rule) && |t| == Fewest(tokens) && forall c | c in t :: c in s
    decreases |tokens|, |s|
  {
    if tokens == [] {
      t := s;
    } else if tokens[0].Star? {
      if Matches(tokens[1..], s, rule) {
        t := Shortest(tokens[1..], s, rule);
      } else {
        t := Shortest(tokens, s[1..], rule);
      }
    } else {
      var rest := Shortest(tokens[1..], s[1..], rule);
      t := [s[0]] + rest;
      assert t[1..] == rest;
    }
  }

  lemma {:induction false} PlainMatchesSomething(p: string, rule: ClassRule) returns (s: string)
    ensures Matches(Plain(p), s, rule)
  {
    if p == [] {
      s := [];
    } else {
      var rest := PlainMatchesSomething(p[1..], rule);
      s := if p[0] == '*' then rest else [p[0]] + rest;
      assert Plain(p)[1..] == Plain(p[1..]);
      assert p[0] != '*' ==> s[1..] == rest;
    }
  }

  lemma {:induction false} PlainOfLonger(a: string, b: string)
    ensures Fewest(Plain(a + b)) == Fewest(Plain(a)) + Fewest(Plain(b))
  {
    if a == [] {
      assert a + b == b;
    } else {
      PlainOfLonger(a[1..], b);
      assert (a + b)[1..] == a[1..] + b;
      assert Plain(a)[1..] == Plain(a[1..]) && Plain(a + b)[1..] == Plain(a[1..] + b);
    }
  }

  lemma ClassText(p: string, close: nat)
    requires 2 <= close < |p| && p[0] == '[' && p[close] == ']'
    ensures Fewest(Plain(p)) >= 2 + Fewest(Plain(p[close + 1..]))
  {
    var inside, rest := p[1..close], p[close + 1..];
    assert p[1..] == inside + ([p[close]] + rest);
    PlainOfLonger(inside, [p[close]] + rest);
    assert ([p[close]] + rest)[1..] == rest;
    assert Plain(p)[1..] == Plain(p[1..]) && Plain([p[close]] + rest)[1..] == Plain(rest);
  }

  lemma GlobStep(p: string)
    requires p != []
    ensures if p[0] == '[' && ClosesAt(p[1..]).Some? then
              Fewest(Glob(p)) == 1 + Fewest(Glob(p[2 + ClosesAt(p[1..]).value..]))
            else Fewest(Glob(p)) == (if p[0] == '*' then 0 else 1) + Fewest(Glob(p[1..]))
    ensures Fewest(Plain(p)) == (if p[0] == '*' then 0 else 1) + Fewest(Plain(p[1..]))
  {
    hide ClosesAt, Find;
    assert Plain(p)[1..] == Plain(p[1..]);
    if p[0] == '[' && ClosesAt(p[1..]).Some? {
      assert Glob(p)[1..] == Glob(p[2 + ClosesAt(p[1..]).value..]);
    } else {
      assert Glob(p)[1..] == Glob(p[1..]);
    }
  }

  /** A class takes one character, but its text counts at least the two brackets. */
  lemma {:induction false} GlobIsShorter(p: string)
    ensures Fewest(Glob(p)) <= Fewest(Plain(p))
    ensures HasClass(p) ==> Fewest(Glob(p)) < Fewest(Plain(p))
    decreases |p|
  {
    hide ClosesAt, Find, Glob, Plain, Least;
    if p == [] {
      NothingLeft();
    } else {
      GlobStep(p);
      if p[0] == '[' && ClosesAt(p[1..]).Some? {
        var close := 1 + ClosesAt(p[1..]).value;
        GlobIsShorter(p[close + 1..]);
        ClosesWithBracket(p[1..]);
        ClassText(p, close);
      } else {
        GlobIsShorter(p[1..]);
      }
    }
  }

  lemma NothingLeft()
    ensures Fewest(Glob([])) == 0 == Fewest(Plain([]))
  {
  }

  lemma ClosesWithBracket(s: string)
    ensures ClosesAt(s).Some? ==> s[ClosesAt(s).value] == ']'
  {
    var i := if |s| > 0 && s[0] == '!' then 1 else 0;
    var j := if |s| > i && s[i] == ']' then i + 1 else i;
    FindFinds(s[j..], ']');
  }

  /** The two matchers agree on every string. */
  ghost predicate Agree(pattern: string, rule: ClassRule) {
    forall s: string :: MatchWorkflowScope(pattern, s, rule) <==> LikeMatches(ToSqlLike(pattern), s, rule)
  }

  /** The translation is exact for precisely the patterns without a bracket class,
      whatever characters a class would hold. */
  lemma AgreeIffNoClass(pattern: string, rule: ClassRule)
    ensures Agree(pattern, rule) <==> !HasClass(pattern)
  {
    LikeIsPlain(pattern);
    if HasClass(pattern) {
      GlobIsShorter(pattern);
      var s := PlainMatchesSomething(pattern, rule);
      assert LikeMatches(ToSqlLike(pattern), s, rule);
      if MatchWorkflowScope(pattern, s, rule) {
        var t := Shortest(Glob(pattern), s, rule);
        assert MatchWorkflowScope(pattern, t, rule);
        if LikeMatches(ToSqlLike(pattern), t, rule) {
          AtLeast(Plain(pattern), t, rule);
        }
      }
    } else {
      GlobIsPlain(pattern);
    }
  }

  lemma {:induction false} NoBracketNoClass(pattern: string)
    requires '[' !in pattern
    ensures !HasClass(pattern)
  {
    if pattern != [] {
      assert pattern[0] in pattern && forall c | c in pattern[1..] :: c in pattern;
      NoBracketNoClass(pattern[1..]);
    }
  }

  /** The SQL pre-filter keeps exactly the rows the in-memory check would. */
  lemma PreFilterIsExact(patterns: seq<string>, id: string, rule: ClassRule)
    requires forall p | p in patterns :: '[' !in p
    ensures (exists p :: p in patterns && LikeMatches(ToSqlLike(p), id, rule))
            <==> (exists p :: p in patterns && MatchWorkflowScope(p, id, rule))
  {
    forall p | p in patterns ensures LikeMatches(ToSqlLike(p), id, rule) <==> MatchWorkflowScope(p, id, rule) {
      NoBracketNoClass(p);
      AgreeIffNoClass(p, rule);
    }
  }
}
