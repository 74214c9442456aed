/**
 What a workflow-scope pattern means, stated without the matcher: how its text is read,
 and which strings it takes.
 */
module GlobMeaning {
  import opened ScopePattern
  import opened Text
  import opened Wrappers

  // ---------------------------------------------------------------- reading the text

  /** A bracket class may hold a closing bracket only first, or after a leading `!`, and
      holds something besides that `!`. */
  predicate ClassBody(body: string) {
    && body != [] && body != "!"
    && forall k | 0 <= k < |body| && body[k] == ']' :: k == 0 || (k == 1 && body[0] == '!')
  }

  /** The text of a token. */
  function Spelled(t: Token): string {
    match t
    case Star => "*"
    case One => "?"
    case Lit(c) => [c]
    case Class(body) => "[" + body + "]"
  }

  function Spelling(tokens: seq<Token>): string {
    if tokens == [] then [] else Spelled(tokens[0]) + Spelling(tokens[1..])
  }

  /** A token before the rest of its pattern: a wildcard is never a literal, a class has a
      body, and an opening bracket is literal only where no class could be read. */
  ghost predicate ReadAs(t: Token, rest: string) {
    match t
    case Star => true
    case One => true
    case Lit(c) => c != '*' && c != '?' && (c == '[' ==> forall n | 0 <= n < |rest| && rest[n] == ']' ::
                                                                                            !ClassBody(rest[..n]))
    case Class(body) => ClassBody(body)
  }

  ghost predicate Reads(tokens: seq<Token>) {
    forall i | 0 <= i < |tokens| :: ReadAs(tokens[i], Spelling(tokens[i + 1..]))
  }

  lemma {:induction false} FindFirst(s: string, c: char)
    ensures Find(s, c).None? ==> c !in s
    ensures Find(s, c).Some? ==> Find(s, c).value < |s| && s[Find(s, c).value] == c && c !in s[..Find(s, c).value]
  {
    if s != [] {
      FindFirst(s[1..], c);
      if Find(s, c).Some? && s[0] != c {
        var k := Find(s[1..], c).value;
        assert s[..k + 1] == [s[0]] + s[1..][..k];
      }
      assert s == [s[0]] + s[1..];
    }
  }

  /** Where the search for the end of a class begins: past a leading `!`, then past a
      leading bracket. */
  function Opening(s: string): (j: nat)
    ensures j <= |s|
  {
    var i := if |s| > 0 && s[0] == '!' then 1 else 0;
    if |s| > i && s[i] == ']' then i + 1 else i
  }

  lemma FirstFrom(s: string, j: nat, n: nat)
    requires j <= |s|
    ensures n >= j && Find(s[j..], ']') == Some(n - j)
            <==> j <= n < |s| && s[n] == ']' && forall k | j <= k < n :: s[k] != ']'
  {
    var found := Find(s[j..], ']');
    FindFirst(s[j..], ']');
    if found.Some? {
      forall k | j <= k < j + found.value ensures s[k] != ']' { assert s[j..][..found.value][k - j] == s[k]; }
    } else {
      forall k | j <= k < |s| ensures s[k] != ']' { assert s[j..][k - j] == s[k]; }
    }
  }

  lemma BodyIff(s: string, n: nat)
    requires n < |s| && s[n] == ']'
    ensures ClassBody(s[..n]) <==> Opening(s) <= n && forall k | Opening(s) <= k < n :: s[k] != ']'
  {
    assert forall k | 0 <= k < n :: s[..n][k] == s[k];
    assert s[..n] == "!" <==> n == 1 && s[0] == '!';
  }

  /** A class closes at the one place where its body is a class body. */
  lemma ClosesIff(s: string, n: nat)
    ensures ClosesAt(s) == Some(n) <==> n < |s| && s[n] == ']' && ClassBody(s[..n])
  {
    hide ClassBody;
    FirstFrom(s, Opening(s), n);
    if n < |s| && s[n] == ']' { BodyIff(s, n); }
  }

  lemma ReadsStep(t: Token, rest: seq<Token>)
    ensures Spelling([t] + rest) == Spelled(t) + Spelling(rest)
    ensures Reads([t] + rest) <==> ReadAs(t, Spelling(rest)) && Reads(rest)
  {
    hide ReadAs, Spelling;
    var tokens := [t] + rest;
    SpellingStep(tokens);
    assert tokens[1..] == rest;
    forall i | 0 <= i < |rest|
      ensures ReadAs(tokens[i + 1], Spelling(tokens[i + 2..])) <==> ReadAs(rest[i], Spelling(rest[i + 1..]))
    {
      assert tokens[i + 2..] == rest[i + 1..];
    }
    if Reads(tokens) {
      forall i | 0 <= i < |rest| ensures ReadAs(rest[i], Spelling(rest[i + 1..])) {
        assert ReadAs(tokens[i + 1], Spelling(tokens[i + 1 + 1..]));
      }
      assert ReadAs(tokens[0], Spelling(tokens[1..]));
    }
    if ReadAs(t, Spelling(rest)) && Reads(rest) {
      forall i | 0 <= i < |tokens| ensures ReadAs(tokens[i], Spelling(tokens[i + 1..])) {
        if i > 0 { assert ReadAs(rest[i - 1], Spelling(rest[i..])); }
      }
    }
  }

  lemma SpellingStep(tokens: seq<Token>)
    requires tokens != []
    ensures Spelling(tokens) == Spelled(tokens[0]) + Spelling(tokens[1..])
  {
  }

  lemma ClassReads(body: string, rest: string)
    requires ClassBody(body)
    ensures Glob("[" + body + "]" + rest) == [Class(body)] + Glob(rest)
  {
    hide ClosesAt, Find, ClassBody;
    var p := "[" + body + "]" + rest;
    assert p[1..] == body + "]" + rest;
    assert p[1..][..|body|] == body;
    ClosesIff(p[1..], |body|);
    assert p[1..|body| + 1] == body && p[|body| + 2..] == rest;
  }

  /** The first token of a pattern, and the rest of its text. */
  lemma GlobHead(p: string) returns (t: Token, rest: string)
    requires p != []
    ensures Glob(p) == [t] + Glob(rest) && p == Spelled(t) + rest && |rest| < |p| && ReadAs(t, rest)
  {
    hide ClosesAt, Find, ClassBody, ReadAs;
    if p[0] == '[' && ClosesAt(p[1..]).Some? {
      var n := ClosesAt(p[1..]).value;
      ClosesIff(p[1..], n);
      t, rest := Class(p[1..][..n]), p[1..][n + 1..];
      assert p == "[" + p[1..][..n] + "]" + rest;
      ClassReads(p[1..][..n], rest);
      assert ReadAs(t, rest) by { ClassReadAs(p[1..][..n], rest); }
    } else {
      t, rest := if p[0] == '*' then Star else if p[0] == '?' then One else Lit(p[0]), p[1..];
      assert p == [p[0]] + p[1..];
      assert ReadAs(t, rest) by { PlainReadAs(p); }
    }
  }

  lemma ClassReadAs(body: string, rest: string)
    requires ClassBody(body)
    ensures ReadAs(Class(body), rest)
  {
  }

  lemma PlainReadAs(p: string)
    requires p != [] && (p[0] == '[' ==> ClosesAt(p[1..]).None?)
    ensures ReadAs(if p[0] == '*' then Star else if p[0] == '?' then One else Lit(p[0]), p[1..])
  {
    hide ClosesAt, ClassBody;
    forall n | 0 <= n < |p[1..]| && p[1..][n] == ']' ensures ClosesAt(p[1..]).None? ==> !ClassBody(p[1..][..n]) {
      ClosesIff(p[1..], n);
    }
  }

  /** Reading a pattern gives tokens that spell it, read as they should be. */
  lemma {:induction false} GlobReads(p: string)
    ensures Spelling(Glob(p)) == p && Reads(Glob(p))
    decreases |p|
  {
    hide Glob, Reads, ReadAs, Spelling, Spelled;
    if p == [] {
      NothingRead();
    } else {
      var t, rest := GlobHead(p);
      GlobReads(rest);
      ReadsStep(t, Glob(rest));
    }
  }

  lemma NothingRead()
    ensures Spelling(Glob([])) == [] && Reads(Glob([]))
  {
  }

  /** And no other tokens do. */
  lemma {:induction false} OnlyGlobReads(tokens: seq<Token>)
    requires Reads(tokens)
    ensures Glob(Spelling(tokens)) == tokens
  {
    hide ClosesAt, Find, Reads, ClassBody;
    if tokens != [] {
      var t, rest := tokens[0], tokens[1..];
      assert tokens == [t] + rest;
      ReadsStep(t, rest);
      OnlyGlobReads(rest);
      var p := Spelling(tokens);
      match t
      case Star => assert p[1..] == Spelling(rest);
      case One => assert p[1..] == Spelling(rest);
      case Lit(c) =>
        assert p[1..] == Spelling(rest);
        if c == '[' && ClosesAt(p[1..]).Some? { ClosesIff(p[1..], ClosesAt(p[1..]).value); }
      case Class(body) => ClassReads(body, Spelling(rest));
    }
  }

  /** The tokens of a pattern are the ones that spell it and read as they should. */
  lemma GlobIff(p: string, tokens: seq<Token>)
    ensures tokens == Glob(p) <==> Spelling(tokens) == p && Reads(tokens)
  {
    hide Reads, Glob, Spelling;
    GlobReads(p);
    if Reads(tokens) { OnlyGlobReads(tokens); }
  }

  // ---------------------------------------------------------------- matching

  function Concat(pieces: seq<string>): string {
    if pieces == [] then [] else pieces[0] + Concat(pieces[1..])
  }

  /** What one token may stand for. */
  predicate Takes(t: Token, piece: string, rule: ClassRule) {
    match t
    case Star => true
    case One => |piece| == 1
    case Lit(c) => piece == [c]
    case Class(body) => |piece| == 1 && rule(body, piece[0])
  }

  predicate Cut(tokens: seq<Token>, pieces: seq<string>, rule: ClassRule) {
    |pieces| == |tokens| && forall i | 0 <= i < |tokens| :: Takes(tokens[i], pieces[i], rule)
  }

  lemma ConcatStep(piece: string, rest: seq<string>)
    ensures Concat([piece] + rest) == piece + Concat(rest)
  {
    assert ([piece] + rest)[1..] == rest;
  }

  lemma {:induction false} MatchesCut(tokens: seq<Token>, s: string, rule: ClassRule) returns (pieces: seq<string>)
    requires Matches(tokens, s, rule)
    ensures Cut(tokens, pieces, rule) && Concat(pieces) == s
    decreases |tokens|, |s|
  {
    if tokens == [] {
      pieces := [];
    } else if tokens[0].Star? && !Matches(tokens[1..], s, rule) {
      var rest := MatchesCut(tokens, s[1..], rule);
      pieces := [[s[0]] + rest[0]] + rest[1..];
      ConcatStep([s[0]] + rest[0], rest[1..]);
      assert s == [s[0]] + s[1..];
    } else {
      var piece := if tokens[0].Star? then [] else [s[0]];
      var rest := MatchesCut(tokens[1..], s[|piece|..], rule);
      pieces := [piece] + rest;
      ConcatStep(piece, rest);
      assert s == piece + s[|piece|..];
    }
  }

  lemma {:induction false} CutMatches(tokens: seq<Token>, pieces: seq<string>, rule: ClassRule)
    requires Cut(tokens, pieces, rule)
    ensures Matches(tokens, Concat(pieces), rule)
    decreases |tokens|, |Concat(pieces)|
  {
    if tokens != [] {
      assert Takes(tokens[0], pieces[0], rule);
      var s := Concat(pieces);
      if tokens[0].Star? && pieces[0] != [] {
        var rest := [pieces[0][1..]] + pieces[1..];
        ConcatStep(pieces[0][1..], pieces[1..]);
        assert s[1..] == Concat(rest);
        CutMatches(tokens, rest, rule);
      } else {
        CutMatches(tokens[1..], pieces[1..], rule);
        assert s == pieces[0] + Concat(pieces[1..]);
        assert s[|pieces[0]|..] == Concat(pieces[1..]);
      }
    }
  }

  /** A pattern takes exactly the strings that can be cut into one piece for each of its
      tokens: anything for a star, one character for a question mark, the character itself
      for any other, one of its class for a class. */
  lemma MatchIff(pattern: string, s: string, rule: ClassRule)
    ensures MatchWorkflowScope(pattern, s, rule)
            <==> exists pieces :: Cut(Glob(pattern), pieces, rule) && Concat(pieces) == s
  {
    hide Matches, Glob, Cut;
    if MatchWorkflowScope(pattern, s, rule) {
      var pieces := MatchesCut(Glob(pattern), s, rule);
    }
    if pieces :| Cut(Glob(pattern), pieces, rule) && Concat(pieces) == s {
      CutMatches(Glob(pattern), pieces, rule);
    }
  }
}
