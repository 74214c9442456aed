/**
 The scope pre-filter where LIKE folds the case of ASCII letters, as SQLite's does: when
 it still agrees with the glob, over all identifiers and over those without capitals.
 */
module ScopeFolding {
  import opened ScopePattern
  import opened Wrappers

  predicate Capital(c: char) {
    'A' <= c <= 'Z'
  }

  predicate Letter(c: char) {
    Capital(c) || 'a' <= c <= 'z'
  }

  function Fold(c: char): char {
    if Capital(c) then (c as int + 32) as char else c
  }

  /** Where the letters begin and end. */
  lemma LettersEnd()
    ensures Fold('A') == 'a' && Fold('Z') == 'z' && Fold('@') == '@' && Fold('[') == '['
    ensures Letter('a') && Letter('z') && !Letter('`') && !Letter('{')
  {
  }

  /** The same letter in the other case. */
  function Swap(c: char): char {
    if Capital(c) then (c as int + 32) as char else if Letter(c) then (c as int - 32) as char else c
  }

  function Folded(s: string): string {
    if s == [] then [] else [Fold(s[0])] + Folded(s[1..])
  }

  function Swapped(s: string): string {
    if s == [] then [] else [Swap(s[0])] + Swapped(s[1..])
  }

  function FoldTokens(tokens: seq<Token>): seq<Token> {
    if tokens == [] then []
    else [if tokens[0].Lit? then Lit(Fold(tokens[0].c)) else tokens[0]] + FoldTokens(tokens[1..])
  }

  /** LIKE without regard to the case of letters. */
  predicate FoldedLike(pattern: string, s: string, rule: ClassRule) {
    Like(pattern).Some? && Matches(FoldTokens(Like(pattern).value), Folded(s), rule)
  }

  predicate HasCapital(p: string) {
    exists i :: 0 <= i < |p| && Capital(p[i])
  }

  predicate HasLetter(p: string) {
    exists i :: 0 <= i < |p| && Letter(p[i])
  }

  // ---------------------------------------------------------------- folding

  lemma {:induction false} FoldOfPlain(p: string)
    ensures FoldTokens(Plain(p)) == Plain(Folded(p))
  {
    if p != [] {
      FoldOfPlain(p[1..]);
      assert Plain(p)[1..] == Plain(p[1..]);
      assert Folded(p)[1..] == Folded(p[1..]);
    }
  }

  /** The folding pre-filter, as a pattern on the folded text. */
  lemma FoldedIsPlain(p: string, s: string, rule: ClassRule)
    ensures FoldedLike(ToSqlLike(p), s, rule) <==> Matches(Plain(Folded(p)), Folded(s), rule)
  {
    LikeIsPlain(p);
    FoldOfPlain(p);
  }

  lemma {:induction false} FoldLength(s: string)
    ensures |Folded(s)| == |s| && |Swapped(s)| == |s|
    ensures forall i | 0 <= i < |s| :: Folded(s)[i] == Fold(s[i]) && Swapped(s)[i] == Swap(s[i])
  {
    if s != [] {
      FoldLength(s[1..]);
      forall i | 0 <= i < |s| ensures Folded(s)[i] == Fold(s[i]) && Swapped(s)[i] == Swap(s[i]) {
        if i > 0 { assert s[i] == s[1..][i - 1]; }
      }
    }
  }

  lemma NoCapitals(s: string)
    requires !HasCapital(s)
    ensures Folded(s) == s
  {
    FoldLength(s);
    forall i | 0 <= i < |s| ensures Folded(s)[i] == s[i] { assert !Capital(s[i]); }
  }

  lemma {:induction false} FoldKeepsFewest(p: string)
    ensures Fewest(Plain(Folded(p))) == Fewest(Plain(p))
  {
    if p != [] {
      FoldKeepsFewest(p[1..]);
      assert Plain(p)[1..] == Plain(p[1..]) && Plain(Folded(p))[1..] == Plain(Folded(p[1..]));
    }
  }

  /** A pattern without letters cannot tell the cases apart. */
  lemma {:induction false} UncasedMatches(p: string, s: string, rule: ClassRule)
    requires !HasLetter(p)
    ensures Matches(Plain(p), s, rule) <==> Matches(Plain(p), Folded(s), rule)
    decreases |p|, |s|
  {
    if p != [] {
      assert !Letter(p[0]);
      NoLettersLater(p);
      assert Plain(p)[1..] == Plain(p[1..]);
      if s != [] { assert Folded(s)[1..] == Folded(s[1..]); }
      if p[0] == '*' {
        UncasedMatches(p[1..], s, rule);
        if s != [] { UncasedMatches(p, s[1..], rule); }
      } else if s != [] {
        UncasedMatches(p[1..], s[1..], rule);
      }
    }
  }

  lemma NoLettersLater(p: string)
    requires p != [] && !HasLetter(p)
    ensures !HasLetter(p[1..])
  {
    forall i | 0 <= i < |p[1..]| ensures !Letter(p[1..][i]) { assert !Letter(p[i + 1]); }
  }

  // ---------------------------------------------------------------- shortest words

  /** The pattern itself, nothing in place of its stars. */
  function Word(p: string): string {
    if p == [] then [] else if p[0] == '*' then Word(p[1..]) else [p[0]] + Word(p[1..])
  }

  lemma {:induction false} WordMatches(p: string, rule: ClassRule)
    ensures Matches(Plain(p), Word(p), rule) && |Word(p)| == Fewest(Plain(p))
    ensures forall c | c in Word(p) :: c in p
  {
    if p != [] {
      WordMatches(p[1..], rule);
      assert Plain(p)[1..] == Plain(p[1..]);
      assert p[0] != '*' ==> Word(p)[1..] == Word(p[1..]);
      assert forall c | c in p[1..] :: c in p;
    }
  }

  lemma {:induction false} FoldOfWord(p: string)
    ensures Folded(Word(p)) == Word(Folded(p))
  {
    if p != [] {
      FoldOfWord(p[1..]);
      assert Folded(p)[1..] == Folded(p[1..]);
      assert p[0] != '*' ==> Word(p)[1..] == Word(p[1..]);
    }
  }

  /** The two have their stars in the same places. */
  predicate SameStars(p: string, q: string) {
    |p| == |q| && forall i | 0 <= i < |p| :: p[i] == '*' <==> q[i] == '*'
  }

  /** A word as short as the pattern allows leaves the stars empty, so it has the pattern's
      characters. */
  lemma {:induction false} ShortestIsForced(p: string, q: string, rule: ClassRule)
    requires SameStars(p, q) && Matches(Plain(p), Word(q), rule)
    ensures forall i | 0 <= i < |p| :: p[i] == '*' || p[i] == '?' || p[i] == q[i]
    decreases |p|
  {
    if p != [] {
      assert Plain(p)[1..] == Plain(p[1..]);
      TailStars(p, q);
      SameFewest(p, q, rule);
      if p[0] == '*' {
        if !Matches(Plain(p[1..]), Word(q), rule) { AtLeast(Plain(p), Word(q)[1..], rule); }
      } else {
        assert Word(q)[1..] == Word(q[1..]);
      }
      ShortestIsForced(p[1..], q[1..], rule);
      forall i | 0 <= i < |p| ensures p[i] == '*' || p[i] == '?' || p[i] == q[i] {
        if i > 0 { assert p[i] == p[1..][i - 1] && q[i] == q[1..][i - 1]; }
      }
    }
  }

  lemma TailStars(p: string, q: string)
    requires SameStars(p, q) && p != []
    ensures SameStars(p[1..], q[1..])
  {
  }

  lemma {:induction false} SameFewest(p: string, q: string, rule: ClassRule)
    requires SameStars(p, q)
    ensures |Word(q)| == Fewest(Plain(p))
  {
    if p != [] {
      TailStars(p, q);
      SameFewest(p[1..], q[1..], rule);
      assert Plain(p)[1..] == Plain(p[1..]);
    }
  }

  // ---------------------------------------------------------------- agreement

  ghost predicate AgreeAt(pattern: string, s: string, rule: ClassRule) {
    MatchWorkflowScope(pattern, s, rule) <==> FoldedLike(ToSqlLike(pattern), s, rule)
  }

  /** With a class, the glob and the folding LIKE part on a word, or on what is left of it
      when the stars match nothing. */
  lemma ClassParts(pattern: string, s: string, rule: ClassRule) returns (t: string)
    requires HasClass(pattern) && FoldedLike(ToSqlLike(pattern), s, rule)
    ensures !AgreeAt(pattern, t, rule) && forall c | c in t :: c in s
  {
    t := s;
    GlobIsShorter(pattern);
    FoldKeepsFewest(pattern);
    if MatchWorkflowScope(pattern, s, rule) {
      t := Shortest(Glob(pattern), s, rule);
      FoldedIsPlain(pattern, t, rule);
      FoldLength(t);
      if FoldedLike(ToSqlLike(pattern), t, rule) { AtLeast(Plain(Folded(pattern)), Folded(t), rule); }
    }
  }

  lemma SwappedStars(p: string)
    ensures SameStars(p, Swapped(p)) && SameStars(p, Folded(p)) && Folded(Swapped(p)) == Folded(p)
  {
    FoldLength(p);
    FoldLength(Swapped(p));
    assert forall i | 0 <= i < |p| :: Folded(Swapped(p))[i] == Folded(p)[i];
  }

  /** A letter of the pattern in the other case: LIKE takes it, the glob does not. */
  lemma LetterParts(pattern: string, rule: ClassRule)
    requires !HasClass(pattern) && HasLetter(pattern)
    ensures !AgreeAt(pattern, Word(Swapped(pattern)), rule)
  {
    var s := Word(Swapped(pattern));
    GlobIsPlain(pattern);
    SwappedStars(pattern);
    FoldOfWord(Swapped(pattern));
    WordMatches(Folded(pattern), rule);
    FoldedIsPlain(pattern, s, rule);
    FoldLength(pattern);
    if Matches(Plain(pattern), s, rule) { ShortestIsForced(pattern, Swapped(pattern), rule); }
  }

  /** With a folding LIKE, glob and pre-filter agree on every string exactly when the
      pattern has neither a bracket class nor a letter. */
  lemma FoldingAgreesIff(pattern: string, rule: ClassRule)
    ensures (forall s: string :: AgreeAt(pattern, s, rule)) <==> !HasClass(pattern) && !HasLetter(pattern)
  {
    hide AgreeAt;
    if HasClass(pattern) {
      WordIsTaken(pattern, rule);
      var t := ClassParts(pattern, Word(Folded(pattern)), rule);
    } else if HasLetter(pattern) {
      LetterParts(pattern, rule);
    } else {
      forall s: string ensures AgreeAt(pattern, s, rule) { UncasedAgrees(pattern, s, rule); }
    }
  }

  lemma UncasedAgrees(pattern: string, s: string, rule: ClassRule)
    requires !HasClass(pattern) && !HasLetter(pattern)
    ensures AgreeAt(pattern, s, rule)
  {
    GlobIsPlain(pattern);
    FoldedIsPlain(pattern, s, rule);
    forall i | 0 <= i < |pattern| ensures !Capital(pattern[i]) { assert !Letter(pattern[i]); }
    NoCapitals(pattern);
    UncasedMatches(pattern, s, rule);
  }

  /** The folded pattern's own word passes the pre-filter, and has no capitals. */
  lemma WordIsTaken(pattern: string, rule: ClassRule)
    ensures FoldedLike(ToSqlLike(pattern), Word(Folded(pattern)), rule) && !HasCapital(Word(Folded(pattern)))
  {
    var p := Folded(pattern);
    FoldLength(pattern);
    WordMatches(p, rule);
    forall i | 0 <= i < |Word(p)| ensures !Capital(Word(p)[i]) { assert Word(p)[i] in p; }
    NoCapitals(Word(p));
    FoldedIsPlain(pattern, Word(p), rule);
  }

  /** Over identifiers without capitals, which is all the registry admits: they agree
      exactly when the pattern has neither a bracket class nor a capital. */
  lemma LowercaseAgreesIff(pattern: string, rule: ClassRule)
    ensures (forall s: string | !HasCapital(s) :: AgreeAt(pattern, s, rule))
            <==> !HasClass(pattern) && !HasCapital(pattern)
  {
    hide AgreeAt, HasCapital, FoldedLike;
    if HasClass(pattern) {
      WordIsTaken(pattern, rule);
      var t := ClassParts(pattern, Word(Folded(pattern)), rule);
      FewerCapitals(t, Word(Folded(pattern)));
    } else if HasCapital(pattern) {
      WordIsTaken(pattern, rule);
      CapitalParts(pattern, rule);
    } else {
      forall s: string | !HasCapital(s) ensures AgreeAt(pattern, s, rule) {
        NoCapitals(s);
        NoCapitals(pattern);
        GlobIsPlain(pattern);
        FoldedIsPlain(pattern, s, rule);
        assert AgreeAt(pattern, s, rule) by { AgreeIf(pattern, s, rule); }
      }
    }
  }

  lemma AgreeIf(pattern: string, s: string, rule: ClassRule)
    requires MatchWorkflowScope(pattern, s, rule) <==> FoldedLike(ToSqlLike(pattern), s, rule)
    ensures AgreeAt(pattern, s, rule)
  {
  }

  lemma FewerCapitals(t: string, s: string)
    requires !HasCapital(s) && forall c | c in t :: c in s
    ensures !HasCapital(t)
  {
    forall i | 0 <= i < |t| ensures !Capital(t[i]) { assert t[i] in s; }
  }

  lemma CapitalParts(pattern: string, rule: ClassRule)
    requires !HasClass(pattern) && HasCapital(pattern)
    requires FoldedLike(ToSqlLike(pattern), Word(Folded(pattern)), rule)
    ensures !AgreeAt(pattern, Word(Folded(pattern)), rule)
  {
    GlobIsPlain(pattern);
    SwappedStars(pattern);
    FoldLength(pattern);
    if Matches(Plain(pattern), Word(Folded(pattern)), rule) { ShortestIsForced(pattern, Folded(pattern), rule); }
  }
}
