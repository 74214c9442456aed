/**
 Scrubbing several secrets: over every list drawn from them, in every order, none
 survives, exactly when replacing no one of them can bring up another, or itself. To
 know that, finitely many short texts are enough.
 */
module RedactionLists {
  import opened JsonValue
  import opened Redaction

  /** Replacing `q` in `text` brings up `s`, which was not there unless it is `q`. */
  ghost predicate BringsIn(text: string, q: string, s: string)
    requires q != []
  {
    (q == s || !Contains(text, s)) && Contains(ReplaceAll(text, q), s)
  }

  /** A text no longer than `s` many `q`s, of their characters. */
  predicate Short(text: string, q: string, s: string) {
    |text| <= |s| * |q| && forall c | c in text :: c in s || c in q
  }

  ghost predicate Brings(q: string, s: string)
    requires q != []
  {
    exists text :: Short(text, q, s) && BringsIn(text, q, s)
  }

  /** Replacing one of the secrets never brings up one of them. */
  ghost predicate NoneBrings(secrets: set<string>) {
    forall q, s | q in secrets && s in secrets :: q != [] && s != [] ==> !Brings(q, s)
  }

  // ---------------------------------------------------------------- a window is enough

  lemma MatchStep(text: string, q: string)
    requires q != [] && OccursAt(text, q, 0)
    ensures |q| <= |text| && ReplaceAll(text, q) == REDACTED_MARKER + ReplaceAll(text[|q|..], q)
  {
  }

  lemma Fewer(t: nat, rest: nat, n: nat, q: nat)
    requires rest < t && n <= rest * q
    ensures q + n <= t * q
  {
    assert (rest + 1) * q <= t * q;
  }

  /** The beginning of a replaced text comes from a short beginning of the text. */
  lemma {:induction false} Cover(text: string, q: string, t: string) returns (m: nat)
    requires q != [] && t <= ReplaceAll(text, q)
    ensures m <= |text| && m <= |t| * |q| && t <= ReplaceAll(text[..m], q)
    ensures forall c | c in text[..m] :: c in t || c in q
    decreases |t|
  {
    hide OccursAt, ReplaceAll;
    if t == [] {
      m := 0;
    } else if OccursAt(text, q, 0) {
      MatchStep(text, q);
      var n := |REDACTED_MARKER|;
      var rest := if |t| > n then t[n..] else [];
      var after := Cover(text[|q|..], q, rest);
      m := |q| + after;
      Fewer(|t|, |rest|, after, |q|);
      CoverMatch(text, q, t, m);
    } else {
      NotNothing(text, q);
      CopyOne(text, q);
      var after := Cover(text[1..], q, t[1..]);
      m := 1 + after;
      Fewer(|t|, |t| - 1, after, |q|);
      CoverCopy(text, q, t, m);
    }
  }

  lemma NotNothing(text: string, q: string)
    requires q != [] && ReplaceAll(text, q) != []
    ensures text != []
  {
  }

  lemma CoverMatch(text: string, q: string, t: string, m: nat)
    requires q != [] && OccursAt(text, q, 0) && |q| <= m <= |text| && t <= ReplaceAll(text, q)
    requires var n := |REDACTED_MARKER|; var rest := if |t| > n then t[n..] else [];
             && rest <= ReplaceAll(text[|q|..][..m - |q|], q)
             && forall c | c in text[|q|..][..m - |q|] :: c in rest || c in q
    ensures t <= ReplaceAll(text[..m], q) && forall c | c in text[..m] :: c in t || c in q
  {
    hide ReplaceAll;
    assert text[..m][..|q|] == q by { assert text[0..|q|] == q; }
    WholeText(text[..m], q);
    MatchStep(text, q);
    MatchStep(text[..m], q);
    assert text[..m][|q|..] == text[|q|..][..m - |q|];
    assert text[..m] == q + text[|q|..][..m - |q|];
  }

  lemma CoverCopy(text: string, q: string, t: string, m: nat)
    requires q != [] && text != [] && !OccursAt(text, q, 0) && 1 <= m <= |text| && t != [] && t <= ReplaceAll(text, q)
    requires t[1..] <= ReplaceAll(text[1..][..m - 1], q)
    requires forall c | c in text[1..][..m - 1] :: c in t[1..] || c in q
    ensures t <= ReplaceAll(text[..m], q) && forall c | c in text[..m] :: c in t || c in q
  {
    hide ReplaceAll;
    CopyOne(text, q);
    assert !OccursAt(text[..m], q, 0) by {
      if OccursAt(text[..m], q, 0) { WithinText(text, q, m); }
    }
    CopyOne(text[..m], q);
    assert text[..m][1..] == text[1..][..m - 1];
    assert t[0] == text[0];
    assert t == [t[0]] + t[1..];
    assert text[..m] == [text[0]] + text[1..][..m - 1];
  }

  lemma WithinText(text: string, q: string, m: nat)
    requires m <= |text| && OccursAt(text[..m], q, 0)
    ensures OccursAt(text, q, 0)
  {
    assert text[0..|q|] == text[..m][0..|q|];
  }

  /** Wherever a text occurs in a replaced one, a short part of the original gives it. */
  lemma {:induction false} Window(text: string, q: string, s: string, at: int) returns (w: string, i: nat)
    requires q != [] && s != [] && OccursAt(ReplaceAll(text, q), s, at)
    ensures Short(w, q, s) && Contains(ReplaceAll(w, q), s) && OccursAt(text, w, i)
    decreases |text|
  {
    hide Contains, Short, ReplaceAll;
    if at == 0 {
      w := FrontWindow(text, q, s);
      i := 0;
    } else if OccursAt(text, q, 0) {
      MatchStep(text, q);
      if at >= |REDACTED_MARKER| {
        LaterBy(REDACTED_MARKER, ReplaceAll(text[|q|..], q), s, at);
        var k: int;
        w, k := Window(text[|q|..], q, s, at - |REDACTED_MARKER|);
        i := |q| + k;
        assert text[i..i + |w|] == text[|q|..][k..k + |w|];
      } else {
        w := MarkerWindow(text, q, s, at);
        i := 0;
      }
    } else {
      NotNothing(text, q);
      CopyOne(text, q);
      LaterBy([text[0]], ReplaceAll(text[1..], q), s, at);
      var k: int;
      w, k := Window(text[1..], q, s, at - 1);
      i := 1 + k;
      assert text[i..i + |w|] == text[1..][k..k + |w|];
    }
  }

  lemma LaterBy(head: string, rest: string, s: string, at: int)
    requires OccursAt(head + rest, s, at) && at >= |head|
    ensures OccursAt(rest, s, at - |head|)
  {
    assert (head + rest)[at..at + |s|] == rest[at - |head|..at - |head| + |s|];
  }

  lemma FrontWindow(text: string, q: string, s: string) returns (w: string)
    requires q != [] && OccursAt(ReplaceAll(text, q), s, 0)
    ensures Short(w, q, s) && Contains(ReplaceAll(w, q), s) && OccursAt(text, w, 0)
  {
    hide ReplaceAll;
    var r := ReplaceAll(text, q);
    assert r[..|s|] == s by { assert r[0..|s|] == s; }
    var m := Cover(text, q, s);
    w := text[..m];
    WholeText(ReplaceAll(w, q), s);
    WholeText(text, w);
  }

  /** The occurrence begins inside the first marker. */
  lemma MarkerWindow(text: string, q: string, s: string, at: nat) returns (w: string)
    requires q != [] && OccursAt(text, q, 0) && OccursAt(ReplaceAll(text, q), s, at) && s != []
    requires 0 < at < |REDACTED_MARKER|
    ensures Short(w, q, s) && Contains(ReplaceAll(w, q), s) && OccursAt(text, w, 0)
  {
    hide ReplaceAll;
    MatchStep(text, q);
    var n := |REDACTED_MARKER|;
    var r := ReplaceAll(text, q);
    var t := r[..at + |s|];
    assert t[at..] == s by { assert r[at..at + |s|] == s; }
    var rest := if |t| > n then t[n..] else [];
    assert rest <= ReplaceAll(text[|q|..], q);
    var after := Cover(text[|q|..], q, rest);
    var m := |q| + after;
    CoverMatch(text, q, t, m);
    w := text[..m];
    Fewer(|s|, |rest|, after, |q|);
    MarkerChars(text, q, s, at, rest, m);
    assert ReplaceAll(w, q)[at..at + |s|] == s;
    assert OccursAt(ReplaceAll(w, q), s, at);
    WholeText(text, w);
  }

  lemma MarkerChars(text: string, q: string, s: string, at: nat, rest: string, m: nat)
    requires OccursAt(text, q, 0) && |q| <= m <= |text|
    requires forall c | c in text[|q|..][..m - |q|] :: c in rest || c in q
    requires forall c | c in rest :: c in s
    ensures forall c | c in text[..m] :: c in s || c in q
  {
    assert text[..m] == q + text[|q|..][..m - |q|] by { assert text[0..|q|] == q; }
  }

  /** If any text brings `s` up, a short one does. */
  lemma BringsIff(q: string, s: string)
    requires q != [] && s != []
    ensures (exists text :: BringsIn(text, q, s)) <==> Brings(q, s)
  {
    hide ReplaceAll, Short, OccursAt;
    if text :| BringsIn(text, q, s) {
      var at :| OccursAt(ReplaceAll(text, q), s, at);
      var w, i := Window(text, q, s, at);
      if q != s && Contains(w, s) { PartContains(text, w, i, s); }
      assert BringsIn(w, q, s);
    }
  }

  lemma PartContains(text: string, part: string, i: nat, s: string)
    requires OccursAt(text, part, i) && Contains(part, s)
    ensures Contains(text, s)
  {
    var k :| OccursAt(part, s, k);
    forall x | 0 <= x < |s| ensures text[i + k..i + k + |s|][x] == s[x] {
      assert part[k..k + |s|][x] == part[k + x] && text[i..i + |part|][k + x] == text[i + k + x];
    }
    assert OccursAt(text, s, i + k);
  }

  // ---------------------------------------------------------------- every list

  ghost predicate Drawn(list: seq<string>, secrets: set<string>) {
    forall s | s in list :: s in secrets
  }

  /** None of the list is left in any string of the scrubbed value. */
  ghost predicate Scrubs(list: seq<string>, value: Json) {
    forall s | s in list && s != [] :: CleanOf(ScrubSecrets(value, list), s)
  }

  lemma {:induction false} TextKeepsClean(text: string, list: seq<string>, secrets: set<string>, s: string)
    requires Nonempty(list) && Drawn(list, secrets) && NoneBrings(secrets) && s in list
    ensures !Contains(ScrubText(text, list), s)
  {
    hide Brings, BringsIn, Contains, ReplaceAll;
    var n := |list| - 1;
    var before, q := ScrubText(text, list[..n]), list[n];
    if q != s {
      assert s in list[..n] by { var i :| 0 <= i <= n && list[i] == s; assert list[..n][i] == s; }
      TextKeepsClean(text, list[..n], secrets, s);
    }
    assert s != [] by { var i :| 0 <= i <= n && list[i] == s; }
    assert q in list;
    BringsIff(q, s);
    assert !Brings(q, s) && !BringsIn(before, q, s);
    NotBrought(before, q, s);
  }

  lemma NotBrought(text: string, q: string, s: string)
    requires q != [] && !BringsIn(text, q, s) && (q == s || !Contains(text, s))
    ensures !Contains(ReplaceAll(text, q), s)
  {
  }

  lemma {:induction false} Untouched(text: string, s: string)
    requires s != [] && !Contains(text, s)
    ensures ReplaceAll(text, s) == text
  {
    if text != [] {
      assert !OccursAt(text, s, 0);
      if Contains(text[1..], s) { ContainsLater(text, 1, s); }
      Untouched(text[1..], s);
    }
  }

  /** A text that brings `s` up, on a list of the two. */
  lemma ListThatFails(q: string, s: string, text: string) returns (list: seq<string>)
    requires q != [] && s != [] && BringsIn(text, q, s)
    ensures !Scrubs(list, Str(text)) && forall x | x in list :: x == q || x == s
  {
    hide Contains, ReplaceAll;
    if q == s {
      list := [s];
      OneText(text, s);
    } else {
      list := [s, q];
      TwoText(text, s, q);
      Untouched(text, s);
    }
    assert s in list;
  }

  lemma TwoText(text: string, s: string, q: string)
    requires q != [] && s != []
    ensures CleanOf(ScrubSecrets(Str(text), [s, q]), s) <==> !Contains(ReplaceAll(ReplaceAll(text, s), q), s)
  {
    hide Contains, ReplaceAll;
    assert [s, q][1..] == [q] && [q][1..] == [];
    assert Usable([q]) == [q] && Usable([s, q]) == [s] + [q] == [s, q];
    assert [s, q][..1] == [s] && [s][..0] == [];
    assert ScrubText(text, [s]) == ReplaceAll(text, s);
  }

  /** For any set of secrets: every list drawn from it, in every order, scrubs every nested
      value of all it lists, exactly when replacing none of them brings up one of them. */
  lemma ListsAreScrubbedIff(secrets: set<string>)
    ensures (forall list: seq<string>, value: Json | Drawn(list, secrets) :: Scrubs(list, value))
            <==> NoneBrings(secrets)
  {
    hide Scrubs, Brings;
    if NoneBrings(secrets) {
      forall list: seq<string>, value: Json | Drawn(list, secrets) ensures Scrubs(list, value) {
        ListScrubs(list, secrets, value);
      }
    } else {
      var q, s :| q in secrets && s in secrets && q != [] && s != [] && Brings(q, s);
      BringsIff(q, s);
      var text :| BringsIn(text, q, s);
      var list := ListThatFails(q, s, text);
      assert Drawn(list, secrets);
    }
  }

  lemma ListScrubs(list: seq<string>, secrets: set<string>, value: Json)
    requires Drawn(list, secrets) && NoneBrings(secrets)
    ensures Scrubs(list, value)
  {
    hide NoneBrings, CleanOf, Contains, ScrubText, ScrubRecursive;
    var usable := Usable(list);
    forall s | s in list && s != [] ensures CleanOf(ScrubSecrets(value, list), s) {
      forall text ensures !Contains(ScrubText(text, usable), s) { TextKeepsClean(text, usable, secrets, s); }
      RecursiveGone(value, usable, s);
    }
  }
}
