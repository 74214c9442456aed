/**
 Scrubbing known secrets out of a result: whatever their order and overlaps, none
 survives in any text of the result, and the result keeps its shape.
 */
module Redaction {
  import opened JsonValue

  const REDACTED_MARKER: string := "[REDACTED]"

  predicate OccursAt(text: string, needle: string, at: int) {
    0 <= at && at + |needle| <= |text| && text[at..at + |needle|] == needle
  }

  ghost predicate Contains(text: string, needle: string) {
    exists at :: OccursAt(text, needle, at)
  }

  /** `str.replace`: from the left, without overlaps. */
  function ReplaceAll(text: string, needle: string): string
    requires needle != []
    decreases |text|
  {
    if text == [] then []
    else if OccursAt(text, needle, 0) then REDACTED_MARKER + ReplaceAll(text[|needle|..], needle)
    else [text[0]] + ReplaceAll(text[1..], needle)
  }

  predicate Nonempty(secrets: seq<string>) {
    forall i | 0 <= i < |secrets| :: secrets[i] != []
  }

  /** One secret after another, in the order they are listed. */
  function ScrubText(text: string, secrets: seq<string>): string
    requires Nonempty(secrets)
  {
    if secrets == [] then text
    else ReplaceAll(ScrubText(text, secrets[..|secrets| - 1]), secrets[|secrets| - 1])
  }

  method ReplaceSecrets(text: string, secrets: seq<string>) returns (scrubbed: string)
    requires Nonempty(secrets)
    ensures scrubbed == ScrubText(text, secrets)
  {
    scrubbed := text;
    for i := 0 to |secrets|
      invariant scrubbed == ScrubText(text, secrets[..i])
    {
      assert secrets[..i + 1][..i] == secrets[..i];
      scrubbed := ReplaceAll(scrubbed, secrets[i]);
    }
    assert secrets[..|secrets|] == secrets;
  }

  function ScrubRecursive(value: Json, secrets: seq<string>): Json
    requires Nonempty(secrets)
  {
    match value
    case Str(text) => Str(ScrubText(text, secrets))
    case Obj(fields) => Obj(map k | k in fields :: ScrubRecursive(fields[k], secrets))
    case Arr(items) => Arr(seq(|items|, i requires 0 <= i < |items| => ScrubRecursive(items[i], secrets)))
    case _ => value
  }

  /** The secrets that are not empty strings. */
  function Usable(secrets: seq<string>): (usable: seq<string>)
    ensures Nonempty(usable)
    ensures forall s :: s in usable <==> s in secrets && s != []
  {
    if secrets == [] then []
    else (if secrets[0] == [] then [] else [secrets[0]]) + Usable(secrets[1..])
  }

  function ScrubSecrets(value: Json, secrets: seq<string>): Json {
    if Usable(secrets) == [] then value else ScrubRecursive(value, Usable(secrets))
  }

  // ---------------------------------------------------------------- no overlap with the marker

  /** `needle`, placed `d` characters into the marker, agrees with it where they meet. */
  predicate Fits(needle: string, d: int) {
    forall i | 0 <= i < |needle| && 0 <= d + i < |REDACTED_MARKER| :: needle[i] == REDACTED_MARKER[d + i]
  }

  /** No occurrence of `needle` can touch a marker. */
  ghost predicate NeverMeetsMarker(needle: string) {
    forall d | -|needle| < d < |REDACTED_MARKER| :: !Fits(needle, d)
  }

  /** Touching the marker means sharing a bracket with it, or lying within its word. */
  lemma FitMeans(needle: string, d: int)
    requires needle != [] && -|needle| < d < |REDACTED_MARKER| && Fits(needle, d)
    ensures '[' in needle || ']' in needle || Contains("REDACTED", needle)
  {
    if d <= 0 {
      assert needle[-d] == REDACTED_MARKER[0];
    } else if d + |needle| >= |REDACTED_MARKER| {
      assert needle[9 - d] == REDACTED_MARKER[9];
    } else {
      assert REDACTED_MARKER[1..9] == "REDACTED";
      assert REDACTED_MARKER[1..9][d - 1..d - 1 + |needle|] == needle;
      assert OccursAt("REDACTED", needle, d - 1);
    }
  }

  /** Secrets without brackets that are no part of the word in the marker never touch
      one. */
  lemma PlainSecretsNeverMeetMarker(needle: string)
    requires needle != [] && '[' !in needle && ']' !in needle && !Contains("REDACTED", needle)
    ensures NeverMeetsMarker(needle)
  {
    hide Contains;
    forall d | -|needle| < d < |REDACTED_MARKER| ensures !Fits(needle, d) {
      if Fits(needle, d) { FitMeans(needle, d); }
    }
  }

  /** The first occurrence of `s` in `text` is at `m`. */
  ghost predicate FirstAt(text: string, s: string, m: int) {
    OccursAt(text, s, m) && forall j | 0 <= j < m :: !OccursAt(text, s, j)
  }

  lemma OccursLater(text: string, s: string, j: nat)
    requires text != []
    ensures OccursAt(text[1..], s, j) <==> OccursAt(text, s, j + 1)
  {
    if j + 1 + |s| <= |text| { assert text[1..][j..j + |s|] == text[j + 1..j + 1 + |s|]; }
  }

  /** A replaced text begins with the text itself, up to where the first marker stands
      for the first match. */
  lemma {:induction false} KeptUpToMarker(text: string, needle: string, k: nat) returns (m: nat)
    requires needle != [] && k <= |ReplaceAll(text, needle)|
    ensures m <= k && m <= |text| && text[..m] == ReplaceAll(text, needle)[..m]
    ensures m < k ==> OccursAt(ReplaceAll(text, needle), REDACTED_MARKER, m) && FirstAt(text, needle, m)
    decreases |text|
  {
    hide FirstAt;
    var r := ReplaceAll(text, needle);
    if k == 0 {
      m := 0;
    } else if OccursAt(text, needle, 0) {
      m := 0;
      FirstNow(text, needle);
    } else {
      var rest := KeptUpToMarker(text[1..], needle, k - 1);
      m := rest + 1;
      var r1 := ReplaceAll(text[1..], needle);
      assert r == [text[0]] + r1;
      assert text[..m] == [text[0]] + text[1..][..rest];
      if m < k {
        OccursLater(r, REDACTED_MARKER, rest);
        FirstOneLater(text, needle, rest);
      }
    }
  }

  lemma FirstNow(text: string, s: string)
    requires OccursAt(text, s, 0)
    ensures FirstAt(text, s, 0)
  {
  }

  lemma FirstOneLater(text: string, s: string, m: nat)
    requires text != [] && !OccursAt(text, s, 0) && FirstAt(text[1..], s, m)
    ensures FirstAt(text, s, m + 1)
  {
    OccursLater(text, s, m);
    forall j | 0 <= j < m + 1 ensures !OccursAt(text, s, j) {
      if j > 0 { OccursLater(text, s, j - 1); }
    }
  }

  lemma MeetsAtMarker(text: string, s: string, at: int, m: int)
    requires OccursAt(text, s, at) && OccursAt(text, REDACTED_MARKER, m)
    requires at < m + |REDACTED_MARKER| && m < at + |s|
    ensures !NeverMeetsMarker(s)
  {
    forall i | 0 <= i < |s| && 0 <= at - m + i < |REDACTED_MARKER| ensures s[i] == REDACTED_MARKER[at - m + i] {
      assert text[at..at + |s|][i] == text[at + i];
      assert text[m..m + |REDACTED_MARKER|][at - m + i] == text[at + i];
    }
    assert Fits(s, at - m);
  }

  /** Replacing one secret introduces no occurrence of another; and of itself it leaves
      none. */
  lemma {:induction false} ReplaceIntroducesNothing(text: string, needle: string, s: string, at: int)
    requires needle != [] && s != [] && NeverMeetsMarker(s)
    requires OccursAt(ReplaceAll(text, needle), s, at)
    ensures Contains(text, s) && s != needle
    decreases |text|
  {
    hide NeverMeetsMarker;
    var r := ReplaceAll(text, needle);
    if OccursAt(text, needle, 0) {
      var r1 := ReplaceAll(text[|needle|..], needle);
      assert r == REDACTED_MARKER + r1;
      assert OccursAt(r, REDACTED_MARKER, 0);
      if at < |REDACTED_MARKER| { MeetsAtMarker(r, s, at, 0); }
      assert r[at..at + |s|] == r1[at - |REDACTED_MARKER|..at - |REDACTED_MARKER| + |s|];
      ReplaceIntroducesNothing(text[|needle|..], needle, s, at - |REDACTED_MARKER|);
      ContainsLater(text, |needle|, s);
    } else if at > 0 {
      var r1 := ReplaceAll(text[1..], needle);
      assert r == [text[0]] + r1;
      assert r[at..at + |s|] == r1[at - 1..at - 1 + |s|];
      ReplaceIntroducesNothing(text[1..], needle, s, at - 1);
      ContainsLater(text, 1, s);
    } else {
      var m := KeptUpToMarker(text, needle, |s|);
      if m < |s| { MeetsAtMarker(r, s, 0, m); }
      assert OccursAt(text, s, 0);
    }
  }

  lemma ContainsLater(text: string, k: nat, s: string)
    requires k <= |text| && Contains(text[k..], s)
    ensures Contains(text, s)
  {
    var at :| OccursAt(text[k..], s, at);
    assert text[k + at..k + at + |s|] == text[k..][at..at + |s|];
    assert OccursAt(text, s, k + at);
  }

  // ---------------------------------------------------------------- the guarantee

  ghost predicate Safe(secrets: seq<string>) {
    forall s | s in secrets :: s != [] ==> NeverMeetsMarker(s)
  }

  /** After all replacements, in whatever order the secrets are listed, none is left. */
  lemma {:induction false} TextIsClean(text: string, secrets: seq<string>, s: string)
    requires Nonempty(secrets) && s in secrets && NeverMeetsMarker(s)
    ensures !Contains(ScrubText(text, secrets), s)
  {
    hide NeverMeetsMarker;
    var n := |secrets| - 1;
    var before := ScrubText(text, secrets[..n]);
    if at :| OccursAt(ReplaceAll(before, secrets[n]), s, at) {
      var i :| 0 <= i <= n && secrets[i] == s;
      ReplaceIntroducesNothing(before, secrets[n], s, at);
      assert secrets[..n][i] == s;
      TextIsClean(text, secrets[..n], s);
    }
  }

  /** No string leaf contains `s`. */
  ghost predicate CleanOf(value: Json, s: string) {
    match value
    case Str(text) => !Contains(text, s)
    case Obj(fields) => forall k | k in fields :: CleanOf(fields[k], s)
    case Arr(items) => forall i | 0 <= i < |items| :: CleanOf(items[i], s)
    case _ => true
  }

  /** Same structure, same keys, same values outside strings. */
  predicate SameShape(a: Json, b: Json) {
    match a
    case Str(_) => b.Str?
    case Obj(fields) => b.Obj? && b.fields.Keys == fields.Keys && forall k | k in fields ::
        SameShape(fields[k], b.fields[k])
    case Arr(items) => b.Arr? && |b.items| == |items| && forall i | 0 <= i < |items| :: SameShape(items[i], b.items[i])
    case _ => a == b
  }

  /** What never survives in a text survives in no nested value. */
  lemma {:induction false} RecursiveGone(value: Json, secrets: seq<string>, s: string)
    requires Nonempty(secrets) && forall text :: !Contains(ScrubText(text, secrets), s)
    ensures CleanOf(ScrubRecursive(value, secrets), s)
  {
    hide Contains;
    match value
    case Str(text) => assert !Contains(ScrubText(text, secrets), s);
    case Obj(fields) =>
      forall k | k in fields ensures CleanOf(ScrubRecursive(value, secrets).fields[k], s) {
        RecursiveGone(fields[k], secrets, s);
      }
    case Arr(items) =>
      forall i | 0 <= i < |items| ensures CleanOf(ScrubRecursive(value, secrets).items[i], s) {
        RecursiveGone(items[i], secrets, s);
      }
    case _ =>
  }

  lemma RecursiveIsClean(value: Json, secrets: seq<string>, s: string)
    requires Nonempty(secrets) && s in secrets && NeverMeetsMarker(s)
    ensures CleanOf(ScrubRecursive(value, secrets), s)
  {
    hide NeverMeetsMarker, Contains, CleanOf;
    forall text ensures !Contains(ScrubText(text, secrets), s) { TextIsClean(text, secrets, s); }
    RecursiveGone(value, secrets, s);
  }

  lemma {:induction false} RecursiveKeepsShape(value: Json, secrets: seq<string>)
    requires Nonempty(secrets)
    ensures SameShape(value, ScrubRecursive(value, secrets))
  {
    match value
    case Obj(fields) =>
      forall k | k in fields ensures SameShape(fields[k], ScrubRecursive(value, secrets).fields[k]) {
        RecursiveKeepsShape(fields[k], secrets);
      }
    case Arr(items) =>
      forall i | 0 <= i < |items| ensures SameShape(items[i], ScrubRecursive(value, secrets).items[i]) {
        RecursiveKeepsShape(items[i], secrets);
      }
    case _ =>
  }

  lemma {:induction false} ShapeOfItself(value: Json)
    ensures SameShape(value, value)
  {
    match value
    case Obj(fields) => forall k | k in fields ensures SameShape(fields[k], fields[k]) { ShapeOfItself(fields[k]); }
    case Arr(items) => forall i | 0 <= i < |items| ensures SameShape(items[i], items[i]) { ShapeOfItself(items[i]); }
    case _ =>
  }

  /** For any nested value and any list of secrets none of which can touch the marker,
      no text of the scrubbed value contains any of them, and the shape is unchanged. */
  lemma ScrubbedIsClean(value: Json, secrets: seq<string>)
    requires Safe(secrets)
    ensures forall s | s in secrets && s != [] :: CleanOf(ScrubSecrets(value, secrets), s)
    ensures SameShape(value, ScrubSecrets(value, secrets))
  {
    hide NeverMeetsMarker;
    forall s | s in secrets && s != [] ensures CleanOf(ScrubSecrets(value, secrets), s) {
      RecursiveIsClean(value, Usable(secrets), s);
    }
    if Usable(secrets) == [] { ShapeOfItself(value); } else { RecursiveKeepsShape(value, Usable(secrets)); }
  }

  /** The same, in the terms an operator can check: no brackets in any secret, and none
      a part of the marker's word. */
  lemma PlainSecretsAreScrubbed(value: Json, secrets: seq<string>)
    requires forall s | s in secrets && s != [] :: '[' !in s && ']' !in s && !Contains("REDACTED", s)
    ensures forall s | s in secrets && s != [] :: CleanOf(ScrubSecrets(value, secrets), s)
    ensures SameShape(value, ScrubSecrets(value, secrets))
  {
    hide Contains, CleanOf, ScrubSecrets;
    forall s | s in secrets && s != [] ensures NeverMeetsMarker(s) { PlainSecretsNeverMeetMarker(s); }
    ScrubbedIsClean(value, secrets);
  }

  // ---------------------------------------------------------------- when a secret comes back

  /** The marker can stand where it completes `s`: `s` begins inside a marker, or a
      marker begins inside `s` and the text before it is not itself replaced. */
  ghost predicate Completes(s: string, d: int) {
    && -|s| < d < |REDACTED_MARKER|
    && Fits(s, d)
    && (d < 0 ==> FirstAt(s[..-d] + s, s, -d))
  }

  ghost predicate MayComeBack(s: string) {
    exists d :: Completes(s, d)
  }

  lemma {:induction false} ShortTextStays(text: string, s: string)
    requires s != [] && |text| < |s|
    ensures ReplaceAll(text, s) == text
  {
    if text != [] { ShortTextStays(text[1..], s); }
  }

  /** The first occurrence does not depend on what follows it. */
  lemma FirstWithin(text: string, longer: string, s: string, m: nat)
    requires FirstAt(text, s, m) && text <= longer
    ensures FirstAt(longer, s, m)
  {
    assert longer[m..m + |s|] == text[m..m + |s|];
    forall j | 0 <= j < m ensures !OccursAt(longer, s, j) {
      assert !OccursAt(text, s, j) && longer[j..j + |s|] == text[j..j + |s|];
    }
  }

  lemma FirstInTail(text: string, s: string, m: nat)
    requires FirstAt(text, s, m) && m > 0 && text != []
    ensures FirstAt(text[1..], s, m - 1) && !OccursAt(text, s, 0)
  {
    OccursLater(text, s, m - 1);
    forall j | 0 <= j < m - 1 ensures !OccursAt(text[1..], s, j) { OccursLater(text, s, j); }
  }

  /** Up to its first match a text is copied; then come the marker and the rest. */
  lemma {:induction false} FirstMatch(text: string, s: string, m: nat)
    requires s != [] && FirstAt(text, s, m) && m + |s| <= |text|
    ensures ReplaceAll(text, s) == text[..m] + REDACTED_MARKER + ReplaceAll(text[m + |s|..], s)
    decreases m
  {
    hide FirstAt, OccursAt, ReplaceAll;
    var rest := ReplaceAll(text[m + |s|..], s);
    if m == 0 {
      MarkOne(text, s);
      assert text[..0] + REDACTED_MARKER == REDACTED_MARKER;
    } else {
      FirstInTail(text, s, m);
      FirstMatch(text[1..], s, m - 1);
      CopyOne(text, s);
      assert text[1..][m - 1 + |s|..] == text[m + |s|..];
      assert [text[0]] + (text[1..][..m - 1] + REDACTED_MARKER + rest)
          == ([text[0]] + text[1..][..m - 1]) + REDACTED_MARKER + rest;
      assert text[..m] == [text[0]] + text[1..][..m - 1];
    }
  }

  lemma MarkOne(text: string, s: string)
    requires s != [] && FirstAt(text, s, 0)
    ensures |s| <= |text| && ReplaceAll(text, s) == REDACTED_MARKER + ReplaceAll(text[|s|..], s)
  {
  }

  lemma CopyOne(text: string, s: string)
    requires s != [] && text != [] && !OccursAt(text, s, 0)
    ensures ReplaceAll(text, s) == [text[0]] + ReplaceAll(text[1..], s)
  {
  }

  /** The pieces of the secret on both sides of the marker. */
  function Before(s: string, d: int): string
    requires -|s| < d
  {
    if d < 0 then s[..-d] else []
  }

  function Beyond(s: string, d: int): string
    requires d < |REDACTED_MARKER|
  {
    if |s| + d > |REDACTED_MARKER| then s[|REDACTED_MARKER| - d..] else []
  }

  lemma CompletedChar(s: string, d: int, i: nat)
    requires -|s| < d < |REDACTED_MARKER| && Fits(s, d) && i < |s|
    ensures var r := Before(s, d) + REDACTED_MARKER + Beyond(s, d);
            var at := if d < 0 then 0 else d;
            at + i < |r| && r[at + i] == s[i]
  {
    var n := |REDACTED_MARKER|;
    if d + i < 0 {
      assert Before(s, d)[i] == s[i];
    } else if d + i < n {
      assert s[i] == REDACTED_MARKER[d + i];
    } else {
      assert Beyond(s, d)[d + i - n] == s[i];
    }
  }

  lemma CompletedThere(s: string, d: int)
    requires -|s| < d < |REDACTED_MARKER| && Fits(s, d)
    ensures OccursAt(Before(s, d) + REDACTED_MARKER + Beyond(s, d), s, if d < 0 then 0 else d)
  {
    var r := Before(s, d) + REDACTED_MARKER + Beyond(s, d);
    var at := if d < 0 then 0 else d;
    assert |r| >= at + |s|;
    forall i | 0 <= i < |s| ensures r[at + i] == s[i] { CompletedChar(s, d, i); }
    assert r[at..at + |s|] == s;
  }

  /** Where the marker can complete it, some text brings the secret back. */
  lemma ComesBack(s: string, d: int) returns (text: string)
    requires s != [] && Completes(s, d)
    ensures Contains(ReplaceAll(text, s), s)
  {
    hide Fits, OccursAt, ReplaceAll;
    var before, after := Before(s, d), Beyond(s, d);
    text := before + s + after;
    var m := |before|;
    CompletedThere(s, d);
    if d >= 0 { WholeText(s, s); FirstNow(s, s); }
    assert d >= 0 ==> before + s == s;
    FirstWithin(before + s, text, s, m);
    FirstMatch(text, s, m);
    assert text[m + |s|..] == after && text[..m] == before;
    ShortTextStays(after, s);
  }

  lemma WholeText(text: string, s: string)
    requires |s| <= |text| && text[..|s|] == s
    ensures OccursAt(text, s, 0)
  {
  }

  /** And if any text does, the marker can complete it. */
  lemma {:induction false} CameBack(text: string, s: string, at: int)
    requires s != [] && OccursAt(ReplaceAll(text, s), s, at)
    ensures MayComeBack(s)
    decreases |text|
  {
    hide MayComeBack, Fits, FirstAt;
    var r := ReplaceAll(text, s);
    if OccursAt(text, s, 0) {
      var r1 := ReplaceAll(text[|s|..], s);
      assert r == REDACTED_MARKER + r1;
      if at < |REDACTED_MARKER| {
        FitsWhere(r, s, at, 0);
        CompletesIf(s, at);
      } else {
        assert r[at..at + |s|] == r1[at - |REDACTED_MARKER|..at - |REDACTED_MARKER| + |s|];
        CameBack(text[|s|..], s, at - |REDACTED_MARKER|);
      }
    } else if at > 0 {
      CopyOne(text, s);
      OccursLater(r, s, at - 1);
      CameBack(text[1..], s, at - 1);
    } else {
      CameBackAtStart(text, s);
    }
  }

  lemma CameBackAtStart(text: string, s: string)
    requires s != [] && OccursAt(ReplaceAll(text, s), s, 0) && !OccursAt(text, s, 0)
    ensures MayComeBack(s)
  {
    hide MayComeBack, Fits, ReplaceAll;
    var r := ReplaceAll(text, s);
    var m := KeptUpToMarker(text, s, |s|);
    assert r[..|s|] == s;
    assert m < |s| by { if m == |s| { WholeText(text, s); } }
    FitsWhere(r, s, 0, m);
    assert text[..m] == s[..m];
    KeptPrefixIsTheSecret(text, s, m);
    CompletesIf(s, -m);
  }

  lemma CompletesIf(s: string, d: int)
    requires Completes(s, d)
    ensures MayComeBack(s)
  {
  }

  lemma FitsWhere(text: string, s: string, at: int, m: int)
    requires OccursAt(text, s, at) && OccursAt(text, REDACTED_MARKER, m)
    ensures Fits(s, at - m)
  {
    forall i | 0 <= i < |s| && 0 <= at - m + i < |REDACTED_MARKER| ensures s[i] == REDACTED_MARKER[at - m + i] {
      assert text[at..at + |s|][i] == text[at + i];
      assert text[m..m + |REDACTED_MARKER|][at - m + i] == text[at + i];
    }
  }

  /** What precedes the first match, when it is the start of the secret, is followed by
      the secret and holds no earlier one. */
  lemma KeptPrefixIsTheSecret(text: string, s: string, m: nat)
    requires m < |s| && FirstAt(text, s, m) && m <= |text| && text[..m] == s[..m]
    ensures FirstAt(s[..m] + s, s, m)
  {
    var start := s[..m] + s;
    assert start == text[..m + |s|] by { assert text[..m + |s|] == text[..m] + text[m..m + |s|]; }
    forall j | 0 <= j < m ensures !OccursAt(start, s, j) {
      assert !OccursAt(text, s, j) && start[j..j + |s|] == text[j..j + |s|];
    }
  }

  /** Some text brings a secret back exactly when the marker can complete it. */
  lemma ComesBackIff(s: string)
    requires s != []
    ensures (exists text :: Contains(ReplaceAll(text, s), s)) <==> MayComeBack(s)
  {
    hide Fits;
    if text :| Contains(ReplaceAll(text, s), s) {
      var at :| OccursAt(ReplaceAll(text, s), s, at);
      CameBack(text, s, at);
    }
    if MayComeBack(s) {
      var d :| Completes(s, d);
      var text := ComesBack(s, d);
    }
  }

  /** The guarantee for one secret, over all nested values, with its exact condition. */
  lemma OneSecretIsScrubbedIff(s: string)
    requires s != []
    ensures (forall value: Json :: CleanOf(ScrubSecrets(value, [s]), s)) <==> !MayComeBack(s)
  {
    hide Fits, MayComeBack, Contains, ReplaceAll, CleanOf, ScrubSecrets;
    ComesBackIff(s);
    if MayComeBack(s) {
      var text :| Contains(ReplaceAll(text, s), s);
      OneText(text, s);
    } else {
      forall value: Json ensures CleanOf(ScrubSecrets(value, [s]), s) { OneSecretGone(value, s); }
    }
  }

  lemma OnlySecret(s: string)
    requires s != []
    ensures Usable([s]) == [s] && forall text :: ScrubText(text, [s]) == ReplaceAll(text, s)
  {
    assert [s][1..] == [] && [s][..0] == [];
    assert forall text :: ScrubText(text, []) == text;
  }

  lemma OneText(text: string, s: string)
    requires s != []
    ensures CleanOf(ScrubSecrets(Str(text), [s]), s) <==> !Contains(ReplaceAll(text, s), s)
  {
    hide Contains, ReplaceAll;
    OnlySecret(s);
  }

  lemma OneSecretGone(value: Json, s: string)
    requires s != [] && forall text :: !Contains(ReplaceAll(text, s), s)
    ensures CleanOf(ScrubSecrets(value, [s]), s)
  {
    hide Contains, CleanOf, ReplaceAll;
    OnlySecret(s);
    forall text ensures !Contains(ScrubText(text, [s]), s) { assert ScrubText(text, [s]) == ReplaceAll(text, s); }
    RecursiveGone(value, [s], s);
  }

  /** Why the condition: a secret that can touch the marker may come back. */
  lemma BracketedSecretComesBack()
    ensures ScrubSecrets(Str("aa["), ["a["]) == Str("a[REDACTED]")
    ensures !CleanOf(ScrubSecrets(Str("aa["), ["a["]), "a[")
  {
    assert Usable(["a["]) == ["a["] by { assert ["a["][1..] == []; }
    var text := "aa[";
    assert text[0..2] == "aa" && text[1..] == "a[" && "a["[2..] == [];
    assert ReplaceAll([], "a[") == [];
    assert OccursAt("a[", "a[", 0) && ReplaceAll("a[", "a[") == "[REDACTED]";
    assert !OccursAt(text, "a[", 0);
    assert ReplaceAll(text, "a[") == "a[REDACTED]";
    assert ["a["][..0] == [];
    assert ScrubText(text, ["a["]) == "a[REDACTED]";
    assert OccursAt("a[REDACTED]", "a[", 0);
  }
}
