/**
 What scrubbing does besides removing secrets: each text is cut at the occurrences of a
 secret, from the left, and put together again with markers between the pieces; one
 secret after another; and nothing but texts changes.
 */
module RedactionMeaning {
  import opened DefinitionDiff
  import opened DefinitionEntries
  import opened JsonValue
  import opened Redaction
  import opened Wrappers

  /** The pieces, with `between` between any two. */
  function Glue(pieces: seq<string>, between: string): string
    requires pieces != []
  {
    if |pieces| == 1 then pieces[0] else pieces[0] + between + Glue(pieces[1..], between)
  }

  /** Cut from the left: no piece meets the secret before the cut, and the last not at all. */
  ghost predicate CutAt(pieces: seq<string>, secret: string) {
    && pieces != []
    && (forall i | 0 <= i < |pieces| - 1 :: FirstAt(pieces[i] + secret, secret, |pieces[i]|))
    && !Contains(pieces[|pieces| - 1], secret)
  }

  lemma GlueStep(piece: string, rest: seq<string>, between: string)
    requires rest != []
    ensures Glue([piece] + rest, between) == piece + between + Glue(rest, between)
  {
    assert ([piece] + rest)[1..] == rest;
  }

  lemma CutStep(piece: string, rest: seq<string>, secret: string)
    requires rest != []
    ensures CutAt([piece] + rest, secret) <==> FirstAt(piece + secret, secret, |piece|) && CutAt(rest, secret)
  {
    hide FirstAt, Contains;
    var pieces := [piece] + rest;
    assert forall i | 0 <= i < |rest| :: pieces[i + 1] == rest[i];
    if CutAt(pieces, secret) {
      assert FirstAt(pieces[0] + secret, secret, |pieces[0]|);
      forall i | 0 <= i < |rest| - 1 ensures FirstAt(rest[i] + secret, secret, |rest[i]|) {
        assert FirstAt(pieces[i + 1] + secret, secret, |pieces[i + 1]|);
      }
    }
  }

  lemma {:induction false} WithoutSecret(text: string, secret: string)
    requires secret != [] && !Contains(text, secret)
    ensures ReplaceAll(text, secret) == text
  {
    hide Contains;
    if text != [] {
      NotAt(text, secret, 0);
      if Contains(text[1..], secret) { OneLater(text, secret); }
      WithoutSecret(text[1..], secret);
    }
  }

  lemma NotAt(text: string, secret: string, at: int)
    requires !Contains(text, secret)
    ensures !OccursAt(text, secret, at)
  {
  }

  lemma OneLater(text: string, secret: string)
    requires text != [] && Contains(text[1..], secret)
    ensures Contains(text, secret)
  {
    var at :| OccursAt(text[1..], secret, at);
    OccursLater(text, secret, at);
  }

  /** A piece in front of the secret is copied, then the marker stands for the secret. */
  lemma {:induction false} CopiedToTheCut(piece: string, secret: string, rest: string)
    requires secret != [] && FirstAt(piece + secret, secret, |piece|)
    ensures ReplaceAll(piece + secret + rest, secret) == piece + "[REDACTED]" + ReplaceAll(rest, secret)
    decreases |piece|
  {
    hide ReplaceAll, FirstAt, OccursAt;
    var text := piece + secret + rest;
    if piece == [] {
      StartsWith(text, secret, rest);
      MarkOne(text, secret);
    } else {
      FirstWithin(piece + secret, text, secret, |piece|);
      FirstInTail(piece + secret, secret, |piece|);
      assert (piece + secret)[1..] == piece[1..] + secret;
      assert text[1..] == piece[1..] + secret + rest;
      NotFirst(text, secret, |piece|);
      CopyOne(text, secret);
      CopiedToTheCut(piece[1..], secret, rest);
      CopyJoins(piece, ReplaceAll(rest, secret));
    }
  }

  lemma CopyJoins(piece: string, replaced: string)
    requires piece != []
    ensures [piece[0]] + (piece[1..] + "[REDACTED]" + replaced) == piece + "[REDACTED]" + replaced
  {
    assert piece == [piece[0]] + piece[1..];
  }

  lemma StartsWith(text: string, secret: string, rest: string)
    requires text == [] + secret + rest
    ensures text[|secret|..] == rest && OccursAt(text, secret, 0)
  {
  }

  lemma NotFirst(text: string, secret: string, m: nat)
    requires FirstAt(text, secret, m) && m > 0
    ensures !OccursAt(text, secret, 0)
  {
  }

  /** However a text is cut like this, replacing puts markers at the cuts. */
  lemma {:induction false} CutsAreMarked(pieces: seq<string>, secret: string)
    requires secret != [] && CutAt(pieces, secret)
    ensures ReplaceAll(Glue(pieces, secret), secret) == Glue(pieces, "[REDACTED]")
    decreases |pieces|
  {
    hide FirstAt, Contains, CutAt, ReplaceAll;
    LastPiece(pieces, secret);
    if |pieces| == 1 {
      WithoutSecret(pieces[0], secret);
    } else {
      assert pieces == [pieces[0]] + pieces[1..];
      CutStep(pieces[0], pieces[1..], secret);
      CutsAreMarked(pieces[1..], secret);
      CopiedToTheCut(pieces[0], secret, Glue(pieces[1..], secret));
    }
  }

  lemma LastPiece(pieces: seq<string>, secret: string)
    requires CutAt(pieces, secret)
    ensures pieces != [] && !Contains(pieces[|pieces| - 1], secret)
  {
  }

  /** And every text can be. */
  lemma {:induction false} EveryTextIsCut(text: string, secret: string) returns (pieces: seq<string>)
    requires secret != []
    ensures CutAt(pieces, secret) && Glue(pieces, secret) == text
    decreases |text|
  {
    hide FirstAt, CutAt, Contains;
    if Contains(text, secret) {
      var m := FirstOccurrence(text, secret);
      var rest := EveryTextIsCut(text[m + |secret|..], secret);
      FirstOfPrefix(text, secret, m);
      LastPiece(rest, secret);
      CutStep(text[..m], rest, secret);
      GlueStep(text[..m], rest, secret);
      pieces := [text[..m]] + rest;
      assert text == text[..m] + secret + text[m + |secret|..];
    } else {
      pieces := [text];
      assert CutAt(pieces, secret) by { OnePiece(text, secret); }
    }
  }

  lemma OnePiece(text: string, secret: string)
    requires !Contains(text, secret)
    ensures CutAt([text], secret)
  {
  }

  lemma FirstOccurrence(text: string, secret: string) returns (m: nat)
    requires Contains(text, secret)
    ensures FirstAt(text, secret, m) && m + |secret| <= |text| && text[m..m + |secret|] == secret
  {
    var at :| OccursAt(text, secret, at);
    m := 0;
    while !OccursAt(text, secret, m)
      invariant m <= at && forall j | 0 <= j < m :: !OccursAt(text, secret, j)
      decreases at - m
    {
      m := m + 1;
    }
  }

  lemma FirstOfPrefix(text: string, secret: string, m: nat)
    requires FirstAt(text, secret, m) && m + |secret| <= |text| && text[m..m + |secret|] == secret
    ensures FirstAt(text[..m] + secret, secret, |text[..m]|)
  {
    var head := text[..m] + secret;
    assert head == text[..m + |secret|];
    forall j | 0 <= j < m ensures !OccursAt(head, secret, j) {
      assert !OccursAt(text, secret, j);
      if j + |secret| <= |head| { assert head[j..j + |secret|] == text[j..j + |secret|]; }
    }
  }

  /** Replacing is exactly that: cut at the occurrences from the left, and glue with the
      marker. */
  lemma ReplaceAllIff(text: string, secret: string, result: string)
    requires secret != []
    ensures result == ReplaceAll(text, secret)
            <==> exists pieces :: CutAt(pieces, secret) && Glue(pieces, secret) == text
                                  && Glue(pieces, "[REDACTED]") == result
  {
    hide FirstAt, Contains, Glue, ReplaceAll;
    var cut := EveryTextIsCut(text, secret);
    CutsAreMarked(cut, secret);
    if pieces :| CutAt(pieces, secret) && Glue(pieces, secret) == text && Glue(pieces, "[REDACTED]") == result {
      CutsAreMarked(pieces, secret);
    }
  }

  // ---------------------------------------------------------------- several, and nested

  /** The first listed is replaced first. */
  lemma {:induction false} FirstListedFirst(text: string, secret: string, rest: seq<string>)
    requires secret != [] && Nonempty(rest)
    ensures Nonempty([secret] + rest)
    ensures ScrubText(text, [secret] + rest) == ScrubText(ReplaceAll(text, secret), rest)
  {
    var all := [secret] + rest;
    assert forall i | 0 <= i < |rest| :: all[i + 1] == rest[i];
    if rest == [] {
      assert all[..|all| - 1] == [];
    } else {
      var n := |rest| - 1;
      assert all[..|all| - 1] == [secret] + rest[..n];
      FirstListedFirst(text, secret, rest[..n]);
    }
  }

  /** Nested values keep every path, and at its end a text scrubbed or anything else as it
      was. */
  lemma {:induction false} ScrubbedAt(value: Json, secrets: seq<string>, path: Path)
    requires Nonempty(secrets)
    ensures var at, after := ValueAt(value, path), ValueAt(ScrubRecursive(value, secrets), path);
            && (at.None? <==> after.None?)
            && (at.Some? ==>
                  match at.value
                  case Str(text) => after.value == Str(ScrubText(text, secrets))
                  case Obj(fields) => after.value.Obj? && after.value.fields.Keys == fields.Keys
                  case Arr(items) => after.value.Arr? && |after.value.items| == |items|
                  case _ => after.value == at.value)
    decreases |path|
  {
    if path != [] {
      if value.Obj? && path[0].Key? && path[0].name in value.fields {
        ScrubbedAt(value.fields[path[0].name], secrets, path[1..]);
      } else if value.Arr? && path[0].Index? && path[0].at < |value.items| {
        ScrubbedAt(value.items[path[0].at], secrets, path[1..]);
      }
    }
  }

  /** The whole function: the empty strings among the secrets are left out, in order. */
  lemma ScrubbedEverywhere(value: Json, secrets: seq<string>, path: Path)
    ensures var at, after := ValueAt(value, path), ValueAt(ScrubSecrets(value, secrets), path);
            && (at.None? <==> after.None?)
            && (at.Some? && at.value.Str? ==> after.value == Str(ScrubText(at.value.text, Usable(secrets))))
            && (at.Some? && !at.value.Str? && !at.value.Obj? && !at.value.Arr? ==> after == at)
  {
    if Usable(secrets) != [] { ScrubbedAt(value, Usable(secrets), path); }
  }
}
