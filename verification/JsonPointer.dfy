/** The JSON Pointer printer, and its inverse as RFC 6901 defines it. */
module JsonPointer {
  import opened Text
  import opened Wrappers

  // ---------------------------------------------------------------- printing

  /** The two replacements, tilde first. */
  function Escape(segment: string): string {
    ReplaceChar(ReplaceChar(segment, '~', "~0"), '/', "~1")
  }

  function Join(parts: seq<string>): string {
    if parts == [] then []
    else if |parts| == 1 then parts[0]
    else parts[0] + "/" + Join(parts[1..])
  }

  function Escaped(segments: seq<string>): (parts: seq<string>)
    ensures |parts| == |segments|
  {
    seq(|segments|, i requires 0 <= i < |segments| => Escape(segments[i]))
  }

  function Print(segments: seq<string>): string {
    if segments == [] then [] else "/" + Join(Escaped(segments))
  }

  method PrintPointer(segments: seq<string>) returns (pointer: string)
    ensures pointer == Print(segments)
  {
    if segments == [] { return []; }
    var parts: seq<string> := [];
    for i := 0 to |segments|
      invariant parts == Escaped(segments[..i])
    {
      parts := parts + [Escape(segments[i])];
    }
    assert segments[..|segments|] == segments;
    return "/" + Join(parts);
  }

  // ---------------------------------------------------------------- reading

  /** Split on `/`. */
  function Split(s: string): (parts: seq<string>)
    ensures parts != []
  {
    if s == [] then [[]]
    else
      var rest := Split(s[1..]);
      if s[0] == '/' then [[]] + rest else [[s[0]] + rest[0]] + rest[1..]
  }

  /** `str.replace` of a two-character text by one character. */
  function ReplacePair(s: string, a: char, b: char, with: char): string
    decreases |s|
  {
    if |s| < 2 then s
    else if s[0] == a && s[1] == b then [with] + ReplacePair(s[2..], a, b, with)
    else [s[0]] + ReplacePair(s[1..], a, b, with)
  }

  /** Section 4 of RFC 6901: `~1` first, then `~0`. */
  function Unescape(part: string): string {
    ReplacePair(ReplacePair(part, '~', '1', '/'), '~', '0', '~')
  }

  /** Sections 3 and 4 of RFC 6901: empty, or a `/` before every segment. */
  function Parse(pointer: string): Option<seq<string>> {
    if pointer == [] then Some([])
    else if pointer[0] != '/' then None
    else
      var parts := Split(pointer[1..]);
      Some(seq(|parts|, i requires 0 <= i < |parts| => Unescape(parts[i])))
  }

  // ---------------------------------------------------------------- round trip

  function EscapeChar(c: char): string {
    if c == '~' then "~0" else if c == '/' then "~1" else [c]
  }

  lemma {:induction false} EscapeFirst(s: string)
    requires s != []
    ensures Escape(s) == EscapeChar(s[0]) + Escape(s[1..])
  {
    var tail := ReplaceChar(s[1..], '~', "~0");
    var head := if s[0] == '~' then "~0" else [s[0]];
    assert ReplaceChar(s, '~', "~0") == head + tail;
    ReplaceConcat(head, tail, '/', "~1");
    assert ReplaceChar(head, '/', "~1") == EscapeChar(s[0]) by {
      assert head[1..] == if s[0] == '~' then "0" else [];
      assert "0"[1..] == [] && ReplaceChar([], '/', "~1") == [];
      if s[0] == '~' { assert ReplaceChar("0", '/', "~1") == "0"; }
    }
  }

  lemma {:induction false} EscapeHasNoSlash(s: string)
    ensures '/' !in Escape(s)
  {
    if s != [] {
      EscapeFirst(s);
      EscapeHasNoSlash(s[1..]);
    }
  }

  /** Undoing `~1` leaves only the tildes escaped. */
  lemma {:induction false} FirstPass(s: string)
    ensures ReplacePair(Escape(s), '~', '1', '/') == ReplaceChar(s, '~', "~0")
  {
    if s != [] {
      EscapeFirst(s);
      FirstPass(s[1..]);
      var e, rest := Escape(s), Escape(s[1..]);
      if s[0] == '~' {
        assert e == ['~', '0'] + rest && e[1..] == ['0'] + rest && e[1..][1..] == rest;
        SkipChar('0', rest, '1', '/');
      } else if s[0] == '/' {
        assert e == ['~', '1'] + rest && e[2..] == rest;
      } else {
        assert e == [s[0]] + rest;
        SkipChar(s[0], rest, '1', '/');
      }
    }
  }

  lemma SkipChar(c: char, rest: string, b: char, with: char)
    requires c != '~'
    ensures ReplacePair([c] + rest, '~', b, with) == [c] + ReplacePair(rest, '~', b, with)
  {
    assert ([c] + rest)[1..] == rest;
  }

  lemma {:induction false} SecondPass(s: string)
    ensures ReplacePair(ReplaceChar(s, '~', "~0"), '~', '0', '~') == s
  {
    if s != [] {
      SecondPass(s[1..]);
      var e, rest := ReplaceChar(s, '~', "~0"), ReplaceChar(s[1..], '~', "~0");
      if s[0] == '~' {
        assert e == ['~', '0'] + rest && e[2..] == rest;
      } else {
        assert e == [s[0]] + rest;
        SkipChar(s[0], rest, '0', '~');
      }
    }
  }

  lemma UnescapeEscape(s: string)
    ensures Unescape(Escape(s)) == s
  {
    FirstPass(s);
    SecondPass(s);
  }

  lemma {:induction false} SplitPart(part: string, rest: string)
    requires '/' !in part
    ensures Split(part + "/" + rest) == [part] + Split(rest)
    ensures Split(part) == [part]
  {
    if part == [] {
      assert part + "/" + rest == "/" + rest && ("/" + rest)[1..] == rest;
    } else {
      assert part[0] in part && forall c | c in part[1..] :: c in part;
      SplitPart(part[1..], rest);
      assert (part + "/" + rest)[1..] == part[1..] + "/" + rest;
      assert part == [part[0]] + part[1..];
    }
  }

  lemma {:induction false} SplitJoin(parts: seq<string>)
    requires parts != [] && forall i | 0 <= i < |parts| :: '/' !in parts[i]
    ensures Split(Join(parts)) == parts
  {
    if |parts| == 1 {
      SplitPart(parts[0], []);
    } else {
      SplitJoin(parts[1..]);
      SplitPart(parts[0], Join(parts[1..]));
    }
  }

  /** Reading back what was printed gives the segments, whatever characters they hold. */
  lemma ParsePrint(segments: seq<string>)
    ensures Parse(Print(segments)) == Some(segments)
  {
    if segments != [] {
      var parts := Escaped(segments);
      forall i | 0 <= i < |parts| ensures '/' !in parts[i] && Unescape(parts[i]) == segments[i] {
        EscapeHasNoSlash(segments[i]);
        UnescapeEscape(segments[i]);
      }
      SplitJoin(parts);
      var printed := Print(segments);
      assert printed[0] == '/' && printed[1..] == Join(parts);
      var read := Parse(printed).value;
      assert read == segments;
    }
  }

  /** Different segments print differently. */
  lemma PrintIsInjective(a: seq<string>, b: seq<string>)
    requires Print(a) == Print(b)
    ensures a == b
  {
    ParsePrint(a);
    ParsePrint(b);
  }
}
