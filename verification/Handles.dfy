/** The preimage an approval is bound to: five fields, each behind its length. */
module Handles {
  import opened Text
  import opened Wrappers

  datatype Binding = Binding(
    operationId: string, principalId: string, argumentFingerprint: string, snapshotId: string, definitionHash: string)

  function Parts(b: Binding): seq<string> {
    [b.operationId, b.principalId, b.argumentFingerprint, b.snapshotId, b.definitionHash]
  }

  /** Decimal length, colon, text, bar. */
  function Framed(part: string): string {
    Decimal(|part|) + ":" + part + "|"
  }

  function Preimage(parts: seq<string>): string {
    if parts == [] then [] else Framed(parts[0]) + Preimage(parts[1..])
  }

  /** The binding fingerprint under some digest. */
  function ApprovalBinding(digest: string -> string, b: Binding): string {
    "sha256:" + digest(Preimage(Parts(b)))
  }

  // ---------------------------------------------------------------- reading back

  /** The length of the leading run of digits. */
  function DigitsIn(s: string): (n: nat)
    ensures n <= |s| && forall i | 0 <= i < n :: IsDigit(s[i])
  {
    if s == [] || !IsDigit(s[0]) then 0 else 1 + DigitsIn(s[1..])
  }

  /** The first framed field and what follows it. */
  function ReadPart(s: string): (r: Option<(string, string)>)
    ensures r.Some? ==> |r.value.1| < |s|
  {
    var d := DigitsIn(s);
    if d == 0 || d >= |s| || s[d] != ':' then None
    else
      var n := Value(s[..d]);
      var end := d + 1 + n;
      if end >= |s| || s[end] != '|' then None else Some((s[d + 1..end], s[end + 1..]))
  }

  function ReadAll(s: string): Option<seq<string>>
    decreases |s|
  {
    if s == [] then Some([])
    else
      match ReadPart(s)
      case None => None
      case Some((part, rest)) =>
        match ReadAll(rest)
        case None => None
        case Some(parts) => Some([part] + parts)
  }

  // ---------------------------------------------------------------- unique decoding

  lemma {:induction false} DigitsThenColon(digits: string, rest: string)
    requires forall i | 0 <= i < |digits| :: IsDigit(digits[i])
    ensures DigitsIn(digits + ":" + rest) == |digits|
  {
    if digits == [] {
      assert (digits + ":" + rest)[0] == ':';
    } else {
      DigitsThenColon(digits[1..], rest);
      assert (digits + ":" + rest)[1..] == digits[1..] + ":" + rest;
      assert IsDigit(digits[0]) && (digits + ":" + rest)[0] == digits[0];
    }
  }

  lemma ReadFramed(part: string, rest: string)
    ensures ReadPart(Framed(part) + rest) == Some((part, rest))
  {
    var d := Decimal(|part|);
    var s := Framed(part) + rest;
    assert s == d + ":" + (part + "|" + rest);
    DigitsThenColon(d, part + "|" + rest);
    assert s[..|d|] == d;
    DecimalValue(|part|);
    assert s[|d| + 1..|d| + 1 + |part|] == part && s[|d| + 1 + |part|] == '|' && s[|d| + 2 + |part|..] == rest;
  }

  /** Reading a preimage gives the fields back, whatever digits, colons or bars they
      contain. */
  lemma {:induction false} ReadPreimage(parts: seq<string>)
    ensures ReadAll(Preimage(parts)) == Some(parts)
  {
    if parts != [] {
      ReadFramed(parts[0], Preimage(parts[1..]));
      ReadPreimage(parts[1..]);
      assert [parts[0]] + parts[1..] == parts;
    }
  }

  /** Equal bindings, under a digest without collisions, bind the same five values. */
  lemma BindingIsInjective(digest: string -> string, a: Binding, b: Binding)
    requires forall x, y :: digest(x) == digest(y) ==> x == y
    requires ApprovalBinding(digest, a) == ApprovalBinding(digest, b)
    ensures a == b
  {
    assert ApprovalBinding(digest, a)[7..] == digest(Preimage(Parts(a)));
    assert ApprovalBinding(digest, b)[7..] == digest(Preimage(Parts(b)));
    ReadPreimage(Parts(a));
    ReadPreimage(Parts(b));
    assert Parts(a) == Parts(b);
    assert Parts(a)[0] == Parts(b)[0] && Parts(a)[1] == Parts(b)[1] && Parts(a)[2] == Parts(b)[2]
        && Parts(a)[3] == Parts(b)[3] && Parts(a)[4] == Parts(b)[4];
  }

  /** The five fields are bound in this order. */
  lemma BoundInOrder(digest: string -> string, b: Binding)
    ensures ApprovalBinding(digest, b)
            == "sha256:" + digest(
                 Framed(b.operationId) + (Framed(b.principalId) + (Framed(b.argumentFingerprint)
                 + (Framed(b.snapshotId) + Framed(b.definitionHash)))))
  {
    hide Framed;
    PreimageStep(b.operationId, [b.principalId, b.argumentFingerprint, b.snapshotId, b.definitionHash]);
    PreimageStep(b.principalId, [b.argumentFingerprint, b.snapshotId, b.definitionHash]);
    PreimageStep(b.argumentFingerprint, [b.snapshotId, b.definitionHash]);
    PreimageStep(b.snapshotId, [b.definitionHash]);
    PreimageStep(b.definitionHash, []);
    assert [b.definitionHash] + [] == [b.definitionHash];
    assert Framed(b.definitionHash) + Preimage([]) == Framed(b.definitionHash);
  }

  lemma PreimageStep(part: string, rest: seq<string>)
    ensures Preimage([part] + rest) == Framed(part) + Preimage(rest)
  {
    hide Framed;
    assert ([part] + rest)[1..] == rest;
  }
}
