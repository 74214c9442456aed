/**
 The hash chain of the audit log: what verification accepts, where it reports the
 first break, and what an anchor adds.
 */
module AuditChain {
  import opened Wrappers

  function Zeros(n: nat): (s: string)
    ensures |s| == n && forall i | 0 <= i < n :: s[i] == '0'
  {
    if n == 0 then [] else ['0'] + Zeros(n - 1)
  }

  /** Sixty-four zeros: the previous hash of the first entry. */
  const GENESIS_HASH: string := Zeros(64)

  /** The hashed fields of an entry besides the previous hash. */
  datatype Content = Content(
    occurredAt: int, actor: string, action: string, subjectType: string, subjectId: string, outcome: string,
        detail: string)

  datatype Entry = Entry(seqNo: int, prevHash: string, entryHash: string, content: Content)

  /** SHA-256 of the canonical form, in hexadecimal. */
  type Digest = (string, Content) -> string

  datatype Reason = PrevHashMismatch | EntryHashMismatch

  datatype Verification = Intact | Broken(firstBreak: int, reason: Reason)

  /** No two contents, or previous hashes, share a digest. */
  ghost predicate Injective(h: Digest) {
    forall p, c, q, d :: h(p, c) == h(q, d) ==> p == q && c == d
  }

  function EntryHash(h: Digest, prev: string, content: Content): string {
    "sha256:" + h(prev, content)
  }

  lemma NeverGenesis(h: Digest, prev: string, content: Content)
    ensures EntryHash(h, prev, content) != GENESIS_HASH
  {
    assert EntryHash(h, prev, content)[0] == 's' && GENESIS_HASH[0] == '0';
  }

  lemma HashInjective(h: Digest, p: string, c: Content, q: string, d: Content)
    requires Injective(h) && EntryHash(h, p, c) == EntryHash(h, q, d)
    ensures p == q && c == d
  {
    assert EntryHash(h, p, c)[7..] == h(p, c) && EntryHash(h, q, d)[7..] == h(q, d);
  }

  /** The chain tip: the last stored hash, or the genesis value. */
  function Tip(log: seq<Entry>): string {
    if log == [] then GENESIS_HASH else log[|log| - 1].entryHash
  }

  // ---------------------------------------------------------------- verification

  predicate PrevOk(log: seq<Entry>, i: nat)
    requires i < |log|
  {
    log[i].prevHash == Tip(log[..i])
  }

  predicate HashOk(h: Digest, log: seq<Entry>, i: nat)
    requires i < |log|
  {
    log[i].entryHash == EntryHash(h, log[i].prevHash, log[i].content)
  }

  ghost predicate Chained(h: Digest, log: seq<Entry>) {
    forall i | 0 <= i < |log| :: PrevOk(log, i) && HashOk(h, log, i)
  }

  /** The two checks in full: sixty-four zeros or the hash before, and the entry's own. */
  predicate LinkedAt(h: Digest, log: seq<Entry>, i: nat)
    requires i < |log|
  {
    && log[i].prevHash == (if i == 0 then Zeros(64) else log[i - 1].entryHash)
    && log[i].entryHash == "sha256:" + h(log[i].prevHash, log[i].content)
  }

  lemma ChainedInFull(h: Digest, log: seq<Entry>)
    ensures Chained(h, log) <==> forall i | 0 <= i < |log| :: LinkedAt(h, log, i)
  {
    forall i | 0 <= i < |log| ensures PrevOk(log, i) && HashOk(h, log, i) <==> LinkedAt(h, log, i) {
      if i > 0 { assert log[..i][i - 1] == log[i - 1]; }
    }
  }

  /** Walk the entries in order and report the first that fails either check. */
  method VerifyChain(h: Digest, entries: seq<Entry>) returns (r: Verification)
    ensures r == Intact <==> Chained(h, entries)
    ensures r == Intact <==> forall i | 0 <= i < |entries| :: LinkedAt(h, entries, i)
    ensures r.Broken? ==>
              exists i ::
                && 0 <= i < |entries| && Chained(h, entries[..i]) && r.firstBreak == entries[i].seqNo
                && (r.reason == PrevHashMismatch ==> !PrevOk(entries, i))
                && (r.reason == EntryHashMismatch ==> PrevOk(entries, i) && !HashOk(h, entries, i))
  {
    hide LinkedAt;
    ChainedInFull(h, entries);
    var expectedPrev := GENESIS_HASH;
    for n := 0 to |entries|
      invariant expectedPrev == Tip(entries[..n])
      invariant Chained(h, entries[..n])
      invariant forall i | 0 <= i < n :: PrevOk(entries, i) && HashOk(h, entries, i)
    {
      var entry := entries[n];
      if entry.prevHash != expectedPrev {
        assert !PrevOk(entries, n);
        return Broken(entry.seqNo, PrevHashMismatch);
      }
      if EntryHash(h, entry.prevHash, entry.content) != entry.entryHash {
        assert PrevOk(entries, n) && !HashOk(h, entries, n);
        return Broken(entry.seqNo, EntryHashMismatch);
      }
      expectedPrev := entry.entryHash;
      ChainedPrefix(h, entries, n + 1);
    }
    return Intact;
  }

  lemma ChainedPrefix(h: Digest, log: seq<Entry>, n: nat)
    requires n <= |log| && forall i | 0 <= i < n :: PrevOk(log, i) && HashOk(h, log, i)
    ensures Chained(h, log[..n])
  {
    forall i | 0 <= i < n ensures PrevOk(log[..n], i) && HashOk(h, log[..n], i) {
      assert log[..n][..i] == log[..i];
      assert PrevOk(log, i) && HashOk(h, log, i);
    }
  }

  // ---------------------------------------------------------------- writing

  predicate Rising(log: seq<Entry>) {
    forall i, j | 0 <= i < j < |log| :: log[i].seqNo < log[j].seqNo
  }

  /** Sequence numbers rise from at least one; gaps are allowed. */
  predicate Ordered(log: seq<Entry>) {
    (forall i | 0 <= i < |log| :: log[i].seqNo >= 1) && Rising(log)
  }

  predicate GapFree(log: seq<Entry>) {
    forall i | 0 <= i < |log| :: log[i].seqNo == i + 1
  }

  /** The entry the writer appends: it hashes the content with the tip it read. */
  function Written(h: Digest, log: seq<Entry>, content: Content, seqNo: int): Entry {
    Entry(seqNo, Tip(log), EntryHash(h, Tip(log), content), content)
  }

  /** Every entry was appended by the writer, under a fresh sequence number. */
  ghost predicate Authentic(h: Digest, log: seq<Entry>) {
    log == [] ||
    (var init, last := log[..|log| - 1], log[|log| - 1];
     && Authentic(h, init)
     && last == Written(h, init, last.content, last.seqNo)
     && last.seqNo >= (if init == [] then 1 else init[|init| - 1].seqNo + 1))
  }

  lemma {:induction false} WrittenVerifies(h: Digest, log: seq<Entry>)
    requires Authentic(h, log)
    ensures Chained(h, log) && Ordered(log)
  {
    hide Chained, Ordered, Tip, EntryHash, Written;
    if log == [] {
      NothingChained(h);
    } else {
      WrittenVerifies(h, log[..|log| - 1]);
      LastLinks(h, log);
      LastRises(log);
    }
  }

  lemma NothingChained(h: Digest)
    ensures Chained(h, []) && Ordered([])
  {
  }

  lemma LastLinks(h: Digest, log: seq<Entry>)
    requires log != [] && Chained(h, log[..|log| - 1])
    requires var init, last := log[..|log| - 1], log[|log| - 1]; last == Written(h, init, last.content, last.seqNo)
    ensures Chained(h, log)
  {
    hide EntryHash;
    var n := |log| - 1;
    forall i | 0 <= i < |log| ensures PrevOk(log, i) && HashOk(h, log, i) {
      if i < n {
        assert PrevOk(log[..n], i) && HashOk(h, log[..n], i);
        assert log[..n][..i] == log[..i];
      }
    }
  }

  lemma LastRises(log: seq<Entry>)
    requires log != [] && Ordered(log[..|log| - 1])
    requires var init := log[..|log| - 1];
             log[|log| - 1].seqNo >= (if init == [] then 1 else init[|init| - 1].seqNo + 1)
    ensures Ordered(log)
  {
    var n := |log| - 1;
    assert forall i | 0 <= i < n :: log[i] == log[..n][i];
    assert forall i | 0 <= i < n :: log[..n][i].seqNo <= log[..n][n - 1].seqNo;
  }

  lemma {:induction false} VerifiedIsWritten(h: Digest, log: seq<Entry>)
    requires Chained(h, log) && Ordered(log)
    ensures Authentic(h, log)
  {
    if log != [] {
      var n := |log| - 1;
      ChainedPrefix(h, log, n);
      assert Ordered(log[..n]);
      VerifiedIsWritten(h, log[..n]);
      assert PrevOk(log, n) && HashOk(h, log, n);
    }
  }

  /** A log verifies, in sequence order, exactly when the writer could have written it. */
  lemma VerifiesIffWritten(h: Digest, log: seq<Entry>)
    ensures Authentic(h, log) <==> Chained(h, log) && Ordered(log)
  {
    if Authentic(h, log) {
      WrittenVerifies(h, log);
    } else if Chained(h, log) && Ordered(log) {
      VerifiedIsWritten(h, log);
    }
  }

  // ---------------------------------------------------------------- anchors

  /** Two entries agree in every hashed field. */
  predicate SameHashed(a: Entry, b: Entry) {
    a.prevHash == b.prevHash && a.entryHash == b.entryHash && a.content == b.content
  }

  /** Two chains that end in one hash are one chain: the hash unwinds entry by entry,
      and neither can stop early because no entry's hash is the genesis value. */
  lemma {:induction false} OneTipOneChain(h: Digest, a: seq<Entry>, b: seq<Entry>)
    requires Injective(h) && Chained(h, a) && Chained(h, b) && Tip(a) == Tip(b)
    ensures |a| == |b| && forall i | 0 <= i < |a| :: SameHashed(a[i], b[i])
    decreases |a|
  {
    if a == [] && b == [] {
    } else if a == [] {
      assert HashOk(h, b, |b| - 1);
      NeverGenesis(h, b[|b| - 1].prevHash, b[|b| - 1].content);
    } else if b == [] {
      assert HashOk(h, a, |a| - 1);
      NeverGenesis(h, a[|a| - 1].prevHash, a[|a| - 1].content);
    } else {
      var m, n := |a| - 1, |b| - 1;
      assert PrevOk(a, m) && HashOk(h, a, m) && PrevOk(b, n) && HashOk(h, b, n);
      HashInjective(h, a[m].prevHash, a[m].content, b[n].prevHash, b[n].content);
      ChainedPrefix(h, a, m);
      ChainedPrefix(h, b, n);
      OneTipOneChain(h, a[..m], b[..n]);
      forall i | 0 <= i < |a| ensures SameHashed(a[i], b[i]) {
        if i < m { assert SameHashed(a[..m][i], b[..n][i]); }
      }
    }
  }

  /** The rows a range query returns: in order, from `start`, at most `limit`. */
  function Range(log: seq<Entry>, start: int, limit: nat): (r: seq<Entry>)
    ensures |r| <= limit
  {
    if log == [] || limit == 0 then []
    else if log[0].seqNo >= start then [log[0]] + Range(log[1..], start, limit - 1)
    else Range(log[1..], start, limit)
  }

  datatype AnchorVerdict = AnchorHolds | NoSuchEntry | ChainBroken(firstBreak: int) | HashDiffers

  /** Check an anchor `(n, anchored)` against an independent copy of the log. */
  method VerifyAnchor(h: Digest, copy: seq<Entry>, n: nat, anchored: string) returns (r: AnchorVerdict)
    ensures r == AnchorHolds <==> AnchorOk(h, copy, n, anchored)
    ensures r == NoSuchEntry <==> var rows := Range(copy, 1, n); rows == [] || rows[|rows| - 1].seqNo != n
    ensures r.ChainBroken? <==> r != NoSuchEntry && !Chained(h, Range(copy, 1, n))
    ensures r == HashDiffers <==>
              var rows := Range(copy, 1, n);
              r != NoSuchEntry && Chained(h, rows) && rows[|rows| - 1].entryHash != anchored
  {
    hide Chained, Range, LinkedAt, PrevOk, HashOk;
    var entries := Range(copy, 1, n);
    if entries == [] || entries[|entries| - 1].seqNo != n {
      return NoSuchEntry;
    }
    var v := VerifyChain(h, entries);
    if v.Broken? {
      return ChainBroken(v.firstBreak);
    }
    if entries[|entries| - 1].entryHash != anchored {
      return HashDiffers;
    }
    return AnchorHolds;
  }

  ghost predicate AnchorOk(h: Digest, copy: seq<Entry>, n: nat, anchored: string) {
    var rows := Range(copy, 1, n);
    rows != [] && rows[|rows| - 1].seqNo == n && Chained(h, rows) && Tip(rows) == anchored
  }

  lemma {:induction false} RangeOrdered(log: seq<Entry>, start: int, limit: nat)
    requires Rising(log)
    ensures Rising(Range(log, start, limit))
    ensures forall e | e in Range(log, start, limit) :: e.seqNo >= start && e in log
  {
    if log != [] && limit > 0 {
      assert Rising(log[1..]);
      var left := if log[0].seqNo >= start then limit - 1 else limit;
      RangeOrdered(log[1..], start, left);
      forall e | e in Range(log[1..], start, left) ensures e in log && e.seqNo > log[0].seqNo {
        assert e in log[1..];
      }
    }
  }

  lemma {:induction false} RangeOfPrefix(log: seq<Entry>, start: int, limit: nat)
    requires forall i | 0 <= i < |log| :: log[i].seqNo >= start
    ensures Range(log, start, limit) == if limit <= |log| then log[..limit] else log
  {
    if log != [] && limit > 0 {
      RangeOfPrefix(log[1..], start, limit - 1);
    }
  }

  lemma {:induction false} RisingFrom(r: seq<Entry>, i: nat)
    requires i < |r| && r[0].seqNo >= 1 && Rising(r)
    ensures r[i].seqNo >= i + 1
  {
    if i > 0 { RisingFrom(r, i - 1); }
  }

  lemma {:induction false} RisingUpTo(r: seq<Entry>, i: nat)
    requires i < |r| && r[|r| - 1].seqNo == |r| && Rising(r)
    ensures r[i].seqNo <= i + 1
    decreases |r| - i
  {
    if i < |r| - 1 { RisingUpTo(r, i + 1); }
  }

  /** Entry by entry, the first rows agree in what is hashed. */
  predicate SameStart(rows: seq<Entry>, log: seq<Entry>, n: nat) {
    |rows| == n && n <= |log| && forall i | 0 <= i < n :: SameHashed(rows[i], log[i])
  }

  lemma SameStartChained(h: Digest, rows: seq<Entry>, log: seq<Entry>, n: nat)
    requires SameStart(rows, log, n) && n > 0 && Chained(h, log)
    ensures Chained(h, rows) && Tip(rows) == log[n - 1].entryHash
  {
    hide PrevOk, HashOk, SameHashed;
    forall i | 0 <= i < n ensures PrevOk(rows, i) && HashOk(h, rows, i) { SameLinks(h, rows, log, n, i); }
    SameHash(rows, log, n, n - 1);
  }

  lemma SameHash(rows: seq<Entry>, log: seq<Entry>, n: nat, i: nat)
    requires SameStart(rows, log, n) && i < n
    ensures SameHashed(rows[i], log[i]) && rows[i].entryHash == log[i].entryHash
  {
  }

  lemma SameLinks(h: Digest, rows: seq<Entry>, log: seq<Entry>, n: nat, i: nat)
    requires SameStart(rows, log, n) && i < n && Chained(h, log)
    ensures PrevOk(rows, i) && HashOk(h, rows, i)
  {
    hide Chained, SameStart;
    ChainedAt(h, log, i, n, rows);
    SameHash(rows, log, n, i);
    if i > 0 { SameHash(rows, log, n, i - 1); }
  }

  lemma ChainedAt(h: Digest, log: seq<Entry>, i: nat, n: nat, rows: seq<Entry>)
    requires Chained(h, log) && SameStart(rows, log, n) && i < n
    ensures i < |log| && i < |rows| && PrevOk(log, i) && HashOk(h, log, i)
  {
  }

  /** An anchor taken at an entry of an authentic log holds on a copy exactly when the rows
      the check reads are that entry and everything before it, unedited, and the entry
      kept its sequence number: any earlier edit, insertion, deletion or reordering is
      rejected. */
  lemma AnchorHoldsIff(h: Digest, log: seq<Entry>, k: nat, copy: seq<Entry>)
    requires Injective(h) && Authentic(h, log) && k < |log|
    ensures log[k].seqNo >= 1
    ensures var rows := Range(copy, 1, log[k].seqNo);
            AnchorOk(h, copy, log[k].seqNo, log[k].entryHash)
            <==> SameStart(rows, log, k + 1) && rows[k].seqNo == log[k].seqNo
  {
    hide Injective, PrevOk, HashOk, Range, Authentic, Chained, SameHashed;
    VerifiesIffWritten(h, log);
    EachChained(h, log, k + 1);
    var rows := Range(copy, 1, log[k].seqNo);
    if AnchorOk(h, copy, log[k].seqNo, log[k].entryHash) {
      OneTipOneChain(h, rows, log[..k + 1]);
      assert forall i | 0 <= i < k + 1 :: log[..k + 1][i] == log[i];
    } else if SameStart(rows, log, k + 1) {
      SameStartChained(h, rows, log, k + 1);
    }
  }

  lemma EachChained(h: Digest, log: seq<Entry>, n: nat)
    requires Chained(h, log) && n <= |log|
    ensures Chained(h, log[..n])
  {
    ChainedPrefix(h, log, n);
  }

  /** When no sequence number was skipped, that is: when the copy's first rows are the
      log's, sequence numbers and all. */
  lemma {:induction false} AnchorHoldsIffPrefixAgrees(h: Digest, log: seq<Entry>, n: nat, copy: seq<Entry>)
    requires Injective(h) && Authentic(h, log) && GapFree(log) && 1 <= n <= |log|
    requires Rising(copy)
    ensures AnchorOk(h, copy, n, log[n - 1].entryHash) <==> Range(copy, 1, n) == log[..n]
  {
    hide Injective, Range, Authentic, Chained, SameStart, Rising, AnchorOk;
    var rows := Range(copy, 1, n);
    AnchorHoldsIff(h, log, n - 1, copy);
    RangeOrdered(copy, 1, n);
    if SameStart(rows, log, n) { StartLength(rows, log, n); }
    if |rows| == n && SameStart(rows, log, n) && rows[n - 1].seqNo == n {
      assert rows[0] in rows;
      SameNumbers(rows, log, n);
    }
    if rows == log[..n] { StartsWith(log, n); }
  }

  lemma SameNumbers(rows: seq<Entry>, log: seq<Entry>, n: nat)
    requires 1 <= n <= |log| && GapFree(log) && SameStart(rows, log, n) && Rising(rows)
    requires rows[0].seqNo >= 1 && rows[n - 1].seqNo == n
    ensures rows == log[..n]
  {
    hide Rising;
    forall i | 0 <= i < n ensures rows[i] == log[i] {
      assert SameHashed(rows[i], log[i]);
      RisingFrom(rows, i);
      RisingUpTo(rows, i);
    }
  }

  lemma StartLength(rows: seq<Entry>, log: seq<Entry>, n: nat)
    requires SameStart(rows, log, n)
    ensures |rows| == n <= |log|
  {
  }

  lemma StartsWith(log: seq<Entry>, n: nat)
    requires n <= |log|
    ensures SameStart(log[..n], log, n)
  {
  }

  /** Cutting the tail off an authentic log goes unnoticed by verification, and is caught
      by any anchor beyond the cut. */
  lemma OnlyAnchorsSeeTruncation(h: Digest, log: seq<Entry>, cut: nat, k: nat)
    requires Injective(h) && Authentic(h, log) && cut <= k < |log|
    ensures Chained(h, log[..cut])
    ensures log[k].seqNo >= 0 && !AnchorOk(h, log[..cut], log[k].seqNo, log[k].entryHash)
  {
    hide Injective, Authentic, Chained, SameHashed;
    VerifiesIffWritten(h, log);
    EachChained(h, log, cut);
    AnchorHoldsIff(h, log, k, log[..cut]);
    RangeOfPrefix(log[..cut], 1, log[k].seqNo);
  }

  /** The check reads as many rows as the anchor's sequence number says, so on the very log
      it was taken of, untouched, an anchor holds exactly when no number up to it was
      skipped, or nothing was appended since. */
  lemma {:induction false} OwnAnchorHoldsIff(h: Digest, log: seq<Entry>, k: nat)
    requires Injective(h) && Authentic(h, log) && k < |log|
    ensures log[k].seqNo >= k + 1
    ensures AnchorOk(h, log, log[k].seqNo, log[k].entryHash) <==> log[k].seqNo == k + 1 || k == |log| - 1
  {
    hide Injective, Authentic, Chained;
    VerifiesIffWritten(h, log);
    RisingFrom(log, k);
    AnchorHoldsIff(h, log, k, log);
    RangeOfPrefix(log, 1, log[k].seqNo);
  }

  /** One number skipped: the log of two entries numbered two and three fails its own
      anchor at two. */
  lemma SkippedNumberFailsItsAnchor(h: Digest, c: Content, d: Content)
    requires Injective(h)
    ensures var first := Written(h, [], c, 2); var log := [first, Written(h, [first], d, 3)];
            Authentic(h, log) && !AnchorOk(h, log, 2, first.entryHash)
  {
    var first := Written(h, [], c, 2);
    var log := [first, Written(h, [first], d, 3)];
    assert log[..1] == [first] && [first][..0] == [];
    assert Authentic(h, [first]);
    OwnAnchorHoldsIff(h, log, 0);
  }
}
