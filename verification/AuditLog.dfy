/**
 The audit log table: its single writer, its paged reads, and the anchors published
 of its tip.
 */
module AuditLog {
  import opened Wrappers
  import opened AuditChain

  // ---------------------------------------------------------------- pages

  predicate Shown(e: Entry, inScope: Entry -> bool, before: Option<int>) {
    inScope(e) && (before.None? || e.seqNo < before.value)
  }

  /** Entries in scope below a cursor, newest first. */
  function Down(log: seq<Entry>, inScope: Entry -> bool, before: Option<int>): seq<Entry> {
    if log == [] then []
    else
      var last := log[|log| - 1];
      (if Shown(last, inScope, before) then [last] else []) + Down(log[..|log| - 1], inScope, before)
  }

  function Page(log: seq<Entry>, inScope: Entry -> bool, before: Option<int>, limit: nat): (page: seq<Entry>)
    ensures |page| <= limit
  {
    var all := Down(log, inScope, before);
    if |all| <= limit then all else all[..limit]
  }

  datatype EventPage = EventPage(events: seq<Entry>, nextCursor: Option<int>)

  /** A client following `next_cursor`, one page per snapshot of the growing log. */
  function Walk(logs: seq<seq<Entry>>, inScope: Entry -> bool, before: Option<int>, limit: nat): seq<Entry>
    requires limit >= 1
  {
    if logs == [] then []
    else
      var page := Page(logs[0], inScope, before, limit);
      if |page| < limit then page
      else page + Walk(logs[1..], inScope, Some(page[|page| - 1].seqNo), limit)
  }

  /** The log only grows, at its end, from one snapshot to the next. */
  ghost predicate Growing(logs: seq<seq<Entry>>) {
    && (forall i | 0 <= i < |logs| :: Rising(logs[i]))
    && (forall i, j | 0 <= i < j < |logs| :: logs[i] <= logs[j])
  }

  lemma {:induction false} DownMember(log: seq<Entry>, inScope: Entry -> bool, before: Option<int>, e: Entry)
    ensures e in Down(log, inScope, before) <==> e in log && Shown(e, inScope, before)
  {
    if log != [] {
      var init, last := log[..|log| - 1], log[|log| - 1];
      DownMember(init, inScope, before, e);
      assert e in log <==> e in init || e == last;
    }
  }

  /** Newest first, and nothing twice. */
  lemma {:induction false} DownFalls(log: seq<Entry>, inScope: Entry -> bool, before: Option<int>, i: nat, j: nat)
    requires Rising(log) && i < j < |Down(log, inScope, before)|
    ensures Down(log, inScope, before)[i].seqNo > Down(log, inScope, before)[j].seqNo
  {
    hide Down, Rising;
    DownOfNothing(log, inScope, before);
    DownStep(log, inScope, before);
    InitRises(log);
    var init, last := log[..|log| - 1], log[|log| - 1];
    if !Shown(last, inScope, before) {
      DownFalls(init, inScope, before, i, j);
    } else if i > 0 {
      DownFalls(init, inScope, before, i - 1, j - 1);
    } else {
      var e := Down(init, inScope, before)[j - 1];
      assert e in Down(init, inScope, before);
      DownMember(init, inScope, before, e);
    }
  }

  /** Appends above the cursor do not show below it. */
  lemma {:induction false} DownOfGrown(log: seq<Entry>, later: seq<Entry>, inScope: Entry -> bool, cut: int)
    requires log <= later
    requires forall i | |log| <= i < |later| :: later[i].seqNo >= cut
    ensures Down(later, inScope, Some(cut)) == Down(log, inScope, Some(cut))
    decreases |later|
  {
    if |later| > |log| {
      DownOfGrown(log, later[..|later| - 1], inScope, cut);
    } else {
      assert log == later;
    }
  }

  /** Below the cursor of a full page lies exactly what the page left out. */
  lemma {:induction false} DownBelow(log: seq<Entry>, inScope: Entry -> bool, before: Option<int>, k: nat)
    requires log != [] && Rising(log) && 1 <= k <= |Down(log, inScope, before)|
    ensures Down(log, inScope, Some(Down(log, inScope, before)[k - 1].seqNo)) == Down(log, inScope, before)[k..]
    ensures Down(log, inScope, before)[k - 1] in log
  {
    hide Down, Rising;
    var init, last := log[..|log| - 1], log[|log| - 1];
    var d, rest := Down(log, inScope, before), Down(init, inScope, before);
    DownOfNothing(init, inScope, before);
    DownStep(log, inScope, before);
    DownMember(log, inScope, before, d[k - 1]);
    assert d[k - 1] in d;
    InitRises(log);
    DownStep(log, inScope, Some(d[k - 1].seqNo));
    if Shown(last, inScope, before) && k == 1 {
      BelowAll(init, inScope, before, last.seqNo);
    } else if Shown(last, inScope, before) {
      DownBelow(init, inScope, before, k - 1);
      assert d[k..] == rest[k - 1..];
    } else {
      DownBelow(init, inScope, before, k);
    }
  }

  lemma DownStep(log: seq<Entry>, inScope: Entry -> bool, before: Option<int>)
    requires log != []
    ensures Down(log, inScope, before)
            == (if Shown(log[|log| - 1], inScope, before) then [log[|log| - 1]] else [])
               + Down(log[..|log| - 1], inScope, before)
  {
  }

  lemma DownOfNothing(log: seq<Entry>, inScope: Entry -> bool, before: Option<int>)
    ensures log == [] ==> Down(log, inScope, before) == []
  {
  }

  lemma InitRises(log: seq<Entry>)
    requires log != [] && Rising(log)
    ensures Rising(log[..|log| - 1]) && forall e | e in log[..|log| - 1] :: e.seqNo < log[|log| - 1].seqNo
  {
  }

  lemma {:induction false} BelowAll(log: seq<Entry>, inScope: Entry -> bool, before: Option<int>, cut: int)
    requires forall e | e in log :: e.seqNo < cut
    requires before.Some? ==> cut <= before.value
    ensures Down(log, inScope, Some(cut)) == Down(log, inScope, before)
  {
    if log != [] {
      BelowAll(log[..|log| - 1], inScope, before, cut);
    }
  }

  /** One page of the walk, and the rest of it. */
  lemma WalkTurn(logs: seq<seq<Entry>>, inScope: Entry -> bool, before: Option<int>, limit: nat)
    requires limit >= 1 && logs != []
    ensures var d := Down(logs[0], inScope, before);
            Walk(logs, inScope, before, limit)
            == if |d| < limit then d else d[..limit] + Walk(logs[1..], inScope, Some(d[limit - 1].seqNo), limit)
  {
    hide Down;
    var d := Down(logs[0], inScope, before);
    if |d| == limit { assert d[..limit] == d; }
  }

  /** What the logs hold beyond `first` is numbered from `cut` on. */
  ghost predicate AppendedAbove(first: seq<Entry>, logs: seq<seq<Entry>>, cut: int) {
    forall i, j | 0 <= i < |logs| && |first| <= j < |logs[i]| :: logs[i][j].seqNo >= cut
  }

  lemma FirstAppended(first: seq<Entry>, logs: seq<seq<Entry>>, cut: int)
    requires logs != [] && AppendedAbove(first, logs, cut)
    ensures forall j | |first| <= j < |logs[0]| :: logs[0][j].seqNo >= cut
  {
  }

  /** Following cursors to the end returns every entry that was in scope when the walk
      began, exactly once, newest first, whatever is appended meanwhile; and a walk of
      a log with `n` such entries needs no more than `n / limit + 1` pages. */
  lemma {:induction false} WalkReturnsTheSnapshot(
    first: seq<Entry>, logs: seq<seq<Entry>>, inScope: Entry -> bool, before: Option<int>, limit: nat)
    requires limit >= 1 && Growing(logs) && Rising(first)
    requires logs != [] ==> first <= logs[0]
    requires logs != [] && before.None? ==> first == logs[0]
    requires before.Some? ==> AppendedAbove(first, logs, before.value)
    requires |logs| * limit > |Down(first, inScope, before)|
    ensures Walk(logs, inScope, before, limit) == Down(first, inScope, before)
    decreases |logs|
  {
    hide Down, Rising, Walk, Growing, AppendedAbove;
    var d := Down(first, inScope, before);
    assert logs != [];
    if before.Some? {
      FirstAppended(first, logs, before.value);
      DownOfGrown(first, logs[0], inScope, before.value);
    }
    WalkTurn(logs, inScope, before, limit);
    if |d| >= limit {
      var last := d[limit - 1];
      DownOfNothing(first, inScope, before);
      DownBelow(first, inScope, before, limit);
      AboveCut(first, logs, last);
      PagesLeft(|logs|, limit, |d|);
      WalkReturnsTheSnapshot(first, logs[1..], inScope, Some(last.seqNo), limit);
      assert d == d[..limit] + d[limit..];
    }
  }

  lemma PagesLeft(pages: nat, limit: nat, n: nat)
    requires pages * limit > n >= limit
    ensures pages >= 1 && (pages - 1) * limit > n - limit
  {
  }

  /** Whatever is appended after the walk began lies above every cursor it uses. */
  lemma AboveCut(first: seq<Entry>, logs: seq<seq<Entry>>, e: Entry)
    requires Growing(logs) && e in first && logs != [] && first <= logs[0]
    ensures Growing(logs[1..]) && AppendedAbove(first, logs[1..], e.seqNo)
    ensures |logs| > 1 ==> first <= logs[1]
  {
    var k :| 0 <= k < |first| && first[k] == e;
    if |logs| > 1 { assert first <= logs[0] <= logs[1]; }
    forall i, j | 0 <= i < |logs[1..]| && |first| <= j < |logs[1..][i]| ensures logs[1..][i][j].seqNo >= e.seqNo {
      assert first <= logs[0] <= logs[i + 1];
      assert logs[i + 1][k] == first[k];
    }
  }

  /** The same, read as a set of entries: a walk from the top returns exactly the
      entries in scope of the log as it stood, each once, newest first. */
  lemma FollowingCursors(logs: seq<seq<Entry>>, inScope: Entry -> bool, limit: nat)
    requires limit >= 1 && Growing(logs) && logs != []
    requires |logs| * limit > |Down(logs[0], inScope, None)|
    ensures var walked := Walk(logs, inScope, None, limit);
            && (forall e :: e in walked <==> e in logs[0] && inScope(e))
            && (forall i, j | 0 <= i < j < |walked| :: walked[i].seqNo > walked[j].seqNo)
  {
    hide Walk, Down;
    WalkReturnsTheSnapshot(logs[0], logs, inScope, None, limit);
    forall e ensures e in Down(logs[0], inScope, None) <==> e in logs[0] && inScope(e) {
      DownMember(logs[0], inScope, None, e);
    }
    forall i, j | 0 <= i < j < |Down(logs[0], inScope, None)|
      ensures Down(logs[0], inScope, None)[i].seqNo > Down(logs[0], inScope, None)[j].seqNo
    {
      DownFalls(logs[0], inScope, None, i, j);
    }
  }

  // ---------------------------------------------------------------- reading everything

  lemma {:induction false} RangeFrom(log: seq<Entry>, k: nat, start: int, limit: nat)
    requires Rising(log) && k <= |log|
    requires k > 0 ==> start == log[k - 1].seqNo + 1
    requires k == 0 ==> forall i | 0 <= i < |log| :: start <= log[i].seqNo
    ensures Range(log, start, limit) == if k + limit <= |log| then log[k..k + limit] else log[k..]
  {
    if k == 0 {
      RangeOfPrefix(log, start, limit);
    } else if limit > 0 {
      assert log[0].seqNo < start;
      assert Rising(log[1..]);
      RangeFrom(log[1..], k - 1, if k > 1 then start else start, limit);
    }
  }

  /** A page read just above the first `k` entries extends them, and a short page is
      the last. */
  lemma PageFrom(log: seq<Entry>, k: nat, start: int, limit: nat)
    requires Ordered(log) && k <= |log|
    requires start == if k == 0 then 1 else log[k - 1].seqNo + 1
    ensures var page := Range(log, start, limit);
            && k + |page| <= |log| && log[..k] + page == log[..k + |page|]
            && (|page| < limit ==> k + |page| == |log|)
            && (page != [] ==> page[|page| - 1] == log[k + |page| - 1])
  {
    RangeFrom(log, k, start, limit);
  }

  // ---------------------------------------------------------------- anchors

  /** One row of `audit_anchors`: an attempt to publish the tip. */
  datatype Anchor = Anchor(implementation: string, covers: int, entryHash: string, failed: bool)

  function LatestOk(anchors: seq<Anchor>, implementation: string): Option<Anchor> {
    if anchors == [] then None
    else
      var last := anchors[|anchors| - 1];
      if last.implementation == implementation && !last.failed then Some(last)
      else LatestOk(anchors[..|anchors| - 1], implementation)
  }

  lemma {:induction false} LatestIsListed(anchors: seq<Anchor>, implementation: string)
    ensures var a := LatestOk(anchors, implementation);
            && (a.Some? ==> a.value in anchors && a.value.implementation == implementation && !a.value.failed)
            && (a.None? ==> forall b | b in anchors :: b.implementation == implementation ==> b.failed)
  {
    if anchors != [] {
      LatestIsListed(anchors[..|anchors| - 1], implementation);
      assert forall b | b in anchors :: b in anchors[..|anchors| - 1] || b == anchors[|anchors| - 1];
    }
  }

  /** A published anchor names an entry of the log. */
  ghost predicate Covers(log: seq<Entry>, a: Anchor) {
    exists i :: 0 <= i < |log| && log[i].seqNo == a.covers && log[i].entryHash == a.entryHash
  }

  /** No implementation is published the same coverage twice. */
  ghost predicate Advancing(anchors: seq<Anchor>) {
    forall i, j | 0 <= i < j < |anchors|
                  && anchors[i].implementation == anchors[j].implementation && !anchors[i].failed
                      && !anchors[j].failed ::
      anchors[i].covers < anchors[j].covers
  }

  /** Among successful anchors of one implementation, the latest covers most. */
  lemma {:induction false} LatestCoversMost(anchors: seq<Anchor>, implementation: string)
    requires Advancing(anchors)
    ensures forall b | b in anchors :: b.implementation == implementation && !b.failed ==>
              LatestOk(anchors, implementation).Some? && b.covers <= LatestOk(anchors, implementation).value.covers
  {
    if anchors != [] {
      LatestCoversMost(anchors[..|anchors| - 1], implementation);
      assert forall b | b in anchors :: b in anchors[..|anchors| - 1] || b == anchors[|anchors| - 1];
    }
  }

  /** A successful anchor of an authentic log verifies against it, however far it has
      grown since, exactly when it covers the tip, or no sequence number up to it was
      skipped. */
  lemma AnchorVerifiesIff(h: Digest, log: seq<Entry>, a: Anchor)
    requires Injective(h) && Authentic(h, log) && Covers(log, a)
    ensures log != [] && a.covers >= 1
    ensures AnchorOk(h, log, a.covers, a.entryHash)
            <==> a.covers == log[|log| - 1].seqNo || (a.covers <= |log| && log[a.covers - 1].seqNo == a.covers)
  {
    hide Injective, Authentic, Chained, AnchorOk;
    var i :| 0 <= i < |log| && log[i].seqNo == a.covers && log[i].entryHash == a.entryHash;
    OwnAnchorHoldsIff(h, log, i);
    VerifiesIffWritten(h, log);
    assert Rising(log);
  }

  // ---------------------------------------------------------------- the table

  class Table {
    const digest: Digest
    var entries: seq<Entry>
    var anchors: seq<Anchor>

    ghost predicate Valid()
      reads this
    {
      && Authentic(digest, entries)
      && (forall a | a in anchors && !a.failed :: Covers(entries, a))
      && Advancing(anchors)
    }

    constructor (digest: Digest)
      ensures Valid() && entries == [] && anchors == [] && this.digest == digest
    {
      this.digest := digest;
      entries, anchors := [], [];
    }

    method GetLastHash() returns (tip: string)
      ensures tip == Tip(entries)
    {
      if entries == [] { return GENESIS_HASH; }
      return entries[|entries| - 1].entryHash;
    }

    /** The one writer: read the tip, hash, append. `skipped` sequence numbers were
        drawn by transactions that rolled back. */
    method Write(content: Content, skipped: nat) returns (entry: Entry)
      requires Valid()
      modifies this`entries
      ensures Valid()
      ensures entries == old(entries) + [entry] && entry.content == content
      ensures entry == Written(digest, old(entries), content, entry.seqNo)
      ensures entry.seqNo == skipped + (if old(entries) == [] then 1 else old(entries)[|old(entries)| - 1].seqNo + 1)
    {
      var prevHash := GetLastHash();
      var entryHash := EntryHash(digest, prevHash, content);
      var next := if entries == [] then 1 else entries[|entries| - 1].seqNo + 1;
      entry := Entry(next + skipped, prevHash, entryHash, content);
      ghost var before := entries;
      entries := entries + [entry];
      assert entries[..|entries| - 1] == before;
      forall a | a in anchors && !a.failed ensures Covers(entries, a) {
        assert Covers(before, a);
        var i :| 0 <= i < |before| && before[i].seqNo == a.covers && before[i].entryHash == a.entryHash;
        assert entries[i] == before[i];
      }
    }

    method ListRange(start: int, limit: nat) returns (page: seq<Entry>)
      ensures page == Range(entries, start, limit)
    {
      page := [];
      var n := 0;
      while n < |entries| && |page| < limit
        invariant 0 <= n <= |entries| && |page| <= limit
        invariant Range(entries, start, limit) == page + Range(entries[n..], start, limit - |page|)
      {
        assert entries[n..][1..] == entries[n + 1..];
        if entries[n].seqNo >= start { page := page + [entries[n]]; }
        n := n + 1;
      }
    }

    /** Page through the whole table until a page comes back short. */
    method ListAll(pageSize: nat) returns (all: seq<Entry>)
      requires Valid()
      ensures all == if pageSize > 0 then entries else []
    {
      hide Authentic, Chained, Advancing, Covers, Range, Ordered, Written, Tip;
      VerifiesIffWritten(digest, entries);
      all := [];
      var startSeq := 1;
      ghost var k := 0;
      while true
        invariant k <= |entries| && all == entries[..k]
        invariant pageSize == 0 ==> k == 0
        invariant startSeq == if k == 0 then 1 else entries[k - 1].seqNo + 1
        decreases |entries| - k
      {
        var page := ListRange(startSeq, pageSize);
        PageFrom(entries, k, startSeq, pageSize);
        if page == [] { break; }
        all := all + page;
        k := k + |page|;
        if |page| < pageSize { break; }
        startSeq := page[|page| - 1].seqNo + 1;
      }
    }

    /** The newest `limit` entries in scope below the cursor. */
    method ListPage(inScope: Entry -> bool, beforeSeq: Option<int>, limit: nat) returns (rows: seq<Entry>)
      ensures rows == Page(entries, inScope, beforeSeq, limit)
    {
      hide Down, Valid;
      rows := [];
      var n := |entries|;
      assert entries[..n] == entries;
      while n > 0 && |rows| < limit
        invariant 0 <= n <= |entries| && |rows| <= limit
        invariant Down(entries, inScope, beforeSeq) == rows + Down(entries[..n], inScope, beforeSeq)
      {
        DownStep(entries[..n], inScope, beforeSeq);
        assert entries[..n][..n - 1] == entries[..n - 1];
        if Shown(entries[n - 1], inScope, beforeSeq) { rows := rows + [entries[n - 1]]; }
        n := n - 1;
      }
      DownOfNothing(entries[..n], inScope, beforeSeq);
    }

    /** One page of the authorized view: validate the limit, read below the cursor, and
        hand on a cursor exactly when the page is full. */
    method ListAuditEvents(inScope: Entry -> bool, cursor: Option<int>, limit: int) returns (r: Option<EventPage>)
      ensures r.None? <==> !(1 <= limit <= 100)
      ensures r.Some? ==>
                && r.value.events == Page(entries, inScope, cursor, limit)
                && (r.value.nextCursor.Some? <==> |r.value.events| == limit)
                && (r.value.nextCursor.Some? ==> r.value.nextCursor.value == r.value.events[limit - 1].seqNo)
    {
      if limit < 1 || limit > 100 { return None; }
      var rows := ListPage(inScope, cursor, limit);
      return Some(EventPage(rows, if |rows| == limit then Some(rows[|rows| - 1].seqNo) else None));
    }

    method GetLatestOk(implementation: string) returns (found: Option<Anchor>)
      ensures found == LatestOk(anchors, implementation)
    {
      var n := |anchors|;
      assert anchors[..n] == anchors;
      while n > 0
        invariant 0 <= n <= |anchors| && LatestOk(anchors, implementation) == LatestOk(anchors[..n], implementation)
      {
        var last := anchors[n - 1];
        assert anchors[..n][..n - 1] == anchors[..n - 1];
        if last.implementation == implementation && !last.failed { return Some(last); }
        n := n - 1;
      }
      return None;
    }

    /** Publish the tip, unless the latest success covers it already; a failed delivery
        is a row of its own. */
    method PublishAnchor(implementation: string, delivered: bool) returns (r: Option<Anchor>)
      requires Valid()
      modifies this`anchors
      ensures Valid()
      ensures r.None? <==> entries == []
      ensures anchors == old(anchors) || (r.Some? && anchors == old(anchors) + [r.value])
      ensures r.Some? ==> r.value in anchors && r.value.implementation == implementation
      ensures r.Some? && !r.value.failed ==> r.value.covers >= entries[|entries| - 1].seqNo
      ensures anchors != old(anchors) ==>
                && r.value.covers == entries[|entries| - 1].seqNo && r.value.entryHash == Tip(entries)
                && r.value.failed == !delivered
      ensures anchors == old(anchors) && entries != [] ==> r == LatestOk(anchors, implementation)
    {
      if entries == [] { return None; }
      var tip := entries[|entries| - 1];
      var latest := GetLatestOk(implementation);
      LatestIsListed(anchors, implementation);
      if latest.Some? && latest.value.covers >= tip.seqNo { return latest; }
      var anchor := Anchor(implementation, tip.seqNo, tip.entryHash, !delivered);
      LatestCoversMost(anchors, implementation);
      assert Covers(entries, anchor);
      assert forall i | 0 <= i < |anchors| :: anchors[i] in anchors;
      anchors := anchors + [anchor];
      return Some(anchor);
    }
  }
}
