/**
 Several transactions writing one audit log. Each reads the tip, hashes over it and
 appends, as separate statements; sequence numbers are drawn at the append and never
 returned. Every run leaves a log that verifies exactly when write transactions exclude
 each other and no transaction appends over a tip it read before another one committed:
 because the database refuses that, or because every transaction takes the write lock
 before it reads the tip.
 */
module AuditWriters {
  import opened Wrappers
  import opened AuditChain

  type WriterId = nat

  /** `exclusive`: one transaction at a time holds the write lock. `freshReads`: the
      database refuses an append after a read that something was committed since.
      `lockFirst`: every transaction writes something else before it reads the tip, as a
      transition does with its compare-and-set. */
  datatype Rules = Rules(exclusive: bool, freshReads: bool, lockFirst: bool)

  /** The tip a transaction read, and how much of the committed log it saw. */
  datatype Snapshot = Snapshot(tip: string, seen: nat)

  /** An open transaction: whether it holds the write lock, the tip it has read and not
      yet used, and its own entries. */
  datatype Writer = Writer(locked: bool, read: Option<Snapshot>, pending: seq<Entry>)

  /** `next` is the sequence. */
  datatype State = State(rules: Rules, log: seq<Entry>, writers: map<WriterId, Writer>, next: int)

  const IDLE := Writer(false, None, [])

  function Of(s: State, t: WriterId): Writer {
    if t in s.writers then s.writers[t] else IDLE
  }

  /** Two logs in one, by sequence number. */
  function Merge(a: seq<Entry>, b: seq<Entry>): seq<Entry> {
    if a == [] then b
    else if b == [] then a
    else if a[0].seqNo < b[0].seqNo then [a[0]] + Merge(a[1..], b)
    else [b[0]] + Merge(a, b[1..])
  }

  datatype Step =
    | Lock(t: WriterId)
    | ReadTip(t: WriterId)
    | Append(t: WriterId, content: Content)
    | Commit(t: WriterId)
    | Rollback(t: WriterId)

  /** A write waits for the write lock. */
  ghost predicate MayLock(s: State, t: WriterId) {
    s.rules.exclusive ==> forall u | u != t :: !Of(s, u).locked
  }

  /** `entry_hash` is unique in the table. */
  ghost predicate Fresh(log: seq<Entry>, added: seq<Entry>) {
    forall e, f | e in log && f in added :: e.entryHash != f.entryHash
  }

  ghost predicate Enabled(s: State, step: Step) {
    match step
    case Lock(t) => MayLock(s, t)
    case ReadTip(t) => s.rules.lockFirst ==> Of(s, t).locked
    case Append(t, _) =>
      && Of(s, t).read.Some? && MayLock(s, t)
      && (s.rules.freshReads ==> Of(s, t).read.value.seen == |s.log|)
    case Commit(t) => Fresh(s.log, Of(s, t).pending)
    case Rollback(t) => true
  }

  function Put(s: State, t: WriterId, w: Writer): State {
    s.(writers := s.writers[t := w])
  }

  function Apply(h: Digest, s: State, step: Step): State
    requires Enabled(s, step)
  {
    match step
    case Lock(t) => Put(s, t, Of(s, t).(locked := true))
    case ReadTip(t) => Put(s, t, Of(s, t).(read := Some(Snapshot(Tip(Merge(s.log, Of(s, t).pending)), |s.log|))))
    case Append(t, content) =>
      var prev := Of(s, t).read.value.tip;
      var entry := Entry(s.next, prev, EntryHash(h, prev, content), content);
      Put(s, t, Writer(true, None, Of(s, t).pending + [entry])).(next := s.next + 1)
    case Commit(t) => Put(s, t, IDLE).(log := Merge(s.log, Of(s, t).pending))
    case Rollback(t) => Put(s, t, IDLE)
  }

  ghost predicate Next(h: Digest, s: State, s': State) {
    exists step :: Enabled(s, step) && s' == Apply(h, s, step)
  }

  function Start(rules: Rules): State {
    State(rules, [], map[], 1)
  }

  /** The states a run passes through, from an empty log. */
  ghost predicate IsRun(h: Digest, rules: Rules, run: seq<State>) {
    && |run| > 0
    && run[0] == Start(rules)
    && forall i | 0 <= i < |run| - 1 :: Next(h, run[i], run[i + 1])
  }

  ghost predicate AlwaysVerifies(h: Digest, run: seq<State>) {
    forall i | 0 <= i < |run| :: Chained(h, run[i].log)
  }

  /** Nobody appends over a tip that is no longer the tip. */
  predicate Suffices(rules: Rules) {
    rules.exclusive && (rules.freshReads || rules.lockFirst)
  }

  // ---------------------------------------------------------------- rules that suffice

  /** What a transaction would commit now verifies, above everything committed. */
  ghost predicate Fits(h: Digest, rules: Rules, log: seq<Entry>, next: int, w: Writer) {
    && Chained(h, log + w.pending) && Ordered(log + w.pending)
    && (forall e | e in w.pending :: e.seqNo < next)
    && (w.pending != [] ==> w.locked)
    && (w.read.Some? ==>
          && w.read.value.seen <= |log|
          && (rules.lockFirst ==> w.locked && w.read.value.seen == |log|)
          && (w.pending != [] ==> w.read.value.seen == |log|)
          && w.read.value.tip == Tip(log[..w.read.value.seen] + w.pending))
  }

  ghost predicate Inv(h: Digest, s: State) {
    && Suffices(s.rules) && s.next >= 1
    && (forall e | e in s.log :: e.seqNo < s.next)
    && (forall t, u | Of(s, t).locked && Of(s, u).locked :: t == u)
    && (forall t :: Fits(h, s.rules, s.log, s.next, Of(s, t)))
  }

  lemma {:induction false} MergeAbove(a: seq<Entry>, b: seq<Entry>)
    requires Rising(a + b)
    ensures Merge(a, b) == a + b
  {
    hide Rising, Merge;
    if a == [] || b == [] {
      MergeEmpty(a, b);
    } else {
      HeadIsLow(a, b);
      MergeAbove(a[1..], b);
      MergeHead(a, b);
      HeadAndTail(a, b);
    }
  }

  lemma MergeEmpty(a: seq<Entry>, b: seq<Entry>)
    requires a == [] || b == []
    ensures Merge(a, b) == a + b
  {
    if a == [] { assert a + b == b; } else { assert a + b == a; }
  }

  lemma MergeHead(a: seq<Entry>, b: seq<Entry>)
    requires a != [] && b != [] && a[0].seqNo < b[0].seqNo
    ensures Merge(a, b) == [a[0]] + Merge(a[1..], b)
  {
  }

  lemma HeadAndTail(a: seq<Entry>, b: seq<Entry>)
    requires a != []
    ensures [a[0]] + (a[1..] + b) == a + b
  {
    assert a == [a[0]] + a[1..];
  }

  lemma HeadIsLow(a: seq<Entry>, b: seq<Entry>)
    requires a != [] && b != [] && Rising(a + b)
    ensures a[0].seqNo < b[0].seqNo && Rising(a[1..] + b)
  {
    var all := a + b;
    assert all[0] == a[0] && all[|a|] == b[0];
    assert all[1..] == a[1..] + b;
    RisingTail(all);
  }

  lemma RisingTail(log: seq<Entry>)
    requires log != [] && Rising(log)
    ensures Rising(log[1..])
  {
  }

  lemma AppendFits(h: Digest, rules: Rules, log: seq<Entry>, next: int, w: Writer, content: Content)
    requires Fits(h, rules, log, next, w) && w.read.Some? && w.read.value.seen == |log| && next >= 1
    requires forall e | e in log :: e.seqNo < next
    ensures var prev := w.read.value.tip;
            var entry := Entry(next, prev, EntryHash(h, prev, content), content);
            Fits(h, rules, log, next + 1, Writer(true, None, w.pending + [entry]))
  {
    hide EntryHash, Chained, Ordered;
    var prev := w.read.value.tip;
    var entry := Entry(next, prev, EntryHash(h, prev, content), content);
    var grown := log + (w.pending + [entry]);
    assert log[..|log|] == log;
    assert grown[..|grown| - 1] == log + w.pending;
    LastLinks(h, grown);
    assert forall e | e in log + w.pending :: e.seqNo < next;
    LastRises(grown);
  }

  lemma ReadFits(h: Digest, rules: Rules, log: seq<Entry>, next: int, w: Writer)
    requires Fits(h, rules, log, next, w) && (rules.lockFirst ==> w.locked)
    ensures Fits(h, rules, log, next, w.(read := Some(Snapshot(Tip(Merge(log, w.pending)), |log|))))
  {
    hide Chained;
    MergeAbove(log, w.pending);
    assert log[..|log|] == log;
  }

  lemma LockFits(h: Digest, rules: Rules, log: seq<Entry>, next: int, w: Writer)
    requires Fits(h, rules, log, next, w)
    ensures Fits(h, rules, log, next, w.(locked := true))
  {
    hide Chained, Ordered, Tip;
  }

  /** A transaction without the lock, after another's commit. */
  lemma OthersFit(h: Digest, rules: Rules, log: seq<Entry>, added: seq<Entry>, next: int, w: Writer)
    requires Fits(h, rules, log, next, w) && !w.locked
    requires Chained(h, log + added) && Ordered(log + added)
    ensures Fits(h, rules, log + added, next, w)
  {
    hide Chained, Ordered;
    assert (log + added) + [] == log + added;
    if w.read.Some? { assert (log + added)[..w.read.value.seen] == log[..w.read.value.seen]; }
  }

  lemma IdleFits(h: Digest, rules: Rules, log: seq<Entry>, next: int)
    requires Chained(h, log) && Ordered(log)
    ensures Fits(h, rules, log, next, IDLE)
  {
    hide Chained, Ordered;
    assert log + [] == log;
  }

  lemma LogFits(h: Digest, rules: Rules, log: seq<Entry>, next: int, w: Writer)
    requires Fits(h, rules, log, next, w)
    ensures Chained(h, log) && Ordered(log)
  {
    hide PrevOk, HashOk;
    var all := log + w.pending;
    assert all[..|log|] == log;
    ChainedPrefix(h, all, |log|);
    assert forall i | 0 <= i < |log| :: log[i] == all[i];
  }

  lemma LaterFits(h: Digest, rules: Rules, log: seq<Entry>, next: int, w: Writer)
    requires Fits(h, rules, log, next, w)
    ensures Fits(h, rules, log, next + 1, w)
  {
    hide Chained, Ordered, Tip;
  }

  /** Under the rules, what is appended over is the tip. */
  lemma ReadIsCurrent(h: Digest, s: State, t: WriterId, content: Content)
    requires Inv(h, s) && Enabled(s, Append(t, content))
    ensures Of(s, t).read.value.seen == |s.log|
  {
    hide Chained, Ordered, Tip;
    assert Fits(h, s.rules, s.log, s.next, Of(s, t));
  }

  lemma StepKeeps(h: Digest, s: State, step: Step)
    requires Inv(h, s) && Enabled(s, step)
    ensures Inv(h, Apply(h, s, step))
  {
    hide Fits, Merge, Chained, Ordered;
    var s' := Apply(h, s, step);
    var t := step.t;
    var mine := Of(s, t);
    assert Fits(h, s.rules, s.log, s.next, mine);
    LogFits(h, s.rules, s.log, s.next, mine);
    IdleFits(h, s.rules, s.log, s.next);
    match step
    case Lock(_) =>
      LockFits(h, s.rules, s.log, s.next, mine);
      assert forall u | u != t :: Of(s', u) == Of(s, u);
    case ReadTip(_) =>
      ReadFits(h, s.rules, s.log, s.next, mine);
      assert forall u | u != t :: Of(s', u) == Of(s, u);
    case Append(_, content) =>
      ReadIsCurrent(h, s, t, content);
      AppendFits(h, s.rules, s.log, s.next, mine, content);
      assert forall u | u != t :: Of(s', u) == Of(s, u) && !Of(s, u).locked;
      forall u ensures Fits(h, s.rules, s'.log, s'.next, Of(s', u)) {
        if u != t { LaterFits(h, s.rules, s.log, s.next, Of(s, u)); }
      }
    case Commit(_) => CommitKeeps(h, s, t);
    case Rollback(_) =>
      assert forall u | u != t :: Of(s', u) == Of(s, u);
  }

  lemma CommitKeeps(h: Digest, s: State, t: WriterId)
    requires Inv(h, s) && Enabled(s, Commit(t))
    ensures Inv(h, Apply(h, s, Commit(t)))
  {
    hide Fits, Merge, Chained, Ordered;
    var s' := Apply(h, s, Commit(t));
    var mine := Of(s, t).pending;
    assert Fits(h, s.rules, s.log, s.next, Of(s, t));
    PendingFits(h, s.rules, s.log, s.next, Of(s, t));
    IdleFits(h, s.rules, s'.log, s'.next);
    assert forall e | e in s'.log :: e in s.log || e in mine;
    forall u ensures Fits(h, s.rules, s'.log, s'.next, Of(s', u)) {
      if u != t {
        assert Of(s', u) == Of(s, u) && Fits(h, s.rules, s.log, s.next, Of(s, u));
        if mine == [] {
          assert s.log + mine == s.log;
        } else {
          OthersFit(h, s.rules, s.log, mine, s.next, Of(s, u));
        }
      }
    }
    assert forall u | u != t :: Of(s', u) == Of(s, u);
  }

  lemma PendingFits(h: Digest, rules: Rules, log: seq<Entry>, next: int, w: Writer)
    requires Fits(h, rules, log, next, w)
    ensures Merge(log, w.pending) == log + w.pending && Chained(h, log + w.pending) && Ordered(log + w.pending)
    ensures forall e | e in w.pending :: e.seqNo < next
    ensures w.pending != [] ==> w.locked
  {
    hide Chained, Tip;
    MergeAbove(log, w.pending);
  }

  lemma StartOk(h: Digest, rules: Rules)
    requires Suffices(rules)
    ensures Inv(h, Start(rules))
  {
    NothingChained(h);
    IdleFits(h, rules, [], 1);
  }

  lemma {:induction false} RunKeeps(h: Digest, rules: Rules, run: seq<State>, i: nat)
    requires IsRun(h, rules, run) && Suffices(rules) && i < |run|
    ensures Inv(h, run[i])
  {
    hide Inv, Enabled, Apply;
    if i == 0 {
      StartOk(h, rules);
    } else {
      RunKeeps(h, rules, run, i - 1);
      assert Next(h, run[i - 1], run[i]);
      var step :| Enabled(run[i - 1], step) && run[i] == Apply(h, run[i - 1], step);
      StepKeeps(h, run[i - 1], step);
    }
  }

  lemma RulesVerify(h: Digest, rules: Rules, run: seq<State>)
    requires IsRun(h, rules, run) && Suffices(rules)
    ensures AlwaysVerifies(h, run)
  {
    hide IsRun, Fits, Chained;
    forall i | 0 <= i < |run| ensures Chained(h, run[i].log) {
      RunKeeps(h, rules, run, i);
      assert Fits(h, run[i].rules, run[i].log, run[i].next, Of(run[i], 0));
      LogFits(h, run[i].rules, run[i].log, run[i].next, Of(run[i], 0));
    }
  }

  // ---------------------------------------------------------------- rules that do not

  /** Some run ends in `s`. */
  ghost predicate Reached(h: Digest, s: State) {
    exists run :: EndsIn(h, run, s)
  }

  ghost predicate EndsIn(h: Digest, run: seq<State>, s: State) {
    IsRun(h, s.rules, run) && run[|run| - 1] == s
  }

  lemma StartReached(h: Digest, rules: Rules)
    ensures Reached(h, Start(rules))
  {
    assert EndsIn(h, [Start(rules)], Start(rules));
  }

  lemma Then(h: Digest, s: State, step: Step)
    requires Reached(h, s) && Enabled(s, step)
    ensures Reached(h, Apply(h, s, step))
  {
    hide Enabled;
    var s' := Apply(h, s, step);
    assert s'.rules == s.rules by { SameRules(h, s, step); }
    var run :| EndsIn(h, run, s);
    var longer := run + [s'];
    forall i | 0 <= i < |longer| - 1 ensures Next(h, longer[i], longer[i + 1]) {
      if i < |run| - 1 { assert Next(h, run[i], run[i + 1]); }
    }
    assert EndsIn(h, longer, s');
  }

  lemma SameRules(h: Digest, s: State, step: Step)
    requires Enabled(s, step)
    ensures Apply(h, s, step).rules == s.rules
  {
  }

  /** The entry a transaction writes over the empty log. */
  function Signed(h: Digest, seqNo: int, c: Content): Entry {
    Entry(seqNo, GENESIS_HASH, EntryHash(h, GENESIS_HASH, c), c)
  }

  /** The tip of the empty log has been read, and nothing written to the log. */
  predicate SawNothing(w: Writer) {
    w.read == Some(Snapshot(GENESIS_HASH, 0)) && w.pending == []
  }

  lemma Locks(h: Digest, s: State, t: WriterId) returns (s': State)
    requires Reached(h, s) && !s.rules.exclusive
    ensures Reached(h, s') && s' == Put(s, t, Of(s, t).(locked := true))
  {
    hide Reached;
    s' := Apply(h, s, Lock(t));
    Then(h, s, Lock(t));
  }

  lemma Reads(h: Digest, s: State, t: WriterId) returns (s': State)
    requires Reached(h, s) && s.log == [] && Of(s, t).pending == [] && (s.rules.lockFirst ==> Of(s, t).locked)
    ensures Reached(h, s') && s' == Put(s, t, Writer(Of(s, t).locked, Some(Snapshot(GENESIS_HASH, 0)), []))
  {
    hide Reached;
    s' := Apply(h, s, ReadTip(t));
    Then(h, s, ReadTip(t));
    assert Tip(Merge([], [])) == GENESIS_HASH;
  }

  lemma Appends(h: Digest, s: State, t: WriterId, c: Content) returns (s': State)
    requires Reached(h, s) && SawNothing(Of(s, t)) && MayLock(s, t) && (s.rules.freshReads ==> s.log == [])
    ensures Reached(h, s')
    ensures s' == Put(s, t, Writer(true, None, [Signed(h, s.next, c)])).(next := s.next + 1)
  {
    hide Reached;
    s' := Apply(h, s, Append(t, c));
    Then(h, s, Append(t, c));
    assert [] + [Signed(h, s.next, c)] == [Signed(h, s.next, c)];
  }

  lemma Publishes(h: Digest, s: State, t: WriterId, log: seq<Entry>) returns (s': State)
    requires Reached(h, s) && Fresh(s.log, Of(s, t).pending) && log == Merge(s.log, Of(s, t).pending)
    ensures Reached(h, s') && s' == Put(s, t, IDLE).(log := log)
  {
    hide Reached;
    s' := Apply(h, s, Commit(t));
    Then(h, s, Commit(t));
  }

  /** Without exclusion, two transactions lock, read one tip, append and commit. */
  lemma ForkWithoutLock(h: Digest, rules: Rules, c: Content, d: Content) returns (s: State)
    requires Injective(h) && c != d && !rules.exclusive
    ensures Reached(h, s) && s.rules == rules && s.log == [Signed(h, 1, c), Signed(h, 2, d)]
  {
    hide Reached, Merge, EntryHash, Injective, Fresh;
    StartReached(h, rules);
    s := Locks(h, Start(rules), 0);
    s := Locks(h, s, 1);
    s := Reads(h, s, 0);
    s := Reads(h, s, 1);
    s := Appends(h, s, 0, c);
    s := Appends(h, s, 1, d);
    MergeFirst(h, c);
    s := Publishes(h, s, 0, [Signed(h, 1, c)]);
    MergeBoth(h, c, d);
    s := Publishes(h, s, 1, [Signed(h, 1, c), Signed(h, 2, d)]);
  }

  /** With exclusion alone, a second transaction reads the tip, waits until the first has
      committed, and appends over what it read. */
  lemma ForkOverStaleTip(h: Digest, rules: Rules, c: Content, d: Content) returns (s: State)
    requires Injective(h) && c != d && !rules.freshReads && !rules.lockFirst
    ensures Reached(h, s) && s.rules == rules && s.log == [Signed(h, 1, c), Signed(h, 2, d)]
  {
    hide Reached, Merge, EntryHash, Injective, Fresh;
    StartReached(h, rules);
    s := Reads(h, Start(rules), 0);
    s := Reads(h, s, 1);
    s := Appends(h, s, 0, c);
    MergeFirst(h, c);
    s := Publishes(h, s, 0, [Signed(h, 1, c)]);
    s := Appends(h, s, 1, d);
    MergeBoth(h, c, d);
    s := Publishes(h, s, 1, [Signed(h, 1, c), Signed(h, 2, d)]);
  }

  lemma MergeFirst(h: Digest, c: Content)
    ensures Merge([], [Signed(h, 1, c)]) == [Signed(h, 1, c)] && Fresh([], [Signed(h, 1, c)])
  {
    MergeEmpty([], [Signed(h, 1, c)]);
    assert [] + [Signed(h, 1, c)] == [Signed(h, 1, c)];
  }

  lemma MergeBoth(h: Digest, c: Content, d: Content)
    requires Injective(h) && c != d
    ensures Merge([Signed(h, 1, c)], [Signed(h, 2, d)]) == [Signed(h, 1, c), Signed(h, 2, d)]
    ensures Fresh([Signed(h, 1, c)], [Signed(h, 2, d)])
  {
    hide EntryHash, Merge, Injective;
    MergeAbove([Signed(h, 1, c)], [Signed(h, 2, d)]);
    assert [Signed(h, 1, c)] + [Signed(h, 2, d)] == [Signed(h, 1, c), Signed(h, 2, d)];
    if EntryHash(h, GENESIS_HASH, c) == EntryHash(h, GENESIS_HASH, d) {
      HashInjective(h, GENESIS_HASH, c, GENESIS_HASH, d);
    }
  }

  lemma ForkBreaks(h: Digest, c: Content, d: Content)
    ensures !Chained(h, [Signed(h, 1, c), Signed(h, 2, d)])
  {
    var log := [Signed(h, 1, c), Signed(h, 2, d)];
    NeverGenesis(h, GENESIS_HASH, c);
    assert log[..1] == [Signed(h, 1, c)];
    assert !PrevOk(log, 1);
  }

  /** Rules that do not suffice admit a run whose log does not verify. */
  lemma RunThatForks(h: Digest, rules: Rules) returns (run: seq<State>)
    requires Injective(h) && !Suffices(rules)
    ensures IsRun(h, rules, run) && !AlwaysVerifies(h, run)
  {
    hide IsRun, Chained, Injective, EntryHash;
    var c, d := Content(0, "a", "", "", "", "", ""), Content(0, "b", "", "", "", "", "");
    var s: State;
    if rules.exclusive {
      s := ForkOverStaleTip(h, rules, c, d);
    } else {
      s := ForkWithoutLock(h, rules, c, d);
    }
    run :| EndsIn(h, run, s);
    ForkBreaks(h, c, d);
    NotEmpty(h, rules, run);
    assert !Chained(h, run[|run| - 1].log);
  }

  lemma NotEmpty(h: Digest, rules: Rules, run: seq<State>)
    requires IsRun(h, rules, run)
    ensures |run| > 0
  {
  }

  /** Under any rules, every run leaves a log that verifies exactly when write
      transactions exclude each other, and either a stale read is refused or the lock is
      taken before the tip is read. */
  lemma VerifiesIff(h: Digest, rules: Rules)
    requires Injective(h)
    ensures (forall run | IsRun(h, rules, run) :: AlwaysVerifies(h, run))
            <==> rules.exclusive && (rules.freshReads || rules.lockFirst)
  {
    hide IsRun, AlwaysVerifies, Injective;
    if Suffices(rules) {
      forall run | IsRun(h, rules, run) ensures AlwaysVerifies(h, run) { RulesVerify(h, rules, run); }
    } else {
      var run := RunThatForks(h, rules);
    }
  }
}
