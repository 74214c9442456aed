/**
 A retry's idempotency key carries its parent. Keys of retries never collide across
 parents; a plain request's own key may still spell a retry's, and then one answers for
 the other.
 */
module RetryKeys {
  import opened Wrappers
  import opened StateMachine
  import opened OperationStore
  import opened UseCases
  import opened Histories
  import Text

  // ---------------------------------------------------------------- keys

  lemma NoColon(n: nat)
    ensures ':' !in Text.Decimal(n)
  {
    forall i | 0 <= i < |Text.Decimal(n)| ensures Text.Decimal(n)[i] != ':' {
      assert Text.IsDigit(Text.Decimal(n)[i]);
    }
  }

  function UpToColon(s: string): string {
    if s == [] || s[0] == ':' then [] else [s[0]] + UpToColon(s[1..])
  }

  lemma {:induction false} ColonEnds(a: string, k: string)
    requires ':' !in a
    ensures UpToColon(a + ":" + k) == a
  {
    if a != [] {
      assert a[0] in a && forall c | c in a[1..] :: c in a;
      ColonEnds(a[1..], k);
      assert (a + ":" + k)[1..] == a[1..] + ":" + k;
    }
  }

  function Spelled(parent: OpId, k: string): string {
    "retry:" + Text.Decimal(parent) + ":" + k
  }

  lemma SpelledOnce(p: OpId, k: string, q: OpId, l: string)
    requires Spelled(p, k) == Spelled(q, l)
    ensures p == q && k == l
  {
    var a, b := Text.Decimal(p), Text.Decimal(q);
    assert Spelled(p, k)[6..] == a + ":" + k && Spelled(q, l)[6..] == b + ":" + l;
    NoColon(p);
    NoColon(q);
    ColonEnds(a, k);
    ColonEnds(b, l);
    assert k == (a + ":" + k)[|a| + 1..] && l == (b + ":" + l)[|b| + 1..];
    Text.DecimalValue(p);
    Text.DecimalValue(q);
  }

  /** Equal stored keys of retries come from one parent and one key. */
  lemma RetryKeyIsInjective(p: OpId, k: Option<string>, q: OpId, l: Option<string>)
    requires RetryKey(p, k) == RetryKey(q, l) && RetryKey(p, k).Some?
    ensures p == q && k == l
  {
    SpelledOnce(p, k.value, q, l.value);
  }

  // ---------------------------------------------------------------- histories

  /** A retry's stored key spells its parent. */
  ghost predicate KeyOk(origin: Origin) {
    origin.parent.Some? && origin.idempotencyKey.Some? ==> Spells(origin.idempotencyKey, origin.parent.value)
  }

  ghost predicate Spells(key: Option<string>, parent: OpId) {
    exists k: string :: key == Some(Spelled(parent, k))
  }

  ghost predicate KeysOk(db: Db) {
    forall id | id in db.ops :: KeyOk(db.ops[id].row.origin)
  }

  lemma NewKeyOk(db: Db, now: Time, request: Request)
    requires Passed(db, now, request) && Keyed(db)
    ensures KeyOk(NewOrigin(db, request))
  {
    hide RecentIn, AncestorAt, LazyOp;
    if request.Retry? && request.sub.key.Some? {
      SpellsIf(request.parent, request.sub.key.value);
    }
  }

  lemma SpellsIf(parent: OpId, k: string)
    ensures Spells(Some(Spelled(parent, k)), parent)
  {
  }

  lemma StepKeeps(db: Db, v2: bool, step: Timed)
    requires Keyed(db) && KeysOk(db) && Possible(db, step)
    ensures Keyed(After(db, v2, step)) && KeysOk(After(db, v2, step))
  {
    hide After, Passed, Evolves, KeyOk, Possible, Keyed;
    AfterSteps(db, v2, step);
    var after := After(db, v2, step);
    forall id | id in after.ops ensures KeyOk(after.ops[id].row.origin) {
      if id in db.ops {
        SameOrigin(db.ops[id], after.ops[id]);
      } else {
        NewKeyOk(db, step.now, step.request);
      }
    }
  }

  lemma {:induction false} HistoryKeeps(dbs: seq<Db>, steps: seq<Timed>, v2: bool, i: nat)
    requires IsHistory(dbs, steps, v2) && i < |dbs|
    ensures Keyed(dbs[i]) && KeysOk(dbs[i])
  {
    hide After;
    if i > 0 {
      HistoryKeeps(dbs, steps, v2, i - 1);
      StepKeeps(dbs[i - 1], v2, steps[i - 1]);
    }
  }

  /** The request was answered with an operation submitted before. */
  ghost predicate Replays(db: Db, v2: bool, step: Timed) {
    && step.Do? && (step.request.Prepare? || (step.request.Retry? && step.request.parent in db.ops))
    && var r := Perform(db, step.now, v2, step.request).result;
       r.Success? && r.value.replayed
  }

  ghost function Replayed(db: Db, v2: bool, step: Timed): Origin
    requires Replays(db, v2, step)
  {
    Perform(db, step.now, v2, step.request).result.value.row.origin
  }

  lemma IntakeIsNew(handle: OpId, origin: Origin, entry: Entry, checks: Checks, now: Time, v2: bool)
    ensures var r := Intake(handle, origin, entry, checks, now, v2).result; r.Success? ==> !r.value.replayed
  {
  }

  /** What a replay answers with holds the slot of what was submitted. */
  lemma SubmitReplays(
    db: Db, base: Db, now: Time, v2: bool, handle: OpId, origin: Origin, entry: Entry, checks: Checks)
    requires KeysOk(db)
    requires var r := Submit(db, base, now, v2, handle, origin, entry, checks).result; r.Success? && r.value.replayed
    ensures var held := Submit(db, base, now, v2, handle, origin, entry, checks).result.value.row.origin;
            held.idempotencyKey == origin.idempotencyKey && held.idempotencyKey.Some? && KeyOk(held)
  {
    hide Intake, RecentIn, KeyOk, Expiry, FindKey;
    IntakeIsNew(handle, origin, entry, checks, now, v2);
    var found := FindKey(db, origin);
    if found.Some? {
      FoundKey(db, origin);
      ExpireEvolves(db, now, found.value);
      SameOrigin(db.ops[found.value], Expire(db, now, found.value).ops[found.value]);
    }
  }

  lemma ExpireKeepsKeys(db: Db, now: Time, id: OpId)
    requires id in db.ops && KeysOk(db)
    ensures KeysOk(Expire(db, now, id)) && id in Expire(db, now, id).ops
    ensures Expire(db, now, id).ops[id].row.origin == db.ops[id].row.origin
    ensures Expire(db, now, id).ops[id].row.id == db.ops[id].row.id
  {
    hide Expire, Evolves, KeyOk, LazyOp;
    ExpireEvolves(db, now, id);
    var seen := Expire(db, now, id);
    forall k | k in seen.ops ensures seen.ops[k].row.origin == db.ops[k].row.origin {
      SameOrigin(db.ops[k], seen.ops[k]);
    }
    SameOrigin(db.ops[id], seen.ops[id]);
  }

  lemma ReplayHolds(db: Db, v2: bool, step: Timed)
    requires Keyed(db) && KeysOk(db) && Replays(db, v2, step)
    ensures var held, origin := Replayed(db, v2, step), NewOrigin(db, step.request);
            && held.idempotencyKey == origin.idempotencyKey && held.idempotencyKey.Some? && KeyOk(held)
            && KeyOk(origin)
  {
    hide Submit, KeyOk, Expire, AncestorAt;
    var sub := step.request.sub;
    match step.request
    case Prepare(_, w, args) =>
      SubmitReplays(db, db, step.now, v2, sub.handle, PrepareOrigin(sub, w, args), sub.entry, sub.checks);
      PlainKeyOk(sub, w, args);
    case Retry(parent, visible, _) =>
      ExpireKeepsKeys(db, step.now, parent);
      var seen := Expire(db, step.now, parent);
      var row := seen.ops[parent].row;
      SubmitReplays(seen, db, step.now, v2, sub.handle, RetryOrigin(row, sub), sub.entry, sub.checks);
      RetryKeyOk(row, sub);
  }

  lemma PlainKeyOk(sub: Submission, w: WorkflowId, args: string)
    ensures KeyOk(PrepareOrigin(sub, w, args))
  {
  }

  lemma RetryKeyOk(row: Row, sub: Submission)
    ensures KeyOk(RetryOrigin(row, sub))
  {
    if sub.key.Some? { SpellsIf(row.id, sub.key.value); }
  }

  lemma SpelledParent(key: Option<string>, p: OpId, q: OpId)
    requires Spells(key, p) && Spells(key, q)
    ensures p == q
  {
    var k: string :| key == Some(Spelled(p, k));
    var l: string :| key == Some(Spelled(q, l));
    SpelledOnce(p, k, q, l);
  }

  /** In every history a replay answers with an operation of the submitted parent exactly
      when both were retries or neither was; and where they differ, the plain request's
      own key spells the retry's. */
  lemma ReplayHasParentIff(dbs: seq<Db>, steps: seq<Timed>, v2: bool, i: nat)
    requires IsHistory(dbs, steps, v2) && i < |steps| && Replays(dbs[i], v2, steps[i])
    ensures var held, origin := Replayed(dbs[i], v2, steps[i]), NewOrigin(dbs[i], steps[i].request);
            && (held.parent == origin.parent <==> (held.parent.Some? <==> origin.parent.Some?))
            && (held.parent.None? && origin.parent.Some? ==> Spells(held.idempotencyKey, origin.parent.value))
            && (held.parent.Some? && origin.parent.None? ==> Spells(origin.idempotencyKey, held.parent.value))
  {
    hide After, Keyed, KeysOk, Replayed, Spells, NewOrigin, Perform;
    HistoryKeeps(dbs, steps, v2, i);
    ReplayHolds(dbs[i], v2, steps[i]);
    var held, origin := Replayed(dbs[i], v2, steps[i]), NewOrigin(dbs[i], steps[i].request);
    if held.parent.Some? && origin.parent.Some? {
      SpelledParent(held.idempotencyKey, held.parent.value, origin.parent.value);
    }
  }

  // ---------------------------------------------------------------- it happens

  const OPEN := Entry(None, 1, false, 1, [], 0, 0)

  function Asking(handle: OpId, key: Option<string>, ready: bool): Submission {
    Submission(handle, "a", "prod", key, 0, OPEN, Checks(true, true, ready))
  }

  /** A prepare that fails preflight; one whose own key spells a retry of the first; and
      that retry. */
  const BLOCKED := Do(0, Prepare(Asking(0, None, false), "w", "{}"), false)
  const SPELLED := Do(0, Prepare(Asking(1, Some(Spelled(0, "k")), true), "w", "{}"), false)
  const RETRIED := Do(0, Retry(0, true, Asking(2, Some("k"), true)), false)

  /** A new operation answered nothing before: it is stored where its checks send it. */
  lemma Created(db: Db, v2: bool, handle: OpId, key: Option<string>, ready: bool)
    requires handle !in db.ops && FindKey(db, PrepareOrigin(Asking(handle, key, ready), "w", "{}")).None?
    ensures var after := After(db, v2, Do(0, Prepare(Asking(handle, key, ready), "w", "{}"), false));
            && after.ops.Keys == db.ops.Keys + {handle}
            && (forall k | k in db.ops :: after.ops[k] == db.ops[k])
            && var row := after.ops[handle].row;
               && row.origin == PrepareOrigin(Asking(handle, key, ready), "w", "{}") && row.id == handle
               && row.state == (if ready then Approved else Blocked)
               && row.executionDeadline == (if ready then Some(0) else None)
  {
    hide FindKey;
    CreationIsLegal();
  }

  lemma CreationIsLegal()
    ensures ValidateTransition(T03, Some(Preparing)).Success? && ValidateTransition(T05, Some(Preparing)).Success?
  {
  }

  lemma NoKeyHeld(db: Db, origin: Origin)
    requires forall id | id in db.ops :: db.ops[id].row.origin.idempotencyKey != origin.idempotencyKey
    ensures FindKey(db, origin).None?
  {
  }

  lemma NobodyAsked(db: Db, origin: Origin)
    requires origin.idempotencyKey.None?
    ensures FindKey(db, origin).None?
  {
  }

  lemma OnlyHolder(db: Db, origin: Origin, id: OpId)
    requires HoldsKey(db, id, origin)
    requires forall k | k in db.ops && k != id :: db.ops[k].row.origin.idempotencyKey != origin.idempotencyKey
    ensures FindKey(db, origin) == Some(id)
  {
  }

  /** The retry of operation 0 is answered with operation 1, which is nobody's retry. */
  lemma PlainKeyAnswersRetry(v2: bool)
    ensures var db1 := After(EMPTY, v2, BLOCKED); var db2 := After(db1, v2, SPELLED);
            && IsHistory([EMPTY, db1, db2, After(db2, v2, RETRIED)], [BLOCKED, SPELLED, RETRIED], v2)
            && Replays(db2, v2, RETRIED) && Replayed(db2, v2, RETRIED).parent == None
  {
    hide After, FindKey, Spelled;
    var db1 := After(EMPTY, v2, BLOCKED);
    var db2 := After(db1, v2, SPELLED);
    NobodyAsked(EMPTY, PrepareOrigin(Asking(0, None, false), "w", "{}"));
    Created(EMPTY, v2, 0, None, false);
    NoKeyHeld(db1, PrepareOrigin(Asking(1, Some(Spelled(0, "k")), true), "w", "{}"));
    Created(db1, v2, 1, Some(Spelled(0, "k")), true);
    AnsweredBy(db2, v2);
  }

  lemma AnsweredBy(db: Db, v2: bool)
    requires db.ops.Keys == {0, 1}
    requires var row := db.ops[0].row;
             && row.id == 0 && row.state == Blocked && row.origin == PrepareOrigin(Asking(0, None, false), "w", "{}")
    requires var row := db.ops[1].row;
             && row.id == 1 && row.state == Approved && row.executionDeadline == Some(0)
             && row.origin == PrepareOrigin(Asking(1, Some(Spelled(0, "k")), true), "w", "{}")
    ensures Replays(db, v2, RETRIED) && Replayed(db, v2, RETRIED).parent == None
  {
    hide FindKey, RecentIn;
    PutSame(db, 0);
    PutSame(db, 1);
    assert Expire(db, 0, 0) == db && Expire(db, 0, 1) == db;
    assert AncestorAt(db, 0, 1).None? by { assert AncestorAt(db, 0, 0) == Some(0); }
    NoneAboveZero(db, MAX_RETRY_CHAIN_DEPTH);
    assert RetryKey(0, Some("k")) == Some(Spelled(0, "k"));
    OnlyHolder(db, RetryOrigin(db.ops[0].row, RETRIED.request.sub), 1);
  }

  lemma {:induction false} NoneAboveZero(db: Db, k: nat)
    requires AncestorAt(db, 0, 1).None? && k >= 1
    ensures AncestorAt(db, 0, k).None?
  {
    if k > 1 { NoneAboveZero(db, k - 1); }
  }
}
