/**
 The checkpointed, resumable copy of every table from one database to another: chunks
 in primary-key order, one retried transaction each, a checkpoint after every table,
 and a crash possible before any durable action.
 */
module TableCopy {
  import opened Wrappers

  datatype Row = Row(key: int, data: string)

  /** The rows of a table in primary-key order. */
  type Rows = seq<Row>

  type TableId = nat

  predicate Keyed(rows: Rows) {
    forall i, j | 0 <= i < j < |rows| :: rows[i].key < rows[j].key
  }

  datatype Checkpoint = Checkpoint(sourceCounts: seq<nat>, completed: map<TableId, nat>)

  datatype TableResult = TableResult(sourceCount: nat, destBefore: nat, rowsCopied: nat, destAfter: nat)

  datatype Refusal = CheckpointExists | SourceChanged | DestinationNotEmpty | RowConflict

  datatype RunResult =
    | Reported(resumed: bool, tables: seq<TableResult>)
    | Refused(why: Refusal)
    | Stopped                       // crashed, or gave up on a transaction

  /** A report's own verdict: the counts match, table by table. */
  predicate ReportOk(tables: seq<TableResult>) {
    forall i | 0 <= i < |tables| :: tables[i].destAfter == tables[i].sourceCount
  }

  const MAX_ATTEMPTS: nat := 3

  /** What befalls a run: each durable action consumes one number, the transient
      failures it meets before it would succeed; where the list ends the run crashes. */
  type Faults = seq<nat>

  /** No transaction exhausts its attempts. */
  ghost predicate Mild(faults: Faults) {
    forall f | f in faults :: f < MAX_ATTEMPTS
  }

  function Counts(tables: seq<Rows>): (counts: seq<nat>)
    ensures |counts| == |tables|
  {
    seq(|tables|, i requires 0 <= i < |tables| => |tables[i]|)
  }

  function TotalRows(tables: seq<Rows>): nat {
    if tables == [] then 0 else TotalRows(tables[..|tables| - 1]) + |tables[|tables| - 1]|
  }

  /** The rows of `table` from `offset`, at most `limit`. */
  function Chunk(rows: Rows, offset: nat, limit: nat): (chunk: Rows)
    ensures |chunk| <= limit
    ensures offset <= |rows| ==> offset + |chunk| <= |rows| && rows[..offset] + chunk == rows[..offset + |chunk|]
    ensures chunk == [] <==> limit == 0 || offset >= |rows|
    ensures |chunk| < limit ==> offset + |chunk| >= |rows|
  {
    if offset >= |rows| then []
    else if offset + limit <= |rows| then rows[offset..offset + limit]
    else rows[offset..]
  }

  /** Every destination table holds a prefix of its source table. */
  ghost predicate Prefixes(dest: seq<Rows>, source: seq<Rows>) {
    |dest| == |source| && forall t | 0 <= t < |source| :: dest[t] <= source[t]
  }

  ghost predicate CheckpointOk(checkpoint: Option<Checkpoint>, dest: seq<Rows>, source: seq<Rows>)
    requires |dest| == |source|
  {
    checkpoint.Some? ==>
      && checkpoint.value.sourceCounts == Counts(source)
      && forall t | t in checkpoint.value.completed ::
           t < |source| && checkpoint.value.completed[t] == |dest[t]|
  }

  /** The tables recorded as completed are complete. */
  ghost predicate CompletedAreFull(checkpoint: Option<Checkpoint>, dest: seq<Rows>, source: seq<Rows>) {
    checkpoint.Some? ==>
      forall t | t in checkpoint.value.completed :: t < |dest| && t < |source| && dest[t] == source[t]
  }

  /** Equal counts are enough, of prefixes. */
  lemma CountsSuffice(dest: seq<Rows>, source: seq<Rows>)
    requires Prefixes(dest, source) && forall t | 0 <= t < |source| :: |dest[t]| == |source[t]|
    ensures dest == source
  {
    forall t | 0 <= t < |source| ensures dest[t] == source[t] {
      assert dest[t] <= source[t];
    }
  }

  lemma {:induction false} RowsUpTo(tables: seq<Rows>, t: nat)
    requires t < |tables|
    ensures TotalRows(tables[..t]) + |tables[t]| == TotalRows(tables[..t + 1])
  {
    assert tables[..t + 1][..t] == tables[..t];
  }

  /** A destination database and the checkpoint file beside it, both durable. */
  class Migration {
    const source: seq<Rows>
    var dest: seq<Rows>
    var checkpoint: Option<Checkpoint>

    ghost predicate Valid()
      reads this
    {
      && (forall t | 0 <= t < |source| :: Keyed(source[t]))
      && Prefixes(dest, source)
      && CheckpointOk(checkpoint, dest, source)
    }

    constructor (source: seq<Rows>)
      requires forall t | 0 <= t < |source| :: Keyed(source[t])
      ensures Valid() && this.source == source && checkpoint == None
      ensures forall t | 0 <= t < |source| :: dest[t] == []
    {
      this.source := source;
      dest := seq(|source|, _ => []);
      checkpoint := None;
    }

    /** The operator deletes the checkpoint file. */
    method DiscardCheckpoint()
      requires Valid()
      modifies this`checkpoint
      ensures Valid() && checkpoint == None
    {
      checkpoint := None;
    }

    /** Insert one chunk in one transaction, retried on transient failures. */
    method InsertWithRetry(t: TableId, rows: Rows, failures: nat) returns (error: Option<RunResult>)
      requires t < |dest|
      modifies this`dest
      ensures failures >= 3 ==> error == Some(Stopped) && dest == old(dest)
      ensures failures < 3 ==>
                if exists a, b :: a in old(dest)[t] && b in rows && a.key == b.key
                then error == Some(Refused(RowConflict)) && dest == old(dest)
                else error == None && dest == old(dest)[t := old(dest)[t] + rows]
    {
      var attempt := 0;
      while true
        invariant attempt <= failures && attempt < MAX_ATTEMPTS && dest == old(dest)
        decreases MAX_ATTEMPTS - attempt
      {
        attempt := attempt + 1;
        if attempt <= failures {
          if attempt < MAX_ATTEMPTS { continue; }
          return Some(Stopped);
        }
        if exists a, b :: a in dest[t] && b in rows && a.key == b.key {
          return Some(Refused(RowConflict));
        }
        dest := dest[t := dest[t] + rows];
        return None;
      }
    }

    /** Copy one table from where its destination stands, chunk by chunk. */
    method CopyTable(t: TableId, chunkSize: nat, alreadyCopied: nat, faults: Faults)
      returns (copied: nat, error: Option<RunResult>, rest: Faults)
      requires Valid() && t < |source| && alreadyCopied == |dest[t]|
      modifies this`dest
      ensures alreadyCopied + copied <= |source[t]|
      ensures dest == old(dest)[t := source[t][..alreadyCopied + copied]]
      ensures error.None? && chunkSize > 0 ==> alreadyCopied + copied == |source[t]|
      ensures error.Some? ==> error == Some(Stopped)
      ensures |rest| <= |faults| && (Mild(faults) ==> Mild(rest))
      ensures error.None? ==> |faults| <= |rest| + copied
      ensures Mild(faults) && |faults| >= |source[t]| - alreadyCopied ==> error.None?
    {
      hide Keyed, CheckpointOk;
      var offset := alreadyCopied;
      copied, rest := 0, faults;
      assert dest[t] == source[t][..offset];
      assert dest == dest[t := dest[t]];
      while true
        invariant offset == alreadyCopied + copied <= |source[t]|
        invariant dest == old(dest)[t := source[t][..offset]]
        invariant |faults| <= |rest| + copied && |rest| <= |faults| && (Mild(faults) ==> Mild(rest))
        decreases |source[t]| - offset
      {
        var rows := Chunk(source[t], offset, chunkSize);
        if rows == [] { return copied, None, rest; }
        if rest == [] { return copied, Some(Stopped), rest; }
        var failures := rest[0];
        MildRest(rest);
        rest := rest[1..];
        NoConflict(source[t], offset, rows);
        var failed := InsertWithRetry(t, rows, failures);
        if failed.Some? { return copied, failed, rest; }
        copied := copied + |rows|;
        offset := offset + |rows|;
      }
    }

    /** The destination must be empty when there is no checkpoint to continue from. */
    method DestinationEmpty() returns (empty: bool)
      ensures empty <==> forall t | 0 <= t < |dest| :: dest[t] == []
    {
      for t := 0 to |dest|
        invariant forall u | 0 <= u < t :: dest[u] == []
      {
        if |dest[t]| > 0 { return false; }
      }
      return true;
    }

    /** Continue from the checkpoint, or insist on an empty destination and start one. */
    method Begin(resume: bool, faults: Faults)
      returns (error: Option<RunResult>, completed: map<TableId, nat>, rest: Faults)
      requires Valid()
      modifies this`checkpoint
      ensures Valid() && |faults| - 1 <= |rest| <= |faults| && (Mild(faults) ==> Mild(rest))
      ensures error.None? ==> checkpoint == Some(Checkpoint(Counts(source), completed))
      ensures error.None? ==> forall t | 0 <= t < |source| :: checkpoint.value.sourceCounts[t] == |source[t]|
      ensures error.Some? ==> checkpoint == old(checkpoint)
      ensures old(checkpoint).Some? ==>
                error == (if resume then None else Some(Refused(CheckpointExists)))
                    && (resume ==> checkpoint == old(checkpoint))
      ensures old(checkpoint).None? ==>
                error == if exists t :: 0 <= t < |source| && dest[t] != [] then Some(Refused(DestinationNotEmpty))
                         else if faults == [] then Some(Stopped) else None
      ensures old(checkpoint).None? && error.None? ==> completed == map[]
      ensures CompletedAreFull(old(checkpoint), dest, source) ==> CompletedAreFull(checkpoint, dest, source)
    {
      var counts := Counts(source);
      rest, completed := faults, map[];
      if checkpoint.Some? {
        if !resume { return Some(Refused(CheckpointExists)), completed, rest; }
        if checkpoint.value.sourceCounts != counts { return Some(Refused(SourceChanged)), completed, rest; }
        return None, checkpoint.value.completed, rest;
      }
      var empty := DestinationEmpty();
      if !empty { return Some(Refused(DestinationNotEmpty)), completed, rest; }
      if rest == [] { return Some(Stopped), completed, rest; }
      MildRest(rest);
      rest := rest[1..];
      checkpoint := Some(Checkpoint(counts, completed));
      return None, completed, rest;
    }

    /** Skip a completed table; otherwise copy it and record it in the checkpoint. */
    method CopyNext(t: TableId, chunkSize: nat, completed: map<TableId, nat>, faults: Faults)
      returns (result: TableResult, error: Option<RunResult>, after: map<TableId, nat>, rest: Faults)
      requires Valid() && t < |source| && checkpoint == Some(Checkpoint(Counts(source), completed))
      modifies this`dest, this`checkpoint
      ensures Valid() && checkpoint == Some(Checkpoint(Counts(source), after))
      ensures forall u | 0 <= u < |source| && u != t :: dest[u] == old(dest)[u]
      ensures old(dest)[t] <= dest[t]
      ensures error.Some? ==> error == Some(Stopped) && after == completed
      ensures error.None? ==> after == completed[t := |dest[t]|]
      ensures error.None? ==> result.sourceCount == |source[t]| && result.destAfter == |dest[t]|
      ensures t in completed ==> dest == old(dest)
      ensures t !in completed && error.None? && chunkSize > 0 ==> dest[t] == source[t]
      ensures chunkSize > 0 && CompletedAreFull(old(checkpoint), old(dest), source) ==>
                CompletedAreFull(checkpoint, dest, source)
      ensures |rest| <= |faults| && (Mild(faults) ==> Mild(rest))
      ensures error.None? ==> |faults| <= |rest| + |source[t]| + 1
      ensures Mild(faults) && |faults| > |source[t]| ==> error.None?
    {
      if t in completed {
        assert completed == completed[t := |dest[t]|];
        return TableResult(|source[t]|, completed[t], 0, completed[t]), None, completed, faults;
      }
      var before := |dest[t]|;
      var copied;
      copied, error, rest := CopyTable(t, chunkSize, before, faults);
      PrefixGrown(old(dest), source, t, before + copied);
      result, after := TableResult(|source[t]|, before, copied, |dest[t]|), completed;
      if error.Some? { return; }
      if rest == [] { error := Some(Stopped); return; }
      MildRest(rest);
      rest := rest[1..];
      after := completed[t := |dest[t]|];
      checkpoint := Some(Checkpoint(Counts(source), after));
    }

    /** Copy, or continue copying, every table. A refusal changes nothing; whatever
        stops a run, every destination table stays a prefix of its source; and a report
        whose counts match means the databases are equal. */
    method CopyAllTables(resume: bool, chunkSize: nat, faults: Faults) returns (r: RunResult)
      requires Valid()
      modifies this`dest, this`checkpoint
      ensures Valid()
      ensures forall t | 0 <= t < |source| :: old(dest)[t] <= dest[t]
      ensures r.Refused? <==>
                if old(checkpoint).Some? then !resume
                else exists t :: 0 <= t < |source| && old(dest)[t] != []
      ensures r.Refused? ==> dest == old(dest) && checkpoint == old(checkpoint)
      ensures r.Refused? ==> r.why == if old(checkpoint).Some? then CheckpointExists else DestinationNotEmpty
      ensures r.Reported? ==> |r.tables| == |source| && r.resumed == old(checkpoint).Some?
      ensures r.Reported? ==> forall t | 0 <= t < |source| :: r.tables[t].sourceCount == |source[t]|
      ensures r.Reported? ==> forall t | 0 <= t < |source| :: r.tables[t].destAfter == |dest[t]|
      ensures r.Reported? ==> (ReportOk(r.tables) <==> dest == source)
      ensures r.Reported? && ReportOk(r.tables) ==> checkpoint == None
      ensures chunkSize > 0 && CompletedAreFull(old(checkpoint), old(dest), source) ==>
                CompletedAreFull(checkpoint, dest, source) && (r.Reported? ==> ReportOk(r.tables))
      ensures Mild(faults) && |faults| >= TotalRows(source) + |source| + 2 ==> !r.Stopped?
    {
      hide Keyed, Counts, TotalRows, Mild, Prefixes, CheckpointOk, CompletedAreFull;
      PrefixesMeet(dest, source);
      var resumed := checkpoint.Some?;
      var error, completed, rest := Begin(resume, faults);
      if error.Some? { return error.value; }
      var results: seq<TableResult> := [];
      NoRows(source);
      for t := 0 to |source|
        invariant Valid() && checkpoint == Some(Checkpoint(Counts(source), completed)) && |dest| == |source|
        invariant forall u | 0 <= u < |source| :: old(dest)[u] <= dest[u]
        invariant |results| == t
        invariant forall u | 0 <= u < t :: results[u].sourceCount == |source[u]| && results[u].destAfter == |dest[u]|
        invariant forall u | 0 <= u < t :: u in completed
        invariant chunkSize > 0 && CompletedAreFull(old(checkpoint), old(dest), source) ==>
                    CompletedAreFull(checkpoint, dest, source)
        invariant |rest| <= |faults| && (Mild(faults) ==> Mild(rest))
        invariant |faults| <= |rest| + 1 + t + TotalRows(source[..t])
      {
        RowsUpTo(source, t);
        RowsBelow(source, t + 1);
        var result, failed, after, left := CopyNext(t, chunkSize, completed, rest);
        completed, rest := after, left;
        PrefixesMeet(dest, source);
        if failed.Some? { return failed.value; }
        results := results + [result];
      }
      assert source[..|source|] == source;
      FullMeans(checkpoint, dest, source);
      if ReportOk(results) {
        CountsSuffice(dest, source);
        if rest == [] { return Stopped; }
        NoCheckpoint(dest, source);
        checkpoint := None;
      }
      return Reported(resumed, results);
    }
  }

  lemma NoRows(tables: seq<Rows>)
    ensures TotalRows(tables[..0]) == 0
  {
  }

  /** The next chunk in key order never meets a key already copied. */
  lemma NoConflict(rows: Rows, offset: nat, chunk: Rows)
    requires Keyed(rows) && offset <= |rows| && rows[..offset] + chunk <= rows
    ensures !exists a, b :: a in rows[..offset] && b in chunk && a.key == b.key
  {
    forall a, b | a in rows[..offset] && b in chunk ensures a.key != b.key {
      var i :| 0 <= i < offset && rows[i] == a;
      var j :| 0 <= j < |chunk| && chunk[j] == b;
      assert (rows[..offset] + chunk)[offset + j] == rows[offset + j];
    }
  }

  lemma {:induction false} RowsBelow(tables: seq<Rows>, t: nat)
    requires t <= |tables|
    ensures TotalRows(tables[..t]) <= TotalRows(tables)
    decreases |tables| - t
  {
    if t < |tables| {
      RowsUpTo(tables, t);
      RowsBelow(tables, t + 1);
    } else {
      assert tables[..t] == tables;
    }
  }

  lemma MildRest(faults: Faults)
    requires faults != []
    ensures Mild(faults) ==> faults[0] < MAX_ATTEMPTS && Mild(faults[1..])
  {
    assert faults[0] in faults;
    assert forall f | f in faults[1..] :: f in faults;
  }

  lemma PrefixesMeet(dest: seq<Rows>, source: seq<Rows>)
    requires Prefixes(dest, source)
    ensures |dest| == |source| && forall t | 0 <= t < |source| :: dest[t] <= source[t]
  {
  }

  lemma NoCheckpoint(dest: seq<Rows>, source: seq<Rows>)
    requires |dest| == |source|
    ensures CheckpointOk(None, dest, source) && CompletedAreFull(None, dest, source)
  {
  }

  lemma FullMeans(checkpoint: Option<Checkpoint>, dest: seq<Rows>, source: seq<Rows>)
    requires checkpoint.Some?
    ensures CompletedAreFull(checkpoint, dest, source) ==>
              forall t | t in checkpoint.value.completed :: t < |dest| && t < |source| && dest[t] == source[t]
  {
  }

  lemma PrefixGrown(dest: seq<Rows>, source: seq<Rows>, t: TableId, k: nat)
    requires Prefixes(dest, source) && t < |source| && |dest[t]| <= k <= |source[t]|
    ensures Prefixes(dest[t := source[t][..k]], source) && dest[t] <= source[t][..k]
  {
  }
}
