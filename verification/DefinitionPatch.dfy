/**
 Applying the entries of a generic diff to the registered value rebuilds the live one:
 the diff leaves nothing out and invents nothing.
 */
module DefinitionPatch {
  import opened DefinitionDiff
  import opened JsonValue
  import opened Text

  /** Apply one change at a path; a removal from an array cuts it there. */
  function PatchAt(doc: Json, path: Path, change: Change): Json
    decreases |path|
  {
    if path == [] then (if change.Modified? then change.live else doc)
    else if path[0].Key? && doc.Obj? then
      var k := path[0].name;
      if |path| == 1 && change.Added? then Obj(doc.fields[k := change.live])
      else if |path| == 1 && change.Removed? then Obj(doc.fields - {k})
      else if k in doc.fields then Obj(doc.fields[k := PatchAt(doc.fields[k], path[1..], change)])
      else doc
    else if path[0].Index? && doc.Arr? then
      var i := path[0].at;
      if |path| == 1 && change.Added? then (if i <= |doc.items| then Arr(doc.items[..i] + [change.live]) else doc)
      else if |path| == 1 && change.Removed? then (if i <= |doc.items| then Arr(doc.items[..i]) else doc)
      else if i < |doc.items| then Arr(doc.items[i := PatchAt(doc.items[i], path[1..], change)])
      else doc
    else doc
  }

  /** Apply entries in order, reading their paths from `depth` on. */
  function Patch(doc: Json, entries: seq<Entry>, depth: nat): Json
    requires forall e | e in entries :: depth <= |e.path|
  {
    if entries == [] then doc
    else
      var last := entries[|entries| - 1];
      assert last in entries;
      PatchAt(Patch(doc, entries[..|entries| - 1], depth), last.path[depth..], last.change)
  }

  /** Entries at or below `path`; one at `path` itself replaces the value. */
  ghost predicate Under(entries: seq<Entry>, path: Path) {
    forall e | e in entries ::
      && path <= e.path
      && (e.change.Added? || e.change.Removed? || e.change.Modified?)
      && (e.path == path ==> e.change.Modified?)
  }

  lemma {:induction false} DiffIsUnder(r: Json, l: Json, path: Path)
    ensures Under(GenericDiff(r, l, path), path)
    decreases r, 2, 0
  {
    hide PyEq;
    if PyEq(r, l) {
    } else if r.Obj? && l.Obj? {
      SortedKeeps(r.fields.Keys + l.fields.Keys);
      KeysAreUnder(r, l, Sorted(r.fields.Keys + l.fields.Keys), path);
    } else if r.Arr? && l.Arr? {
      IndexesAreUnder(r, l, Longer(r.items, l.items), path);
    }
  }

  lemma {:induction false} KeysAreUnder(r: Json, l: Json, keys: seq<string>, path: Path)
    requires r.Obj? && l.Obj? && forall k | k in keys :: k in r.fields || k in l.fields
    ensures Under(KeysDiff(r, l, keys, path), path)
    decreases r, 1, |keys|
  {
    if keys != [] {
      var key := keys[|keys| - 1];
      KeysAreUnder(r, l, keys[..|keys| - 1], path);
      if key in r.fields && key in l.fields {
        DiffIsUnder(r.fields[key], l.fields[key], path + [Key(key)]);
      }
    }
  }

  lemma {:induction false} IndexesAreUnder(r: Json, l: Json, n: nat, path: Path)
    requires r.Arr? && l.Arr? && (n <= |r.items| || n <= |l.items|)
    ensures Under(IndexesDiff(r, l, n, path), path)
    decreases r, 1, n
  {
    if n > 0 {
      IndexesAreUnder(r, l, n - 1, path);
      if n - 1 < |r.items| && n - 1 < |l.items| {
        DiffIsUnder(r.items[n - 1], l.items[n - 1], path + [Index(n - 1)]);
      }
    }
  }

  lemma {:induction false} PatchConcat(doc: Json, a: seq<Entry>, b: seq<Entry>, depth: nat)
    requires forall e | e in a + b :: depth <= |e.path|
    ensures forall e | e in a :: e in a + b
    ensures forall e | e in b :: e in a + b
    ensures Patch(doc, a + b, depth) == Patch(Patch(doc, a, depth), b, depth)
  {
    if b == [] {
      assert a + b == a;
    } else {
      var n := |b| - 1;
      assert (a + b)[..|a + b| - 1] == a + b[..n];
      PatchConcat(doc, a, b[..n], depth);
    }
  }

  /** Entries below one key patch that member and nothing else. */
  lemma {:induction false} PatchUnderKey(doc: Json, key: string, entries: seq<Entry>, path: Path)
    requires doc.Obj? && key in doc.fields && Under(entries, path + [Key(key)])
    ensures forall e | e in entries :: |path| + 1 <= |e.path|
    ensures Patch(doc, entries, |path|) == Obj(doc.fields[key := Patch(doc.fields[key], entries, |path| + 1)])
  {
    if entries == [] {
      assert doc.fields[key := doc.fields[key]] == doc.fields;
    } else {
      var init, last := entries[..|entries| - 1], entries[|entries| - 1];
      PatchUnderKey(doc, key, init, path);
      assert last in entries;
      var inner := Patch(doc.fields[key], init, |path| + 1);
      OneUnderKey(Obj(doc.fields[key := inner]), key, last, path);
      assert doc.fields[key := inner][key := PatchAt(inner, last.path[|path| + 1..], last.change)]
          == doc.fields[key := PatchAt(inner, last.path[|path| + 1..], last.change)];
    }
  }

  lemma OneUnderKey(doc: Json, key: string, e: Entry, path: Path)
    requires doc.Obj? && key in doc.fields && path + [Key(key)] <= e.path
    requires e.path == path + [Key(key)] ==> e.change.Modified?
    ensures PatchAt(doc, e.path[|path|..], e.change)
            == Obj(doc.fields[key := PatchAt(doc.fields[key], e.path[|path| + 1..], e.change)])
  {
    var rest := e.path[|path|..];
    assert e.path[|path|] == (path + [Key(key)])[|path|];
    assert rest[0] == Key(key) && rest[1..] == e.path[|path| + 1..];
    if |rest| == 1 {
      assert e.path == path + [Key(key)];
    }
  }

  lemma {:induction false} PatchUnderIndex(doc: Json, i: nat, entries: seq<Entry>, path: Path)
    requires doc.Arr? && i < |doc.items| && Under(entries, path + [Index(i)])
    ensures forall e | e in entries :: |path| + 1 <= |e.path|
    ensures Patch(doc, entries, |path|) == Arr(doc.items[i := Patch(doc.items[i], entries, |path| + 1)])
  {
    if entries == [] {
      assert doc.items[i := doc.items[i]] == doc.items;
    } else {
      var init, last := entries[..|entries| - 1], entries[|entries| - 1];
      PatchUnderIndex(doc, i, init, path);
      assert last in entries;
      var inner := Patch(doc.items[i], init, |path| + 1);
      OneUnderIndex(Arr(doc.items[i := inner]), i, last, path);
      assert doc.items[i := inner][i := PatchAt(inner, last.path[|path| + 1..], last.change)]
          == doc.items[i := PatchAt(inner, last.path[|path| + 1..], last.change)];
    }
  }

  lemma OneUnderIndex(doc: Json, i: nat, e: Entry, path: Path)
    requires doc.Arr? && i < |doc.items| && path + [Index(i)] <= e.path
    requires e.path == path + [Index(i)] ==> e.change.Modified?
    ensures PatchAt(doc, e.path[|path|..], e.change)
            == Arr(doc.items[i := PatchAt(doc.items[i], e.path[|path| + 1..], e.change)])
  {
    var rest := e.path[|path|..];
    assert e.path[|path|] == (path + [Index(i)])[|path|];
    assert rest[0] == Index(i) && rest[1..] == e.path[|path| + 1..];
    if |rest| == 1 {
      assert e.path == path + [Index(i)];
    }
  }

  // ---------------------------------------------------------------- one member, one item

  /** A member is as the live side has it. */
  ghost predicate MemberIs(doc: Json, l: Json, key: string)
    requires doc.Obj? && l.Obj?
  {
    (key in doc.fields <==> key in l.fields) && (key in l.fields ==> PyEq(doc.fields[key], l.fields[key]))
  }

  /** A member is untouched. */
  ghost predicate MemberKept(doc: Json, r: Json, key: string)
    requires doc.Obj? && r.Obj?
  {
    (key in doc.fields <==> key in r.fields) && (key in r.fields ==> doc.fields[key] == r.fields[key])
  }

  /** One addition or removal just below `path`. */
  lemma PatchOne(doc: Json, step: Step, change: Change, path: Path)
    requires change.Added? || change.Removed?
    ensures Under([Entry(path + [step], change)], path)
    ensures Patch(doc, [Entry(path + [step], change)], |path|) == PatchAt(doc, [step], change)
  {
    hide PatchAt;
    var e := Entry(path + [step], change);
    assert e.path[|path|..] == [step] && [e][..0] == [];
  }

  lemma PatchKey(doc: Json, r: Json, l: Json, key: string, path: Path)
    requires doc.Obj? && r.Obj? && l.Obj? && (key in r.fields || key in l.fields)
    requires MemberKept(doc, r, key)
    requires key in r.fields && key in l.fields ==> Rebuilds(r.fields[key], l.fields[key], path + [Key(key)])
    ensures Under(KeyDiff(r, l, key, path), path)
    ensures var after := Patch(doc, KeyDiff(r, l, key, path), |path|);
            after.Obj? && MemberIs(after, l, key) && forall k | k != key :: MemberKept(after, doc, k)
  {
    hide PyEq, Patch, GenericDiff;
    if key !in r.fields {
      PatchOne(doc, Key(key), Added(l.fields[key]), path);
      PyEqSelf(l.fields[key]);
    } else if key !in l.fields {
      PatchOne(doc, Key(key), Removed(r.fields[key]), path);
    } else {
      var inner := GenericDiff(r.fields[key], l.fields[key], path + [Key(key)]);
      PatchUnderKey(doc, key, inner, path);
      UnderShorter(inner, path, Key(key));
    }
  }

  lemma UnderShorter(entries: seq<Entry>, path: Path, step: Step)
    requires Under(entries, path + [step])
    ensures Under(entries, path)
  {
  }

  /** Patching `r` with its diff against `l` gives a value equal to `l`. */
  ghost predicate Rebuilds(r: Json, l: Json, path: Path) {
    && Under(GenericDiff(r, l, path), path)
    && PyEq(Patch(r, GenericDiff(r, l, path), |path|), l)
  }

  lemma {:induction false} PatchKeys(r: Json, l: Json, keys: seq<string>, path: Path)
    requires r.Obj? && l.Obj? && forall k | k in keys :: k in r.fields || k in l.fields
    requires forall i, j | 0 <= i < j < |keys| :: keys[i] != keys[j]
    ensures Under(KeysDiff(r, l, keys, path), path)
    ensures var after := Patch(r, KeysDiff(r, l, keys, path), |path|);
            && after.Obj?
            && (forall k | k in keys :: MemberIs(after, l, k))
            && (forall k | k !in keys :: MemberKept(after, r, k))
    decreases r, 1, |keys|
  {
    hide PyEq, MemberIs, MemberKept, Under, Rebuilds, KeyDiff;
    KeysAreUnder(r, l, keys, path);
    UnderDepth(KeysDiff(r, l, keys, path), path);
    if keys == [] {
      forall k ensures MemberKept(r, r, k) { KeptSelf(r, k); }
    } else {
      var init, key := keys[..|keys| - 1], keys[|keys| - 1];
      PatchKeys(r, l, init, path);
      assert keys == init + [key] && key !in init;
      if key in r.fields && key in l.fields {
        PatchRebuilds(r.fields[key], l.fields[key], path + [Key(key)]);
      }
      var before := Patch(r, KeysDiff(r, l, init, path), |path|);
      PatchKey(before, r, l, key, path);
      PatchConcat(r, KeysDiff(r, l, init, path), KeyDiff(r, l, key, path), |path|);
      MembersStep(before, Patch(before, KeyDiff(r, l, key, path), |path|), r, l, init, key);
    }
  }

  lemma UnderDepth(entries: seq<Entry>, path: Path)
    requires Under(entries, path)
    ensures forall e | e in entries :: |path| <= |e.path|
  {
  }

  lemma KeptSelf(r: Json, key: string)
    requires r.Obj?
    ensures MemberKept(r, r, key)
  {
  }

  lemma MembersStep(before: Json, after: Json, r: Json, l: Json, init: seq<string>, key: string)
    requires before.Obj? && after.Obj? && r.Obj? && l.Obj? && key !in init
    requires forall k | k in init :: MemberIs(before, l, k)
    requires forall k | k !in init :: MemberKept(before, r, k)
    requires MemberIs(after, l, key) && forall k | k != key :: MemberKept(after, before, k)
    ensures forall k | k in init + [key] :: MemberIs(after, l, k)
    ensures forall k | k !in init + [key] :: MemberKept(after, r, k)
  {
    hide PyEq;
    forall k ensures if k in init + [key] then MemberIs(after, l, k) else MemberKept(after, r, k) {
      assert k in init + [key] <==> k in init || k == key;
      if k != key {
        assert MemberKept(after, before, k);
        if k in init { assert MemberIs(before, l, k); } else { assert MemberKept(before, r, k); }
      }
    }
  }

  /** The first `n` items are as the live side has them, the rest untouched. */
  ghost predicate ItemsUpTo(doc: Json, r: Json, l: Json, n: nat)
    requires doc.Arr? && r.Arr? && l.Arr?
  {
    && |doc.items| == (if n > |l.items| then |l.items| else if n > |r.items| then n else |r.items|)
    && (forall i | 0 <= i < n && i < |l.items| :: PyEq(doc.items[i], l.items[i]))
    && (n <= |l.items| ==> forall i | n <= i < |r.items| :: doc.items[i] == r.items[i])
  }

  lemma PatchIndex(doc: Json, r: Json, l: Json, n: nat, path: Path)
    requires doc.Arr? && r.Arr? && l.Arr? && (n < |r.items| || n < |l.items|) && ItemsUpTo(doc, r, l, n)
    requires n < |r.items| && n < |l.items| ==> Rebuilds(r.items[n], l.items[n], path + [Index(n)])
    ensures Under(IndexDiff(r, l, n, path), path)
    ensures var after := Patch(doc, IndexDiff(r, l, n, path), |path|); after.Arr? && ItemsUpTo(after, r, l, n + 1)
  {
    hide PyEq, Patch, GenericDiff;
    if n >= |r.items| {
      PatchOne(doc, Index(n), Added(l.items[n]), path);
      PyEqSelf(l.items[n]);
    } else if n >= |l.items| {
      PatchOne(doc, Index(n), Removed(r.items[n]), path);
    } else {
      var inner := GenericDiff(r.items[n], l.items[n], path + [Index(n)]);
      PatchUnderIndex(doc, n, inner, path);
      UnderShorter(inner, path, Index(n));
    }
  }

  lemma NoItems(r: Json, l: Json, path: Path)
    requires r.Arr? && l.Arr?
    ensures IndexesDiff(r, l, 0, path) == [] && Under([], path) && Patch(r, [], |path|) == r && ItemsUpTo(r, r, l, 0)
  {
    hide PyEq;
  }

  lemma {:induction false} PatchIndexes(r: Json, l: Json, n: nat, path: Path)
    requires r.Arr? && l.Arr? && (n <= |r.items| || n <= |l.items|)
    ensures Under(IndexesDiff(r, l, n, path), path)
    ensures var after := Patch(r, IndexesDiff(r, l, n, path), |path|); after.Arr? && ItemsUpTo(after, r, l, n)
    decreases r, 1, n
  {
    hide PyEq, GenericDiff, Patch, PatchAt, Under, ItemsUpTo, Rebuilds, IndexDiff;
    IndexesAreUnder(r, l, n, path);
    UnderDepth(IndexesDiff(r, l, n, path), path);
    if n == 0 {
      NoItems(r, l, path);
    } else {
      PatchIndexes(r, l, n - 1, path);
      if n - 1 < |r.items| && n - 1 < |l.items| {
        PatchRebuilds(r.items[n - 1], l.items[n - 1], path + [Index(n - 1)]);
      }
      PatchIndex(Patch(r, IndexesDiff(r, l, n - 1, path), |path|), r, l, n - 1, path);
      PatchConcat(r, IndexesDiff(r, l, n - 1, path), IndexDiff(r, l, n - 1, path), |path|);
    }
  }

  lemma PatchLeaf(r: Json, l: Json, path: Path)
    ensures Under([Entry(path, Modified(r, l))], path)
    ensures PyEq(Patch(r, [Entry(path, Modified(r, l))], |path|), l)
  {
    var e := Entry(path, Modified(r, l));
    assert e.path[|path|..] == [];
    assert Patch(r, [e][..0], |path|) == r;
    PyEqSelf(l);
  }

  lemma ItemsEqual(doc: Json, r: Json, l: Json)
    requires doc.Arr? && r.Arr? && l.Arr? && ItemsUpTo(doc, r, l, Longer(r.items, l.items))
    ensures PyEq(doc, l)
  {
  }

  /** Applying the generic diff's entries to the registered value rebuilds the live one,
      for any two values. */
  lemma {:induction false} PatchRebuilds(r: Json, l: Json, path: Path)
    ensures Rebuilds(r, l, path)
    decreases r, 2, 0
  {
    hide PyEq, MemberIs, MemberKept, ItemsUpTo, PatchAt, Under;
    DiffIsUnder(r, l, path);
    UnderDepth(GenericDiff(r, l, path), path);
    if PyEq(r, l) {
    } else if r.Obj? && l.Obj? {
      var keys := Sorted(r.fields.Keys + l.fields.Keys);
      SortedKeeps(r.fields.Keys + l.fields.Keys);
      AscendingDiffer(keys);
      PatchKeys(r, l, keys, path);
      MembersEqual(Patch(r, GenericDiff(r, l, path), |path|), r, l, keys);
    } else if r.Arr? && l.Arr? {
      PatchIndexes(r, l, Longer(r.items, l.items), path);
      ItemsEqual(Patch(r, GenericDiff(r, l, path), |path|), r, l);
    } else {
      PatchLeaf(r, l, path);
    }
  }

  lemma AscendingDiffer(keys: seq<string>)
    requires Ascending(keys)
    ensures forall i, j | 0 <= i < j < |keys| :: keys[i] != keys[j]
  {
    forall i, j | 0 <= i < j < |keys| ensures keys[i] != keys[j] {
      BelowIsStrict(keys[i]);
    }
  }

  lemma MembersEqual(doc: Json, r: Json, l: Json, keys: seq<string>)
    requires doc.Obj? && r.Obj? && l.Obj?
    requires forall k :: k in keys <==> k in r.fields || k in l.fields
    requires forall k | k in keys :: MemberIs(doc, l, k)
    requires forall k | k !in keys :: MemberKept(doc, r, k)
    ensures PyEq(doc, l)
  {
    forall k ensures k in doc.fields <==> k in l.fields {
      if k in keys { assert MemberIs(doc, l, k); } else { assert MemberKept(doc, r, k); }
    }
  }
}
