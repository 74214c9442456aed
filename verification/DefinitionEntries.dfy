/**
 Which entries a generic diff holds, in terms of the two values: at every path where
 exactly one side of two like containers has something, and at every path where both
 have something and it differs as a whole.
 */
module DefinitionEntries {
  import opened DefinitionDiff
  import DefinitionPatch
  import opened JsonValue
  import opened Text
  import opened Wrappers

  /** What a path leads to. */
  function ValueAt(j: Json, path: Path): Option<Json> {
    if path == [] then Some(j)
    else if j.Obj? && path[0].Key? && path[0].name in j.fields then ValueAt(j.fields[path[0].name], path[1..])
    else if j.Arr? && path[0].Index? && path[0].at < |j.items| then ValueAt(j.items[path[0].at], path[1..])
    else None
  }

  /** Both sides have a dictionary, or both a list. */
  predicate SameShape(r: Json, l: Json) {
    (r.Obj? && l.Obj?) || (r.Arr? && l.Arr?)
  }

  predicate LikeContainers(r: Json, l: Json, path: Path) {
    ValueAt(r, path).Some? && ValueAt(l, path).Some? && SameShape(ValueAt(r, path).value, ValueAt(l, path).value)
  }

  /** The difference there is at a path, if there is one. */
  ghost predicate Differs(r: Json, l: Json, path: Path, change: Change) {
    match change
    case Added(x) =>
      path != [] && LikeContainers(r, l, path[..|path| - 1]) && ValueAt(r, path).None? && ValueAt(l, path) == Some(x)
    case Removed(x) =>
      path != [] && LikeContainers(r, l, path[..|path| - 1]) && ValueAt(r, path) == Some(x) && ValueAt(l, path).None?
    case Modified(x, y) =>
      ValueAt(r, path) == Some(x) && ValueAt(l, path) == Some(y) && !PyEq(x, y) && !SameShape(x, y)
    case _ => false
  }

  // ---------------------------------------------------------------- one step down

  predicate Steps(j: Json, step: Step) {
    if j.Obj? then step.Key? && step.name in j.fields else j.Arr? && step.Index? && step.at < |j.items|
  }

  function Child(j: Json, step: Step): (c: Json)
    requires Steps(j, step)
    ensures c < j
  {
    if j.Obj? then j.fields[step.name] else j.items[step.at]
  }

  lemma ValueBelow(j: Json, path: Path)
    requires path != []
    ensures ValueAt(j, path) == if Steps(j, path[0]) then ValueAt(Child(j, path[0]), path[1..]) else None
  {
  }

  lemma InitBelow(path: Path)
    requires |path| > 1
    ensures path[..|path| - 1][0] == path[0] && path[..|path| - 1][1..] == path[1..][..|path| - 2]
  {
  }

  /** A difference below the top is one below a common child, or a child only one has. */
  lemma DiffersBelow(r: Json, l: Json, path: Path, change: Change)
    requires path != [] && SameShape(r, l)
    ensures Differs(r, l, path, change) <==>
              if Steps(r, path[0]) && Steps(l, path[0]) then
                Differs(Child(r, path[0]), Child(l, path[0]), path[1..], change)
              else if Steps(l, path[0]) then |path| == 1 && change == Added(Child(l, path[0]))
              else if Steps(r, path[0]) then |path| == 1 && change == Removed(Child(r, path[0]))
              else false
  {
    hide PyEq, ValueAt;
    Below(r, path);
    Below(l, path);
  }

  lemma Below(j: Json, path: Path)
    requires path != []
    ensures ValueAt(j, path) == if Steps(j, path[0]) then ValueAt(Child(j, path[0]), path[1..]) else None
    ensures |path| == 1 ==> ValueAt(j, path[..|path| - 1]) == Some(j) && path[1..] == []
    ensures |path| == 1 && Steps(j, path[0]) ==> ValueAt(j, path) == Some(Child(j, path[0]))
    ensures |path| > 1 ==>
              path[1..][..|path[1..]| - 1] == path[..|path| - 1][1..]
              && ValueAt(j, path[..|path| - 1])
                 == if Steps(j, path[0]) then ValueAt(Child(j, path[0]), path[..|path| - 1][1..]) else None
  {
    ValueBelow(j, path);
    if |path| > 1 {
      InitBelow(path);
      ValueBelow(j, path[..|path| - 1]);
    }
  }

  /** Where the shapes differ only the top does. */
  lemma DiffersOnlyAtTop(r: Json, l: Json, path: Path, change: Change)
    requires path != [] && !SameShape(r, l)
    ensures !Differs(r, l, path, change)
  {
    hide PyEq;
    Below(r, path);
    Below(l, path);
  }

  /** Values that compare equal differ nowhere. */
  lemma {:induction false} EqualsDontDiffer(r: Json, l: Json, path: Path, change: Change)
    requires PyEq(r, l)
    ensures !Differs(r, l, path, change)
    decreases |path|
  {
    hide Differs;
    if path == [] {
      TopDiffers(r, l, change);
    } else if !SameShape(r, l) {
      DiffersOnlyAtTop(r, l, path, change);
    } else {
      DiffersBelow(r, l, path, change);
      if Steps(r, path[0]) && Steps(l, path[0]) {
        EqualsDontDiffer(Child(r, path[0]), Child(l, path[0]), path[1..], change);
      }
    }
  }

  lemma TopDiffers(r: Json, l: Json, change: Change)
    ensures Differs(r, l, [], change) <==> !PyEq(r, l) && !SameShape(r, l) && change == Modified(r, l)
  {
    hide PyEq;
  }

  // ---------------------------------------------------------------- entries

  /** The entries of one step below two like containers. */
  function StepDiff(r: Json, l: Json, step: Step, path: Path): seq<Entry>
    requires SameShape(r, l) && (Steps(r, step) || Steps(l, step))
  {
    if r.Obj? then KeyDiff(r, l, step.name, path) else IndexDiff(r, l, step.at, path)
  }

  lemma {:induction false} InKeysDiff(r: Json, l: Json, keys: seq<string>, path: Path, e: Entry)
    requires r.Obj? && l.Obj? && forall k | k in keys :: k in r.fields || k in l.fields
    ensures e in KeysDiff(r, l, keys, path) <==> exists k :: k in keys && e in KeyDiff(r, l, k, path)
  {
    hide KeyDiff;
    if keys != [] {
      var n := |keys| - 1;
      InKeysDiff(r, l, keys[..n], path, e);
      NextKey(r, l, keys, n, path);
      assert keys[..n + 1] == keys == keys[..n] + [keys[n]];
    }
  }

  lemma {:induction false} InIndexesDiff(r: Json, l: Json, n: nat, path: Path, e: Entry)
    requires r.Arr? && l.Arr? && (n <= |r.items| || n <= |l.items|)
    ensures e in IndexesDiff(r, l, n, path) <==> exists i: nat :: i < n && e in IndexDiff(r, l, i, path)
  {
    if n > 0 {
      InIndexesDiff(r, l, n - 1, path, e);
      var before, last := IndexesDiff(r, l, n - 1, path), IndexDiff(r, l, n - 1, path);
      assert IndexesDiff(r, l, n, path) == before + last;
      if e in last {
        var at: nat := n - 1;
        assert at < n && e in IndexDiff(r, l, at, path);
      }
      if i: nat :| i < n && e in IndexDiff(r, l, i, path) { assert i < n - 1 || e in last; }
    }
  }

  lemma AtIndex(r: Json, l: Json, i: nat, path: Path, e: Entry)
    requires r.Arr? && l.Arr? && i < Longer(r.items, l.items) && e in IndexDiff(r, l, i, path)
    ensures e in IndexesDiff(r, l, Longer(r.items, l.items), path)
  {
    InIndexesDiff(r, l, Longer(r.items, l.items), path, e);
  }

  /** What is reported below two like containers is reported below one of their steps. */
  lemma InContainers(r: Json, l: Json, path: Path, e: Entry)
    requires SameShape(r, l) && !PyEq(r, l)
    ensures e in GenericDiff(r, l, path)
            <==> exists step: Step :: (Steps(r, step) || Steps(l, step)) && e in StepDiff(r, l, step, path)
  {
    hide PyEq, KeysDiff, IndexesDiff, Sorted;
    if r.Obj? {
      var keys := Sorted(r.fields.Keys + l.fields.Keys);
      SortedKeeps(r.fields.Keys + l.fields.Keys);
      InKeysDiff(r, l, keys, path, e);
      if k :| k in keys && e in KeyDiff(r, l, k, path) { assert e in StepDiff(r, l, Key(k), path); }
    } else {
      InIndexesDiff(r, l, Longer(r.items, l.items), path, e);
      if i: nat :| i < Longer(r.items, l.items) && e in IndexDiff(r, l, i, path) {
        assert e in StepDiff(r, l, Index(i), path);
      }
      if step: Step :| (Steps(r, step) || Steps(l, step)) && e in StepDiff(r, l, step, path) {
        AtIndex(r, l, step.at, path, e);
      }
    }
  }

  lemma StepShape(r: Json, l: Json, step: Step, path: Path)
    requires SameShape(r, l) && (Steps(r, step) || Steps(l, step))
    ensures StepDiff(r, l, step, path)
            == if !Steps(r, step) then [Entry(path + [step], Added(Child(l, step)))]
               else if !Steps(l, step) then [Entry(path + [step], Removed(Child(r, step)))]
               else GenericDiff(Child(r, step), Child(l, step), path + [step])
  {
    hide GenericDiff;
  }

  lemma StepIsUnder(r: Json, l: Json, step: Step, path: Path, rest: Path, change: Change)
    requires SameShape(r, l) && (Steps(r, step) || Steps(l, step))
    requires Entry(path + rest, change) in StepDiff(r, l, step, path)
    ensures rest != [] && rest[0] == step && path + rest == (path + [step]) + rest[1..]
  {
    hide GenericDiff, StepDiff;
    StepShape(r, l, step, path);
    if Steps(r, step) && Steps(l, step) {
      DefinitionPatch.DiffIsUnder(Child(r, step), Child(l, step), path + [step]);
    }
    assert path + [step] <= path + rest;
    assert (path + rest)[|path|] == step;
  }

  /** The generic diff reports a change at a path exactly when the two values differ there
      in just that way. */
  lemma {:induction false} EntriesIff(r: Json, l: Json, path: Path, rest: Path, change: Change)
    ensures Entry(path + rest, change) in GenericDiff(r, l, path) <==> Differs(r, l, rest, change)
    decreases r
  {
    hide Differs, PyEq, StepDiff, KeysDiff, IndexesDiff, Sorted;
    if PyEq(r, l) {
      EqualsDontDiffer(r, l, rest, change);
    } else if !SameShape(r, l) {
      TopDiffers(r, l, change);
      assert path + rest == path <==> |path + rest| == |path|;
      if rest != [] { DiffersOnlyAtTop(r, l, rest, change); }
    } else {
      ContainersIff(r, l, path, rest, change);
      if rest == [] {
        TopDiffers(r, l, change);
      } else {
        DiffersBelow(r, l, rest, change);
        if Steps(r, rest[0]) && Steps(l, rest[0]) {
          EntriesIff(Child(r, rest[0]), Child(l, rest[0]), path + [rest[0]], rest[1..], change);
        }
      }
    }
  }

  lemma ContainersIff(r: Json, l: Json, path: Path, rest: Path, change: Change)
    requires SameShape(r, l) && !PyEq(r, l)
    ensures Entry(path + rest, change) in GenericDiff(r, l, path) <==>
              && rest != [] && (Steps(r, rest[0]) || Steps(l, rest[0]))
              && if !Steps(r, rest[0]) then |rest| == 1 && change == Added(Child(l, rest[0]))
                 else if !Steps(l, rest[0]) then |rest| == 1 && change == Removed(Child(r, rest[0]))
                 else Entry((path + [rest[0]]) + rest[1..], change)
                      in GenericDiff(Child(r, rest[0]), Child(l, rest[0]), path + [rest[0]])
  {
    hide GenericDiff, StepDiff, PyEq;
    var e := Entry(path + rest, change);
    InContainers(r, l, path, e);
    forall step: Step | (Steps(r, step) || Steps(l, step)) && e in StepDiff(r, l, step, path)
      ensures rest != [] && rest[0] == step
    {
      StepIsUnder(r, l, step, path, rest, change);
    }
    if rest != [] && (Steps(r, rest[0]) || Steps(l, rest[0])) {
      StepShape(r, l, rest[0], path);
      assert path + rest == (path + [rest[0]]) + rest[1..];
      assert |rest| == 1 <==> path + rest == path + [rest[0]];
    }
  }
}
