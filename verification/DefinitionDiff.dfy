/**
 The structural diff of two canonical workflow definitions: what it reports, when it
 reports nothing, and that its entries are enough to rebuild the live side.
 */
module DefinitionDiff {
  import opened JsonValue
  import opened Text
  import opened Wrappers

  // ---------------------------------------------------------------- Python's ==

  predicate IsNumber(j: Json) {
    j.Bool? || j.Int? || j.Float?
  }

  function Number(j: Json): real
    requires IsNumber(j)
  {
    match j
    case Bool(b) => if b then 1.0 else 0.0
    case Int(n) => n as real
    case Float(x) => x
  }

  /** Equality as the code compares: 1, 1.0 and true are one value. */
  predicate PyEq(a: Json, b: Json) {
    if IsNumber(a) || IsNumber(b) then IsNumber(a) && IsNumber(b) && Number(a) == Number(b)
    else if a.Str? && b.Str? then a.text == b.text
    else if a.Arr? && b.Arr? then
      |a.items| == |b.items| && forall i | 0 <= i < |a.items| :: PyEq(a.items[i], b.items[i])
    else if a.Obj? && b.Obj? then
      a.fields.Keys == b.fields.Keys && forall k | k in a.fields :: PyEq(a.fields[k], b.fields[k])
    else a.Null? && b.Null?
  }

  lemma {:induction false} PyEqSelf(a: Json)
    ensures PyEq(a, a)
  {
    if a.Arr? {
      forall i | 0 <= i < |a.items| ensures PyEq(a.items[i], a.items[i]) { PyEqSelf(a.items[i]); }
    } else if a.Obj? {
      forall k | k in a.fields ensures PyEq(a.fields[k], a.fields[k]) { PyEqSelf(a.fields[k]); }
    }
  }

  // ---------------------------------------------------------------- entries

  datatype Step = Key(name: string) | Index(at: nat)

  type Path = seq<Step>

  datatype Change =
    | Added(live: Json)
    | Removed(registered: Json)
    | Modified(registered: Json, live: Json)
    | NodeRemoved(summary: Summary)
    | NodeAdded(summary: Summary)
    | Moved(fromIndex: nat, toIndex: nat)

  datatype Summary = Summary(kind: Json, name: Json)

  datatype Entry = Entry(path: Path, change: Change)

  const MAX_DIFF_ENTRIES: nat := 200

  /** The first of all entries, as many as are kept. */
  function Kept(all: seq<Entry>): seq<Entry> {
    if |all| <= MAX_DIFF_ENTRIES then all else all[..MAX_DIFF_ENTRIES]
  }

  /** The one counter threaded through the walk. `all` is what it has been given. */
  class Budget {
    var entries: seq<Entry>
    var totalChanges: nat
    ghost var all: seq<Entry>

    ghost predicate Valid()
      reads this
    {
      totalChanges == |all| && entries == Kept(all)
    }

    constructor ()
      ensures Valid() && all == []
    {
      entries, totalChanges, all := [], 0, [];
    }

    method Add(e: Entry)
      requires Valid()
      modifies this
      ensures Valid() && all == old(all) + [e]
    {
      totalChanges := totalChanges + 1;
      if |entries| < MAX_DIFF_ENTRIES { entries := entries + [e]; }
      all := all + [e];
    }
  }

  // ---------------------------------------------------------------- generic diff

  function KeyDiff(r: Json, l: Json, key: string, path: Path): seq<Entry>
    requires r.Obj? && l.Obj? && (key in r.fields || key in l.fields)
    decreases r, 0, 0
  {
    if key !in r.fields then [Entry(path + [Key(key)], Added(l.fields[key]))]
    else if key !in l.fields then [Entry(path + [Key(key)], Removed(r.fields[key]))]
    else GenericDiff(r.fields[key], l.fields[key], path + [Key(key)])
  }

  function KeysDiff(r: Json, l: Json, keys: seq<string>, path: Path): seq<Entry>
    requires r.Obj? && l.Obj? && forall k | k in keys :: k in r.fields || k in l.fields
    decreases r, 1, |keys|
  {
    if keys == [] then []
    else KeysDiff(r, l, keys[..|keys| - 1], path) + KeyDiff(r, l, keys[|keys| - 1], path)
  }

  function IndexDiff(r: Json, l: Json, i: nat, path: Path): seq<Entry>
    requires r.Arr? && l.Arr? && (i < |r.items| || i < |l.items|)
    decreases r, 0, 0
  {
    if i >= |r.items| then [Entry(path + [Index(i)], Added(l.items[i]))]
    else if i >= |l.items| then [Entry(path + [Index(i)], Removed(r.items[i]))]
    else GenericDiff(r.items[i], l.items[i], path + [Index(i)])
  }

  function IndexesDiff(r: Json, l: Json, n: nat, path: Path): seq<Entry>
    requires r.Arr? && l.Arr? && (n <= |r.items| || n <= |l.items|)
    decreases r, 1, n
  {
    if n == 0 then [] else IndexesDiff(r, l, n - 1, path) + IndexDiff(r, l, n - 1, path)
  }

  function Longer(a: seq<Json>, b: seq<Json>): nat {
    if |a| >= |b| then |a| else |b|
  }

  /** The entries that tell `l` from `r`, keys in sorted order, indexes in theirs. */
  function GenericDiff(r: Json, l: Json, path: Path): seq<Entry>
    decreases r, 2, 0
  {
    if PyEq(r, l) then []
    else if r.Obj? && l.Obj? then
      SortedKeeps(r.fields.Keys + l.fields.Keys);
      KeysDiff(r, l, Sorted(r.fields.Keys + l.fields.Keys), path)
    else if r.Arr? && l.Arr? then IndexesDiff(r, l, Longer(r.items, l.items), path)
    else [Entry(path, Modified(r, l))]
  }

  method DiffGeneric(r: Json, l: Json, path: Path, budget: Budget)
    requires budget.Valid()
    modifies budget
    ensures budget.Valid() && budget.all == old(budget.all) + GenericDiff(r, l, path)
    decreases r, 1
  {
    if PyEq(r, l) {
    } else if r.Obj? && l.Obj? {
      DiffObjects(r, l, path, budget);
    } else if r.Arr? && l.Arr? {
      DiffArrays(r, l, path, budget);
    } else {
      budget.Add(Entry(path, Modified(r, l)));
    }
  }

  lemma NextKey(r: Json, l: Json, keys: seq<string>, i: nat, path: Path)
    requires r.Obj? && l.Obj? && i < |keys| && forall k | k in keys :: k in r.fields || k in l.fields
    ensures forall k | k in keys[..i] :: k in r.fields || k in l.fields
    ensures forall k | k in keys[..i + 1] :: k in r.fields || k in l.fields
    ensures keys[i] in r.fields || keys[i] in l.fields
    ensures KeysDiff(r, l, keys[..i + 1], path) == KeysDiff(r, l, keys[..i], path) + KeyDiff(r, l, keys[i], path)
  {
    hide KeyDiff;
    assert keys[..i + 1][..i] == keys[..i];
  }

  lemma NoKeys(r: Json, l: Json, keys: seq<string>, path: Path)
    requires r.Obj? && l.Obj?
    ensures KeysDiff(r, l, keys[..0], path) == []
  {
  }

  method DiffObjects(r: Json, l: Json, path: Path, budget: Budget)
    requires budget.Valid() && r.Obj? && l.Obj? && !PyEq(r, l)
    modifies budget
    ensures budget.Valid() && budget.all == old(budget.all) + GenericDiff(r, l, path)
    decreases r, 0
  {
    hide PyEq, KeysDiff, Sorted;
    var keys := SortStrings(r.fields.Keys + l.fields.Keys);
    NoKeys(r, l, keys, path);
    for i := 0 to |keys|
      invariant forall k | k in keys[..i] :: k in r.fields || k in l.fields
      invariant budget.Valid() && budget.all == old(budget.all) + KeysDiff(r, l, keys[..i], path)
    {
      var key := keys[i];
      NextKey(r, l, keys, i, path);
      if key !in r.fields {
        budget.Add(Entry(path + [Key(key)], Added(l.fields[key])));
      } else if key !in l.fields {
        budget.Add(Entry(path + [Key(key)], Removed(r.fields[key])));
      } else {
        DiffGeneric(r.fields[key], l.fields[key], path + [Key(key)], budget);
      }
    }
    assert keys[..|keys|] == keys;
  }

  method DiffArrays(r: Json, l: Json, path: Path, budget: Budget)
    requires budget.Valid() && r.Arr? && l.Arr? && !PyEq(r, l)
    modifies budget
    ensures budget.Valid() && budget.all == old(budget.all) + GenericDiff(r, l, path)
    decreases r, 0
  {
    hide PyEq;
    for i := 0 to Longer(r.items, l.items)
      invariant budget.Valid() && budget.all == old(budget.all) + IndexesDiff(r, l, i, path)
    {
      if i >= |r.items| {
        budget.Add(Entry(path + [Index(i)], Added(l.items[i])));
      } else if i >= |l.items| {
        budget.Add(Entry(path + [Index(i)], Removed(r.items[i])));
      } else {
        DiffGeneric(r.items[i], l.items[i], path + [Index(i)], budget);
      }
    }
  }

  // ---------------------------------------------------------------- empty means equal

  lemma ConcatEmpty<T>(a: seq<T>, b: seq<T>)
    ensures a + b == [] <==> a == [] && b == []
  {
    assert |a + b| == |a| + |b|;
  }

  lemma InitAndLast<T>(s: seq<T>)
    requires s != []
    ensures forall x :: x in s <==> x in s[..|s| - 1] || x == s[|s| - 1]
  {
    assert s == s[..|s| - 1] + [s[|s| - 1]];
  }

  /** Nothing to report at a key. */
  predicate QuietKey(r: Json, l: Json, key: string, path: Path)
    requires r.Obj? && l.Obj? && (key in r.fields || key in l.fields)
  {
    KeyDiff(r, l, key, path) == []
  }

  lemma KeysStep(r: Json, l: Json, keys: seq<string>, path: Path)
    requires keys != [] && r.Obj? && l.Obj? && forall k | k in keys :: k in r.fields || k in l.fields
    ensures forall k | k in keys[..|keys| - 1] :: k in r.fields || k in l.fields
    ensures keys[|keys| - 1] in r.fields || keys[|keys| - 1] in l.fields
    ensures KeysDiff(r, l, keys, path) == []
            <==> KeysDiff(r, l, keys[..|keys| - 1], path) == [] && QuietKey(r, l, keys[|keys| - 1], path)
  {
    hide KeyDiff;
    ConcatEmpty(KeysDiff(r, l, keys[..|keys| - 1], path), KeyDiff(r, l, keys[|keys| - 1], path));
  }

  lemma {:induction false} KeysDiffEmpty(r: Json, l: Json, keys: seq<string>, path: Path)
    requires r.Obj? && l.Obj? && forall k | k in keys :: k in r.fields || k in l.fields
    ensures KeysDiff(r, l, keys, path) == [] <==> forall k | k in keys :: QuietKey(r, l, k, path)
  {
    if keys != [] {
      hide KeysDiff, QuietKey;
      KeysStep(r, l, keys, path);
      KeysDiffEmpty(r, l, keys[..|keys| - 1], path);
      InitAndLast(keys);
    }
  }

  /** Nothing to report at index `i`. */
  predicate QuietAt(r: Json, l: Json, i: nat, path: Path)
    requires r.Arr? && l.Arr? && (i < |r.items| || i < |l.items|)
  {
    IndexDiff(r, l, i, path) == []
  }

  lemma IndexesStep(r: Json, l: Json, n: nat, path: Path)
    requires r.Arr? && l.Arr? && n > 0 && (n <= |r.items| || n <= |l.items|)
    ensures IndexesDiff(r, l, n, path) == [] <==> IndexesDiff(r, l, n - 1, path) == [] && QuietAt(r, l, n - 1, path)
  {
    hide IndexDiff;
    ConcatEmpty(IndexesDiff(r, l, n - 1, path), IndexDiff(r, l, n - 1, path));
  }

  lemma {:induction false} IndexesDiffEmpty(r: Json, l: Json, n: nat, path: Path)
    requires r.Arr? && l.Arr? && (n <= |r.items| || n <= |l.items|)
    ensures IndexesDiff(r, l, n, path) == [] <==> forall i | 0 <= i < n :: QuietAt(r, l, i, path)
  {
    if n > 0 {
      hide IndexesDiff, QuietAt;
      IndexesStep(r, l, n, path);
      IndexesDiffEmpty(r, l, n - 1, path);
    }
  }

  lemma ObjectsEqual(r: Json, l: Json, path: Path)
    requires r.Obj? && l.Obj?
    requires forall k | k in r.fields || k in l.fields :: QuietKey(r, l, k, path)
    requires forall k | k in r.fields && k in l.fields && QuietKey(r, l, k, path) :: PyEq(r.fields[k], l.fields[k])
    ensures PyEq(r, l)
  {
    forall k ensures k in r.fields <==> k in l.fields {
      if k in r.fields || k in l.fields { assert QuietKey(r, l, k, path); }
    }
  }

  lemma ArraysEqual(r: Json, l: Json, path: Path)
    requires r.Arr? && l.Arr?
    requires forall i | 0 <= i < Longer(r.items, l.items) :: QuietAt(r, l, i, path)
    requires forall i | 0 <= i < |r.items| && i < |l.items| && QuietAt(r, l, i, path) :: PyEq(r.items[i], l.items[i])
    ensures PyEq(r, l)
  {
    LengthsShow(r, l, path);
    forall i | 0 <= i < |r.items| && i < |l.items| ensures PyEq(r.items[i], l.items[i]) {
      assert QuietAt(r, l, i, path);
    }
  }

  lemma LengthsShow(r: Json, l: Json, path: Path)
    requires r.Arr? && l.Arr?
    ensures |r.items| < |l.items| ==> !QuietAt(r, l, |r.items|, path)
    ensures |r.items| > |l.items| ==> !QuietAt(r, l, |l.items|, path)
  {
  }

  /** The generic diff reports nothing exactly when the two values compare equal. */
  lemma {:induction false} EmptyIffEqual(r: Json, l: Json, path: Path)
    ensures GenericDiff(r, l, path) == [] <==> PyEq(r, l)
    decreases r
  {
    hide PyEq;
    if PyEq(r, l) {
    } else if r.Obj? && l.Obj? {
      var keys := Sorted(r.fields.Keys + l.fields.Keys);
      SortedKeeps(r.fields.Keys + l.fields.Keys);
      KeysDiffEmpty(r, l, keys, path);
      if GenericDiff(r, l, path) == [] {
        forall k | k in r.fields || k in l.fields ensures QuietKey(r, l, k, path) {
          assert k in keys;
        }
        forall k | k in r.fields && k in l.fields ensures PyEq(r.fields[k], l.fields[k]) {
          EmptyIffEqual(r.fields[k], l.fields[k], path + [Key(k)]);
          assert QuietKey(r, l, k, path);
        }
        ObjectsEqual(r, l, path);
      }
    } else if r.Arr? && l.Arr? {
      IndexesDiffEmpty(r, l, Longer(r.items, l.items), path);
      if GenericDiff(r, l, path) == [] {
        forall i | 0 <= i < |r.items| && i < |l.items| ensures PyEq(r.items[i], l.items[i]) {
          EmptyIffEqual(r.items[i], l.items[i], path + [Index(i)]);
          assert QuietAt(r, l, i, path);
        }
        ArraysEqual(r, l, path);
      }
    }
  }

  // ---------------------------------------------------------------- nodes by id

  /** A node: its own stable id, if it has one, and everything else. */
  datatype Node = Node(id: Option<string>, content: map<string, Json>)

  datatype Placed = Placed(at: nat, node: Node)

  /** Nodes indexed by id: those without one are skipped, the last of duplicates wins. */
  function ById(nodes: seq<Node>): map<string, Placed> {
    if nodes == [] then map[]
    else
      var n := |nodes| - 1;
      match nodes[n].id
      case None => ById(nodes[..n])
      case Some(id) => ById(nodes[..n])[id := Placed(n, nodes[n])]
  }

  function FieldOrNull(fields: map<string, Json>, key: string): Json {
    if key in fields then fields[key] else Null
  }

  function NodeSummary(node: Node): Summary {
    Summary(FieldOrNull(node.content, "type"), FieldOrNull(node.content, "name"))
  }

  function NodePath(at: nat): Path {
    [Key("nodes"), Index(at)]
  }

  /** A node present on both sides: its content, or else its position. */
  function MatchedDiff(r: Placed, l: Placed): seq<Entry> {
    var content := GenericDiff(Obj(r.node.content), Obj(l.node.content), NodePath(l.at));
    if content == [] && r.at != l.at then [Entry(NodePath(l.at), Moved(r.at, l.at))] else content
  }

  function IdDiff(r: map<string, Placed>, l: map<string, Placed>, id: string): seq<Entry>
    requires id in r || id in l
  {
    if id !in l then [Entry(NodePath(r[id].at), NodeRemoved(NodeSummary(r[id].node)))]
    else if id !in r then [Entry(NodePath(l[id].at), NodeAdded(NodeSummary(l[id].node)))]
    else MatchedDiff(r[id], l[id])
  }

  function IdsDiff(r: map<string, Placed>, l: map<string, Placed>, ids: seq<string>): seq<Entry>
    requires forall id | id in ids :: id in r || id in l
  {
    if ids == [] then [] else IdsDiff(r, l, ids[..|ids| - 1]) + IdDiff(r, l, ids[|ids| - 1])
  }

  /** Removed nodes, then added ones, then matched ones, each by ascending id. */
  function NodesDiff(registered: seq<Node>, live: seq<Node>): seq<Entry> {
    var r, l := ById(registered), ById(live);
    SortedKeeps(r.Keys - l.Keys);
    SortedKeeps(l.Keys - r.Keys);
    SortedKeeps(r.Keys * l.Keys);
    IdsDiff(r, l, Sorted(r.Keys - l.Keys))
    + IdsDiff(r, l, Sorted(l.Keys - r.Keys))
    + IdsDiff(r, l, Sorted(r.Keys * l.Keys))
  }

  method IndexById(nodes: seq<Node>) returns (index: map<string, Placed>)
    ensures index == ById(nodes)
  {
    index := map[];
    for i := 0 to |nodes|
      invariant index == ById(nodes[..i])
    {
      assert nodes[..i + 1][..i] == nodes[..i];
      if nodes[i].id.Some? { index := index[nodes[i].id.value := Placed(i, nodes[i])]; }
    }
    assert nodes[..|nodes|] == nodes;
  }

  lemma NoIds(r: map<string, Placed>, l: map<string, Placed>, ids: seq<string>)
    ensures IdsDiff(r, l, ids[..0]) == []
  {
  }

  lemma NextId(r: map<string, Placed>, l: map<string, Placed>, ids: seq<string>, i: nat)
    requires i < |ids| && forall id | id in ids :: id in r || id in l
    ensures forall id | id in ids[..i] :: id in r || id in l
    ensures forall id | id in ids[..i + 1] :: id in r || id in l
    ensures ids[i] in r || ids[i] in l
    ensures IdsDiff(r, l, ids[..i + 1]) == IdsDiff(r, l, ids[..i]) + IdDiff(r, l, ids[i])
  {
    hide IdDiff;
    assert ids[..i + 1][..i] == ids[..i];
  }

  method DiffRemoved(r: map<string, Placed>, l: map<string, Placed>, budget: Budget)
    requires budget.Valid()
    modifies budget
    ensures forall id | id in Sorted(r.Keys - l.Keys) :: id in r
    ensures budget.Valid() && budget.all == old(budget.all) + IdsDiff(r, l, Sorted(r.Keys - l.Keys))
  {
    hide MatchedDiff, NodeSummary, IdsDiff, Sorted;
    var removed := SortStrings(r.Keys - l.Keys);
    NoIds(r, l, removed);
    for i := 0 to |removed|
      invariant forall id | id in removed[..i] :: id in r || id in l
      invariant budget.Valid() && budget.all == old(budget.all) + IdsDiff(r, l, removed[..i])
    {
      var id := removed[i];
      NextId(r, l, removed, i);
      assert id in removed;
      budget.Add(Entry(NodePath(r[id].at), NodeRemoved(NodeSummary(r[id].node))));
    }
    assert removed[..|removed|] == removed;
  }

  method DiffAdded(r: map<string, Placed>, l: map<string, Placed>, budget: Budget)
    requires budget.Valid()
    modifies budget
    ensures forall id | id in Sorted(l.Keys - r.Keys) :: id in l
    ensures budget.Valid() && budget.all == old(budget.all) + IdsDiff(r, l, Sorted(l.Keys - r.Keys))
  {
    hide MatchedDiff, NodeSummary, IdsDiff, Sorted;
    var added := SortStrings(l.Keys - r.Keys);
    NoIds(r, l, added);
    for i := 0 to |added|
      invariant forall id | id in added[..i] :: id in r || id in l
      invariant budget.Valid() && budget.all == old(budget.all) + IdsDiff(r, l, added[..i])
    {
      var id := added[i];
      NextId(r, l, added, i);
      assert id in added;
      budget.Add(Entry(NodePath(l[id].at), NodeAdded(NodeSummary(l[id].node))));
    }
    assert added[..|added|] == added;
  }

  method DiffNodes(registered: seq<Node>, live: seq<Node>, budget: Budget)
    requires budget.Valid()
    modifies budget
    ensures budget.Valid() && budget.all == old(budget.all) + NodesDiff(registered, live)
  {
    hide IdsDiff, ById;
    var r := IndexById(registered);
    var l := IndexById(live);
    DiffRemoved(r, l, budget);
    DiffAdded(r, l, budget);
    DiffMatched(r, l, budget);
  }

  method DiffMatched(r: map<string, Placed>, l: map<string, Placed>, budget: Budget)
    requires budget.Valid()
    modifies budget
    ensures forall id | id in Sorted(r.Keys * l.Keys) :: id in r
    ensures budget.Valid() && budget.all == old(budget.all) + IdsDiff(r, l, Sorted(r.Keys * l.Keys))
  {
    hide PyEq, GenericDiff, NodePath, IdsDiff, Sorted;
    var matched := SortStrings(r.Keys * l.Keys);
    NoIds(r, l, matched);
    for i := 0 to |matched|
      invariant forall id | id in matched[..i] :: id in r || id in l
      invariant budget.Valid() && budget.all == old(budget.all) + IdsDiff(r, l, matched[..i])
    {
      var id := matched[i];
      NextId(r, l, matched, i);
      assert id in matched;
      var beforeTotal := budget.totalChanges;
      DiffGeneric(Obj(r[id].node.content), Obj(l[id].node.content), NodePath(l[id].at), budget);
      var contentChanged := budget.totalChanges != beforeTotal;
      if !contentChanged && r[id].at != l[id].at {
        budget.Add(Entry(NodePath(l[id].at), Moved(r[id].at, l[id].at)));
      }
    }
    assert matched[..|matched|] == matched;
  }

  // ---------------------------------------------------------------- whole definitions

  datatype Definition = Definition(nodes: seq<Node>, connections: Json, settings: Json)

  function DefinitionChanges(registered: Definition, live: Definition): seq<Entry> {
    NodesDiff(registered.nodes, live.nodes)
    + GenericDiff(registered.connections, live.connections, [Key("connections")])
    + GenericDiff(registered.settings, live.settings, [Key("settings")])
  }

  /** The total counts every change; the entries are the first of them; and the flag
      says whether any were left out. */
  method DiffCanonicalDefinitions(registered: Definition, live: Definition)
    returns (entries: seq<Entry>, truncated: bool, totalChanges: nat)
    ensures totalChanges == |DefinitionChanges(registered, live)|
    ensures entries == Kept(DefinitionChanges(registered, live))
    ensures |entries| == if totalChanges <= 200 then totalChanges else 200
    ensures entries == DefinitionChanges(registered, live)[..|entries|]
    ensures truncated <==> totalChanges > 200
  {
    hide GenericDiff, NodesDiff;
    var budget := new Budget();
    DiffNodes(registered.nodes, live.nodes, budget);
    DiffGeneric(registered.connections, live.connections, [Key("connections")], budget);
    DiffGeneric(registered.settings, live.settings, [Key("settings")], budget);
    return budget.entries, budget.totalChanges > |budget.entries|, budget.totalChanges;
  }

  // ---------------------------------------------------------------- when nothing is reported

  ghost predicate SamePlaced(r: Placed, l: Placed) {
    r.at == l.at && PyEq(Obj(r.node.content), Obj(l.node.content))
  }

  /** The indexes agree: same ids, at the same positions, with equal content. */
  ghost predicate Agree(r: map<string, Placed>, l: map<string, Placed>) {
    r.Keys == l.Keys && forall id | id in r :: SamePlaced(r[id], l[id])
  }

  predicate QuietId(r: map<string, Placed>, l: map<string, Placed>, id: string)
    requires id in r || id in l
  {
    IdDiff(r, l, id) == []
  }

  lemma IdsStep(r: map<string, Placed>, l: map<string, Placed>, ids: seq<string>)
    requires ids != [] && forall id | id in ids :: id in r || id in l
    ensures forall id | id in ids[..|ids| - 1] :: id in r || id in l
    ensures ids[|ids| - 1] in r || ids[|ids| - 1] in l
    ensures IdsDiff(r, l, ids) == []
            <==> IdsDiff(r, l, ids[..|ids| - 1]) == [] && QuietId(r, l, ids[|ids| - 1])
  {
    hide IdDiff;
    ConcatEmpty(IdsDiff(r, l, ids[..|ids| - 1]), IdDiff(r, l, ids[|ids| - 1]));
  }

  lemma {:induction false} IdsDiffEmpty(r: map<string, Placed>, l: map<string, Placed>, ids: seq<string>)
    requires forall id | id in ids :: id in r || id in l
    ensures IdsDiff(r, l, ids) == [] <==> forall id | id in ids :: QuietId(r, l, id)
  {
    if ids != [] {
      hide IdsDiff, QuietId;
      IdsStep(r, l, ids);
      IdsDiffEmpty(r, l, ids[..|ids| - 1]);
      InitAndLast(ids);
    }
  }

  lemma QuietIdMeans(r: map<string, Placed>, l: map<string, Placed>, id: string)
    requires id in r || id in l
    ensures QuietId(r, l, id) <==> id in r && id in l && SamePlaced(r[id], l[id])
  {
    hide PyEq;
    if id in r && id in l {
      EmptyIffEqual(Obj(r[id].node.content), Obj(l[id].node.content), NodePath(l[id].at));
    }
  }

  lemma AllIdsQuiet(r: map<string, Placed>, l: map<string, Placed>, a: seq<string>, b: seq<string>, c: seq<string>)
    requires forall id :: id in a <==> id in r && id !in l
    requires forall id :: id in b <==> id in l && id !in r
    requires forall id :: id in c <==> id in r && id in l
    ensures IdsDiff(r, l, a) + IdsDiff(r, l, b) + IdsDiff(r, l, c) == []
            <==> forall id | id in r || id in l :: QuietId(r, l, id)
  {
    hide IdsDiff, QuietId;
    IdsDiffEmpty(r, l, a);
    IdsDiffEmpty(r, l, b);
    IdsDiffEmpty(r, l, c);
    ConcatEmpty(IdsDiff(r, l, a), IdsDiff(r, l, b));
    ConcatEmpty(IdsDiff(r, l, a) + IdsDiff(r, l, b), IdsDiff(r, l, c));
  }

  /** No node entry, for any two lists, exactly when the indexes agree. */
  lemma NodesQuietIffAgree(registered: seq<Node>, live: seq<Node>)
    ensures NodesDiff(registered, live) == [] <==> Agree(ById(registered), ById(live))
  {
    hide PyEq, SamePlaced, ById, IdsDiff, Sorted, QuietId;
    var r, l := ById(registered), ById(live);
    SortedKeeps(r.Keys - l.Keys);
    SortedKeeps(l.Keys - r.Keys);
    SortedKeeps(r.Keys * l.Keys);
    AllIdsQuiet(r, l, Sorted(r.Keys - l.Keys), Sorted(l.Keys - r.Keys), Sorted(r.Keys * l.Keys));
    forall id | id in r || id in l ensures QuietId(r, l, id) <==> id in r && id in l && SamePlaced(r[id], l[id]) {
      QuietIdMeans(r, l, id);
    }
  }

  // ---------------------------------------------------------------- against real equality

  /** Equality of node lists as the code would compare them. */
  ghost predicate NodesEq(a: seq<Node>, b: seq<Node>) {
    |a| == |b| && forall i | 0 <= i < |a| :: NodeEq(a[i], b[i])
  }

  ghost predicate NodeEq(a: Node, b: Node) {
    a.id == b.id && PyEq(Obj(a.content), Obj(b.content))
  }

  ghost predicate DefinitionEq(a: Definition, b: Definition) {
    NodesEq(a.nodes, b.nodes) && PyEq(a.connections, b.connections) && PyEq(a.settings, b.settings)
  }

  /** Every node has an id, and no two share one. */
  predicate Clean(nodes: seq<Node>) {
    && (forall i | 0 <= i < |nodes| :: nodes[i].id.Some?)
    && (forall i, j | 0 <= i < j < |nodes| :: nodes[i].id != nodes[j].id)
  }

  lemma {:induction false} ByIdFinds(nodes: seq<Node>, id: string)
    requires id in ById(nodes)
    ensures var p := ById(nodes)[id]; p.at < |nodes| && nodes[p.at] == p.node && p.node.id == Some(id)
  {
    var n := |nodes| - 1;
    if nodes[n].id != Some(id) { ByIdFinds(nodes[..n], id); }
  }

  lemma {:induction false} CleanById(nodes: seq<Node>, i: nat)
    requires Clean(nodes) && i < |nodes|
    ensures nodes[i].id.value in ById(nodes) && ById(nodes)[nodes[i].id.value] == Placed(i, nodes[i])
  {
    var n := |nodes| - 1;
    if i < n {
      assert Clean(nodes[..n]);
      CleanById(nodes[..n], i);
      assert nodes[i].id != nodes[n].id;
    }
  }

  lemma {:induction false} CleanCount(nodes: seq<Node>)
    requires Clean(nodes)
    ensures |ById(nodes).Keys| == |nodes|
  {
    if nodes != [] {
      var n := |nodes| - 1;
      CleanCount(nodes[..n]);
      var id := nodes[n].id.value;
      if id in ById(nodes[..n]) {
        ByIdFinds(nodes[..n], id);
      }
      assert ById(nodes).Keys == ById(nodes[..n]).Keys + {id};
    }
  }

  /** Equal lists, whatever their ids, have agreeing indexes. */
  lemma {:induction false} EqualAgree(a: seq<Node>, b: seq<Node>)
    requires NodesEq(a, b)
    ensures Agree(ById(a), ById(b))
  {
    hide PyEq;
    if a != [] {
      var n := |a| - 1;
      forall i | 0 <= i < n ensures NodeEq(a[..n][i], b[..n][i]) { assert NodeEq(a[i], b[i]); }
      EqualAgree(a[..n], b[..n]);
      assert NodeEq(a[n], b[n]);
    }
  }

  lemma AgreeEqual(a: seq<Node>, b: seq<Node>)
    requires Clean(a) && |a| == |b| && Agree(ById(a), ById(b))
    ensures NodesEq(a, b)
  {
    hide PyEq, ById;
    forall i | 0 <= i < |a| ensures NodeEq(a[i], b[i]) {
      CleanById(a, i);
      var id := a[i].id.value;
      assert SamePlaced(ById(a)[id], ById(b)[id]);
      ByIdFinds(b, id);
    }
  }

  /** The whole diff is empty, for any two definitions, exactly when the node indexes
      agree and the rest compares equal. */
  lemma QuietIff(registered: Definition, live: Definition)
    ensures DefinitionChanges(registered, live) == []
            <==> && Agree(ById(registered.nodes), ById(live.nodes))
                 && PyEq(registered.connections, live.connections)
                 && PyEq(registered.settings, live.settings)
  {
    hide PyEq, ById, NodesDiff, GenericDiff, Agree;
    var a := NodesDiff(registered.nodes, live.nodes);
    var b := GenericDiff(registered.connections, live.connections, [Key("connections")]);
    var c := GenericDiff(registered.settings, live.settings, [Key("settings")]);
    ConcatEmpty(a, b);
    ConcatEmpty(a + b, c);
    EmptyIffEqual(registered.connections, live.connections, [Key("connections")]);
    EmptyIffEqual(registered.settings, live.settings, [Key("settings")]);
    NodesQuietIffAgree(registered.nodes, live.nodes);
  }

  /** With distinct ids everywhere, the whole diff is empty exactly when the two
      definitions compare equal. */
  lemma CleanDiffEmptyIffEqual(registered: Definition, live: Definition)
    requires Clean(registered.nodes) && Clean(live.nodes)
    ensures DefinitionChanges(registered, live) == [] <==> DefinitionEq(registered, live)
  {
    hide PyEq, ById, Clean, DefinitionChanges, NodesEq, Agree;
    QuietIff(registered, live);
    if NodesEq(registered.nodes, live.nodes) { EqualAgree(registered.nodes, live.nodes); }
    if Agree(ById(registered.nodes), ById(live.nodes)) {
      SameCount(registered.nodes, live.nodes);
      AgreeEqual(registered.nodes, live.nodes);
    }
  }

  lemma SameCount(a: seq<Node>, b: seq<Node>)
    requires Clean(a) && Clean(b) && Agree(ById(a), ById(b))
    ensures |a| == |b|
  {
    CleanCount(a);
    CleanCount(b);
  }

  // ---------------------------------------------------------------- what it overlooks

  /** A later node carries the same id, or this one carries none. */
  ghost predicate Overlooked(nodes: seq<Node>, i: nat)
    requires i < |nodes|
  {
    nodes[i].id.None? || exists j :: i < j < |nodes| && nodes[j].id == nodes[i].id
  }

  lemma {:induction false} ReplaceElsewhere(nodes: seq<Node>, i: nat, node: Node, id: string)
    requires i < |nodes| && node.id == nodes[i].id && nodes[i].id != Some(id)
    ensures id in ById(nodes[i := node]) <==> id in ById(nodes)
    ensures id in ById(nodes) ==> ById(nodes[i := node])[id] == ById(nodes)[id]
  {
    var n := |nodes| - 1;
    if i < n {
      assert nodes[i := node][..n] == nodes[..n][i := node];
      ReplaceElsewhere(nodes[..n], i, node, id);
    } else {
      assert nodes[i := node][..n] == nodes[..n];
    }
  }

  lemma {:induction false} ReplaceOverlooked(nodes: seq<Node>, i: nat, node: Node)
    requires i < |nodes| && node.id == nodes[i].id && Overlooked(nodes, i)
    ensures ById(nodes[i := node]) == ById(nodes)
  {
    var n := |nodes| - 1;
    if i == n {
      assert nodes[i := node][..n] == nodes[..n];
    } else {
      assert nodes[i := node][..n] == nodes[..n][i := node];
      if nodes[n].id == nodes[i].id && nodes[n].id.Some? {
        forall id | Some(id) != nodes[i].id
          ensures id in ById(nodes[..n][i := node]) <==> id in ById(nodes[..n])
          ensures id in ById(nodes[..n]) ==> ById(nodes[..n][i := node])[id] == ById(nodes[..n])[id]
        {
          ReplaceElsewhere(nodes[..n], i, node, id);
        }
      } else {
        assert Overlooked(nodes[..n], i);
        ReplaceOverlooked(nodes[..n], i, node);
      }
    }
  }

  lemma SomeOverlooked(nodes: seq<Node>) returns (i: nat)
    requires !Clean(nodes)
    ensures i < |nodes| && Overlooked(nodes, i)
  {
    if k :| 0 <= k < |nodes| && nodes[k].id.None? {
      i := k;
    } else {
      var j, k :| 0 <= j < k < |nodes| && nodes[j].id == nodes[k].id;
      i := j;
    }
  }

  /** An overlooked node with other content. */
  lemma Hidden(registered: seq<Node>) returns (live: seq<Node>, i: nat)
    requires !Clean(registered)
    ensures i < |registered| && NodesDiff(registered, live) == [] && !NodesEq(registered, live)
    ensures live == registered[i := Node(registered[i].id, map[])]
            || live == registered[i := Node(registered[i].id, map["x" := Null])]
  {
    hide PyEq, ById, NodesDiff, NodesEq, Agree;
    i := SomeOverlooked(registered);
    var other := if "x" in registered[i].content then map[] else map["x" := Null];
    live := registered[i := Node(registered[i].id, other)];
    ReplaceOverlooked(registered, i, Node(registered[i].id, other));
    NodesSelf(registered);
    EqualAgree(registered, registered);
    NodesQuietIffAgree(registered, live);
    NodesDiffer(registered, live, i);
  }

  /** Exactly the lists of nodes with distinct ids are safe: for such a list no other of
      the same length can show an empty diff unless it is equal, and for any list with a
      missing or a repeated id some unequal list of the same length does. */
  lemma CleanIffNothingHides(registered: seq<Node>)
    ensures Clean(registered) <==>
              forall live: seq<Node> | |live| == |registered| && NodesDiff(registered, live) == [] ::
                  NodesEq(registered, live)
  {
    hide PyEq, ById, NodesDiff, NodesEq, Agree;
    if Clean(registered) {
      forall live: seq<Node> | |live| == |registered| && NodesDiff(registered, live) == []
        ensures NodesEq(registered, live)
      {
        NodesQuietIffAgree(registered, live);
        AgreeEqual(registered, live);
      }
    } else {
      var live, i := Hidden(registered);
    }
  }

  lemma NodesSelf(nodes: seq<Node>)
    ensures NodesEq(nodes, nodes)
  {
    forall i | 0 <= i < |nodes| ensures NodeEq(nodes[i], nodes[i]) { PyEqSelf(Obj(nodes[i].content)); }
  }

  lemma NodesDiffer(a: seq<Node>, b: seq<Node>, i: nat)
    requires |a| == |b| && i < |a| && ("x" in a[i].content <==> "x" !in b[i].content)
    ensures !NodesEq(a, b)
  {
    assert !NodeEq(a[i], b[i]) by {
      assert a[i].content.Keys != b[i].content.Keys;
    }
  }
}
