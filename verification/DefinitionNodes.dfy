/**
 Which node entries a structural diff holds, in terms of the two lists of nodes: one per
 removed or added node, one per node that only moved, and otherwise the changes of its
 content; in that order.
 */
module DefinitionNodes {
  import opened DefinitionDiff
  import DefinitionEntries
  import DefinitionPatch
  import opened JsonValue
  import opened Text
  import opened Wrappers

  /** The last node with this id. */
  ghost predicate LastAt(nodes: seq<Node>, id: string, i: nat) {
    i < |nodes| && nodes[i].id == Some(id) && forall j | i < j < |nodes| :: nodes[j].id != Some(id)
  }

  ghost predicate Named(nodes: seq<Node>, id: string) {
    exists i: nat :: LastAt(nodes, id, i)
  }

  function At(i: nat): Path {
    [Key("nodes"), Index(i)]
  }

  /** What an entry shows of a node: its type and its name, if it has them. */
  function Brief(node: Node): Summary {
    Summary(if "type" in node.content then node.content["type"] else Null,
            if "name" in node.content then node.content["name"] else Null)
  }

  ghost predicate ReportsRemoval(registered: seq<Node>, live: seq<Node>, e: Entry) {
    exists id: string, i: nat ::
      LastAt(registered, id, i) && !Named(live, id) && e == Entry(At(i), NodeRemoved(Brief(registered[i])))
  }

  ghost predicate ReportsAddition(registered: seq<Node>, live: seq<Node>, e: Entry) {
    exists id: string, j: nat ::
      LastAt(live, id, j) && !Named(registered, id) && e == Entry(At(j), NodeAdded(Brief(live[j])))
  }

  ghost predicate ReportsMatch(registered: seq<Node>, live: seq<Node>, e: Entry) {
    exists id: string, i: nat, j: nat ::
      && LastAt(registered, id, i) && LastAt(live, id, j)
      && var r, l := Obj(registered[i].content), Obj(live[j].content);
         if PyEq(r, l) then i != j && e == Entry(At(j), Moved(i, j)) else e in GenericDiff(r, l, At(j))
  }

  // ---------------------------------------------------------------- the index

  lemma {:induction false} IndexIsLast(nodes: seq<Node>, id: string)
    ensures id in ById(nodes) <==> Named(nodes, id)
    ensures id in ById(nodes) ==>
              var p := ById(nodes)[id]; LastAt(nodes, id, p.at) && p.node == nodes[p.at]
  {
    if nodes != [] {
      var n := |nodes| - 1;
      IndexIsLast(nodes[..n], id);
      if nodes[n].id == Some(id) {
        assert LastAt(nodes, id, n);
      } else if i: nat :| LastAt(nodes[..n], id, i) {
        assert LastAt(nodes, id, i);
      } else if k: nat :| LastAt(nodes, id, k) {
        assert LastAt(nodes[..n], id, k);
      }
    }
  }

  lemma OneLast(nodes: seq<Node>, id: string, i: nat, j: nat)
    requires LastAt(nodes, id, i) && LastAt(nodes, id, j)
    ensures i == j
  {
  }

  // ---------------------------------------------------------------- entries

  lemma {:induction false} InIdsDiff(r: map<string, Placed>, l: map<string, Placed>, ids: seq<string>, e: Entry)
    requires forall id | id in ids :: id in r || id in l
    ensures e in IdsDiff(r, l, ids) <==> exists id :: id in ids && e in IdDiff(r, l, id)
  {
    hide IdDiff;
    if ids != [] {
      var n := |ids| - 1;
      InIdsDiff(r, l, ids[..n], e);
      assert ids == ids[..n] + [ids[n]];
    }
  }

  /** One id's entries, in terms of the lists. */
  lemma IdReports(registered: seq<Node>, live: seq<Node>, id: string, e: Entry)
    requires id in ById(registered) || id in ById(live)
    ensures e in IdDiff(ById(registered), ById(live), id) ==>
              if id !in ById(live) then ReportsRemoval(registered, live, e)
              else if id !in ById(registered) then ReportsAddition(registered, live, e)
              else ReportsMatch(registered, live, e)
  {
    hide ById, PyEq, GenericDiff, LastAt, Named;
    IndexIsLast(registered, id);
    IndexIsLast(live, id);
    var r, l := ById(registered), ById(live);
    if id in r && id in l && e in IdDiff(r, l, id) {
      EmptyIffEqual(Obj(r[id].node.content), Obj(l[id].node.content), At(l[id].at));
      assert LastAt(registered, id, r[id].at) && LastAt(live, id, l[id].at);
    }
  }

  lemma RemovalIsReported(registered: seq<Node>, live: seq<Node>, e: Entry) returns (id: string)
    requires ReportsRemoval(registered, live, e)
    ensures id in ById(registered) && id !in ById(live) && e in IdDiff(ById(registered), ById(live), id)
  {
    hide ById, Named;
    var k: string, i: nat :|
      LastAt(registered, k, i) && !Named(live, k) && e == Entry(At(i), NodeRemoved(Brief(registered[i])));
    id := k;
    IndexIsLast(registered, id);
    IndexIsLast(live, id);
    NamedBy(registered, id, i);
    OneLast(registered, id, i, ById(registered)[id].at);
  }

  lemma NamedBy(nodes: seq<Node>, id: string, i: nat)
    requires LastAt(nodes, id, i)
    ensures Named(nodes, id) && i < |nodes|
  {
  }

  lemma AdditionIsReported(registered: seq<Node>, live: seq<Node>, e: Entry) returns (id: string)
    requires ReportsAddition(registered, live, e)
    ensures id !in ById(registered) && id in ById(live) && e in IdDiff(ById(registered), ById(live), id)
  {
    hide ById, Named;
    var k: string, j: nat :|
      LastAt(live, k, j) && !Named(registered, k) && e == Entry(At(j), NodeAdded(Brief(live[j])));
    id := k;
    IndexIsLast(registered, id);
    IndexIsLast(live, id);
    NamedBy(live, id, j);
    OneLast(live, id, j, ById(live)[id].at);
  }

  lemma MatchIsReported(registered: seq<Node>, live: seq<Node>, e: Entry) returns (id: string)
    requires ReportsMatch(registered, live, e)
    ensures id in ById(registered) && id in ById(live) && e in IdDiff(ById(registered), ById(live), id)
  {
    hide ById, Named, PyEq, GenericDiff;
    var k: string, i: nat, j: nat :|
      && LastAt(registered, k, i) && LastAt(live, k, j)
      && var r, l := Obj(registered[i].content), Obj(live[j].content);
         if PyEq(r, l) then i != j && e == Entry(At(j), Moved(i, j)) else e in GenericDiff(r, l, At(j));
    id := k;
    NamedBy(registered, id, i);
    NamedBy(live, id, j);
    IndexIsLast(registered, id);
    IndexIsLast(live, id);
    OneLast(registered, id, i, ById(registered)[id].at);
    OneLast(live, id, j, ById(live)[id].at);
    EmptyIffEqual(Obj(registered[i].content), Obj(live[j].content), At(j));
  }

  /** For any two lists of nodes, an entry is reported exactly when it is the removal of a
      node whose id the live list lacks, the addition of one whose id the registered list
      lacks, the move of one with equal content to another position, or a change of the
      content of one whose content differs. */
  lemma NodeEntriesIff(registered: seq<Node>, live: seq<Node>, e: Entry)
    ensures e in NodesDiff(registered, live)
            <==> || ReportsRemoval(registered, live, e) || ReportsAddition(registered, live, e)
                 || ReportsMatch(registered, live, e)
  {
    hide ById, IdDiff, IdsDiff, Sorted, ReportsRemoval, ReportsAddition, ReportsMatch;
    var r, l := ById(registered), ById(live);
    SortedKeeps(r.Keys - l.Keys);
    SortedKeeps(l.Keys - r.Keys);
    SortedKeeps(r.Keys * l.Keys);
    InIdsDiff(r, l, Sorted(r.Keys - l.Keys), e);
    InIdsDiff(r, l, Sorted(l.Keys - r.Keys), e);
    InIdsDiff(r, l, Sorted(r.Keys * l.Keys), e);
    forall id | (id in r || id in l) && e in IdDiff(r, l, id)
      ensures || ReportsRemoval(registered, live, e) || ReportsAddition(registered, live, e)
              || ReportsMatch(registered, live, e)
    {
      IdReports(registered, live, id, e);
    }
    if ReportsRemoval(registered, live, e) { var id := RemovalIsReported(registered, live, e); }
    if ReportsAddition(registered, live, e) { var id := AdditionIsReported(registered, live, e); }
    if ReportsMatch(registered, live, e) { var id := MatchIsReported(registered, live, e); }
  }

  // ---------------------------------------------------------------- order

  /** Removals, then additions, then the rest. */
  function Rank(c: Change): nat {
    match c
    case NodeRemoved(_) => 0
    case NodeAdded(_) => 1
    case _ => 2
  }

  lemma GenericRanks(r: Json, l: Json, path: Path)
    ensures forall e | e in GenericDiff(r, l, path) :: Rank(e.change) == 2
  {
    hide GenericDiff;
    DefinitionPatch.DiffIsUnder(r, l, path);
  }

  lemma {:induction false} IdsRank(r: map<string, Placed>, l: map<string, Placed>, ids: seq<string>)
    requires forall id | id in ids :: id in r || id in l
    ensures forall e | e in IdsDiff(r, l, ids) ::
              exists id :: id in ids && Rank(e.change) == if id !in l then 0 else if id !in r then 1 else 2
  {
    hide GenericDiff, PyEq;
    if ids != [] {
      var n := |ids| - 1;
      IdsRank(r, l, ids[..n]);
      var id := ids[n];
      if id in r && id in l {
        GenericRanks(Obj(r[id].node.content), Obj(l[id].node.content), NodePath(l[id].at));
      }
      forall e | e in IdsDiff(r, l, ids)
        ensures exists id :: id in ids && Rank(e.change) == if id !in l then 0 else if id !in r then 1 else 2
      {
        if e in IdsDiff(r, l, ids[..n]) {
          var k :| k in ids[..n] && Rank(e.change) == if k !in l then 0 else if k !in r then 1 else 2;
          assert k in ids;
        } else {
          assert e in IdDiff(r, l, id) && id in ids;
        }
      }
    }
  }

  /** All removals come before all additions, and those before everything else. */
  lemma NodeEntriesInOrder(registered: seq<Node>, live: seq<Node>, i: nat, j: nat)
    requires i < j < |NodesDiff(registered, live)|
    ensures Rank(NodesDiff(registered, live)[i].change) <= Rank(NodesDiff(registered, live)[j].change)
  {
    hide ById, IdsDiff, Sorted, Rank;
    var r, l := ById(registered), ById(live);
    SortedKeeps(r.Keys - l.Keys);
    SortedKeeps(l.Keys - r.Keys);
    SortedKeeps(r.Keys * l.Keys);
    var a, b, c := IdsDiff(r, l, Sorted(r.Keys - l.Keys)), IdsDiff(r, l, Sorted(l.Keys - r.Keys)),
                   IdsDiff(r, l, Sorted(r.Keys * l.Keys));
    IdsRank(r, l, Sorted(r.Keys - l.Keys));
    IdsRank(r, l, Sorted(l.Keys - r.Keys));
    IdsRank(r, l, Sorted(r.Keys * l.Keys));
    Sections(a, b, c, i);
    Sections(a, b, c, j);
  }

  lemma Sections(a: seq<Entry>, b: seq<Entry>, c: seq<Entry>, i: nat)
    requires i < |a + b + c|
    requires forall e | e in a :: Rank(e.change) == 0
    requires forall e | e in b :: Rank(e.change) == 1
    requires forall e | e in c :: Rank(e.change) == 2
    ensures Rank((a + b + c)[i].change) == if i < |a| then 0 else if i < |a| + |b| then 1 else 2
  {
    hide Rank;
    assert i < |a| ==> (a + b + c)[i] in a;
    assert |a| <= i < |a| + |b| ==> (a + b + c)[i] in b;
    assert |a| + |b| <= i ==> (a + b + c)[i] in c;
  }

  // ---------------------------------------------------------------- the whole definition

  /** A difference somewhere in one named part of the definitions. */
  ghost predicate ReportsIn(part: string, registered: Json, live: Json, e: Entry) {
    && [Key(part)] <= e.path
    && DefinitionEntries.Differs(registered, live, e.path[1..], e.change)
  }

  lemma PartIff(part: string, registered: Json, live: Json, e: Entry)
    ensures e in GenericDiff(registered, live, [Key(part)]) <==> ReportsIn(part, registered, live, e)
  {
    hide GenericDiff, DefinitionEntries.Differs;
    DefinitionPatch.DiffIsUnder(registered, live, [Key(part)]);
    if [Key(part)] <= e.path {
      assert e.path == [Key(part)] + e.path[1..];
      DefinitionEntries.EntriesIff(registered, live, [Key(part)], e.path[1..], e.change);
    }
  }

  /** Every change of two definitions is reported, with its place and its kind, and
      nothing else is; nodes first, then connections, then settings. */
  lemma ChangesIff(registered: Definition, live: Definition, e: Entry)
    ensures e in DefinitionChanges(registered, live)
            <==> || ReportsRemoval(registered.nodes, live.nodes, e)
                 || ReportsAddition(registered.nodes, live.nodes, e)
                 || ReportsMatch(registered.nodes, live.nodes, e)
                 || ReportsIn("connections", registered.connections, live.connections, e)
                 || ReportsIn("settings", registered.settings, live.settings, e)
    ensures var changes := DefinitionChanges(registered, live);
            forall i, j | 0 <= i < j < |changes| && changes[i].path != [] && changes[j].path != [] ::
              && (changes[i].path[0] == Key("settings") ==> changes[j].path[0] == Key("settings"))
              && (changes[i].path[0] == Key("connections") ==> changes[j].path[0] != Key("nodes"))
  {
    hide NodesDiff, GenericDiff, ReportsRemoval, ReportsAddition, ReportsMatch, DefinitionEntries.Differs;
    NodeEntriesIff(registered.nodes, live.nodes, e);
    PartIff("connections", registered.connections, live.connections, e);
    PartIff("settings", registered.settings, live.settings, e);
    var a := NodesDiff(registered.nodes, live.nodes);
    var b := GenericDiff(registered.connections, live.connections, [Key("connections")]);
    var c := GenericDiff(registered.settings, live.settings, [Key("settings")]);
    PartsInOrder(registered, live, a, b, c);
  }

  lemma NodePaths(registered: seq<Node>, live: seq<Node>, e: Entry)
    requires e in NodesDiff(registered, live)
    ensures e.path != [] && e.path[0] == Key("nodes")
  {
    hide NodesDiff, GenericDiff, PyEq, Named;
    NodeEntriesIff(registered, live, e);
    if ReportsMatch(registered, live, e) {
      var id: string, i: nat, j: nat :|
        && LastAt(registered, id, i) && LastAt(live, id, j)
        && var r, l := Obj(registered[i].content), Obj(live[j].content);
           if PyEq(r, l) then i != j && e == Entry(At(j), Moved(i, j)) else e in GenericDiff(r, l, At(j));
      DefinitionPatch.DiffIsUnder(Obj(registered[i].content), Obj(live[j].content), At(j));
      assert At(j) <= e.path;
    }
  }

  lemma PartsInOrder(registered: Definition, live: Definition, a: seq<Entry>, b: seq<Entry>, c: seq<Entry>)
    requires a == NodesDiff(registered.nodes, live.nodes)
    requires b == GenericDiff(registered.connections, live.connections, [Key("connections")])
    requires c == GenericDiff(registered.settings, live.settings, [Key("settings")])
    ensures var all := a + b + c;
            forall i, j | 0 <= i < j < |all| && all[i].path != [] && all[j].path != [] ::
              && (all[i].path[0] == Key("settings") ==> all[j].path[0] == Key("settings"))
              && (all[i].path[0] == Key("connections") ==> all[j].path[0] != Key("nodes"))
  {
    hide NodesDiff, GenericDiff;
    var all := a + b + c;
    DefinitionPatch.DiffIsUnder(registered.connections, live.connections, [Key("connections")]);
    DefinitionPatch.DiffIsUnder(registered.settings, live.settings, [Key("settings")]);
    forall i | 0 <= i < |all|
      ensures all[i].path != []
      ensures all[i].path[0]
              == if i < |a| then Key("nodes") else if i < |a| + |b| then Key("connections") else Key("settings")
    {
      if i < |a| {
        assert all[i] in a;
        NodePaths(registered.nodes, live.nodes, all[i]);
      } else if i < |a| + |b| {
        assert all[i] in b;
      } else {
        assert all[i] in c;
      }
    }
  }
}
