/**
 The diff beside the definition hash. The hash is taken over the canonical text, which
 writes 1, 1.0 and true differently; the diff compares with `==`, which does not, and
 looks at nodes by id. Exactly when the two can disagree.
 */
module DefinitionHash {
  import opened DefinitionDiff
  import opened JsonValue
  import opened Wrappers

  /** The definition hash: of the canonical text, so of the definition itself. */
  type Hash = Definition -> string

  ghost predicate Injective(hash: Hash) {
    forall a, b :: hash(a) == hash(b) ==> a == b
  }

  function Pow2(n: nat): real {
    if n == 0 then 1.0 else 2.0 * Pow2(n - 1)
  }

  /** A finite double-precision number of IEEE 754: a 53-bit integer scaled by a power of
      two within the exponent's range. */
  ghost predicate IsDouble(x: real) {
    exists m: int, e: nat :: Scaled(x, m, e)
  }

  predicate Scaled(x: real, m: int, e: nat) {
    && -0x20_0000_0000_0000 < m < 0x20_0000_0000_0000
    && ((e <= 971 && x == m as real * Pow2(e)) || (e <= 1074 && x * Pow2(e) == m as real))
  }

  lemma {:induction false} PowersGrow(a: nat, b: nat)
    requires a <= b
    ensures 1.0 <= Pow2(a) <= Pow2(b)
    decreases b
  {
    if a < b {
      PowersGrow(a, b - 1);
    } else if b > 0 {
      PowersGrow(b - 1, b - 1);
    }
  }

  lemma ProductGrows(x: real, y: real, a: real, b: real, low: real, high: real)
    requires 0.0 <= x <= y && 0.0 <= a <= b && low == x * a && high == y * b
    ensures low <= high
  {
    assert x * a <= y * a;
    assert y * a <= y * b;
  }

  lemma ProductSign(m: int, p: real)
    requires p > 0.0
    ensures m <= 0 ==> m as real * p <= 0.0
  {
  }

  lemma SameSign(m: int, p: real, x: real)
    requires x == m as real * p && x > 0.0 && p > 0.0
    ensures m >= 1
  {
    ProductSign(m, p);
  }

  /** No double is larger than the largest integer of 53 bits scaled by the largest power. */
  lemma LargestDouble(x: real, largest: nat, bound: real)
    requires IsDouble(x) && x > 0.0 && largest == 971 && bound == 9007199254740991.0 * Pow2(largest)
    ensures x <= bound
  {
    hide Pow2;
    var m: int, e: nat :| Scaled(x, m, e);
    var p := Pow2(e);
    PowersGrow(0, e);
    if e <= 971 && x == m as real * p {
      SameSign(m, p, x);
      PowersGrow(e, largest);
      ProductGrows(m as real, 9007199254740991.0, p, Pow2(largest), x, bound);
    } else {
      PowersGrow(0, largest);
      ProductGrows(x, x, 1.0, p, x, m as real);
      ProductGrows(9007199254740991.0, 9007199254740991.0, 1.0, Pow2(largest), 9007199254740991.0, bound);
    }
  }

  /** None is positive and smaller than the smallest power. */
  lemma SmallestDouble(x: real, smallest: nat, scaled: real)
    requires IsDouble(x) && x > 0.0 && smallest == 1074 && scaled == x * Pow2(smallest)
    ensures scaled >= 1.0
  {
    hide Pow2;
    var m: int, e: nat :| Scaled(x, m, e);
    var p := Pow2(e);
    PowersGrow(0, e);
    if e <= 971 && x == m as real * p {
      SameSign(m, p, x);
      PowersGrow(0, smallest);
      ProductGrows(1.0, m as real, 1.0, p, 1.0, x);
      ProductGrows(1.0, x, 1.0, Pow2(smallest), 1.0, scaled);
    } else {
      PowersGrow(e, smallest);
      ProductGrows(x, x, 1.0, p, x, m as real);
      ProductGrows(x, x, p, Pow2(smallest), m as real, scaled);
    }
  }

  /** Both bounds are met. */
  lemma BoundsAreDoubles(x: real, y: real, largest: nat, smallest: nat)
    requires largest == 971 && smallest == 1074
    requires x == 9007199254740991.0 * Pow2(largest) && y * Pow2(smallest) == 1.0
    ensures IsDouble(x) && IsDouble(y)
  {
    hide Pow2;
    assert Scaled(x, 9007199254740991, largest) && Scaled(y, 1, smallest);
  }

  /** Every float in the value is a double, as a parsed document's are. */
  ghost predicate Parsed(j: Json) {
    match j
    case Float(x) => IsDouble(x)
    case Arr(items) => forall i | 0 <= i < |items| :: Parsed(items[i])
    case Obj(fields) => forall k | k in fields :: Parsed(fields[k])
    case _ => true
  }

  ghost predicate ParsedDefinition(d: Definition) {
    && (forall i | 0 <= i < |d.nodes| :: Parsed(Obj(d.nodes[i].content)))
    && Parsed(d.connections)
    && Parsed(d.settings)
  }

  /** No number in the value has another spelling that compares equal: no boolean, no
      integer that is a double too, no float with an integral value. */
  ghost predicate NoLookalikes(j: Json) {
    match j
    case Bool(_) => false
    case Int(n) => !IsDouble(n as real)
    case Float(x) => x.Floor as real != x
    case Arr(items) => forall i | 0 <= i < |items| :: NoLookalikes(items[i])
    case Obj(fields) => forall k | k in fields :: NoLookalikes(fields[k])
    case _ => true
  }

  ghost predicate Plain(d: Definition) {
    && (forall i | 0 <= i < |d.nodes| :: NoLookalikes(Obj(d.nodes[i].content)))
    && NoLookalikes(d.connections)
    && NoLookalikes(d.settings)
  }

  /** A live definition the registered one is compared with. */
  ghost predicate Alongside(registered: Definition, live: Definition) {
    ParsedDefinition(live) && |live.nodes| == |registered.nodes|
  }

  // ---------------------------------------------------------------- values

  lemma {:induction false} PlainMeansSame(a: Json, b: Json)
    requires NoLookalikes(a) && PyEq(a, b) && Parsed(b)
    ensures a == b
  {
    hide IsDouble;
    match a {
      case Int(n) => ZeroAndOne();
      case Arr(items) =>
        forall i | 0 <= i < |items| ensures items[i] == b.items[i] { PlainMeansSame(items[i], b.items[i]); }
        assert items == b.items;
      case Obj(fields) =>
        forall k | k in fields ensures fields[k] == b.fields[k] { PlainMeansSame(fields[k], b.fields[k]); }
        assert fields == b.fields;
      case _ =>
    }
  }

  lemma ZeroAndOne()
    ensures IsDouble(0 as real) && IsDouble(1 as real)
  {
    assert Pow2(0) == 1.0;
    assert Scaled(0.0, 0, 0) && Scaled(1.0, 1, 0);
  }

  /** Any other value has a twin that compares equal and is not it. */
  lemma {:induction false} Lookalike(a: Json) returns (b: Json)
    requires !NoLookalikes(a) && Parsed(a)
    ensures PyEq(a, b) && a != b && Parsed(b)
  {
    hide IsDouble;
    match a {
      case Bool(flag) => b := Int(if flag then 1 else 0);
      case Int(n) => b := Float(n as real);
      case Float(x) => b := Int(x.Floor);
      case Arr(items) =>
        var i :| 0 <= i < |items| && !NoLookalikes(items[i]);
        var c := Lookalike(items[i]);
        b := Arr(items[i := c]);
        forall j | 0 <= j < |items| ensures PyEq(items[j], b.items[j]) {
          if j != i { PyEqSelf(items[j]); }
        }
        assert b.items[i] != items[i];
      case Obj(fields) =>
        var k :| k in fields && !NoLookalikes(fields[k]);
        var c := Lookalike(fields[k]);
        b := Obj(fields[k := c]);
        forall j | j in fields ensures PyEq(fields[j], b.fields[j]) {
          if j != k { PyEqSelf(fields[j]); }
        }
        assert b.fields[k] != fields[k];
    }
  }

  // ---------------------------------------------------------------- definitions

  lemma PlainDefinitionsSame(registered: Definition, live: Definition)
    requires Plain(registered) && DefinitionEq(registered, live) && ParsedDefinition(live)
    ensures registered == live
  {
    hide PyEq, NoLookalikes;
    forall i | 0 <= i < |registered.nodes| ensures registered.nodes[i] == live.nodes[i] {
      assert NodeEq(registered.nodes[i], live.nodes[i]);
      PlainMeansSame(Obj(registered.nodes[i].content), Obj(live.nodes[i].content));
    }
    assert registered.nodes == live.nodes;
    PlainMeansSame(registered.connections, live.connections);
    PlainMeansSame(registered.settings, live.settings);
  }

  lemma EqSelf(d: Definition)
    ensures DefinitionEq(d, d) && DefinitionChanges(d, d) == []
  {
    hide PyEq, Agree, DefinitionChanges, ById, NodesEq;
    NodesSelf(d.nodes);
    PyEqSelf(d.connections);
    PyEqSelf(d.settings);
    EqualAgree(d.nodes, d.nodes);
    QuietIff(d, d);
  }

  /** A definition with another spelling of one of its numbers shows no change. */
  lemma Respelled(d: Definition) returns (live: Definition)
    requires !Plain(d) && ParsedDefinition(d)
    ensures DefinitionChanges(d, live) == [] && live != d && ParsedDefinition(live)
    ensures |live.nodes| == |d.nodes| && forall i | 0 <= i < |d.nodes| :: live.nodes[i].id == d.nodes[i].id
  {
    hide PyEq, Agree, DefinitionChanges, ById, NoLookalikes;
    EqSelf(d);
    if i :| 0 <= i < |d.nodes| && !NoLookalikes(Obj(d.nodes[i].content)) {
      var c := Lookalike(Obj(d.nodes[i].content));
      EqualToObject(d.nodes[i].content, c);
      live := d.(nodes := d.nodes[i := Node(d.nodes[i].id, c.fields)]);
      forall j | 0 <= j < |d.nodes| ensures NodeEq(d.nodes[j], live.nodes[j]) {
        if j != i { PyEqSelf(Obj(d.nodes[j].content)); }
      }
      assert live.nodes[i] != d.nodes[i];
    } else if !NoLookalikes(d.connections) {
      var c := Lookalike(d.connections);
      live := d.(connections := c);
    } else {
      var c := Lookalike(d.settings);
      live := d.(settings := c);
    }
    EqualAgree(d.nodes, live.nodes);
    QuietIff(d, live);
  }

  lemma EqualToObject(fields: map<string, Json>, c: Json)
    requires PyEq(Obj(fields), c)
    ensures c.Obj?
  {
  }

  /** A node the index overlooks can change unseen. */
  lemma Overwritten(d: Definition) returns (live: Definition)
    requires !Clean(d.nodes) && ParsedDefinition(d)
    ensures DefinitionChanges(d, live) == [] && live != d && Alongside(d, live)
  {
    hide PyEq, Agree, DefinitionChanges, ById, NodesDiff, Clean, NodesEq, IsDouble;
    var nodes, i := Hidden(d.nodes);
    live := d.(nodes := nodes);
    forall j | 0 <= j < |nodes| ensures Parsed(Obj(nodes[j].content)) {
      if j != i { assert Parsed(Obj(d.nodes[j].content)); }
    }
    NodesSelf(d.nodes);
    NodesQuietIffAgree(d.nodes, nodes);
    PyEqSelf(d.connections);
    PyEqSelf(d.settings);
    QuietIff(d, live);
  }

  /** Against live definitions with as many nodes: an empty diff means an equal
      definition exactly when the registered one has distinct ids everywhere and no
      number with a second spelling. */
  lemma EmptyMeansSameIff(registered: Definition)
    requires ParsedDefinition(registered)
    ensures Clean(registered.nodes) && Plain(registered)
            <==> forall live: Definition |
                   Alongside(registered, live) && DefinitionChanges(registered, live) == [] :: live == registered
  {
    hide PyEq, Agree, DefinitionChanges, ById, Clean, Plain, NodesEq;
    if !Clean(registered.nodes) {
      var live := Overwritten(registered);
    } else if !Plain(registered) {
      var live := Respelled(registered);
    } else {
      forall live: Definition | Alongside(registered, live) && DefinitionChanges(registered, live) == []
        ensures live == registered
      {
        QuietIff(registered, live);
        AgreeEqual(registered.nodes, live.nodes);
        PlainDefinitionsSame(registered, live);
      }
    }
  }

  /** Against live definitions with distinct ids, of any length: the same, and the
      spelling of numbers is all that can hide. */
  lemma EmptyMeansSameAmongCleanIff(registered: Definition)
    requires Clean(registered.nodes) && ParsedDefinition(registered)
    ensures Plain(registered)
            <==> forall live: Definition |
                   Clean(live.nodes) && ParsedDefinition(live) && DefinitionChanges(registered, live) == [] ::
                     live == registered
  {
    hide PyEq, Agree, DefinitionChanges, ById, Plain, NodesEq;
    if !Plain(registered) {
      var live := Respelled(registered);
      assert Clean(live.nodes);
    } else {
      forall live: Definition |
        Clean(live.nodes) && ParsedDefinition(live) && DefinitionChanges(registered, live) == []
        ensures live == registered
      {
        CleanDiffEmptyIffEqual(registered, live);
        PlainDefinitionsSame(registered, live);
      }
    }
  }

  /** The documented agreement, "the hash differs exactly when the diff is not empty",
      against every live definition with as many nodes: it holds exactly for registered
      definitions with distinct ids and no number with a second spelling. */
  lemma HashAgreesIff(hash: Hash, registered: Definition)
    requires Injective(hash) && ParsedDefinition(registered)
    ensures Clean(registered.nodes) && Plain(registered)
            <==> forall live: Definition | Alongside(registered, live) ::
                   (hash(live) != hash(registered) <==> DefinitionChanges(registered, live) != [])
  {
    hide Clean, Plain, DefinitionChanges;
    EmptyMeansSameIff(registered);
    EqSelf(registered);
    if forall live: Definition | Alongside(registered, live) ::
         (hash(live) != hash(registered) <==> DefinitionChanges(registered, live) != [])
    {
      forall live: Definition | Alongside(registered, live) && DefinitionChanges(registered, live) == []
        ensures live == registered
      {
        assert !(hash(live) != hash(registered));
      }
    }
  }

  // ---------------------------------------------------------------- inputs

  /** Without the equal number of nodes nothing is safe: a further node without an id is
      never seen, whatever the list. */
  lemma NodeWithoutIdIsInvisible(nodes: seq<Node>, content: map<string, Json>)
    ensures NodesDiff(nodes, nodes + [Node(None, content)]) == []
  {
    hide PyEq, Agree, NodesDiff, NodesEq;
    var longer := nodes + [Node(None, content)];
    assert longer[..|longer| - 1] == nodes;
    assert ById(longer) == ById(nodes);
    NodesSelf(nodes);
    EqualAgree(nodes, nodes);
    NodesQuietIffAgree(nodes, longer);
  }

  /** One against true: clean on both sides, no change shown, and not the same. */
  lemma OneAgainstTrue()
    ensures var registered := Definition([], Obj(map[]), Obj(map["x" := Int(1)]));
            var live := Definition([], Obj(map[]), Obj(map["x" := Bool(true)]));
            && Clean(registered.nodes) && Clean(live.nodes)
            && DefinitionChanges(registered, live) == []
            && registered != live
  {
    var registered := Definition([], Obj(map[]), Obj(map["x" := Int(1)]));
    var live := Definition([], Obj(map[]), Obj(map["x" := Bool(true)]));
    assert Number(Int(1)) == Number(Bool(true));
    assert PyEq(Int(1), Bool(true));
    assert PyEq(registered.settings, live.settings) && PyEq(registered.connections, live.connections);
    QuietIff(registered, live);
    assert registered.settings.fields["x"] != live.settings.fields["x"];
  }

  function WholePow2(n: nat): (p: int)
    ensures p >= 1 && p as real == Pow2(n) && (n == 0 ==> p == 1) && (n > 0 ==> p % 2 == 0)
  {
    if n == 0 then 1 else 2 * WholePow2(n - 1)
  }

  lemma ProductIsWhole(a: int, b: int)
    ensures a as real * b as real == (a * b) as real
  {
  }

  lemma EvenProduct(a: int, b: int)
    requires b % 2 == 0
    ensures (a * b) % 2 == 0
  {
    var k := b / 2;
    assert a * b == 2 * (a * k);
  }

  lemma NoSmaller(a: int, b: int)
    requires a >= 0 && b >= 1
    ensures a * b >= a
  {
  }

  /** Beyond 53 bits, a double that is an integer is even. */
  lemma WholeDoubles(n: int, m: int, e: nat)
    requires n >= 0 && Scaled(n as real, m, e)
    ensures n < 0x20_0000_0000_0000 || n % 2 == 0
  {
    var p := WholePow2(e);
    ProductIsWhole(m, p);
    ProductIsWhole(n, p);
    NoSmaller(n, p);
    if e > 0 { EvenProduct(m, p); }
    assert n == m * p || m == n * p;
  }

  /** So the first odd integer beyond has one spelling only. */
  lemma OddBeyondIsPlain()
    ensures NoLookalikes(Int(0x20_0000_0000_0001))
  {
    var x := 0x20_0000_0000_0001 as real;
    if IsDouble(x) {
      var m: int, e: nat :| Scaled(x, m, e);
      WholeDoubles(0x20_0000_0000_0001, m, e);
    }
  }
}
