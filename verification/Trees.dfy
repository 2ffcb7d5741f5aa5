// JSON trees as the protocol measures them: encoded bytes, nodes and depth,
// and the walks with an explicit stack that the server, the client, the page
// builder and the record model use.
module Trees {
  import opened Prelude

  // A scalar as the record model tells them apart: the UTF-8 length of a string
  // or of a timestamp's text, the value of an integer, whether a float is
  // finite; true, false and null are plain.
  datatype Scalar = Chars(utf8: nat) | Moment(utf8: nat) | Integer(value: int) | Float(finite: bool) | Plain

  // A scalar with its encoded length, an array, or an object with the encoded
  // lengths of its keys.
  datatype Tree = Leaf(bytes: nat, scalar: Scalar) | List(items: seq<Tree>) | Dict(keys: seq<nat>, values: seq<Tree>)

  /* ---------------- recursive measures ---------------- */

  // Every value is a node, and so is every key.
  function Nodes(t: Tree): (n: nat)
    ensures n >= 1
  {
    match t
    case Leaf(_, _) => 1
    case List(items) => 1 + SumNodes(items)
    case Dict(keys, values) => 1 + |keys| + SumNodes(values)
  }

  function SumNodes(items: seq<Tree>): nat {
    if items == [] then 0 else Nodes(items[0]) + SumNodes(items[1..])
  }

  function Depth(t: Tree): (d: nat)
    ensures d >= 1
  {
    match t
    case Leaf(_, _) => 1
    case List(items) => 1 + MaxDepth(items)
    case Dict(keys, values) => 1 + Max(if keys == [] then 0 else 1, MaxDepth(values))
  }

  function MaxDepth(items: seq<Tree>): nat {
    if items == [] then 0 else Max(Depth(items[0]), MaxDepth(items[1..]))
  }

  function Commas(n: nat): nat {
    if n == 0 then 0 else n - 1
  }

  // Compact JSON: brackets, commas, and a colon after every key.
  function Bytes(t: Tree): (n: nat) {
    match t
    case Leaf(bytes, _) => bytes
    case List(items) => 2 + SumBytes(items) + Commas(|items|)
    case Dict(keys, values) => 2 + Sum(keys) + |keys| + SumBytes(values) + Commas(|values|)
  }

  function SumBytes(items: seq<Tree>): nat {
    if items == [] then 0 else Bytes(items[0]) + SumBytes(items[1..])
  }

  function Sum(lengths: seq<nat>): nat {
    if lengths == [] then 0 else lengths[0] + Sum(lengths[1..])
  }

  /* ---------------- walking with a stack ---------------- */

  type Stack = seq<(Tree, nat)>

  function StackNodes(stack: Stack): nat {
    if stack == [] then 0 else StackNodes(stack[..|stack| - 1]) + Nodes(stack[|stack| - 1].0)
  }

  // The greatest depth that the trees on the stack will reach.
  function StackDepth(stack: Stack): nat {
    if stack == [] then 0
    else
      var (t, d) := stack[|stack| - 1];
      Max(StackDepth(stack[..|stack| - 1]), d + Depth(t) - 1)
  }

  // pending.extend((child, depth) for child in items)
  function Children(items: seq<Tree>, d: nat): (r: Stack)
    ensures |r| == |items| && forall i :: 0 <= i < |r| ==> r[i] == (items[i], d)
  {
    seq(|items|, i requires 0 <= i < |items| => (items[i], d))
  }

  // A key as a string of its own.
  function Key(bytes: nat): Tree {
    Leaf(bytes, Chars(bytes))
  }

  // The keys of an object are strings, one level down.
  function KeyLeaves(keys: seq<nat>, d: nat): (r: Stack)
    ensures |r| == |keys| && forall i :: 0 <= i < |r| ==> r[i] == (Key(keys[i]), d)
  {
    seq(|keys|, i requires 0 <= i < |keys| => (Key(keys[i]), d))
  }

  // What popping one item pushes.
  function Pushed(t: Tree, d: nat): Stack {
    match t
    case Leaf(_, _) => []
    case List(items) => Children(items, d + 1)
    case Dict(keys, values) => KeyLeaves(keys, d + 1) + Children(values, d + 1)
  }

  lemma {:induction false} StackJoin(a: Stack, b: Stack)
    ensures StackNodes(a + b) == StackNodes(a) + StackNodes(b)
    ensures StackDepth(a + b) == Max(StackDepth(a), StackDepth(b))
  {
    if b == [] {
      assert a + b == a;
    } else {
      assert (a + b)[..|a + b| - 1] == a + b[..|b| - 1];
      StackJoin(a, b[..|b| - 1]);
    }
  }

  lemma StackOne(t: Tree, d: nat)
    ensures StackNodes([(t, d)]) == Nodes(t) && StackDepth([(t, d)]) == d + Depth(t) - 1
  {
    assert [(t, d)][..0] == [];
  }

  lemma {:induction false} ChildrenMeasures(items: seq<Tree>, d: nat)
    ensures StackNodes(Children(items, d + 1)) == SumNodes(items)
    ensures StackDepth(Children(items, d + 1)) == if items == [] then 0 else d + MaxDepth(items)
  {
    if items != [] {
      assert Children(items, d + 1) == [(items[0], d + 1)] + Children(items[1..], d + 1);
      StackJoin([(items[0], d + 1)], Children(items[1..], d + 1));
      StackOne(items[0], d + 1);
      ChildrenMeasures(items[1..], d);
    }
  }

  lemma {:induction false} KeyMeasures(keys: seq<nat>, d: nat)
    ensures StackNodes(KeyLeaves(keys, d + 1)) == |keys|
    ensures StackDepth(KeyLeaves(keys, d + 1)) == if keys == [] then 0 else d + 1
  {
    if keys != [] {
      assert KeyLeaves(keys, d + 1) == [(Key(keys[0]), d + 1)] + KeyLeaves(keys[1..], d + 1);
      StackJoin([(Key(keys[0]), d + 1)], KeyLeaves(keys[1..], d + 1));
      StackOne(Key(keys[0]), d + 1);
      KeyMeasures(keys[1..], d);
    }
  }

  lemma PushedMeasures(t: Tree, d: nat)
    ensures 1 + StackNodes(Pushed(t, d)) == Nodes(t)
    ensures Max(d, StackDepth(Pushed(t, d))) == d + Depth(t) - 1
  {
    hide StackNodes, StackDepth;
    match t
    case Leaf(_, _) => NothingPending();
    case List(items) => ChildrenMeasures(items, d);
    case Dict(keys, values) =>
      KeyMeasures(keys, d);
      ChildrenMeasures(values, d);
      StackJoin(KeyLeaves(keys, d + 1), Children(values, d + 1));
  }

  lemma NothingPending()
    ensures StackNodes([]) == 0 && StackDepth([]) == 0
  {
  }

  // Popping one tree and pushing its parts keeps what is still to be counted.
  lemma PopMeasures(front: Stack, t: Tree, d: nat)
    ensures var now := front + Pushed(t, d);
            && 1 + StackNodes(now) == StackNodes(front + [(t, d)])
            && Max(d, StackDepth(now)) == Max(d, StackDepth(front + [(t, d)]))
            && Max(StackDepth(front), Max(d, StackDepth(Pushed(t, d)))) == StackDepth(front + [(t, d)])
  {
    hide StackNodes, StackDepth, Pushed, Nodes, Depth;
    StackJoin(front, Pushed(t, d));
    StackJoin(front, [(t, d)]);
    StackOne(t, d);
    PushedMeasures(t, d);
  }

  // _tree_shape of the page builder: recursive size and height.
  method TreeShape(value: Tree) returns (nodes: nat, depth: nat)
    ensures nodes == Nodes(value) && depth == Depth(value)
  {
    hide Nodes, Depth, StackNodes, StackDepth;
    NothingPending();
    var pending: Stack := [(value, 1)];
    nodes, depth := 0, 0;
    StackOne(value, 1);
    while pending != []
      invariant nodes + StackNodes(pending) == Nodes(value)
      invariant Max(depth, StackDepth(pending)) == Depth(value)
      decreases StackNodes(pending)
    {
      var (item, level) := pending[|pending| - 1];
      ghost var front := pending[..|pending| - 1];
      assert pending == front + [(item, level)];
      PopMeasures(front, item, level);
      StackJoin(front, Pushed(item, level));
      pending := pending[..|pending| - 1];
      nodes := nodes + 1;
      depth := Max(depth, level);
      match item {
        case Leaf(_, _) =>
        case List(items) => pending := pending + Children(items, level + 1);
        case Dict(keys, values) =>
          pending := pending + KeyLeaves(keys, level + 1);
          pending := pending + Children(values, level + 1);
          assert pending == front + Pushed(item, level);
      }
      assert pending == front + Pushed(item, level);
    }
  }

  // _validate_tree of the server and _validate_response_tree of the client:
  // stop at the first excess, which happens exactly when the whole tree
  // exceeds a limit.
  method ValidateTree(value: Tree, maxNodes: nat, maxDepth: nat) returns (ok: bool)
    ensures ok <==> Nodes(value) <= maxNodes && Depth(value) <= maxDepth
  {
    hide Nodes, Depth, StackNodes, StackDepth;
    NothingPending();
    var pending: Stack := [(value, 1)];
    var nodes := 0;
    ghost var depth: nat := 0;
    StackOne(value, 1);
    while pending != []
      invariant nodes + StackNodes(pending) == Nodes(value) && nodes <= maxNodes
      invariant Max(depth, StackDepth(pending)) == Depth(value) && depth <= maxDepth
      decreases StackNodes(pending)
    {
      var (item, level) := pending[|pending| - 1];
      ghost var front := pending[..|pending| - 1];
      assert pending == front + [(item, level)];
      PopMeasures(front, item, level);
      StackJoin(front, Pushed(item, level));
      pending := pending[..|pending| - 1];
      nodes := nodes + 1;
      if nodes > maxNodes || level > maxDepth {
        return false;
      }
      depth := Max(depth, level);
      match item {
        case Leaf(_, _) =>
        case List(items) => pending := pending + Children(items, level + 1);
        case Dict(keys, values) =>
          pending := pending + KeyLeaves(keys, level + 1);
          pending := pending + Children(values, level + 1);
          assert pending == front + Pushed(item, level);
      }
      assert pending == front + Pushed(item, level);
    }
    return true;
  }

  /* ---------------- the record model's walk ---------------- */

  const MAX_BRIDGE_RECORD_DEPTH: nat := 8
  const MAX_BRIDGE_RECORD_NODES: nat := 2048
  const MAX_BRIDGE_CONTAINER_ITEMS: nat := 128
  const MAX_BRIDGE_KEY_BYTES: nat := 256
  const MAX_BRIDGE_STRING_BYTES: nat := 16384

  const MIN_BRIDGE_INTEGER: int := -0x8000_0000_0000_0000
  const MAX_BRIDGE_INTEGER: int := 0x7FFF_FFFF_FFFF_FFFF

  predicate ScalarBounded(x: Scalar) {
    match x
    case Chars(utf8) => utf8 <= MAX_BRIDGE_STRING_BYTES
    case Moment(utf8) => utf8 <= MAX_BRIDGE_STRING_BYTES
    case Integer(value) => MIN_BRIDGE_INTEGER <= value <= MAX_BRIDGE_INTEGER
    case Float(finite) => finite
    case Plain => true
  }

  // Containers, keys and scalars within their own bounds, all the way down.
  predicate PartsBounded(t: Tree) {
    match t
    case Leaf(_, scalar) => ScalarBounded(scalar)
    case List(items) => |items| <= MAX_BRIDGE_CONTAINER_ITEMS && AllBounded(items)
    case Dict(keys, values) =>
      |keys| <= MAX_BRIDGE_CONTAINER_ITEMS && (forall i :: 0 <= i < |keys| ==> keys[i] <= MAX_BRIDGE_KEY_BYTES) &&
      AllBounded(values)
  }

  predicate AllBounded(items: seq<Tree>) {
    items != [] ==> PartsBounded(items[0]) && AllBounded(items[1..])
  }

  predicate StackBounded(stack: Stack) {
    stack != [] ==> PartsBounded(stack[|stack| - 1].0) && StackBounded(stack[..|stack| - 1])
  }

  lemma {:induction false} BoundedJoin(a: Stack, b: Stack)
    ensures StackBounded(a + b) <==> StackBounded(a) && StackBounded(b)
  {
    if b == [] {
      assert a + b == a;
    } else {
      assert (a + b)[..|a + b| - 1] == a + b[..|b| - 1];
      BoundedJoin(a, b[..|b| - 1]);
    }
  }

  lemma {:induction false} BoundedChildren(items: seq<Tree>, d: nat)
    ensures StackBounded(Children(items, d)) <==> AllBounded(items)
  {
    if items != [] {
      assert Children(items, d) == [(items[0], d)] + Children(items[1..], d);
      assert [(items[0], d)][..0] == [];
      BoundedJoin([(items[0], d)], Children(items[1..], d));
      BoundedChildren(items[1..], d);
    }
  }

  // What this walk pushes: the values only; it counts the keys on the spot.
  function ValuesPushed(t: Tree, d: nat): Stack {
    match t
    case Leaf(_, _) => []
    case List(items) => Children(items, d + 1)
    case Dict(keys, values) => Children(values, d + 1)
  }

  function OwnNodes(t: Tree): nat {
    if t.Dict? then 1 + |t.keys| else 1
  }

  // An object has a value for every key, so leaving the keys off the stack
  // loses no depth.
  predicate Shapely(t: Tree) {
    match t
    case Leaf(_, _) => true
    case List(items) => AllShapely(items)
    case Dict(keys, values) => |keys| == |values| && AllShapely(values)
  }

  predicate AllShapely(items: seq<Tree>) {
    items != [] ==> Shapely(items[0]) && AllShapely(items[1..])
  }

  predicate StackShapely(stack: Stack) {
    stack != [] ==> Shapely(stack[|stack| - 1].0) && StackShapely(stack[..|stack| - 1])
  }

  lemma {:induction false} ShapelyJoin(a: Stack, b: Stack)
    ensures StackShapely(a + b) <==> StackShapely(a) && StackShapely(b)
  {
    if b == [] {
      assert a + b == a;
    } else {
      assert (a + b)[..|a + b| - 1] == a + b[..|b| - 1];
      ShapelyJoin(a, b[..|b| - 1]);
    }
  }

  lemma {:induction false} ShapelyChildren(items: seq<Tree>, d: nat)
    ensures StackShapely(Children(items, d)) <==> AllShapely(items)
  {
    if items != [] {
      assert Children(items, d) == [(items[0], d)] + Children(items[1..], d);
      assert [(items[0], d)][..0] == [];
      ShapelyJoin([(items[0], d)], Children(items[1..], d));
      ShapelyChildren(items[1..], d);
    }
  }

  lemma {:induction false} DeepValues(items: seq<Tree>)
    ensures items != [] ==> MaxDepth(items) >= 1
  {
  }

  // The bounds of one part by itself.
  predicate OwnBounds(t: Tree) {
    match t
    case Leaf(_, scalar) => ScalarBounded(scalar)
    case List(items) => |items| <= MAX_BRIDGE_CONTAINER_ITEMS
    case Dict(keys, values) =>
      |keys| <= MAX_BRIDGE_CONTAINER_ITEMS && (forall i :: 0 <= i < |keys| ==> keys[i] <= MAX_BRIDGE_KEY_BYTES)
  }

  lemma PopValues(front: Stack, t: Tree, d: nat)
    requires Shapely(t)
    ensures var now := front + ValuesPushed(t, d);
            && OwnNodes(t) + StackNodes(now) == StackNodes(front + [(t, d)])
            && Max(StackDepth(front), Max(d, StackDepth(ValuesPushed(t, d)))) == StackDepth(front + [(t, d)])
            && (StackShapely(front) ==> StackShapely(now))
            && (StackBounded(front + [(t, d)]) <==> OwnBounds(t) && StackBounded(now))
  {
    hide StackNodes, StackDepth, StackBounded, StackShapely;
    StackJoin(front, ValuesPushed(t, d));
    StackJoin(front, [(t, d)]);
    StackOne(t, d);
    BoundedJoin(front, ValuesPushed(t, d));
    BoundedJoin(front, [(t, d)]);
    BoundedOne(t, d);
    ShapelyJoin(front, ValuesPushed(t, d));
    match t
    case Leaf(_, _) =>
      NothingPending();
      EmptyBounded();
    case List(items) =>
      ChildrenMeasures(items, d);
      BoundedChildren(items, d + 1);
      ShapelyChildren(items, d + 1);
    case Dict(keys, values) =>
      ChildrenMeasures(values, d);
      BoundedChildren(values, d + 1);
      ShapelyChildren(values, d + 1);
      DeepValues(values);
  }

  lemma BoundedOne(t: Tree, d: nat)
    ensures StackBounded([(t, d)]) <==> PartsBounded(t)
  {
    EmptyBounded();
    assert [(t, d)][..0] == [];
  }

  lemma EmptyBounded()
    ensures StackBounded([]) && StackShapely([])
  {
  }

  predicate RecordBounded(t: Tree) {
    Nodes(t) <= MAX_BRIDGE_RECORD_NODES && Depth(t) <= MAX_BRIDGE_RECORD_DEPTH && PartsBounded(t)
  }

  // What the walk knows: what it has counted and what is pending together are
  // the whole tree, and nothing it has seen is out of bounds.
  ghost predicate Tally(value: Tree, pending: Stack, nodes: nat) {
    && nodes + StackNodes(pending) == Nodes(value)
    && StackShapely(pending)
    && (RecordBounded(value) <==>
        nodes + StackNodes(pending) <= MAX_BRIDGE_RECORD_NODES &&
        StackDepth(pending) <= MAX_BRIDGE_RECORD_DEPTH && StackBounded(pending))
  }

  lemma TallyStarts(value: Tree)
    requires Shapely(value)
    ensures Tally(value, [(value, 1)], 0)
  {
    StackOne(value, 1);
    BoundedOne(value, 1);
    ShapelyOne(value, 1);
  }

  // An item out of bounds by itself condemns the tree; otherwise popping it
  // keeps the tally.
  lemma TallyPops(value: Tree, front: Stack, item: Tree, d: nat, nodes: nat)
    requires Tally(value, front + [(item, d)], nodes)
    ensures Shapely(item) && (item.Dict? ==> |item.keys| == |item.values|)
    ensures RecordBounded(value) ==>
              nodes + OwnNodes(item) <= MAX_BRIDGE_RECORD_NODES && d <= MAX_BRIDGE_RECORD_DEPTH && OwnBounds(item)
    ensures d <= MAX_BRIDGE_RECORD_DEPTH && OwnBounds(item) ==>
              Tally(value, front + ValuesPushed(item, d), nodes + OwnNodes(item))
    ensures StackNodes(front + ValuesPushed(item, d)) < StackNodes(front + [(item, d)])
  {
    hide StackNodes, StackDepth, StackBounded, StackShapely, RecordBounded, OwnBounds, ValuesPushed, Nodes;
    ShapelyJoin(front, [(item, d)]);
    ShapelyOne(item, d);
    PopValues(front, item, d);
    StackJoin(front, ValuesPushed(item, d));
  }

  lemma TallyEnds(value: Tree, nodes: nat)
    requires Tally(value, [], nodes) && nodes <= MAX_BRIDGE_RECORD_NODES
    ensures RecordBounded(value)
  {
    NothingPending();
    EmptyBounded();
  }

  // _bounded_tree: counts every key where it meets it, pushes the values, and
  // stops at the first excess of any kind. Key lengths here are those of the
  // unquoted strings.
  method BoundedTree(value: Tree) returns (ok: bool)
    requires Shapely(value)
    ensures ok <==> RecordBounded(value)
  {
    hide Tally, RecordBounded, Nodes, Depth, Shapely, StackNodes;
    var pending: Stack := [(value, 1)];
    var nodes := 0;
    TallyStarts(value);
    while pending != []
      invariant Tally(value, pending, nodes) && nodes <= MAX_BRIDGE_RECORD_NODES
      decreases StackNodes(pending)
    {
      var (item, level) := pending[|pending| - 1];
      ghost var front := pending[..|pending| - 1];
      assert pending == front + [(item, level)];
      TallyPops(value, front, item, level, nodes);
      pending := pending[..|pending| - 1];
      nodes := nodes + 1;
      if nodes > MAX_BRIDGE_RECORD_NODES || level > MAX_BRIDGE_RECORD_DEPTH {
        return false;
      }
      match item {
        case Leaf(_, scalar) =>
          match scalar {
            case Chars(utf8) =>
              if utf8 > MAX_BRIDGE_STRING_BYTES {
                return false;
              }
            case Moment(utf8) =>
              if utf8 > MAX_BRIDGE_STRING_BYTES {
                return false;
              }
            case Plain =>
            case Integer(value) =>
              if !(MIN_BRIDGE_INTEGER <= value <= MAX_BRIDGE_INTEGER) {
                return false;
              }
            case Float(finite) =>
              if !finite {
                return false;
              }
          }
        case List(items) =>
          if |items| > MAX_BRIDGE_CONTAINER_ITEMS {
            return false;
          }
          pending := pending + Children(items, level + 1);
        case Dict(keys, values) =>
          if |keys| > MAX_BRIDGE_CONTAINER_ITEMS {
            return false;
          }
          var before := nodes;
          for i := 0 to |keys|
            invariant nodes == before + i && nodes <= MAX_BRIDGE_RECORD_NODES
            invariant forall j :: 0 <= j < i ==> keys[j] <= MAX_BRIDGE_KEY_BYTES
            invariant pending == front + Children(values, level + 1)[..i]
          {
            nodes := nodes + 1;
            if nodes > MAX_BRIDGE_RECORD_NODES || keys[i] > MAX_BRIDGE_KEY_BYTES {
              return false;
            }
            pending := pending + [(values[i], level + 1)];
          }
          assert Children(values, level + 1)[..|keys|] == Children(values, level + 1);
      }
      assert pending == front + ValuesPushed(item, level);
    }
    TallyEnds(value, nodes);
    return true;
  }

  lemma ShapelyOne(t: Tree, d: nat)
    ensures StackShapely([(t, d)]) <==> Shapely(t)
    ensures t.Dict? && Shapely(t) ==> |t.keys| == |t.values|
  {
    EmptyBounded();
    assert [(t, d)][..0] == [];
  }
}
