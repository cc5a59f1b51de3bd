/** Genetic-programming expression trees (project/learning/gp/tree.py): function
    nodes over a list of children, terminal (variable) leaves and constant leaves;
    their size, depth, pre-order listing and copy; the replacement of one child;
    and random generation with a depth bound. Trees are values: the source's parent
    back-references are replaced by paths (child indices from the root). */
module GpTree {
  import opened Wrappers

  /** A registered function: its name and arity. */
  datatype Primitive = Primitive(name: string, arity: nat)

  datatype Node =
    | FunctionNode(primitive: Primitive, children: seq<Node>)
    | TerminalNode(name: string)
    | ConstantNode(value: real)

  function Sum(s: seq<nat>): nat
  {
    if s == [] then 0 else s[0] + Sum(s[1..])
  }

  /** The largest element, 0 for the empty list. */
  function MaxOf(s: seq<nat>): (m: nat)
    ensures forall i :: 0 <= i < |s| ==> s[i] <= m
    ensures s == [] ==> m == 0
    ensures s != [] ==> m in s
  {
    if s == [] then 0
    else
      var rest := MaxOf(s[1..]);
      assert forall i :: 1 <= i < |s| ==> s[i] == s[1..][i - 1];
      if s[0] >= rest then s[0] else rest
  }

  function Concat(ss: seq<seq<Node>>): seq<Node>
  {
    if ss == [] then [] else ss[0] + Concat(ss[1..])
  }

  /** `size`: the number of nodes of the subtree, the node itself included. */
  function Size(t: Node): (n: nat)
    ensures n >= 1
  {
    match t
    case FunctionNode(_, cs) => 1 + Sum(seq(|cs|, i requires 0 <= i < |cs| => Size(cs[i])))
    case _ => 1
  }

  /** `get_depth`: 1 for a leaf or a childless function node, otherwise one more
      than the deepest child. */
  function Depth(t: Node): (d: nat)
    ensures d >= 1
  {
    match t
    case FunctionNode(_, cs) => 1 + MaxOf(seq(|cs|, i requires 0 <= i < |cs| => Depth(cs[i])))
    case _ => 1
  }

  /** `get_all_nodes`: the subtree in pre-order, the node itself first. */
  function AllNodes(t: Node): (ns: seq<Node>)
    ensures |ns| >= 1 && ns[0] == t
  {
    match t
    case FunctionNode(_, cs) => [t] + Concat(seq(|cs|, i requires 0 <= i < |cs| => AllNodes(cs[i])))
    case _ => [t]
  }

  /** `clone`: a fresh copy, node by node. */
  function Clone(t: Node): Node
  {
    match t
    case FunctionNode(p, cs) => FunctionNode(p, seq(|cs|, i requires 0 <= i < |cs| => Clone(cs[i])))
    case TerminalNode(name) => TerminalNode(name)
    case ConstantNode(v) => ConstantNode(v)
  }

  lemma {:induction false} ConcatLength(ss: seq<seq<Node>>, lens: seq<nat>)
    requires |ss| == |lens| && forall i :: 0 <= i < |ss| ==> |ss[i]| == lens[i]
    ensures |Concat(ss)| == Sum(lens)
  {
    if ss != [] {
      ConcatLength(ss[1..], lens[1..]);
    }
  }

  /** The pre-order listing has exactly `size` entries and starts with the node itself. */
  lemma {:induction false} AllNodesCountsSize(t: Node)
    ensures |AllNodes(t)| == Size(t) && AllNodes(t)[0] == t
  {
    match t
    case FunctionNode(_, cs) =>
      var lists := seq(|cs|, i requires 0 <= i < |cs| => AllNodes(cs[i]));
      var sizes := seq(|cs|, i requires 0 <= i < |cs| => Size(cs[i]));
      forall i | 0 <= i < |cs|
        ensures |lists[i]| == sizes[i]
      {
        AllNodesCountsSize(cs[i]);
      }
      ConcatLength(lists, sizes);
    case _ =>
  }

  /** A copy is structurally equal to the original, so it has the same primitives,
      constants, size and depth. */
  lemma {:induction false} CloneIsEqual(t: Node)
    ensures Clone(t) == t
    ensures Size(Clone(t)) == Size(t) && Depth(Clone(t)) == Depth(t)
  {
    match t
    case FunctionNode(p, cs) =>
      var copies := seq(|cs|, i requires 0 <= i < |cs| => Clone(cs[i]));
      forall i | 0 <= i < |cs|
        ensures copies[i] == cs[i]
      {
        CloneIsEqual(cs[i]);
      }
      assert copies == cs;
    case _ =>
  }

  /** The first position of `x` in `cs`. */
  function FirstIndex(cs: seq<Node>, x: Node): (i: nat)
    requires x in cs
    ensures i < |cs| && cs[i] == x
    ensures forall j :: 0 <= j < i ==> cs[j] != x
  {
    if cs[0] == x then 0 else 1 + FirstIndex(cs[1..], x)
  }

  /** `replace_child`: scans the children and puts `newChild` in the place of the
      first one equal to `oldChild`; ValueError when there is none. Identity of
      nodes is modelled by equality of values. */
  method ReplaceChild(node: Node, oldChild: Node, newChild: Node) returns (r: Result<Node>)
    requires node.FunctionNode?
    ensures r.Err? <==> oldChild !in node.children
    ensures r.Err? ==> r.error == ValueError
    ensures r.Ok? ==> r.value == node.(children := node.children[FirstIndex(node.children, oldChild) := newChild])
  {
    var children := node.children;
    for i := 0 to |children|
      invariant forall j :: 0 <= j < i ==> children[j] != oldChild
    {
      if children[i] == oldChild {
        return Ok(node.(children := children[i := newChild]));
      }
    }
    return Err(ValueError);
  }

  lemma {:induction false} SumUpdate(s: seq<nat>, i: nat, v: nat)
    requires i < |s|
    ensures Sum(s[i := v]) == Sum(s) - s[i] + v
  {
    if i > 0 {
      SumUpdate(s[1..], i - 1, v);
      assert s[i := v][1..] == s[1..][i - 1 := v];
    }
  }

  /** Replacing one child changes the size by the difference of the two subtrees. */
  lemma ReplacedChildSize(p: Primitive, cs: seq<Node>, i: nat, n: Node)
    requires i < |cs|
    ensures Size(FunctionNode(p, cs[i := n])) == Size(FunctionNode(p, cs)) - Size(cs[i]) + Size(n)
  {
    var cs' := cs[i := n];
    var sizes := seq(|cs|, j requires 0 <= j < |cs| => Size(cs[j]));
    assert seq(|cs'|, j requires 0 <= j < |cs'| => Size(cs'[j])) == sizes[i := Size(n)];
    SumUpdate(sizes, i, Size(n));
  }

  /** Where a node sits: the child indices from the root. */
  type Path = seq<nat>

  /** The subtree at `path`, if the path leads anywhere. */
  function SubtreeAt(t: Node, path: Path): Option<Node>
    decreases |path|
  {
    if path == [] then Some(t)
    else if t.FunctionNode? && path[0] < |t.children| then SubtreeAt(t.children[path[0]], path[1..])
    else None
  }

  /** The tree with the subtree at `path` replaced by `n`; a path that leads nowhere
      names a node that is not in the tree. */
  function ReplaceAt(t: Node, path: Path, n: Node): (r: Result<Node>)
    ensures r.Ok? <==> SubtreeAt(t, path).Some?
    ensures r.Ok? ==> SubtreeAt(r.value, path) == Some(n)
    decreases |path|
  {
    if path == [] then Ok(n)
    else if t.FunctionNode? && path[0] < |t.children| then
      match ReplaceAt(t.children[path[0]], path[1..], n)
      case Ok(c) => Ok(t.(children := t.children[path[0] := c]))
      case Err(e) => Err(e)
    else Err(ValueError)
  }

  /** Replacing the subtree at a path changes the size by the difference of the
      removed and the inserted subtree. */
  lemma {:induction false} ReplaceAtSize(t: Node, path: Path, n: Node)
    requires SubtreeAt(t, path).Some?
    ensures ReplaceAt(t, path, n).Ok?
    ensures Size(ReplaceAt(t, path, n).value) == Size(t) - Size(SubtreeAt(t, path).value) + Size(n)
    decreases |path|
  {
    if path != [] {
      var i := path[0];
      ReplaceAtSize(t.children[i], path[1..], n);
      var c' := ReplaceAt(t.children[i], path[1..], n).value;
      assert ReplaceAt(t, path, n).value == FunctionNode(t.primitive, t.children[i := c']);
      ReplacedChildSize(t.primitive, t.children, i, c');
    }
  }

  /** Two paths that part ways at some position: neither is a prefix of the other. */
  predicate Diverge(p: Path, q: Path)
  {
    |p| > 0 && |q| > 0 && (p[0] != q[0] || Diverge(p[1..], q[1..]))
  }

  /** A replacement leaves every subtree away from the replaced position untouched. */
  lemma {:induction false} ReplaceAtElsewhere(t: Node, path: Path, n: Node, q: Path)
    requires SubtreeAt(t, path).Some? && Diverge(path, q)
    ensures ReplaceAt(t, path, n).Ok?
    ensures SubtreeAt(ReplaceAt(t, path, n).value, q) == SubtreeAt(t, q)
    decreases |path|
  {
    var i := path[0];
    var c' := ReplaceAt(t.children[i], path[1..], n).value;
    var r := FunctionNode(t.primitive, t.children[i := c']);
    assert ReplaceAt(t, path, n).value == r;
    if q[0] == i {
      ReplaceAtElsewhere(t.children[i], path[1..], n, q[1..]);
    }
  }

  /** Splits a pre-order position among consecutive blocks of the given sizes: the
      block it falls in and the offset inside that block. */
  function Locate(sizes: seq<nat>, k: nat): (ir: (nat, nat))
    requires k < Sum(sizes)
    ensures ir.0 < |sizes| && ir.1 < sizes[ir.0]
  {
    if k < sizes[0] then (0, k)
    else
      var r := Locate(sizes[1..], k - sizes[0]);
      (r.0 + 1, r.1)
  }

  /** The path of the k-th node of the pre-order listing. */
  function NodePath(t: Node, k: nat): (p: Path)
    requires k < Size(t)
    ensures SubtreeAt(t, p).Some?
  {
    if k == 0 then []
    else
      match t
      case FunctionNode(_, cs) =>
        var ir := Locate(seq(|cs|, i requires 0 <= i < |cs| => Size(cs[i])), k - 1);
        var q := NodePath(cs[ir.0], ir.1);
        assert ([ir.0] + q)[1..] == q;
        [ir.0] + q
  }

  lemma {:induction false} ConcatLocate(ss: seq<seq<Node>>, lens: seq<nat>, k: nat)
    requires |ss| == |lens| && forall i :: 0 <= i < |ss| ==> |ss[i]| == lens[i]
    requires k < Sum(lens)
    ensures |Concat(ss)| == Sum(lens)
    ensures var ir := Locate(lens, k); Concat(ss)[k] == ss[ir.0][ir.1]
  {
    ConcatLength(ss, lens);
    if k >= lens[0] {
      ConcatLocate(ss[1..], lens[1..], k - lens[0]);
    }
  }

  /** Below the root, the k-th node of the listing is a node of the child block
      that position k - 1 falls in. */
  lemma AllNodesStep(t: Node, k: nat)
    requires t.FunctionNode? && 0 < k < Size(t)
    ensures var ir := Locate(seq(|t.children|, i requires 0 <= i < |t.children| => Size(t.children[i])), k - 1);
            |AllNodes(t)| == Size(t) && ir.1 < |AllNodes(t.children[ir.0])|
            && AllNodes(t)[k] == AllNodes(t.children[ir.0])[ir.1]
  {
    AllNodesCountsSize(t);
    var cs := t.children;
    var lists := seq(|cs|, i requires 0 <= i < |cs| => AllNodes(cs[i]));
    var sizes := seq(|cs|, i requires 0 <= i < |cs| => Size(cs[i]));
    forall i | 0 <= i < |cs|
      ensures |lists[i]| == sizes[i]
    {
      AllNodesCountsSize(cs[i]);
    }
    ConcatLocate(lists, sizes, k - 1);
  }

  /** The k-th path leads to the k-th node of `get_all_nodes`, so drawing a node
      from the listing is drawing a position below `size`. */
  lemma {:induction false} NodePathFindsNode(t: Node, k: nat)
    requires k < Size(t)
    ensures |AllNodes(t)| == Size(t)
    ensures SubtreeAt(t, NodePath(t, k)) == Some(AllNodes(t)[k])
    decreases t
  {
    AllNodesCountsSize(t);
    if k > 0 {
      var cs := t.children;
      var ir := Locate(seq(|cs|, i requires 0 <= i < |cs| => Size(cs[i])), k - 1);
      AllNodesStep(t, k);
      NodePathFindsNode(cs[ir.0], ir.1);
      var q := NodePath(cs[ir.0], ir.1);
      assert NodePath(t, k) == [ir.0] + q;
      assert ([ir.0] + q)[1..] == q;
    }
  }

  /** The configured generator: the function set (`con`/`R` already filtered out),
      the terminal names, whether constants are enabled, and the probabilities. */
  datatype Factory = Factory(funcs: seq<Primitive>, terminals: seq<string>, useConst: bool,
                             constProb: real, growTerminateProb: real)

  /** The random draws, one per node position: the early-stop coin, the function
      choice, the constant coin, the constant's value and the terminal choice. A
      choice among n items is the draw modulo n. */
  datatype Draws = Draws(stop: Path -> real, func: Path -> nat, constCoin: Path -> real,
                         constValue: Path -> real, terminal: Path -> nat)

  /** `_create_terminal_or_const`. */
  function Leaf(f: Factory, d: Draws, path: Path): (n: Node)
    requires |f.terminals| > 0
    ensures n.TerminalNode? || n.ConstantNode?
    ensures n.ConstantNode? ==> f.useConst
  {
    if f.useConst && d.constCoin(path) < f.constProb then ConstantNode(d.constValue(path))
    else TerminalNode(f.terminals[d.terminal(path) % |f.terminals|])
  }

  /** `_grow_recursive`: a leaf when the depth limit is reached, or in grow mode below
      the root when the stop coin falls under the termination probability;
      otherwise a function node with one generated child per argument. */
  function Grow(f: Factory, d: Draws, current: int, maxDepth: int, grow: bool, path: Path): Node
    requires |f.funcs| > 0 && |f.terminals| > 0
    decreases if current >= maxDepth then 0 else maxDepth - current
  {
    var mustTerminate := current >= maxDepth;
    var canTerminate := grow && current > 0;
    if mustTerminate || (canTerminate && d.stop(path) < f.growTerminateProb) then Leaf(f, d, path)
    else
      var p := f.funcs[d.func(path) % |f.funcs|];
      FunctionNode(p, seq(p.arity, i requires 0 <= i < p.arity => Grow(f, d, current + 1, maxDepth, grow, path + [i])))
  }

  /** `create_random_tree`: generation from the root at depth 0. */
  function CreateRandomTree(f: Factory, d: Draws, maxDepth: int, mode: string): Node
    requires |f.funcs| > 0 && |f.terminals| > 0
  {
    Grow(f, d, 0, maxDepth, mode == "grow", [])
  }

  /** A function node is one deeper than its deepest child. */
  lemma FunctionNodeDepth(p: Primitive, cs: seq<Node>, b: nat)
    ensures (forall i :: 0 <= i < |cs| ==> Depth(cs[i]) <= b) ==> Depth(FunctionNode(p, cs)) <= b + 1
    ensures |cs| > 0 && (forall i :: 0 <= i < |cs| ==> Depth(cs[i]) == b) ==> Depth(FunctionNode(p, cs)) == b + 1
  {
    var depths := seq(|cs|, i requires 0 <= i < |cs| => Depth(cs[i]));
    assert forall i :: 0 <= i < |cs| ==> depths[i] == Depth(cs[i]);
  }

  /** Every node at depth >= maxDepth is a leaf, so a tree generated from depth
      `current` is at most maxDepth - current + 1 deep. */
  lemma {:induction false} GrowDepthBound(f: Factory, d: Draws, current: int, maxDepth: int, grow: bool, path: Path)
    requires |f.funcs| > 0 && |f.terminals| > 0
    ensures Depth(Grow(f, d, current, maxDepth, grow, path)) <= if current >= maxDepth then 1 else maxDepth - current + 1
    decreases if current >= maxDepth then 0 else maxDepth - current, 1
  {
    var mustTerminate := current >= maxDepth;
    var canTerminate := grow && current > 0;
    if !(mustTerminate || (canTerminate && d.stop(path) < f.growTerminateProb)) {
      var p := f.funcs[d.func(path) % |f.funcs|];
      var cs := seq(p.arity, i requires 0 <= i < p.arity => Grow(f, d, current + 1, maxDepth, grow, path + [i]));
      assert Grow(f, d, current, maxDepth, grow, path) == FunctionNode(p, cs);
      ChildrenDepthBound(f, d, current, maxDepth, grow, path, p.arity);
      assert forall i :: 0 <= i < |cs| ==> cs[i] == Grow(f, d, current + 1, maxDepth, grow, path + [i]);
      FunctionNodeDepth(p, cs, maxDepth - current);
    }
  }

  /** The first n subtrees generated below a node at depth `current` < maxDepth. */
  lemma {:induction false} ChildrenDepthBound(f: Factory, d: Draws, current: int, maxDepth: int, grow: bool, path: Path, n: nat)
    requires |f.funcs| > 0 && |f.terminals| > 0
    requires current < maxDepth
    ensures forall i :: 0 <= i < n ==> Depth(Grow(f, d, current + 1, maxDepth, grow, path + [i])) <= maxDepth - current
    decreases maxDepth - current, 0
  {
    forall i | 0 <= i < n
      ensures Depth(Grow(f, d, current + 1, maxDepth, grow, path + [i])) <= maxDepth - current
    {
      GrowDepthBound(f, d, current + 1, maxDepth, grow, path + [i]);
    }
  }

  /** Outside grow mode, with every function taking at least one argument, the tree
      is exactly maxDepth - current + 1 deep. */
  lemma {:induction false} FullTreeDepth(f: Factory, d: Draws, current: int, maxDepth: int, path: Path)
    requires |f.funcs| > 0 && |f.terminals| > 0
    requires forall i :: 0 <= i < |f.funcs| ==> f.funcs[i].arity >= 1
    requires current <= maxDepth
    ensures Depth(Grow(f, d, current, maxDepth, false, path)) == maxDepth - current + 1
    decreases maxDepth - current
  {
    if current < maxDepth {
      var p := f.funcs[d.func(path) % |f.funcs|];
      var cs := seq(p.arity, i requires 0 <= i < p.arity => Grow(f, d, current + 1, maxDepth, false, path + [i]));
      assert Grow(f, d, current, maxDepth, false, path) == FunctionNode(p, cs);
      forall i | 0 <= i < |cs|
        ensures Depth(cs[i]) == maxDepth - current
      {
        FullTreeDepth(f, d, current + 1, maxDepth, path + [i]);
      }
      FunctionNodeDepth(p, cs, maxDepth - current);
    }
  }

  /** `create_random_tree(d)` is at most d + 1 deep; outside grow mode exactly. */
  lemma RandomTreeDepth(f: Factory, d: Draws, maxDepth: int, mode: string)
    requires |f.funcs| > 0 && |f.terminals| > 0 && maxDepth >= 0
    ensures Depth(CreateRandomTree(f, d, maxDepth, mode)) <= maxDepth + 1
    ensures mode != "grow" && (forall i :: 0 <= i < |f.funcs| ==> f.funcs[i].arity >= 1) ==>
              Depth(CreateRandomTree(f, d, maxDepth, mode)) == maxDepth + 1
  {
    GrowDepthBound(f, d, 0, maxDepth, mode == "grow", []);
    if mode != "grow" && (forall i :: 0 <= i < |f.funcs| ==> f.funcs[i].arity >= 1) {
      FullTreeDepth(f, d, 0, maxDepth, []);
    }
  }
}
