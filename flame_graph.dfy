/** The flame-graph transform (getFlameGraph and writeFlameGraphNode): a drill-down
    past the profile's single-child root chain, then a copy of the profile tree in
    which every node carries its own samples and its samples net of its children. */
module FlameGraph {
  import opened Wrappers

  /** A node of the merged profile tree (AggregateProfileNode): its stack frame,
      absent at the synthetic root, its sample count and its children in order. */
  datatype ProfileNode = ProfileNode(
    stackTraceElement: Option<string>,
    sampleCount: int,
    children: seq<ProfileNode>)

  /** An emitted flame-graph object: its field name, `svUnique`, `svTotal` and its
      `svChildren` in emission order. */
  datatype FlameNode = FlameNode(name: string, svUnique: int, svTotal: int, children: seq<FlameNode>)

  /** The field name of a node: its stack frame, or "" when it has none. */
  function LabelOf(n: ProfileNode): string
  {
    if n.stackTraceElement.Some? then n.stackTraceElement.value else ""
  }

  // ---------------------------------------------------------------------------
  // Drill-down

  /** `n` lies on the chain of single-child nodes that starts at `root`. */
  ghost predicate OnChain(root: ProfileNode, n: ProfileNode)
    decreases root
  {
    root == n || (|root.children| == 1 && OnChain(root.children[0], n))
  }

  /** The first node of the single-child chain from `n` that does not have
      exactly one child. */
  function ChainEnd(n: ProfileNode): ProfileNode
    decreases n
  {
    if |n.children| == 1 then ChainEnd(n.children[0]) else n
  }

  /** The node the flame graph starts from: the end of the root chain when that
      end branches, and the root itself when the chain ends in a leaf. */
  function InterestingNodeOf(profile: ProfileNode): ProfileNode
  {
    if ChainEnd(profile).children == [] then profile else ChainEnd(profile)
  }

  /** The chain end lies on the chain, does not have exactly one child, and is
      the only node of the chain that does not: every node of the chain before
      it has exactly one child. */
  lemma {:induction false} ChainEndIsFirstBranch(root: ProfileNode, n: ProfileNode)
    ensures OnChain(root, ChainEnd(root))
    ensures |ChainEnd(root).children| != 1
    ensures OnChain(root, n) && |n.children| != 1 ==> n == ChainEnd(root)
    decreases root
  {
    if |root.children| == 1 {
      ChainEndIsFirstBranch(root.children[0], n);
    }
  }

  /** The chosen node is the root, or the first node of the root chain with at
      least two children; it is the root whenever the chain ends in a leaf. */
  lemma InterestingNodeChoice(profile: ProfileNode)
    ensures InterestingNodeOf(profile) == profile
      || (OnChain(profile, InterestingNodeOf(profile)) && |InterestingNodeOf(profile).children| >= 2)
    ensures ChainEnd(profile).children == [] ==> InterestingNodeOf(profile) == profile
    ensures forall n :: OnChain(profile, n) && |n.children| >= 2 ==> InterestingNodeOf(profile) == n
  {
    ChainEndIsFirstBranch(profile, profile);
    forall n | OnChain(profile, n) && |n.children| >= 2
      ensures InterestingNodeOf(profile) == n
    {
      ChainEndIsFirstBranch(profile, n);
    }
  }

  /** The drill-down loop of getFlameGraph: follows single children while there
      are any, and falls back to the root when it reaches a leaf. */
  method InterestingNode(profile: ProfileNode) returns (node: ProfileNode)
    ensures node == InterestingNodeOf(profile)
  {
    node := profile;
    while |node.children| == 1
      invariant ChainEnd(node) == ChainEnd(profile)
      decreases node
    {
      node := node.children[0];
    }
    if node.children == [] {
      node := profile;
    }
  }

  // ---------------------------------------------------------------------------
  // Emission

  /** The sum of the sample counts of `ns`. */
  function ChildSamples(ns: seq<ProfileNode>): int
    decreases |ns|
  {
    if ns == [] then 0 else ChildSamples(ns[..|ns| - 1]) + ns[|ns| - 1].sampleCount
  }

  /** The flame-graph object writeFlameGraphNode emits for the subtree `n`. */
  function Flame(n: ProfileNode): FlameNode
    decreases n
  {
    FlameNode(LabelOf(n), n.sampleCount - ChildSamples(n.children), n.sampleCount, FlameAll(n.children))
  }

  /** The objects emitted for `ns`, one after the other. */
  function FlameAll(ns: seq<ProfileNode>): seq<FlameNode>
    decreases ns
  {
    if ns == [] then [] else FlameAll(ns[..|ns| - 1]) + [Flame(ns[|ns| - 1])]
  }

  /** The whole flame-graph document: an unnamed envelope with no unique samples
      and the interesting node's samples, holding the interesting node's object. */
  function FlameGraphOf(profile: ProfileNode): FlameNode
  {
    var node := InterestingNodeOf(profile);
    FlameNode("", 0, node.sampleCount, [Flame(node)])
  }

  /** writeFlameGraphNode: nets the children's samples out of the node's own in a
      loop, then emits the children recursively, in order. */
  method WriteFlameGraphNode(node: ProfileNode) returns (f: FlameNode)
    ensures f == Flame(node)
    decreases node
  {
    var svUnique := node.sampleCount;
    for i := 0 to |node.children|
      invariant svUnique == node.sampleCount - ChildSamples(node.children[..i])
    {
      assert node.children[..i + 1][..i] == node.children[..i];
      svUnique := svUnique - node.children[i].sampleCount;
    }
    assert node.children[..|node.children|] == node.children;
    var svChildren := [];
    for i := 0 to |node.children|
      invariant svChildren == FlameAll(node.children[..i])
    {
      assert node.children[..i + 1][..i] == node.children[..i];
      var child := WriteFlameGraphNode(node.children[i]);
      svChildren := svChildren + [child];
    }
    f := FlameNode(LabelOf(node), svUnique, node.sampleCount, svChildren);
  }

  /** getFlameGraph: the drill-down followed by the emission of the envelope. */
  method WriteFlameGraph(profile: ProfileNode) returns (graph: FlameNode)
    ensures graph == FlameGraphOf(profile)
  {
    var interestingNode := InterestingNode(profile);
    var child := WriteFlameGraphNode(interestingNode);
    graph := FlameNode("", 0, interestingNode.sampleCount, [child]);
  }

  // ---------------------------------------------------------------------------
  // Properties of the emitted tree

  /** The sum of the `svTotal` of `fs`. */
  function TotalOf(fs: seq<FlameNode>): int
    decreases |fs|
  {
    if fs == [] then 0 else TotalOf(fs[..|fs| - 1]) + fs[|fs| - 1].svTotal
  }

  /** Every object of the tree `f` has `svTotal == svUnique + Σ child svTotal`. */
  ghost predicate Balanced(f: FlameNode)
    decreases f
  {
    && f.svTotal == f.svUnique + TotalOf(f.children)
    && (forall i :: 0 <= i < |f.children| ==> Balanced(f.children[i]))
  }

  /** `f` has the shape of `n`: the same labels and children in the same order,
      and every object's `svTotal` is its node's sample count. */
  ghost predicate Mirrors(f: FlameNode, n: ProfileNode)
    decreases n
  {
    && f.name == LabelOf(n)
    && f.svTotal == n.sampleCount
    && |f.children| == |n.children|
    && (forall i :: 0 <= i < |n.children| ==> Mirrors(f.children[i], n.children[i]))
  }

  /** The i-th emitted child is the object of the i-th child. */
  lemma {:induction false} FlameAllAt(ns: seq<ProfileNode>)
    ensures |FlameAll(ns)| == |ns|
    ensures forall i :: 0 <= i < |ns| ==> FlameAll(ns)[i] == Flame(ns[i])
    decreases |ns|
  {
    if ns != [] {
      FlameAllAt(ns[..|ns| - 1]);
    }
  }

  /** The children's `svTotal` add up to the children's sample counts. */
  lemma {:induction false} FlameAllTotal(ns: seq<ProfileNode>)
    ensures TotalOf(FlameAll(ns)) == ChildSamples(ns)
    decreases |ns|
  {
    if ns != [] {
      var fs := FlameAll(ns);
      FlameAllTotal(ns[..|ns| - 1]);
      FlameAllAt(ns);
      assert fs[..|fs| - 1] == FlameAll(ns[..|ns| - 1]);
    }
  }

  /** Every emitted object carries its node's label and samples, keeps its
      children in input order, and satisfies the flame-graph balance. */
  lemma {:induction false} FlameFaithful(n: ProfileNode)
    ensures Mirrors(Flame(n), n)
    ensures Balanced(Flame(n))
    decreases n
  {
    var f := Flame(n);
    FlameAllAt(n.children);
    FlameAllTotal(n.children);
    forall i | 0 <= i < |n.children|
      ensures Mirrors(f.children[i], n.children[i]) && Balanced(f.children[i])
    {
      FlameFaithful(n.children[i]);
    }
  }

  /** The sum of `svUnique` over the whole tree `f`. */
  function UniqueSum(f: FlameNode): int
    decreases f
  {
    f.svUnique + UniqueSumAll(f.children)
  }

  function UniqueSumAll(fs: seq<FlameNode>): int
    decreases fs
  {
    if fs == [] then 0 else UniqueSumAll(fs[..|fs| - 1]) + UniqueSum(fs[|fs| - 1])
  }

  /** In a balanced tree the unique samples of all objects add up to the root's
      total: no sample is lost or counted twice, whatever the input counts. */
  lemma {:induction false} UniqueSumBalanced(f: FlameNode)
    requires Balanced(f)
    ensures UniqueSum(f) == f.svTotal
    decreases f
  {
    UniqueSumAllBalanced(f.children);
  }

  lemma {:induction false} UniqueSumAllBalanced(fs: seq<FlameNode>)
    requires forall i :: 0 <= i < |fs| ==> Balanced(fs[i])
    ensures UniqueSumAll(fs) == TotalOf(fs)
    decreases fs
  {
    if fs != [] {
      UniqueSumAllBalanced(fs[..|fs| - 1]);
      UniqueSumBalanced(fs[|fs| - 1]);
    }
  }

  /** The whole document is balanced, its single child mirrors the interesting
      node, and its unique samples add up to the interesting node's samples. */
  lemma FlameGraphFaithful(profile: ProfileNode)
    ensures FlameGraphOf(profile).svUnique == 0
    ensures FlameGraphOf(profile).svTotal == InterestingNodeOf(profile).sampleCount
    ensures |FlameGraphOf(profile).children| == 1
    ensures Mirrors(FlameGraphOf(profile).children[0], InterestingNodeOf(profile))
    ensures Balanced(FlameGraphOf(profile))
    ensures UniqueSum(FlameGraphOf(profile)) == InterestingNodeOf(profile).sampleCount
  {
    var g := FlameGraphOf(profile);
    FlameFaithful(InterestingNodeOf(profile));
    assert g.children[..0] == [];
    UniqueSumBalanced(g);
  }
}
