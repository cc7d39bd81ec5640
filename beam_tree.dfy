/**
 * The probability tree of `build_beam_tree` (model.py:183-243): down to depth n,
 * every node lists one child per answer of the top-k oracle for the buffer
 * that leads to it, in oracle order, and carries the product of the
 * probabilities on its path.
 */
module BeamTree {
  import opened Wrappers
  import opened Text
  import opened ContextWindow

  /** A child record: `token_id`, `token_str`, `probability`, `cumulative_prob`, `depth`, `children`. */
  datatype Node = Node(
    tokenId: TokenId,
    tokenStr: string,
    probability: real,
    cumulativeProb: real,
    depth: nat,
    children: Option<seq<Node>>)

  /** The returned `{"prompt": ..., "children": ...}`. */
  datatype Tree = Tree(prompt: string, children: Option<seq<Node>>)

  /** The prompt with the speaker framing the tree is built from (model.py:196). */
  function WrapPrompt(prompt: string): (r: string)
    ensures |r| == |ConversationStart + Them| + |prompt| + |Me|
    ensures StartsWith(r, ConversationStart + Them) && EndsWith(r, Me)
    ensures r[|ConversationStart + Them|..|r| - |Me|] == prompt
  {
    ConversationStart + Them + prompt + Me
  }

  /** The three fields of a node the oracle supplied. */
  function AsCandidate(node: Node): Candidate {
    Candidate(node.tokenId, node.tokenStr, node.probability)
  }

  /** The nodes list the given oracle answers, one each and in the same order. */
  predicate Answers(nodes: seq<Node>, cands: seq<Candidate>) {
    |nodes| == |cands| && forall i :: 0 <= i < |nodes| ==> AsCandidate(nodes[i]) == cands[i]
  }

  /** `build_node(tokens, depth, cumulative_prob)`: `None` past the depth bound or for an empty answer. */
  function BuildNode(topK: TopK, k: nat, n: nat, buf: seq<TokenId>, depth: nat, cum: real): (r: Option<seq<Node>>)
    ensures depth >= n ==> r == None
    ensures depth < n ==> (r == None <==> topK(buf, k) == [])
    decreases n - depth, 1, 0
  {
    if depth >= n then None
    else
      var cs := BuildList(topK, k, n, buf, depth, cum, topK(buf, k));
      if cs == [] then None else Some(cs)
  }

  /** The `for token_id, token_str, probability in top_k` loop of `build_node`, fork by fork. */
  function BuildList(topK: TopK, k: nat, n: nat, buf: seq<TokenId>, depth: nat, cum: real,
                     cands: seq<Candidate>): (r: seq<Node>)
    requires depth < n
    ensures |r| == |cands|
    ensures forall i :: 0 <= i < |r| ==> r[i] == Child(topK, k, n, buf, depth, cum, cands[i])
    decreases n - depth, 0, |cands|
  {
    if cands == [] then []
    else
      var head := Child(topK, k, n, buf, depth, cum, cands[0]);
      var tail := BuildList(topK, k, n, buf, depth, cum, cands[1..]);
      assert forall i :: 1 <= i < |cands| ==> cands[1..][i - 1] == cands[i];
      [head] + tail
  }

  /** The `child_node` record for one oracle answer: its buffer is the parent's with the token pushed. */
  function Child(topK: TopK, k: nat, n: nat, buf: seq<TokenId>, depth: nat, cum: real, c: Candidate): (r: Node)
    requires depth < n
    ensures AsCandidate(r) == c
    ensures r.cumulativeProb == cum * c.probability && r.depth == depth
    ensures r.children == BuildNode(topK, k, n, Push(buf, c.tokenId), depth + 1, r.cumulativeProb)
    decreases n - depth, 0, 0
  {
    var p := cum * c.probability;
    Node(c.tokenId, c.tokenStr, c.probability, p, depth, BuildNode(topK, k, n, Push(buf, c.tokenId), depth + 1, p))
  }

  /** A child list holds one entry per oracle answer, in oracle order. */
  lemma BuildNodeAnswers(topK: TopK, k: nat, n: nat, buf: seq<TokenId>, depth: nat, cum: real)
    ensures BuildNode(topK, k, n, buf, depth, cum).Some? ==>
      Answers(BuildNode(topK, k, n, buf, depth, cum).value, topK(buf, k))
  {
    if depth < n {
      var cands := topK(buf, k);
      var cs := BuildList(topK, k, n, buf, depth, cum, cands);
      forall i | 0 <= i < |cs|
        ensures AsCandidate(cs[i]) == cands[i]
      {
        assert cs[i] == Child(topK, k, n, buf, depth, cum, cands[i]);
      }
    }
  }

  /** `build_beam_tree`: the framed, truncated prompt is the root buffer, at depth 0 and cumulative 1.0. */
  function BuildBeamTree(topK: TopK, encode: string -> seq<TokenId>, prompt: string, k: nat, n: nat): Tree {
    Tree(WrapPrompt(prompt), BuildNode(topK, k, n, Truncate(encode(WrapPrompt(prompt))), 0, 1.0))
  }

  /**
   * The shape every node of the tree satisfies: its depth field is its level,
   * no level reaches n, its cumulative probability is its parent's times its own,
   * and a child list is never empty (an empty answer gives `None`).
   */
  ghost predicate NodeConsistent(node: Node, depth: nat, parentCum: real, n: nat)
    decreases n - depth, 0
  {
    && node.depth == depth
    && depth < n
    && node.cumulativeProb == parentCum * node.probability
    && match node.children
       case None => true
       case Some(cs) => cs != [] && Consistent(cs, depth + 1, node.cumulativeProb, n)
  }

  ghost predicate Consistent(nodes: seq<Node>, depth: nat, cum: real, n: nat)
    decreases n - depth, 1
  {
    forall i :: 0 <= i < |nodes| ==> NodeConsistent(nodes[i], depth, cum, n)
  }

  /** Every child list `build_node` returns is non-empty and consistent, down to the leaves. */
  lemma {:induction false} BuildNodeConsistent(topK: TopK, k: nat, n: nat, buf: seq<TokenId>, depth: nat, cum: real)
    ensures BuildNode(topK, k, n, buf, depth, cum).Some? ==>
      var cs := BuildNode(topK, k, n, buf, depth, cum).value;
      cs != [] && Consistent(cs, depth, cum, n)
    decreases n - depth, 1
  {
    if depth < n {
      var cands := topK(buf, k);
      var cs := BuildList(topK, k, n, buf, depth, cum, cands);
      forall i | 0 <= i < |cs|
        ensures NodeConsistent(cs[i], depth, cum, n)
      {
        ChildConsistent(topK, k, n, buf, depth, cum, cands[i]);
      }
    }
  }

  lemma {:induction false} ChildConsistent(topK: TopK, k: nat, n: nat, buf: seq<TokenId>, depth: nat, cum: real, c: Candidate)
    requires depth < n
    ensures NodeConsistent(Child(topK, k, n, buf, depth, cum, c), depth, cum, n)
    decreases n - depth, 0
  {
    var node := Child(topK, k, n, buf, depth, cum, c);
    assert node.probability == c.probability by {
      assert AsCandidate(node) == c;
    }
    BuildNodeConsistent(topK, k, n, Push(buf, c.tokenId), depth + 1, node.cumulativeProb);
  }

  /** The whole tree: top-level children sit at depth 0 with cumulative probability their own. */
  lemma BuildBeamTreeShape(topK: TopK, encode: string -> seq<TokenId>, prompt: string, k: nat, n: nat)
    ensures var t := BuildBeamTree(topK, encode, prompt, k, n);
      && t.prompt == ConversationStart + Them + prompt + Me
      && (t.children == None <==> n == 0 || topK(Truncate(encode(t.prompt)), k) == [])
      && (t.children.Some? ==>
           && Answers(t.children.value, topK(Truncate(encode(t.prompt)), k))
           && Consistent(t.children.value, 0, 1.0, n)
           && forall i :: 0 <= i < |t.children.value| ==>
                t.children.value[i].cumulativeProb == t.children.value[i].probability)
  {
    BuildNodeConsistent(topK, k, n, Truncate(encode(WrapPrompt(prompt))), 0, 1.0);
    BuildNodeAnswers(topK, k, n, Truncate(encode(WrapPrompt(prompt))), 0, 1.0);
  }

  // ---------------------------------------------------------------------
  // Addressing a node by the token ids on its path
  // ---------------------------------------------------------------------

  /** The position of the first node with the given token id. */
  function FirstWithId(nodes: seq<Node>, id: TokenId): (r: Option<nat>)
    ensures r.Some? ==> r.value < |nodes| && nodes[r.value].tokenId == id
    ensures forall j :: 0 <= j < |nodes| && (r.None? || j < r.value) ==> nodes[j].tokenId != id
  {
    if nodes == [] then None
    else if nodes[0].tokenId == id then Some(0)
    else match FirstWithId(nodes[1..], id)
      case None => None
      case Some(j) => Some(j + 1)
  }

  /** Following the first child with each id of `path`; `None` for the empty path or a missing step. */
  function Descend(nodes: seq<Node>, path: seq<TokenId>): Option<Node>
    decreases |path|
  {
    if path == [] then None
    else match FirstWithId(nodes, path[0])
      case None => None
      case Some(i) =>
        if |path| == 1 then Some(nodes[i])
        else match nodes[i].children
          case None => None
          case Some(cs) => Descend(cs, path[1..])
  }

  /** Each node of a list was grown one level down from `buf` with its own token pushed. */
  ghost predicate GrownFrom(topK: TopK, k: nat, n: nat, nodes: seq<Node>, buf: seq<TokenId>, depth: nat) {
    forall i :: 0 <= i < |nodes| ==>
      && nodes[i].depth == depth
      && nodes[i].children == BuildNode(topK, k, n, Push(buf, nodes[i].tokenId), depth + 1, nodes[i].cumulativeProb)
  }

  lemma BuildNodeGrown(topK: TopK, k: nat, n: nat, buf: seq<TokenId>, depth: nat, cum: real)
    requires BuildNode(topK, k, n, buf, depth, cum).Some?
    ensures GrownFrom(topK, k, n, BuildNode(topK, k, n, buf, depth, cum).value, buf, depth)
  {
    var cands := topK(buf, k);
    var cs := BuildNode(topK, k, n, buf, depth, cum).value;
    forall i | 0 <= i < |cs|
      ensures cs[i].depth == depth
      ensures cs[i].children == BuildNode(topK, k, n, Push(buf, cs[i].tokenId), depth + 1, cs[i].cumulativeProb)
    {
      assert cs[i] == Child(topK, k, n, buf, depth, cum, cands[i]);
      assert AsCandidate(cs[i]) == cands[i];
    }
  }

  /** One step of Descend: the first node with the path's first id, then the rest of the path below it. */
  lemma DescendStep(nodes: seq<Node>, path: seq<TokenId>)
    requires Descend(nodes, path).Some?
    ensures FirstWithId(nodes, path[0]).Some?
    ensures var first := nodes[FirstWithId(nodes, path[0]).value];
      && first.tokenId == path[0]
      && (|path| == 1 ==> Descend(nodes, path) == Some(first))
      && (|path| > 1 ==> first.children.Some? && Descend(nodes, path) == Descend(first.children.value, path[1..]))
  {
  }

  /**
   * The node reached along `path` has the subtree that `build_node` grows from
   * `target`, the buffer the path's tokens are pushed into, one level below it:
   * the tree at any node depends on the path only through that buffer.
   */
  lemma {:induction false} DescendBuilds(topK: TopK, k: nat, n: nat, nodes: seq<Node>, buf: seq<TokenId>, depth: nat,
                                         path: seq<TokenId>, target: seq<TokenId>, level: nat)
    requires GrownFrom(topK, k, n, nodes, buf, depth)
    requires Descend(nodes, path).Some?
    requires target == Replay(buf, path) && level == depth + |path|
    ensures var node := Descend(nodes, path).value;
      node.depth + 1 == level && node.children == BuildNode(topK, k, n, target, level, node.cumulativeProb)
    decreases |path|
  {
    DescendStep(nodes, path);
    var first := nodes[FirstWithId(nodes, path[0]).value];
    var next := Push(buf, path[0]);
    assert target == Replay(next, path[1..]);
    if |path| == 1 {
      assert path[1..] == [];
    } else {
      BuildNodeGrown(topK, k, n, next, depth + 1, first.cumulativeProb);
      DescendBuilds(topK, k, n, first.children.value, next, depth + 1, path[1..], target, level);
    }
  }
}
