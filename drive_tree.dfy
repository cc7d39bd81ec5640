/**
 * The tree traversal utilities of static/js/drive-navigation.js: the walk
 * along `currentPath` by index, the token ids along it, the lookup of a node
 * by token ids, and the collection of the nodes one level down that still
 * lack children.
 */
module DriveTree {
  import opened Wrappers
  import opened Text
  import opened DriveState

  /** The indices a navigation path selects, level by level. */
  function Indices(path: seq<Selection>): (r: seq<nat>)
    ensures |r| == |path| && forall i :: 0 <= i < |path| ==> r[i] == path[i].index
  {
    seq(|path|, i requires 0 <= i < |path| => path[i].index)
  }

  /** The node reached from `node` by following child indices. */
  function NodeBelow(node: ClientNode, rel: seq<nat>): Option<ClientNode>
    decreases |rel|
  {
    if rel == [] then Some(node)
    else match node.children
      case Absent => None
      case Present(xs) => if rel[0] < |xs| then NodeBelow(xs[rel[0]], rel[1..]) else None
  }

  /** The node at an index path from the root entries (what a JavaScript reference to it denotes). */
  function NodeAt(roots: seq<Slot>, at: seq<nat>): Option<ClientNode> {
    if at == [] || at[0] >= |roots| || roots[at[0]].None? then None
    else NodeBelow(roots[at[0]].value, at[1..])
  }

  /** The list `getCurrentNodes` arrives at: `[]` as soon as an index or a children array is missing. */
  function Follow(nodes: seq<Slot>, at: seq<nat>): seq<Slot>
    decreases |at|
  {
    if at == [] then nodes
    else if at[0] >= |nodes| || nodes[at[0]].None? then []
    else match nodes[at[0]].value.children
      case Absent => []
      case Present(xs) => Follow(Slots(xs), at[1..])
  }

  /** An entry of the followed list is the node at the index path one longer. */
  lemma FollowIsNodeAt(nodes: seq<Slot>, at: seq<nat>, j: nat)
    requires j < |Follow(nodes, at)| && Follow(nodes, at)[j].Some?
    ensures NodeAt(nodes, at + [j]) == Follow(nodes, at)[j]
  {
    if at != [] {
      assert (at + [j])[1..] == at[1..] + [j];
      FollowBelow(nodes[at[0]].value, at[1..], j);
    }
  }

  lemma {:induction false} FollowBelow(n: ClientNode, rel: seq<nat>, j: nat)
    requires n.children.Present?
    requires j < |Follow(Slots(n.children.list), rel)| && Follow(Slots(n.children.list), rel)[j].Some?
    ensures NodeBelow(n, rel + [j]) == Follow(Slots(n.children.list), rel)[j]
    decreases |rel|
  {
    var xs := n.children.list;
    if rel == [] {
      assert rel + [j] == [j];
      assert NodeBelow(n, [j]) == NodeBelow(xs[j], []);
    } else {
      assert (rel + [j])[0] == rel[0] && (rel + [j])[1..] == rel[1..] + [j];
      assert NodeBelow(n, rel + [j]) == NodeBelow(xs[rel[0]], rel[1..] + [j]);
      FollowBelow(xs[rel[0]], rel[1..], j);
    }
  }

  /** `getCurrentNodes` (drive-navigation.js:51-59). */
  method GetCurrentNodes(d: Drive) returns (nodes: seq<Slot>)
    ensures nodes == Follow(d.roots, Indices(d.currentPath))
  {
    ghost var at := Indices(d.currentPath);
    nodes := d.roots;
    var i := 0;
    while i < |d.currentPath|
      invariant i <= |d.currentPath|
      invariant Follow(d.roots, at) == Follow(nodes, at[i..])
    {
      var selection := d.currentPath[i];
      assert at[i..][0] == selection.index && at[i..][1..] == at[i + 1..];
      if selection.index >= |nodes| || nodes[selection.index].None? {
        return [];
      }
      match nodes[selection.index].value.children {
        case Absent =>
          // `break` with `nodes` undefined, then `nodes || []`
          return [];
        case Present(xs) =>
          nodes := Slots(xs);
      }
      i := i + 1;
    }
    assert at[i..] == [];
  }

  /** The token ids of the nodes `currentPath` selects, up to the first missing step. */
  function PathIds(nodes: seq<Slot>, at: seq<nat>): seq<nat>
    decreases |at|
  {
    if at == [] || at[0] >= |nodes| || nodes[at[0]].None? then []
    else [nodes[at[0]].value.tokenId] + match nodes[at[0]].value.children
      case Absent => []
      case Present(xs) => PathIds(Slots(xs), at[1..])
  }

  /** `getCurrentTokenIds`: the path's ids, then the current selection's id if there is one. */
  function TokenIds(nodes: seq<Slot>, at: seq<nat>, index: nat): seq<nat> {
    var current := Follow(nodes, at);
    PathIds(nodes, at) + if index < |current| && current[index].Some? then [current[index].value.tokenId] else []
  }

  /** The path's id list for a path every step of which exists. */
  lemma {:induction false} PathIdsComplete(nodes: seq<Slot>, at: seq<nat>, index: nat)
    requires index < |Follow(nodes, at)| && Follow(nodes, at)[index].Some?
    ensures |PathIds(nodes, at)| == |at|
    ensures |TokenIds(nodes, at, index)| == |at| + 1
    ensures TokenIds(nodes, at, index)[|at|] == Follow(nodes, at)[index].value.tokenId
    decreases |at|
  {
    if at != [] {
      var xs := nodes[at[0]].value.children.list;
      PathIdsComplete(Slots(xs), at[1..], index);
    }
  }

  /** `getCurrentTokenIds` (drive-navigation.js:80-98). */
  method GetCurrentTokenIds(d: Drive) returns (tokenIds: seq<nat>)
    ensures tokenIds == TokenIds(d.roots, Indices(d.currentPath), d.currentIndex)
  {
    ghost var at := Indices(d.currentPath);
    tokenIds := [];
    var nodes := d.roots;
    var i := 0;
    while i < |d.currentPath|
      invariant i <= |d.currentPath|
      invariant PathIds(d.roots, at) == tokenIds + PathIds(nodes, at[i..])
    {
      var selection := d.currentPath[i];
      assert at[i..][0] == selection.index && at[i..][1..] == at[i + 1..];
      if selection.index >= |nodes| || nodes[selection.index].None? {
        break;
      }
      var node := nodes[selection.index].value;
      tokenIds := tokenIds + [node.tokenId];
      // a missing children array stops the walk at the next step
      nodes := if node.children.Present? then Slots(node.children.list) else [];
      i := i + 1;
    }
    var currentNodes := GetCurrentNodes(d);
    if d.currentIndex < |currentNodes| && currentNodes[d.currentIndex].Some? {
      tokenIds := tokenIds + [currentNodes[d.currentIndex].value.tokenId];
    }
  }

  // ---------------------------------------------------------------------
  // findNodeByPath (drive-navigation.js:37-49)
  // ---------------------------------------------------------------------

  /** `nodes.find(c => c && c.token_id === id)`, as the index it stops at. */
  function FindIndex(nodes: seq<Slot>, id: nat): (r: Option<nat>)
    ensures r.Some? ==> r.value < |nodes| && nodes[r.value].Some? && nodes[r.value].value.tokenId == id
    ensures r.Some? ==> forall j :: 0 <= j < r.value && nodes[j].Some? ==> nodes[j].value.tokenId != id
    ensures r.None? ==> forall j :: 0 <= j < |nodes| && nodes[j].Some? ==> nodes[j].value.tokenId != id
    decreases |nodes|
  {
    if nodes == [] then None
    else if nodes[0].Some? && nodes[0].value.tokenId == id then Some(0)
    else match FindIndex(nodes[1..], id)
      case None => None
      case Some(j) => Some(j + 1)
  }

  function Find(nodes: seq<Slot>, id: nat): Option<ClientNode> {
    match FindIndex(nodes, id)
    case None => None
    case Some(j) => nodes[j]
  }

  /** The node the ids lead to from the given list: `None` for no ids or a missing step. */
  function Lookup(nodes: seq<Slot>, ids: seq<nat>): Option<ClientNode>
    decreases |ids|, 0
  {
    if ids == [] then None
    else match Find(nodes, ids[0])
      case None => None
      case Some(n) => LookupFrom(n, ids[1..])
  }

  /** The rest of the lookup once `node` was found. */
  function LookupFrom(node: ClientNode, rest: seq<nat>): Option<ClientNode>
    decreases |rest|, 1
  {
    if rest == [] then Some(node)
    else match node.children
      case Absent => None
      case Present(xs) => Lookup(Slots(xs), rest)
  }

  /** `findNodeByPath` on the root entries. */
  method FindNodeByPath(d: Drive, tokenIds: seq<nat>) returns (r: Option<ClientNode>)
    ensures r == Lookup(d.roots, tokenIds)
  {
    if |tokenIds| == 0 {
      return None;
    }
    var node := Find(d.roots, tokenIds[0]);
    var i := 1;
    while i < |tokenIds| && node.Some?
      invariant 1 <= i <= |tokenIds|
      invariant Lookup(d.roots, tokenIds) == if node.None? then None else LookupFrom(node.value, tokenIds[i..])
    {
      assert tokenIds[i..][0] == tokenIds[i] && tokenIds[i..][1..] == tokenIds[i + 1..];
      match node.value.children {
        case Absent =>
          return None;
        case Present(xs) =>
          node := Find(Slots(xs), tokenIds[i]);
      }
      i := i + 1;
    }
    if node.Some? {
      assert tokenIds[i..] == [];
    }
    r := node;
  }

  /** No two entries of a list carry the same token id. */
  predicate UniqueIds(nodes: seq<Slot>) {
    forall i, j :: 0 <= i < j < |nodes| && nodes[i].Some? && nodes[j].Some? ==>
      nodes[i].value.tokenId != nodes[j].value.tokenId
  }

  /** Every list the path passes through has unique ids. */
  predicate UniqueAlong(nodes: seq<Slot>, at: seq<nat>)
    decreases |at|
  {
    UniqueIds(nodes)
    && (at != [] && at[0] < |nodes| && nodes[at[0]].Some? && nodes[at[0]].value.children.Present? ==>
          UniqueAlong(Slots(nodes[at[0]].value.children.list), at[1..]))
  }

  lemma FindUnique(nodes: seq<Slot>, i: nat)
    requires UniqueIds(nodes) && i < |nodes| && nodes[i].Some?
    ensures Find(nodes, nodes[i].value.tokenId) == nodes[i]
  {
  }

  /**
   * Where ids are unique within each list, looking up the ids that
   * `getCurrentTokenIds` reports finds the current selection: the index path
   * and the id path name the same node.
   */
  lemma {:induction false} TokenIdsFindSelection(nodes: seq<Slot>, at: seq<nat>, index: nat)
    requires index < |Follow(nodes, at)| && Follow(nodes, at)[index].Some?
    requires UniqueAlong(nodes, at) && UniqueIds(Follow(nodes, at))
    ensures Lookup(nodes, TokenIds(nodes, at, index)) == Follow(nodes, at)[index]
    decreases |at|
  {
    var ids := TokenIds(nodes, at, index);
    PathIdsComplete(nodes, at, index);
    if at == [] {
      FindUnique(nodes, index);
      assert ids == [nodes[index].value.tokenId];
    } else {
      var n := nodes[at[0]].value;
      var xs := n.children.list;
      FindUnique(nodes, at[0]);
      assert ids == [n.tokenId] + TokenIds(Slots(xs), at[1..], index);
      assert ids[1..] == TokenIds(Slots(xs), at[1..], index);
      PathIdsComplete(Slots(xs), at[1..], index);
      TokenIdsFindSelection(Slots(xs), at[1..], index);
    }
  }

  // ---------------------------------------------------------------------
  // collectNodesNeedingChildren (drive-navigation.js:3-35)
  // ---------------------------------------------------------------------

  /**
   * One collected entry: the ids above the node, its id, the key it is loaded
   * under and, standing for the object reference the source keeps, the node's
   * index path.
   */
  datatype Pending = Pending(path: seq<nat>, tokenId: nat, tokenKey: string, at: seq<nat>)

  /** What the call on `node` appends to `result`. */
  function Needing(node: ClientNode, at: seq<nat>, pathSoFar: seq<nat>, depth: int, target: int,
                   loading: set<string>): seq<Pending>
    decreases node, 1
  {
    match node.children
    case Absent => []
    case Present(xs) =>
      if depth == target - 1 then NeedingHere(xs, at, pathSoFar, loading)
      else NeedingBelow(xs, at, pathSoFar, depth, target, loading)
  }

  /** At the parent level: the children without children whose key is not being loaded. */
  function NeedingHere(xs: seq<ClientNode>, at: seq<nat>, pathSoFar: seq<nat>, loading: set<string>): seq<Pending>
    decreases |xs|
  {
    if xs == [] then []
    else
      var j := |xs| - 1;
      var key := PathKey(pathSoFar + [xs[j].tokenId]);
      NeedingHere(xs[..j], at, pathSoFar, loading)
        + if key in loading || xs[j].children.Present? then [] else [Pending(pathSoFar, xs[j].tokenId, key, at + [j])]
  }

  /** Above the parent level: each child's collection, in child order. */
  function NeedingBelow(xs: seq<ClientNode>, at: seq<nat>, pathSoFar: seq<nat>, depth: int, target: int,
                        loading: set<string>): seq<Pending>
    decreases xs, 0
  {
    if xs == [] then []
    else
      var j := |xs| - 1;
      NeedingBelow(xs[..j], at, pathSoFar, depth, target, loading)
        + Needing(xs[j], at + [j], pathSoFar + [xs[j].tokenId], depth + 1, target, loading)
  }

  /** `p` is the entry for child `j`, and that child qualifies: it has no children and its key is not loading. */
  predicate HereEntry(xs: seq<ClientNode>, at: seq<nat>, pathSoFar: seq<nat>, loading: set<string>, j: int, p: Pending) {
    && 0 <= j < |xs| && xs[j].children == Absent
    && PathKey(pathSoFar + [xs[j].tokenId]) !in loading
    && p == Pending(pathSoFar, xs[j].tokenId, PathKey(pathSoFar + [xs[j].tokenId]), at + [j])
  }

  /** At the parent level only children without children and not being loaded are collected. */
  lemma {:induction false} NeedingHereSound(xs: seq<ClientNode>, at: seq<nat>, pathSoFar: seq<nat>,
                                            loading: set<string>, p: Pending)
    requires p in NeedingHere(xs, at, pathSoFar, loading)
    ensures exists j :: HereEntry(xs, at, pathSoFar, loading, j, p)
    decreases |xs|
  {
    var j := |xs| - 1;
    var init := xs[..j];
    if p in NeedingHere(init, at, pathSoFar, loading) {
      NeedingHereSound(init, at, pathSoFar, loading, p);
      var i :| HereEntry(init, at, pathSoFar, loading, i, p);
      assert init[i] == xs[i];
      assert HereEntry(xs, at, pathSoFar, loading, i, p);
    } else {
      assert HereEntry(xs, at, pathSoFar, loading, j, p);
    }
  }

  /** At the parent level every child without children and not being loaded is collected. */
  lemma {:induction false} NeedingHereComplete(xs: seq<ClientNode>, at: seq<nat>, pathSoFar: seq<nat>,
                                               loading: set<string>, j: int, p: Pending)
    requires HereEntry(xs, at, pathSoFar, loading, j, p)
    ensures p in NeedingHere(xs, at, pathSoFar, loading)
    decreases |xs|
  {
    var last := |xs| - 1;
    var init := xs[..last];
    if j < last {
      assert init[j] == xs[j];
      assert HereEntry(init, at, pathSoFar, loading, j, p);
      NeedingHereComplete(init, at, pathSoFar, loading, j, p);
    }
  }

  /** Both directions: the collection at the parent level is exactly the qualifying children. */
  lemma NeedingHereExactly(xs: seq<ClientNode>, at: seq<nat>, pathSoFar: seq<nat>, loading: set<string>, p: Pending)
    ensures p in NeedingHere(xs, at, pathSoFar, loading) <==> exists j :: HereEntry(xs, at, pathSoFar, loading, j, p)
  {
    if p in NeedingHere(xs, at, pathSoFar, loading) {
      NeedingHereSound(xs, at, pathSoFar, loading, p);
    }
    if exists j :: HereEntry(xs, at, pathSoFar, loading, j, p) {
      var j :| HereEntry(xs, at, pathSoFar, loading, j, p);
      NeedingHereComplete(xs, at, pathSoFar, loading, j, p);
    }
  }

  /** What a collected entry says about the node it points to. */
  ghost predicate Locates(node: ClientNode, at: seq<nat>, depth: int, target: int, loading: set<string>, p: Pending) {
    && |at| < |p.at| && p.at[..|at|] == at
    && |p.at| - |at| == target - depth
    && NodeBelow(node, p.at[|at|..]).Some?
    && NodeBelow(node, p.at[|at|..]).value.children == Absent
    && NodeBelow(node, p.at[|at|..]).value.tokenId == p.tokenId
    && p.tokenKey == PathKey(p.path + [p.tokenId])
    && p.tokenKey !in loading
  }

  /**
   * Every collected entry points, by its index path, at a node exactly
   * `target - depth` levels below that has no children, and carries that
   * node's id and the key of its id path, which is not being loaded; a call
   * already at or below the target level collects nothing.
   */
  lemma {:induction false} NeedingLocates(node: ClientNode, at: seq<nat>, pathSoFar: seq<nat>, depth: int, target: int,
                                          loading: set<string>)
    ensures depth >= target ==> Needing(node, at, pathSoFar, depth, target, loading) == []
    ensures forall p :: p in Needing(node, at, pathSoFar, depth, target, loading) ==>
      Locates(node, at, depth, target, loading, p)
    decreases node, 1
  {
    match node.children
    case Absent =>
    case Present(xs) =>
      if depth == target - 1 {
        forall p | p in NeedingHere(xs, at, pathSoFar, loading)
          ensures Locates(node, at, depth, target, loading, p)
        {
          NeedingHereSound(xs, at, pathSoFar, loading, p);
          var j :| HereEntry(xs, at, pathSoFar, loading, j, p);
          assert p.at[|at|..] == [j];
          assert NodeBelow(node, [j]) == NodeBelow(xs[j], []);
        }
      } else {
        NeedingBelowLocates(node, xs, at, pathSoFar, depth, target, loading);
      }
  }

  lemma {:induction false} NeedingBelowLocates(parent: ClientNode, xs: seq<ClientNode>, at: seq<nat>, pathSoFar: seq<nat>,
                                               depth: int, target: int, loading: set<string>)
    requires parent.children.Present? && |xs| <= |parent.children.list| && xs == parent.children.list[..|xs|]
    ensures depth >= target ==> NeedingBelow(xs, at, pathSoFar, depth, target, loading) == []
    ensures forall p :: p in NeedingBelow(xs, at, pathSoFar, depth, target, loading) ==>
      Locates(parent, at, depth, target, loading, p)
    decreases xs, 0
  {
    if xs != [] {
      var j := |xs| - 1;
      var all := parent.children.list;
      assert xs[j] == all[j];
      assert xs[..j] == all[..j];
      NeedingBelowLocates(parent, xs[..j], at, pathSoFar, depth, target, loading);
      NeedingLocates(xs[j], at + [j], pathSoFar + [xs[j].tokenId], depth + 1, target, loading);
      forall p | p in Needing(xs[j], at + [j], pathSoFar + [xs[j].tokenId], depth + 1, target, loading)
        ensures Locates(parent, at, depth, target, loading, p)
      {
        assert Locates(xs[j], at + [j], depth + 1, target, loading, p);
        var rel := p.at[|at| + 1..];
        assert p.at[..|at| + 1] == at + [j];
        assert p.at[|at|..] == [j] + rel;
        assert NodeBelow(parent, [j] + rel) == NodeBelow(all[j], rel);
      }
    }
  }

  /**
   * `collectNodesNeedingChildren(node, pathSoFar, currentDepth, targetDepth, result)`:
   * pushes onto `result` the entries described by `Needing`.
   */
  method CollectNodesNeedingChildren(node: ClientNode, at: seq<nat>, pathSoFar: seq<nat>, currentDepth: int,
                                     targetDepth: int, loading: set<string>, result: seq<Pending>)
    returns (result': seq<Pending>)
    ensures result' == result + Needing(node, at, pathSoFar, currentDepth, targetDepth, loading)
    decreases node
  {
    result' := result;
    if currentDepth == targetDepth - 1 {
      if node.children.Present? {
        var xs := node.children.list;
        var j := 0;
        while j < |xs|
          invariant j <= |xs|
          invariant result' == result + NeedingHere(xs[..j], at, pathSoFar, loading)
        {
          assert xs[..j + 1][..j] == xs[..j];
          var child := xs[j];
          var tokenKey := PathKey(pathSoFar + [child.tokenId]);
          if tokenKey !in loading && child.children.Absent? {
            result' := result' + [Pending(pathSoFar, child.tokenId, tokenKey, at + [j])];
          }
          j := j + 1;
        }
        assert xs[..j] == xs;
      }
      return;
    }
    if node.children.Present? {
      var xs := node.children.list;
      var j := 0;
      while j < |xs|
        invariant j <= |xs|
        invariant result' == result + NeedingBelow(xs[..j], at, pathSoFar, currentDepth, targetDepth, loading)
      {
        assert xs[..j + 1][..j] == xs[..j];
        var child := xs[j];
        result' := CollectNodesNeedingChildren(child, at + [j], pathSoFar + [child.tokenId], currentDepth + 1,
                                               targetDepth, loading, result');
        j := j + 1;
      }
      assert xs[..j] == xs;
    }
  }
}
