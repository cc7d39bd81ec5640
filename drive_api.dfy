/**
 * The loaders of static/js/drive-api.js: how fetched children are merged
 * into the browser's tree, how further root tokens are appended page by
 * page, and which nodes a page's depth loads pick. Each loader runs to
 * completion here: an `await` is the call of a server oracle.
 */
module DriveApi {
  import opened Wrappers
  import opened Text
  import opened DriveState
  import opened DriveTree

  // ---------------------------------------------------------------------
  // The tree only grows
  // ---------------------------------------------------------------------

  /**
   * `b` is `a` with possibly more below it: the same token and
   * probabilities, the children it had kept in place (each grown in turn)
   * and perhaps more appended; a node without children may have gained some.
   */
  predicate Grows(a: ClientNode, b: ClientNode)
    decreases a
  {
    && a.tokenId == b.tokenId && a.tokenStr == b.tokenStr
    && a.probability == b.probability && a.cumulativeProb == b.cumulativeProb
    && KidsGrow(a.children, b.children)
  }

  predicate KidsGrow(a: Kids, b: Kids)
    decreases a
  {
    match a
    case Absent => true
    case Present(xs) =>
      b.Present? && |xs| <= |b.list| && forall j :: 0 <= j < |xs| ==> Grows(xs[j], b.list[j])
  }

  /** Root entries grow: none vanishes, each filled one grows. */
  predicate SlotsGrow(a: seq<Slot>, b: seq<Slot>) {
    |a| <= |b| && forall i :: 0 <= i < |a| && a[i].Some? ==> b[i].Some? && Grows(a[i].value, b[i].value)
  }

  lemma {:induction false} GrowsRefl(a: ClientNode)
    ensures Grows(a, a)
    decreases a
  {
    match a.children
    case Absent =>
    case Present(xs) =>
      forall j | 0 <= j < |xs|
        ensures Grows(xs[j], xs[j])
      {
        GrowsRefl(xs[j]);
      }
  }

  lemma {:induction false} GrowsTrans(a: ClientNode, b: ClientNode, c: ClientNode)
    requires Grows(a, b) && Grows(b, c)
    ensures Grows(a, c)
    decreases a
  {
    match a.children
    case Absent =>
    case Present(xs) =>
      forall j | 0 <= j < |xs|
        ensures Grows(xs[j], c.children.list[j])
      {
        GrowsTrans(xs[j], b.children.list[j], c.children.list[j]);
      }
  }

  lemma SlotsGrowRefl(a: seq<Slot>)
    ensures SlotsGrow(a, a)
  {
    forall i | 0 <= i < |a| && a[i].Some?
      ensures Grows(a[i].value, a[i].value)
    {
      GrowsRefl(a[i].value);
    }
  }

  /** Growth composes, so a sequence of loads grows the tree as each of them does. */
  lemma SlotsGrowTrans(a: seq<Slot>, b: seq<Slot>, c: seq<Slot>)
    requires SlotsGrow(a, b) && SlotsGrow(b, c)
    ensures SlotsGrow(a, c)
  {
    forall i | 0 <= i < |a| && a[i].Some?
      ensures c[i].Some? && Grows(a[i].value, c[i].value)
    {
      GrowsTrans(a[i].value, b[i].value, c[i].value);
    }
  }

  // ---------------------------------------------------------------------
  // Merging fetched children (drive-api.js:196-202, 276-293, 440-446,
  // 520-534, 627-641, 723-737, 795-806)
  // ---------------------------------------------------------------------

  /** The cumulative probability new children are scaled by: the node's own, or its probability when that is 0 and the loader falls back. */
  function Base(n: ClientNode, fallback: bool): real {
    if fallback && n.cumulativeProb == 0.0 then n.probability else n.cumulativeProb
  }

  /** `child.cumulative_prob = base * child.probability` over the fetched list. */
  function Rebased(cs: seq<ClientNode>, base: real): seq<ClientNode> {
    seq(|cs|, i requires 0 <= i < |cs| => cs[i].(cumulativeProb := base * cs[i].probability))
  }

  lemma RebasedAppend(a: seq<ClientNode>, b: seq<ClientNode>, base: real)
    ensures Rebased(a + b, base) == Rebased(a, base) + Rebased(b, base)
  {
    var l, r := Rebased(a + b, base), Rebased(a, base) + Rebased(b, base);
    forall i | 0 <= i < |l|
      ensures l[i] == r[i]
    {
      if i < |a| {
        assert (a + b)[i] == a[i];
      } else {
        assert (a + b)[i] == b[i - |a|];
      }
    }
  }

  /** `new Set(children.map(c => c.token_id))`. */
  function Ids(xs: seq<ClientNode>): set<nat> {
    set c | c in xs :: c.tokenId
  }

  /** The fetched children whose id the existing list lacks, in fetched order. */
  function Fresh(xs: seq<ClientNode>, fetched: seq<ClientNode>): seq<ClientNode>
    decreases |fetched|
  {
    if fetched == [] then []
    else
      var last := fetched[|fetched| - 1];
      Fresh(xs, fetched[..|fetched| - 1]) + if last.tokenId in Ids(xs) then [] else [last]
  }

  /** A node without children takes the fetched list; one with children gets the new ids appended. */
  function Merge(kids: Kids, fetched: seq<ClientNode>, base: real): Kids {
    match kids
    case Absent => Present(Rebased(fetched, base))
    case Present(xs) => Present(xs + Rebased(Fresh(xs, fetched), base))
  }

  lemma {:induction false} FreshExactly(xs: seq<ClientNode>, fetched: seq<ClientNode>, c: ClientNode)
    ensures c in Fresh(xs, fetched) <==> c in fetched && c.tokenId !in Ids(xs)
    decreases |fetched|
  {
    if fetched != [] {
      var init := fetched[..|fetched| - 1];
      FreshExactly(xs, init, c);
      assert fetched == init + [fetched[|fetched| - 1]];
    }
  }

  /** Every fetched child with a new id is appended, scaled by the base. */
  lemma MergeAddsFresh(xs: seq<ClientNode>, fetched: seq<ClientNode>, base: real, c: ClientNode)
    requires c in fetched && c.tokenId !in Ids(xs)
    ensures c.(cumulativeProb := base * c.probability) in Merge(Present(xs), fetched, base).list[|xs|..]
  {
    var r := Merge(Present(xs), fetched, base).list;
    assert r[|xs|..] == Rebased(Fresh(xs, fetched), base);
    FreshExactly(xs, fetched, c);
    var i :| 0 <= i < |Fresh(xs, fetched)| && Fresh(xs, fetched)[i] == c;
    assert r[|xs|..][i] == c.(cumulativeProb := base * c.probability);
  }

  /** Only fetched children with a new id are appended. */
  lemma MergeAddsOnlyFresh(xs: seq<ClientNode>, fetched: seq<ClientNode>, base: real, c': ClientNode)
    requires c' in Merge(Present(xs), fetched, base).list[|xs|..]
    ensures exists c :: c in fetched && c.tokenId !in Ids(xs) && c' == c.(cumulativeProb := base * c.probability)
  {
    var r := Merge(Present(xs), fetched, base).list;
    assert r[|xs|..] == Rebased(Fresh(xs, fetched), base);
    var i :| 0 <= i < |r[|xs|..]| && r[|xs|..][i] == c';
    var c := Fresh(xs, fetched)[i];
    FreshExactly(xs, fetched, c);
  }

  /**
   * The merge keeps the existing children as they were and in their order,
   * appends exactly the fetched children with a new id, each scaled by the
   * base; a node without children takes every fetched child, scaled.
   */
  lemma MergeSpec(kids: Kids, fetched: seq<ClientNode>, base: real)
    ensures Merge(kids, fetched, base).Present?
    ensures kids.Absent? ==> Merge(kids, fetched, base).list == Rebased(fetched, base)
    ensures kids.Present? ==> var r := Merge(kids, fetched, base).list;
      && |kids.list| <= |r| && r[..|kids.list|] == kids.list
      && (forall c :: c in fetched && c.tokenId !in Ids(kids.list) ==>
            c.(cumulativeProb := base * c.probability) in r[|kids.list|..])
      && (forall c' :: c' in r[|kids.list|..] ==>
            (exists c :: c in fetched && c.tokenId !in Ids(kids.list) && c' == c.(cumulativeProb := base * c.probability)))
  {
    if kids.Present? {
      var xs := kids.list;
      forall c | c in fetched && c.tokenId !in Ids(xs)
        ensures c.(cumulativeProb := base * c.probability) in Merge(kids, fetched, base).list[|xs|..]
      {
        MergeAddsFresh(xs, fetched, base, c);
      }
      forall c' | c' in Merge(kids, fetched, base).list[|xs|..]
        ensures exists c :: c in fetched && c.tokenId !in Ids(xs) && c' == c.(cumulativeProb := base * c.probability)
      {
        MergeAddsOnlyFresh(xs, fetched, base, c');
      }
    }
  }

  /** Merging keeps what a node had, so it grows the node's children. */
  lemma MergeGrows(kids: Kids, fetched: seq<ClientNode>, base: real)
    ensures KidsGrow(kids, Merge(kids, fetched, base))
  {
    if kids.Present? {
      var r := Merge(kids, fetched, base).list;
      forall j | 0 <= j < |kids.list|
        ensures Grows(kids.list[j], r[j])
      {
        assert r[j] == kids.list[j];
        GrowsRefl(kids.list[j]);
      }
    }
  }

  /** The merge loop: `existingIds` is taken once, then each fetched child with a new id is pushed. */
  method MergeChildren(kids: Kids, fetched: seq<ClientNode>, base: real) returns (r: Kids)
    ensures r == Merge(kids, fetched, base)
  {
    if kids.Absent? {
      return Present(Rebased(fetched, base));
    }
    var children := kids.list;
    var existingIds := Ids(kids.list);
    var i := 0;
    while i < |fetched|
      invariant i <= |fetched|
      invariant children == kids.list + Rebased(Fresh(kids.list, fetched[..i]), base)
    {
      assert fetched[..i + 1][..i] == fetched[..i];
      var child := fetched[i];
      ghost var added := if child.tokenId in Ids(kids.list) then [] else [child];
      assert Fresh(kids.list, fetched[..i + 1]) == Fresh(kids.list, fetched[..i]) + added;
      RebasedAppend(Fresh(kids.list, fetched[..i]), added, base);
      if child.tokenId !in Ids(kids.list) {
        assert Rebased(added, base)[0] == child.(cumulativeProb := base * child.probability);
      }
      if child.tokenId !in existingIds {
        children := children + [child.(cumulativeProb := base * child.probability)];
      }
      i := i + 1;
    }
    assert fetched[..i] == fetched;
    r := Present(children);
  }

  /** How a loader treats one node: with or without the fallback base, and whether it leaves a node with children alone. */
  datatype Policy = Policy(fallback: bool, adoptOnly: bool)

  /** `loadPageDepths`: merge, base without fallback (drive-api.js:278-293). */
  const PageMerge := Policy(false, false)
  /** `loadMoreChildrenForCurrentNode`, `topUpCurrentLevelChildren` and the depth loaders: merge, fallback base. */
  const TopUpMerge := Policy(true, false)
  /** `preloadDepthLevel`: only nodes without children take the fetched list, fallback base (drive-api.js:196-202). */
  const PreloadAdopt := Policy(true, true)
  /** `loadNextLayer`: only nodes without children take the fetched list, no fallback (drive-api.js:795-806). */
  const LayerAdopt := Policy(false, true)

  /** The children a node ends up with. */
  function Absorbed(n: ClientNode, fetched: seq<ClientNode>, p: Policy): Kids {
    if p.adoptOnly && n.children.Present? then n.children else Merge(n.children, fetched, Base(n, p.fallback))
  }

  // ---------------------------------------------------------------------
  // Updating the node an index path names
  // ---------------------------------------------------------------------

  /** `node.children = kids` for the node `rel` names below `n`. */
  function SetBelow(n: ClientNode, rel: seq<nat>, kids: Kids): ClientNode
    decreases |rel|
  {
    if rel == [] then n.(children := kids)
    else match n.children
      case Absent => n
      case Present(xs) =>
        if rel[0] < |xs| then n.(children := Present(xs[rel[0] := SetBelow(xs[rel[0]], rel[1..], kids)])) else n
  }

  /** `node.children = kids` for the node at index path `at`. */
  function SetAt(roots: seq<Slot>, at: seq<nat>, kids: Kids): seq<Slot> {
    if at == [] || at[0] >= |roots| || roots[at[0]].None? then roots
    else roots[at[0] := Some(SetBelow(roots[at[0]].value, at[1..], kids))]
  }

  lemma {:induction false} SetBelowHits(n: ClientNode, rel: seq<nat>, kids: Kids)
    requires NodeBelow(n, rel).Some?
    ensures NodeBelow(SetBelow(n, rel, kids), rel) == Some(NodeBelow(n, rel).value.(children := kids))
    decreases |rel|
  {
    if rel != [] {
      SetBelowHits(n.children.list[rel[0]], rel[1..], kids);
    }
  }

  lemma {:induction false} SetBelowGrows(n: ClientNode, rel: seq<nat>, kids: Kids)
    requires NodeBelow(n, rel).Some? && KidsGrow(NodeBelow(n, rel).value.children, kids)
    ensures Grows(n, SetBelow(n, rel, kids))
    decreases |rel|
  {
    if rel != [] {
      var xs := n.children.list;
      var r := rel[0];
      var ys := xs[r := SetBelow(xs[r], rel[1..], kids)];
      forall j | 0 <= j < |xs|
        ensures Grows(xs[j], ys[j])
      {
        if j == r {
          SetBelowGrows(xs[r], rel[1..], kids);
        } else {
          GrowsRefl(xs[j]);
        }
      }
    }
  }

  /** Writing back the children a node already has changes nothing. */
  lemma {:induction false} SetBelowSame(n: ClientNode, rel: seq<nat>)
    requires NodeBelow(n, rel).Some?
    ensures SetBelow(n, rel, NodeBelow(n, rel).value.children) == n
    decreases |rel|
  {
    if rel != [] {
      var xs := n.children.list;
      SetBelowSame(xs[rel[0]], rel[1..]);
      assert xs[rel[0] := xs[rel[0]]] == xs;
    }
  }

  /** Setting a node's children keeps every root entry and its token. */
  predicate SameRoots(a: seq<Slot>, b: seq<Slot>) {
    |a| == |b| && forall i :: 0 <= i < |a| ==> a[i].None? == b[i].None? && (a[i].Some? ==> a[i].value.tokenId == b[i].value.tokenId)
  }

  /**
   * What setting the children at `at` does: the node there now has exactly
   * those children, the roots keep their places and tokens, and the tree grows
   * when the new children extend the old ones.
   */
  lemma SetAtSpec(roots: seq<Slot>, at: seq<nat>, kids: Kids)
    requires NodeAt(roots, at).Some?
    ensures NodeAt(SetAt(roots, at, kids), at) == Some(NodeAt(roots, at).value.(children := kids))
    ensures SameRoots(roots, SetAt(roots, at, kids))
    ensures KidsGrow(NodeAt(roots, at).value.children, kids) ==> SlotsGrow(roots, SetAt(roots, at, kids))
  {
    var r := SetAt(roots, at, kids);
    var n := roots[at[0]].value;
    SetBelowHits(n, at[1..], kids);
    if KidsGrow(NodeAt(roots, at).value.children, kids) {
      SetBelowGrows(n, at[1..], kids);
      forall i | 0 <= i < |roots| && roots[i].Some?
        ensures r[i].Some? && Grows(roots[i].value, r[i].value)
      {
        if i != at[0] {
          GrowsRefl(roots[i].value);
        }
      }
    }
    if at[1..] != [] {
      assert SetBelow(n, at[1..], kids).tokenId == n.tokenId;
    }
  }

  /** One collected entry answered: the node it points at absorbs the children the server sent under its key. */
  function ApplyOne(roots: seq<Slot>, e: Pending, m: map<string, seq<ClientNode>>, p: Policy): seq<Slot> {
    if e.tokenKey in m && NodeAt(roots, e.at).Some? then SetAt(roots, e.at, Absorbed(NodeAt(roots, e.at).value, m[e.tokenKey], p))
    else roots
  }

  /** The merge loop over all collected entries, in order. */
  function ApplyAll(roots: seq<Slot>, es: seq<Pending>, m: map<string, seq<ClientNode>>, p: Policy): seq<Slot>
    decreases |es|
  {
    if es == [] then roots else ApplyOne(ApplyAll(roots, es[..|es| - 1], m, p), es[|es| - 1], m, p)
  }

  /**
   * Each answered entry only adds: the tree grows and the root entries keep
   * their places. When the loader leaves nodes with children alone, a node
   * that already has children is not touched at all.
   */
  lemma ApplyOneSpec(roots: seq<Slot>, e: Pending, m: map<string, seq<ClientNode>>, p: Policy)
    ensures SlotsGrow(roots, ApplyOne(roots, e, m, p)) && SameRoots(roots, ApplyOne(roots, e, m, p))
    ensures p.adoptOnly && NodeAt(roots, e.at).Some? && NodeAt(roots, e.at).value.children.Present? ==>
      ApplyOne(roots, e, m, p) == roots
  {
    var r := ApplyOne(roots, e, m, p);
    if e.tokenKey in m && NodeAt(roots, e.at).Some? {
      var n := NodeAt(roots, e.at).value;
      var kids := Absorbed(n, m[e.tokenKey], p);
      if kids == n.children {
        GrowsRefl(n);
        assert KidsGrow(n.children, kids) by {
          assert Grows(n, n);
        }
      } else {
        MergeGrows(n.children, m[e.tokenKey], Base(n, p.fallback));
      }
      SetAtSpec(roots, e.at, kids);
      if p.adoptOnly && n.children.Present? {
        SetBelowSame(roots[e.at[0]].value, e.at[1..]);
        assert roots[e.at[0] := roots[e.at[0]]] == roots;
      }
    } else {
      SlotsGrowRefl(roots);
    }
  }

  lemma {:induction false} ApplyAllGrows(roots: seq<Slot>, es: seq<Pending>, m: map<string, seq<ClientNode>>, p: Policy)
    ensures SlotsGrow(roots, ApplyAll(roots, es, m, p)) && SameRoots(roots, ApplyAll(roots, es, m, p))
    decreases |es|
  {
    if es == [] {
      SlotsGrowRefl(roots);
    } else {
      var mid := ApplyAll(roots, es[..|es| - 1], m, p);
      ApplyAllGrows(roots, es[..|es| - 1], m, p);
      ApplyOneSpec(mid, es[|es| - 1], m, p);
      SlotsGrowTrans(roots, mid, ApplyAll(roots, es, m, p));
    }
  }

  /** The merge loop of a loader over its collected entries. */
  method ApplyChildren(d: Drive, es: seq<Pending>, m: map<string, seq<ClientNode>>, p: Policy)
    modifies d`roots
    ensures d.roots == ApplyAll(old(d.roots), es, m, p)
  {
    var i := 0;
    while i < |es|
      invariant i <= |es|
      invariant d.roots == ApplyAll(old(d.roots), es[..i], m, p)
    {
      assert es[..i + 1][..i] == es[..i];
      var e := es[i];
      assert es[..i + 1][i] == e;
      var node := NodeAt(d.roots, e.at);
      ApplyOneSpec(d.roots, e, m, p);
      if e.tokenKey in m && node.Some? && !(p.adoptOnly && node.value.children.Present?) {
        var kids := MergeChildren(node.value.children, m[e.tokenKey], Base(node.value, p.fallback));
        d.roots := SetAt(d.roots, e.at, kids);
      }
      i := i + 1;
    }
    assert es[..i] == es;
  }

  /** The request entries of a batch: `nodes.map(n => ({ path: n.path, token_id: n.token_id }))`. */
  function Requests(es: seq<Pending>): (r: seq<NodeRequest>)
    ensures |r| == |es| && forall i :: 0 <= i < |es| ==> r[i] == NodeRequest(es[i].path, es[i].tokenId)
  {
    seq(|es|, i requires 0 <= i < |es| => NodeRequest(es[i].path, es[i].tokenId))
  }

  /** The loading keys of a batch. */
  function Keys(es: seq<Pending>): set<string> {
    set e | e in es :: e.tokenKey
  }

  // ---------------------------------------------------------------------
  // Appending root tokens (drive-api.js:94-135, 312-376)
  // ---------------------------------------------------------------------

  /** `for (i = from; i < fetched.length; i++) treeData.children[i] = fetched[i]`. */
  function Overlay(roots: seq<Slot>, fetched: seq<ClientNode>, from: nat): (r: seq<Slot>)
    ensures from < |fetched| ==> |r| == if |roots| < |fetched| then |fetched| else |roots|
    ensures from >= |fetched| ==> r == roots
    ensures forall i :: 0 <= i < |roots| && (i < from || i >= |fetched|) ==> r[i] == roots[i]
    ensures forall i :: from <= i < |fetched| ==> r[i] == Some(fetched[i])
    ensures forall i :: |roots| <= i < |r| && i < from ==> r[i] == None
  {
    if from >= |fetched| then roots
    else seq(if |roots| < |fetched| then |fetched| else |roots|,
             i requires 0 <= i < (if |roots| < |fetched| then |fetched| else |roots|) =>
               if from <= i < |fetched| then Some(fetched[i]) else if i < |roots| then roots[i] else None)
  }

  /** When nothing is loaded at or past `from`, writing from there on only adds entries. */
  lemma OverlayGrows(roots: seq<Slot>, fetched: seq<ClientNode>, from: nat)
    requires |roots| <= from
    ensures SlotsGrow(roots, Overlay(roots, fetched, from))
  {
    var r := Overlay(roots, fetched, from);
    forall i | 0 <= i < |roots| && roots[i].Some?
      ensures r[i].Some? && Grows(roots[i].value, r[i].value)
    {
      GrowsRefl(roots[i].value);
    }
  }

  /** The write loop of the two root loaders. */
  method WriteFrom(d: Drive, fetched: seq<ClientNode>, from: nat)
    modifies d`roots
    ensures d.roots == Overlay(old(d.roots), fetched, from)
  {
    if from >= |fetched| {
      return;
    }
    var i := from;
    while i < |fetched|
      invariant from <= i <= |fetched|
      invariant d.roots == Overlay(old(d.roots), fetched[..i], from)
    {
      d.roots := WriteAt(d.roots, i, fetched[i]);
      assert d.roots == Overlay(old(d.roots), fetched[..i + 1], from);
      i := i + 1;
    }
    assert fetched[..i] == fetched;
  }

  function Max(a: nat, b: nat): nat {
    if a < b then b else a
  }

  // ---------------------------------------------------------------------
  // What a loader leaves behind
  // ---------------------------------------------------------------------

  /** The fields of the explorer the loaders write. */
  datatype Loads = Loads(roots: seq<Slot>, totalK: nat, loadedPages: set<nat>, loadedPageDepths: set<nat>,
                         loadingTokenChildren: set<string>)

  function LoadsOf(d: Drive): Loads
    reads d
  {
    Loads(d.roots, d.totalK, d.loadedPages, d.loadedPageDepths, d.loadingTokenChildren)
  }

  /** What the loaders read and leave as they found it: the two prompts, `initialK` and the pages whose depth load is under way. */
  datatype LoadEnv = LoadEnv(originalPrompt: string, prompt: string, initialK: nat, loadingPages: set<nat>)

  function EnvOf(d: Drive): LoadEnv
    reads d
  {
    LoadEnv(d.originalPrompt, d.prompt, d.initialK, d.loadingPageDepths)
  }

  /**
   * Loading only adds: the tree grows, `totalK` and the sets of loaded pages
   * never shrink, and no key is left marked loading that was not marked before.
   */
  predicate LoadsGrow(a: Loads, b: Loads) {
    && SlotsGrow(a.roots, b.roots) && a.totalK <= b.totalK
    && a.loadedPages <= b.loadedPages && a.loadedPageDepths <= b.loadedPageDepths
    && b.loadingTokenChildren <= a.loadingTokenChildren
  }

  lemma LoadsGrowRefl(a: Loads)
    ensures LoadsGrow(a, a)
  {
    SlotsGrowRefl(a.roots);
  }

  lemma LoadsGrowTrans(a: Loads, b: Loads, c: Loads)
    requires LoadsGrow(a, b) && LoadsGrow(b, c)
    ensures LoadsGrow(a, c)
  {
    SlotsGrowTrans(a.roots, b.roots, c.roots);
  }

  /** `loadSecondPageTokens` once the server has given `answer`, its chained `preloadPageFullDepth(1)` included. */
  function SecondPageLoads(env: LoadEnv, answer: Option<seq<ClientNode>>, expands: ExpandServer, s: Loads): Loads {
    if answer.None? then s else FullDepthLoads(env, expands, 1, SecondPageWritten(env, answer.value, s))
  }

  /** The state once the fetched tokens are written and page 1 is marked, before the chained preload. */
  function SecondPageWritten(env: LoadEnv, fetched: seq<ClientNode>, s: Loads): Loads {
    s.(roots := Overlay(s.roots, fetched, env.initialK + 1), totalK := Max(s.totalK, |fetched|),
       loadedPages := s.loadedPages + {1})
  }

  /**
   * Without an answer nothing changes. With one, the fetched tokens from
   * `initialK+1` on are in place (and have only grown since), `totalK`
   * becomes the larger of itself and the fetched count, and page 1 is marked.
   */
  lemma SecondPageLoadsSpec(env: LoadEnv, answer: Option<seq<ClientNode>>, expands: ExpandServer, s: Loads)
    ensures var r := SecondPageLoads(env, answer, expands, s);
      && (answer.None? ==> r == s)
      && (answer.Some? ==>
            && SlotsGrow(Overlay(s.roots, answer.value, env.initialK + 1), r.roots)
            && r.totalK == Max(s.totalK, |answer.value|) && r.loadedPages == s.loadedPages + {1})
  {
    if answer.Some? {
      FullDepthGrows(env, expands, 1, SecondPageWritten(env, answer.value, s));
    }
  }

  /**
   * While page 1 holds no entry yet, the second page's load only adds, and
   * it never marks a page loaded other than page 1, for tokens or for depth.
   */
  lemma SecondPageLoadsGrow(env: LoadEnv, answer: Option<seq<ClientNode>>, expands: ExpandServer, s: Loads)
    requires |s.roots| <= env.initialK + 1
    ensures var r := SecondPageLoads(env, answer, expands, s);
      && LoadsGrow(s, r)
      && r.loadedPages <= s.loadedPages + {1} && r.loadedPageDepths <= s.loadedPageDepths + {1}
  {
    if answer.None? {
      LoadsGrowRefl(s);
    } else {
      var s1 := SecondPageWritten(env, answer.value, s);
      OverlayGrows(s.roots, answer.value, env.initialK + 1);
      assert LoadsGrow(s, s1);
      FullDepthGrows(env, expands, 1, s1);
      LoadsGrowTrans(s, s1, FullDepthLoads(env, expands, 1, s1));
    }
  }

  /**
   * `loadSecondPageTokens`: fetch `2k+1` first-layer tokens; on success the
   * entries from `initialK+1` on are replaced by the fetched ones, `totalK`
   * becomes at least the number fetched, and page 1 is marked loaded.
   */
  method LoadSecondPageTokens(d: Drive, trees: TreeServer, expands: ExpandServer) returns (call: TreeCall)
    requires d.Valid()
    modifies d`roots, d`totalK, d`loadedPages, d`loadedPageDepths, d`loadingPageDepths, d`loadingTokenChildren
    ensures d.Valid() && d.loadingPageDepths == old(d.loadingPageDepths)
    ensures call == TreeCall(d.originalPrompt, 2 * d.initialK + 1, 1)
    ensures LoadsOf(d) == SecondPageLoads(old(EnvOf(d)), trees(call), expands, old(LoadsOf(d)))
  {
    call := TreeCall(d.originalPrompt, 2 * d.initialK + 1, 1);
    var answer := trees(call);
    if answer.Some? {
      AdoptSecondPage(d, expands, answer.value);
    }
  }

  /** The `response.ok` branch of `loadSecondPageTokens`: write the tokens, count them, mark page 1, preload its depth. */
  method AdoptSecondPage(d: Drive, expands: ExpandServer, fetched: seq<ClientNode>)
    requires d.Valid()
    modifies d`roots, d`totalK, d`loadedPages, d`loadedPageDepths, d`loadingPageDepths, d`loadingTokenChildren
    ensures d.Valid() && d.loadingPageDepths == old(d.loadingPageDepths)
    ensures LoadsOf(d) == FullDepthLoads(old(EnvOf(d)), expands, 1, SecondPageWritten(old(EnvOf(d)), fetched, old(LoadsOf(d))))
  {
    ghost var env, s0 := EnvOf(d), LoadsOf(d);
    WriteFrom(d, fetched, d.initialK + 1);
    d.totalK := Max(d.totalK, |fetched|);
    d.loadedPages := d.loadedPages + {1};
    assert EnvOf(d) == env && LoadsOf(d) == SecondPageWritten(env, fetched, s0);
    PreloadPageFullDepth(d, expands, 1);
  }

  /** `loadNextPage(pageNum)`. */
  function NextPageLoads(env: LoadEnv, trees: TreeServer, pageNum: nat, s: Loads): Loads {
    var newTotalK := (pageNum + 1) * env.initialK + 1;
    if newTotalK <= s.totalK then s
    else match trees(TreeCall(env.originalPrompt, newTotalK, 1))
      case None => s
      case Some(fetched) => s.(roots := Overlay(s.roots, fetched, s.totalK), totalK := Max(s.totalK, |fetched|))
  }

  /** With no entry loaded at or past `totalK`, a page load only adds, and it keeps every entry within bounds. */
  lemma NextPageLoadsGrow(env: LoadEnv, trees: TreeServer, pageNum: nat, s: Loads)
    requires |s.roots| <= s.totalK
    ensures var r := NextPageLoads(env, trees, pageNum, s);
      LoadsGrow(s, r) && |r.roots| <= r.totalK && r.loadedPages == s.loadedPages
  {
    var newTotalK := (pageNum + 1) * env.initialK + 1;
    if newTotalK <= s.totalK {
      LoadsGrowRefl(s);
    } else {
      match trees(TreeCall(env.originalPrompt, newTotalK, 1))
      case None => LoadsGrowRefl(s);
      case Some(fetched) => OverlayGrows(s.roots, fetched, s.totalK);
    }
  }

  /**
   * `loadNextPage(pageNum)`: aim for `(pageNum+1)*initialK+1` root tokens;
   * nothing happens when that many are already counted. Otherwise the
   * entries from the old `totalK` on are the fetched ones and `totalK`
   * becomes the larger of the two counts.
   */
  method LoadNextPage(d: Drive, server: TreeServer, pageNum: nat) returns (call: Option<TreeCall>)
    requires d.Valid()
    modifies d`roots, d`totalK
    ensures d.Valid() && SlotsGrow(old(d.roots), d.roots) && d.totalK >= old(d.totalK)
    ensures var newTotalK := (pageNum + 1) * d.initialK + 1;
      && (newTotalK <= old(d.totalK) ==> call == None && d.roots == old(d.roots) && d.totalK == old(d.totalK))
      && (newTotalK > old(d.totalK) ==> call == Some(TreeCall(d.originalPrompt, newTotalK, 1)))
    ensures call.Some? && server(call.value).Some? ==>
      d.roots == Overlay(old(d.roots), server(call.value).value, old(d.totalK))
      && d.totalK == Max(old(d.totalK), |server(call.value).value|)
    ensures call.Some? && server(call.value).None? ==> d.roots == old(d.roots) && d.totalK == old(d.totalK)
    ensures LoadsOf(d) == NextPageLoads(old(EnvOf(d)), server, pageNum, old(LoadsOf(d)))
  {
    var newTotalK := (pageNum + 1) * d.initialK + 1;
    SlotsGrowRefl(d.roots);
    if newTotalK <= d.totalK {
      return None;
    }
    call := Some(TreeCall(d.originalPrompt, newTotalK, 1));
    var answer := server(call.value);
    if answer.Some? {
      NextPageMonotone(d.roots, d.totalK, answer.value);
      WriteFrom(d, answer.value, d.totalK);
      d.totalK := Max(d.totalK, |answer.value|);
    }
  }

  /**
   * `totalK` never decreases, the entries below the old `totalK` are left as
   * they were, and when no entry was loaded at or past it the tree grows.
   */
  lemma NextPageMonotone(roots: seq<Slot>, totalK: nat, fetched: seq<ClientNode>)
    ensures Max(totalK, |fetched|) >= totalK
    ensures forall i :: 0 <= i < |roots| && i < totalK ==> Overlay(roots, fetched, totalK)[i] == roots[i]
    ensures |roots| <= totalK ==> SlotsGrow(roots, Overlay(roots, fetched, totalK))
  {
    if |roots| <= totalK {
      OverlayGrows(roots, fetched, totalK);
    }
  }

  // ---------------------------------------------------------------------
  // A page's depth loads (drive-api.js:138-310)
  // ---------------------------------------------------------------------

  /** The first index of page `p`, and one past its last loaded index. */
  function PageStart(p: nat, initialK: nat): nat {
    p * initialK
  }

  function PageEnd(p: nat, initialK: nat, totalK: nat): nat {
    if p * initialK + initialK < totalK then p * initialK + initialK else totalK
  }

  /** A root entry `loadPageDepths` asks for: filled, its key not loading, fewer than `limit` children. */
  predicate RootNeedsDepth(roots: seq<Slot>, i: nat, loading: set<string>, limit: nat) {
    && i < |roots| && roots[i].Some?
    && PathKey([roots[i].value.tokenId]) !in loading
    && !(roots[i].value.children.Present? && |roots[i].value.children.list| >= limit)
  }

  /** The entry for root `i`: an empty id path above it and its id alone as the key. */
  function RootEntry(roots: seq<Slot>, i: nat): Pending
    requires i < |roots| && roots[i].Some?
  {
    Pending([], roots[i].value.tokenId, PathKey([roots[i].value.tokenId]), [i])
  }

  /** The nodes `loadPageDepths` collects from the indices `[lo, hi)`. */
  function PageTargets(roots: seq<Slot>, lo: nat, hi: nat, loading: set<string>, limit: nat): seq<Pending>
    decreases hi
  {
    if hi <= lo then []
    else
      PageTargets(roots, lo, hi - 1, loading, limit)
        + if RootNeedsDepth(roots, hi - 1, loading, limit) then [RootEntry(roots, hi - 1)] else []
  }

  /** Exactly the qualifying roots of the range are collected. */
  lemma {:induction false} PageTargetsExactly(roots: seq<Slot>, lo: nat, hi: nat, loading: set<string>, limit: nat, e: Pending)
    ensures e in PageTargets(roots, lo, hi, loading, limit) <==>
      exists i :: lo <= i < hi && RootNeedsDepth(roots, i, loading, limit) && e == RootEntry(roots, i)
    decreases hi
  {
    if hi > lo {
      PageTargetsExactly(roots, lo, hi - 1, loading, limit, e);
    }
  }

  /** The collection loop of `loadPageDepths` (drive-api.js:229-245). */
  method CollectPage(d: Drive, lo: nat, hi: nat) returns (es: seq<Pending>)
    ensures es == PageTargets(d.roots, lo, hi, d.loadingTokenChildren, d.initialK + 1)
  {
    es := [];
    if hi <= lo {
      return;
    }
    var i := lo;
    while i < hi && i < |d.roots|
      invariant lo <= i <= hi
      invariant es == PageTargets(d.roots, lo, i, d.loadingTokenChildren, d.initialK + 1)
    {
      if d.roots[i].Some? {
        var node := d.roots[i].value;
        var tokenKey := NatToString(node.tokenId);
        assert tokenKey == PathKey([node.tokenId]);
        if tokenKey !in d.loadingTokenChildren && !(node.children.Present? && |node.children.list| >= d.initialK + 1) {
          es := es + [Pending([], node.tokenId, tokenKey, [i])];
        }
      }
      i := i + 1;
    }
    while i < hi
      invariant lo <= i <= hi
      invariant es == PageTargets(d.roots, lo, i, d.loadingTokenChildren, d.initialK + 1)
    {
      i := i + 1;
    }
  }

  /** The keys the `finally` block clears: those of every filled root entry of the range. */
  function PageKeys(roots: seq<Slot>, lo: nat, hi: nat): set<string> {
    set i | lo <= i < hi && i < |roots| && roots[i].Some? :: PathKey([roots[i].value.tokenId])
  }

  /** Every key a page load marks is among those its `finally` block clears. */
  lemma PageTargetKeys(roots: seq<Slot>, lo: nat, hi: nat, loading: set<string>, limit: nat)
    ensures Keys(PageTargets(roots, lo, hi, loading, limit)) <= PageKeys(roots, lo, hi)
  {
    forall e | e in PageTargets(roots, lo, hi, loading, limit)
      ensures e.tokenKey in PageKeys(roots, lo, hi)
    {
      PageTargetsExactly(roots, lo, hi, loading, limit, e);
    }
  }

  lemma PageKeysSame(a: seq<Slot>, b: seq<Slot>, lo: nat, hi: nat)
    requires SameRoots(a, b)
    ensures PageKeys(a, lo, hi) == PageKeys(b, lo, hi)
  {
    forall key | key in PageKeys(a, lo, hi)
      ensures key in PageKeys(b, lo, hi)
    {
      var i :| lo <= i < hi && i < |a| && a[i].Some? && key == PathKey([a[i].value.tokenId]);
      assert key == PathKey([b[i].value.tokenId]);
    }
    forall key | key in PageKeys(b, lo, hi)
      ensures key in PageKeys(a, lo, hi)
    {
      var i :| lo <= i < hi && i < |b| && b[i].Some? && key == PathKey([b[i].value.tokenId]);
      assert key == PathKey([a[i].value.tokenId]);
    }
  }

  /** `loadPageDepths(pageNum)`. */
  function PageDepthsLoads(env: LoadEnv, expands: ExpandServer, pageNum: nat, s: Loads): Loads {
    if pageNum in s.loadedPageDepths || pageNum in env.loadingPages then s
    else PageDepthsRun(env.prompt, env.initialK, expands, pageNum, s)
  }

  /** `loadPageDepths(pageNum)` past its skip test. */
  function PageDepthsRun(prompt: string, initialK: nat, expands: ExpandServer, pageNum: nat, s: Loads): Loads {
    var lo, hi := PageStart(pageNum, initialK), PageEnd(pageNum, initialK, s.totalK);
    var es := PageTargets(s.roots, lo, hi, s.loadingTokenChildren, initialK + 1);
    var answer := expands(ExpandCall(prompt, Requests(es), initialK + 1));
    s.(roots := if es != [] && answer.Some? then ApplyAll(s.roots, es, answer.value, PageMerge) else s.roots,
       loadedPageDepths := if es == [] || answer.Some? then s.loadedPageDepths + {pageNum} else s.loadedPageDepths,
       loadingTokenChildren := s.loadingTokenChildren - PageKeys(s.roots, lo, hi))
  }

  /** A page's depth load only adds, keeps the root entries, and marks no page other than its own. */
  lemma PageDepthsLoadsGrow(env: LoadEnv, expands: ExpandServer, pageNum: nat, s: Loads)
    ensures var r := PageDepthsLoads(env, expands, pageNum, s);
      && LoadsGrow(s, r) && SameRoots(s.roots, r.roots)
      && r.loadedPageDepths <= s.loadedPageDepths + {pageNum}
      && r.totalK == s.totalK && r.loadedPages == s.loadedPages
  {
    var r := PageDepthsLoads(env, expands, pageNum, s);
    if pageNum in s.loadedPageDepths || pageNum in env.loadingPages {
      LoadsGrowRefl(s);
      assert SameRoots(s.roots, r.roots);
    } else {
      var lo, hi := PageStart(pageNum, env.initialK), PageEnd(pageNum, env.initialK, s.totalK);
      var es := PageTargets(s.roots, lo, hi, s.loadingTokenChildren, env.initialK + 1);
      var answer := expands(ExpandCall(env.prompt, Requests(es), env.initialK + 1));
      if es != [] && answer.Some? {
        ApplyAllGrows(s.roots, es, answer.value, PageMerge);
      } else {
        SlotsGrowRefl(s.roots);
        assert SameRoots(s.roots, r.roots);
      }
    }
  }

  /**
   * `loadPageDepths(pageNum)`: nothing when the page is loaded or loading.
   * Otherwise the page's qualifying roots are asked for `initialK+1`
   * children; an answer merges them in and marks the page loaded (as does
   * finding nothing to ask for); the keys of all the page's roots stop
   * being marked loading.
   */
  method LoadPageDepths(d: Drive, server: ExpandServer, pageNum: nat) returns (call: Option<ExpandCall>)
    modifies d`roots, d`loadedPageDepths, d`loadingPageDepths, d`loadingTokenChildren
    ensures old(pageNum in d.loadedPageDepths || pageNum in d.loadingPageDepths) ==>
      call == None && d.roots == old(d.roots) && d.loadedPageDepths == old(d.loadedPageDepths)
      && d.loadingPageDepths == old(d.loadingPageDepths) && d.loadingTokenChildren == old(d.loadingTokenChildren)
    ensures !old(pageNum in d.loadedPageDepths || pageNum in d.loadingPageDepths) ==>
      var lo, hi := PageStart(pageNum, d.initialK), PageEnd(pageNum, d.initialK, d.totalK);
      var es := PageTargets(old(d.roots), lo, hi, old(d.loadingTokenChildren), d.initialK + 1);
      var request := ExpandCall(d.prompt, Requests(es), d.initialK + 1);
      && (es == [] ==> call == None && d.roots == old(d.roots) && d.loadedPageDepths == old(d.loadedPageDepths) + {pageNum})
      && (es != [] && server(request).None? ==>
            call == Some(request) && d.roots == old(d.roots) && d.loadedPageDepths == old(d.loadedPageDepths))
      && (es != [] && server(request).Some? ==>
            && call == Some(request) && d.roots == ApplyAll(old(d.roots), es, server(request).value, PageMerge)
            && d.loadedPageDepths == old(d.loadedPageDepths) + {pageNum})
      && d.loadingPageDepths == old(d.loadingPageDepths)
      && d.loadingTokenChildren == old(d.loadingTokenChildren) - PageKeys(old(d.roots), lo, hi)
    ensures SlotsGrow(old(d.roots), d.roots) && |d.roots| == |old(d.roots)|
    ensures LoadsOf(d) == PageDepthsLoads(old(EnvOf(d)), server, pageNum, old(LoadsOf(d)))
  {
    if pageNum in d.loadedPageDepths || pageNum in d.loadingPageDepths {
      SlotsGrowRefl(d.roots);
      return None;
    }
    d.loadingPageDepths := d.loadingPageDepths + {pageNum};
    call := PageDepthsTry(d, server, pageNum, PageStart(pageNum, d.initialK), PageEnd(pageNum, d.initialK, d.totalK));
    assert LoadsOf(d) == PageDepthsRun(d.prompt, d.initialK, server, pageNum, old(LoadsOf(d)));
    // finally
    d.loadingPageDepths := d.loadingPageDepths - {pageNum};
  }

  /** `startGame`'s two loads: the second page (with its chained preload), then page 0's depth. */
  function StartLoads(env: LoadEnv, trees: TreeServer, expands: ExpandServer, s: Loads): Loads {
    var answer := trees(TreeCall(env.originalPrompt, 2 * env.initialK + 1, 1));
    PageDepthsLoads(env, expands, 0, SecondPageLoads(env, answer, expands, s))
  }

  /**
   * From a tree of at most `k+1` root entries, starting the game only adds,
   * and it marks no pages loaded but pages 0 and 1.
   */
  lemma StartLoadsGrow(env: LoadEnv, trees: TreeServer, expands: ExpandServer, s: Loads)
    requires |s.roots| <= env.initialK + 1
    ensures var r := StartLoads(env, trees, expands, s);
      && LoadsGrow(s, r)
      && r.loadedPages <= s.loadedPages + {1} && r.loadedPageDepths <= s.loadedPageDepths + {0, 1}
  {
    var answer := trees(TreeCall(env.originalPrompt, 2 * env.initialK + 1, 1));
    var s1 := SecondPageLoads(env, answer, expands, s);
    SecondPageLoadsGrow(env, answer, expands, s);
    PageDepthsLoadsGrow(env, expands, 0, s1);
    LoadsGrowTrans(s, s1, StartLoads(env, trees, expands, s));
  }

  /**
   * `startGame` (drive-api.js:60-92): the explorer is reset around the
   * fetched roots, then the second page's tokens and page 0's depth are
   * loaded, in the order the source starts them.
   */
  method StartGame(originalPrompt: string, prompt: string, roots: seq<ClientNode>, k: nat,
                   trees: TreeServer, expands: ExpandServer) returns (d: Drive)
    requires k >= 1 && |roots| <= k + 1
    ensures fresh(d) && d.Valid()
    ensures d.originalPrompt == originalPrompt && d.prompt == prompt && d.initialK == k
    ensures d.currentPath == [] && d.currentIndex == 0 && d.currentPage == 0 && d.loadingPageDepths == {}
    ensures LoadsOf(d) == StartLoads(LoadEnv(originalPrompt, prompt, k, {}), trees, expands, Loads(Slots(roots), k + 1, {0}, {}, {}))
  {
    d := new Drive(originalPrompt, prompt, roots, k);
    StartLoading(d, trees, expands, LoadEnv(originalPrompt, prompt, k, {}), Loads(Slots(roots), k + 1, {0}, {}, {}));
  }

  /** The loads `startGame` starts (drive-api.js:88-91): the second page's tokens, then page 0's depth. */
  method StartLoading(d: Drive, trees: TreeServer, expands: ExpandServer, ghost env: LoadEnv, ghost s0: Loads)
    requires d.Valid() && EnvOf(d) == env && LoadsOf(d) == s0
    modifies d`roots, d`totalK, d`loadedPages, d`loadedPageDepths, d`loadingPageDepths, d`loadingTokenChildren
    ensures d.Valid() && d.loadingPageDepths == old(d.loadingPageDepths)
    ensures LoadsOf(d) == StartLoads(env, trees, expands, s0)
  {
    var call := LoadSecondPageTokens(d, trees, expands);
    ghost var s1 := LoadsOf(d);
    assert EnvOf(d) == env;
    var _ := LoadPageDepths(d, expands, 0);
    assert LoadsOf(d) == PageDepthsLoads(env, expands, 0, s1);
    assert call == TreeCall(env.originalPrompt, 2 * env.initialK + 1, 1);
  }

  /** The body of `loadPageDepths` past its skip test, with the `finally` block's clearing of the page's keys. */
  method PageDepthsTry(d: Drive, server: ExpandServer, pageNum: nat, lo: nat, hi: nat) returns (call: Option<ExpandCall>)
    modifies d`roots, d`loadedPageDepths, d`loadingTokenChildren
    ensures var es := PageTargets(old(d.roots), lo, hi, old(d.loadingTokenChildren), d.initialK + 1);
      var request := ExpandCall(d.prompt, Requests(es), d.initialK + 1);
      && (es == [] ==> call == None && d.roots == old(d.roots) && d.loadedPageDepths == old(d.loadedPageDepths) + {pageNum})
      && (es != [] && server(request).None? ==>
            call == Some(request) && d.roots == old(d.roots) && d.loadedPageDepths == old(d.loadedPageDepths))
      && (es != [] && server(request).Some? ==>
            && call == Some(request) && d.roots == ApplyAll(old(d.roots), es, server(request).value, PageMerge)
            && d.loadedPageDepths == old(d.loadedPageDepths) + {pageNum})
      && d.loadingTokenChildren == old(d.loadingTokenChildren) - PageKeys(old(d.roots), lo, hi)
    ensures SlotsGrow(old(d.roots), d.roots) && |d.roots| == |old(d.roots)|
  {
    ghost var roots0, loading0 := d.roots, d.loadingTokenChildren;
    var es := CollectPage(d, lo, hi);
    ghost var keys := PageKeys(roots0, lo, hi);
    if es == [] {
      call := None;
      SlotsGrowRefl(d.roots);
      d.loadedPageDepths := d.loadedPageDepths + {pageNum};
    } else {
      var request := RequestRoots(d, server, es, pageNum, lo, hi);
      call := Some(request);
      PageTargetKeys(roots0, lo, hi, loading0, d.initialK + 1);
      SetAbsorb(loading0, Keys(es), keys);
    }
    d.loadingTokenChildren := d.loadingTokenChildren - PageKeys(d.roots, lo, hi);
  }

  lemma SetAbsorb(l: set<string>, k: set<string>, p: set<string>)
    requires k <= p
    ensures l + k - p == l - p
  {
  }

  /** The `try` part of `loadPageDepths` once there is something to ask for (drive-api.js:254-300). */
  method RequestRoots(d: Drive, server: ExpandServer, es: seq<Pending>, pageNum: nat, lo: nat, hi: nat) returns (call: ExpandCall)
    modifies d`roots, d`loadedPageDepths, d`loadingTokenChildren
    ensures call == ExpandCall(d.prompt, Requests(es), d.initialK + 1)
    ensures d.roots == (if server(call).Some? then ApplyAll(old(d.roots), es, server(call).value, PageMerge) else old(d.roots))
    ensures d.loadedPageDepths == old(d.loadedPageDepths) + (if server(call).Some? then {pageNum} else {})
    ensures d.loadingTokenChildren == old(d.loadingTokenChildren) + Keys(es)
    ensures SlotsGrow(old(d.roots), d.roots) && PageKeys(d.roots, lo, hi) == PageKeys(old(d.roots), lo, hi)
    ensures |d.roots| == |old(d.roots)|
  {
    d.loadingTokenChildren := d.loadingTokenChildren + Keys(es);
    call := ExpandCall(d.prompt, Requests(es), d.initialK + 1);
    var answer := server(call);
    if answer.Some? {
      ApplyAllGrows(d.roots, es, answer.value, PageMerge);
      PageKeysSame(d.roots, ApplyAll(d.roots, es, answer.value, PageMerge), lo, hi);
      ApplyChildren(d, es, answer.value, PageMerge);
      d.loadedPageDepths := d.loadedPageDepths + {pageNum};
    } else {
      SlotsGrowRefl(d.roots);
    }
  }

  /** The nodes `preloadDepthLevel` collects: for each filled root of `[lo, hi)`, those one level below `target - 1`. */
  function LevelTargets(roots: seq<Slot>, lo: nat, hi: nat, target: int, loading: set<string>): seq<Pending>
    decreases hi
  {
    if hi <= lo then []
    else
      LevelTargets(roots, lo, hi - 1, target, loading)
        + if hi - 1 < |roots| && roots[hi - 1].Some?
          then Needing(roots[hi - 1].value, [hi - 1], [roots[hi - 1].value.tokenId], 1, target, loading)
          else []
  }

  /**
   * Every entry `preloadDepthLevel` collects points at a node at depth
   * `target` below a root of the range that has no children yet, and its key
   * is not loading.
   */
  lemma {:induction false} LevelTargetsLocate(roots: seq<Slot>, lo: nat, hi: nat, target: int, loading: set<string>, e: Pending)
    requires e in LevelTargets(roots, lo, hi, target, loading)
    ensures e.tokenKey !in loading && e.tokenKey == PathKey(e.path + [e.tokenId])
    ensures |e.at| > 1 && |e.at| == target && lo <= e.at[0] < hi
    ensures NodeAt(roots, e.at).Some? && NodeAt(roots, e.at).value.children == Absent
    decreases hi
  {
    if e in LevelTargets(roots, lo, hi - 1, target, loading) {
      LevelTargetsLocate(roots, lo, hi - 1, target, loading, e);
    } else {
      var i := hi - 1;
      var root := roots[i].value;
      NeedingLocates(root, [i], [root.tokenId], 1, target, loading);
      assert Locates(root, [i], 1, target, loading, e);
      assert e.at == [i] + e.at[1..];
    }
  }

  /** The collection loop of `preloadDepthLevel` (drive-api.js:165-169). */
  method CollectLevel(d: Drive, lo: nat, hi: nat, target: int) returns (es: seq<Pending>)
    ensures es == LevelTargets(d.roots, lo, hi, target, d.loadingTokenChildren)
  {
    es := [];
    if hi <= lo {
      return;
    }
    var i := lo;
    while i < hi && i < |d.roots|
      invariant lo <= i <= hi
      invariant es == LevelTargets(d.roots, lo, i, target, d.loadingTokenChildren)
    {
      if d.roots[i].Some? {
        var root := d.roots[i].value;
        es := CollectNodesNeedingChildren(root, [i], [root.tokenId], 1, target, d.loadingTokenChildren, es);
      }
      i := i + 1;
    }
    while i < hi
      invariant lo <= i <= hi
      invariant es == LevelTargets(d.roots, lo, i, target, d.loadingTokenChildren)
    {
      i := i + 1;
    }
  }

  /** `preloadDepthLevel(lo, hi, target)`. */
  function LevelLoads(env: LoadEnv, expands: ExpandServer, lo: nat, hi: nat, target: int, s: Loads): Loads {
    var es := LevelTargets(s.roots, lo, hi, target, s.loadingTokenChildren);
    var answer := expands(ExpandCall(env.prompt, Requests(es), env.initialK + 1));
    if es != [] && answer.Some? then s.(roots := ApplyAll(s.roots, es, answer.value, PreloadAdopt)) else s
  }

  /** A layer's load changes nothing but the tree, and only adds to it. */
  lemma LevelLoadsGrow(env: LoadEnv, expands: ExpandServer, lo: nat, hi: nat, target: int, s: Loads)
    ensures var r := LevelLoads(env, expands, lo, hi, target, s);
      LoadsGrow(s, r) && SameRoots(s.roots, r.roots) && r == s.(roots := r.roots)
  {
    var es := LevelTargets(s.roots, lo, hi, target, s.loadingTokenChildren);
    var answer := expands(ExpandCall(env.prompt, Requests(es), env.initialK + 1));
    if es != [] && answer.Some? {
      ApplyAllGrows(s.roots, es, answer.value, PreloadAdopt);
    } else {
      LoadsGrowRefl(s);
      assert SameRoots(s.roots, s.roots);
    }
  }

  /**
   * `preloadDepthLevel(pageStart, pageEnd, targetDepth)`: the collected
   * leaves at `targetDepth` are asked for `initialK+1` children and those the
   * server answers for take them, without touching a node that already has
   * children; the loading keys are as they were afterwards.
   */
  method PreloadDepthLevel(d: Drive, server: ExpandServer, lo: nat, hi: nat, target: int) returns (call: Option<ExpandCall>)
    modifies d`roots, d`loadingTokenChildren
    ensures var es := LevelTargets(old(d.roots), lo, hi, target, old(d.loadingTokenChildren));
      && call == (if es == [] then None else Some(ExpandCall(d.prompt, Requests(es), d.initialK + 1)))
      && d.roots == (if call.Some? && server(call.value).Some? then ApplyAll(old(d.roots), es, server(call.value).value, PreloadAdopt)
                     else old(d.roots))
    ensures d.loadingTokenChildren == old(d.loadingTokenChildren)
    ensures SlotsGrow(old(d.roots), d.roots) && |d.roots| == |old(d.roots)|
    ensures LoadsOf(d) == LevelLoads(old(EnvOf(d)), server, lo, hi, target, old(LoadsOf(d)))
  {
    SlotsGrowRefl(d.roots);
    ghost var roots0 := d.roots;
    var es := CollectLevel(d, lo, hi, target);
    if es == [] {
      return None;
    }
    d.loadingTokenChildren := d.loadingTokenChildren + Keys(es);
    call := Some(ExpandCall(d.prompt, Requests(es), d.initialK + 1));
    var answer := server(call.value);
    if answer.Some? {
      ApplyChildren(d, es, answer.value, PreloadAdopt);
      ApplyAllGrows(roots0, es, answer.value, PreloadAdopt);
    }
    // finally
    d.loadingTokenChildren := d.loadingTokenChildren - Keys(es);
    assert d.loadingTokenChildren == old(d.loadingTokenChildren) by {
      forall e | e in es
        ensures e.tokenKey !in old(d.loadingTokenChildren)
      {
        LevelTargetsLocate(roots0, lo, hi, target, old(d.loadingTokenChildren), e);
      }
    }
  }

  /** The layers from `target` to 4 of `[lo, hi)`, one `preloadDepthLevel` after the other. */
  function LevelsLoads(env: LoadEnv, expands: ExpandServer, lo: nat, hi: nat, target: nat, s: Loads): Loads
    decreases 5 - target
  {
    if target > 4 then s else LevelsLoads(env, expands, lo, hi, target + 1, LevelLoads(env, expands, lo, hi, target, s))
  }

  lemma {:induction false} LevelsLoadsGrow(env: LoadEnv, expands: ExpandServer, lo: nat, hi: nat, target: nat, s: Loads)
    ensures var r := LevelsLoads(env, expands, lo, hi, target, s);
      LoadsGrow(s, r) && SameRoots(s.roots, r.roots) && r == s.(roots := r.roots)
    decreases 5 - target
  {
    if target > 4 {
      LoadsGrowRefl(s);
      assert SameRoots(s.roots, s.roots);
    } else {
      var s1 := LevelLoads(env, expands, lo, hi, target, s);
      LevelLoadsGrow(env, expands, lo, hi, target, s);
      LevelsLoadsGrow(env, expands, lo, hi, target + 1, s1);
      LoadsGrowTrans(s, s1, LevelsLoads(env, expands, lo, hi, target, s));
    }
  }

  /**
   * `preloadPageFullDepth(pageNum)`: nothing for a page past the loaded
   * tokens; otherwise the page's depth load, then layers 2 to 4 of the
   * page's range `[pageNum*initialK, PageEnd)`.
   */
  function FullDepthLoads(env: LoadEnv, expands: ExpandServer, pageNum: nat, s: Loads): Loads {
    if pageNum * env.initialK >= s.totalK then s
    else
      LevelsLoads(env, expands, PageStart(pageNum, env.initialK), PageEnd(pageNum, env.initialK, s.totalK), 2,
                  PageDepthsLoads(env, expands, pageNum, s))
  }

  /** Written out, a page's full-depth load is layer 4 of layer 3 of layer 2 of the page's depth load. */
  lemma FullDepthLayers(env: LoadEnv, expands: ExpandServer, pageNum: nat, s: Loads)
    requires pageNum * env.initialK < s.totalK
    ensures var lo, hi := PageStart(pageNum, env.initialK), PageEnd(pageNum, env.initialK, s.totalK);
      FullDepthLoads(env, expands, pageNum, s)
        == LevelLoads(env, expands, lo, hi, 4, LevelLoads(env, expands, lo, hi, 3,
             LevelLoads(env, expands, lo, hi, 2, PageDepthsLoads(env, expands, pageNum, s))))
  {
    var lo, hi := PageStart(pageNum, env.initialK), PageEnd(pageNum, env.initialK, s.totalK);
    var s1 := PageDepthsLoads(env, expands, pageNum, s);
    var s2 := LevelLoads(env, expands, lo, hi, 2, s1);
    var s3 := LevelLoads(env, expands, lo, hi, 3, s2);
    var s4 := LevelLoads(env, expands, lo, hi, 4, s3);
    assert LevelsLoads(env, expands, lo, hi, 5, s4) == s4;
    assert LevelsLoads(env, expands, lo, hi, 4, s3) == s4;
    assert LevelsLoads(env, expands, lo, hi, 3, s2) == s4;
  }

  /**
   * A page's full-depth load only adds to the tree and keeps the root
   * entries, marks at most its own page's depth loaded, leaves `totalK` and
   * the loaded token pages alone, and clears exactly the keys its depth load
   * clears.
   */
  lemma FullDepthGrows(env: LoadEnv, expands: ExpandServer, pageNum: nat, s: Loads)
    ensures var r := FullDepthLoads(env, expands, pageNum, s);
      && LoadsGrow(s, r) && SameRoots(s.roots, r.roots)
      && s.loadedPageDepths <= r.loadedPageDepths <= s.loadedPageDepths + {pageNum}
      && r.totalK == s.totalK && r.loadedPages == s.loadedPages
      && r.loadingTokenChildren == PageDepthsLoads(env, expands, pageNum, s).loadingTokenChildren
  {
    if pageNum * env.initialK < s.totalK {
      var lo, hi := PageStart(pageNum, env.initialK), PageEnd(pageNum, env.initialK, s.totalK);
      var s1 := PageDepthsLoads(env, expands, pageNum, s);
      PageDepthsLoadsGrow(env, expands, pageNum, s);
      LevelsLoadsGrow(env, expands, lo, hi, 2, s1);
      LoadsGrowTrans(s, s1, FullDepthLoads(env, expands, pageNum, s));
    } else {
      LoadsGrowRefl(s);
      assert SameRoots(s.roots, s.roots);
    }
  }

  /**
   * `preloadPageFullDepth(pageNum)`: the state it leaves is `FullDepthLoads`
   * of the state it starts from.
   */
  method PreloadPageFullDepth(d: Drive, server: ExpandServer, pageNum: nat)
    modifies d`roots, d`loadedPageDepths, d`loadingPageDepths, d`loadingTokenChildren
    ensures LoadsOf(d) == FullDepthLoads(old(EnvOf(d)), server, pageNum, old(LoadsOf(d)))
    ensures d.loadingPageDepths == old(d.loadingPageDepths)
    ensures SlotsGrow(old(d.roots), d.roots) && |d.roots| == |old(d.roots)|
  {
    FullDepthGrows(EnvOf(d), server, pageNum, LoadsOf(d));
    if pageNum * d.initialK >= d.totalK {
      return;
    }
    FullDepthLayers(EnvOf(d), server, pageNum, LoadsOf(d));
    var _ := LoadPageDepths(d, server, pageNum);
    var lo, hi := pageNum * d.initialK, PageEnd(pageNum, d.initialK, d.totalK);
    var _ := PreloadDepthLevel(d, server, lo, hi, 2);
    var _ := PreloadDepthLevel(d, server, lo, hi, 3);
    var _ := PreloadDepthLevel(d, server, lo, hi, 4);
  }

  // ---------------------------------------------------------------------
  // Deeper levels (drive-api.js:379-462, 760-816)
  // ---------------------------------------------------------------------

  /** The token ids of `currentPath`, as the selections recorded them. */
  function SelectedIds(path: seq<Selection>): (r: seq<nat>)
    ensures |r| == |path| && forall i :: 0 <= i < |path| ==> r[i] == path[i].tokenId
  {
    seq(|path|, i requires 0 <= i < |path| => path[i].tokenId)
  }

  /** `loadMoreChildrenForCurrentNode` with the cursor's path `path`. */
  function MoreChildrenLoads(env: LoadEnv, expands: ExpandServer, path: seq<Selection>, s: Loads): Loads {
    var at := Indices(path);
    if path == [] || NodeAt(s.roots, at).None? || NodeAt(s.roots, at).value.children.Absent? then s
    else
      var n := NodeAt(s.roots, at).value;
      var ids := SelectedIds(path);
      var key := PathKey(ids);
      var answer := expands(ExpandCall(env.prompt, [NodeRequest(ids[..|ids| - 1], ids[|ids| - 1])],
                                       |n.children.list| + env.initialK + 1));
      if answer.Some? && key in answer.value
      then s.(roots := SetAt(s.roots, at, Merge(n.children, answer.value[key], Base(n, true))))
      else s
  }

  /** Loading more children changes nothing but the tree, only adds to it, and keeps the root entries. */
  lemma MoreChildrenLoadsGrow(env: LoadEnv, expands: ExpandServer, path: seq<Selection>, s: Loads)
    ensures var r := MoreChildrenLoads(env, expands, path, s);
      LoadsGrow(s, r) && SameRoots(s.roots, r.roots) && r == s.(roots := r.roots)
  {
    var at := Indices(path);
    if path == [] || NodeAt(s.roots, at).None? || NodeAt(s.roots, at).value.children.Absent? {
      LoadsGrowRefl(s);
      assert SameRoots(s.roots, s.roots);
    } else {
      var n := NodeAt(s.roots, at).value;
      var ids := SelectedIds(path);
      var key := PathKey(ids);
      var answer := expands(ExpandCall(env.prompt, [NodeRequest(ids[..|ids| - 1], ids[|ids| - 1])],
                                       |n.children.list| + env.initialK + 1));
      if answer.Some? && key in answer.value {
        MergeGrows(n.children, answer.value[key], Base(n, true));
        SetAtSpec(s.roots, at, Merge(n.children, answer.value[key], Base(n, true)));
      } else {
        LoadsGrowRefl(s);
        assert SameRoots(s.roots, s.roots);
      }
    }
  }

  /**
   * `loadMoreChildrenForCurrentNode`: at the root level, or when the node the
   * path selects is missing or has no children, nothing. Otherwise the node
   * is asked for `initialK+1` more children than it has, and the ones with
   * new ids are appended.
   */
  method LoadMoreChildrenForCurrentNode(d: Drive, server: ExpandServer) returns (call: Option<ExpandCall>)
    modifies d`roots
    ensures var at := Indices(d.currentPath);
      var node := NodeAt(d.roots, at);
      && (d.currentPath == [] || NodeAt(old(d.roots), at).None? || NodeAt(old(d.roots), at).value.children.Absent? ==>
            call == None && d.roots == old(d.roots))
      && (d.currentPath != [] && NodeAt(old(d.roots), at).Some? && NodeAt(old(d.roots), at).value.children.Present? ==>
            var n := NodeAt(old(d.roots), at).value;
            var ids := SelectedIds(d.currentPath);
            var key := PathKey(ids);
            && call == Some(ExpandCall(d.prompt, [NodeRequest(ids[..|ids| - 1], ids[|ids| - 1])],
                                       |n.children.list| + d.initialK + 1))
            && d.roots == (if server(call.value).Some? && key in server(call.value).value
                           then SetAt(old(d.roots), at, Merge(n.children, server(call.value).value[key], Base(n, true)))
                           else old(d.roots)))
    ensures SlotsGrow(old(d.roots), d.roots) && |d.roots| == |old(d.roots)|
    ensures LoadsOf(d) == MoreChildrenLoads(old(EnvOf(d)), server, d.currentPath, old(LoadsOf(d)))
  {
    SlotsGrowRefl(d.roots);
    if |d.currentPath| == 0 {
      return None;
    }
    var at := Indices(d.currentPath);
    var node := NodeAt(d.roots, at);
    if node.None? || node.value.children.Absent? {
      return None;
    }
    var n := node.value;
    var ids := SelectedIds(d.currentPath);
    call := Some(ExpandCall(d.prompt, [NodeRequest(ids[..|ids| - 1], ids[|ids| - 1])], |n.children.list| + d.initialK + 1));
    var answer := server(call.value);
    var key := PathKey(ids);
    if answer.Some? && key in answer.value {
      var kids := MergeChildren(n.children, answer.value[key], Base(n, true));
      MergeGrows(n.children, answer.value[key], Base(n, true));
      SetAtSpec(d.roots, at, kids);
      d.roots := SetAt(d.roots, at, kids);
    }
  }

  /** The entries `loadNextLayer` sends for the given nodes below the ids `pathIds`. */
  function LayerEntries(roots: seq<Slot>, ats: seq<seq<nat>>, pathIds: seq<nat>): seq<Pending>
    requires forall i :: 0 <= i < |ats| ==> NodeAt(roots, ats[i]).Some?
  {
    seq(|ats|, i requires 0 <= i < |ats| =>
      var id := NodeAt(roots, ats[i]).value.tokenId;
      Pending(pathIds, id, PathKey(pathIds + [id]), ats[i]))
  }

  /**
   * `loadNextLayer(nodes, pathToNodes)`: the given nodes (named by their
   * index paths) are asked for `initialK+1` children, and those without
   * children take what the server answers under their key; a node that
   * already has children is never overwritten.
   */
  method LoadNextLayer(d: Drive, server: ExpandServer, ats: seq<seq<nat>>, pathIds: seq<nat>) returns (call: ExpandCall)
    requires forall i :: 0 <= i < |ats| ==> NodeAt(d.roots, ats[i]).Some?
    modifies d`roots
    ensures var es := LayerEntries(old(d.roots), ats, pathIds);
      && call == ExpandCall(d.prompt, Requests(es), d.initialK + 1)
      && d.roots == (if server(call).Some? then ApplyAll(old(d.roots), es, server(call).value, LayerAdopt) else old(d.roots))
    ensures SlotsGrow(old(d.roots), d.roots) && |d.roots| == |old(d.roots)|
  {
    SlotsGrowRefl(d.roots);
    var es := LayerEntries(d.roots, ats, pathIds);
    call := ExpandCall(d.prompt, Requests(es), d.initialK + 1);
    var answer := server(call);
    if answer.Some? {
      ghost var roots0 := d.roots;
      ApplyChildren(d, es, answer.value, LayerAdopt);
      ApplyAllGrows(roots0, es, answer.value, LayerAdopt);
    }
  }
}
