/**
 * The client-side token explorer's data and globals (static/js/drive-state.js):
 * the tree the browser holds, the navigation path into it, the paging
 * counters and the loading markers, and the two server endpoints the client
 * calls, as oracles from a request to a response.
 */
module DriveState {
  import opened Wrappers
  import opened Text

  /** A node's `children`: absent (`null`/`undefined`) or an array, possibly empty. */
  datatype Kids = Absent | Present(list: seq<ClientNode>)

  /** A node of `treeData` as the browser holds it. */
  datatype ClientNode = ClientNode(
    tokenId: nat,
    tokenStr: string,
    probability: real,
    cumulativeProb: real,
    children: Kids)

  /** An entry of `treeData.children`: `None` is a hole an index write past the end leaves. */
  type Slot = Option<ClientNode>

  /** A deeper children array seen as root entries: one filled slot per node. */
  function Slots(xs: seq<ClientNode>): (r: seq<Slot>)
    ensures |r| == |xs| && forall i :: 0 <= i < |r| ==> r[i] == Some(xs[i])
  {
    seq(|xs|, i requires 0 <= i < |xs| => Some(xs[i]))
  }

  /** The JavaScript assignment `xs[i] = v`: past the end, the gap becomes holes. */
  function WriteAt(xs: seq<Slot>, i: nat, v: ClientNode): (r: seq<Slot>)
    ensures |r| == (if i < |xs| then |xs| else i + 1)
    ensures r[i] == Some(v)
    ensures forall j :: 0 <= j < |xs| && j != i ==> r[j] == xs[j]
    ensures forall j :: |xs| <= j < i ==> r[j] == None
  {
    if i < |xs| then xs[i := Some(v)] else xs + seq(i - |xs|, _ => None) + [Some(v)]
  }

  /** An entry of `currentPath`: the index chosen at a level and the chosen token. */
  datatype Selection = Selection(index: nat, token: string, probability: real, tokenId: nat)

  /** One entry of an `/api/expand-depth` request's `nodes`. */
  datatype NodeRequest = NodeRequest(path: seq<nat>, tokenId: nat)

  /** The body of an `/api/expand-depth` request. */
  datatype ExpandCall = ExpandCall(prompt: string, nodes: seq<NodeRequest>, k: nat)

  /** The body of an `/api/beam-tree` request. */
  datatype TreeCall = TreeCall(prompt: string, k: nat, n: nat)

  /** The server: `children_map` of an ok answer, `None` for an error status or a failed fetch. */
  type ExpandServer = ExpandCall -> Option<map<string, seq<ClientNode>>>

  /** The server: top-level `children` of an ok answer, `None` otherwise. */
  type TreeServer = TreeCall -> Option<seq<ClientNode>>

  /** `Math.floor(index / initialK)`: the page an index falls on. */
  function PageOf(index: nat, initialK: nat): nat
    requires initialK >= 1
  {
    index / initialK
  }

  /** The globals of drive-state.js that the explorer's logic reads and writes. */
  class Drive {
    /** `originalPrompt` and `treeData.prompt`. */
    var originalPrompt: string
    var prompt: string
    /** `treeData.children`. */
    var roots: seq<Slot>
    var currentPath: seq<Selection>
    var currentIndex: nat
    var currentPage: nat
    /** The page size the user chose, and how many root tokens are loaded. */
    var initialK: nat
    var totalK: nat
    var loadedPageDepths: set<nat>
    var loadingPageDepths: set<nat>
    var loadedPages: set<nat>
    var loadingTokenChildren: set<string>

    /**
     * A page size was chosen, the page counter is the page the current index
     * falls on, and no root entry lies past the counted root tokens.
     */
    ghost predicate Valid()
      reads this
    {
      initialK >= 1 && currentPage == currentIndex / initialK && |roots| <= totalK
    }

    /**
     * The resets of `startGame` once `startDrive` has stored the tree it
     * fetched (drive-api.js:43-46, 60-77): nothing selected, page 0, k+1
     * tokens shown. The loads `startGame` then starts are DriveApi.StartGame.
     * The tree was asked for `k+1` root tokens, so it holds no more than that.
     */
    constructor (originalPrompt: string, prompt: string, roots: seq<ClientNode>, k: nat)
      requires k >= 1 && |roots| <= k + 1
      ensures Valid()
      ensures this.originalPrompt == originalPrompt && this.prompt == prompt && this.roots == Slots(roots)
      ensures initialK == k && totalK == k + 1
      ensures currentPath == [] && currentIndex == 0 && currentPage == 0
      ensures loadedPageDepths == {} && loadingPageDepths == {} && loadedPages == {0} && loadingTokenChildren == {}
    {
      this.originalPrompt, this.prompt, this.roots := originalPrompt, prompt, Slots(roots);
      initialK, totalK := k, k + 1;
      currentPath, currentIndex, currentPage := [], 0, 0;
      loadedPageDepths, loadingPageDepths, loadedPages, loadingTokenChildren := {}, {}, {0}, {};
    }
  }
}
