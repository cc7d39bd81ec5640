/**
 * Moving through the token explorer (static/js/drive-navigation.js): left
 * and right within a level, down into the selected token's children, and
 * back up. The cursor is `currentPath`, `currentIndex` and `currentPage`.
 */
module DriveNavigation {
  import opened Wrappers
  import opened DriveState
  import opened DriveTree
  import opened DriveApi

  /** The navigation state of the explorer. */
  datatype Cursor = Cursor(path: seq<Selection>, index: nat, page: nat)

  function CursorOf(d: Drive): Cursor
    reads d
  {
    Cursor(d.currentPath, d.currentIndex, d.currentPage)
  }

  /** How far right the cursor may go on the level at `path`: `totalK` at the root level, the length of the list deeper. */
  function Reach(s: Loads, path: seq<Selection>): nat {
    if path == [] then s.totalK else |Follow(s.roots, Indices(path))|
  }

  function MaxLoaded(d: Drive): nat
    reads d
  {
    Reach(LoadsOf(d), d.currentPath)
  }

  /** A growing tree keeps every level it reaches and only lengthens it. */
  lemma {:induction false} FollowGrows(a: seq<Slot>, b: seq<Slot>, at: seq<nat>)
    requires SlotsGrow(a, b)
    ensures SlotsGrow(Follow(a, at), Follow(b, at))
    decreases |at|
  {
    if at != [] && at[0] < |a| && a[at[0]].Some? && a[at[0]].value.children.Present? {
      var i := at[0];
      assert Grows(a[i].value, b[i].value);
      assert KidsGrow(a[i].value.children, b[i].value.children);
      var xs, ys := a[i].value.children.list, b[i].value.children.list;
      assert SlotsGrow(Slots(xs), Slots(ys)) by {
        forall j | 0 <= j < |xs|
          ensures Grows(xs[j], ys[j])
        {
        }
      }
      FollowGrows(Slots(xs), Slots(ys), at[1..]);
    }
  }

  /**
   * `r` is `s` with only the tree and `totalK` changed: both only grow, the
   * root entries stay within `totalK`, and the level at `path` reaches no
   * less far.
   */
  predicate AddsTo(s: Loads, r: Loads, path: seq<Selection>) {
    && LoadsGrow(s, r) && |r.roots| <= r.totalK && r == s.(roots := r.roots, totalK := r.totalK)
    && Reach(s, path) <= Reach(r, path)
  }

  lemma AddsToRefl(s: Loads, path: seq<Selection>)
    requires |s.roots| <= s.totalK
    ensures AddsTo(s, s, path)
  {
    LoadsGrowRefl(s);
  }

  lemma AddsToTrans(a: Loads, b: Loads, c: Loads, path: seq<Selection>)
    requires AddsTo(a, b, path) && AddsTo(b, c, path)
    ensures AddsTo(a, c, path)
  {
    LoadsGrowTrans(a, b, c);
  }

  /** The load `navigateRight` starts for a page: the next root page at the root level, more children deeper. */
  function StepLoads(env: LoadEnv, trees: TreeServer, expands: ExpandServer, path: seq<Selection>, page: nat, s: Loads): Loads {
    if path == [] then NextPageLoads(env, trees, page, s) else MoreChildrenLoads(env, expands, path, s)
  }

  /**
   * Such a load changes only the tree and `totalK`, only adds, keeps every
   * root entry within `totalK`, and never shortens how far the cursor may go.
   */
  lemma StepLoadsGrow(env: LoadEnv, trees: TreeServer, expands: ExpandServer, path: seq<Selection>, page: nat, s: Loads)
    requires |s.roots| <= s.totalK
    ensures var r := StepLoads(env, trees, expands, path, page, s);
      && AddsTo(s, r, path)
  {
    var r := StepLoads(env, trees, expands, path, page, s);
    if path == [] {
      NextPageLoadsGrow(env, trees, page, s);
    } else {
      MoreChildrenLoadsGrow(env, expands, path, s);
      FollowGrows(s.roots, r.roots, Indices(path));
    }
  }

  /** The state once `navigateRight` has waited for the load its next index needs, if it needs one. */
  function WaitLoads(env: LoadEnv, trees: TreeServer, expands: ExpandServer, path: seq<Selection>, index: nat, s: Loads): Loads
    requires env.initialK >= 1
  {
    if index + 1 < Reach(s, path) then s else StepLoads(env, trees, expands, path, PageOf(index + 1, env.initialK), s)
  }

  /** Waiting changes only the tree and `totalK`, only adds, and never shortens how far the cursor may go. */
  lemma WaitLoadsGrow(env: LoadEnv, trees: TreeServer, expands: ExpandServer, path: seq<Selection>, index: nat, s: Loads)
    requires env.initialK >= 1 && |s.roots| <= s.totalK
    ensures var r := WaitLoads(env, trees, expands, path, index, s);
      && AddsTo(s, r, path)
  {
    if index + 1 < Reach(s, path) {
      AddsToRefl(s, path);
    } else {
      StepLoadsGrow(env, trees, expands, path, PageOf(index + 1, env.initialK), s);
    }
  }

  /** `navigateRight` moves: the level is not empty and the next index is loaded once the wait is over. */
  predicate RightMoves(env: LoadEnv, trees: TreeServer, expands: ExpandServer, path: seq<Selection>, index: nat, s: Loads)
    requires env.initialK >= 1
  {
    |Follow(s.roots, Indices(path))| > 0 && index + 1 < Reach(WaitLoads(env, trees, expands, path, index, s), path)
  }

  /** The index lies among the last two of its page, where `navigateRight` preloads what comes next. */
  predicate NearPageEnd(index: nat, initialK: nat)
    requires initialK >= 1
  {
    index % initialK >= initialK - 2
  }

  /** The preload `navigateRight` starts on arriving at `index` when it is one of the last two of its page. */
  function EndPreloadLoads(env: LoadEnv, trees: TreeServer, expands: ExpandServer, path: seq<Selection>, index: nat, s: Loads): Loads
    requires env.initialK >= 1
  {
    if NearPageEnd(index, env.initialK) then StepLoads(env, trees, expands, path, PageOf(index, env.initialK) + 1, s) else s
  }

  /**
   * The load `animatePageTransition` starts at once when the cursor moves
   * from page `fromPage` to another page `toPage`: the root page after
   * `toPage` at the root level, more children deeper.
   */
  function PageTurnLoads(env: LoadEnv, trees: TreeServer, expands: ExpandServer, path: seq<Selection>, fromPage: nat, toPage: nat, s: Loads): Loads {
    if toPage == fromPage then s else StepLoads(env, trees, expands, path, toPage + 1, s)
  }

  /** A page turn changes only the tree and `totalK`, only adds, and never shortens how far the cursor may go. */
  lemma PageTurnLoadsGrow(env: LoadEnv, trees: TreeServer, expands: ExpandServer, path: seq<Selection>, fromPage: nat, toPage: nat, s: Loads)
    requires |s.roots| <= s.totalK
    ensures var r := PageTurnLoads(env, trees, expands, path, fromPage, toPage, s);
      && AddsTo(s, r, path)
      && (toPage == fromPage ==> r == s)
  {
    if toPage == fromPage {
      AddsToRefl(s, path);
    } else {
      StepLoadsGrow(env, trees, expands, path, toPage + 1, s);
    }
  }

  /** What the move of `navigateRight` from `index` to `index + 1` loads: the page-end preload, then the page turn's load. */
  function MoveLoads(env: LoadEnv, trees: TreeServer, expands: ExpandServer, path: seq<Selection>, index: nat, s: Loads): Loads
    requires env.initialK >= 1
  {
    var k := env.initialK;
    MoveAt(env, trees, expands, path, NearPageEnd(index + 1, k), PageOf(index + 1, k) + 1, PageOf(index, k), PageOf(index + 1, k), s)
  }

  /** The two loads of a move, with the page arithmetic done: the preload of `nextPage` when `near`, then the page turn. */
  function MoveAt(env: LoadEnv, trees: TreeServer, expands: ExpandServer, path: seq<Selection>,
                  near: bool, nextPage: nat, from: nat, to: nat, s: Loads): Loads {
    PageTurnLoads(env, trees, expands, path, from, to, if near then StepLoads(env, trees, expands, path, nextPage, s) else s)
  }

  /**
   * The move changes only the tree and `totalK`, only adds, never shortens
   * how far the cursor may go, and loads nothing when the new index is
   * neither near its page end nor on another page.
   */
  lemma MoveAtGrow(env: LoadEnv, trees: TreeServer, expands: ExpandServer, path: seq<Selection>,
                   near: bool, nextPage: nat, from: nat, to: nat, s: Loads)
    requires |s.roots| <= s.totalK
    ensures var r := MoveAt(env, trees, expands, path, near, nextPage, from, to, s);
      && AddsTo(s, r, path) && (!near && from == to ==> r == s)
  {
    var s1 := if near then StepLoads(env, trees, expands, path, nextPage, s) else s;
    if near {
      StepLoadsGrow(env, trees, expands, path, nextPage, s);
    } else {
      AddsToRefl(s, path);
    }
    PageTurnLoadsGrow(env, trees, expands, path, from, to, s1);
    AddsToTrans(s, s1, PageTurnLoads(env, trees, expands, path, from, to, s1), path);
  }

  /** Everything `navigateRight` loads from the cursor at `index` on the level at `path`. */
  function RightLoads(env: LoadEnv, trees: TreeServer, expands: ExpandServer, path: seq<Selection>, index: nat, s: Loads): Loads
    requires env.initialK >= 1
  {
    if |Follow(s.roots, Indices(path))| == 0 then s
    else
      var s1 := WaitLoads(env, trees, expands, path, index, s);
      if RightMoves(env, trees, expands, path, index, s) then MoveLoads(env, trees, expands, path, index, s1) else s1
  }

  /**
   * Moving right changes only the tree and `totalK`, only adds to them, and
   * the cursor moves exactly when the level is not empty and the new index
   * is within reach after the loads.
   */
  lemma RightLoadsGrow(env: LoadEnv, trees: TreeServer, expands: ExpandServer, path: seq<Selection>, index: nat, s: Loads)
    requires env.initialK >= 1 && |s.roots| <= s.totalK
    ensures var r := RightLoads(env, trees, expands, path, index, s);
      && AddsTo(s, r, path)
      && (RightMoves(env, trees, expands, path, index, s) <==>
            |Follow(s.roots, Indices(path))| > 0 && index + 1 < Reach(r, path))
  {
    var r := RightLoads(env, trees, expands, path, index, s);
    if |Follow(s.roots, Indices(path))| == 0 {
      AddsToRefl(s, path);
    } else {
      var s1 := WaitLoads(env, trees, expands, path, index, s);
      WaitLoadsGrow(env, trees, expands, path, index, s);
      if RightMoves(env, trees, expands, path, index, s) {
        var k := env.initialK;
        MoveAtGrow(env, trees, expands, path, NearPageEnd(index + 1, k), PageOf(index + 1, k) + 1, PageOf(index, k), PageOf(index + 1, k), s1);
        AddsToTrans(s, s1, r, path);
      }
    }
  }

  /** On an empty level `navigateRight` loads nothing and does not move. */
  lemma RightLoadsEmpty(env: LoadEnv, trees: TreeServer, expands: ExpandServer, path: seq<Selection>, index: nat, s: Loads)
    requires env.initialK >= 1 && |Follow(s.roots, Indices(path))| == 0
    ensures RightLoads(env, trees, expands, path, index, s) == s && !RightMoves(env, trees, expands, path, index, s)
  {
  }

  /** When the next index is still out of reach after the wait, that wait is all `navigateRight` loads. */
  lemma RightLoadsStuck(env: LoadEnv, trees: TreeServer, expands: ExpandServer, path: seq<Selection>, index: nat, s: Loads)
    requires env.initialK >= 1 && |Follow(s.roots, Indices(path))| > 0
    requires index + 1 >= Reach(WaitLoads(env, trees, expands, path, index, s), path)
    ensures RightLoads(env, trees, expands, path, index, s) == WaitLoads(env, trees, expands, path, index, s)
    ensures !RightMoves(env, trees, expands, path, index, s)
  {
  }

  /** When the next index is within reach after the wait, the cursor moves and the move's loads follow the wait. */
  lemma RightLoadsMoved(env: LoadEnv, trees: TreeServer, expands: ExpandServer, path: seq<Selection>, index: nat, s: Loads)
    requires env.initialK >= 1 && |Follow(s.roots, Indices(path))| > 0
    requires index + 1 < Reach(WaitLoads(env, trees, expands, path, index, s), path)
    ensures RightMoves(env, trees, expands, path, index, s)
    ensures RightLoads(env, trees, expands, path, index, s)
      == MoveLoads(env, trees, expands, path, index, WaitLoads(env, trees, expands, path, index, s))
  {
  }

  /** Whether the selected entry of a level has a non-empty children array to descend into. */
  predicate CanDescend(nodes: seq<Slot>, index: nat) {
    index < |nodes| && nodes[index].Some? && nodes[index].value.children.Present?
    && |nodes[index].value.children.list| > 0
  }

  /** `selectAndAdvance` on the cursor, given the current level's entries. */
  function Advance(c: Cursor, nodes: seq<Slot>): Cursor {
    if CanDescend(nodes, c.index) then
      var selected := nodes[c.index].value;
      Cursor(c.path + [Selection(c.index, selected.tokenStr, selected.probability, selected.tokenId)], 0, 0)
    else c
  }

  /** `goBack` on the cursor. */
  function Back(c: Cursor, initialK: nat): Cursor
    requires initialK >= 1
  {
    if c.path == [] then c
    else
      var last := c.path[|c.path| - 1];
      Cursor(c.path[..|c.path| - 1], last.index, PageOf(last.index, initialK))
  }

  /** `selectAndAdvance` moves exactly when the selected entry has children, and then one level down to index 0. */
  lemma AdvanceMoves(c: Cursor, nodes: seq<Slot>)
    ensures Advance(c, nodes) != c <==> CanDescend(nodes, c.index)
    ensures CanDescend(nodes, c.index) ==>
      && |Advance(c, nodes).path| == |c.path| + 1 && Advance(c, nodes).path[..|c.path|] == c.path
      && Advance(c, nodes).path[|c.path|].index == c.index
      && Advance(c, nodes).path[|c.path|].tokenId == nodes[c.index].value.tokenId
      && Advance(c, nodes).index == 0 && Advance(c, nodes).page == 0
  {
    if CanDescend(nodes, c.index) {
      assert |Advance(c, nodes).path| != |c.path|;
    }
  }

  /** With the page consistent with the index, going back undoes a step down. */
  lemma BackUndoesAdvance(c: Cursor, nodes: seq<Slot>, initialK: nat)
    requires initialK >= 1 && c.page == PageOf(c.index, initialK)
    requires CanDescend(nodes, c.index)
    ensures Back(Advance(c, nodes), initialK) == c
  {
    var a := Advance(c, nodes);
    assert a.path[..|a.path| - 1] == c.path;
  }

  /** Following one more index lands on the children of the entry at that index. */
  lemma {:induction false} FollowSnoc(nodes: seq<Slot>, at: seq<nat>, j: nat)
    ensures var level := Follow(nodes, at);
      Follow(nodes, at + [j]) ==
        if j < |level| && level[j].Some? && level[j].value.children.Present?
        then Slots(level[j].value.children.list) else []
    decreases |at|
  {
    if at == [] {
      assert at + [j] == [j];
      assert [j][1..] == [];
    } else {
      assert (at + [j])[0] == at[0] && (at + [j])[1..] == at[1..] + [j];
      if at[0] < |nodes| && nodes[at[0]].Some? && nodes[at[0]].value.children.Present? {
        FollowSnoc(Slots(nodes[at[0]].value.children.list), at[1..], j);
      }
    }
  }

  /** After a step down, the current level is the selected entry's children. */
  lemma AdvanceDescends(roots: seq<Slot>, c: Cursor)
    requires CanDescend(Follow(roots, Indices(c.path)), c.index)
    ensures var level := Follow(roots, Indices(c.path));
      Follow(roots, Indices(Advance(c, level).path)) == Slots(level[c.index].value.children.list)
  {
    var level := Follow(roots, Indices(c.path));
    var a := Advance(c, level);
    assert Indices(a.path) == Indices(c.path) + [c.index];
    FollowSnoc(roots, Indices(c.path), c.index);
  }

  /** `navigateLeft` moves: the level is not empty, `totalK` is not zero and the cursor is not at index 0. */
  predicate LeftMoves(path: seq<Selection>, index: nat, s: Loads) {
    |Follow(s.roots, Indices(path))| > 0 && s.totalK > 0 && index > 0
  }

  /** Everything `navigateLeft` loads: the page turn's load when the move lands on the previous page. */
  function LeftLoads(env: LoadEnv, trees: TreeServer, expands: ExpandServer, path: seq<Selection>, index: nat, s: Loads): Loads
    requires env.initialK >= 1
  {
    if LeftMoves(path, index, s) then PageTurnLoads(env, trees, expands, path, PageOf(index, env.initialK), PageOf(index - 1, env.initialK), s)
    else s
  }

  lemma MulAtLeast(a: int, k: int)
    requires a >= 1 && k >= 1
    ensures a * k >= k
  {
  }

  /** Quotient and remainder are determined by any decomposition with the remainder in range. */
  lemma DivIs(n: int, k: int, q: int, m: int)
    requires k >= 1 && 0 <= m < k && n == q * k + m
    ensures n / k == q && n % k == m
  {
    var q', m' := n / k, n % k;
    assert n == q' * k + m' && 0 <= m' < k;
    if q' > q {
      MulAtLeast(q' - q, k);
    } else if q' < q {
      MulAtLeast(q - q', k);
    }
  }

  /** One step left changes the page exactly when it leaves the first index of a page. */
  lemma PreviousPage(index: nat, k: nat)
    requires index > 0 && k >= 1
    ensures PageOf(index - 1, k) != PageOf(index, k) <==> index % k == 0
  {
    var q, m := index / k, index % k;
    assert index == q * k + m && 0 <= m < k;
    if m == 0 {
      DivIs(index - 1, k, q - 1, k - 1);
    } else {
      DivIs(index - 1, k, q, m - 1);
    }
  }

  /**
   * Moving left changes only the tree and `totalK` and only adds to them;
   * it loads nothing unless the cursor leaves the first index of a page,
   * which by PreviousPage is exactly when it moves onto another page.
   */
  lemma LeftLoadsGrow(env: LoadEnv, trees: TreeServer, expands: ExpandServer, path: seq<Selection>, index: nat, s: Loads)
    requires env.initialK >= 1 && |s.roots| <= s.totalK
    ensures var r := LeftLoads(env, trees, expands, path, index, s);
      && AddsTo(s, r, path)
      && (!LeftMoves(path, index, s) || index % env.initialK != 0 ==> r == s)
  {
    if index > 0 {
      PreviousPage(index, env.initialK);
    }
    if LeftMoves(path, index, s) {
      PageTurnLoadsGrow(env, trees, expands, path, PageOf(index, env.initialK), PageOf(index - 1, env.initialK), s);
    } else {
      AddsToRefl(s, path);
    }
  }

  /**
   * `navigateLeft`: nothing on an empty level, with `totalK` zero, or at
   * index 0; otherwise one to the left, with the page recomputed, and a move
   * onto the previous page starts the page turn's load.
   */
  method NavigateLeft(d: Drive, trees: TreeServer, expands: ExpandServer)
    requires d.Valid()
    modifies d`currentIndex, d`currentPage, d`roots, d`totalK
    ensures d.Valid() && d.currentPath == old(d.currentPath)
    ensures LoadsOf(d) == LeftLoads(old(EnvOf(d)), trees, expands, d.currentPath, old(d.currentIndex), old(LoadsOf(d)))
    ensures if LeftMoves(d.currentPath, old(d.currentIndex), old(LoadsOf(d)))
      then d.currentIndex == old(d.currentIndex) - 1 && d.currentPage == PageOf(d.currentIndex, d.initialK)
      else d.currentIndex == old(d.currentIndex) && d.currentPage == old(d.currentPage)
    ensures SlotsGrow(old(d.roots), d.roots) && d.totalK >= old(d.totalK)
  {
    var nodes := GetCurrentNodes(d);
    if |nodes| == 0 || d.totalK == 0 {
      SlotsGrowRefl(d.roots);
      return;
    }
    if d.currentIndex <= 0 {
      SlotsGrowRefl(d.roots);
      return;
    }
    var oldPage := d.currentPage;
    d.currentIndex := d.currentIndex - 1;
    d.currentPage := PageOf(d.currentIndex, d.initialK);
    TurnPage(d, trees, expands, oldPage);
  }

  /**
   * `navigateRight`: nothing on an empty level. Otherwise the cursor moves
   * one to the right exactly when that index is below `MaxLoaded`, after
   * loading the next page (at the root) or more children (deeper) when it
   * was not; a move onto one of the last two indices of a page then starts
   * the load for what follows. Loading only adds to the tree and never
   * lowers `totalK`.
   */
  method NavigateRight(d: Drive, trees: TreeServer, expands: ExpandServer)
    requires d.Valid()
    modifies d`currentIndex, d`currentPage, d`roots, d`totalK
    ensures d.Valid() && d.currentPath == old(d.currentPath)
    ensures LoadsOf(d) == RightLoads(old(EnvOf(d)), trees, expands, d.currentPath, old(d.currentIndex), old(LoadsOf(d)))
    ensures d.currentIndex == (if RightMoves(old(EnvOf(d)), trees, expands, d.currentPath, old(d.currentIndex), old(LoadsOf(d)))
                               then old(d.currentIndex) + 1 else old(d.currentIndex))
    ensures old(|Follow(d.roots, Indices(d.currentPath))| == 0) ==>
      d.currentIndex == old(d.currentIndex) && d.roots == old(d.roots) && d.totalK == old(d.totalK)
    ensures old(|Follow(d.roots, Indices(d.currentPath))| > 0) ==>
      if old(d.currentIndex) + 1 < MaxLoaded(d)
      then d.currentIndex == old(d.currentIndex) + 1 && d.currentPage == PageOf(d.currentIndex, d.initialK)
      else d.currentIndex == old(d.currentIndex) && d.currentPage == old(d.currentPage)
    ensures old(|Follow(d.roots, Indices(d.currentPath))| == 0) ==> d.currentPage == old(d.currentPage)
    ensures old(d.currentIndex + 1 < MaxLoaded(d)) && !NearPageEnd(old(d.currentIndex) + 1, d.initialK)
            && PageOf(old(d.currentIndex) + 1, d.initialK) == old(d.currentPage) ==>
      d.roots == old(d.roots) && d.totalK == old(d.totalK)
    ensures SlotsGrow(old(d.roots), d.roots) && d.totalK >= old(d.totalK)
  {
    ghost var env, s0, index0 := EnvOf(d), LoadsOf(d), d.currentIndex;
    var nodes := GetCurrentNodes(d);
    if |nodes| == 0 {
      RightLoadsEmpty(env, trees, expands, d.currentPath, index0, s0);
      SlotsGrowRefl(d.roots);
      return;
    }
    var newIndex: nat := d.currentIndex + 1;
    var newPage := PageOf(newIndex, d.initialK);
    var loaded := WaitForIndex(d, trees, expands, newIndex);
    if !loaded {
      RightLoadsStuck(env, trees, expands, d.currentPath, index0, s0);
      return;
    }
    RightLoadsMoved(env, trees, expands, d.currentPath, index0, s0);
    ghost var s1 := LoadsOf(d);
    assert EnvOf(d) == env;
    MoveTo(d, trees, expands, newIndex);
    SlotsGrowTrans(s0.roots, s1.roots, d.roots);
  }

  /**
   * The move of `navigateRight` (drive-navigation.js:158-174): the cursor
   * and page go to the next index; on one of the last two indices of a page
   * the load of what follows starts, and a move onto another page then
   * starts the page turn's load.
   */
  method MoveTo(d: Drive, trees: TreeServer, expands: ExpandServer, newIndex: nat)
    requires d.Valid() && newIndex == d.currentIndex + 1
    modifies d`currentIndex, d`currentPage, d`roots, d`totalK
    ensures d.Valid() && d.currentIndex == newIndex && d.currentPage == PageOf(newIndex, d.initialK)
    ensures LoadsOf(d) == MoveLoads(old(EnvOf(d)), trees, expands, d.currentPath, old(d.currentIndex), old(LoadsOf(d)))
    ensures AddsTo(old(LoadsOf(d)), LoadsOf(d), d.currentPath)
    ensures !NearPageEnd(newIndex, d.initialK) && d.currentPage == old(d.currentPage) ==> LoadsOf(d) == old(LoadsOf(d))
  {
    ghost var s0 := LoadsOf(d);
    var oldPage := d.currentPage;
    d.currentIndex := newIndex;
    d.currentPage := PageOf(newIndex, d.initialK);
    EndPreload(d, trees, expands);
    ghost var s1 := LoadsOf(d);
    TurnPage(d, trees, expands, oldPage);
    AddsToTrans(s0, s1, LoadsOf(d), d.currentPath);
  }

  /** The preload of `navigateRight` (drive-navigation.js:162-168), fired and not awaited. */
  method EndPreload(d: Drive, trees: TreeServer, expands: ExpandServer)
    requires d.Valid()
    modifies d`roots, d`totalK
    ensures d.Valid()
    ensures LoadsOf(d) == EndPreloadLoads(old(EnvOf(d)), trees, expands, d.currentPath, d.currentIndex, old(LoadsOf(d)))
    ensures AddsTo(old(LoadsOf(d)), LoadsOf(d), d.currentPath)
    ensures !NearPageEnd(d.currentIndex, d.initialK) ==> LoadsOf(d) == old(LoadsOf(d))
  {
    if d.currentIndex % d.initialK >= d.initialK - 2 {
      StepLoad(d, trees, expands, d.currentPage + 1);
    } else {
      AddsToRefl(LoadsOf(d), d.currentPath);
    }
  }

  /**
   * A move from page `fromPage` onto another page calls
   * `animatePageTransition`, which at once starts loading the page after the
   * new one at the root, more children deeper (drive-navigation.js:193-202).
   */
  method TurnPage(d: Drive, trees: TreeServer, expands: ExpandServer, fromPage: nat)
    requires d.Valid()
    modifies d`roots, d`totalK
    ensures d.Valid()
    ensures LoadsOf(d) == PageTurnLoads(old(EnvOf(d)), trees, expands, d.currentPath, fromPage, d.currentPage, old(LoadsOf(d)))
    ensures AddsTo(old(LoadsOf(d)), LoadsOf(d), d.currentPath)
    ensures d.currentPage == fromPage ==> LoadsOf(d) == old(LoadsOf(d))
  {
    if d.currentPage != fromPage {
      StepLoad(d, trees, expands, d.currentPage + 1);
    } else {
      AddsToRefl(LoadsOf(d), d.currentPath);
    }
  }

  /**
   * The wait of `navigateRight` (drive-navigation.js:138-150): when the next
   * index is not loaded yet, the load it needs runs first; the answer is
   * whether the next index is loaded afterwards.
   */
  method WaitForIndex(d: Drive, trees: TreeServer, expands: ExpandServer, newIndex: nat) returns (loaded: bool)
    requires d.Valid() && newIndex == d.currentIndex + 1
    modifies d`roots, d`totalK
    ensures d.Valid()
    ensures LoadsOf(d) == WaitLoads(old(EnvOf(d)), trees, expands, d.currentPath, old(d.currentIndex), old(LoadsOf(d)))
    ensures loaded == (newIndex < MaxLoaded(d))
    ensures old(newIndex < MaxLoaded(d)) ==> d.roots == old(d.roots) && d.totalK == old(d.totalK)
    ensures SlotsGrow(old(d.roots), d.roots) && d.totalK >= old(d.totalK)
  {
    var nodes := GetCurrentNodes(d);
    var maxLoaded := if |d.currentPath| == 0 then d.totalK else |nodes|;
    if newIndex >= maxLoaded {
      StepLoad(d, trees, expands, PageOf(newIndex, d.initialK));
      var updatedNodes := GetCurrentNodes(d);
      maxLoaded := if |d.currentPath| == 0 then d.totalK else |updatedNodes|;
    } else {
      SlotsGrowRefl(d.roots);
    }
    loaded := newIndex < maxLoaded;
  }

  /** The load `navigateRight` either waits for (drive-navigation.js:138-150) or only starts (drive-navigation.js:162-168). */
  method StepLoad(d: Drive, trees: TreeServer, expands: ExpandServer, page: nat)
    requires d.Valid()
    modifies d`roots, d`totalK
    ensures d.Valid()
    ensures LoadsOf(d) == StepLoads(old(EnvOf(d)), trees, expands, d.currentPath, page, old(LoadsOf(d)))
    ensures AddsTo(old(LoadsOf(d)), LoadsOf(d), d.currentPath)
  {
    StepLoadsGrow(old(EnvOf(d)), trees, expands, d.currentPath, page, old(LoadsOf(d)));
    if |d.currentPath| == 0 {
      var _ := LoadNextPage(d, trees, page);
    } else {
      var _ := LoadMoreChildrenForCurrentNode(d, expands);
    }
  }

  /**
   * What the timer `animatePageTransition` sets loads when it fires
   * (drive-navigation.js:205-230), with the level kind and target page it
   * captured: at the root, the target page's depth and then the full depth
   * of the page after it; nothing deeper.
   */
  function SettleLoads(env: LoadEnv, expands: ExpandServer, atRoot: bool, toPage: nat, s: Loads): Loads {
    if atRoot then FullDepthLoads(env, expands, toPage + 1, PageDepthsLoads(env, expands, toPage, s)) else s
  }

  /**
   * The timer's loads only add to the tree and keep its root entries, leave
   * `totalK` and the loaded token pages alone, and mark at most the target
   * page and the one after it as depth-loaded.
   */
  lemma SettleLoadsGrow(env: LoadEnv, expands: ExpandServer, atRoot: bool, toPage: nat, s: Loads)
    ensures var r := SettleLoads(env, expands, atRoot, toPage, s);
      && LoadsGrow(s, r) && SameRoots(s.roots, r.roots)
      && r.totalK == s.totalK && r.loadedPages == s.loadedPages
      && r.loadedPageDepths <= s.loadedPageDepths + {toPage, toPage + 1}
      && (!atRoot ==> r == s)
  {
    if atRoot {
      var s1 := PageDepthsLoads(env, expands, toPage, s);
      var r := FullDepthLoads(env, expands, toPage + 1, s1);
      PageDepthsLoadsGrow(env, expands, toPage, s);
      FullDepthGrows(env, expands, toPage + 1, s1);
      LoadsGrowTrans(s, s1, r);
    } else {
      LoadsGrowRefl(s);
    }
  }

  /**
   * The timer of `animatePageTransition` firing, as its own event: a later
   * page turn before it fires cancels it, and then this event does not
   * happen.
   */
  method SettlePageTransition(d: Drive, expands: ExpandServer, atRoot: bool, toPage: nat)
    requires d.Valid()
    modifies d`roots, d`loadedPageDepths, d`loadingPageDepths, d`loadingTokenChildren
    ensures d.Valid() && d.loadingPageDepths == old(d.loadingPageDepths)
    ensures LoadsOf(d) == SettleLoads(old(EnvOf(d)), expands, atRoot, toPage, old(LoadsOf(d)))
  {
    if atRoot {
      ghost var env := EnvOf(d);
      var _ := LoadPageDepths(d, expands, toPage);
      assert EnvOf(d) == env;
      PreloadPageFullDepth(d, expands, toPage + 1);
    }
  }

  /** `selectAndAdvance`: one level down into the selected token's children when it has some. */
  method SelectAndAdvance(d: Drive)
    requires d.Valid()
    modifies d`currentPath, d`currentIndex, d`currentPage
    ensures d.Valid()
    ensures CursorOf(d) == Advance(old(CursorOf(d)), Follow(d.roots, Indices(old(d.currentPath))))
  {
    var currentNodes := GetCurrentNodes(d);
    if |currentNodes| == 0 {
      return;
    }
    if d.currentIndex >= |currentNodes| {
      return;
    }
    if currentNodes[d.currentIndex].None? {
      // `selected.children` of a hole throws, and the handler stops
      return;
    }
    var selected := currentNodes[d.currentIndex].value;
    if selected.children.Absent? || |selected.children.list| == 0 {
      return;
    }
    d.currentPath := d.currentPath + [Selection(d.currentIndex, selected.tokenStr, selected.probability, selected.tokenId)];
    d.currentIndex := 0;
    d.currentPage := 0;
  }

  /** `goBack`: pop the last selection and return to its index and page. */
  method GoBack(d: Drive)
    requires d.Valid()
    modifies d`currentPath, d`currentIndex, d`currentPage
    ensures d.Valid()
    ensures CursorOf(d) == Back(old(CursorOf(d)), d.initialK)
  {
    if |d.currentPath| == 0 {
      return;
    }
    var last := d.currentPath[|d.currentPath| - 1];
    d.currentPath := d.currentPath[..|d.currentPath| - 1];
    d.currentIndex := last.index;
    d.currentPage := PageOf(d.currentIndex, d.initialK);
  }
}
