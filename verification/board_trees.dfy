/**
 * The board tree the page commits on every sync: the board's views, the view made
 * active, and the rule that picks it.
 */
module BoardTrees {
  import opened Optional

  datatype View = View(id: string, title: string)

  /**
   * What a freshly created board tree holds once it has loaded from the store: the id
   * of the board record it found (if any), the board's views in order, and the view
   * its `setActiveView` leaves active when asked for an id none of the views has
   * (`None`: no view is active then). The board tree's own code is not part of this
   * model, so that last choice is left to the tree rather than fixed here.
   */
  datatype Fetched = Fetched(board: Option<string>, views: seq<View>, unknownView: Option<View>)

  datatype BoardTree = BoardTree(
    boardId: string,            // the id the tree was created for
    board: Option<string>,      // id of the board record it loaded
    views: seq<View>,
    unknownView: Option<View>,
    activeView: Option<View>,
    searchText: Option<string>)

  /** A board tree just created for `boardId` and loaded. */
  function NewTree(boardId: string, f: Fetched): (t: BoardTree)
    ensures t.boardId == boardId && t.views == f.views && t.board == f.board
    ensures t.activeView.None? && t.searchText.None?
  {
    BoardTree(boardId, f.board, f.views, f.unknownView, None, None)
  }

  /** Position of the first view with the given id, as `Array.prototype.find` scans. */
  function FindView(views: seq<View>, id: string): (r: Option<nat>)
    ensures r.Some? ==> r.value < |views| && views[r.value].id == id
    ensures r.Some? ==> forall j :: 0 <= j < r.value ==> views[j].id != id
    ensures r.None? ==> forall j :: 0 <= j < |views| ==> views[j].id != id
  {
    if views == [] then None
    else if views[0].id == id then Some(0)
    else match FindView(views[1..], id)
      case None => None
      case Some(k) => Some(k + 1)
  }

  /** The board tree's `setActiveView`: the first view with that id, else the tree's own choice. */
  function SetActiveView(t: BoardTree, id: string): (r: BoardTree)
    ensures r == t.(activeView := r.activeView)
    ensures forall k ::
              (0 <= k < |t.views| && t.views[k].id == id && forall j :: 0 <= j < k ==> t.views[j].id != id)
              ==> r.activeView == Some(t.views[k])
    ensures (forall k :: 0 <= k < |t.views| ==> t.views[k].id != id) ==> r.activeView == t.unknownView
  {
    match FindView(t.views, id)
    case Some(k) => t.(activeView := Some(t.views[k]))
    case None => t.(activeView := t.unknownView)
  }

  datatype SyncError =
    | LoadFailed    // the tree's load was rejected
    | NoViews       // no view id was asked for and the board has no view to default to
    | NoActiveView  // the tree ended up with no active view, whose id the commit reads

  datatype SyncOutcome = NoBoard | Committed(tree: BoardTree) | Failed(error: SyncError)

  /**
   * The board part of the page's `sync`: with a (truthy) board id, load a new tree,
   * default a missing view id to the first view's, make that view active, and hand the
   * tree over for commit. `load` is what the tree's load gives, `None` when it is
   * rejected. A rejected load, reading `views[0].id` of a board without views, or the
   * id of an active view that is not there, throws: the sync then commits nothing.
   */
  function SyncBoard(boardId: Option<string>, viewId: Option<string>, load: Option<Fetched>): (r: SyncOutcome)
    ensures r.NoBoard? <==> !Truthy(boardId)
    ensures Truthy(boardId) && load.None? ==> r == Failed(LoadFailed)
    ensures r.Committed? ==> load.Some? && r.tree.boardId == boardId.value && r.tree.activeView.Some?
    ensures r.Committed? ==> r.tree == NewTree(boardId.value, load.value).(activeView := r.tree.activeView)
  {
    if !Truthy(boardId) then NoBoard
    else if load.None? then Failed(LoadFailed)
    else
      var f := load.value;
      if !Truthy(viewId) && |f.views| == 0 then Failed(NoViews)
      else
        var requested := if Truthy(viewId) then viewId.value else f.views[0].id;
        var tree := SetActiveView(NewTree(boardId.value, f), requested);
        if tree.activeView.None? then Failed(NoActiveView) else Committed(tree)
  }

  /** Without a view id, the first view of the board becomes active. */
  lemma SyncDefaultsToFirstView(boardId: Option<string>, viewId: Option<string>, f: Fetched)
    requires Truthy(boardId) && !Truthy(viewId) && |f.views| > 0
    ensures SyncBoard(boardId, viewId, Some(f)) == Committed(NewTree(boardId.value, f).(activeView := Some(f.views[0])))
  {
  }

  /** A board without views and no view id asked for: nothing is committed. */
  lemma SyncOfEmptyBoardFails(boardId: Option<string>, viewId: Option<string>, f: Fetched)
    requires Truthy(boardId) && !Truthy(viewId) && f.views == []
    ensures SyncBoard(boardId, viewId, Some(f)) == Failed(NoViews)
  {
  }

  /** A view id that names a view of the board makes the first such view active. */
  lemma SyncSelectsRequestedView(boardId: Option<string>, viewId: Option<string>, f: Fetched, k: nat)
    requires Truthy(boardId) && Truthy(viewId)
    requires k < |f.views| && f.views[k].id == viewId.value
    requires forall j :: 0 <= j < k ==> f.views[j].id != viewId.value
    ensures SyncBoard(boardId, viewId, Some(f)) == Committed(NewTree(boardId.value, f).(activeView := Some(f.views[k])))
  {
  }

  /** A view id no view has leaves the choice to the tree; with none made, nothing is committed. */
  lemma SyncOfUnknownView(boardId: Option<string>, viewId: Option<string>, f: Fetched)
    requires Truthy(boardId) && Truthy(viewId)
    requires forall j :: 0 <= j < |f.views| ==> f.views[j].id != viewId.value
    ensures SyncBoard(boardId, viewId, Some(f))
         == if f.unknownView.None? then Failed(NoActiveView)
            else Committed(NewTree(boardId.value, f).(activeView := f.unknownView))
  {
  }
}
