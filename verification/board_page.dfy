/**
 * The board page controller, taken out of its UI framework: it holds the displayed
 * board and view ids and the committed board tree, keeps the change listener scoped to
 * the displayed board, pushes the ids into the browser history, and turns the undo and
 * redo chords into calls on the mutation history.
 *
 * `PageState` is a snapshot of everything the page changes; each operation is a step
 * function on snapshots, and the `BoardPage` class performs the same steps on its
 * fields and on its listener object. Every call into the store is one atomic step
 * whose answer (`Remote`) is a parameter.
 */
module Page {
  import opened Optional
  import opened UriCodec
  import opened UndoRedo
  import opened BoardTrees
  import opened Listener

  /** A bounding rectangle, in whole pixels. */
  datatype Rect = Rect(left: int, top: int, right: int, bottom: int)

  /**
   * What the store answers to one sync: the workspace's board listing, and the board
   * tree's load (`None` when that load is rejected).
   */
  datatype Remote = Remote(listing: seq<string>, fetched: Option<Fetched>)

  datatype PageState = PageState(
    boardId: Option<string>,
    viewId: Option<string>,
    workspace: seq<string>,       // the board listing of the workspace tree
    boardTree: Option<BoardTree>,
    filterAnchor: Option<Rect>,
    history: seq<string>,         // queries pushed onto the browser history
    keyHandlerAttached: bool,     // the `keydown` handler is registered on the document
    listenerOpen: bool,
    scope: set<string>,
    mutatorCalls: seq<Command>,   // undo and redo calls made on the mutation history
    flashes: seq<string>,         // flash messages shown
    renders: nat)                 // re-renders requested through setState or forceUpdate

  /** A committed board tree always belongs to the displayed board id. */
  ghost predicate Inv(p: PageState) {
    p.boardTree.Some? ==> p.boardId == Some(p.boardTree.value.boardId)
  }

  /** While the listener is open, it watches exactly the displayed board. */
  ghost predicate WatchesDisplayedBoard(p: PageState) {
    p.listenerOpen ==> p.scope == IdSet(p.boardId)
  }

  function IdSet(id: Option<string>): set<string> {
    if id.Some? then {id.value} else {}
  }

  /** The page as constructed, with the ids read from the address bar. */
  function Initial(boardId: Option<string>, viewId: Option<string>): PageState {
    PageState(boardId, viewId, [], None, None, [], false, false, {}, [], [], 0)
  }

  // ---------------------------------------------------------------------------
  // Steps

  /**
   * `sync(boardId = state.boardId, viewId = state.viewId)`: refresh the workspace
   * listing, then with a board id commit a new board tree together with the board id
   * and the active view's id; without one only re-render. Nothing else changes.
   */
  function SyncStep(p: PageState, boardArg: Option<string>, viewArg: Option<string>, remote: Remote): (r: PageState)
    requires Inv(p)
    ensures Inv(r)
    ensures r == p.(workspace := remote.listing, boardId := r.boardId, viewId := r.viewId,
                    boardTree := r.boardTree, renders := r.renders)
  {
    var b := OrDefault(boardArg, p.boardId);
    var v := OrDefault(viewArg, p.viewId);
    var q := p.(workspace := remote.listing);
    match SyncBoard(b, v, remote.fetched)
    case NoBoard => q.(renders := q.renders + 1)
    case Failed(_) => q
    case Committed(t) =>
      q.(boardTree := Some(t), boardId := b, viewId := Some(t.activeView.value.id), renders := q.renders + 1)
  }

  /**
   * `attachToBoard(boardId, viewId)`: open the listener on the board, or move an open
   * one from the displayed board to it, then sync that board.
   */
  function AttachStep(p: PageState, boardId: string, viewArg: Option<string>, remote: Remote): (r: PageState)
    requires Inv(p)
    ensures Inv(r)
    ensures r.listenerOpen && boardId in r.scope
    ensures r.scope == (if p.listenerOpen then p.scope - IdSet(p.boardId) else {}) + {boardId}
    ensures r.history == p.history && r.keyHandlerAttached == p.keyHandlerAttached
  {
    var q := if !p.listenerOpen then p.(listenerOpen := true, scope := {boardId})
             else p.(scope := p.scope - IdSet(p.boardId) + {boardId});
    SyncStep(q, Some(boardId), viewArg, remote)
  }

  /** `showBoard(boardId)`: nothing when that board is displayed, else push `?id=` and attach. */
  function ShowBoardStep(p: PageState, boardId: string, remote: Remote): (r: PageState)
    requires Inv(p)
    ensures Inv(r)
  {
    if p.boardTree.Some? && p.boardTree.value.board == Some(boardId) then p
    else AttachStep(p.(history := p.history + [BoardQuery(boardId)]), boardId, None, remote)
  }

  /**
   * `showView(viewId, boardId = state.boardId)`: on another board attach to it with
   * that view; on the displayed board make the view active in the committed tree and
   * take its id. Either way push `?id=…&v=…`. On the displayed board with no committed
   * tree, the call throws before changing anything.
   */
  function ShowViewStep(p: PageState, viewId: string, boardArg: Option<string>, remote: Remote): (r: PageState)
    requires Inv(p)
    ensures Inv(r)
  {
    var b := OrDefault(boardArg, p.boardId);
    if p.boardId != b then
      var a := AttachStep(p, b.value, Some(viewId), remote);
      a.(history := a.history + [ViewQuery(b.value, viewId)])
    else if p.boardTree.None? then p
    else
      p.(boardTree := Some(SetActiveView(p.boardTree.value, viewId)), viewId := Some(viewId),
         renders := p.renders + 1, history := p.history + [ViewQuery(b.value, viewId)])
  }

  /** The listener's change callback: a plain `sync()`. */
  function OnChangeStep(p: PageState, remote: Remote): (r: PageState)
    requires Inv(p)
    ensures Inv(r)
  {
    SyncStep(p, None, None, remote)
  }

  /** `componentDidMount`: register the key handler, then attach to the board if there is one, else sync. */
  function MountStep(p: PageState, remote: Remote): (r: PageState)
    requires Inv(p)
    ensures Inv(r)
  {
    var q := p.(keyHandlerAttached := true);
    if Truthy(p.boardId) then AttachStep(q, p.boardId.value, p.viewId, remote)
    else SyncStep(q, None, None, remote)
  }

  /** `componentWillUnmount`: close the listener and remove the key handler. */
  function UnmountStep(p: PageState): (r: PageState)
    ensures !r.listenerOpen && !r.keyHandlerAttached
    ensures r.boardId == p.boardId && r.viewId == p.viewId && r.boardTree == p.boardTree
    ensures r.history == p.history && r.renders == p.renders
  {
    p.(listenerOpen := false, keyHandlerAttached := false)
  }

  /**
   * A `keydown` event reaching the document. The handler runs only while registered;
   * on a chord it reads the description, asks the mutation history to act, then shows
   * the flash message.
   */
  function KeyDownStep(p: PageState, e: KeyEvent, undoDescription: Option<string>,
                       redoDescription: Option<string>): (r: PageState)
    ensures r.(mutatorCalls := p.mutatorCalls, flashes := p.flashes) == p
    ensures |r.mutatorCalls| == |r.flashes| - |p.flashes| + |p.mutatorCalls|
    ensures r.mutatorCalls == p.mutatorCalls || |r.mutatorCalls| == |p.mutatorCalls| + 1
    ensures r.mutatorCalls[..|p.mutatorCalls|] == p.mutatorCalls && r.flashes[..|p.flashes|] == p.flashes
  {
    if !p.keyHandlerAttached then p
    else match Classify(e)
      case None => p
      case Some(c) =>
        var description := if c == Undo then undoDescription else redoDescription;
        p.(mutatorCalls := p.mutatorCalls + [c], flashes := p.flashes + [FlashText(c, description)])
  }

  /** `showFilter(anchor)`: remember the anchor (or forget it) and re-render. */
  function ShowFilterStep(p: PageState, anchor: Option<Rect>): (r: PageState)
    ensures r.filterAnchor == anchor && r.renders == p.renders + 1
    ensures r.(filterAnchor := p.filterAnchor, renders := p.renders) == p
  {
    p.(filterAnchor := anchor, renders := p.renders + 1)
  }

  /** `setSearchText(text)`: hand the text to the committed tree, if any, and re-render regardless. */
  function SetSearchTextStep(p: PageState, text: Option<string>): (r: PageState)
    requires Inv(p)
    ensures Inv(r)
  {
    var tree := if p.boardTree.Some? then Some(p.boardTree.value.(searchText := text)) else None;
    p.(boardTree := tree, renders := p.renders + 1)
  }

  /**
   * Where the filter popup goes: at the anchor's bottom-left, relative to the body, but
   * never further right than the body's right edge less the popup's 420 pixels and a
   * 100-pixel margin.
   */
  function FilterPosition(body: Rect, anchor: Rect): (pos: (int, int))
    ensures pos.0 <= body.right - 520 && pos.0 <= anchor.left - body.left
    ensures pos.0 == body.right - 520 || pos.0 == anchor.left - body.left
    ensures pos.1 == anchor.bottom - body.top
  {
    var maxX := body.right - 420 - 100;
    var pageX := if maxX < anchor.left - body.left then maxX else anchor.left - body.left;
    (pageX, anchor.bottom - body.top)
  }

  // ---------------------------------------------------------------------------
  // Properties of the steps

  /**
   * A sync commits the board id it was given and the active view's id with the new
   * tree, or else leaves the board, view and tree as they were.
   */
  lemma SyncCommitsActiveView(p: PageState, boardArg: Option<string>, viewArg: Option<string>, remote: Remote)
    requires Inv(p)
    ensures var r := SyncStep(p, boardArg, viewArg, remote);
            var b := OrDefault(boardArg, p.boardId);
            var outcome := SyncBoard(b, OrDefault(viewArg, p.viewId), remote.fetched);
            (outcome.Committed? ==>
               r.boardId == b && r.boardTree == Some(outcome.tree) &&
               r.viewId == Some(outcome.tree.activeView.value.id)) &&
            (!outcome.Committed? ==>
               r.boardId == p.boardId && r.viewId == p.viewId && r.boardTree == p.boardTree) &&
            (!Truthy(b) ==> r.renders == p.renders + 1)
  {
  }

  /** Attaching leaves the listener open on exactly the new board when it watched the displayed one. */
  lemma AttachRescopesListener(p: PageState, boardId: string, viewArg: Option<string>, remote: Remote)
    requires Inv(p)
    requires WatchesDisplayedBoard(p)
    ensures AttachStep(p, boardId, viewArg, remote).scope == {boardId}
  {
  }

  /** When the sync behind an attach commits, the listener watches exactly the displayed board again. */
  lemma CommittedAttachWatchesDisplayedBoard(p: PageState, boardId: string, viewArg: Option<string>, remote: Remote)
    requires Inv(p) && WatchesDisplayedBoard(p)
    requires SyncBoard(Some(boardId), OrDefault(viewArg, p.viewId), remote.fetched).Committed?
    ensures var r := AttachStep(p, boardId, viewArg, remote);
            WatchesDisplayedBoard(r) && r.boardId == Some(boardId) && r.listenerOpen
  {
  }

  /**
   * When the sync behind an attach to another board fails, the displayed board id stays
   * as it was but the listener has already been moved off it: changes to the board on
   * screen are no longer notified.
   */
  lemma FailedAttachUnwatchesDisplayedBoard(p: PageState, boardId: string, viewArg: Option<string>, remote: Remote)
    requires Inv(p) && WatchesDisplayedBoard(p) && p.listenerOpen
    requires p.boardId.Some? && p.boardId.value != boardId
    requires SyncBoard(Some(boardId), OrDefault(viewArg, p.viewId), remote.fetched).Failed?
    ensures var r := AttachStep(p, boardId, viewArg, remote);
            r.boardId == p.boardId && r.boardTree == p.boardTree &&
            p.boardId.value !in r.scope && !WatchesDisplayedBoard(r)
  {
  }

  /** Showing another board that has no views, with no view id to carry over, is enough to make that happen. */
  lemma EmptyBoardUnwatchesDisplayedBoard(p: PageState, boardId: string, remote: Remote)
    requires Inv(p) && WatchesDisplayedBoard(p) && p.listenerOpen
    requires p.boardId.Some? && p.boardId.value != boardId && boardId != ""
    requires !(p.boardTree.Some? && p.boardTree.value.board == Some(boardId))
    requires !Truthy(p.viewId) && remote.fetched.Some? && remote.fetched.value.views == []
    ensures var r := ShowBoardStep(p, boardId, remote);
            r.boardId == p.boardId && !WatchesDisplayedBoard(r)
  {
    var q := p.(history := p.history + [BoardQuery(boardId)]);
    SyncOfEmptyBoardFails(Some(boardId), OrDefault(None, q.viewId), remote.fetched.value);
    FailedAttachUnwatchesDisplayedBoard(q, boardId, None, remote);
  }

  /** `showBoard` of the board on screen does nothing: no history entry, no attach. */
  lemma ShowBoardOfDisplayedBoardIsNoop(p: PageState, boardId: string, remote: Remote)
    requires Inv(p)
    requires p.boardTree.Some? && p.boardTree.value.board == Some(boardId)
    ensures ShowBoardStep(p, boardId, remote) == p
  {
  }

  /** Otherwise `showBoard` pushes exactly one `?id=` entry and attaches to the board. */
  lemma ShowBoardPushesBoardQuery(p: PageState, boardId: string, remote: Remote)
    requires Inv(p)
    requires !(p.boardTree.Some? && p.boardTree.value.board == Some(boardId))
    ensures var r := ShowBoardStep(p, boardId, remote);
            r.history == p.history + [BoardQuery(boardId)] &&
            QueryParam(r.history[|r.history| - 1], "v") == None &&
            r.listenerOpen && boardId in r.scope
  {
  }

  /**
   * `showBoard` asks the new board for the view id of the board it leaves: when the new
   * board has a view of that id, that view is the one displayed.
   */
  lemma ShowBoardKeepsViewId(p: PageState, boardId: string, remote: Remote, k: nat)
    requires Inv(p)
    requires !(p.boardTree.Some? && p.boardTree.value.board == Some(boardId))
    requires boardId != "" && Truthy(p.viewId)
    requires remote.fetched.Some?
    requires k < |remote.fetched.value.views| && remote.fetched.value.views[k].id == p.viewId.value
    requires forall j :: 0 <= j < k ==> remote.fetched.value.views[j].id != p.viewId.value
    ensures var r := ShowBoardStep(p, boardId, remote);
            r.boardId == Some(boardId) && r.viewId == p.viewId
  {
    SyncSelectsRequestedView(Some(boardId), p.viewId, remote.fetched.value, k);
  }

  /** Going from board A to B and back to A leaves the listener on A alone, not on both. */
  lemma SwitchingBackRestoresScope(p: PageState, a: string, b: string, remoteB: Remote, remoteA: Remote)
    requires Inv(p) && WatchesDisplayedBoard(p) && p.boardId == Some(a)
    requires SyncBoard(Some(b), p.viewId, remoteB.fetched).Committed?
    ensures var r := AttachStep(AttachStep(p, b, None, remoteB), a, None, remoteA);
            r.listenerOpen && r.scope == {a}
  {
    CommittedAttachWatchesDisplayedBoard(p, b, None, remoteB);
  }

  /**
   * When the sync of B fails, going from A to B and back to A leaves the listener on
   * both boards: the removal at the second attach takes out A, the id still displayed,
   * rather than B.
   */
  lemma FailedSwitchBackWatchesBoth(p: PageState, a: string, b: string, remoteB: Remote, remoteA: Remote)
    requires Inv(p) && WatchesDisplayedBoard(p) && p.boardId == Some(a) && p.listenerOpen
    requires a != b
    requires SyncBoard(Some(b), p.viewId, remoteB.fetched).Failed?
    ensures var r := AttachStep(AttachStep(p, b, None, remoteB), a, None, remoteA);
            r.listenerOpen && r.scope == {a, b}
  {
    var q := AttachStep(p, b, None, remoteB);
    FailedAttachUnwatchesDisplayedBoard(p, b, None, remoteB);
    assert q.scope == {b} && q.boardId == Some(a);
  }

  /**
   * `showView` on the displayed board makes the view active, takes its id, leaves the
   * listener alone and pushes one `?id=…&v=…` entry that reads back as both ids.
   */
  lemma ShowViewOnDisplayedBoard(p: PageState, viewId: string, boardArg: Option<string>, remote: Remote)
    requires Inv(p)
    requires OrDefault(boardArg, p.boardId) == p.boardId && p.boardTree.Some?
    ensures var r := ShowViewStep(p, viewId, boardArg, remote);
            r.viewId == Some(viewId) && r.boardId == p.boardId &&
            r.boardTree == Some(SetActiveView(p.boardTree.value, viewId)) &&
            r.listenerOpen == p.listenerOpen && r.scope == p.scope &&
            r.history == p.history + [ViewQuery(p.boardTree.value.boardId, viewId)] &&
            QueryParam(r.history[|r.history| - 1], "id") == p.boardId &&
            QueryParam(r.history[|r.history| - 1], "v") == Some(viewId)
  {
  }

  /** `showView` on another board attaches to it with that view and pushes one entry naming both. */
  lemma ShowViewOnOtherBoard(p: PageState, viewId: string, boardId: string, remote: Remote)
    requires Inv(p)
    requires p.boardId != Some(boardId)
    ensures var r := ShowViewStep(p, viewId, Some(boardId), remote);
            r == AttachStep(p, boardId, Some(viewId), remote).(history := p.history + [ViewQuery(boardId, viewId)]) &&
            r.listenerOpen && boardId in r.scope &&
            QueryParam(r.history[|r.history| - 1], "id") == Some(boardId) &&
            QueryParam(r.history[|r.history| - 1], "v") == Some(viewId)
  {
  }

  /** `showView` on the displayed board before any tree is committed throws and changes nothing. */
  lemma ShowViewWithoutTreeIsNoop(p: PageState, viewId: string, boardArg: Option<string>, remote: Remote)
    requires Inv(p)
    requires OrDefault(boardArg, p.boardId) == p.boardId && p.boardTree.None?
    ensures ShowViewStep(p, viewId, boardArg, remote) == p
  {
  }

  /**
   * A page constructed from the address `showBoard` or `showView` pushed holds the ids
   * that address was made from.
   */
  lemma ReloadRestoresShownIds(boardId: string, viewId: string)
    ensures var q := BoardQuery(boardId);
            Initial(QueryParam(q, "id"), QueryParam(q, "v")) == Initial(Some(boardId), None)
    ensures var q := ViewQuery(boardId, viewId);
            Initial(QueryParam(q, "id"), QueryParam(q, "v")) == Initial(Some(boardId), Some(viewId))
  {
  }

  /**
   * Mounting registers the key handler. With a board id from the address bar it opens
   * the listener on that board alone and syncs it with the view id from the address:
   * the board and its active view are committed when the load succeeds, and otherwise
   * the ids stay as read with no tree. Without a board id the listener stays closed and
   * the sync only refreshes the listing and re-renders.
   */
  lemma MountAttachesOnlyWithBoard(boardId: Option<string>, viewId: Option<string>, remote: Remote)
    ensures var r := MountStep(Initial(boardId, viewId), remote);
            var o := SyncBoard(boardId, viewId, remote.fetched);
            r.keyHandlerAttached && r.workspace == remote.listing && r.history == [] &&
            (r.listenerOpen <==> Truthy(boardId)) &&
            (Truthy(boardId) ==>
               r.scope == {boardId.value} && r.boardId == boardId &&
               (o.Committed? ==> r.boardTree == Some(o.tree) && r.viewId == Some(o.tree.activeView.value.id) &&
                                 r.renders == 1) &&
               (!o.Committed? ==> r.boardTree == None && r.viewId == viewId && r.renders == 0)) &&
            (!Truthy(boardId) ==>
               r.boardTree == None && r.scope == {} && r.boardId == boardId && r.viewId == viewId &&
               r.renders == 1)
  {
  }

  /**
   * When the load of the tree is rejected, an attach to another board commits nothing and
   * re-renders nothing, yet the listener has already left the displayed board.
   */
  lemma RejectedLoadUnwatchesDisplayedBoard(p: PageState, boardId: string, viewArg: Option<string>, remote: Remote)
    requires Inv(p) && WatchesDisplayedBoard(p) && p.listenerOpen
    requires p.boardId.Some? && p.boardId.value != boardId && boardId != ""
    requires remote.fetched.None?
    ensures var r := AttachStep(p, boardId, viewArg, remote);
            r == p.(workspace := remote.listing, scope := {boardId}) && !WatchesDisplayedBoard(r)
  {
    FailedAttachUnwatchesDisplayedBoard(p, boardId, viewArg, remote);
  }

  /** Unmounting closes the listener and removes the key handler, and changes nothing else. */
  lemma UnmountTearsDown(p: PageState)
    ensures var r := UnmountStep(p);
            !r.listenerOpen && !r.keyHandlerAttached &&
            r == p.(listenerOpen := false, keyHandlerAttached := false)
  {
  }

  /** Once unmounted, key events have no effect. */
  lemma KeysIgnoredAfterUnmount(p: PageState, e: KeyEvent, undoDescription: Option<string>,
                                redoDescription: Option<string>)
    ensures KeyDownStep(UnmountStep(p), e, undoDescription, redoDescription) == UnmountStep(p)
  {
  }

  /**
   * A registered handler makes exactly one undo or redo call for a chord and appends
   * exactly one flash message, built from the description read before the call; ids,
   * tree, history and listener stay as they were, since the mediator neither touches
   * the tree nor re-syncs. Anything that is not a chord changes nothing.
   */
  lemma KeyDownMediatesChord(p: PageState, e: KeyEvent, undoDescription: Option<string>,
                             redoDescription: Option<string>)
    requires p.keyHandlerAttached
    ensures var r := KeyDownStep(p, e, undoDescription, redoDescription);
            r.(mutatorCalls := p.mutatorCalls, flashes := p.flashes) == p &&
            (Classify(e) == Some(Undo) ==>
               r.mutatorCalls == p.mutatorCalls + [Undo] &&
               exists m :: r.flashes == p.flashes + [m] && ParseFlash(m) == Some((Undo, Described(undoDescription)))) &&
            (Classify(e) == Some(Redo) ==>
               r.mutatorCalls == p.mutatorCalls + [Redo] &&
               exists m :: r.flashes == p.flashes + [m] && ParseFlash(m) == Some((Redo, Described(redoDescription)))) &&
            (!e.targetIsBody || !PrimaryZ(e) ==> r == p)
  {
    FlashTextRoundTrip(Undo, undoDescription);
    FlashTextRoundTrip(Redo, redoDescription);
    var r := KeyDownStep(p, e, undoDescription, redoDescription);
    if Classify(e) == Some(Undo) {
      assert r.flashes == p.flashes + [FlashText(Undo, undoDescription)];
    } else if Classify(e) == Some(Redo) {
      assert r.flashes == p.flashes + [FlashText(Redo, redoDescription)];
    }
  }

  /** Closing the popup after opening it forgets the anchor; each call re-renders once. */
  lemma FilterOpenThenClose(p: PageState, anchor: Rect)
    ensures var r := ShowFilterStep(ShowFilterStep(p, Some(anchor)), None);
            r.filterAnchor == None && r.renders == p.renders + 2 &&
            r.(filterAnchor := p.filterAnchor, renders := p.renders) == p
  {
  }

  /** Setting the search text re-renders every time, even with the text unchanged. */
  lemma SearchTextAlwaysRerenders(p: PageState, text: Option<string>)
    requires Inv(p)
    ensures var r := SetSearchTextStep(SetSearchTextStep(p, text), text);
            r.renders == p.renders + 2 && r.boardId == p.boardId &&
            (p.boardTree.Some? ==> r.boardTree.value.searchText == text)
  {
  }

  // ---------------------------------------------------------------------------
  // The controller object

  class BoardPage {
    var boardId: Option<string>
    var viewId: Option<string>
    var workspace: seq<string>
    var boardTree: Option<BoardTree>
    var filterAnchor: Option<Rect>
    var history: seq<string>
    var keyHandlerAttached: bool
    var mutatorCalls: seq<Command>
    var flashes: seq<string>
    var renders: nat
    const listener: BoardListener

    ghost function State(): PageState
      reads this, listener
    {
      PageState(boardId, viewId, workspace, boardTree, filterAnchor, history, keyHandlerAttached,
                listener.isOpen, listener.scope, mutatorCalls, flashes, renders)
    }

    ghost predicate Valid()
      reads this, listener
    {
      Inv(State())
    }

    /** The page as constructed from the `id` and `v` parameters of the address bar. */
    constructor (boardId: Option<string>, viewId: Option<string>)
      ensures Valid() && fresh(listener)
      ensures State() == Initial(boardId, viewId)
    {
      this.boardId := boardId;
      this.viewId := viewId;
      workspace := [];
      boardTree := None;
      filterAnchor := None;
      history := [];
      keyHandlerAttached := false;
      mutatorCalls := [];
      flashes := [];
      renders := 0;
      listener := new BoardListener();
    }

    method Sync(boardArg: Option<string>, viewArg: Option<string>, remote: Remote)
      requires Valid()
      modifies this
      ensures Valid()
      ensures State() == SyncStep(old(State()), boardArg, viewArg, remote)
    {
      var b := OrDefault(boardArg, boardId);
      var v := OrDefault(viewArg, viewId);
      workspace := remote.listing;
      match SyncBoard(b, v, remote.fetched)
      case NoBoard =>
        renders := renders + 1;
      case Failed(_) =>
      case Committed(t) =>
        boardTree := Some(t);
        boardId := b;
        viewId := Some(t.activeView.value.id);
        renders := renders + 1;
    }

    method AttachToBoard(board: string, viewArg: Option<string>, remote: Remote)
      requires Valid()
      modifies this, listener
      ensures Valid()
      ensures State() == AttachStep(old(State()), board, viewArg, remote)
    {
      if !listener.isOpen {
        listener.Open({board});
      } else {
        listener.RemoveBlocks(IdSet(boardId));
        listener.AddBlocks({board});
      }
      Sync(Some(board), viewArg, remote);
    }

    method ShowBoard(board: string, remote: Remote)
      requires Valid()
      modifies this, listener
      ensures Valid()
      ensures State() == ShowBoardStep(old(State()), board, remote)
    {
      if boardTree.Some? && boardTree.value.board == Some(board) {
        return;
      }
      history := history + [BoardQuery(board)];
      AttachToBoard(board, None, remote);
    }

    method ShowView(view: string, boardArg: Option<string>, remote: Remote)
      requires Valid()
      modifies this, listener
      ensures Valid()
      ensures State() == ShowViewStep(old(State()), view, boardArg, remote)
    {
      var b := OrDefault(boardArg, boardId);
      if boardId != b {
        AttachToBoard(b.value, Some(view), remote);
      } else if boardTree.None? {
        return;
      } else {
        boardTree := Some(SetActiveView(boardTree.value, view));
        viewId := Some(view);
        renders := renders + 1;
      }
      history := history + [ViewQuery(b.value, view)];
    }

    /** The listener reporting a changed block. */
    method OnChange(remote: Remote)
      requires Valid()
      modifies this
      ensures Valid()
      ensures State() == OnChangeStep(old(State()), remote)
    {
      Sync(None, None, remote);
    }

    method Mount(remote: Remote)
      requires Valid()
      modifies this, listener
      ensures Valid()
      ensures State() == MountStep(old(State()), remote)
    {
      keyHandlerAttached := true;
      if Truthy(boardId) {
        AttachToBoard(boardId.value, viewId, remote);
      } else {
        Sync(None, None, remote);
      }
    }

    method Unmount()
      requires Valid()
      modifies this, listener
      ensures Valid()
      ensures State() == UnmountStep(old(State()))
    {
      listener.Close();
      keyHandlerAttached := false;
    }

    /** A `keydown` event dispatched on the document, with the descriptions the mutation history gives now. */
    method KeyDown(e: KeyEvent, undoDescription: Option<string>, redoDescription: Option<string>)
      requires Valid()
      modifies this
      ensures Valid()
      ensures State() == KeyDownStep(old(State()), e, undoDescription, redoDescription)
    {
      if !keyHandlerAttached {
        return;
      }
      var command := Classify(e);
      if command == Some(Undo) {
        var description := undoDescription;
        mutatorCalls := mutatorCalls + [Undo];
        flashes := flashes + [FlashText(Undo, description)];
      } else if command == Some(Redo) {
        var description := redoDescription;
        mutatorCalls := mutatorCalls + [Redo];
        flashes := flashes + [FlashText(Redo, description)];
      }
    }

    method ShowFilter(anchor: Option<Rect>)
      requires Valid()
      modifies this
      ensures Valid()
      ensures State() == ShowFilterStep(old(State()), anchor)
    {
      filterAnchor := anchor;
      renders := renders + 1;
    }

    method SetSearchText(text: Option<string>)
      requires Valid()
      modifies this
      ensures Valid()
      ensures State() == SetSearchTextStep(old(State()), text)
    {
      if boardTree.Some? {
        boardTree := Some(boardTree.value.(searchText := text));
      }
      renders := renders + 1;
    }
  }
}
