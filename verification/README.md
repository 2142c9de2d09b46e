# Board page controller — a Dafny model

This project models the decision logic of focalboard's board page controller
(`webapp/src/pages/boardPage.tsx`), taken out of React. The page shows one board of a
workspace and one view of that board. It keeps four things in step:

- the displayed board and view ids;
- the board tree committed by the last sync;
- a change listener scoped to the displayed board;
- the browser history, which records the ids in the query string.

It also turns the undo and redo chords into calls on the shared mutation history and
shows a flash message for each.

Modules, one file each:

- `Optional` (`optional.dfy`): `Option` for `null`/`undefined`, and `Truthy`, which is
  JavaScript truthiness of a `string | null | undefined`. The page tests `boardId`,
  `viewId` and undo descriptions that way, so an empty string counts as absent.
- `UriCodec` (`uri_codec.dfy`): `encodeURIComponent` as UTF-8 percent-encoding, and its
  decoding as `URLSearchParams` does it. Also the two query strings the page pushes
  (`?id=…` and `?id=…&v=…`), and reading a parameter back. Each of the two queries
  promises that reading it back gives the ids it was made from; with
  `Page.ReloadRestoresShownIds`, a page constructed from the ids read out of a pushed
  address starts on the same board and view.
- `UndoRedo` (`undo_redo.dfy`): chord classification, the flash text, and a parser for
  flash messages that serves as the flash text's inverse.
- `BoardTrees` (`board_trees.dfy`): the board tree, `setActiveView`, and the board part
  of `sync`, which defaults the view id, picks the active view and decides whether
  anything is committed.
- `Listener` (`listener.dfy`): the change listener as the page sees it. It has an
  open flag and a scope of block ids, changed by `Open`, `RemoveBlocks`, `AddBlocks` and
  `Close`.
- `Page` (`board_page.dfy`): `PageState`, a snapshot of everything the page changes,
  with one step function per operation and the lemmas about them. It also holds the
  `BoardPage` class. Each method of that class does the step on its own fields and on
  its listener object, and ensures `State() == XStep(old(State()), …)`.

The store, the mutation history and the flash display are outside the model:

- Each sync's answer from the store is a parameter, `Remote`. It holds the workspace
  listing and what the new board tree loaded, or `None` when that load is rejected.
- The descriptions the mutation history gives are parameters.
- Calls to undo and redo are recorded in `mutatorCalls`.
- Flash messages are recorded in `flashes`.

Behaviour of the code worth knowing:

- **Unknown view id.** An unknown view id does not fall back to the first view. The
  page hands the id to the board tree's `setActiveView`, whose code is not part of this
  model. Each tree therefore carries `unknownView`: what its `setActiveView` leaves
  active for an id that none of its views has. If nothing is left active, reading
  `activeView.id` (line 199) throws and the sync commits nothing.
- **Board without views.** With no view id, line 189 reads `views[0].id`, which throws.
  The model makes this sync commit nothing (`Failed(NoViews)`) rather than requiring
  views to exist.
- **Listener scope.** The listener's scope equals the displayed board only while syncs
  succeed. `attachToBoard` moves the listener first and the board id is committed
  later by `sync`, so a failed sync leaves the board on screen unwatched
  (`FailedAttachUnwatchesDisplayedBoard`). A rejected load of the new tree (line 185)
  is enough (`RejectedLoadUnwatchesDisplayedBoard`), and so is a board without views
  (`EmptyBoardUnwatchesDisplayedBoard`). The
  next attach then removes the id still displayed rather than the board the listener
  was moved to: going from A to B and back to A with B's sync failing leaves the
  listener on both A and B (`FailedSwitchBackWatchesBoth`), where a committed switch
  leaves it on A alone (`SwitchingBackRestoresScope`).
- **View id carried by `showBoard`.** `showBoard(b)` calls `attachToBoard(b)`, whose
  `sync(b, undefined)` defaults the view id to the *previous* board's view id. The new
  board is then asked for that view (`ShowBoardKeepsViewId`).

## Model

| member | source | states |
|---|---|---|
| UriCodec.EncodeComponent | webapp/src/pages/boardPage.tsx:215 | the encoding of an id holds only unreserved characters and `%` escapes, so never `&` or `=` |
| UriCodec.DecodeEncode | webapp/src/pages/boardPage.tsx:229 | percent-decoding undoes `encodeURIComponent` for every id, so distinct ids give distinct queries |
| UriCodec.DecodeComponent | webapp/src/pages/boardPage.tsx:37-39 | a decoded value is never longer than its text, and text without `%` or `+` decodes to itself |
| UriCodec.QueryParam | webapp/src/pages/boardPage.tsx:37-39 | a parameter value read from a query is always shorter than the query |
| UriCodec.BoardQuery | webapp/src/pages/boardPage.tsx:215 | the `showBoard` query, read back as the constructor reads it, gives `id` = the board id and no `v` |
| UriCodec.ViewQuery | webapp/src/pages/boardPage.tsx:229 | the `showView` query, read back, gives `id` = the board id and `v` = the view id |
| UriCodec.BoardFieldsReadBack | webapp/src/pages/boardPage.tsx:37-39 | `?id=` followed by an encoded id reads back as that id, with no `v` |
| UriCodec.ViewFieldsReadBack | webapp/src/pages/boardPage.tsx:37-39 | `?id=…&v=…` with both ids encoded reads back as both ids |
| UriCodec.EncodeUnreserved | webapp/src/pages/boardPage.tsx:215 | `encodeURIComponent` leaves an id made only of unreserved characters unchanged |
| UriCodec.PlainIdsInQueries | webapp/src/pages/boardPage.tsx:215-229 | such ids appear in the pushed queries as they are: `BoardQuery("b1") == "?id=b1"` |
| UndoRedo.Classify | webapp/src/pages/boardPage.tsx:67-80 | an event acts iff its target is the body and it is Ctrl/Cmd+Z without Alt; it is then Redo iff Shift is down, else Undo; everything else is ignored |
| UndoRedo.ShiftTurnsUndoIntoRedo | webapp/src/pages/boardPage.tsx:71-80 | the same keys are the undo chord without Shift exactly when they are the redo chord with it |
| UndoRedo.CtrlAndMetaAgree | webapp/src/pages/boardPage.tsx:71-80 | Ctrl and Cmd select the same command |
| UndoRedo.FlashText | webapp/src/pages/boardPage.tsx:75-88 | the message starts with the command's name and is the name alone exactly when the description is missing or empty |
| UndoRedo.FlashTextRoundTrip | webapp/src/pages/boardPage.tsx:73-88 | a flash message reads back as its command and exactly the (non-empty) description given before acting |
| UndoRedo.ParseFlashSound | webapp/src/pages/boardPage.tsx:75-88 | every message that reads back as a command and description is the message shown for them |
| BoardTrees.NewTree | webapp/src/pages/boardPage.tsx:184-185 | a freshly loaded tree belongs to the board id it was created for, holds the loaded board record and views, and has no active view and no search text yet |
| BoardTrees.FindView | webapp/src/pages/boardPage.tsx:192 | the position found holds the first view with the id; none is found only when no view has it |
| BoardTrees.SetActiveView | webapp/src/pages/boardPage.tsx:192 | only the active view changes: it is the first view with the id, or the tree's own choice when no view has it |
| BoardTrees.SyncBoard | webapp/src/pages/boardPage.tsx:183-200 | there is no board outcome iff the board id is falsy; a rejected load (:185) fails; a committed tree is the loaded tree for that board id with an active view set |
| BoardTrees.SyncDefaultsToFirstView | webapp/src/pages/boardPage.tsx:187-192 | with no view id and at least one view, the first view becomes active |
| BoardTrees.SyncOfEmptyBoardFails | webapp/src/pages/boardPage.tsx:188-189 | with no view id and no views, nothing is committed |
| BoardTrees.SyncSelectsRequestedView | webapp/src/pages/boardPage.tsx:192-199 | a view id that some view has makes the first such view active |
| BoardTrees.SyncOfUnknownView | webapp/src/pages/boardPage.tsx:192-199 | a view id no view has commits the tree's own choice, or nothing when it makes none |
| Page.SyncStep | webapp/src/pages/boardPage.tsx:177-205 | a sync keeps the tree belonging to the displayed board id and changes only the workspace listing, the ids, the tree and the render count |
| Page.SyncCommitsActiveView | webapp/src/pages/boardPage.tsx:195-204 | a commit stores the given board id, the new tree and the active view's id; otherwise ids and tree are unchanged; with no board id the workspace listing is refreshed and a re-render requested, and nothing else changes |
| Page.AttachStep | webapp/src/pages/boardPage.tsx:161-175 | after attaching, the listener is open; its scope is `{b}` from closed, else the old scope less the displayed board id plus `b`; history and key handler are untouched |
| Page.AttachRescopesListener | webapp/src/pages/boardPage.tsx:164-172 | a closed listener opens on `{b}`; one watching the displayed board is moved to exactly `{b}` |
| Page.CommittedAttachWatchesDisplayedBoard | webapp/src/pages/boardPage.tsx:164-174 | when the sync commits, the listener again watches exactly the displayed board, which is now `b` |
| Page.FailedAttachUnwatchesDisplayedBoard | webapp/src/pages/boardPage.tsx:170-174 | when the sync fails, the displayed board and tree stay but the listener no longer watches that board |
| Page.EmptyBoardUnwatchesDisplayedBoard | webapp/src/pages/boardPage.tsx:208-218 | showing a board without views while no view id is set leaves the board on screen unwatched |
| Page.ShowBoardStep | webapp/src/pages/boardPage.tsx:208-219 | `showBoard` keeps the tree belonging to the displayed board id |
| Page.ShowBoardOfDisplayedBoardIsNoop | webapp/src/pages/boardPage.tsx:211-213 | `showBoard` of the board whose tree is displayed changes nothing: no history entry, no attach |
| Page.ShowBoardPushesBoardQuery | webapp/src/pages/boardPage.tsx:215-218 | otherwise exactly one entry `?id=enc(b)` is pushed, which reads back with no view id, and the listener watches `b` |
| Page.ShowBoardKeepsViewId | webapp/src/pages/boardPage.tsx:177 | the new board is asked for the previous view id, and when it has that view, that view stays displayed |
| Page.FailedSwitchBackWatchesBoth | webapp/src/pages/boardPage.tsx:170-174 | going A to B with B's sync failing and back to A leaves the listener on `{A, B}` |
| Page.SwitchingBackRestoresScope | webapp/src/pages/boardPage.tsx:170-171 | switching A to B (committed) and back to A leaves the listener on `{A}` alone |
| Page.ShowViewStep | webapp/src/pages/boardPage.tsx:221-231 | `showView` keeps the tree belonging to the displayed board id |
| Page.ShowViewOnDisplayedBoard | webapp/src/pages/boardPage.tsx:224-230 | on the displayed board the view is made active and `viewId` set, the listener is unchanged, and one `?id=…&v=…` entry is pushed that reads back as both ids |
| Page.ShowViewOnOtherBoard | webapp/src/pages/boardPage.tsx:222-230 | on another board it attaches there with that view and pushes one entry that reads back as both ids |
| Page.ShowViewWithoutTreeIsNoop | webapp/src/pages/boardPage.tsx:225 | on the displayed board with no committed tree the call throws and nothing changes, not even the history |
| Page.OnChangeStep | webapp/src/pages/boardPage.tsx:165-168 | a change notification re-syncs with the stored ids and keeps the tree belonging to the board id |
| Page.MountStep | webapp/src/pages/boardPage.tsx:92-99 | mounting keeps the tree belonging to the displayed board id |
| Page.ReloadRestoresShownIds | webapp/src/pages/boardPage.tsx:37-43 | a page constructed from the ids read out of a pushed `?id=` or `?id=…&v=…` address holds exactly those ids |
| Page.MountAttachesOnlyWithBoard | webapp/src/pages/boardPage.tsx:92-99 | mounting registers the key handler and opens the listener, on `{boardId}`, iff the address named a board; it then commits that board's tree and active view id (one render) when the load succeeds, and keeps the address's ids with no tree otherwise; without a board it commits no tree, refreshes the listing and renders once |
| Page.RejectedLoadUnwatchesDisplayedBoard | webapp/src/pages/boardPage.tsx:170-185 | a rejected load behind an attach to another board changes only the listing and the scope, which is then the new board alone, so the board on screen is unwatched |
| Page.UnmountTearsDown | webapp/src/pages/boardPage.tsx:101-105 | unmounting closes the listener, removes the key handler and changes nothing else |
| Page.UnmountStep | webapp/src/pages/boardPage.tsx:101-105 | after unmounting the listener is closed and the key handler removed, with ids, tree, history and render count as before |
| Page.KeysIgnoredAfterUnmount | webapp/src/pages/boardPage.tsx:104 | after unmounting, key events have no effect |
| Page.KeyDownStep | webapp/src/pages/boardPage.tsx:66-90 | a key event changes only the undo/redo calls and the flash messages, each grows by at most one entry and by the same amount, and earlier entries are kept |
| Page.KeyDownMediatesChord | webapp/src/pages/boardPage.tsx:66-90 | a chord makes exactly one undo or redo call and shows the message for the description read before it; other events change nothing |
| Page.ShowFilterStep | webapp/src/pages/boardPage.tsx:233-235 | `showFilter` sets the anchor as given, requests one re-render and changes nothing else |
| Page.FilterOpenThenClose | webapp/src/pages/boardPage.tsx:125-127 | closing the popup after opening it leaves no anchor, after two re-renders, with everything else unchanged |
| Page.SetSearchTextStep | webapp/src/pages/boardPage.tsx:237-240 | setting the search text keeps the tree belonging to the displayed board id |
| Page.SearchTextAlwaysRerenders | webapp/src/pages/boardPage.tsx:237-240 | setting the same search text twice re-renders twice and leaves the text on the tree |
| Page.FilterPosition | webapp/src/pages/boardPage.tsx:115-118 | the popup's x is the smaller of the anchor's left edge relative to the body and the body's right edge (as given) less 520; its y is the anchor's bottom relative to the body's top |
| Listener.BoardListener.constructor | webapp/src/pages/boardPage.tsx:33 | a new listener is closed and watches nothing |
| Listener.BoardListener.Open | webapp/src/pages/boardPage.tsx:164-168 | opening a closed listener leaves it open on exactly the given blocks |
| Listener.BoardListener.RemoveBlocks | webapp/src/pages/boardPage.tsx:170 | an open listener stays open and stops watching the given blocks |
| Listener.BoardListener.AddBlocks | webapp/src/pages/boardPage.tsx:171 | an open listener stays open and also watches the given blocks |
| Listener.BoardListener.Close | webapp/src/pages/boardPage.tsx:103 | the listener is closed; its last scope is kept but no longer watched |
| Page.BoardPage.constructor | webapp/src/pages/boardPage.tsx:35-48 | a new page holds the ids read from the address, no tree, an empty history and a closed listener |
| Page.BoardPage.Sync | webapp/src/pages/boardPage.tsx:177-205 | the page's new state is `SyncStep` of the old one |
| Page.BoardPage.AttachToBoard | webapp/src/pages/boardPage.tsx:161-175 | the page's new state, listener included, is `AttachStep` of the old one |
| Page.BoardPage.ShowBoard | webapp/src/pages/boardPage.tsx:208-219 | the page's new state is `ShowBoardStep` of the old one |
| Page.BoardPage.ShowView | webapp/src/pages/boardPage.tsx:221-231 | the page's new state is `ShowViewStep` of the old one |
| Page.BoardPage.OnChange | webapp/src/pages/boardPage.tsx:165-168 | the page's new state is `OnChangeStep` of the old one |
| Page.BoardPage.Mount | webapp/src/pages/boardPage.tsx:92-99 | the page's new state is `MountStep` of the old one |
| Page.BoardPage.Unmount | webapp/src/pages/boardPage.tsx:101-105 | the listener is closed and the key handler removed; nothing else changes |
| Page.BoardPage.KeyDown | webapp/src/pages/boardPage.tsx:66-90 | the page's new state is `KeyDownStep` of the old one |
| Page.BoardPage.ShowFilter | webapp/src/pages/boardPage.tsx:233-235 | the anchor is replaced and one re-render is requested |
| Page.BoardPage.SetSearchText | webapp/src/pages/boardPage.tsx:237-240 | the page's new state is `SetSearchTextStep` of the old one |

## Left out

- Rendering: the `WorkspaceComponent` tree, its props, and `ReactDOM.render` of the filter
  popup into the modal element (lines 107-159) are UI plumbing. Only the popup's
  position is modelled. `renders` counts re-render requests, not React's batching.
- `componentDidUpdate` (lines 50-64), which sets the document title and the favicon:
  DOM side effects.
- `getBoundingClientRect` gives floating-point values. `FilterPosition` works on whole
  pixels.
- The internals of the board tree's load, the workspace tree's `sync`, the listener's
  transport, the mutation history and the flash display. They are not part of this
  model and appear only through parameters and recorded calls.
- BoardTrees.SetActiveView: its code is not part of this model. For an id that some
  view has, the model assumes it makes the first such view active, as a `find` over
  the views would; `SyncSelectsRequestedView`, `ShowBoardKeepsViewId` and
  `ShowViewOnDisplayedBoard` rest on that assumption. What it does with an unknown id
  is left to each tree (`unknownView`).
- Page.SyncStep: a rejected `workspaceTree.sync()` (line 181) would abort the sync
  before anything else, including the `forceUpdate` of the no-board branch. The model
  takes the workspace refresh to succeed, so the no-board branch always requests a
  re-render.
- The listener's notification delivery is not modelled. `OnChange` is the callback; that
  the listener stops delivering once closed is assumed of the listener, not shown.
  Closing a listener that was never opened is taken to be harmless.
- Asynchrony: every `sync` is one atomic step. Interleavings of overlapping syncs,
  including a stale result overwriting a newer one, are not modelled.
- A rejected `mutator.undo()`/`redo()` would skip the flash message. The model takes
  every call to succeed.
- `window.location` protocol, host and path are left out. A history entry is the query
  string alone; the `{path}` state object is not kept.
- UriCodec.DecodeComponent: returns `None` for a malformed escape or invalid UTF-8.
  `URLSearchParams` instead keeps a stray `%` and substitutes U+FFFD. The page's
  constructor therefore takes the ids already read from the address bar.
- Strings are sequences of Unicode scalar values. A JavaScript string holding a lone
  surrogate, on which `encodeURIComponent` throws, cannot be expressed.
- `Utils.log` calls are left out.
