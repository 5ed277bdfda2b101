/**
 * The desktop state store of DesktopViewModel.swift: the list of open
 * windows, the focused window, the open menu and the z-index counter, and
 * the operations that open, close, raise, move and resize windows.
 */
module Desktop {
  import opened Options
  import opened Geometry
  import opened AppTypes

  /** Window identities. `UUID()` is modelled by a counter of issued ids. */
  type WindowId = nat

  datatype WindowState = WindowState(
    id: WindowId,
    appType: AppType,
    title: string,
    position: Point,
    size: Size,
    zIndex: int,
    isMinimized: bool,
    isMaximized: bool)

  /**
   * The record's custom `==`: every field except `appType` and `title`.
   * Records that are identical are equal, and so are two records that differ
   * only in their application or title; records with different ids never are.
   */
  predicate SameWindow(l: WindowState, r: WindowState)
    ensures l == r ==> SameWindow(l, r)
    ensures l.(appType := r.appType, title := r.title) == r ==> SameWindow(l, r)
    ensures l.id != r.id ==> !SameWindow(l, r)
  {
    && l.id == r.id
    && l.position == r.position
    && l.size == r.size
    && l.zIndex == r.zIndex
    && l.isMinimized == r.isMinimized
    && l.isMaximized == r.isMaximized
  }

  /** `==` is structural equality once `appType` and `title` are disregarded. */
  lemma SameWindowIgnoresAppAndTitle(l: WindowState, r: WindowState)
    ensures SameWindow(l, r) <==> l.(appType := r.appType, title := r.title) == r
  {
  }

  /** `==` is an equivalence, as `Equatable` requires. */
  lemma SameWindowIsEquivalence(a: WindowState, b: WindowState, c: WindowState)
    ensures SameWindow(a, a)
    ensures SameWindow(a, b) ==> SameWindow(b, a)
    ensures SameWindow(a, b) && SameWindow(b, c) ==> SameWindow(a, c)
  {
  }

  /** The top-left corner of the n-th window opened while n windows are open. */
  function CascadePosition(n: nat): (p: Point)
    ensures p.x - 80.0 == p.y - 100.0 == 30.0 * n as real
  {
    Point(80.0 + 30.0 * n as real, 100.0 + 30.0 * n as real)
  }

  /** `windows.firstIndex(where: { $0.id == id })`. */
  function IndexOf(ws: seq<WindowState>, id: WindowId): (r: Option<nat>)
    ensures r.Some? ==> r.value < |ws| && ws[r.value].id == id
    ensures r.Some? ==> forall j :: 0 <= j < r.value ==> ws[j].id != id
    ensures r.None? <==> forall j :: 0 <= j < |ws| ==> ws[j].id != id
  {
    if ws == [] then None
    else if ws[0].id == id then Some(0)
    else match IndexOf(ws[1..], id)
      case None => None
      case Some(k) => Some(k + 1)
  }

  /** The lookup depends on the ids alone: rewriting other fields does not move it. */
  lemma {:induction false} IndexOfSameIds(ws: seq<WindowState>, ws': seq<WindowState>, id: WindowId)
    requires |ws| == |ws'|
    requires forall j :: 0 <= j < |ws| ==> ws[j].id == ws'[j].id
    ensures IndexOf(ws, id) == IndexOf(ws', id)
  {
    if ws != [] && ws[0].id != id {
      IndexOfSameIds(ws[1..], ws'[1..], id);
    }
  }

  /** `windows.removeAll { $0.id == id }`: the records with another id, in their order. */
  function RemoveAll(ws: seq<WindowState>, id: WindowId): (r: seq<WindowState>)
    ensures forall w :: w in r <==> w in ws && w.id != id
    ensures |r| <= |ws|
  {
    if ws == [] then []
    else (if ws[0].id == id then [] else [ws[0]]) + RemoveAll(ws[1..], id)
  }

  /** Removing an id that no record carries changes nothing. */
  lemma {:induction false} RemoveAllAbsent(ws: seq<WindowState>, id: WindowId)
    requires forall j :: 0 <= j < |ws| ==> ws[j].id != id
    ensures RemoveAll(ws, id) == ws
  {
    if ws != [] {
      RemoveAllAbsent(ws[1..], id);
      assert [ws[0]] + ws[1..] == ws;
    }
  }

  /** With unique ids, removing the id at index k removes exactly that record and keeps the order. */
  lemma {:induction false} RemoveAllUnique(ws: seq<WindowState>, k: nat)
    requires k < |ws|
    requires IdsUnique(ws)
    ensures RemoveAll(ws, ws[k].id) == ws[..k] + ws[k + 1..]
  {
    if k == 0 {
      RemoveAllHead(ws);
    } else {
      var tail := ws[1..];
      assert ws[0].id != ws[k].id && tail[k - 1] == ws[k];
      TailIdsUnique(ws);
      RemoveAllUnique(tail, k - 1);
      SpliceTail(ws, k);
    }
  }

  lemma RemoveAllHead(ws: seq<WindowState>)
    requires ws != [] && IdsUnique(ws)
    ensures RemoveAll(ws, ws[0].id) == ws[1..]
  {
    var tail := ws[1..];
    forall j | 0 <= j < |tail| ensures tail[j].id != ws[0].id {
      assert tail[j] == ws[j + 1];
    }
    RemoveAllAbsent(tail, ws[0].id);
  }

  lemma TailIdsUnique(ws: seq<WindowState>)
    requires ws != [] && IdsUnique(ws)
    ensures IdsUnique(ws[1..])
  {
    var tail := ws[1..];
    forall i, j | 0 <= i < j < |tail| ensures tail[i].id != tail[j].id {
      assert tail[i] == ws[i + 1] && tail[j] == ws[j + 1];
    }
  }

  lemma SpliceTail(ws: seq<WindowState>, k: nat)
    requires 0 < k < |ws|
    ensures [ws[0]] + (ws[1..][..k - 1] + ws[1..][k..]) == ws[..k] + ws[k + 1..]
  {
    assert ws[1..][..k - 1] == ws[1..k] && ws[1..][k..] == ws[k + 1..];
    assert [ws[0]] + ws[1..k] == ws[..k];
  }

  // ---------------------------------------------------------------------
  // The store's invariant, on values

  predicate IdsUnique(ws: seq<WindowState>)
  {
    forall i, j :: 0 <= i < j < |ws| ==> ws[i].id != ws[j].id
  }

  /** Every id in use was issued before `nextId`, so a new id is fresh. */
  predicate IdsIssued(ws: seq<WindowState>, nextId: WindowId)
  {
    forall i :: 0 <= i < |ws| ==> ws[i].id < nextId
  }

  predicate ZIndicesDistinct(ws: seq<WindowState>)
  {
    forall i, j :: 0 <= i < j < |ws| ==> ws[i].zIndex != ws[j].zIndex
  }

  predicate ZIndicesBounded(ws: seq<WindowState>, maxZIndex: int)
  {
    forall i :: 0 <= i < |ws| ==> ws[i].zIndex <= maxZIndex
  }

  /** No operation rewrites a title: each stays its application's title. */
  predicate TitlesDefault(ws: seq<WindowState>)
  {
    forall i :: 0 <= i < |ws| ==> ws[i].title == Title(ws[i].appType)
  }

  /** The part of the invariant that holds between any two steps of an operation. */
  predicate Layered(ws: seq<WindowState>, maxZIndex: int, nextId: WindowId)
  {
    && IdsUnique(ws)
    && IdsIssued(ws, nextId)
    && ZIndicesDistinct(ws)
    && ZIndicesBounded(ws, maxZIndex)
    && TitlesDefault(ws)
  }

  /** The focused window, when there is one, is open and holds the counter's value. */
  predicate FocusOnTop(ws: seq<WindowState>, active: Option<WindowId>, maxZIndex: int)
  {
    active.Some? ==> exists i :: 0 <= i < |ws| && ws[i].id == active.value && ws[i].zIndex == maxZIndex
  }

  predicate Coherent(ws: seq<WindowState>, active: Option<WindowId>, maxZIndex: int, nextId: WindowId)
  {
    Layered(ws, maxZIndex, nextId) && FocusOnTop(ws, active, maxZIndex)
  }

  /** The focused window is the unique topmost one: strictly above every other window. */
  lemma ActiveIsUniqueTopmost(ws: seq<WindowState>, active: Option<WindowId>, maxZIndex: int, nextId: WindowId)
    returns (i: nat)
    requires Coherent(ws, active, maxZIndex, nextId)
    requires active.Some?
    ensures IndexOf(ws, active.value) == Some(i)
    ensures ws[i].zIndex == maxZIndex
    ensures forall j :: 0 <= j < |ws| && j != i ==> ws[j].zIndex < ws[i].zIndex
  {
    i :| 0 <= i < |ws| && ws[i].id == active.value && ws[i].zIndex == maxZIndex;
    forall j | 0 <= j < |ws| && j != i ensures ws[j].zIndex < ws[i].zIndex {
      assert ws[j].zIndex != ws[i].zIndex by {
        if j < i { assert ws[j].zIndex != ws[i].zIndex; } else { assert ws[i].zIndex != ws[j].zIndex; }
      }
    }
  }

  /** Raising window i with the next counter value keeps the invariant and puts it on top. */
  lemma RaiseKeepsLayered(ws: seq<WindowState>, maxZIndex: int, nextId: WindowId, i: nat)
    requires Layered(ws, maxZIndex, nextId)
    requires i < |ws|
    ensures Layered(ws[i := ws[i].(zIndex := maxZIndex + 1)], maxZIndex + 1, nextId)
    ensures FocusOnTop(ws[i := ws[i].(zIndex := maxZIndex + 1)], Some(ws[i].id), maxZIndex + 1)
  {
    var ws' := ws[i := ws[i].(zIndex := maxZIndex + 1)];
    assert ws'[i].id == ws[i].id && ws'[i].zIndex == maxZIndex + 1;
  }

  /** Dropping one record keeps the ids and z-indices sound. */
  lemma DropKeepsLayered(ws: seq<WindowState>, maxZIndex: int, nextId: WindowId, k: nat)
    requires Layered(ws, maxZIndex, nextId)
    requires k < |ws|
    ensures Layered(ws[..k] + ws[k + 1..], maxZIndex, nextId)
  {
    var r := ws[..k] + ws[k + 1..];
    assert forall j :: 0 <= j < |r| ==> r[j] == ws[if j < k then j else j + 1];
  }

  /** Closing a window keeps the invariant; focus is dropped only when it was on that window. */
  lemma RemoveKeepsCoherent(ws: seq<WindowState>, active: Option<WindowId>, maxZIndex: int, nextId: WindowId, id: WindowId)
    requires Coherent(ws, active, maxZIndex, nextId)
    ensures Coherent(RemoveAll(ws, id), if active == Some(id) then None else active, maxZIndex, nextId)
  {
    match IndexOf(ws, id)
    case None =>
      RemoveAllAbsent(ws, id);
    case Some(k) =>
      RemoveAllUnique(ws, k);
      DropKeepsLayered(ws, maxZIndex, nextId, k);
      if active != Some(id) {
        DropKeepsFocus(ws, active, maxZIndex, k);
      }
  }

  /** Dropping a record other than the focused one keeps the focused one on top. */
  lemma DropKeepsFocus(ws: seq<WindowState>, active: Option<WindowId>, maxZIndex: int, k: nat)
    requires FocusOnTop(ws, active, maxZIndex)
    requires k < |ws| && active != Some(ws[k].id)
    ensures FocusOnTop(ws[..k] + ws[k + 1..], active, maxZIndex)
  {
    if active.Some? {
      var r := ws[..k] + ws[k + 1..];
      var i :| 0 <= i < |ws| && ws[i].id == active.value && ws[i].zIndex == maxZIndex;
      var i' := if i < k then i else i - 1;
      assert r[i'] == ws[i];
    }
  }

  /** Appending a record with a fresh id and the next counter value keeps the ids and z-indices sound. */
  lemma AppendKeepsLayered(ws: seq<WindowState>, maxZIndex: int, nextId: WindowId, w: WindowState)
    requires Layered(ws, maxZIndex, nextId)
    requires w.id == nextId && w.zIndex == maxZIndex + 1 && w.title == Title(w.appType)
    ensures Layered(ws + [w], maxZIndex + 1, nextId + 1)
    ensures IndexOf(ws + [w], nextId) == Some(|ws|)
  {
    var ws' := ws + [w];
    assert forall j :: 0 <= j < |ws| ==> ws'[j] == ws[j];
    assert ws'[|ws|].id == nextId;
    assert IndexOf(ws', nextId).Some?;
  }

  /** Changing a record's position or size keeps the invariant. */
  lemma ReplaceKeepsCoherent(ws: seq<WindowState>, active: Option<WindowId>, maxZIndex: int, nextId: WindowId, i: nat, w: WindowState)
    requires Coherent(ws, active, maxZIndex, nextId)
    requires i < |ws|
    requires w == ws[i].(position := w.position, size := w.size)
    ensures Coherent(ws[i := w], active, maxZIndex, nextId)
  {
    var ws' := ws[i := w];
    if active.Some? {
      var j :| 0 <= j < |ws| && ws[j].id == active.value && ws[j].zIndex == maxZIndex;
      assert ws'[j].id == active.value && ws'[j].zIndex == maxZIndex;
    }
  }

  // ---------------------------------------------------------------------
  // The store

  class DesktopViewModel {
    var windows: seq<WindowState>
    var activeWindowId: Option<WindowId>
    /** Which menu of the menu bar is open (e.g. "Apple", "App"). */
    var activeMenu: Option<string>
    var maxZIndex: int
    /** The next identity `UUID()` hands out; all ids in use are below it. */
    var nextId: WindowId

    ghost predicate Valid()
      reads this
    {
      Coherent(windows, activeWindowId, maxZIndex, nextId)
    }

    constructor ()
      ensures Valid()
      ensures windows == [] && activeWindowId == None && activeMenu == None && maxZIndex == 0 && nextId == 0
    {
      windows := [];
      activeWindowId := None;
      activeMenu := None;
      maxZIndex := 0;
      nextId := 0;
    }

    /** `UUID()`: an identity no window has had in this session. */
    method NewId() returns (id: WindowId)
      modifies this`nextId
      ensures id == old(nextId) && nextId == old(nextId) + 1
    {
      id := nextId;
      nextId := nextId + 1;
    }

    method GetNextZIndex() returns (z: int)
      modifies this`maxZIndex
      ensures maxZIndex == old(maxZIndex) + 1 && z == maxZIndex
    {
      maxZIndex := maxZIndex + 1;
      z := maxZIndex;
    }

    /**
     * Opens a window of `app` at the cascade position for the current window
     * count, then raises it. The counter moves twice: once for the record's
     * initial z-index and once more in `BringToFront`.
     */
    method LaunchApp(app: AppType)
      requires Valid()
      modifies this`windows, this`maxZIndex, this`activeWindowId, this`nextId
      ensures Valid()
      ensures |windows| == |old(windows)| + 1 && windows[..|old(windows)|] == old(windows)
      ensures windows[|old(windows)|] ==
        WindowState(old(nextId), app, Title(app), CascadePosition(|old(windows)|), DefaultSize(app), maxZIndex, false, false)
      ensures maxZIndex == old(maxZIndex) + 2
      ensures activeWindowId == Some(old(nextId)) && nextId == old(nextId) + 1
    {
      var id := NewId();
      var z := GetNextZIndex();
      var newWindow := WindowState(id, app, Title(app), CascadePosition(|windows|), DefaultSize(app), z, false, false);
      AppendKeepsLayered(windows, maxZIndex - 1, id, newWindow);
      windows := windows + [newWindow];
      BringToFront(newWindow.id);
      assert windows[..|old(windows)|] == old(windows);
    }

    /** Removes the window with id `id`; focus is cleared if it was that window, never handed on. */
    method CloseWindow(id: WindowId)
      requires Valid()
      modifies this`windows, this`activeWindowId
      ensures Valid()
      ensures windows == RemoveAll(old(windows), id)
      ensures activeWindowId == if old(activeWindowId) == Some(id) then None else old(activeWindowId)
      ensures IndexOf(old(windows), id).None? ==> windows == old(windows) && activeWindowId == old(activeWindowId)
    {
      if IndexOf(windows, id).None? {
        RemoveAllAbsent(windows, id);
      }
      RemoveKeepsCoherent(windows, activeWindowId, maxZIndex, nextId, id);
      windows := RemoveAll(windows, id);
      if activeWindowId == Some(id) {
        activeWindowId := None;
      }
    }

    /** Closes the focused window and the open menu; with nothing focused, does nothing. */
    method QuitApp()
      requires Valid()
      modifies this`windows, this`activeWindowId, this`activeMenu
      ensures Valid()
      ensures old(activeWindowId).None? ==>
        windows == old(windows) && activeWindowId == None && activeMenu == old(activeMenu)
      ensures old(activeWindowId).Some? ==>
        windows == RemoveAll(old(windows), old(activeWindowId).value) && activeWindowId == None && activeMenu == None
    {
      match activeWindowId {
        case None =>
          return;
        case Some(activeId) =>
          CloseWindow(activeId);
          activeMenu := None;
      }
    }

    /**
     * Raises the first window with id `windowId` to a new top z-index and
     * focuses it; an unknown id changes nothing. Only the ids and z-indices
     * need to be sound beforehand: `LaunchApp` calls it while the previously
     * focused window no longer holds the counter's value.
     */
    method BringToFront(windowId: WindowId)
      requires Layered(windows, maxZIndex, nextId)
      modifies this`windows, this`maxZIndex, this`activeWindowId
      ensures Layered(windows, maxZIndex, nextId)
      ensures IndexOf(old(windows), windowId).None? ==>
        windows == old(windows) && maxZIndex == old(maxZIndex) && activeWindowId == old(activeWindowId)
      ensures IndexOf(old(windows), windowId).Some? ==>
        var i := IndexOf(old(windows), windowId).value;
        && maxZIndex == old(maxZIndex) + 1
        && windows == old(windows)[i := old(windows)[i].(zIndex := maxZIndex)]
        && activeWindowId == Some(windowId)
      ensures old(Valid()) || IndexOf(old(windows), windowId).Some? ==> Valid()
    {
      match IndexOf(windows, windowId) {
        case None =>
          return;
        case Some(index) =>
          RaiseKeepsLayered(windows, maxZIndex, nextId, index);
          maxZIndex := maxZIndex + 1;
          windows := windows[index := windows[index].(zIndex := maxZIndex)];
          activeWindowId := Some(windowId);
      }
    }

    /** Moves the first window with id `id`; an unknown id changes nothing. */
    method UpdateWindowPosition(id: WindowId, newPosition: Point)
      requires Valid()
      modifies this`windows
      ensures Valid()
      ensures IndexOf(old(windows), id).None? ==> windows == old(windows)
      ensures IndexOf(old(windows), id).Some? ==>
        var i := IndexOf(old(windows), id).value;
        windows == old(windows)[i := old(windows)[i].(position := newPosition)]
    {
      match IndexOf(windows, id) {
        case None =>
          return;
        case Some(index) =>
          ReplaceKeepsCoherent(windows, activeWindowId, maxZIndex, nextId, index, windows[index].(position := newPosition));
          windows := windows[index := windows[index].(position := newPosition)];
      }
    }

    /** Resizes the first window with id `id`; an unknown id changes nothing. */
    method UpdateWindowSize(id: WindowId, newSize: Size)
      requires Valid()
      modifies this`windows
      ensures Valid()
      ensures IndexOf(old(windows), id).None? ==> windows == old(windows)
      ensures IndexOf(old(windows), id).Some? ==>
        var i := IndexOf(old(windows), id).value;
        windows == old(windows)[i := old(windows)[i].(size := newSize)]
    {
      match IndexOf(windows, id) {
        case None =>
          return;
        case Some(index) =>
          ReplaceKeepsCoherent(windows, activeWindowId, maxZIndex, nextId, index, windows[index].(size := newSize));
          windows := windows[index := windows[index].(size := newSize)];
      }
    }
  }
}
