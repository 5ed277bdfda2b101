/**
 * The window frame of WindowView.swift: where a window is drawn, how a drag
 * is committed, and which store operation each control of the frame reaches
 * through the `onClose` / `onFocus` callbacks that ContentView.swift binds to
 * `closeWindow` and `bringToFront` with the window's own id.
 */
module WindowView {
  import opened Options
  import opened Geometry
  import opened Desktop

  /** The committed top-left corner when a drag with final translation `t` ends. */
  function DragEndPosition(p: Point, t: Size): (r: Point)
    ensures r.x - p.x == t.width && r.y - p.y == t.height
  {
    Point(p.x + t.width, p.y + t.height)
  }

  /** Two drags one after the other land where one drag by the summed translation does. */
  lemma DragsCompose(p: Point, t1: Size, t2: Size)
    ensures DragEndPosition(DragEndPosition(p, t1), t2) == DragEndPosition(p, Size(t1.width + t2.width, t1.height + t2.height))
  {
  }

  /** A drag that ends where it started leaves the window where it was. */
  lemma ZeroDragKeepsPosition(p: Point)
    ensures DragEndPosition(p, ZeroSize) == p
  {
  }

  /** How a frame is drawn: its size and the point SwiftUI's `.position` centres it on. */
  datatype Placement = Placement(frame: Size, centre: Point)

  /**
   * The frame of window `w` while the live drag offset is `dragOffset`: the
   * frame has the record's size, and since `.position` places the centre,
   * the centre is the top-left corner plus half the size plus the offset.
   */
  function Place(w: WindowState, dragOffset: Size): (r: Placement)
    ensures r.frame == w.size
    ensures r.centre.x - r.frame.width / 2.0 == w.position.x + dragOffset.width
    ensures r.centre.y - r.frame.height / 2.0 == w.position.y + dragOffset.height
  {
    Placement(w.size, Point(w.position.x + w.size.width / 2.0 + dragOffset.width,
                            w.position.y + w.size.height / 2.0 + dragOffset.height))
  }

  /** The top-left corner of a drawn frame. */
  function TopLeft(r: Placement): Point
  {
    Point(r.centre.x - r.frame.width / 2.0, r.centre.y - r.frame.height / 2.0)
  }

  /** At rest the drawn top-left corner is the stored position; mid-drag it is where the drag would commit. */
  lemma PlacementMatchesStoredPosition(w: WindowState, dragOffset: Size)
    ensures TopLeft(Place(w, ZeroSize)) == w.position
    ensures TopLeft(Place(w, dragOffset)) == DragEndPosition(w.position, dragOffset)
  {
  }

  /** What the user can do to a window's frame. */
  datatype Gesture =
    | TapContent            // tap on the content area
    | TapTitleBar           // tap on the title bar
    | TapClose              // the red button
    | TapMinimize           // the yellow button
    | TapMaximize           // the green button
    | DragEnded(translation: Size)   // a drag of the title bar ends

  /**
   * The drag's `onEnded` handler: writes the new position into the window's
   * record through the binding, then calls `onFocus`. A stale id (the window
   * is already closed) changes nothing.
   */
  method EndDrag(desktop: DesktopViewModel, id: WindowId, translation: Size)
    requires desktop.Valid()
    modifies desktop`windows, desktop`maxZIndex, desktop`activeWindowId
    ensures desktop.Valid()
    ensures IndexOf(old(desktop.windows), id).None? ==>
      && desktop.windows == old(desktop.windows)
      && desktop.activeWindowId == old(desktop.activeWindowId)
      && desktop.maxZIndex == old(desktop.maxZIndex)
    ensures IndexOf(old(desktop.windows), id).Some? ==>
      var i := IndexOf(old(desktop.windows), id).value;
      var w := old(desktop.windows)[i];
      && desktop.maxZIndex == old(desktop.maxZIndex) + 1
      && desktop.windows == old(desktop.windows)[i := w.(position := DragEndPosition(w.position, translation), zIndex := desktop.maxZIndex)]
      && desktop.activeWindowId == Some(id)
  {
    match IndexOf(desktop.windows, id) {
      case None =>
      case Some(i) =>
        var w := desktop.windows[i];
        var moved := w.(position := DragEndPosition(w.position, translation));
        ReplaceKeepsCoherent(desktop.windows, desktop.activeWindowId, desktop.maxZIndex, desktop.nextId, i, moved);
        IndexOfSameIds(desktop.windows, desktop.windows[i := moved], id);
        desktop.windows := desktop.windows[i := moved];
    }
    desktop.BringToFront(id);
  }

  /**
   * Runs the frame's handlers for gesture `g` on the window with id `id`.
   * Taps call `onFocus`; the red button calls `onClose`; yellow and green do
   * nothing; a drag end runs `EndDrag`. No gesture writes the size or the title.
   */
  method HandleGesture(desktop: DesktopViewModel, id: WindowId, g: Gesture)
    requires desktop.Valid()
    modifies desktop`windows, desktop`maxZIndex, desktop`activeWindowId
    ensures desktop.Valid()
    ensures (g.TapMinimize? || g.TapMaximize? || IndexOf(old(desktop.windows), id).None?) ==>
      && desktop.windows == old(desktop.windows)
      && desktop.activeWindowId == old(desktop.activeWindowId)
      && desktop.maxZIndex == old(desktop.maxZIndex)
    ensures g.TapClose? ==>
      && desktop.windows == RemoveAll(old(desktop.windows), id)
      && desktop.activeWindowId == (if old(desktop.activeWindowId) == Some(id) then None else old(desktop.activeWindowId))
      && desktop.maxZIndex == old(desktop.maxZIndex)
    ensures (g.TapContent? || g.TapTitleBar? || g.DragEnded?) && IndexOf(old(desktop.windows), id).Some? ==>
      var i := IndexOf(old(desktop.windows), id).value;
      var w := old(desktop.windows)[i];
      var p := if g.DragEnded? then DragEndPosition(w.position, g.translation) else w.position;
      && desktop.maxZIndex == old(desktop.maxZIndex) + 1
      && desktop.windows == old(desktop.windows)[i := w.(position := p, zIndex := desktop.maxZIndex)]
      && desktop.activeWindowId == Some(id)
  {
    match g {
      case TapContent =>
        desktop.BringToFront(id);
      case TapTitleBar =>
        desktop.BringToFront(id);
      case TapClose =>
        desktop.CloseWindow(id);
      case TapMinimize =>
      case TapMaximize =>
      case DragEnded(t) =>
        EndDrag(desktop, id, t);
    }
  }
}
