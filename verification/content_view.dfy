/**
 * The desktop shell of ContentView.swift around the store: which content
 * each window hosts, the Dock that launches applications, and the menu
 * bar's name of the active application.
 */
module ContentView {
  import opened Options
  import opened Geometry
  import opened AppTypes
  import opened Desktop
  import opened WindowView

  /** The content view a window of each kind hosts. */
  datatype AppContent =
    | FinderContent | SafariContent | SettingsContent | TerminalContent
    | CalculatorContent | FinalCutProContent | TextEditContent | XcodeContent

  /** The application a content view belongs to. */
  function AppOf(c: AppContent): AppType
  {
    match c
    case FinderContent => Finder
    case SafariContent => Safari
    case SettingsContent => Settings
    case TerminalContent => Terminal
    case CalculatorContent => Calculator
    case FinalCutProContent => FinalCutPro
    case TextEditContent => TextEdit
    case XcodeContent => Xcode
  }

  /** The `switch` on the window's kind: the view hosted, from which the kind can be read back. */
  function ContentFor(app: AppType): (c: AppContent)
    ensures AppOf(c) == app
  {
    match app
    case Finder => FinderContent
    case Safari => SafariContent
    case Settings => SettingsContent
    case Terminal => TerminalContent
    case Calculator => CalculatorContent
    case FinalCutPro => FinalCutProContent
    case TextEdit => TextEditContent
    case Xcode => XcodeContent
  }

  /** Every kind has its own content, and every content belongs to some kind. */
  lemma ContentDispatchIsOneToOne(a: AppType, b: AppType, c: AppContent)
    ensures ContentFor(a) == ContentFor(b) ==> a == b
    ensures exists app :: ContentFor(app) == c
  {
    assert ContentFor(AppOf(c)) == c by {
      match c
      case FinderContent =>
      case SafariContent =>
      case SettingsContent =>
      case TerminalContent =>
      case CalculatorContent =>
      case FinalCutProContent =>
      case TextEditContent =>
      case XcodeContent =>
    }
  }

  /**
   * The application name in the menu bar: the title of the first window
   * whose id is the active one, or "Finder" when nothing is active or no
   * window matches.
   */
  function MenuBarAppName(ws: seq<WindowState>, active: Option<WindowId>): (name: string)
    ensures (active.None? || forall j :: 0 <= j < |ws| ==> ws[j].id != active.value) ==> name == "Finder"
    ensures active.Some? && (exists j :: 0 <= j < |ws| && ws[j].id == active.value) ==>
      exists i :: 0 <= i < |ws| && ws[i].id == active.value && name == ws[i].title &&
        forall j :: 0 <= j < i ==> ws[j].id != active.value
  {
    match active
    case None => "Finder"
    case Some(id) =>
      match IndexOf(ws, id)
      case None => "Finder"
      case Some(i) => ws[i].title
  }

  /** In a coherent desktop the menu bar names the application of the topmost window. */
  lemma MenuBarNamesTopmostApp(ws: seq<WindowState>, active: Option<WindowId>, maxZIndex: int, nextId: WindowId)
    requires Coherent(ws, active, maxZIndex, nextId)
    requires active.Some?
    ensures exists i :: 0 <= i < |ws| && ws[i].zIndex == maxZIndex && MenuBarAppName(ws, active) == Title(ws[i].appType)
  {
    var i := ActiveIsUniqueTopmost(ws, active, maxZIndex, nextId);
    assert MenuBarAppName(ws, active) == Title(ws[i].appType);
  }

  /** A tap on the k-th Dock icon launches the k-th application of `allCases`. */
  method TapDockIcon(desktop: DesktopViewModel, k: nat)
    requires desktop.Valid()
    requires k < |AllCases()|
    modifies desktop`windows, desktop`maxZIndex, desktop`activeWindowId, desktop`nextId
    ensures desktop.Valid()
    ensures |desktop.windows| == |old(desktop.windows)| + 1 && desktop.windows[..|old(desktop.windows)|] == old(desktop.windows)
    ensures desktop.windows[|old(desktop.windows)|].appType == AllCases()[k]
    ensures desktop.activeWindowId == Some(desktop.windows[|old(desktop.windows)|].id)
    ensures MenuBarAppName(desktop.windows, desktop.activeWindowId) == Title(AllCases()[k])
  {
    desktop.LaunchApp(AllCases()[k]);
    assert IndexOf(desktop.windows, desktop.windows[|old(desktop.windows)|].id) == Some(|old(desktop.windows)|);
  }

  /** The record `launchApp` creates for the id-th launch, made while id windows are open. */
  function Opened(id: WindowId, app: AppType, z: int): WindowState
  {
    WindowState(id, app, Title(app), CascadePosition(id), DefaultSize(app), z, false, false)
  }

  /** Three launches on a fresh desktop: Finder, Safari and Terminal, cascading, at z-indices 2, 4 and 6. */
  method OpenThree() returns (desktop: DesktopViewModel)
    ensures fresh(desktop) && desktop.Valid()
    ensures desktop.windows == [Opened(0, Finder, 2), Opened(1, Safari, 4), Opened(2, Terminal, 6)]
    ensures desktop.maxZIndex == 6 && desktop.activeWindowId == Some(2)
  {
    desktop := new DesktopViewModel();
    desktop.LaunchApp(Finder);
    desktop.LaunchApp(Safari);
    desktop.LaunchApp(Terminal);
  }

  /** A tap on the Finder window raises it above the Terminal window. */
  method ClickFinder(desktop: DesktopViewModel)
    requires desktop.Valid() && desktop.maxZIndex == 6
    requires desktop.windows == [Opened(0, Finder, 2), Opened(1, Safari, 4), Opened(2, Terminal, 6)]
    modifies desktop`windows, desktop`maxZIndex, desktop`activeWindowId
    ensures desktop.Valid() && desktop.maxZIndex == 7 && desktop.activeWindowId == Some(0)
    ensures desktop.windows == [Opened(0, Finder, 7), Opened(1, Safari, 4), Opened(2, Terminal, 6)]
  {
    assert IndexOf(desktop.windows, 0) == Some(0);
    HandleGesture(desktop, 0, TapContent);
  }

  /** The red button of the Safari window closes it; the focus stays on Finder. */
  method CloseSafari(desktop: DesktopViewModel)
    requires desktop.Valid() && desktop.activeWindowId == Some(0)
    requires desktop.windows == [Opened(0, Finder, 7), Opened(1, Safari, 4), Opened(2, Terminal, 6)]
    modifies desktop`windows, desktop`maxZIndex, desktop`activeWindowId
    ensures desktop.Valid() && desktop.maxZIndex == old(desktop.maxZIndex) && desktop.activeWindowId == Some(0)
    ensures desktop.windows == [Opened(0, Finder, 7), Opened(2, Terminal, 6)]
  {
    var ws := desktop.windows;
    HandleGesture(desktop, 1, TapClose);
    RemoveAllUnique(ws, 1);
    assert ws[..1] + ws[2..] == [Opened(0, Finder, 7), Opened(2, Terminal, 6)];
  }

  /** Dragging the Terminal window by (10, 5) moves it and raises it above Finder. */
  method DragTerminal(desktop: DesktopViewModel)
    requires desktop.Valid() && desktop.maxZIndex == 7
    requires desktop.windows == [Opened(0, Finder, 7), Opened(2, Terminal, 6)]
    modifies desktop`windows, desktop`maxZIndex, desktop`activeWindowId
    ensures desktop.Valid() && desktop.maxZIndex == 8 && desktop.activeWindowId == Some(2)
    ensures desktop.windows == [Opened(0, Finder, 7), Opened(2, Terminal, 8).(position := Point(150.0, 165.0))]
  {
    assert IndexOf(desktop.windows, 2) == Some(1);
    HandleGesture(desktop, 2, DragEnded(Size(10.0, 5.0)));
  }

  /**
   * A session: open three applications, click the first window, close the
   * second and drag the third by (10, 5). Because every launch moves the
   * counter twice, the windows open with z-indices 2, 4 and 6.
   */
  method FocusScenario() returns (launchZ: seq<int>, ws: seq<WindowState>, active: Option<WindowId>)
    ensures launchZ == [2, 4, 6]
    ensures |ws| == 2 && ws[0].appType == Finder && ws[1].appType == Terminal
    ensures ws[0].zIndex == 7 && ws[1].zIndex == 8
    ensures ws[0].position == Point(80.0, 100.0) && ws[1].position == Point(150.0, 165.0)
    ensures active == Some(ws[1].id)
  {
    var desktop := OpenThree();
    launchZ := [desktop.windows[0].zIndex, desktop.windows[1].zIndex, desktop.windows[2].zIndex];
    ClickFinder(desktop);
    CloseSafari(desktop);
    DragTerminal(desktop);
    ws, active := desktop.windows, desktop.activeWindowId;
  }
}
