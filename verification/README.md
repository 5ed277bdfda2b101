# MacOS-style desktop: a Dafny model

This project models the behaviour of a SwiftUI app that imitates a macOS
desktop. At its centre is a window manager, `DesktopViewModel`. It keeps a
list of open windows, the id of the focused window, the menu that is open
and a private z-index counter. Around it sit the pieces that feed or read
that store:

- the `AppType` registry (titles, icons, default sizes, colour schemes);
- the Dock, which launches applications;
- the menu bar, which names the focused application;
- the window frame, which turns taps and drags into store calls and places
  the window on screen.

A few mock applications have small pieces of logic of their own:

- Safari normalises the URL it is given;
- Finder chooses a file icon and numbers its items for selection;
- Calculator colours its keypad;
- Xcode decodes hex colour strings, marks Swift files with a badge and
  keeps a navigator selection.

Layout of the model:

| file | module | models |
|---|---|---|
| `options.dfy` | `Options` | the optional value (`Optional` in Swift) |
| `text.dfy` | `Text` | `lowercased`, `hasPrefix`, `hasSuffix` and `contains` |
| `geometry.dfy` | `Geometry` | points and sizes |
| `app_types.dfy` | `AppTypes` | `AppType` and its properties |
| `desktop.dfy` | `Desktop` | `WindowState`, and `DesktopViewModel` as a class with its invariant |
| `window_view.dfy` | `WindowView` | drag commit, on-screen placement and gesture wiring |
| `content_view.dfy` | `ContentView` | content dispatch, menu-bar title, Dock, a worked session |
| `safari_app.dfy` | `SafariApp` | `SafariViewModel.loadUrl`'s normalisation |
| `finder_app.dfy` | `FinderApp` | `getFileIcon`, selection indices and the selection |
| `calculator_app.dfy` | `CalculatorApp` | the keypad grid and `buttonColor` |
| `xcode_app.dfy` | `XcodeApp` | `Color(hex:)` up to integer channels, `FileRow`'s badge, the navigator selection |

The store is a Dafny class with these fields:

- `windows`, a `seq` of records;
- `activeWindowId`, `activeMenu` and `maxZIndex`;
- `nextId`, a counter that stands in for `UUID()`.

Every method names the fields it writes. The class invariant `Valid()` has
two parts:

- `Layered`:
  - ids are unique and below `nextId`;
  - z-indices are pairwise distinct and at most `maxZIndex`;
  - each title is its application's title.
- `FocusOnTop`: the focused window exists and holds `maxZIndex`.

`ActiveIsUniqueTopmost` derives from the invariant that the focused window
is strictly above every other window.

`launchApp` moves the counter twice. It calls `getNextZIndex()` for the new
record and then `bringToFront` for it. Successive launches therefore give
z-indices 2, 4, 6, …, not 1, 2, 3. The model follows the code here.
`FocusScenario` works through this on a concrete session.

## Model

| member | source | states |
|---|---|---|
| Desktop.SameWindow | MacOSClone/DesktopViewModel.swift:15-22 | identical records are equal, records that differ only in `appType` or `title` are equal, and records with different ids never are |
| Desktop.SameWindowIgnoresAppAndTitle | MacOSClone/DesktopViewModel.swift:15-22 | the custom `==` holds exactly when the records agree once `appType` and `title` are disregarded |
| Desktop.SameWindowIsEquivalence | MacOSClone/DesktopViewModel.swift:15-22 | the custom `==` is reflexive, symmetric and transitive |
| Desktop.CascadePosition | MacOSClone/DesktopViewModel.swift:48 | the n-th launch is offset by 30·n from (80, 100) on both axes |
| Desktop.IndexOf | MacOSClone/DesktopViewModel.swift:71 | `firstIndex(where:)`: the result is the first index carrying the id, and none exactly when no record carries it |
| Desktop.IndexOfSameIds | MacOSClone/DesktopViewModel.swift:79-80 | rewriting fields other than `id` does not move the lookup |
| Desktop.RemoveAll | MacOSClone/DesktopViewModel.swift:58 | `removeAll`: a record survives exactly when it was present and has another id; never longer |
| Desktop.RemoveAllAbsent | MacOSClone/DesktopViewModel.swift:58 | removing an id that no record has leaves the list unchanged |
| Desktop.RemoveAllUnique | MacOSClone/DesktopViewModel.swift:58 | with unique ids, removing the id at index k deletes exactly that record and keeps the order of the rest |
| Desktop.ActiveIsUniqueTopmost | MacOSClone/DesktopViewModel.swift:70-76 | under the invariant, the focused window is found, holds `maxZIndex` and is strictly above every other window |
| Desktop.RaiseKeepsLayered | MacOSClone/DesktopViewModel.swift:73-75 | giving a window `maxZIndex + 1` keeps ids and z-indices sound and puts it on top |
| Desktop.DropKeepsLayered | MacOSClone/DesktopViewModel.swift:58 | deleting one record keeps ids and z-indices sound |
| Desktop.DropKeepsFocus | MacOSClone/DesktopViewModel.swift:57-62 | deleting a record other than the focused one keeps the focused one on top |
| Desktop.RemoveKeepsCoherent | MacOSClone/DesktopViewModel.swift:57-62 | closing a window keeps the whole invariant, with focus cleared only when it was that window |
| Desktop.AppendKeepsLayered | MacOSClone/DesktopViewModel.swift:44-53 | appending a fresh id with the next counter value keeps ids and z-indices sound, and the lookup finds it at the end |
| Desktop.ReplaceKeepsCoherent | MacOSClone/DesktopViewModel.swift:78-86 | changing one record's position or size keeps the invariant |
| Desktop.DesktopViewModel.constructor | MacOSClone/DesktopViewModel.swift:26-31 | the store starts with no windows, no focus, no menu and the counter at 0 |
| Desktop.DesktopViewModel.NewId | MacOSClone/DesktopViewModel.swift:45 | each `UUID()` is a value not handed out before |
| Desktop.DesktopViewModel.GetNextZIndex | MacOSClone/DesktopViewModel.swift:88-91 | the counter goes up by one and the new value is returned |
| Desktop.DesktopViewModel.LaunchApp | MacOSClone/DesktopViewModel.swift:33-55 | exactly one record is appended and the old ones are untouched; it carries the app, its title, its default size and the cascade position for the old count; the counter rises by 2 and the new window holds it and is focused; the invariant is kept |
| Desktop.DesktopViewModel.CloseWindow | MacOSClone/DesktopViewModel.swift:57-62 | the records with that id are removed and the rest keep their order; focus is cleared only if it was that id and never handed on; an unknown id changes nothing; the invariant is kept |
| Desktop.DesktopViewModel.QuitApp | MacOSClone/DesktopViewModel.swift:64-68 | with no focused window nothing changes, `activeMenu` included; otherwise the focused window is closed and both focus and menu become nil |
| Desktop.DesktopViewModel.BringToFront | MacOSClone/DesktopViewModel.swift:70-76 | for a present id the counter rises by 1, only that record's z-index changes (to the counter) and it is focused; an unknown id changes nothing; the invariant is restored |
| Desktop.DesktopViewModel.UpdateWindowPosition | MacOSClone/DesktopViewModel.swift:78-81 | only the position of the first matching record changes; an unknown id changes nothing; the invariant is kept |
| Desktop.DesktopViewModel.UpdateWindowSize | MacOSClone/DesktopViewModel.swift:83-86 | only the size of the first matching record changes; an unknown id changes nothing; the invariant is kept |
| AppTypes.AllCasesEnumerates | MacOSClone/ContentView.swift:72-80 | `allCases` lists all 8 cases, each exactly once |
| AppTypes.IdsIdentify | MacOSClone/ContentView.swift:82 | `id` is the raw value and tells the cases apart |
| AppTypes.TitlesDistinct | MacOSClone/ContentView.swift:84-95 | no two cases share a title |
| AppTypes.IconNameIsLowercasedRawValue | MacOSClone/ContentView.swift:97-108 | every icon name is the lower-cased raw value |
| AppTypes.DefaultSize | MacOSClone/ContentView.swift:110-119 | every default size has a positive width and height |
| AppTypes.DefaultSizeFallback | MacOSClone/ContentView.swift:110-119 | 600×350 is the size of exactly Safari, Settings and Terminal, and only those three share a size |
| AppTypes.DarkApplications | MacOSClone/ContentView.swift:121-128 | the scheme is dark exactly for Terminal, Calculator, Final Cut Pro and Xcode |
| ContentView.ContentFor | MacOSClone/ContentView.swift:28-45 | the `switch` hosts a view from which the window's kind can be read back, so no two kinds share a view |
| ContentView.ContentDispatchIsOneToOne | MacOSClone/ContentView.swift:28-45 | every case has its own content view, and different cases get different views |
| ContentView.MenuBarAppName | MacOSClone/ContentView.swift:187-193 | "Finder" when nothing is focused or no window carries the focused id; otherwise the title of the first window carrying that id |
| ContentView.MenuBarNamesTopmostApp | MacOSClone/ContentView.swift:187-193 | under the invariant, the menu-bar name is the title of the topmost window |
| ContentView.TapDockIcon | MacOSClone/ContentView.swift:137-150 | a tap on the k-th icon opens a window of the k-th case of `allCases`, focuses it and puts its title in the menu bar |
| ContentView.OpenThree | MacOSClone/DesktopViewModel.swift:33-55 | three launches on a fresh store give z-indices 2, 4 and 6, with the last window focused |
| ContentView.ClickFinder | MacOSClone/ContentView.swift:25 | a tap on the first window raises it to 7 and focuses it |
| ContentView.CloseSafari | MacOSClone/ContentView.swift:24 | the red button of the second window removes it; the focus stays where it was |
| ContentView.DragTerminal | MacOSClone/WindowView.swift:57-61 | dragging the remaining window by (10, 5) moves it from (140, 160) to (150, 165) and raises it to 8 |
| ContentView.FocusScenario | MacOSClone/DesktopViewModel.swift:33-76 | the whole session: launches at 2, 4, 6; then Finder at 7 and (80, 100); then Terminal at 8 and (150, 165), focused |
| WindowView.DragEndPosition | MacOSClone/WindowView.swift:57-60 | the committed position differs from the old one by exactly the translation |
| WindowView.DragsCompose | MacOSClone/WindowView.swift:57-60 | two drags in a row commit the same position as one drag by their sum |
| WindowView.ZeroDragKeepsPosition | MacOSClone/WindowView.swift:57-60 | a drag with no translation commits the old position |
| WindowView.Place | MacOSClone/WindowView.swift:68-77 | the frame is the window's size, and centre minus half the frame is position plus drag offset |
| WindowView.PlacementMatchesStoredPosition | MacOSClone/WindowView.swift:71-77 | at rest the drawn top-left corner is the stored position; while dragging it is where the drag would commit |
| WindowView.EndDrag | MacOSClone/WindowView.swift:57-61 | the position is written first, then the window is raised and focused; size and title are not touched; a stale id changes nothing |
| WindowView.HandleGesture | MacOSClone/WindowView.swift:25-66 | content and title-bar taps focus the window, the red button closes it, yellow and green do nothing, and a drag end runs `EndDrag` |
| SafariApp.NormalizeUrl | MacOSClone/Apps/SafariApp.swift:21-24 | the result is the input or "https://" plus the input, and always starts with "http" ignoring case |
| SafariApp.NormalizeUrlKeepsHttp | MacOSClone/Apps/SafariApp.swift:22-23 | the input is kept exactly when its lower-cased form starts with "http"; otherwise "https://" is prepended |
| SafariApp.NormalizeUrlIdempotent | MacOSClone/Apps/SafariApp.swift:21-24 | normalising twice is normalising once |
| SafariApp.NormalizeUrlKeepsUpperCaseScheme | MacOSClone/Apps/SafariApp.swift:22 | "HTTPS://x" is kept as typed |
| SafariApp.NormalizeUrlKeepsHttpHost | MacOSClone/Apps/SafariApp.swift:22 | "httpbin.org" gets no scheme, because the test is for "http" and not "http://" |
| SafariApp.NormalizeUrlPrefixesOthers | MacOSClone/Apps/SafariApp.swift:23 | "apple.com" and "ftp://x" are prefixed with "https://" |
| SafariApp.SafariViewModel.constructor | MacOSClone/Apps/SafariApp.swift:7 | the address starts as "https://www.apple.com" |
| SafariApp.SafariViewModel.LoadUrl | MacOSClone/Apps/SafariApp.swift:20-24 | the URL loaded is the normalised address, and `urlString` itself is not changed |
| FinderApp.GetFileIcon | MacOSClone/Apps/FinderApp.swift:180-185 | the icon is one of photo, doc.text, swift and doc; "photo" exactly for a name ending in "png"; "doc" exactly when none of the three suffixes matches |
| FinderApp.IconSuffixesExclusive | MacOSClone/Apps/FinderApp.swift:180-185 | no name ends in two of "png", "txt" and "swift", so the order of the tests never decides |
| FinderApp.GetFileIconBySuffix | MacOSClone/Apps/FinderApp.swift:180-185 | "doc.text" and "swift" are also chosen exactly by their suffixes, although their tests come after others |
| FinderApp.GetFileIconIgnoresDot | MacOSClone/Apps/FinderApp.swift:181 | the test is on the raw, case-sensitive suffix: "apng" gives "photo" and "Logo.PNG" gives "doc" |
| FinderApp.GenericIcon | MacOSClone/Apps/FinderApp.swift:184 | a name ending in neither 'g' nor 't' gets "doc" |
| FinderApp.MockFileIcons | MacOSClone/Apps/FinderApp.swift:144 | the mock files get doc, doc.text, photo, doc and swift |
| FinderApp.ItemIndex | MacOSClone/Apps/FinderApp.swift:158-165 | for a shown item the index is below the folder count exactly for a folder, and the item can be read back from its index |
| FinderApp.ItemIndexIsBijection | MacOSClone/Apps/FinderApp.swift:153-172 | folders take 0..3 and file i takes i + 4: the indices of shown items are distinct and cover 0..8 |
| FinderApp.FinderSelection.constructor | MacOSClone/Apps/FinderApp.swift:4 | nothing is selected at first |
| FinderApp.FinderSelection.TapFolder | MacOSClone/Apps/FinderApp.swift:160 | tapping folder i selects index i |
| FinderApp.FinderSelection.TapFile | MacOSClone/Apps/FinderApp.swift:165-172 | tapping file i selects index i + 4 |
| FinderApp.FinderSelection.ShownSelected | MacOSClone/Apps/FinderApp.swift:158-170 | at most one item is drawn as selected, namely the one whose index is `selectedItem` |
| CalculatorApp.ColorOf | MacOSClone/Apps/CalculatorApp.swift:42-50 | orange exactly for the last key of some row of the keypad; gray only for keys of the top row; dark gray for every digit and the point |
| CalculatorApp.ColorClasses | MacOSClone/Apps/CalculatorApp.swift:42-50 | orange exactly for ÷ × - + =, gray exactly for AC +/- %, dark gray for everything else |
| CalculatorApp.GridShape | MacOSClone/Apps/CalculatorApp.swift:4-10 | five rows, four buttons in each of the first four and three in the last: 19 buttons |
| CalculatorApp.DarkGrayKeysAreDigits | MacOSClone/Apps/CalculatorApp.swift:4-10 | on the keypad, the dark gray keys are exactly the digits and the point |
| CalculatorApp.KeypadColorGrid | MacOSClone/Apps/CalculatorApp.swift:4-10 | the keypad's colours: the right-hand column orange, the rest of the top row gray, the others dark gray |
| CalculatorApp.ColorTally | MacOSClone/Apps/CalculatorApp.swift:42-50 | over the keypad, 5 buttons are orange, 3 gray and 11 dark gray |
| XcodeApp.LeadingJunk | MacOSClone/Apps/XcodeApp.swift:458 | the count of leading non-alphanumerics stops at the first alphanumeric |
| XcodeApp.TrailingJunk | MacOSClone/Apps/XcodeApp.swift:458 | the count of trailing non-alphanumerics stops at the last alphanumeric |
| XcodeApp.Trim | MacOSClone/Apps/XcodeApp.swift:458 | the result is a slice of the input, empty or with alphanumerics at both ends, and everything cut off is non-alphanumeric |
| XcodeApp.TrimIgnoresHash | MacOSClone/Apps/XcodeApp.swift:458 | for any text, a "#" in front of it does not change the trimmed result |
| XcodeApp.TrimAlphanumeric | MacOSClone/Apps/XcodeApp.swift:458 | an alphanumeric string is left alone, and a "#" in front of it is removed |
| XcodeApp.LeadingHexDigits | MacOSClone/Apps/XcodeApp.swift:460 | the scanner reads the longest run of hex digits at the start |
| XcodeApp.ScanHex | MacOSClone/Apps/XcodeApp.swift:459-460 | text that does not start with a hex digit scans as 0, and text made only of hex digits is read whole |
| XcodeApp.LeadingRunLength | MacOSClone/Apps/XcodeApp.swift:460 | a run of hex digits followed by a non-hex character or the end is exactly the run the scanner takes |
| XcodeApp.ScanHexReadsLeadingRun | MacOSClone/Apps/XcodeApp.swift:459-460 | the scanner reads the longest leading run of hex digits and stops at the first other character: "abcxyz" scans as 0xabc |
| XcodeApp.HexValueBound | MacOSClone/Apps/XcodeApp.swift:460 | n hex digits give a value below 16^n |
| XcodeApp.ScanHexBound | MacOSClone/Apps/XcodeApp.swift:459-460 | the scanned value has no more digits than the trimmed string has characters |
| XcodeApp.Channels | MacOSClone/Apps/XcodeApp.swift:462-466 | 3 and 6 digits give alpha 255; 3 digits give channels that are multiples of 17; any other count than 3, 6 or 8 gives (1, 1, 1, 0) |
| XcodeApp.ChannelsInRange | MacOSClone/Apps/XcodeApp.swift:462-466 | when the value fits its digit count, every channel is in 0..255 |
| XcodeApp.ColorFromHex | MacOSClone/Apps/XcodeApp.swift:457-467 | for any text at all, every decoded channel is in 0..255, and a trimmed length other than 3, 6 or 8 gives (1, 1, 1, 0) |
| XcodeApp.ChannelsThreeDigits | MacOSClone/Apps/XcodeApp.swift:463 | three nibbles r, g, b decode to alpha 255 and r·17, g·17, b·17 |
| XcodeApp.ChannelsSixDigits | MacOSClone/Apps/XcodeApp.swift:464 | three bytes, most significant first, decode to themselves with alpha 255 |
| XcodeApp.ChannelsEightDigits | MacOSClone/Apps/XcodeApp.swift:465 | four bytes decode as alpha, red, green, blue |
| XcodeApp.ColorFromHexWhite | MacOSClone/Apps/XcodeApp.swift:463 | "FFF" decodes to (255, 255, 255, 255) |
| XcodeApp.ColorFromHexEditorBackground | MacOSClone/Apps/XcodeApp.swift:50 | the editor background "1F1F24" decodes to (255, 31, 31, 36) |
| XcodeApp.ColorFromHexIgnoresHash | MacOSClone/Apps/XcodeApp.swift:457-458 | for any text, "#" followed by it decodes exactly as the text alone |
| XcodeApp.ColorFromHexFallback | MacOSClone/Apps/XcodeApp.swift:466 | a five-digit string gives the fallback (1, 1, 1, 0) |
| XcodeApp.ShowsModifiedBadge | MacOSClone/Apps/XcodeApp.swift:189 | no name shorter than ".swift" shows the badge |
| XcodeApp.SwiftSourcesBadged | MacOSClone/Apps/XcodeApp.swift:189 | every name that ends in ".swift" shows the badge |
| XcodeApp.SampleBadges | MacOSClone/Apps/XcodeApp.swift:189 | among the sample rows, the "M" badge shows exactly on Data.swift, ContentView.swift and XcodeApp.swift |
| XcodeApp.MissingCharacterRulesOut | MacOSClone/Apps/XcodeApp.swift:189 | a name lacking one of the characters of ".swift" shows no badge |
| XcodeApp.SwiftRowsBadged | MacOSClone/Apps/XcodeApp.swift:448-451 | the three Swift files show the badge |
| XcodeApp.OtherRowsPlain | MacOSClone/Apps/XcodeApp.swift:445-453 | the folders, the asset catalogue and the plist show no badge |
| XcodeApp.NavigatorSelection.constructor | MacOSClone/Apps/XcodeApp.swift:6 | the navigator starts with `sampleFiles[5]`, "ContentView.swift", selected |
| XcodeApp.NavigatorSelection.Tap | MacOSClone/Apps/XcodeApp.swift:154-155 | tapping row k selects it and only it |
| XcodeApp.NavigatorSelection.SelectedRows | MacOSClone/Apps/XcodeApp.swift:153 | at most one row is drawn as selected, namely the one whose id is `selectedFile` |
| Text.Lowercased | MacOSClone/Apps/SafariApp.swift:22 | lower-casing keeps the length and maps each character on its own |
| Text.HasPrefix | MacOSClone/Apps/SafariApp.swift:22 | every string starts with "", and a prefix as long as the string is the string itself |
| Text.HasSuffix | MacOSClone/Apps/FinderApp.swift:181-183 | every string ends with "", and a suffix as long as the string is the string itself |
| Text.Contains | MacOSClone/Apps/XcodeApp.swift:189 | only a string no longer than s can occur in s, and "" always does |
| Text.ContainsPrefixAndSuffix | MacOSClone/Apps/XcodeApp.swift:189 | a prefix and a suffix of s both occur in s |
| Text.LowercasedAppend | MacOSClone/Apps/SafariApp.swift:22-23 | lower-casing distributes over concatenation |

## Left out

- SwiftUI layout is left out: view bodies, padding, fonts, colours, blur views and animations. These are declarative decoration.
- `Apps/SettingsApp.swift`, `Apps/TextEditApp.swift`, `Apps/FinalCutProApp.swift` and `Apps/TerminalApp.swift` are mock layout with trivial `@State` toggles and are not part of this model.
- Safari's web machinery is not modelled, because those are foreign calls and main-queue callbacks:
  - `WKWebView` loading, back, forward and reload;
  - the navigation delegate;
  - `URL(string:)` validation.
- `SafariViewModel`'s other `@Published` fields (`isLoading`, `canGoBack`, `canGoForward`, `progress`) belong to the web view and are not modelled.
- `UUID()` is replaced by the counter `nextId`. Ids are fresh by construction and never reused within a session.
- Coordinates are `real`, so `CGFloat` and `Double` rounding are not modelled. `zIndex` is an `int`; the source only ever adds 1 to it from 0.
- XcodeApp.ScanHex: `Scanner.scanHexInt64` is modelled as the value of the leading run of hex digits. Two details are not modelled:
  - its acceptance of a "0x" prefix (a trimmed string such as "0x1F2A" is read as 0);
  - 64-bit overflow, which cannot arise for 3, 6 or 8 digits.
- XcodeApp.IsAlphanumeric: alphanumerics are the ASCII letters and digits. `CharacterSet.alphanumerics` covers the Unicode letter, mark and number categories, so it also contains non-ASCII letters and digits and combining marks. For example, a combining acute accent followed by "FFF" keeps the mark in Swift, counts 4 and gives the fallback, while the model trims the mark and decodes white.
- Text.LowerChar: case mapping covers the ASCII letters only.
- Text.HasPrefix, Text.HasSuffix, Text.Contains and the digit count in XcodeApp.ColorFromHex work on sequences of `char`, whereas Swift's `hasPrefix`, `hasSuffix`, `contains` and `count` work on extended grapheme clusters. The two differ whenever one Swift `Character` is several `char`s: combining marks, an inner "\r\n", emoji joined by zero-width joiners, flag pairs and decomposed Hangul. For example:
  - "F\r\nF" counts 3 in Swift and decodes to (255, 0, 0, 255), but the model counts 4 and gives (1, 1, 1, 0);
  - "http" followed by U+0301 and "x" does not have the prefix "http" in Swift, so SafariApp.swift:23 prepends "https://", but the model keeps it unchanged.
- The final `Double(x) / 255` conversion of the colour channels is floating point. The model stops at the integer quadruple.
- Some SwiftUI state is not modelled:
  - the live `@GestureState` drag offset (it appears only as a parameter of `WindowView.Place`);
  - the `isHovering` state of the traffic-light buttons, which is never set;
  - the `Date()` clock text.
- `activeMenu` is a field of the store but no modelled operation opens a menu: the source only ever clears it, in `quitApp`. Menu opening happens inside SwiftUI's `Menu` and never writes the field.
- `FileItem`'s icon, colour and indent are not modelled because they only affect drawing. Row ids, which are `UUID()` in the source, are the row indices.
