/**
 * The application registry of ContentView.swift: the fixed enumeration of
 * application kinds with their raw value, title, icon, default window size
 * and preferred colour scheme.
 */
module AppTypes {
  import opened Geometry
  import opened Text

  datatype AppType = Finder | Safari | Settings | Terminal | Calculator | FinalCutPro | TextEdit | Xcode

  datatype ColorScheme = Light | Dark

  /** `AppType.allCases`, in declaration order (the order of the Dock). */
  function AllCases(): seq<AppType>
  {
    [Finder, Safari, Settings, Terminal, Calculator, FinalCutPro, TextEdit, Xcode]
  }

  /** The enum's raw value: the case name. */
  function RawValue(app: AppType): string
  {
    match app
    case Finder => "finder"
    case Safari => "safari"
    case Settings => "settings"
    case Terminal => "terminal"
    case Calculator => "calculator"
    case FinalCutPro => "finalCutPro"
    case TextEdit => "textEdit"
    case Xcode => "xcode"
  }

  /** `Identifiable` conformance: the id is the raw value. */
  function Id(app: AppType): string
  {
    RawValue(app)
  }

  function Title(app: AppType): string
  {
    match app
    case Finder => "Finder"
    case Safari => "Safari"
    case Settings => "System Settings"
    case Terminal => "Terminal"
    case Calculator => "Calculator"
    case FinalCutPro => "Final Cut Pro"
    case TextEdit => "TextEdit"
    case Xcode => "Xcode"
  }

  function IconName(app: AppType): string
  {
    match app
    case Finder => "finder"
    case Safari => "safari"
    case Settings => "settings"
    case Terminal => "terminal"
    case Calculator => "calculator"
    case FinalCutPro => "finalcutpro"
    case TextEdit => "textedit"
    case Xcode => "xcode"
  }

  /** The size a newly launched window gets; every dimension is positive. */
  function DefaultSize(app: AppType): (s: Size)
    ensures s.width > 0.0 && s.height > 0.0
  {
    match app
    case Calculator => Size(250.0, 430.0)
    case FinalCutPro => Size(800.0, 450.0)
    case TextEdit => Size(400.0, 300.0)
    case Xcode => Size(800.0, 900.0)
    case Finder => Size(700.0, 350.0)
    case _ => Size(600.0, 350.0)
  }

  function PreferredColorScheme(app: AppType): ColorScheme
  {
    match app
    case Terminal | Calculator | FinalCutPro | Xcode => Dark
    case _ => Light
  }

  /** The fall-through size 600×350 is exactly the one of Safari, Settings and Terminal; the five explicit sizes are all different. */
  lemma DefaultSizeFallback(app: AppType)
    ensures DefaultSize(app) == Size(600.0, 350.0) <==> app in {Safari, Settings, Terminal}
    ensures forall other: AppType :: other != app && DefaultSize(other) == DefaultSize(app) ==>
      other in {Safari, Settings, Terminal} && app in {Safari, Settings, Terminal}
  {
  }

  /** `allCases` lists every case exactly once: eight in all. */
  lemma AllCasesEnumerates()
    ensures |AllCases()| == 8
    ensures forall app: AppType :: app in AllCases()
    ensures forall i, j :: 0 <= i < j < |AllCases()| ==> AllCases()[i] != AllCases()[j]
  {
    forall app: AppType ensures app in AllCases() {
      match app
      case Finder => assert AllCases()[0] == app;
      case Safari => assert AllCases()[1] == app;
      case Settings => assert AllCases()[2] == app;
      case Terminal => assert AllCases()[3] == app;
      case Calculator => assert AllCases()[4] == app;
      case FinalCutPro => assert AllCases()[5] == app;
      case TextEdit => assert AllCases()[6] == app;
      case Xcode => assert AllCases()[7] == app;
    }
  }

  /** The ids tell the cases apart, so `Identifiable` is sound. */
  lemma IdsIdentify(a: AppType, b: AppType)
    ensures Id(a) == Id(b) <==> a == b
  {
    if a != b {
      assert Id(a)[..3] != Id(b)[..3] || Id(a)[|Id(a)| - 1] != Id(b)[|Id(b)| - 1] || |Id(a)| != |Id(b)|;
    }
  }

  /** Every icon name is the lower-cased raw value (finalCutPro gives "finalcutpro"). */
  lemma IconNameIsLowercasedRawValue(app: AppType)
    ensures IconName(app) == Lowercased(RawValue(app))
  {
    match app
    case Finder =>
    case Safari =>
    case Settings =>
    case Terminal =>
    case Calculator =>
    case FinalCutPro =>
    case TextEdit =>
    case Xcode =>
  }

  /** No two applications share a title. */
  lemma TitlesDistinct(a: AppType, b: AppType)
    ensures Title(a) == Title(b) <==> a == b
  {
    if a != b {
      assert Title(a)[..2] != Title(b)[..2] || Title(a)[|Title(a)| - 1] != Title(b)[|Title(b)| - 1] || |Title(a)| != |Title(b)|;
    }
  }

  /** Dark is preferred exactly by Terminal, Calculator, Final Cut Pro and Xcode. */
  lemma DarkApplications(app: AppType)
    ensures PreferredColorScheme(app) == Dark <==> app in {Terminal, Calculator, FinalCutPro, Xcode}
  {
  }
}
