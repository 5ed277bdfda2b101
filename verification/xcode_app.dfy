/**
 * The pieces of XcodeApp.swift with behaviour: the `Color(hex:)` decoder up
 * to its integer channels, the navigator's file rows with their "M" badge,
 * and the navigator's selection.
 */
module XcodeApp {
  import opened Options
  import opened Text

  // ---------------------------------------------------------------------
  // Color(hex:)

  /** Alpha, red, green and blue, each meant to be 0 to 255. */
  datatype Argb = Argb(a: nat, r: nat, g: nat, b: nat)

  predicate IsAlphanumeric(c: char)
  {
    'a' <= c <= 'z' || 'A' <= c <= 'Z' || '0' <= c <= '9'
  }

  /** How many characters at the start of s are not alphanumeric. */
  function LeadingJunk(s: string): (n: nat)
    ensures n <= |s|
    ensures forall i :: 0 <= i < n ==> !IsAlphanumeric(s[i])
    ensures n < |s| ==> IsAlphanumeric(s[n])
  {
    if s == [] || IsAlphanumeric(s[0]) then 0 else 1 + LeadingJunk(s[1..])
  }

  /** How many characters at the end of s are not alphanumeric. */
  function TrailingJunk(s: string): (n: nat)
    ensures n <= |s|
    ensures forall i :: |s| - n <= i < |s| ==> !IsAlphanumeric(s[i])
    ensures n < |s| ==> IsAlphanumeric(s[|s| - 1 - n])
  {
    if s == [] || IsAlphanumeric(s[|s| - 1]) then 0 else 1 + TrailingJunk(s[..|s| - 1])
  }

  /**
   * `trimmingCharacters(in: CharacterSet.alphanumerics.inverted)`: s without
   * the non-alphanumeric characters at either end. The result is a slice of s
   * that is empty or starts and ends with an alphanumeric character, and
   * everything cut off is non-alphanumeric.
   */
  function Trim(s: string): (t: string)
    ensures t == [] || (IsAlphanumeric(t[0]) && IsAlphanumeric(t[|t| - 1]))
    ensures exists i :: OccursAt(s, t, i) &&
                        forall k :: 0 <= k < |s| && (k < i || i + |t| <= k) ==> !IsAlphanumeric(s[k])
  {
    var i := LeadingJunk(s);
    var rest := s[i..];
    var t := rest[..|rest| - TrailingJunk(rest)];
    assert OccursAt(s, t, i);
    t
  }

  predicate IsHexDigit(c: char)
  {
    '0' <= c <= '9' || 'a' <= c <= 'f' || 'A' <= c <= 'F'
  }

  function DigitValue(c: char): (v: nat)
    requires IsHexDigit(c)
    ensures v < 16
  {
    if '0' <= c <= '9' then c as int - '0' as int
    else if 'a' <= c <= 'f' then c as int - 'a' as int + 10
    else c as int - 'A' as int + 10
  }

  predicate AllHexDigits(s: string)
  {
    forall i :: 0 <= i < |s| ==> IsHexDigit(s[i])
  }

  /** The number a string of hex digits spells, most significant digit first. */
  function HexValue(digits: string): nat
    requires AllHexDigits(digits)
  {
    if digits == [] then 0
    else HexValue(digits[..|digits| - 1]) * 16 + DigitValue(digits[|digits| - 1])
  }

  function Pow16(n: nat): (p: nat)
    ensures p >= 1
  {
    if n == 0 then 1 else 16 * Pow16(n - 1)
  }

  /** n hex digits spell a number below 16^n. */
  lemma {:induction false} HexValueBound(digits: string)
    requires AllHexDigits(digits)
    ensures HexValue(digits) < Pow16(|digits|)
  {
    if digits != [] {
      var init := digits[..|digits| - 1];
      HexValueBound(init);
      assert HexValue(init) <= Pow16(|init|) - 1;
      assert HexValue(digits) <= (Pow16(|init|) - 1) * 16 + 15;
    }
  }

  /** How many hex digits s starts with. */
  function LeadingHexDigits(s: string): (n: nat)
    ensures n <= |s|
    ensures AllHexDigits(s[..n])
    ensures n < |s| ==> !IsHexDigit(s[n])
  {
    if s == [] || !IsHexDigit(s[0]) then 0
    else
      var n := 1 + LeadingHexDigits(s[1..]);
      assert s[..n] == [s[0]] + s[1..][..n - 1];
      n
  }

  /**
   * `Scanner(string: s).scanHexInt64(&int)` from `int = 0`: the value of the
   * leading hex digits. Text that does not start with a hex digit leaves 0,
   * and text made of hex digits alone is read whole.
   */
  function ScanHex(s: string): (v: nat)
    ensures s == [] || !IsHexDigit(s[0]) ==> v == 0
    ensures AllHexDigits(s) ==> v == HexValue(s)
  {
    var n := LeadingHexDigits(s);
    assert AllHexDigits(s) ==> n == |s| && s[..n] == s;
    HexValue(s[..n])
  }

  /**
   * The scanner reads the longest leading run of hex digits and stops at the
   * first other character: a run p followed by text that does not start with
   * a hex digit scans as the value of p alone.
   */
  lemma ScanHexReadsLeadingRun(p: string, rest: string)
    requires AllHexDigits(p) && (rest == [] || !IsHexDigit(rest[0]))
    ensures ScanHex(p + rest) == HexValue(p)
  {
    LeadingRunLength(p, rest);
    assert (p + rest)[..|p|] == p;
  }

  /** The leading run of p + rest is exactly p. */
  lemma {:induction false} LeadingRunLength(p: string, rest: string)
    requires AllHexDigits(p) && (rest == [] || !IsHexDigit(rest[0]))
    ensures LeadingHexDigits(p + rest) == |p|
  {
    if p == [] {
      assert p + rest == rest;
    } else {
      assert IsHexDigit(p[0]);
      assert (p + rest)[1..] == p[1..] + rest;
      LeadingRunLength(p[1..], rest);
    }
  }

  /** The scanned value never has more digits than the string has characters. */
  lemma ScanHexBound(s: string)
    ensures ScanHex(s) < Pow16(|s|)
  {
    var n := LeadingHexDigits(s);
    HexValueBound(s[..n]);
    Pow16Monotone(n, |s|);
  }

  lemma {:induction false} Pow16Monotone(m: nat, n: nat)
    requires m <= n
    ensures Pow16(m) <= Pow16(n)
  {
    if m < n {
      Pow16Monotone(m, n - 1);
    }
  }

  /**
   * The `switch` on the digit count: 3 digits are RGB nibbles scaled by 17,
   * 6 digits are RGB bytes and 8 digits are ARGB bytes, most significant
   * first; any other count gives (1, 1, 1, 0). Shifts are divisions by powers
   * of two and masks are remainders.
   */
  function Channels(count: nat, v: nat): (c: Argb)
    ensures count == 3 || count == 6 ==> c.a == 255
    ensures count == 3 ==> c.r % 17 == 0 && c.g % 17 == 0 && c.b % 17 == 0
    ensures count != 3 && count != 6 && count != 8 ==> c == Argb(1, 1, 1, 0)
  {
    match count
    case 3 => Argb(255, (v / 256) * 17, ((v / 16) % 16) * 17, (v % 16) * 17)
    case 6 => Argb(255, v / 65536, (v / 256) % 256, v % 256)
    case 8 => Argb(v / 16777216, (v / 65536) % 256, (v / 256) % 256, v % 256)
    case _ => Argb(1, 1, 1, 0)
  }

  predicate InByteRange(c: Argb)
  {
    c.a <= 255 && c.r <= 255 && c.g <= 255 && c.b <= 255
  }

  /** A value that fits in its digit count gives channels in 0 to 255. */
  lemma ChannelsInRange(count: nat, v: nat)
    requires v < Pow16(count)
    ensures InByteRange(Channels(count, v))
  {
    if count == 3 {
      assert Pow16(3) == 4096;
    } else if count == 8 {
      assert Pow16(8) == 4294967296;
    }
  }

  /**
   * The integer channels `Color(hex:)` derives from `hex`. Whatever the text,
   * every channel is in 0 to 255, and a trimmed length other than 3, 6 or 8
   * gives the fallback (1, 1, 1, 0).
   */
  function ColorFromHex(hex: string): (c: Argb)
    ensures InByteRange(c)
    ensures |Trim(hex)| != 3 && |Trim(hex)| != 6 && |Trim(hex)| != 8 ==> c == Argb(1, 1, 1, 0)
  {
    var t := Trim(hex);
    ScanHexBound(t);
    ChannelsInRange(|t|, ScanHex(t));
    Channels(|t|, ScanHex(t))
  }

  /** Euclidean division is unique: q and m are the quotient and remainder of v by d. */
  lemma DivModUnique(v: nat, d: nat, q: nat, m: nat)
    requires 0 <= m < d && v == q * d + m
    ensures v / d == q && v % d == m
  {
    var q', m' := v / d, v % d;
    assert v == q' * d + m';
    if q' < q {
      MultipleGap(q', q, d);
      assert false;
    } else if q < q' {
      MultipleGap(q, q', d);
      assert false;
    }
  }

  /** Between distinct multiples of d lies a gap of at least d. */
  lemma MultipleGap(lo: nat, hi: nat, d: nat)
    requires lo < hi
    ensures lo * d + d <= hi * d
  {
    var k := hi - lo - 1;
    assert hi * d == lo * d + d + k * d;
  }

  /** Three digits: nibbles r, g, b decode to r·17, g·17, b·17 with full alpha. */
  lemma ChannelsThreeDigits(r: nat, g: nat, b: nat)
    requires r < 16 && g < 16 && b < 16
    ensures Channels(3, r * 256 + g * 16 + b) == Argb(255, r * 17, g * 17, b * 17)
  {
    var v := r * 256 + g * 16 + b;
    DivModUnique(v, 256, r, g * 16 + b);
    DivModUnique(v, 16, r * 16 + g, b);
    DivModUnique(r * 16 + g, 16, r, g);
  }

  /** Six digits: bytes r, g, b, most significant first, decode to themselves with full alpha. */
  lemma ChannelsSixDigits(r: nat, g: nat, b: nat)
    requires r < 256 && g < 256 && b < 256
    ensures Channels(6, r * 65536 + g * 256 + b) == Argb(255, r, g, b)
  {
    var v := r * 65536 + g * 256 + b;
    DivModUnique(v, 65536, r, g * 256 + b);
    DivModUnique(v, 256, r * 256 + g, b);
    DivModUnique(r * 256 + g, 256, r, g);
  }

  /** Eight digits: the leading byte is alpha, then red, green and blue. */
  lemma ChannelsEightDigits(a: nat, r: nat, g: nat, b: nat)
    requires a < 256 && r < 256 && g < 256 && b < 256
    ensures Channels(8, a * 16777216 + r * 65536 + g * 256 + b) == Argb(a, r, g, b)
  {
    var v := a * 16777216 + r * 65536 + g * 256 + b;
    DivModUnique(v, 16777216, a, r * 65536 + g * 256 + b);
    DivModUnique(v, 65536, a * 256 + r, g * 256 + b);
    DivModUnique(a * 256 + r, 256, a, r);
    DivModUnique(v, 256, a * 65536 + r * 256 + g, b);
    DivModUnique(a * 65536 + r * 256 + g, 256, a * 256 + r, g);
  }

  /** Three digits "FFF" give opaque white. */
  lemma ColorFromHexWhite()
    ensures ColorFromHex("FFF") == Argb(255, 255, 255, 255)
  {
    assert Trim("FFF") == "FFF";
    assert LeadingHexDigits("FFF") == 3;
    assert "FFF"[..3] == "FFF";
    assert HexValue("FFF") == 4095 by {
      assert "FFF"[..2] == "FF";
      assert "FF"[..1] == "F";
      assert "F"[..0] == "";
    }
  }

  /** The editor background "1F1F24" decodes to (31, 31, 36) with full alpha. */
  lemma ColorFromHexEditorBackground()
    ensures ColorFromHex("1F1F24") == Argb(255, 31, 31, 36)
  {
    assert TrailingJunk("1F1F24") == 0;
    assert "1F1F24"[..6] == "1F1F24";
    assert Trim("1F1F24") == "1F1F24";
    assert LeadingHexDigits("1F1F24") == 6;
    assert HexValue("1F1F24") == 2039588 by {
      assert "1F1F24"[..5] == "1F1F2";
      assert "1F1F2"[..4] == "1F1F";
      assert "1F1F"[..3] == "1F1";
      assert "1F1"[..2] == "1F";
      assert "1F"[..1] == "1";
      assert "1"[..0] == "";
    }
    ChannelsSixDigits(31, 31, 36);
  }

  predicate AllAlphanumeric(s: string)
  {
    forall i :: 0 <= i < |s| ==> IsAlphanumeric(s[i])
  }

  /** A leading "#" is cut off with the rest of the leading junk. */
  lemma TrimIgnoresHash(s: string)
    ensures Trim("#" + s) == Trim(s)
  {
    var h := "#" + s;
    assert h[1..] == s;
    var n := LeadingJunk(s);
    assert LeadingJunk(h) == 1 + n;
    assert h[1 + n..] == s[n..];
  }

  /** Trimming leaves an all-alphanumeric string alone and strips a leading "#" from it. */
  lemma TrimAlphanumeric(s: string)
    requires AllAlphanumeric(s)
    ensures Trim(s) == s
    ensures Trim("#" + s) == s
  {
    assert LeadingJunk(s) == 0;
    assert s[0..] == s;
    assert TrailingJunk(s) == 0;
    TrimIgnoresHash(s);
  }

  /** So "#RRGGBB" decodes exactly as "RRGGBB" does, and so does any other text behind a "#". */
  lemma ColorFromHexIgnoresHash(s: string)
    ensures ColorFromHex("#" + s) == ColorFromHex(s)
  {
    TrimIgnoresHash(s);
  }

  /** Five digits match no case of the switch and give the fallback (1, 1, 1, 0). */
  lemma ColorFromHexFallback()
    ensures ColorFromHex("12345") == Argb(1, 1, 1, 0)
  {
    assert Trim("12345") == "12345";
  }

  // ---------------------------------------------------------------------
  // The navigator

  /** A row of the navigator; the id stands for the row's `UUID()`. */
  datatype FileItem = FileItem(id: nat, name: string, isFolder: bool)

  const SampleFiles: seq<FileItem> := [
    FileItem(0, "MacOSClone", true),
    FileItem(1, "Shared", true),
    FileItem(2, "Models", true),
    FileItem(3, "Data.swift", false),
    FileItem(4, "Views", true),
    FileItem(5, "ContentView.swift", false),
    FileItem(6, "XcodeApp.swift", false),
    FileItem(7, "Assets.xcassets", false),
    FileItem(8, "Info.plist", false)
  ]

  /** `FileRow` shows the "M" badge when the name contains ".swift"; no name shorter than that does. */
  predicate ShowsModifiedBadge(file: FileItem)
    ensures ShowsModifiedBadge(file) ==> |file.name| >= 6
  {
    Contains(file.name, ".swift")
  }

  /** The badge marks Swift sources: every name ending in ".swift" gets it. */
  lemma SwiftSourcesBadged(file: FileItem)
    ensures HasSuffix(file.name, ".swift") ==> ShowsModifiedBadge(file)
  {
    ContainsPrefixAndSuffix(file.name, ".swift");
  }

  /** Of the sample rows, the three Swift files carry the badge. */
  lemma SampleBadges()
    ensures forall k :: 0 <= k < |SampleFiles| ==> (ShowsModifiedBadge(SampleFiles[k]) <==> k in {3, 5, 6})
  {
    SwiftRowsBadged();
    OtherRowsPlain();
  }

  /** A name in which the j-th character of ".swift" never appears cannot contain it. */
  lemma MissingCharacterRulesOut(name: string, j: nat)
    requires j < 6 && forall i :: 0 <= i < |name| ==> name[i] != ".swift"[j]
    ensures !Contains(name, ".swift")
  {
    forall i | 0 <= i <= |name|
      ensures !OccursAt(name, ".swift", i)
    {
      if i + 6 <= |name| {
        assert name[i..i + 6][j] == name[i + j];
      }
    }
  }

  lemma SwiftRowsBadged()
    ensures ShowsModifiedBadge(SampleFiles[3])
    ensures ShowsModifiedBadge(SampleFiles[5])
    ensures ShowsModifiedBadge(SampleFiles[6])
  {
    assert OccursAt("Data.swift", ".swift", 4);
    assert OccursAt("ContentView.swift", ".swift", 11);
    assert OccursAt("XcodeApp.swift", ".swift", 8);
  }

  lemma OtherRowsPlain()
    ensures !ShowsModifiedBadge(SampleFiles[0]) && !ShowsModifiedBadge(SampleFiles[1])
    ensures !ShowsModifiedBadge(SampleFiles[2]) && !ShowsModifiedBadge(SampleFiles[4])
    ensures !ShowsModifiedBadge(SampleFiles[7]) && !ShowsModifiedBadge(SampleFiles[8])
  {
    MissingCharacterRulesOut("MacOSClone", 0);
    MissingCharacterRulesOut("Shared", 0);
    MissingCharacterRulesOut("Models", 0);
    MissingCharacterRulesOut("Views", 0);
    MissingCharacterRulesOut("Assets.xcassets", 2);
    MissingCharacterRulesOut("Info.plist", 2);
  }

  /** The navigator's selection (`selectedFile`), by row id. */
  class NavigatorSelection {
    var selectedFile: Option<nat>

    /** The rows drawn as selected. */
    function SelectedRows(): (rows: set<nat>)
      reads this
      ensures |rows| <= 1
      ensures forall k :: k in rows <==> 0 <= k < |SampleFiles| && selectedFile == Some(SampleFiles[k].id)
    {
      var rows := set k: nat | k < |SampleFiles| && selectedFile == Some(SampleFiles[k].id);
      assert selectedFile.Some? && selectedFile.value < |SampleFiles| ==> rows == {selectedFile.value};
      assert !(selectedFile.Some? && selectedFile.value < |SampleFiles|) ==> rows == {};
      rows
    }

    /** Initially "ContentView.swift" is selected. */
    constructor ()
      ensures selectedFile == Some(SampleFiles[5].id)
      ensures SelectedRows() == {5} && SampleFiles[5].name == "ContentView.swift"
    {
      selectedFile := Some(SampleFiles[5].id);
    }

    /** Tapping row k selects it, and only it. */
    method Tap(k: nat)
      requires k < |SampleFiles|
      modifies this
      ensures selectedFile == Some(SampleFiles[k].id)
      ensures SelectedRows() == {k}
    {
      selectedFile := Some(SampleFiles[k].id);
    }
  }
}
