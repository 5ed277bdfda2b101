/**
 * The content area of FinderApp.swift: the icon chosen for a file name, the
 * numbering of folders and files into one selection index, and the
 * selection itself.
 */
module FinderApp {
  import opened Options
  import opened Text

  const Folders: seq<string> := ["Project Alpha", "Designs", "Old Stuff", "Receipts"]

  const Files: seq<string> := ["Budget.xlsx", "Notes.txt", "Logo.png", "Report.pdf", "Script.swift"]

  /**
   * The SF Symbol shown for a file, chosen by the raw end of its name: one of
   * four symbols, "photo" exactly for a name ending in "png", and the generic
   * "doc" exactly when none of the three suffixes matches.
   */
  function GetFileIcon(name: string): (icon: string)
    ensures icon in {"photo", "doc.text", "swift", "doc"}
    ensures icon == "photo" <==> HasSuffix(name, "png")
    ensures icon == "doc" <==> !HasSuffix(name, "png") && !HasSuffix(name, "txt") && !HasSuffix(name, "swift")
  {
    if HasSuffix(name, "png") then "photo"
    else if HasSuffix(name, "txt") then "doc.text"
    else if HasSuffix(name, "swift") then "swift"
    else "doc"
  }

  /** No name ends with two of the tested suffixes, so the order of the tests never matters. */
  lemma IconSuffixesExclusive(name: string)
    ensures !(HasSuffix(name, "png") && HasSuffix(name, "txt"))
    ensures !(HasSuffix(name, "png") && HasSuffix(name, "swift"))
    ensures !(HasSuffix(name, "txt") && HasSuffix(name, "swift"))
  {
    var n := |name|;
    if HasSuffix(name, "png") {
      assert name[n - 1] == "png"[2];
    }
    if HasSuffix(name, "txt") {
      assert name[n - 2] == "txt"[1];
    }
    if HasSuffix(name, "swift") {
      assert name[n - 1] == "swift"[4] && name[n - 2] == "swift"[3];
    }
  }

  /** "doc.text" and "swift" are also chosen exactly by their suffixes, whatever the order of the tests. */
  lemma GetFileIconBySuffix(name: string)
    ensures GetFileIcon(name) == "doc.text" <==> HasSuffix(name, "txt")
    ensures GetFileIcon(name) == "swift" <==> HasSuffix(name, "swift")
  {
    IconSuffixesExclusive(name);
  }

  /** The test is on the raw suffix, without a dot and case-sensitive. */
  lemma GetFileIconIgnoresDot()
    ensures GetFileIcon("apng") == "photo"
    ensures GetFileIcon("Logo.PNG") == "doc"
  {
    assert HasSuffix("apng", "png");
    assert "Logo.PNG"[7] != "png"[2] && "Logo.PNG"[7] != "txt"[2] && "Logo.PNG"[7] != "swift"[4];
  }

  /** A name whose last character is neither 'g' nor 't' gets the generic icon. */
  lemma GenericIcon(name: string)
    requires name != [] && name[|name| - 1] != 'g' && name[|name| - 1] != 't'
    ensures GetFileIcon(name) == "doc"
  {
    GetFileIconBySuffix(name);
  }

  /** The icons of the mock files. */
  lemma MockFileIcons()
    ensures GetFileIcon(Files[0]) == "doc"
    ensures GetFileIcon(Files[1]) == "doc.text"
    ensures GetFileIcon(Files[2]) == "photo"
    ensures GetFileIcon(Files[3]) == "doc"
    ensures GetFileIcon(Files[4]) == "swift"
  {
    assert Files[0] == "Budget.xlsx" && Files[3] == "Report.pdf";
    GenericIcon("Budget.xlsx");
    GenericIcon("Report.pdf");
    assert GetFileIcon(Files[1]) == "doc.text" by {
      assert HasSuffix("Notes.txt", "txt") && !HasSuffix("Notes.txt", "png");
    }
    assert HasSuffix("Logo.png", "png");
    assert GetFileIcon(Files[4]) == "swift" by {
      GetFileIconBySuffix("Script.swift");
      assert HasSuffix("Script.swift", "swift");
    }
  }

  /** An entry of the content area: folder i or file j. */
  datatype Item = Folder(i: nat) | File(j: nat)

  predicate IsShown(item: Item)
  {
    match item
    case Folder(i) => i < |Folders|
    case File(j) => j < |Files|
  }

  /**
   * The selection index of an entry: folders first, then files offset by the
   * folder count, so for a shown entry the index is below the folder count
   * exactly for a folder, and the entry can be read back from it.
   */
  function ItemIndex(item: Item): (k: nat)
    ensures IsShown(item) ==> (item.Folder? <==> k < |Folders|)
    ensures IsShown(item) ==> ItemAt(k) == item
  {
    match item
    case Folder(i) => i
    case File(j) => j + |Folders|
  }

  /** The entry that carries selection index k. */
  function ItemAt(k: nat): Item
  {
    if k < |Folders| then Folder(k) else File(k - |Folders|)
  }

  /** The indices of the shown entries are distinct and are exactly 0 to 8. */
  lemma ItemIndexIsBijection()
    ensures forall item :: IsShown(item) ==> ItemIndex(item) < 9 && ItemAt(ItemIndex(item)) == item
    ensures forall k: nat :: k < 9 ==> IsShown(ItemAt(k)) && ItemIndex(ItemAt(k)) == k
    ensures forall a, b :: IsShown(a) && IsShown(b) && ItemIndex(a) == ItemIndex(b) ==> a == b
  {
    forall a, b | IsShown(a) && IsShown(b) && ItemIndex(a) == ItemIndex(b) ensures a == b {
      assert ItemAt(ItemIndex(a)) == a && ItemAt(ItemIndex(b)) == b;
    }
  }

  /** The Finder window's selection (`selectedItem`). */
  class FinderSelection {
    var selectedItem: Option<nat>

    constructor ()
      ensures selectedItem == None
    {
      selectedItem := None;
    }

    /** Tapping folder i selects its item. */
    method TapFolder(i: nat)
      requires i < |Folders|
      modifies this
      ensures selectedItem == Some(ItemIndex(Folder(i)))
    {
      selectedItem := Some(i);
    }

    /** Tapping file i selects its item. */
    method TapFile(i: nat)
      requires i < |Files|
      modifies this
      ensures selectedItem == Some(ItemIndex(File(i)))
    {
      var offsetIndex := i + |Folders|;
      selectedItem := Some(offsetIndex);
    }

    /** The items drawn as selected: at most one, and only the selected index. */
    function ShownSelected(): (shown: set<nat>)
      reads this
      ensures |shown| <= 1
      ensures forall k :: k in shown <==> k < |Folders| + |Files| && selectedItem == Some(k)
    {
      var shown := set k: nat | k < |Folders| + |Files| && selectedItem == Some(k);
      assert selectedItem.Some? && selectedItem.value < |Folders| + |Files| ==> shown == {selectedItem.value};
      assert !(selectedItem.Some? && selectedItem.value < |Folders| + |Files|) ==> shown == {};
      shown
    }
  }
}
