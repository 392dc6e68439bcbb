/** The template the editor works on: a list of root folders that the menu's
    edits change in place. Each edit returns the outcome it reports to the
    user, so that the silent no-ops (blank or duplicate names) and the
    reported errors (a bad index) stay told apart. */
module Template {
  import opened Text
  import opened Folders
  import opened Walks

  class FolderTemplate {
    var baseFolders: seq<Folder>

    /** `new FolderTemplate()`: no root folders yet. */
    constructor ()
      ensures baseFolders == []
    {
      baseFolders := [];
    }

    /** CreateDefaultTemplate: a fresh template holding the seed folders. */
    constructor CreateDefault()
      ensures baseFolders == DefaultFolders()
      ensures WellFormed(baseFolders)
    {
      baseFolders := DefaultFolders();
      DefaultIsWellFormed();
    }

    /** AddMainFolder: a blank name or one that a root already has (ignoring
        case) is ignored; otherwise a leaf of that name is appended. */
    method AddMainFolder(folderName: string) returns (outcome: Outcome)
      modifies this
      ensures outcome == AddVerdict(old(baseFolders), folderName)
      ensures baseFolders == AddUnique(old(baseFolders), folderName)
      ensures old(WellFormed(baseFolders)) ==> WellFormed(baseFolders)
    {
      if IsNullOrWhiteSpace(folderName) {
        return BlankName;
      }
      if ContainsName(baseFolders, folderName) {
        return DuplicateName;
      }
      if WellFormed(baseFolders) {
        AddUniqueKeepsWellFormed(baseFolders, folderName);
      }
      baseFolders := baseFolders + [Leaf(folderName)];
      outcome := Added;
    }

    /** AddSubfolder with the 1-based number the user picks: a number outside
        1..Count is reported and changes nothing; otherwise the chosen root's
        subfolders get the name under the same rules as AddMainFolder. */
    method AddSubfolder(parentIndex: int, folderName: string) returns (outcome: Outcome)
      modifies this
      ensures !(1 <= parentIndex <= |old(baseFolders)|) ==> outcome == InvalidIndex
      ensures 1 <= parentIndex <= |old(baseFolders)| ==>
                outcome == AddVerdict(old(baseFolders)[parentIndex - 1].subfolders, folderName)
      ensures baseFolders == AddSubfolderAt(old(baseFolders), parentIndex, folderName)
      ensures old(WellFormed(baseFolders)) ==> WellFormed(baseFolders)
    {
      if parentIndex < 1 || parentIndex > |baseFolders| {
        return InvalidIndex;
      }
      var parentFolder := baseFolders[parentIndex - 1];
      if IsNullOrWhiteSpace(folderName) {
        return BlankName;
      }
      if ContainsName(parentFolder.subfolders, folderName) {
        return DuplicateName;
      }
      if WellFormed(baseFolders) {
        AddSubfolderAtKeepsWellFormed(baseFolders, parentIndex, folderName);
      }
      baseFolders := baseFolders[parentIndex - 1 := parentFolder.(subfolders := parentFolder.subfolders + [Leaf(folderName)])];
      outcome := Added;
    }

    /** RemoveFolder with the 1-based number the user picks: a number outside
        1..Count is reported and changes nothing; otherwise that root and its
        whole subtree go, and the outcome names the removed folder. */
    method RemoveFolder(folderIndex: int) returns (outcome: Outcome)
      modifies this
      ensures !(1 <= folderIndex <= |old(baseFolders)|) ==> outcome == InvalidIndex && baseFolders == old(baseFolders)
      ensures 1 <= folderIndex <= |old(baseFolders)| ==>
                outcome == Removed(old(baseFolders)[folderIndex - 1].name) &&
                baseFolders == RemoveAt(old(baseFolders), folderIndex - 1)
      ensures old(WellFormed(baseFolders)) ==> WellFormed(baseFolders)
    {
      if folderIndex < 1 || folderIndex > |baseFolders| {
        return InvalidIndex;
      }
      var folderName := baseFolders[folderIndex - 1].name;
      if WellFormed(baseFolders) {
        RemoveAtKeepsWellFormed(baseFolders, folderIndex - 1);
      }
      baseFolders := baseFolders[..folderIndex - 1] + baseFolders[folderIndex..];
      outcome := Removed(folderName);
    }

    /** DisplayTemplate: the lines printed under the heading, one per folder,
        roots numbered from 1 and deeper folders indented by depth. */
    method DisplayTemplate() returns (lines: seq<string>)
      ensures lines == Listing(baseFolders)
      ensures |lines| == Count(baseFolders)
    {
      lines := [];
      var i := 0;
      while i < |baseFolders|
        invariant 0 <= i <= |baseFolders|
        invariant lines == Listing(baseFolders[..i])
      {
        ListingSnoc(baseFolders, i);
        lines := lines + [Decimal(i + 1) + ". " + baseFolders[i].name];
        lines := lines + SubfolderLines(baseFolders[i].subfolders, "  ");
        i := i + 1;
      }
      assert baseFolders[..i] == baseFolders;
      ListingCount(baseFolders);
    }
  }
}
