/** The folder tree of a project template and the value-level edits on it.
    A folder is a name and an ordered list of subfolders; a template holds an
    ordered list of root folders. Siblings are meant to be unique ignoring
    case, and every edit that adds a name checks for that. */
module Folders {
  import opened Text

  datatype Folder = Folder(name: string, subfolders: seq<Folder>)

  datatype Option<T> = None | Some(value: T)

  /** The message an edit reports: which branch of the edit was taken. */
  datatype Outcome = Added | BlankName | DuplicateName | InvalidIndex | Removed(name: string)

  /** `new Folder { Name = name }`: a folder with no subfolders. */
  function Leaf(name: string): Folder
  {
    Folder(name, [])
  }

  /** Folders with the given names and no subfolders, in order. */
  function Leaves(names: seq<string>): seq<Folder>
  {
    seq(|names|, i requires 0 <= i < |names| => Leaf(names[i]))
  }

  /** `siblings.Exists(f => f.Name.Equals(name, StringComparison.OrdinalIgnoreCase))`. */
  predicate ContainsName(siblings: seq<Folder>, name: string)
  {
    exists i :: 0 <= i < |siblings| && EqualsIgnoreCase(siblings[i].name, name)
  }

  /** No two siblings share a name, ignoring case. */
  predicate DistinctNames(siblings: seq<Folder>)
  {
    forall i, j :: 0 <= i < j < |siblings| ==> !EqualsIgnoreCase(siblings[i].name, siblings[j].name)
  }

  /** Sibling names are distinct ignoring case at every level of the tree. */
  predicate WellFormed(fs: seq<Folder>)
  {
    DistinctNames(fs) && forall i :: 0 <= i < |fs| ==> WellFormed(fs[i].subfolders)
  }

  /** The number of folders in a forest, at every depth. */
  function Count(fs: seq<Folder>): nat
  {
    if fs == [] then 0 else 1 + Count(fs[0].subfolders) + Count(fs[1..])
  }

  /** The branch an add takes: a blank name is ignored first, then a name that
      an existing sibling already has ignoring case. */
  function AddVerdict(siblings: seq<Folder>, name: string): Outcome
  {
    if IsNullOrWhiteSpace(name) then BlankName
    else if ContainsName(siblings, name) then DuplicateName
    else Added
  }

  /** Adding a named leaf to a list of siblings, as both AddMainFolder and
      AddSubfolder do: it grows by exactly one exactly when the name is neither
      blank nor taken, the earlier siblings stay as they were, and the new one is
      a leaf with the given name at the end. */
  function AddUnique(siblings: seq<Folder>, name: string): (r: seq<Folder>)
    ensures |r| == |siblings| || |r| == |siblings| + 1
    ensures |r| == |siblings| + 1 <==> !IsNullOrWhiteSpace(name) && !ContainsName(siblings, name)
    ensures r[..|siblings|] == siblings
    ensures |r| == |siblings| + 1 ==> r[|siblings|] == Leaf(name)
  {
    if AddVerdict(siblings, name) == Added then siblings + [Leaf(name)] else siblings
  }

  /** The test project's AddSubfolder(parentFolder, name): the parent keeps its
      name and gets the subfolders AddUnique gives. */
  function AddChild(parent: Folder, name: string): (r: Folder)
    ensures r.name == parent.name
    ensures |r.subfolders| == |parent.subfolders| || |r.subfolders| == |parent.subfolders| + 1
    ensures |r.subfolders| == |parent.subfolders| + 1 <==> AddVerdict(parent.subfolders, name) == Added
    ensures r.subfolders[..|parent.subfolders|] == parent.subfolders
    ensures |r.subfolders| == |parent.subfolders| + 1 ==> r.subfolders[|parent.subfolders|] == Leaf(name)
    ensures AddVerdict(parent.subfolders, name) != Added ==> r == parent
  {
    parent.(subfolders := AddUnique(parent.subfolders, name))
  }

  /** AddSubfolder on the roots of a template, with the 1-based index the user
      gives: an index outside 1..|roots| changes nothing, otherwise only the
      chosen root changes, and it changes as AddChild says. */
  function AddSubfolderAt(roots: seq<Folder>, parentIndex: int, name: string): (r: seq<Folder>)
    ensures |r| == |roots|
    ensures !(1 <= parentIndex <= |roots|) ==> r == roots
    ensures forall i :: 0 <= i < |r| && i != parentIndex - 1 ==> r[i] == roots[i]
    ensures 1 <= parentIndex <= |roots| ==> r[parentIndex - 1] == AddChild(roots[parentIndex - 1], name)
  {
    if 1 <= parentIndex <= |roots| then roots[parentIndex - 1 := AddChild(roots[parentIndex - 1], name)]
    else roots
  }

  /** `RemoveAt(index)` on a list of folders: the folder at `index` and its
      whole subtree go, and the others keep their relative order. */
  function RemoveAt(fs: seq<Folder>, index: nat): (r: seq<Folder>)
    requires index < |fs|
    ensures |r| == |fs| - 1
    ensures forall i :: 0 <= i < index ==> r[i] == fs[i]
    ensures forall i :: index <= i < |r| ==> r[i] == fs[i + 1]
    ensures multiset(r) + multiset{fs[index]} == multiset(fs)
  {
    assert fs == fs[..index] + [fs[index]] + fs[index + 1..];
    fs[..index] + fs[index + 1..]
  }

  /** `Find(f => f.Name == name)`: the first folder with exactly that name. */
  function FindByName(fs: seq<Folder>, name: string): (r: Option<Folder>)
    ensures r.Some? ==> r.value in fs && r.value.name == name
    ensures r.None? <==> forall i :: 0 <= i < |fs| ==> fs[i].name != name
    ensures r.Some? ==> exists i :: 0 <= i < |fs| && fs[i] == r.value && forall j :: 0 <= j < i ==> fs[j].name != name
  {
    if fs == [] then None
    else if fs[0].name == name then Some(fs[0])
    else FindByName(fs[1..], name)
  }

  /** CreateDefaultTemplate: the seed template every new session starts from. */
  function DefaultFolders(): (r: seq<Folder>)
    ensures |r| == 4
    ensures r[0].name == "Dokumentace" && r[1].name == "Materiály"
    ensures r[2].name == "Komunikace" && r[3].name == "Fotografie"
    ensures |r[0].subfolders| == 3 && |r[1].subfolders| == 2
    ensures |r[2].subfolders| == 2 && |r[3].subfolders| == 0
    ensures forall i, j :: 0 <= i < |r| && 0 <= j < |r[i].subfolders| ==> r[i].subfolders[j].subfolders == []
  {
    [ Folder("Dokumentace", [Leaf("Technická dokumentace"), Leaf("Smlouvy"), Leaf("Reporty")]),
      Folder("Materiály", [Leaf("Specifikace"), Leaf("Kalkulace")]),
      Folder("Komunikace", [Leaf("Klient"), Leaf("Interní")]),
      Leaf("Fotografie") ]
  }

  // Properties of the edits

  /** Every edit that appends keeps sibling names distinct. */
  lemma AddUniqueKeepsDistinct(siblings: seq<Folder>, name: string)
    requires DistinctNames(siblings)
    ensures DistinctNames(AddUnique(siblings, name))
  {
    var r := AddUnique(siblings, name);
    if |r| == |siblings| + 1 {
      forall i, j | 0 <= i < j < |r|
        ensures !EqualsIgnoreCase(r[i].name, r[j].name)
      {
        if j == |siblings| {
          assert r[i] == siblings[i];
          assert !EqualsIgnoreCase(siblings[i].name, name);
        } else {
          assert r[i] == siblings[i] && r[j] == siblings[j];
        }
      }
    }
  }

  lemma AddUniqueKeepsWellFormed(siblings: seq<Folder>, name: string)
    requires WellFormed(siblings)
    ensures WellFormed(AddUnique(siblings, name))
  {
    AddUniqueKeepsDistinct(siblings, name);
    var r := AddUnique(siblings, name);
    forall i | 0 <= i < |r|
      ensures WellFormed(r[i].subfolders)
    {
      if i < |siblings| {
        assert r[i] == siblings[i];
      }
    }
  }

  /** After an add with a non-blank name, a folder of that name (ignoring case)
      is among the siblings: either it was there already or it is the new one. */
  lemma AddUniqueMakesNamePresent(siblings: seq<Folder>, name: string)
    requires !IsNullOrWhiteSpace(name)
    ensures ContainsName(AddUnique(siblings, name), name)
  {
    var r := AddUnique(siblings, name);
    if ContainsName(siblings, name) {
      var i :| 0 <= i < |siblings| && EqualsIgnoreCase(siblings[i].name, name);
      assert r[i] == siblings[i];
    } else {
      assert r[|siblings|].name == name;
    }
  }

  /** Adding the same name twice is the same as adding it once. */
  lemma AddUniqueIdempotent(siblings: seq<Folder>, name: string)
    ensures AddUnique(AddUnique(siblings, name), name) == AddUnique(siblings, name)
  {
    if !IsNullOrWhiteSpace(name) {
      AddUniqueMakesNamePresent(siblings, name);
    }
  }

  /** Adding a subfolder under a root keeps the whole tree well formed. */
  lemma AddSubfolderAtKeepsWellFormed(roots: seq<Folder>, parentIndex: int, name: string)
    requires WellFormed(roots)
    ensures WellFormed(AddSubfolderAt(roots, parentIndex, name))
  {
    if 1 <= parentIndex <= |roots| {
      var k := parentIndex - 1;
      var r := AddSubfolderAt(roots, parentIndex, name);
      AddUniqueKeepsWellFormed(roots[k].subfolders, name);
      forall i, j | 0 <= i < j < |r|
        ensures !EqualsIgnoreCase(r[i].name, r[j].name)
      {
        assert r[i].name == roots[i].name && r[j].name == roots[j].name;
      }
      forall i | 0 <= i < |r|
        ensures WellFormed(r[i].subfolders)
      {
        if i != k {
          assert r[i] == roots[i];
        }
      }
    }
  }

  /** Removing a root keeps the tree well formed. */
  lemma RemoveAtKeepsWellFormed(fs: seq<Folder>, index: nat)
    requires index < |fs| && WellFormed(fs)
    ensures WellFormed(RemoveAt(fs, index))
  {
    var r := RemoveAt(fs, index);
    forall i | 0 <= i < |r|
      ensures WellFormed(r[i].subfolders)
    {
      if i < index {
        assert r[i] == fs[i];
      } else {
        assert r[i] == fs[i + 1];
      }
    }
    forall i, j | 0 <= i < j < |r|
      ensures !EqualsIgnoreCase(r[i].name, r[j].name)
    {
      var i' := if i < index then i else i + 1;
      var j' := if j < index then j else j + 1;
      assert r[i] == fs[i'] && r[j] == fs[j'] && i' < j';
    }
  }

  /** When sibling names are distinct, a removed folder's name is no longer
      among them: the folder is really gone, not just one copy of it. */
  lemma RemoveAtRemovesName(fs: seq<Folder>, index: nat)
    requires index < |fs| && DistinctNames(fs)
    ensures !ContainsName(RemoveAt(fs, index), fs[index].name)
  {
    var r := RemoveAt(fs, index);
    forall i | 0 <= i < |r|
      ensures !EqualsIgnoreCase(r[i].name, fs[index].name)
    {
      if i < index {
        assert r[i] == fs[i];
      } else {
        assert r[i] == fs[i + 1];
        assert !EqualsIgnoreCase(fs[index].name, fs[i + 1].name);
      }
    }
  }

  /** The seed template already has unique sibling names at every level. */
  lemma DefaultIsWellFormed()
    ensures WellFormed(DefaultFolders())
  {
    var r := DefaultFolders();
    assert UpperInvariant("Komunikace"[0]) != UpperInvariant("Fotografie"[0]);
    assert UpperInvariant("Dokumentace"[0]) != UpperInvariant("Komunikace"[0]);
    assert !EqualsIgnoreCase("Technická dokumentace", "Smlouvy");
    assert UpperInvariant("Smlouvy"[0]) != UpperInvariant("Reporty"[0]);
    assert !EqualsIgnoreCase("Specifikace", "Kalkulace");
    assert !EqualsIgnoreCase("Klient", "Interní");
    forall i | 0 <= i < |r|
      ensures WellFormed(r[i].subfolders)
    {
      forall j | 0 <= j < |r[i].subfolders|
        ensures WellFormed(r[i].subfolders[j].subfolders)
      {
        assert r[i].subfolders[j].subfolders == [];
      }
    }
  }
}
