/** The assertions of the test project, stated over the model. The test
    project's helpers repeat the program's operations without console output,
    so they are the same members here: DefaultFolders, AddUnique, AddChild,
    RemoveAt and the materialising walk. */
module TemplateTests {
  import opened Text
  import opened Folders
  import opened Walks
  import opened Materialize

  /** Test_CreateDefaultTemplate_HasExpectedFolders. */
  lemma DefaultTemplateHasExpectedFolders()
    ensures |DefaultFolders()| == 4
    ensures FindByName(DefaultFolders(), "Dokumentace").Some?
    ensures |FindByName(DefaultFolders(), "Dokumentace").value.subfolders| == 3
    ensures FindByName(DefaultFolders(), "Materiály").Some?
    ensures |FindByName(DefaultFolders(), "Materiály").value.subfolders| == 2
  {
  }

  /** Test_AddMainFolder_AddsFolder: a fresh name adds exactly one root, a
      leaf that can be found by its name. */
  lemma AddMainFolderAddsFolder()
    ensures |AddUnique(DefaultFolders(), "TestovaciSlozka")| == |DefaultFolders()| + 1
    ensures FindByName(AddUnique(DefaultFolders(), "TestovaciSlozka"), "TestovaciSlozka") == Some(Leaf("TestovaciSlozka"))
  {
    var d := DefaultFolders();
    var r := AddUnique(d, "TestovaciSlozka");
    assert !IsWhiteSpace("TestovaciSlozka"[0]);
    assert !ContainsName(d, "TestovaciSlozka");
    assert r == d + [Leaf("TestovaciSlozka")];
    assert FindByName(r, "TestovaciSlozka") == FindByName(r[4..], "TestovaciSlozka") by {
      assert r[1..][1..][1..][1..] == r[4..];
    }
  }

  /** Test_AddSubfolder_AddsSubfolder: a fresh name under "Dokumentace" adds
      exactly one subfolder, found by its name. */
  lemma AddSubfolderAddsSubfolder()
    ensures |AddChild(DefaultFolders()[0], "TestovaciPodsložka").subfolders| == |DefaultFolders()[0].subfolders| + 1
    ensures FindByName(AddChild(DefaultFolders()[0], "TestovaciPodsložka").subfolders, "TestovaciPodsložka").Some?
  {
    var parent := DefaultFolders()[0];
    var r := AddChild(parent, "TestovaciPodsložka");
    assert !IsWhiteSpace("TestovaciPodsložka"[0]);
    assert !ContainsName(parent.subfolders, "TestovaciPodsložka");
    assert r.subfolders[3].name == "TestovaciPodsložka";
  }

  /** The helpers' two silent no-ops: a blank name, and a name an existing
      root already has in another case. */
  lemma AddMainFolderIgnoresBlankAndDuplicate()
    ensures AddUnique(DefaultFolders(), "   ") == DefaultFolders()
    ensures AddUnique(DefaultFolders(), "") == DefaultFolders()
    ensures AddUnique(DefaultFolders(), "DOKUMENTACE") == DefaultFolders()
    ensures AddUnique(DefaultFolders()[1].subfolders, "kalkulace") == DefaultFolders()[1].subfolders
  {
    assert IsWhiteSpace("   "[0]);
    assert EqualsIgnoreCase(DefaultFolders()[0].name, "DOKUMENTACE") by {
      AsciiCaseVariants("Dokumentace", "DOKUMENTACE");
    }
    assert EqualsIgnoreCase(DefaultFolders()[1].subfolders[1].name, "kalkulace") by {
      AsciiCaseVariants("Kalkulace", "kalkulace");
    }
  }

  /** Test_RemoveFolder_RemovesFolder: removing the first root leaves one
      root fewer, and "Dokumentace" is no longer among them. */
  lemma RemoveFirstRoot()
    ensures |RemoveAt(DefaultFolders(), 0)| == |DefaultFolders()| - 1
    ensures !ContainsName(RemoveAt(DefaultFolders(), 0), "Dokumentace")
  {
    DefaultIsWellFormed();
    RemoveAtRemovesName(DefaultFolders(), 0);
  }

  /** Test_CreateFolderStructure_CreatesAllFolders: after the project
      directory and every root's structure are created under the test
      directory, the directories the test checks exist. */
  lemma CreateFolderStructureCreatesAllFolders(existing: set<Path>, testDir: Path)
    ensures var project := testDir + ["TestProject"];
            var dirs := ProjectDirectories(existing, DefaultFolders(), project);
            project in dirs &&
            project + ["Dokumentace"] in dirs &&
            project + ["Dokumentace", "Technická dokumentace"] in dirs &&
            project + ["Materiály"] in dirs &&
            project + ["Komunikace"] in dirs &&
            project + ["Fotografie"] in dirs
  {
    var project := testDir + ["TestProject"];
    DefaultPaths(project);
    ProjectCreatesEveryFolder(existing, DefaultFolders(), project);
    var ps := Paths(DefaultFolders(), project);
    assert ps[0] in ps && ps[1] in ps && ps[4] in ps && ps[7] in ps && ps[10] in ps;
  }

  /** The indentation and branch glyph DisplaySubfolders prints before a
      subfolder of a root. */
  const Branch := "  └─ "

  /** DisplayTemplate on the seed template prints these lines. */
  lemma DefaultListing()
    ensures Listing(DefaultFolders()) ==
      ["1. Dokumentace", Branch + "Technická dokumentace", Branch + "Smlouvy", Branch + "Reporty"] +
      ["2. Materiály", Branch + "Specifikace", Branch + "Kalkulace"] +
      ["3. Komunikace", Branch + "Klient", Branch + "Interní"] +
      ["4. Fotografie"]
  {
    assert DefaultFolders()[0] == Folder("Dokumentace", Leaves(["Technická dokumentace", "Smlouvy", "Reporty"]));
    assert DefaultFolders()[1] == Folder("Materiály", Leaves(["Specifikace", "Kalkulace"]));
    assert DefaultFolders()[2] == Folder("Komunikace", Leaves(["Klient", "Interní"]));
    assert DefaultFolders()[3] == Folder("Fotografie", Leaves([]));
    DokumentaceLines(DefaultFolders());
    MaterialyLines(DefaultFolders());
    KomunikaceLines(DefaultFolders());
    FotografieLines(DefaultFolders());
    assert DefaultFolders()[..4] == DefaultFolders();
  }

  lemma DokumentaceLines(roots: seq<Folder>)
    requires |roots| >= 1 && roots[0] == Folder("Dokumentace", Leaves(["Technická dokumentace", "Smlouvy", "Reporty"]))
    ensures Listing(roots[..1]) ==
      ["1. Dokumentace", Branch + "Technická dokumentace", Branch + "Smlouvy", Branch + "Reporty"]
  {
    assert Listing(roots[..0]) == [] by {
      assert roots[..0] == [];
    }
    assert Decimal(1) == "1";
    RootListing(roots, 0, "1", ["Technická dokumentace", "Smlouvy", "Reporty"]);
    assert "1" + ". " + "Dokumentace" == "1. Dokumentace";
  }

  lemma MaterialyLines(roots: seq<Folder>)
    requires |roots| >= 2 && roots[1] == Folder("Materiály", Leaves(["Specifikace", "Kalkulace"]))
    ensures Listing(roots[..2]) ==
      Listing(roots[..1]) + ["2. Materiály", Branch + "Specifikace", Branch + "Kalkulace"]
  {
    assert Decimal(2) == "2";
    RootListing(roots, 1, "2", ["Specifikace", "Kalkulace"]);
    assert "2" + ". " + "Materiály" == "2. Materiály";
  }

  lemma KomunikaceLines(roots: seq<Folder>)
    requires |roots| >= 3 && roots[2] == Folder("Komunikace", Leaves(["Klient", "Interní"]))
    ensures Listing(roots[..3]) ==
      Listing(roots[..2]) + ["3. Komunikace", Branch + "Klient", Branch + "Interní"]
  {
    assert Decimal(3) == "3";
    RootListing(roots, 2, "3", ["Klient", "Interní"]);
    assert "3" + ". " + "Komunikace" == "3. Komunikace";
  }

  lemma FotografieLines(roots: seq<Folder>)
    requires |roots| >= 4 && roots[3] == Folder("Fotografie", Leaves([]))
    ensures Listing(roots[..4]) == Listing(roots[..3]) + ["4. Fotografie"]
  {
    assert Decimal(4) == "4";
    RootListing(roots, 3, "4", []);
    assert "4" + ". " + "Fotografie" == "4. Fotografie";
  }

  /** One step of the listing above: the lines a root whose subfolders are
      leaves adds after the roots before it. */
  lemma RootListing(roots: seq<Folder>, i: nat, ordinal: string, names: seq<string>)
    requires i < |roots| && ordinal == Decimal(i + 1)
    requires roots[i].subfolders == Leaves(names)
    ensures Listing(roots[..i + 1]) == Listing(roots[..i]) + [ordinal + ". " + roots[i].name]
              + seq(|names|, k requires 0 <= k < |names| => Branch + names[k])
  {
    ListingSnoc(roots, i);
    LeafLines(names, "  ");
    assert forall k :: 0 <= k < |names| ==> "  " + "└─ " + names[k] == Branch + names[k];
  }

  /** Materialising the seed template under `project` creates these eleven
      directories, in this order. */
  lemma DefaultPaths(project: Path)
    ensures Paths(DefaultFolders(), project) ==
      [ project + ["Dokumentace"], project + ["Dokumentace", "Technická dokumentace"],
        project + ["Dokumentace", "Smlouvy"], project + ["Dokumentace", "Reporty"] ] +
      [ project + ["Materiály"], project + ["Materiály", "Specifikace"], project + ["Materiály", "Kalkulace"] ] +
      [ project + ["Komunikace"], project + ["Komunikace", "Klient"], project + ["Komunikace", "Interní"] ] +
      [ project + ["Fotografie"] ]
  {
    DokumentacePaths(project);
    MaterialyPaths(project);
    KomunikacePaths(project);
    FotografiePaths(project);
    assert DefaultFolders()[..4] == DefaultFolders();
  }

  lemma DokumentacePaths(project: Path)
    ensures Paths(DefaultFolders()[..1], project) ==
      [ project + ["Dokumentace"], project + ["Dokumentace", "Technická dokumentace"],
        project + ["Dokumentace", "Smlouvy"], project + ["Dokumentace", "Reporty"] ]
  {
    assert Paths(DefaultFolders()[..0], project) == [] by {
      assert DefaultFolders()[..0] == [];
    }
    assert DefaultFolders()[0].subfolders == Leaves(["Technická dokumentace", "Smlouvy", "Reporty"]);
    RootPaths(DefaultFolders(), 0, project, ["Technická dokumentace", "Smlouvy", "Reporty"]);
    assert project + ["Dokumentace"] + ["Technická dokumentace"] == project + ["Dokumentace", "Technická dokumentace"];
    assert project + ["Dokumentace"] + ["Smlouvy"] == project + ["Dokumentace", "Smlouvy"];
    assert project + ["Dokumentace"] + ["Reporty"] == project + ["Dokumentace", "Reporty"];
  }

  lemma MaterialyPaths(project: Path)
    ensures Paths(DefaultFolders()[..2], project) == Paths(DefaultFolders()[..1], project) +
      [ project + ["Materiály"], project + ["Materiály", "Specifikace"], project + ["Materiály", "Kalkulace"] ]
  {
    assert DefaultFolders()[1].subfolders == Leaves(["Specifikace", "Kalkulace"]);
    RootPaths(DefaultFolders(), 1, project, ["Specifikace", "Kalkulace"]);
    assert project + ["Materiály"] + ["Specifikace"] == project + ["Materiály", "Specifikace"];
    assert project + ["Materiály"] + ["Kalkulace"] == project + ["Materiály", "Kalkulace"];
  }

  lemma KomunikacePaths(project: Path)
    ensures Paths(DefaultFolders()[..3], project) == Paths(DefaultFolders()[..2], project) +
      [ project + ["Komunikace"], project + ["Komunikace", "Klient"], project + ["Komunikace", "Interní"] ]
  {
    assert DefaultFolders()[2].subfolders == Leaves(["Klient", "Interní"]);
    RootPaths(DefaultFolders(), 2, project, ["Klient", "Interní"]);
    assert project + ["Komunikace"] + ["Klient"] == project + ["Komunikace", "Klient"];
    assert project + ["Komunikace"] + ["Interní"] == project + ["Komunikace", "Interní"];
  }

  lemma FotografiePaths(project: Path)
    ensures Paths(DefaultFolders()[..4], project) == Paths(DefaultFolders()[..3], project) + [project + ["Fotografie"]]
  {
    assert DefaultFolders()[3].subfolders == Leaves([]);
    RootPaths(DefaultFolders(), 3, project, []);
  }

  /** The test's sequence of calls, run against a disk holding only the test
      directory: CreateDirectory(projectPath), then CreateFolderStructure for
      each root. */
  method CreateFolderStructureScenario(testDir: Path) returns (disk: Disk)
    requires |testDir| >= 1
    ensures disk.calls == [testDir + ["TestProject"]] + Paths(DefaultFolders(), testDir + ["TestProject"])
    ensures |disk.calls| == 12
    ensures testDir + ["TestProject", "Fotografie"] in disk.directories
  {
    disk := new Disk(Ancestors(testDir));
    var project := testDir + ["TestProject"];
    CreateProject(disk, DefaultFolders(), project);
    DefaultPaths(project);
    ProjectCreatesEveryFolder(Ancestors(testDir), DefaultFolders(), project);
    assert Paths(DefaultFolders(), project)[10] == testDir + ["TestProject", "Fotografie"];
  }
}
