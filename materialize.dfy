/** Creating a project's folders on disk from a template. The file system is
    reduced to what the walk observes: the set of directories that exist and
    the order of the Directory.CreateDirectory calls made. */
module Materialize {
  import opened Folders
  import opened Walks

  /** Every non-empty prefix of a path: the directories CreateDirectory
      ensures exist, since it also creates each missing parent. */
  function Ancestors(p: Path): set<Path>
  {
    set i | 1 <= i <= |p| :: p[..i]
  }

  /** The directories that creating each path of `ps` in turn ensures exist. */
  function Reached(ps: seq<Path>): set<Path>
  {
    if ps == [] then {} else Ancestors(ps[0]) + Reached(ps[1..])
  }

  /** A set of directories in which every directory's parents exist too. */
  ghost predicate PrefixClosed(dirs: set<Path>)
  {
    forall p, i :: p in dirs && 1 <= i <= |p| ==> p[..i] in dirs
  }

  /** The directories that exist after a project is created over `existing`:
      the project directory, and a directory for every folder of the template. */
  function ProjectDirectories(existing: set<Path>, roots: seq<Folder>, project: Path): set<Path>
  {
    existing + Ancestors(project) + Reached(Paths(roots, project))
  }

  /** The directory-creation capability the walk calls. `directories` are
      the directories that exist, `calls` the paths passed to CreateDirectory
      so far, and `initial` (ghost) what existed before the first call. */
  class Disk {
    var directories: set<Path>
    var calls: seq<Path>
    ghost var initial: set<Path>

    ghost predicate Valid()
      reads this
    {
      directories == initial + Reached(calls)
    }

    constructor (existing: set<Path>)
      ensures Valid() && initial == existing
      ensures directories == existing && calls == []
    {
      directories := existing;
      calls := [];
      initial := existing;
    }

    /** Directory.CreateDirectory(p): creates p and every missing parent, and
        does nothing to a directory that already exists. */
    method CreateDirectory(p: Path)
      requires Valid()
      modifies this
      ensures Valid() && initial == old(initial)
      ensures directories == old(directories) + Ancestors(p)
      ensures calls == old(calls) + [p]
    {
      ReachedAppend(calls, [p]);
      assert Reached([p]) == Ancestors(p);
      directories := directories + Ancestors(p);
      calls := calls + [p];
    }
  }

  lemma {:induction false} ReachedAppend(a: seq<Path>, b: seq<Path>)
    ensures Reached(a + b) == Reached(a) + Reached(b)
  {
    if a == [] {
      assert a + b == b;
    } else {
      assert (a + b)[0] == a[0] && (a + b)[1..] == a[1..] + b;
      ReachedAppend(a[1..], b);
    }
  }

  /** CreateFolderStructure(folder, parentPath): creates the folder's
      directory, then each subfolder's structure under it, in list order. */
  method CreateFolderStructure(disk: Disk, folder: Folder, parentPath: Path)
    requires disk.Valid()
    modifies disk
    ensures disk.Valid() && disk.initial == old(disk.initial)
    ensures disk.calls == old(disk.calls) + Paths([folder], parentPath)
    decreases folder
  {
    var newPath := parentPath + [folder.name];
    disk.CreateDirectory(newPath);
    for i := 0 to |folder.subfolders|
      invariant disk.Valid() && disk.initial == old(disk.initial)
      invariant disk.calls == old(disk.calls) + [newPath] + Paths(folder.subfolders[..i], newPath)
    {
      CreateFolderStructure(disk, folder.subfolders[i], newPath);
      PathsSnoc(folder.subfolders, i, newPath);
    }
    assert folder.subfolders[..|folder.subfolders|] == folder.subfolders;
    PathsOfOne(folder, parentPath);
  }

  /** The core of CreateNewProject once the project path is chosen: create the
      project directory, then the structure of every root folder under it. */
  method CreateProject(disk: Disk, roots: seq<Folder>, projectPath: Path)
    requires disk.Valid()
    modifies disk
    ensures disk.Valid() && disk.initial == old(disk.initial)
    ensures disk.calls == old(disk.calls) + [projectPath] + Paths(roots, projectPath)
    ensures disk.directories == ProjectDirectories(old(disk.directories), roots, projectPath)
  {
    disk.CreateDirectory(projectPath);
    for i := 0 to |roots|
      invariant disk.Valid() && disk.initial == old(disk.initial)
      invariant disk.calls == old(disk.calls) + [projectPath] + Paths(roots[..i], projectPath)
    {
      CreateFolderStructure(disk, roots[i], projectPath);
      PathsSnoc(roots, i, projectPath);
    }
    assert roots[..|roots|] == roots;
    assert disk.calls == old(disk.calls) + ([projectPath] + Paths(roots, projectPath));
    ReachedAppend(old(disk.calls), [projectPath] + Paths(roots, projectPath));
    ReachedAppend([projectPath], Paths(roots, projectPath));
    assert Reached([projectPath]) == Ancestors(projectPath);
  }

  // Properties of materialisation

  lemma PathsSnoc(fs: seq<Folder>, i: nat, parent: Path)
    requires i < |fs|
    ensures Paths(fs[..i + 1], parent) == Paths(fs[..i], parent) + Paths([fs[i]], parent)
  {
    assert fs[..i + 1] == fs[..i] + [fs[i]];
    PathsAppend(fs[..i], [fs[i]], parent);
  }

  lemma PathsOfOne(folder: Folder, parentPath: Path)
    ensures Paths([folder], parentPath) == [parentPath + [folder.name]] + Paths(folder.subfolders, parentPath + [folder.name])
  {
    assert [folder][1..] == [];
  }

  lemma {:induction false} ReachedContainsPaths(ps: seq<Path>)
    requires forall k :: 0 <= k < |ps| ==> |ps[k]| >= 1
    ensures forall k :: 0 <= k < |ps| ==> ps[k] in Reached(ps)
  {
    if ps != [] {
      ReachedContainsPaths(ps[1..]);
      assert ps[0][..|ps[0]|] == ps[0];
      assert ps[0] in Ancestors(ps[0]);
      forall k | 1 <= k < |ps|
        ensures ps[k] in Reached(ps)
      {
        assert ps[k] == ps[1..][k - 1];
      }
    }
  }

  /** Every directory the walk creates, and the project directory itself,
      exists afterwards. */
  lemma ProjectCreatesEveryFolder(existing: set<Path>, roots: seq<Folder>, projectPath: Path)
    requires |projectPath| >= 1
    ensures projectPath in ProjectDirectories(existing, roots, projectPath)
    ensures forall p :: p in Paths(roots, projectPath) ==> p in ProjectDirectories(existing, roots, projectPath)
  {
    assert projectPath[..|projectPath|] == projectPath;
    assert projectPath in Ancestors(projectPath);
    PathsParentsFirst(roots, projectPath);
    ReachedContainsPaths(Paths(roots, projectPath));
  }

  /** Creating the same project again over what the first run left changes
      nothing: every directory already exists. */
  lemma CreateProjectIdempotent(existing: set<Path>, roots: seq<Folder>, projectPath: Path)
    ensures ProjectDirectories(ProjectDirectories(existing, roots, projectPath), roots, projectPath)
            == ProjectDirectories(existing, roots, projectPath)
  {
  }

  /** In the sequence of CreateDirectory calls of one project, every call after
      the first is for a directory whose parent an earlier call created. */
  lemma CreateProjectParentsFirst(roots: seq<Folder>, projectPath: Path)
    requires |projectPath| >= 1
    ensures ParentsFirst([projectPath] + Paths(roots, projectPath), Parent(projectPath))
  {
    PathsParentsFirst(roots, projectPath);
    ParentsFirstUnder(projectPath, Paths(roots, projectPath), Parent(projectPath));
  }

  /** The directories that exist stay closed under taking parents. */
  lemma {:induction false} ReachedPrefixClosed(existing: set<Path>, ps: seq<Path>)
    requires PrefixClosed(existing)
    ensures PrefixClosed(existing + Reached(ps))
  {
    if ps != [] {
      ReachedPrefixClosed(existing, ps[1..]);
      var r := existing + Reached(ps);
      forall p, i | p in r && 1 <= i <= |p|
        ensures p[..i] in r
      {
        if p in Ancestors(ps[0]) {
          var j :| 1 <= j <= |ps[0]| && p == ps[0][..j];
          assert p[..i] == ps[0][..i];
        } else {
          assert p in existing + Reached(ps[1..]);
        }
      }
    }
  }
}
