/** The two pre-order walks over a template: the listing that DisplayTemplate
    prints and the directory paths that CreateFolderStructure creates. Both
    visit a folder, then its subfolders in list order, then its later siblings. */
module Walks {
  import opened Text
  import opened Folders

  /** A folder as the listing sees it: its nesting depth (0 for a root) and its name. */
  datatype Entry = Entry(depth: nat, name: string)

  /** A directory path as its list of segments; Path.Combine(parent, name) is parent + [name]. */
  type Path = seq<string>

  /** The listing walk: each folder at `depth`, then its subfolders one level
      deeper, then its later siblings at `depth`. */
  function Outline(fs: seq<Folder>, depth: nat): seq<Entry>
  {
    if fs == [] then []
    else [Entry(depth, fs[0].name)] + Outline(fs[0].subfolders, depth + 1) + Outline(fs[1..], depth)
  }

  /** The materialising walk: CreateFolderStructure(f, parent) for each f in
      `fs`, as the list of paths passed to Directory.CreateDirectory, in order. */
  function Paths(fs: seq<Folder>, parent: Path): seq<Path>
  {
    if fs == [] then []
    else
      var p := parent + [fs[0].name];
      [p] + Paths(fs[0].subfolders, p) + Paths(fs[1..], parent)
  }

  function Parent(p: Path): Path
    requires |p| >= 1
  {
    p[..|p| - 1]
  }

  /** Every path in `ps` is created after its parent: the parent is `base`,
      which exists before the walk starts, or a path created earlier in `ps`. */
  predicate ParentsFirst(ps: seq<Path>, base: Path)
  {
    forall k :: 0 <= k < |ps| ==> |ps[k]| >= 1 && (Parent(ps[k]) == base || Parent(ps[k]) in ps[..k])
  }

  // Sizes and splitting

  lemma {:induction false} OutlineCount(fs: seq<Folder>, depth: nat)
    ensures |Outline(fs, depth)| == Count(fs)
  {
    if fs != [] {
      OutlineCount(fs[0].subfolders, depth + 1);
      OutlineCount(fs[1..], depth);
    }
  }

  lemma {:induction false} PathsCount(fs: seq<Folder>, parent: Path)
    ensures |Paths(fs, parent)| == Count(fs)
  {
    if fs != [] {
      PathsCount(fs[0].subfolders, parent + [fs[0].name]);
      PathsCount(fs[1..], parent);
    }
  }

  lemma {:induction false} OutlineAppend(a: seq<Folder>, b: seq<Folder>, depth: nat)
    ensures Outline(a + b, depth) == Outline(a, depth) + Outline(b, depth)
  {
    if a == [] {
      assert a + b == b;
    } else {
      assert (a + b)[0] == a[0] && (a + b)[1..] == a[1..] + b;
      OutlineAppend(a[1..], b, depth);
    }
  }

  lemma {:induction false} PathsAppend(a: seq<Folder>, b: seq<Folder>, parent: Path)
    ensures Paths(a + b, parent) == Paths(a, parent) + Paths(b, parent)
  {
    if a == [] {
      assert a + b == b;
    } else {
      assert (a + b)[0] == a[0] && (a + b)[1..] == a[1..] + b;
      PathsAppend(a[1..], b, parent);
    }
  }

  // The two walks agree

  /** The k-th line of the listing and the k-th directory created are the same
      folder: the path lies under `parent`, ends in the entry's name, and has
      one segment more than `parent` for each level of depth. */
  lemma WalksAgree(fs: seq<Folder>, depth: nat, parent: Path, k: nat)
    requires k < Count(fs)
    ensures |Outline(fs, depth)| == |Paths(fs, parent)| == Count(fs)
    ensures Outline(fs, depth)[k].depth >= depth
    ensures |Paths(fs, parent)[k]| == |parent| + 1 + Outline(fs, depth)[k].depth - depth
    ensures Paths(fs, parent)[k][..|parent|] == parent
    ensures Paths(fs, parent)[k][|Paths(fs, parent)[k]| - 1] == Outline(fs, depth)[k].name
  {
    OutlineCount(fs, depth);
    PathsCount(fs, parent);
    WalkShape(fs, depth, parent, k);
    WalkNames(fs, depth, parent, k);
    PathsUnder(fs, parent, k);
  }

  lemma {:induction false} WalkShape(fs: seq<Folder>, depth: nat, parent: Path, k: nat)
    requires k < Count(fs)
    ensures |Outline(fs, depth)| == |Paths(fs, parent)| == Count(fs)
    ensures Outline(fs, depth)[k].depth >= depth
    ensures |Paths(fs, parent)[k]| == |parent| + 1 + Outline(fs, depth)[k].depth - depth
  {
    OutlineIndex(fs, depth, k);
    PathsIndex(fs, parent, k);
    if 0 < k <= Count(fs[0].subfolders) {
      WalkShape(fs[0].subfolders, depth + 1, parent + [fs[0].name], k - 1);
    } else if Count(fs[0].subfolders) < k {
      WalkShape(fs[1..], depth, parent, k - 1 - Count(fs[0].subfolders));
    }
  }

  lemma {:induction false} WalkNames(fs: seq<Folder>, depth: nat, parent: Path, k: nat)
    requires k < Count(fs)
    ensures |Outline(fs, depth)| == |Paths(fs, parent)| == Count(fs)
    ensures |Paths(fs, parent)[k]| >= 1
    ensures Paths(fs, parent)[k][|Paths(fs, parent)[k]| - 1] == Outline(fs, depth)[k].name
  {
    OutlineIndex(fs, depth, k);
    PathsIndex(fs, parent, k);
    if 0 < k <= Count(fs[0].subfolders) {
      WalkNames(fs[0].subfolders, depth + 1, parent + [fs[0].name], k - 1);
    } else if Count(fs[0].subfolders) < k {
      WalkNames(fs[1..], depth, parent, k - 1 - Count(fs[0].subfolders));
    }
  }

  /** Every directory of the walk lies under the path it starts from. */
  lemma {:induction false} PathsUnder(fs: seq<Folder>, parent: Path, k: nat)
    requires k < Count(fs)
    ensures |Paths(fs, parent)| == Count(fs)
    ensures |Paths(fs, parent)[k]| > |parent| && Paths(fs, parent)[k][..|parent|] == parent
  {
    PathsIndex(fs, parent, k);
    if 0 < k <= Count(fs[0].subfolders) {
      PathsUnder(fs[0].subfolders, parent + [fs[0].name], k - 1);
      assert Paths(fs, parent)[k][..|parent|] == Paths(fs, parent)[k][..|parent| + 1][..|parent|];
    } else if Count(fs[0].subfolders) < k {
      PathsUnder(fs[1..], parent, k - 1 - Count(fs[0].subfolders));
    }
  }

  /** Where the k-th entry of a pre-order walk comes from: the first folder,
      its subtree, or the later siblings. */
  lemma OutlineIndex(fs: seq<Folder>, depth: nat, k: nat)
    requires k < Count(fs)
    ensures |Outline(fs, depth)| == Count(fs)
    ensures |Outline(fs[0].subfolders, depth + 1)| == Count(fs[0].subfolders)
    ensures |Outline(fs[1..], depth)| == Count(fs[1..])
    ensures k == 0 ==> Outline(fs, depth)[k] == Entry(depth, fs[0].name)
    ensures 0 < k <= Count(fs[0].subfolders) ==>
              Outline(fs, depth)[k] == Outline(fs[0].subfolders, depth + 1)[k - 1]
    ensures Count(fs[0].subfolders) < k ==>
              Outline(fs, depth)[k] == Outline(fs[1..], depth)[k - 1 - Count(fs[0].subfolders)]
  {
    OutlineCount(fs, depth);
    OutlineCount(fs[0].subfolders, depth + 1);
    OutlineCount(fs[1..], depth);
  }

  lemma PathsIndex(fs: seq<Folder>, parent: Path, k: nat)
    requires k < Count(fs)
    ensures |Paths(fs, parent)| == Count(fs)
    ensures |Paths(fs[0].subfolders, parent + [fs[0].name])| == Count(fs[0].subfolders)
    ensures |Paths(fs[1..], parent)| == Count(fs[1..])
    ensures k == 0 ==> Paths(fs, parent)[k] == parent + [fs[0].name]
    ensures 0 < k <= Count(fs[0].subfolders) ==>
              Paths(fs, parent)[k] == Paths(fs[0].subfolders, parent + [fs[0].name])[k - 1]
    ensures Count(fs[0].subfolders) < k ==>
              Paths(fs, parent)[k] == Paths(fs[1..], parent)[k - 1 - Count(fs[0].subfolders)]
  {
    PathsCount(fs, parent);
    PathsCount(fs[0].subfolders, parent + [fs[0].name]);
    PathsCount(fs[1..], parent);
  }

  // Parents are created before their children

  lemma ParentsFirstConcat(a: seq<Path>, b: seq<Path>, base: Path)
    requires ParentsFirst(a, base) && ParentsFirst(b, base)
    ensures ParentsFirst(a + b, base)
  {
    var ab := a + b;
    forall k | 0 <= k < |ab|
      ensures |ab[k]| >= 1 && (Parent(ab[k]) == base || Parent(ab[k]) in ab[..k])
    {
      if k < |a| {
        assert ab[k] == a[k] && ab[..k] == a[..k];
      } else {
        var j := k - |a|;
        assert ab[k] == b[j];
        if Parent(b[j]) != base {
          var i :| 0 <= i < j && b[..j][i] == Parent(b[j]);
          assert ab[..k][|a| + i] == b[i];
        }
      }
    }
  }

  lemma ParentsFirstUnder(q: Path, ps: seq<Path>, base: Path)
    requires |q| >= 1 && Parent(q) == base && ParentsFirst(ps, q)
    ensures ParentsFirst([q] + ps, base)
  {
    var qs := [q] + ps;
    forall k | 0 <= k < |qs|
      ensures |qs[k]| >= 1 && (Parent(qs[k]) == base || Parent(qs[k]) in qs[..k])
    {
      if k > 0 {
        assert qs[k] == ps[k - 1];
        if Parent(ps[k - 1]) == q {
          assert qs[..k][0] == q;
        } else {
          var i :| 0 <= i < k - 1 && ps[..k - 1][i] == Parent(ps[k - 1]);
          assert qs[..k][i + 1] == ps[i];
        }
      }
    }
  }

  /** CreateFolderStructure never creates a directory before its parent: every
      path's parent is the base path or was created earlier in the walk. */
  lemma {:induction false} PathsParentsFirst(fs: seq<Folder>, parent: Path)
    ensures ParentsFirst(Paths(fs, parent), parent)
  {
    if fs != [] {
      var p := parent + [fs[0].name];
      PathsParentsFirst(fs[0].subfolders, p);
      PathsParentsFirst(fs[1..], parent);
      assert Parent(p) == parent;
      ParentsFirstUnder(p, Paths(fs[0].subfolders, p), parent);
      ParentsFirstConcat([p] + Paths(fs[0].subfolders, p), Paths(fs[1..], parent), parent);
    }
  }

  // The printed listing

  /** The indentation DisplaySubfolders reaches at `depth`: it starts at two
      spaces and adds two per level. */
  function Indent(depth: nat): string
  {
    if depth == 0 then "" else Indent(depth - 1) + "  "
  }

  /** One printed line: a root as "<ordinal>. <name>", a deeper folder as its
      indentation, a branch glyph and its name. */
  function Line(e: Entry, ordinal: nat): string
  {
    if e.depth == 0 then Decimal(ordinal) + ". " + e.name
    else Indent(e.depth) + "└─ " + e.name
  }

  /** The number of root entries (depth 0) in a stretch of the outline. */
  function RootsIn(es: seq<Entry>): nat
  {
    if es == [] then 0 else (if es[0].depth == 0 then 1 else 0) + RootsIn(es[1..])
  }

  /** What DisplayTemplate prints after its heading: the outline of the
      roots, one line per entry, the roots numbered 1, 2, ... in order. */
  function Listing(roots: seq<Folder>): seq<string>
  {
    Format(Outline(roots, 0), 0)
  }

  /** The lines of a stretch of the outline when `before` roots have already
      been numbered: each entry's line, a root taking the next number. */
  function Format(es: seq<Entry>, before: nat): (r: seq<string>)
    ensures |r| == |es|
  {
    if es == [] then []
    else [Line(es[0], before + 1)] + Format(es[1..], before + (if es[0].depth == 0 then 1 else 0))
  }

  /** DisplaySubfolders(subfolders, indent): each subfolder's line, then its
      own subfolders two spaces further in, then its later siblings. */
  function SubfolderLines(subfolders: seq<Folder>, indent: string): seq<string>
  {
    if subfolders == [] then []
    else [indent + "└─ " + subfolders[0].name]
         + SubfolderLines(subfolders[0].subfolders, indent + "  ")
         + SubfolderLines(subfolders[1..], indent)
  }

  lemma {:induction false} RootsInAppend(a: seq<Entry>, b: seq<Entry>)
    ensures RootsIn(a + b) == RootsIn(a) + RootsIn(b)
  {
    if a == [] {
      assert a + b == b;
    } else {
      assert (a + b)[0] == a[0] && (a + b)[1..] == a[1..] + b;
      RootsInAppend(a[1..], b);
    }
  }

  /** At depth 0 the outline holds one root entry per root; deeper, none. */
  lemma {:induction false} RootsInOutline(fs: seq<Folder>, depth: nat)
    ensures RootsIn(Outline(fs, depth)) == if depth == 0 then |fs| else 0
  {
    if fs != [] {
      var head := [Entry(depth, fs[0].name)];
      RootsInOutline(fs[0].subfolders, depth + 1);
      RootsInOutline(fs[1..], depth);
      RootsInAppend(head, Outline(fs[0].subfolders, depth + 1));
      RootsInAppend(head + Outline(fs[0].subfolders, depth + 1), Outline(fs[1..], depth));
      assert RootsIn(head) == if depth == 0 then 1 else 0 by {
        assert head[1..] == [];
      }
    }
  }

  /** Formatting two stretches of the outline one after the other: the
      second continues numbering after the roots of the first. */
  lemma {:induction false} FormatAppend(a: seq<Entry>, b: seq<Entry>, before: nat)
    ensures Format(a + b, before) == Format(a, before) + Format(b, before + RootsIn(a))
  {
    if a == [] {
      assert a + b == b;
    } else {
      assert (a + b)[0] == a[0] && (a + b)[1..] == a[1..] + b;
      FormatAppend(a[1..], b, before + (if a[0].depth == 0 then 1 else 0));
      assert Format(a + b, before) == [Line(a[0], before + 1)] + Format(a[1..] + b, before + (if a[0].depth == 0 then 1 else 0));
      assert Format(a, before) == [Line(a[0], before + 1)] + Format(a[1..], before + (if a[0].depth == 0 then 1 else 0));
    }
  }

  /** DisplaySubfolders at the indentation of `depth` prints exactly the
      outline of the subfolders at that depth, whatever the root count. */
  lemma {:induction false} SubfolderLinesFormatOutline(subfolders: seq<Folder>, depth: nat, before: nat)
    requires depth >= 1
    ensures SubfolderLines(subfolders, Indent(depth)) == Format(Outline(subfolders, depth), before)
  {
    if subfolders != [] {
      var head := [Entry(depth, subfolders[0].name)];
      var inner := Outline(subfolders[0].subfolders, depth + 1);
      var rest := Outline(subfolders[1..], depth);
      SubfolderLinesFormatOutline(subfolders[0].subfolders, depth + 1, before);
      SubfolderLinesFormatOutline(subfolders[1..], depth, before);
      assert Indent(depth) + "  " == Indent(depth + 1);
      assert Format(head, before) == [Indent(depth) + "└─ " + subfolders[0].name] by {
        assert head[1..] == [];
      }
      assert RootsIn(head) == 0 by {
        assert head[1..] == [];
      }
      RootsInOutline(subfolders[0].subfolders, depth + 1);
      FormatAppend(head, inner, before);
      FormatAppend(head + inner, rest, before);
      RootsInAppend(head, inner);
    }
  }

  /** The listing grows root by root: the listing of the first i+1 roots is
      that of the first i, then root i's numbered line, then
      DisplaySubfolders(root i's subfolders, two spaces). */
  lemma ListingSnoc(roots: seq<Folder>, i: nat)
    requires i < |roots|
    ensures Listing(roots[..i + 1]) ==
            Listing(roots[..i]) + [Decimal(i + 1) + ". " + roots[i].name]
            + SubfolderLines(roots[i].subfolders, "  ")
  {
    var r := roots[i];
    var a := Outline(roots[..i], 0);
    var s := Outline(r.subfolders, 1);
    var head := [Entry(0, r.name)];
    assert Outline(roots[..i + 1], 0) == a + head + s by {
      assert roots[..i + 1] == roots[..i] + [r];
      OutlineAppend(roots[..i], [r], 0);
      assert [r][1..] == [];
      assert Outline([r], 0) == head + s + Outline([r][1..], 0);
    }
    RootsInOutline(roots[..i], 0);
    FormatAppend(a + head, s, 0);
    FormatAppend(a, head, 0);
    assert Format(head, i) == [Decimal(i + 1) + ". " + r.name] by {
      assert head[1..] == [];
    }
    assert RootsIn(head) == 1 by {
      assert head[1..] == [];
    }
    RootsInAppend(a, head);
    assert Indent(1) == "  ";
    SubfolderLinesFormatOutline(r.subfolders, 1, i + 1);
  }

  /** The listing has one line per folder of the template. */
  lemma ListingCount(roots: seq<Folder>)
    ensures |Listing(roots)| == Count(roots)
  {
    OutlineCount(roots, 0);
  }

  // The default template

  /** Folders with no subfolders are created directly under the parent, in order. */
  lemma {:induction false} LeafPaths(names: seq<string>, parent: Path)
    ensures Paths(Leaves(names), parent) == seq(|names|, i requires 0 <= i < |names| => parent + [names[i]])
  {
    if names != [] {
      assert Leaves(names)[1..] == Leaves(names[1..]);
      LeafPaths(names[1..], parent);
      assert Paths([], parent + [names[0]]) == [];
    }
  }

  /** Folders with no subfolders are listed one line each, at the same indentation. */
  lemma {:induction false} LeafLines(names: seq<string>, indent: string)
    ensures SubfolderLines(Leaves(names), indent) == seq(|names|, i requires 0 <= i < |names| => indent + "└─ " + names[i])
  {
    if names != [] {
      assert Leaves(names)[1..] == Leaves(names[1..]);
      LeafLines(names[1..], indent);
      assert SubfolderLines([], indent + "  ") == [];
    }
  }

  /** Materialising roots one at a time: a root whose subfolders are all
      leaves adds its own directory, then one directory per subfolder. */
  lemma RootPaths(roots: seq<Folder>, i: nat, parent: Path, names: seq<string>)
    requires i < |roots| && roots[i].subfolders == Leaves(names)
    ensures Paths(roots[..i + 1], parent) ==
              Paths(roots[..i], parent) + [parent + [roots[i].name]]
              + seq(|names|, k requires 0 <= k < |names| => parent + [roots[i].name] + [names[k]])
  {
    assert roots[..i + 1] == roots[..i] + [roots[i]];
    PathsAppend(roots[..i], [roots[i]], parent);
    assert [roots[i]][1..] == [];
    assert Paths([roots[i]], parent) == [parent + [roots[i].name]] + Paths(roots[i].subfolders, parent + [roots[i].name]) + Paths([], parent);
    LeafPaths(names, parent + [roots[i].name]);
  }
}
