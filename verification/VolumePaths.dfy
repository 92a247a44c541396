/**
 Paths of a volume as the host and as BeeGFS see them, what deleting a volume removes, and the creation
 of a directory together with its parents. An absolute clean path is the sequence of its components; the
 root is the empty sequence, and joining clean paths is concatenation.
 */
module VolumePaths {

  type Path = seq<string>

  /** path.Dir: the root is its own parent. */
  function Dir(p: Path): (r: Path)
  {
    if p == [] then [] else p[..|p| - 1]
  }

  /** path.Base, as components to join: the base of the root is "/", which adds nothing. */
  function Base(p: Path): (r: Path)
  {
    if p == [] then [] else [p[|p| - 1]]
  }

  // ---- Cleaning -------------------------------------------------------------------------------------------

  /** The parts between slashes. */
  function Split(s: string): (r: seq<string>)
    ensures r != [] && forall i :: 0 <= i < |r| ==> '/' !in r[i]
  {
    if s == "" then [""]
    else
      var front, last := Split(s[..|s| - 1]), s[|s| - 1];
      if last == '/' then front + [""] else front[..|front| - 1] + [front[|front| - 1] + [last]]
  }

  /** Empty parts and dots add nothing, and two dots take the part before away; the root has no parent. */
  function Cleaned(parts: seq<string>): (p: Path)
  {
    if parts == [] then []
    else
      var front, last := Cleaned(parts[..|parts| - 1]), parts[|parts| - 1];
      if last == "" || last == "." then front else if last == ".." then Dir(front) else front + [last]
  }

  /** path.Clean after joining to the root. */
  function CleanPath(s: string): (p: Path)
  {
    Cleaned(Split(s))
  }

  predicate IsComponent(c: string)
  {
    c != "" && c != "." && c != ".." && '/' !in c
  }

  predicate IsClean(p: Path)
  {
    forall i :: 0 <= i < |p| ==> IsComponent(p[i])
  }

  /** The path as a string. */
  function Rendered(p: Path): (s: string)
  {
    if p == [] then "" else Rendered(p[..|p| - 1]) + "/" + p[|p| - 1]
  }

  lemma {:induction false} CleanedIsClean(parts: seq<string>)
    requires forall i :: 0 <= i < |parts| ==> '/' !in parts[i]
    ensures IsClean(Cleaned(parts))
  {
    if parts != [] {
      CleanedIsClean(parts[..|parts| - 1]);
    }
  }

  lemma {:induction false} CleanedAgain(p: Path)
    requires IsClean(p)
    ensures Cleaned(p) == p
  {
    if p != [] {
      CleanedAgain(p[..|p| - 1]);
      assert p == p[..|p| - 1] + [p[|p| - 1]];
    }
  }

  lemma {:induction false} SplitAtSlash(a: string, b: string)
    requires '/' !in b
    ensures Split(a + "/" + b) == Split(a) + [b]
  {
    var s := a + "/" + b;
    if b == "" {
      assert s[..|s| - 1] == a;
    } else {
      assert s[..|s| - 1] == a + "/" + b[..|b| - 1];
      SplitAtSlash(a, b[..|b| - 1]);
      assert b == b[..|b| - 1] + [b[|b| - 1]];
    }
  }

  lemma {:induction false} SplitRendered(p: Path)
    requires IsClean(p)
    ensures Split(Rendered(p)) == [""] + p
  {
    if p != [] {
      SplitRendered(p[..|p| - 1]);
      SplitAtSlash(Rendered(p[..|p| - 1]), p[|p| - 1]);
      assert [""] + p == ([""] + p[..|p| - 1]) + [p[|p| - 1]];
    }
  }

  lemma {:induction false} LeadingEmpty(parts: seq<string>)
    ensures Cleaned([""] + parts) == Cleaned(parts)
  {
    if parts != [] {
      assert ([""] + parts)[..|parts|] == [""] + parts[..|parts| - 1];
      LeadingEmpty(parts[..|parts| - 1]);
    }
  }

  /** Cleaning gives an absolute clean path whatever was given, and leaves clean paths as they are. */
  lemma CleaningIsIdempotent(s: string, p: Path)
    requires IsClean(p)
    ensures IsClean(CleanPath(s)) && CleanPath(Rendered(CleanPath(s))) == CleanPath(s)
    ensures CleanPath(Rendered(p)) == p
  {
    CleanedIsClean(Split(s));
    CleanRendered(CleanPath(s));
    CleanRendered(p);
  }

  /** What each further part of a path does. */
  lemma CleaningByParts(s: string, part: string)
    requires '/' !in part
    ensures CleanPath("") == []
    ensures
      CleanPath(s + "/" + part) ==
        if part == "" || part == "." then CleanPath(s)
        else if part == ".." then (if CleanPath(s) == [] then [] else CleanPath(s)[..|CleanPath(s)| - 1])
        else CleanPath(s) + [part]
    ensures IsComponent(part) ==> CleanPath(part) == [part]
  {
    SplitAtSlash(s, part);
    assert Split(s + "/" + part)[..|Split(s)|] == Split(s);
    SplitPart(part);
    assert Cleaned([part][..0]) == [] && Cleaned([""][..0]) == [];
  }

  lemma {:induction false} SplitPart(part: string)
    requires '/' !in part
    ensures Split(part) == [part]
  {
    if part != "" {
      SplitPart(part[..|part| - 1]);
      assert part == part[..|part| - 1] + [part[|part| - 1]];
    }
  }

  lemma CleanRendered(p: Path)
    requires IsClean(p)
    ensures CleanPath(Rendered(p)) == p
  {
    SplitRendered(p);
    LeadingEmpty(p);
    CleanedAgain(p);
  }

  // ---- newBeegfsVolume ------------------------------------------------------------------------------------

  datatype Volume = Volume(
    mountDirPath: Path,
    mountPath: Path,
    clientConfPath: Path,
    volDirPathBeegfsRoot: Path,
    volDirPath: Path,
    csiDirPathBeegfsRoot: Path,
    csiDirPath: Path)

  function NewBeegfsVolume(mountDirPath: Path, volDirPathBeegfsRoot: Path): (v: Volume)
  {
    var mountPath := mountDirPath + ["mount"];
    var volDirPath := mountPath + volDirPathBeegfsRoot;
    var volName := Base(volDirPathBeegfsRoot);
    Volume(
      mountDirPath,
      mountPath,
      mountDirPath + ["beegfs-client.conf"],
      volDirPathBeegfsRoot,
      volDirPath,
      Dir(volDirPathBeegfsRoot) + [".csi", "volumes"] + volName,
      Dir(volDirPath) + [".csi", "volumes"] + volName)
  }

  /** A BeeGFS path as it appears on the host, below the mount point. */
  function OnHost(v: Volume, p: Path): (r: Path)
  {
    v.mountPath + p
  }

  /** Every path of a volume, in terms of the directory that holds it and its name. */
  lemma PathsOfVolume(mountDirPath: Path, parent: Path, name: string)
    ensures
      var v := NewBeegfsVolume(mountDirPath, parent + [name]);
      && v.mountDirPath == mountDirPath && v.mountPath == mountDirPath + ["mount"]
      && v.clientConfPath == mountDirPath + ["beegfs-client.conf"]
      && v.volDirPathBeegfsRoot == parent + [name]
      && v.csiDirPathBeegfsRoot == parent + [".csi", "volumes", name]
      && v.volDirPath == mountDirPath + ["mount"] + parent + [name]
      && v.csiDirPath == mountDirPath + ["mount"] + parent + [".csi", "volumes", name]
  {
    var v := NewBeegfsVolume(mountDirPath, parent + [name]);
    assert Dir(parent + [name]) == parent && Base(parent + [name]) == [name];
    assert Dir(v.volDirPath) == v.mountPath + parent;
    assert [".csi", "volumes"] + [name] == [".csi", "volumes", name];
  }

  /** The two views of the volume agree always, the two views of its CSI directory unless it is the root. */
  lemma ViewsAgreeExactly(mountDirPath: Path, root: Path)
    ensures
      var v := NewBeegfsVolume(mountDirPath, root);
      && v.volDirPath == OnHost(v, v.volDirPathBeegfsRoot)
      && (v.csiDirPath == OnHost(v, v.csiDirPathBeegfsRoot) <==> root != [])
  {
    var v := NewBeegfsVolume(mountDirPath, root);
    if root != [] {
      assert Dir(v.volDirPath) == v.mountPath + Dir(root);
      assert v.csiDirPath == v.mountPath + Dir(root) + [".csi", "volumes"] + Base(root);
    } else {
      assert v.volDirPath == v.mountPath;
      assert |v.csiDirPath| == |OnHost(v, v.csiDirPathBeegfsRoot)| - 1;
    }
  }

  // ---- What deleting a volume removes -----------------------------------------------------------------------

  function RemoveAll(tree: set<Path>, p: Path): (r: set<Path>)
    ensures forall q :: q in r <==> q in tree && !(p <= q)
  {
    set q | q in tree && !(p <= q)
  }

  /** The host's view of the mounted file system. */
  function HostTree(v: Volume, beegfs: set<Path>): (r: set<Path>)
  {
    set q | q in beegfs :: OnHost(v, q)
  }

  lemma OnHostPrefix(v: Volume, p: Path, q: Path)
    ensures OnHost(v, p) <= OnHost(v, q) <==> p <= q
  {
    var m := |v.mountPath|;
    if |p| <= |q| {
      assert OnHost(v, q)[..m + |p|] == v.mountPath + q[..|p|];
      assert q[..|p|] == OnHost(v, q)[m..m + |p|] && p == OnHost(v, p)[m..];
    }
  }

  lemma HostTreeMembers(v: Volume, beegfs: set<Path>)
    ensures forall q :: OnHost(v, q) in HostTree(v, beegfs) <==> q in beegfs
  {
    forall q ensures OnHost(v, q) in HostTree(v, beegfs) <==> q in beegfs {
      if OnHost(v, q) in HostTree(v, beegfs) {
        var p :| p in beegfs && OnHost(v, p) == OnHost(v, q);
        OnHostPrefix(v, p, q);
        OnHostPrefix(v, q, p);
        assert p == q;
      }
    }
  }

  /** Removing a directory below the mount point removes the same directory in BeeGFS. */
  lemma RemoveOnHost(v: Volume, beegfs: set<Path>, p: Path)
    ensures RemoveAll(HostTree(v, beegfs), OnHost(v, p)) == HostTree(v, RemoveAll(beegfs, p))
  {
    var left := RemoveAll(beegfs, p);
    HostTreeMembers(v, beegfs);
    HostTreeMembers(v, left);
    forall q | q in beegfs ensures OnHost(v, q) in RemoveAll(HostTree(v, beegfs), OnHost(v, p)) <==> q in left {
      OnHostPrefix(v, p, q);
    }
  }

  /** Deleting on the host leaves exactly the BeeGFS entries outside the volume's two subtrees. */
  lemma DeleteRemovesOwnSubtrees(mountDirPath: Path, parent: Path, name: string, beegfs: set<Path>)
    ensures
      var v := NewBeegfsVolume(mountDirPath, parent + [name]);
      RemoveAll(RemoveAll(HostTree(v, beegfs), v.csiDirPath), v.volDirPath)
      == HostTree(v, RemoveAll(RemoveAll(beegfs, parent + [".csi", "volumes", name]), parent + [name]))
  {
    var v := NewBeegfsVolume(mountDirPath, parent + [name]);
    PathsOfVolume(mountDirPath, parent, name);
    var csi := parent + [".csi", "volumes", name];
    assert v.csiDirPath == OnHost(v, csi) && v.volDirPath == OnHost(v, parent + [name]);
    RemoveOnHost(v, beegfs, csi);
    RemoveOnHost(v, RemoveAll(beegfs, csi), parent + [name]);
  }

  /** A volume ID without a path names the whole file system. */
  lemma DeletingRootRemovesEverything(mountDirPath: Path, beegfs: set<Path>)
    ensures
      var v := NewBeegfsVolume(mountDirPath, []);
      RemoveAll(HostTree(v, beegfs), v.volDirPath) == {}
  {
    var v := NewBeegfsVolume(mountDirPath, []);
    forall q | q in beegfs ensures v.volDirPath <= OnHost(v, q) {
      assert v.volDirPath == v.mountPath;
    }
  }

  function CsiDir(root: Path): (r: Path)
  {
    Dir(root) + [".csi", "volumes"] + Base(root)
  }

  /** The CSI directory that a volume is deleted with, in BeeGFS and, unless it is the root, on the host. */
  lemma CsiDirOfVolume(mountDirPath: Path, root: Path)
    ensures
      var v := NewBeegfsVolume(mountDirPath, root);
      v.csiDirPathBeegfsRoot == CsiDir(root) && (root != [] ==> v.csiDirPath == OnHost(v, CsiDir(root)))
  {
    ViewsAgreeExactly(mountDirPath, root);
  }

  lemma CsiDirInjective(a: Path, b: Path)
    requires a != [] && b != [] && CsiDir(a) == CsiDir(b)
    ensures a == b
  {
    var m := |a| - 1;
    var x, y := CsiDir(a), CsiDir(b);
    assert |x| == m + 3 && |y| == |b| + 2;
    assert x[..m] == a[..m] && x[m + 2] == a[m];
    assert y[..m] == b[..m] && y[m + 2] == b[m];
  }

  /** Different volumes never share a CSI directory. */
  lemma CsiDirsDiffer(mountDirPath: Path, a: Path, b: Path)
    requires a != [] && b != [] && a != b
    ensures
      var u, v := NewBeegfsVolume(mountDirPath, a), NewBeegfsVolume(mountDirPath, b);
      u.csiDirPathBeegfsRoot != v.csiDirPathBeegfsRoot && u.csiDirPath != v.csiDirPath
  {
    var u, v := NewBeegfsVolume(mountDirPath, a), NewBeegfsVolume(mountDirPath, b);
    CsiDirOfVolume(mountDirPath, a);
    CsiDirOfVolume(mountDirPath, b);
    if CsiDir(a) == CsiDir(b) {
      CsiDirInjective(a, b);
    }
    OnHostPrefix(u, CsiDir(a), CsiDir(b));
    OnHostPrefix(u, CsiDir(b), CsiDir(a));
  }

  predicate Related(p: Path, q: Path)
  {
    p <= q || q <= p
  }

  /** Neither volume lies inside the other, nor inside the other's tracking directory. */
  predicate Apart(a: Path, b: Path)
  {
    a != [] && b != [] && !Related(a, b) && !Related(CsiDir(a), b) && !Related(a, CsiDir(b))
  }

  /** A tracking directory inside another one means that the volumes themselves are nested. */
  lemma CsiDirInside(a: Path, b: Path)
    requires a != [] && b != [] && CsiDir(a) <= CsiDir(b)
    ensures a <= b || CsiDir(a) <= b
  {
    var x, y := CsiDir(a), CsiDir(b);
    var m, n := |a|, |b|;
    assert forall i :: 0 <= i < m + 2 ==> x[i] == y[i];
    assert x[..m - 1] == a[..m - 1] && x[m - 1] == ".csi" && x[m] == "volumes" && x[m + 1] == a[m - 1];
    assert y[..n - 1] == b[..n - 1] && y[n - 1] == ".csi" && y[n] == "volumes" && y[n + 1] == b[n - 1];
    if m + 2 <= n - 1 {
      assert b[..m + 2] == x;
    } else if m + 2 == n {
      assert a == b[..m];
    } else {
      assert x[m] == y[m];
      assert m != n - 1;
      assert a == b;
    }
  }

  /** Deleting a volume leaves everything of a volume apart from it, its tracking directory included. */
  lemma DeleteLeavesOtherVolumes(a: Path, b: Path, beegfs: set<Path>, q: Path)
    requires Apart(a, b) && q in beegfs && (b <= q || CsiDir(b) <= q)
    ensures q in RemoveAll(RemoveAll(beegfs, CsiDir(a)), a)
  {
    var r := if b <= q then b else CsiDir(b);
    if CsiDir(a) <= CsiDir(b) { CsiDirInside(a, b); }
    if CsiDir(b) <= CsiDir(a) { CsiDirInside(b, a); }
    PrefixesComparable(a, r, q);
    PrefixesComparable(CsiDir(a), r, q);
  }

  /** Deleting a volume through its mount keeps everything of a volume apart from it, tracking directory included. */
  lemma DeleteKeepsOtherVolumes(mountDirPath: Path, a: Path, b: Path, beegfs: set<Path>, q: Path)
    requires Apart(a, b)
    ensures
      var u, v := NewBeegfsVolume(mountDirPath, a), NewBeegfsVolume(mountDirPath, b);
      q in HostTree(u, beegfs) && (v.volDirPath <= q || v.csiDirPath <= q) ==>
        q in RemoveAll(RemoveAll(HostTree(u, beegfs), u.csiDirPath), u.volDirPath)
  {
    var u, v := NewBeegfsVolume(mountDirPath, a), NewBeegfsVolume(mountDirPath, b);
    if q in HostTree(u, beegfs) && (v.volDirPath <= q || v.csiDirPath <= q) {
      var p :| p in beegfs && OnHost(u, p) == q;
      CsiDirOfVolume(mountDirPath, a);
      CsiDirOfVolume(mountDirPath, b);
      OnHostPrefix(v, b, p);
      OnHostPrefix(v, CsiDir(b), p);
      DeleteLeavesOtherVolumes(a, b, beegfs, p);
      OnHostPrefix(u, a, p);
      OnHostPrefix(u, CsiDir(a), p);
    }
  }

  /** Two prefixes of the same path are prefixes of one another, one way or the other. */
  lemma PrefixesComparable(p: Path, r: Path, q: Path)
    ensures p <= q && r <= q ==> p <= r || r <= p
  {
    if p <= q && r <= q {
      assert p == q[..|p|] && r == q[..|r|];
    }
  }

  // ---- createDirectoryForVolume ---------------------------------------------------------------------------

  datatype MakeResult = Made | AlreadyThere | MakeError

  /** A file system: whatever exists has an existing parent. The root always exists. */
  ghost predicate ParentClosed(tree: set<Path>)
  {
    forall p :: p in tree && p != [] ==> Dir(p) == [] || Dir(p) in tree
  }

  /** One command to the BeeGFS tool. It may fail for reasons of its own, or because there is no parent. */
  function MakeDir(tree: set<Path>, p: Path, fails: Path -> bool): (r: (MakeResult, set<Path>))
  {
    if fails(p) || !(Dir(p) == [] || Dir(p) in tree) then (MakeError, tree)
    else if p == [] || p in tree then (AlreadyThere, tree)
    else (Made, tree + {p})
  }

  /** The non-root prefixes of a path, shortest first, up to a length. */
  function Prefixes(p: Path, upTo: nat): (r: set<Path>)
    requires upTo <= |p|
    ensures forall q :: q in r <==> q != [] && q <= p && |q| <= upTo
  {
    var r := set i | 1 <= i <= upTo :: p[..i];
    assert forall q :: q != [] && q <= p && |q| <= upTo ==> q == p[..|q|];
    r
  }

  /** The list of directories to make: most general first, the directory itself last. */
  method DirsToMake(dirPath: Path) returns (dirs: seq<Path>)
    ensures dirPath == [] ==> dirs == [[]]
    ensures dirPath != [] ==> |dirs| == |dirPath| && forall i :: 0 <= i < |dirs| ==> dirs[i] == dirPath[..i + 1]
  {
    dirs := [dirPath];
    var dir := Dir(dirPath);
    assert dirPath != [] ==> dirPath[..|dirPath|] == dirPath;
    while dir != []
      invariant dirPath == [] ==> dir == [] && dirs == [[]]
      invariant dirPath != [] ==> |dir| + |dirs| == |dirPath| && dir == dirPath[..|dir|]
      invariant dirPath != [] ==> forall i :: 0 <= i < |dirs| ==> dirs[i] == dirPath[..|dir| + i + 1]
      decreases |dir|
    {
      dirs := [dir] + dirs;
      dir := Dir(dir);
    }
  }

  /**
   Succeeds exactly when no command fails, and then the directory and all its parents exist and nothing
   else has changed. A directory that exists already is left alone without any command.
   */
  method CreateDirectoryForVolume(tree: set<Path>, dirPath: Path, statFails: bool, fails: Path -> bool)
    returns (after: set<Path>, ok: bool)
    requires ParentClosed(tree)
    ensures
      ok <==>
        && !statFails
        && (dirPath == [] || dirPath in tree || forall q :: q in Prefixes(dirPath, |dirPath|) ==> !fails(q))
    ensures ok ==> after == tree + Prefixes(dirPath, |dirPath|)
    ensures tree <= after <= tree + Prefixes(dirPath, |dirPath|) && ParentClosed(after)
    ensures dirPath in tree ==> after == tree
  {
    after := tree;
    if statFails {
      return tree, false;
    }
    if dirPath == [] || dirPath in tree {
      assert dirPath[..|dirPath|] == dirPath;
      PrefixesExist(tree, dirPath, |dirPath|);
      return tree, true;
    }
    var dirs := DirsToMake(dirPath);
    var i := 0;
    while i < |dirs|
      invariant 0 <= i <= |dirs| == |dirPath|
      invariant after == tree + Prefixes(dirPath, i)
      invariant ParentClosed(after)
      invariant forall q :: q in Prefixes(dirPath, i) ==> !fails(q)
    {
      var dir := dirPath[..i + 1];
      assert dirs[i] == dir && Dir(dir) == dirPath[..i];
      assert i > 0 ==> Dir(dir) in Prefixes(dirPath, i);
      assert Prefixes(dirPath, i + 1) == Prefixes(dirPath, i) + {dir};
      var (result, made) := MakeDir(after, dirs[i], fails);
      after := made;
      if result == MakeError {
        assert dir in Prefixes(dirPath, |dirPath|);
        assert Prefixes(dirPath, i) <= Prefixes(dirPath, |dirPath|);
        return after, false;
      }
      i := i + 1;
    }
    ok := true;
  }

  lemma {:induction false} PrefixesExist(tree: set<Path>, p: Path, n: nat)
    requires ParentClosed(tree) && n <= |p| && (n == 0 || p[..n] in tree)
    ensures Prefixes(p, n) <= tree
  {
    if n > 0 {
      assert Dir(p[..n]) == p[..n - 1];
      PrefixesExist(tree, p, n - 1);
      assert forall q :: q in Prefixes(p, n) ==> q == p[..n] || q in Prefixes(p, n - 1);
    }
  }
}
