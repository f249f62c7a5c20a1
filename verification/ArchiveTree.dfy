/** What extraction leaves: the tree of an archive, told from its headers alone. */
module ArchiveTree {
  import opened Wrappers
  import opened Sums
  import opened Archive

  predicate IsFileEntry(h: Header, root: string, f: File) {
    Validate(h, root) == Some(f.name) && Regular(h.kind) && h.size == f.size
  }

  /** A directory entry makes its directory, and every entry the directories that lead to it. */
  predicate MakesDir(h: Header, root: string, d: Name) {
    var n := Validate(h, root);
    n.Some? && ((h.kind.Dir? && d == n.value) || (d != [] && d < n.value))
  }

  ghost predicate TreeIs(tree: Tree, hs: seq<Header>, root: string) {
    && (forall f :: f in tree.files <==> exists i :: 0 <= i < |hs| && IsFileEntry(hs[i], root, f))
    && (forall d :: d in tree.dirs <==> exists i :: 0 <= i < |hs| && MakesDir(hs[i], root, d))
  }

  lemma ParentsAre(n: Name, d: Name)
    ensures d in Parents(n) <==> d != [] && d < n
  {
    if d != [] && d < n {
      assert n[..|d|] == d;
    }
  }

  lemma CreatedIs(tree: Tree, front: seq<Header>, h: Header, root: string)
    requires TreeIs(tree, front, root) && Validate(h, root).Some?
    requires Created(tree, Validate(h, root).value, h).Some?
    ensures TreeIs(Created(tree, Validate(h, root).value, h).value, front + [h], root)
  {
    var n, hs := Validate(h, root).value, front + [h];
    var next := Created(tree, n, h).value;
    assert hs[|front|] == h && forall i :: 0 <= i < |front| ==> hs[i] == front[i];
    NamesAcceptedExactlyWhen(h, root);
    forall f ensures f in next.files <==> f in tree.files || IsFileEntry(h, root, f) {
      assert f in tree.files + [File(n, if h.size < 0 then 0 else h.size)] <==>
        f in tree.files || f == File(n, if h.size < 0 then 0 else h.size);
    }
    forall d ensures d in next.dirs <==> d in tree.dirs || MakesDir(h, root, d) {
      ParentsAre(n, d);
    }
  }

  /** The files are those of the file entries, with their sizes; the directories are those the entries make. */
  lemma {:induction false} BuiltIs(hs: seq<Header>, root: string)
    requires Built(hs, root).Some?
    ensures TreeIs(Built(hs, root).value, hs, root)
  {
    if hs != [] {
      var front, h := hs[..|hs| - 1], hs[|hs| - 1];
      BuiltIs(front, root);
      CreatedIs(Built(front, root).value, front, h, root);
      assert front + [h] == hs;
    }
  }

  /** No file is where another entry needs a directory. */
  predicate NoFileOnPath(hs: seq<Header>, root: string) {
    forall i, j :: 0 <= i < |hs| && 0 <= j < |hs| && Regular(hs[i].kind) ==> !OnPath(hs[i], hs[j], root)
  }

  /** The name of one entry lies on the path to another. */
  predicate OnPath(h: Header, k: Header, root: string) {
    && Validate(h, root).Some? && Validate(k, root).Some?
    && Validate(h, root).value < Validate(k, root).value
  }

  lemma FileAt(tree: Tree, hs: seq<Header>, root: string, n: Name)
    requires TreeIs(tree, hs, root) && AllFine(hs, root)
    ensures IsFile(tree, n) <==> exists i :: 0 <= i < |hs| && Regular(hs[i].kind) && Validate(hs[i], root) == Some(n)
  {
    if k :| 0 <= k < |tree.files| && tree.files[k].name == n {
      assert tree.files[k] in tree.files;
      var i :| 0 <= i < |hs| && IsFileEntry(hs[i], root, tree.files[k]);
    }
    if i :| 0 <= i < |hs| && Regular(hs[i].kind) && Validate(hs[i], root) == Some(n) {
      assert Counted(hs[i]) >= 0;
      assert IsFileEntry(hs[i], root, File(n, hs[i].size));
      assert File(n, hs[i].size) in tree.files;
    }
  }

  predicate FileAbove(front: seq<Header>, root: string, n: Name) {
    exists i :: 0 <= i < |front| && Regular(front[i].kind) && NamedAbove(front[i], root, n)
  }

  predicate NamedAbove(h: Header, root: string, n: Name) {
    Validate(h, root).Some? && Validate(h, root).value < n
  }

  predicate SomethingBelow(front: seq<Header>, root: string, n: Name) {
    exists i :: 0 <= i < |front| && NamedBelow(front[i], root, n)
  }

  predicate NamedBelow(h: Header, root: string, n: Name) {
    Validate(h, root).Some? && n < Validate(h, root).value
  }

  lemma FileInTheWay(tree: Tree, front: seq<Header>, root: string, n: Name)
    requires TreeIs(tree, front, root) && AllFine(front, root)
    ensures MayMakeDirs(tree, Parents(n)) <==> !FileAbove(front, root, n)
  {
    if i :| 0 <= i < |front| && Regular(front[i].kind) && NamedAbove(front[i], root, n) {
      var d := Validate(front[i], root).value;
      NamesAcceptedExactlyWhen(front[i], root);
      ParentsAre(n, d);
      FileAt(tree, front, root, d);
    }
    forall d | d in Parents(n) && IsFile(tree, d) ensures FileAbove(front, root, n) {
      ParentsAre(n, d);
      FileAt(tree, front, root, d);
      var i :| 0 <= i < |front| && Regular(front[i].kind) && Validate(front[i], root) == Some(d);
      assert NamedAbove(front[i], root, n);
    }
  }

  lemma DirInTheWay(tree: Tree, front: seq<Header>, root: string, n: Name)
    requires TreeIs(tree, front, root) && AllFine(front, root) && n != []
    requires forall i :: 0 <= i < |front| ==> Validate(front[i], root) != Some(n)
    ensures n in tree.dirs <==> SomethingBelow(front, root, n)
  {
    if i :| 0 <= i < |front| && NamedBelow(front[i], root, n) {
      assert MakesDir(front[i], root, n);
    }
    if n in tree.dirs {
      var i :| 0 <= i < |front| && MakesDir(front[i], root, n);
      assert NamedBelow(front[i], root, n);
    }
  }

  /** Whether the next entry goes in: nothing on its path is a file, and if it is one, nothing lies below it. */
  predicate GoesIn(front: seq<Header>, h: Header, root: string) {
    && Validate(h, root).Some? && !FileAbove(front, root, Validate(h, root).value)
    && (Regular(h.kind) ==> !SomethingBelow(front, root, Validate(h, root).value))
  }

  lemma CreatedExactlyWhen(tree: Tree, front: seq<Header>, h: Header, root: string)
    requires TreeIs(tree, front, root) && AllFine(front + [h], root) && Validate(h, root).Some?
    ensures Created(tree, Validate(h, root).value, h).Some? <==> GoesIn(front, h, root)
  {
    var n := Validate(h, root).value;
    FineFront(front, h, root);
    NamesAcceptedExactlyWhen(h, root);
    forall i | 0 <= i < |front| ensures Validate(front[i], root) != Some(n) {
      assert Validate(front[i], root).value in NamesOf(front, root);
    }
    FileAt(tree, front, root, n);
    FileInTheWay(tree, front, root, n);
    DirInTheWay(tree, front, root, n);
  }

  lemma NoFileOnPathFront(front: seq<Header>, h: Header, root: string)
    requires Validate(h, root).Some?
    ensures NoFileOnPath(front + [h], root) <==> NoFileOnPath(front, root) && GoesIn(front, h, root)
  {
    var hs := front + [h];
    assert hs[|front|] == h && forall i :: 0 <= i < |front| ==> hs[i] == front[i];
  }

  /**
   * Of a stream whose headers pass, the filesystem refuses nothing exactly when no file is where
   * another entry needs a directory, in whatever order they come.
   */
  lemma {:induction false} BuiltExactlyWhen(hs: seq<Header>, root: string)
    requires AllFine(hs, root)
    ensures Built(hs, root).Some? <==> NoFileOnPath(hs, root)
  {
    if hs != [] {
      var front, h := hs[..|hs| - 1], hs[|hs| - 1];
      assert front + [h] == hs;
      FineFront(front, h, root);
      BuiltExactlyWhen(front, root);
      NoFileOnPathFront(front, h, root);
      if Built(front, root).Some? {
        BuiltIs(front, root);
        CreatedExactlyWhen(Built(front, root).value, front, h, root);
      }
    }
  }
}
