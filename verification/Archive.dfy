/**
 * The update archive, read twice: once to inspect it, once to extract it. Names are cleaned
 * slash-separated paths; sizes are counted in unsigned 64-bit arithmetic.
 */
module Archive {
  import opened Wrappers
  import opened Sums

  const MAX_EXPANDED: nat := 0x8000_0000
  const MAX_ENTRIES: nat := 100_000
  const WORD: nat := 0x1_0000_0000_0000_0000

  // Paths.

  type Name = seq<string>

  function Split(s: string): (r: seq<string>)
    ensures |r| > 0 && forall i :: 0 <= i < |r| ==> '/' !in r[i]
  {
    if s == "" then [""]
    else
      var rest := Split(s[1..]);
      if s[0] == '/' then [""] + rest else [[s[0]] + rest[0]] + rest[1..]
  }

  /** One component of a relative path after those already kept. */
  function Push(kept: Name, c: string): Name {
    if c == "" || c == "." then kept
    else if c == ".." && kept != [] && kept[|kept| - 1] != ".." then kept[..|kept| - 1]
    else kept + [c]
  }

  /** The lexical cleaning of a relative path; the empty result is the current directory. */
  function Clean(cs: seq<string>): Name {
    if cs == [] then [] else Push(Clean(cs[..|cs| - 1]), cs[|cs| - 1])
  }

  predicate Plain(c: string) { c != "" && c != "." && c != ".." && '/' !in c }

  /** Parent steps first, plain components after. */
  predicate Cleaned(n: Name) {
    && (forall i :: 0 <= i < |n| ==> n[i] == ".." || Plain(n[i]))
    && (forall i, j :: 0 <= i < j < |n| && n[j] == ".." ==> n[i] == "..")
  }

  lemma PushKeepsCleaned(kept: Name, c: string)
    requires Cleaned(kept) && '/' !in c
    ensures Cleaned(Push(kept, c))
  {
    var r := Push(kept, c);
    if r == kept + [c] && c == ".." && kept != [] {
      assert kept[|kept| - 1] == "..";
    }
  }

  lemma {:induction false} CleanIsCleaned(cs: seq<string>)
    requires forall i :: 0 <= i < |cs| ==> '/' !in cs[i]
    ensures Cleaned(Clean(cs))
  {
    if cs != [] {
      CleanIsCleaned(cs[..|cs| - 1]);
      PushKeepsCleaned(Clean(cs[..|cs| - 1]), cs[|cs| - 1]);
    }
  }

  // What the two do to a path: nothing to where it leads.

  function Joined(cs: seq<string>): string
    requires cs != []
  {
    if |cs| == 1 then cs[0] else cs[0] + "/" + Joined(cs[1..])
  }

  lemma {:induction false} SplitLosesNothing(s: string)
    ensures Joined(Split(s)) == s
  {
    if s != "" {
      var rest := Split(s[1..]);
      SplitLosesNothing(s[1..]);
      if s[0] == '/' {
        assert ([""] + rest)[1..] == rest;
        assert [s[0]] + s[1..] == s;
      } else {
        var cs := [[s[0]] + rest[0]] + rest[1..];
        assert cs[1..] == rest[1..];
        assert |rest| > 1 ==> Joined(cs) == [s[0]] + (rest[0] + "/" + Joined(rest[1..]));
        assert [s[0]] + s[1..] == s;
      }
    }
  }

  /** One step through directories; above the top there is only the top. */
  function Go(dir: Name, c: string): Name {
    if c == "" || c == "." then dir
    else if c == ".." then (if dir == [] then [] else dir[..|dir| - 1])
    else dir + [c]
  }

  function Walk(dir: Name, cs: seq<string>): Name {
    if cs == [] then dir else Go(Walk(dir, cs[..|cs| - 1]), cs[|cs| - 1])
  }

  lemma PushLeadsThere(dir: Name, kept: Name, c: string)
    requires Cleaned(kept)
    ensures Walk(dir, Push(kept, c)) == Go(Walk(dir, kept), c)
  {
    if Push(kept, c) == kept + [c] {
      assert (kept + [c])[..|kept|] == kept;
    }
  }

  /** A cleaned path leads where the path leads, from every directory. */
  lemma {:induction false} CleanLeadsThere(dir: Name, cs: seq<string>)
    requires forall i :: 0 <= i < |cs| ==> '/' !in cs[i]
    ensures Walk(dir, Clean(cs)) == Walk(dir, cs)
  {
    if cs != [] {
      CleanIsCleaned(cs[..|cs| - 1]);
      CleanLeadsThere(dir, cs[..|cs| - 1]);
      PushLeadsThere(dir, Clean(cs[..|cs| - 1]), cs[|cs| - 1]);
    }
  }

  // Headers.

  /** Regular files come under two type flags. */
  datatype Kind = Dir | Reg | OldReg | Other

  predicate Regular(k: Kind) { k.Reg? || k.OldReg? }

  datatype Header = Header(name: string, kind: Kind, size: int)

  /** The root or something below it; on slash-free components that is a matter of prefixes. */
  predicate Under(n: Name, root: string) { Split(root) <= n }

  function Validate(h: Header, root: string): Option<Name> {
    if h.name == "" || h.name[0] == '/' then None
    else
      var name := Clean(Split(h.name));
      if name == [] || name[0] == ".." then None
      else if !Under(name, root) then None
      else if !Regular(h.kind) && !h.kind.Dir? then None
      else Some(name)
  }

  predicate AllPlain(n: Name) { forall i :: 0 <= i < |n| ==> Plain(n[i]) }

  predicate Below(n: Name, root: string) { Under(n, root) && AllPlain(n) }

  /** Below the root, or one of the directories that lead to it. */
  predicate Along(n: Name, root: string) { AllPlain(n) && (Under(n, root) || n <= Split(root)) }

  /** Whatever the name looked like, what is accepted stays under the root. */
  lemma AcceptedIsBelow(h: Header, root: string)
    requires Validate(h, root).Some?
    ensures Below(Validate(h, root).value, root)
  {
    CleanIsCleaned(Split(h.name));
    var name := Clean(Split(h.name));
    forall i | 0 <= i < |name| ensures Plain(name[i]) {
      assert name[0] != "..";
    }
  }

  /** Accepted are exactly the files and directories whose relative name cleans to something under the root. */
  lemma NamesAcceptedExactlyWhen(h: Header, root: string)
    ensures Validate(h, root).Some? <==>
      var n := Clean(Split(h.name));
      && h.name != "" && h.name[0] != '/' && !h.kind.Other?
      && AllPlain(n) && |n| >= |Split(root)| && n[..|Split(root)|] == Split(root)
  {
    if Validate(h, root).Some? {
      AcceptedIsBelow(h, root);
    }
  }

  lemma {:induction false} WalkPlain(dir: Name, n: Name)
    requires AllPlain(n)
    ensures Walk(dir, n) == dir + n
  {
    if n != [] {
      WalkPlain(dir, n[..|n| - 1]);
      assert dir + n[..|n| - 1] + [n[|n| - 1]] == dir + n;
    }
  }

  /** Wherever an archive is unpacked, an accepted name leads under the root there, however it is spelled. */
  lemma AcceptedLandsBelow(h: Header, root: string, dest: Name)
    requires Validate(h, root).Some?
    ensures Walk(dest, Split(h.name)) == dest + Validate(h, root).value
    ensures dest + Split(root) <= Walk(dest, Split(h.name))
  {
    AcceptedIsBelow(h, root);
    CleanLeadsThere(dest, Split(h.name));
    WalkPlain(dest, Validate(h, root).value);
  }

  lemma ParentsAreAlong(n: Name, root: string, k: nat)
    requires Below(n, root) && k <= |n|
    ensures Along(n[..k], root)
  {
    if k < |Split(root)| {
      assert n[..k] == Split(root)[..k];
    } else {
      assert Split(root) == n[..k][..|Split(root)|];
    }
  }

  // One header's decisions; each pass makes them in its own code, below.

  datatype Tally = Tally(seen: set<Name>, entries: nat, expanded: nat, hasRoot: bool, hasVersion: bool)

  const EMPTY := Tally({}, 0, 0, false, false)

  function Minus(a: nat, b: nat): nat { (a - b) % WORD }

  function Decide(t: Tally, h: Header, root: string): Option<Tally> {
    var name := Validate(h, root);
    if name.None? || name.value in t.seen || t.entries + 1 > MAX_ENTRIES then None
    else if Regular(h.kind) && (h.size < 0 || h.size > Minus(MAX_EXPANDED, t.expanded)) then None
    else
      Some(Tally(t.seen + {name.value}, t.entries + 1,
        if Regular(h.kind) then t.expanded + h.size else t.expanded,
        t.hasRoot || (name.value == Split(root) && h.kind.Dir?),
        t.hasVersion || (name.value == Split(root) + ["version"] && Regular(h.kind))))
  }

  function Scan(hs: seq<Header>, root: string): Option<Tally> {
    if hs == [] then Some(EMPTY)
    else
      var t := Scan(hs[..|hs| - 1], root);
      if t.None? then None else Decide(t.value, hs[|hs| - 1], root)
  }

  /** The subtraction never wraps and the limit holds throughout. */
  lemma {:induction false} ScanStaysBelowLimit(hs: seq<Header>, root: string)
    ensures Scan(hs, root).Some? ==>
      var t := Scan(hs, root).value;
      && t.expanded <= MAX_EXPANDED && t.entries == |hs| == |t.seen| && t.entries <= MAX_ENTRIES
      && Minus(MAX_EXPANDED, t.expanded) == MAX_EXPANDED - t.expanded
  {
    if hs != [] {
      ScanStaysBelowLimit(hs[..|hs| - 1], root);
    }
  }

  lemma {:induction false} ScanPrefix(hs: seq<Header>, i: nat, root: string)
    requires i <= |hs| && Scan(hs[..i], root).None?
    ensures Scan(hs, root).None?
    decreases |hs| - i
  {
    if i == |hs| {
      assert hs[..i] == hs;
    } else {
      assert hs[..i + 1][..i] == hs[..i];
      ScanPrefix(hs, i + 1, root);
    }
  }

  // The same of the whole stream, without the running tally.

  function Counted(h: Header): int { if Regular(h.kind) then h.size else 0 }

  ghost predicate AllFine(hs: seq<Header>, root: string) {
    && |hs| <= MAX_ENTRIES
    && (forall i :: 0 <= i < |hs| ==> Validate(hs[i], root).Some? && Counted(hs[i]) >= 0)
    && (forall i, j :: 0 <= i < j < |hs| ==> Validate(hs[i], root) != Validate(hs[j], root))
    && Sum(hs, Counted) <= MAX_EXPANDED
  }

  predicate IsEntry(h: Header, root: string, n: Name, dir: bool) {
    Validate(h, root) == Some(n) && (if dir then h.kind.Dir? else Regular(h.kind))
  }

  predicate HasEntry(hs: seq<Header>, root: string, n: Name, dir: bool) {
    exists i :: 0 <= i < |hs| && IsEntry(hs[i], root, n, dir)
  }

  function NamesOf(hs: seq<Header>, root: string): set<Name> {
    set i | 0 <= i < |hs| && Validate(hs[i], root).Some? :: Validate(hs[i], root).value
  }

  predicate TallyIs(t: Tally, hs: seq<Header>, root: string, sum: int) {
    && t.entries == |hs| && t.expanded == sum && t.seen == NamesOf(hs, root)
    && (t.hasRoot <==> HasEntry(hs, root, Split(root), true))
    && (t.hasVersion <==> HasEntry(hs, root, Split(root) + ["version"], false))
  }

  lemma EntryOneMore(front: seq<Header>, h: Header, root: string, n: Name, dir: bool)
    ensures HasEntry(front + [h], root, n, dir) <==>
      HasEntry(front, root, n, dir) || HasEntry([h], root, n, dir)
  {
    var hs := front + [h];
    if i :| 0 <= i < |front| && IsEntry(front[i], root, n, dir) {
      assert hs[i] == front[i];
    }
    if HasEntry([h], root, n, dir) {
      assert hs[|front|] == [h][0];
    }
    if i :| 0 <= i < |hs| && IsEntry(hs[i], root, n, dir) {
      assert i < |front| ==> front[i] == hs[i];
      assert i == |front| ==> [h][0] == hs[i];
    }
  }

  lemma NamesOneMore(front: seq<Header>, h: Header, root: string)
    requires Validate(h, root).Some?
    ensures NamesOf(front + [h], root) == NamesOf(front, root) + {Validate(h, root).value}
  {
    var hs := front + [h];
    assert hs[|front|] == h;
    assert forall i :: 0 <= i < |front| ==> hs[i] == front[i];
  }

  lemma FineFront(front: seq<Header>, h: Header, root: string)
    requires AllFine(front + [h], root)
    ensures AllFine(front, root) && Validate(h, root).Some? && Validate(h, root).value !in NamesOf(front, root)
    ensures Counted(h) >= 0 && Sum(front, Counted) + Counted(h) <= MAX_EXPANDED && |front| < MAX_ENTRIES
  {
    var hs := front + [h];
    SumAppend(front, h, Counted);
    assert hs[|front|] == h && forall i :: 0 <= i < |front| ==> hs[i] == front[i];
  }

  lemma FineOneMore(front: seq<Header>, h: Header, root: string)
    requires AllFine(front, root) && Validate(h, root).Some? && Validate(h, root).value !in NamesOf(front, root)
    requires Counted(h) >= 0 && Sum(front, Counted) + Counted(h) <= MAX_EXPANDED && |front| < MAX_ENTRIES
    ensures AllFine(front + [h], root)
  {
    var hs := front + [h];
    SumAppend(front, h, Counted);
    assert hs[|front|] == h && forall i :: 0 <= i < |front| ==> hs[i] == front[i];
    forall i | 0 <= i < |front| ensures Validate(front[i], root) != Validate(h, root) {
      assert Validate(front[i], root).value in NamesOf(front, root);
    }
  }

  lemma TallyOneMore(front: seq<Header>, h: Header, root: string, t: Tally)
    requires TallyIs(t, front, root, Sum(front, Counted)) && Decide(t, h, root).Some?
    ensures TallyIs(Decide(t, h, root).value, front + [h], root, Sum(front + [h], Counted))
  {
    SumAppend(front, h, Counted);
    NamesOneMore(front, h, root);
    EntryOneMore(front, h, root, Split(root), true);
    EntryOneMore(front, h, root, Split(root) + ["version"], false);
    assert [h][0] == h;
  }

  /**
   * The headers pass exactly when each is valid, no two clean to the same name, no file has a
   * negative size, and the sizes add up to no more than 2 GiB; the tally is what they add up to.
   */
  lemma {:induction false} PassesExactlyWhen(hs: seq<Header>, root: string)
    ensures Scan(hs, root).Some? <==> AllFine(hs, root)
    ensures Scan(hs, root).Some? ==> TallyIs(Scan(hs, root).value, hs, root, Sum(hs, Counted))
  {
    if hs != [] {
      var front, h := hs[..|hs| - 1], hs[|hs| - 1];
      assert hs == front + [h];
      PassesExactlyWhen(front, root);
      ScanStaysBelowLimit(front, root);
      if Scan(hs, root).Some? {
        FineOneMore(front, h, root);
        TallyOneMore(front, h, root, Scan(front, root).value);
      } else if AllFine(hs, root) {
        FineFront(front, h, root);
      }
    }
  }

  // Inspection. `torn` is whether reading fails where the headers end.

  predicate Accepts(hs: seq<Header>, torn: bool, root: string) {
    !torn && Scan(hs, root).Some? && Scan(hs, root).value.hasRoot && Scan(hs, root).value.hasVersion
  }

  /** An archive is accepted exactly when it can be read, all headers pass, and root and version are there. */
  lemma AcceptsExactlyWhen(hs: seq<Header>, torn: bool, root: string)
    ensures Accepts(hs, torn, root) <==>
      && !torn && AllFine(hs, root)
      && HasEntry(hs, root, Split(root), true) && HasEntry(hs, root, Split(root) + ["version"], false)
  {
    PassesExactlyWhen(hs, root);
  }

  lemma ScanOneMore(hs: seq<Header>, i: nat, root: string, t: Tally)
    requires i < |hs| && Scan(hs[..i], root) == Some(t)
    ensures t.expanded <= MAX_EXPANDED
    ensures Scan(hs[..i + 1], root) == Decide(t, hs[i], root)
    ensures Decide(t, hs[i], root).None? ==> Scan(hs, root).None?
  {
    ScanStaysBelowLimit(hs[..i], root);
    assert hs[..i + 1][..i] == hs[..i];
    if Decide(t, hs[i], root).None? {
      ScanPrefix(hs, i + 1, root);
    }
  }

  /** The body of the inspecting loop, in its order. */
  method InspectHeader(t: Tally, h: Header, root: string) returns (next: Option<Tally>)
    requires t.expanded <= MAX_EXPANDED
    ensures next == Decide(t, h, root)
  {
    var name := Validate(h, root);
    if name.None? || name.value in t.seen {
      return None;
    }
    var seen := t.seen + {name.value};
    var entries := t.entries + 1;
    if entries > MAX_ENTRIES {
      return None;
    }
    var hasRoot, hasVersion := t.hasRoot, t.hasVersion;
    if name.value == Split(root) && h.kind.Dir? {
      hasRoot := true;
    }
    if name.value == Split(root) + ["version"] && Regular(h.kind) {
      hasVersion := true;
    }
    var expanded := t.expanded;
    if Regular(h.kind) {
      if h.size < 0 {
        return None;
      }
      if h.size > Minus(MAX_EXPANDED, expanded) {
        return None;
      }
      if expanded > Minus(WORD - 1, h.size) {
        assert false;
        return None;
      }
      expanded := expanded + h.size;
    }
    return Some(Tally(seen, entries, expanded, hasRoot, hasVersion));
  }

  method Inspect(hs: seq<Header>, torn: bool, root: string) returns (r: Option<Tally>)
    ensures r.Some? <==> Accepts(hs, torn, root)
    ensures r.Some? ==> r == Scan(hs, root) && r.value.expanded <= MAX_EXPANDED
  {
    var t := EMPTY;
    var i := 0;
    while i < |hs|
      invariant i <= |hs| && Scan(hs[..i], root) == Some(t)
    {
      ScanOneMore(hs, i, root, t);
      var next := InspectHeader(t, hs[i], root);
      if next.None? {
        return None;
      }
      t := next.value;
      i := i + 1;
    }
    assert hs[..i] == hs;
    ScanStaysBelowLimit(hs, root);
    if torn || !t.hasRoot || !t.hasVersion {
      return None;
    }
    return Some(t);
  }

  // Extraction.

  datatype File = File(name: Name, size: nat)

  function SizeOf(f: File): int { f.size }

  /** What has been created, in order; directories include implied parents. */
  datatype Tree = Tree(files: seq<File>, dirs: set<Name>)

  const BARE := Tree([], {})

  predicate IsFile(t: Tree, n: Name) { exists i :: 0 <= i < |t.files| && t.files[i].name == n }

  function Parents(n: Name): set<Name> { set k | 0 < k < |n| :: n[..k] }

  predicate MayMakeDirs(t: Tree, dirs: set<Name>) { forall d :: d in dirs ==> !IsFile(t, d) }

  /** What creating an entry does to the tree; None where the filesystem refuses. */
  function Created(t: Tree, name: Name, h: Header): Option<Tree> {
    if !MayMakeDirs(t, Parents(name)) then None
    else if h.kind.Dir? then
      if IsFile(t, name) then None else Some(t.(dirs := t.dirs + Parents(name) + {name}))
    else if IsFile(t, name) || name in t.dirs || h.size < 0 then None
    else Some(Tree(t.files + [File(name, h.size)], t.dirs + Parents(name)))
  }

  /** The tree after all entries, if the filesystem refuses none. */
  function Built(hs: seq<Header>, root: string): Option<Tree> {
    if hs == [] then Some(BARE)
    else
      var tree, name := Built(hs[..|hs| - 1], root), Validate(hs[|hs| - 1], root);
      if tree.None? || name.None? then None else Created(tree.value, name.value, hs[|hs| - 1])
  }

  lemma {:induction false} BuiltPrefix(hs: seq<Header>, i: nat, root: string)
    requires i <= |hs| && Built(hs[..i], root).None?
    ensures Built(hs, root).None?
    decreases |hs| - i
  {
    if i == |hs| {
      assert hs[..i] == hs;
    } else {
      assert hs[..i + 1][..i] == hs[..i];
      BuiltPrefix(hs, i + 1, root);
    }
  }

  datatype Outcome = Refused | IoFailed | Extracted(tree: Tree)

  lemma OneMore(hs: seq<Header>, i: nat, root: string, t: Tally, tree: Tree)
    requires i < |hs| && Scan(hs[..i], root) == Some(t) && Built(hs[..i], root) == Some(tree)
    ensures Scan(hs[..i + 1], root) == Decide(t, hs[i], root)
    ensures Decide(t, hs[i], root).Some? ==>
      Validate(hs[i], root).Some? && Built(hs[..i + 1], root) == Created(tree, Validate(hs[i], root).value, hs[i])
  {
    assert hs[..i + 1][..i] == hs[..i];
  }

  /** Reading on after a refusal or a failure cannot undo it. */
  lemma StopsForGood(hs: seq<Header>, i: nat, root: string)
    requires i < |hs|
    ensures Scan(hs[..i + 1], root).None? ==> Scan(hs, root).None?
    ensures Built(hs[..i + 1], root).None? ==> Built(hs, root).None?
  {
    if Scan(hs[..i + 1], root).None? {
      ScanPrefix(hs, i + 1, root);
    }
    if Built(hs[..i + 1], root).None? {
      BuiltPrefix(hs, i + 1, root);
    }
  }

  /**
   * Every file is under the root and made once, no directory leads elsewhere, and the bytes
   * written are the bytes counted.
   */
  ghost predicate WellExtracted(tree: Tree, t: Tally, root: string) {
    && (forall i :: 0 <= i < |tree.files| ==> Below(tree.files[i].name, root) && tree.files[i].name in t.seen)
    && (forall i, j :: 0 <= i < j < |tree.files| ==> tree.files[i].name != tree.files[j].name)
    && (forall d :: d in tree.dirs ==> Along(d, root))
    && Sum(tree.files, SizeOf) == t.expanded <= MAX_EXPANDED
  }

  lemma NewDirsAreAlong(name: Name, root: string)
    requires Below(name, root)
    ensures forall d :: d in Parents(name) + {name} ==> Along(d, root)
  {
    forall d | d in Parents(name) + {name} ensures Along(d, root) {
      ParentsAreAlong(name, root, |d|);
      assert name[..|d|] == d;
    }
  }

  lemma CreatedKeeps(tree: Tree, t: Tally, h: Header, root: string)
    requires WellExtracted(tree, t, root) && Decide(t, h, root).Some?
    requires Created(tree, Validate(h, root).value, h).Some?
    requires Minus(MAX_EXPANDED, t.expanded) == MAX_EXPANDED - t.expanded
    ensures WellExtracted(Created(tree, Validate(h, root).value, h).value, Decide(t, h, root).value, root)
  {
    AcceptedIsBelow(h, root);
    var name := Validate(h, root).value;
    NewDirsAreAlong(name, root);
    if Regular(h.kind) {
      SumAppend(tree.files, File(name, h.size), SizeOf);
    }
  }

  /** So it is for every stream both passes get through. */
  lemma {:induction false} BuiltIsWellExtracted(hs: seq<Header>, root: string)
    requires Scan(hs, root).Some? && Built(hs, root).Some?
    ensures WellExtracted(Built(hs, root).value, Scan(hs, root).value, root)
  {
    if hs != [] {
      var front := hs[..|hs| - 1];
      BuiltIsWellExtracted(front, root);
      ScanStaysBelowLimit(front, root);
      CreatedKeeps(Built(front, root).value, Scan(front, root).value, hs[|hs| - 1], root);
    }
  }

  /** What extraction counts; it does not look for the root or the version. */
  datatype Counts = Counts(seen: set<Name>, entries: nat, expanded: nat)

  function CountsOf(t: Tally): Counts { Counts(t.seen, t.entries, t.expanded) }

  datatype Entry = Refuse | Fail | Made(counts: Counts, tree: Tree)

  /**
   * The body of the extracting loop, in its order: its own copy of the checks, which agrees with
   * the inspecting one, and then the filesystem. `works` is whether I/O works on this entry.
   */
  method ExtractHeader(c: Counts, tree: Tree, h: Header, root: string, works: bool, ghost t: Tally) returns (r: Entry)
    requires c == CountsOf(t)
    ensures r.Refuse? <==> Decide(t, h, root).None?
    ensures r.Made? <==>
      Decide(t, h, root).Some? && works && Created(tree, Validate(h, root).value, h).Some?
    ensures r.Made? ==>
      && r.counts == CountsOf(Decide(t, h, root).value)
      && Some(r.tree) == Created(tree, Validate(h, root).value, h)
  {
    var name := Validate(h, root);
    if name.None? || name.value in c.seen {
      return Refuse;
    }
    var seen, entries, expanded := c.seen + {name.value}, c.entries + 1, c.expanded;
    if entries > MAX_ENTRIES {
      return Refuse;
    }
    match h.kind {
      case Dir =>
        if !works || !MayMakeDirs(tree, Parents(name.value)) || IsFile(tree, name.value) {
          return Fail;
        }
        return Made(Counts(seen, entries, expanded), tree.(dirs := tree.dirs + Parents(name.value) + {name.value}));
      case Reg | OldReg =>
        if h.size < 0 {
          return Refuse;
        }
        if h.size > Minus(MAX_EXPANDED, expanded) {
          return Refuse;
        }
        expanded := expanded + h.size;
        if !works || !MayMakeDirs(tree, Parents(name.value)) {
          return Fail;
        }
        if IsFile(tree, name.value) || name.value in tree.dirs {
          return Fail;
        }
        return Made(Counts(seen, entries, expanded),
          Tree(tree.files + [File(name.value, h.size)], tree.dirs + Parents(name.value)));
      case Other =>
        assert false;
        return Refuse;
    }
  }

  /** The archive again; `failsAt` is the entry on which I/O fails, if there are that many. */
  method Extract(hs: seq<Header>, torn: bool, root: string, failsAt: nat) returns (r: Outcome)
    ensures r.Refused? ==> Scan(hs, root).None?
    ensures r.Extracted? <==> !torn && failsAt >= |hs| && Scan(hs, root).Some? && Built(hs, root).Some?
    ensures r.Extracted? ==> Built(hs, root) == Some(r.tree)
  {
    var c := Counts({}, 0, 0);
    ghost var t := EMPTY;
    var tree := BARE;
    var i := 0;
    while i < |hs|
      invariant i <= |hs| && i <= failsAt
      invariant c == CountsOf(t) && Scan(hs[..i], root) == Some(t) && Built(hs[..i], root) == Some(tree)
    {
      OneMore(hs, i, root, t, tree);
      StopsForGood(hs, i, root);
      var entry := ExtractHeader(c, tree, hs[i], root, i != failsAt, t);
      match entry {
        case Refuse => return Refused;
        case Fail => return IoFailed;
        case Made(counts, grown) =>
          c, tree := counts, grown;
          t := Decide(t, hs[i], root).value;
          i := i + 1;
      }
    }
    assert hs[..i] == hs;
    return if torn then IoFailed else Extracted(tree);
  }

  /**
   * The two passes over one archive: once inspection accepts, extraction refuses no name and no
   * size, and when it completes the bytes written are exactly the size inspected, within the limit.
   */
  method InspectThenExtract(hs: seq<Header>, torn: bool, root: string, failsAt: nat)
      returns (info: Option<Tally>, r: Outcome)
    ensures info.Some? <==> Accepts(hs, torn, root)
    ensures info.Some? ==> !r.Refused?
    ensures info.Some? && r.Extracted? ==>
      && WellExtracted(r.tree, info.value, root)
      && Sum(r.tree.files, SizeOf) == info.value.expanded <= MAX_EXPANDED
  {
    info := Inspect(hs, torn, root);
    r := IoFailed;
    if info.Some? {
      r := Extract(hs, torn, root, failsAt);
      if r.Extracted? {
        BuiltIsWellExtracted(hs, root);
      }
    }
  }
}
