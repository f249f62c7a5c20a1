/** The permission catalog, the grants a grant implies, and the spelling of stored grants. */
module Permissions {
  import opened Wrappers

  /** The ids this build knows, the two of earlier releases, and any other id a file may hold. */
  datatype Permission =
    | ConsoleView | ConsoleControl
    | Power | MediumAttach
    | LibraryRead | LibraryWrite
    | Terminal | Device | Network | Update
    | Mcp | Tailscale | Ai
    | MediaMount | MediaManage
    | Other(id: string)

  datatype Descriptor = Descriptor(permission: Permission, implies: seq<Permission>)

  const CATALOG: seq<Descriptor> := [
    Descriptor(ConsoleView, []),
    Descriptor(ConsoleControl, [ConsoleView]),
    Descriptor(Power, [ConsoleView]),
    Descriptor(MediumAttach, [LibraryRead]),
    Descriptor(LibraryRead, []),
    Descriptor(LibraryWrite, [LibraryRead]),
    Descriptor(Terminal, []),
    Descriptor(Device, [ConsoleView]),
    Descriptor(Network, [ConsoleView]),
    Descriptor(Update, [ConsoleView]),
    Descriptor(Mcp, [ConsoleView]),
    Descriptor(Tailscale, [ConsoleView]),
    Descriptor(Ai, [ConsoleView])
  ]

  function Ids(catalog: seq<Descriptor>): (r: seq<Permission>)
    ensures |r| == |catalog| && forall i :: 0 <= i < |catalog| ==> r[i] == catalog[i].permission
  {
    seq(|catalog|, i requires 0 <= i < |catalog| => catalog[i].permission)
  }

  function Elements<T(==)>(s: seq<T>): set<T> { set x | x in s }

  predicate NoDuplicates<T(==)>(s: seq<T>) { forall i, j :: 0 <= i < j < |s| ==> s[i] != s[j] }

  predicate IsValid(p: Permission) { p in Ids(CATALOG) }

  // What a set of grants implies, in any catalog.

  /** The grants one step of implication reaches from `s`. */
  function Implied(catalog: seq<Descriptor>, s: set<Permission>): set<Permission> {
    set d, q | d in catalog && d.permission in s && q in d.implies :: q
  }

  function AllImplied(catalog: seq<Descriptor>): set<Permission> {
    set d, q | d in catalog && q in d.implies :: q
  }

  predicate Closed(catalog: seq<Descriptor>, s: set<Permission>) { Implied(catalog, s) <= s }

  /** The least implication-closed superset, by growing until nothing is added. */
  function ClosureSet(catalog: seq<Descriptor>, s: set<Permission>): set<Permission>
    decreases AllImplied(catalog) - s
  {
    if Closed(catalog, s) then s
    else
      assert Implied(catalog, s) <= AllImplied(catalog);
      ClosureSet(catalog, s + Implied(catalog, s))
  }

  lemma {:induction false} ClosureSetIsClosed(catalog: seq<Descriptor>, s: set<Permission>)
    ensures s <= ClosureSet(catalog, s) && Closed(catalog, ClosureSet(catalog, s))
    ensures ClosureSet(catalog, s) <= s + AllImplied(catalog)
    decreases AllImplied(catalog) - s
  {
    if !Closed(catalog, s) {
      assert Implied(catalog, s) <= AllImplied(catalog);
      ClosureSetIsClosed(catalog, s + Implied(catalog, s));
    }
  }

  lemma {:induction false} ClosureSetIsLeast(catalog: seq<Descriptor>, s: set<Permission>, t: set<Permission>)
    requires s <= t && Closed(catalog, t)
    ensures ClosureSet(catalog, s) <= t
    decreases AllImplied(catalog) - s
  {
    if !Closed(catalog, s) {
      assert Implied(catalog, s) <= AllImplied(catalog);
      assert Implied(catalog, s) <= Implied(catalog, t);
      ClosureSetIsLeast(catalog, s + Implied(catalog, s), t);
    }
  }

  lemma ClosureSetMonotone(catalog: seq<Descriptor>, s: set<Permission>, t: set<Permission>)
    requires s <= t
    ensures ClosureSet(catalog, s) <= ClosureSet(catalog, t)
  {
    ClosureSetIsClosed(catalog, t);
    ClosureSetIsLeast(catalog, s, ClosureSet(catalog, t));
  }

  /** `closureSet`: the recursion that marks a grant and visits what it implies. */
  class Granting {
    const catalog: seq<Descriptor>
    var granted: set<Permission>

    constructor (catalog: seq<Descriptor>)
      ensures this.catalog == catalog && granted == {}
    {
      this.catalog := catalog;
      granted := {};
    }

    /**
     * Terminates on every catalog, cycles included, because `granted` only grows. Whatever it
     * adds has everything it implies, and lies in every closed set that has `p`.
     */
    method Add(p: Permission, ghost universe: set<Permission>)
      requires p in universe && AllImplied(catalog) <= universe
      modifies this`granted
      ensures old(granted) + {p} <= granted
      ensures Implied(catalog, granted - old(granted)) <= granted
      ensures forall t :: Closed(catalog, t) && p in t ==> granted - old(granted) <= t
      decreases universe - granted
    {
      if p in granted {
        assert granted - old(granted) == {};
        return;
      }
      granted := granted + {p};
      for i := 0 to |catalog|
        invariant old(granted) + {p} <= granted
        invariant Implied(catalog, granted - old(granted) - {p}) <= granted
        invariant Implied(catalog[..i], {p}) <= granted
        invariant forall t :: Closed(catalog, t) && p in t ==> granted - old(granted) <= t
      {
        var d := catalog[i];
        if d.permission == p {
          for j := 0 to |d.implies|
            invariant old(granted) + {p} <= granted
            invariant Implied(catalog, granted - old(granted) - {p}) <= granted
            invariant Implied(catalog[..i], {p}) <= granted
            invariant Elements(d.implies[..j]) <= granted
            invariant forall t :: Closed(catalog, t) && p in t ==> granted - old(granted) <= t
          {
            ghost var before := granted;
            var q := d.implies[j];
            assert d in catalog && q in d.implies;
            Add(q, universe);
            assert granted - old(granted) - {p} == (before - old(granted) - {p}) + (granted - before);
            forall t | Closed(catalog, t) && p in t
              ensures granted - old(granted) <= t
            {
              assert d.permission in t && q in Implied(catalog, t);
              assert granted - old(granted) <= (before - old(granted)) + (granted - before);
            }
            assert d.implies[..j + 1] == d.implies[..j] + [q];
          }
          assert d.implies[..|d.implies|] == d.implies;
        }
        assert catalog[..i + 1] == catalog[..i] + [d];
      }
      assert catalog[..|catalog|] == catalog;
      assert Implied(catalog, granted - old(granted)) <=
             Implied(catalog, granted - old(granted) - {p}) + Implied(catalog, {p});
    }
  }

  method ClosureOf(catalog: seq<Descriptor>, permissions: seq<Permission>) returns (granted: set<Permission>)
    ensures granted == ClosureSet(catalog, Elements(permissions))
  {
    var g := new Granting(catalog);
    ghost var universe := Elements(permissions) + AllImplied(catalog);
    for i := 0 to |permissions|
      invariant g.catalog == catalog
      invariant Elements(permissions[..i]) <= g.granted
      invariant Closed(catalog, g.granted)
      invariant forall t :: Closed(catalog, t) && Elements(permissions) <= t ==> g.granted <= t
    {
      ghost var before := g.granted;
      g.Add(permissions[i], universe);
      assert Implied(catalog, g.granted) <= Implied(catalog, before) + Implied(catalog, g.granted - before);
      assert permissions[..i + 1] == permissions[..i] + [permissions[i]];
      forall t | Closed(catalog, t) && Elements(permissions) <= t
        ensures g.granted <= t
      {
        assert g.granted <= before + (g.granted - before);
      }
    }
    assert permissions[..|permissions|] == permissions;
    ClosureSetIsClosed(catalog, Elements(permissions));
    ClosureSetIsLeast(catalog, Elements(permissions), g.granted);
    granted := g.granted;
  }

  // The ordered result.

  /** Walk `order`, moving each element still in `from` to the result. */
  function Pick(order: seq<Permission>, from: set<Permission>): seq<Permission> {
    if order == [] then []
    else if order[0] in from then [order[0]] + Pick(order[1..], from - {order[0]})
    else Pick(order[1..], from)
  }

  function Closure(catalog: seq<Descriptor>, permissions: seq<Permission>): seq<Permission> {
    var granted := ClosureSet(catalog, Elements(permissions));
    Pick(Ids(catalog), granted) + Pick(permissions, granted - Elements(Ids(catalog)))
  }

  lemma {:induction false} PickElements(order: seq<Permission>, from: set<Permission>)
    ensures Elements(Pick(order, from)) == from * Elements(order)
    ensures NoDuplicates(Pick(order, from))
  {
    if order != [] {
      var rest, left := order[1..], if order[0] in from then from - {order[0]} else from;
      PickElements(rest, left);
      assert Elements(order) == {order[0]} + Elements(rest);
      if order[0] in from {
        var tail := Pick(rest, left);
        assert Pick(order, from) == [order[0]] + tail;
        assert order[0] !in Elements(tail);
        assert Elements([order[0]] + tail) == {order[0]} + Elements(tail);
      }
    }
  }

  lemma {:induction false} PickSkips(a: seq<Permission>, b: seq<Permission>, from: set<Permission>)
    requires Elements(a) !! from
    ensures Pick(a + b, from) == Pick(b, from)
  {
    if a == [] {
      assert a + b == b;
    } else {
      assert a[0] in Elements(a);
      assert Elements(a[1..]) <= Elements(a);
      assert (a + b)[1..] == a[1..] + b;
      PickSkips(a[1..], b, from);
    }
  }

  lemma {:induction false} PickAll(s: seq<Permission>, from: set<Permission>)
    requires NoDuplicates(s) && Elements(s) <= from
    ensures Pick(s, from) == s
  {
    if s != [] {
      assert s[0] in Elements(s);
      assert forall x :: x in s[1..] ==> x in s && x != s[0];
      PickAll(s[1..], from - {s[0]});
    }
  }

  /** One of the two loops of `Closure`: take what is still granted, in this order. */
  method TakeInOrder(order: seq<Permission>, granted: set<Permission>)
      returns (taken: seq<Permission>, left: set<Permission>)
    ensures taken == Pick(order, granted) && left == granted - Elements(order)
  {
    taken, left := [], granted;
    for i := 0 to |order|
      invariant taken + Pick(order[i..], left) == Pick(order, granted)
      invariant left == granted - Elements(order[..i])
    {
      assert order[i..][1..] == order[i + 1..] && order[..i + 1] == order[..i] + [order[i]];
      if order[i] in left {
        taken, left := taken + [order[i]], left - {order[i]};
      }
    }
    assert order[..|order|] == order && Pick(order[|order|..], left) == [];
  }

  /** `Closure`: mark, then list the catalog in order, then what the catalog does not know. */
  method ComputeClosure(catalog: seq<Descriptor>, permissions: seq<Permission>) returns (resolved: seq<Permission>)
    ensures resolved == Closure(catalog, permissions)
  {
    var granted := ClosureOf(catalog, permissions);
    var known, unknown;
    known, granted := TakeInOrder(Ids(catalog), granted);
    unknown, granted := TakeInOrder(permissions, granted);
    resolved := known + unknown;
  }

  /** Duplicate-free, and exactly the implied grants that are in the catalog or were asked for. */
  lemma ClosureElements(catalog: seq<Descriptor>, permissions: seq<Permission>)
    ensures NoDuplicates(Closure(catalog, permissions))
    ensures Elements(Closure(catalog, permissions)) ==
      ClosureSet(catalog, Elements(permissions)) * (Elements(Ids(catalog)) + Elements(permissions))
  {
    var granted, ids := ClosureSet(catalog, Elements(permissions)), Elements(Ids(catalog));
    var a, b := Pick(Ids(catalog), granted), Pick(permissions, granted - ids);
    PickElements(Ids(catalog), granted);
    PickElements(permissions, granted - ids);
    assert Elements(a + b) == Elements(a) + Elements(b);
    forall i, j | 0 <= i < j < |a + b|
      ensures (a + b)[i] != (a + b)[j]
    {
      if i < |a| <= j {
        assert a[i] in Elements(a) && b[j - |a|] in Elements(b);
      }
    }
  }

  /** Every implied grant is itself a catalog entry. */
  predicate WellFormed(catalog: seq<Descriptor>) { AllImplied(catalog) <= Elements(Ids(catalog)) }

  /**
   * `Closure` returns the least closed superset exactly when nothing implied lies outside both
   * the catalog and the request; a well-formed catalog guarantees that for every request.
   */
  lemma ClosureIsLeastClosed(catalog: seq<Descriptor>, permissions: seq<Permission>)
    ensures var least := ClosureSet(catalog, Elements(permissions));
      && (Elements(Closure(catalog, permissions)) == least
          <==> least <= Elements(Ids(catalog)) + Elements(permissions))
      && (WellFormed(catalog) ==> Elements(Closure(catalog, permissions)) == least)
  {
    ClosureElements(catalog, permissions);
    ClosureSetIsClosed(catalog, Elements(permissions));
  }

  /** A catalog that implies an id it does not list: the implied grant is lost. */
  lemma OpenCatalogLosesGrants(a: Permission, b: Permission)
    requires a != b
    ensures var catalog := [Descriptor(a, [b])];
      b in ClosureSet(catalog, {a}) && b !in Closure(catalog, [a])
  {
    var catalog := [Descriptor(a, [b])];
    ClosureSetIsClosed(catalog, {a});
    assert catalog[0] in catalog && b in catalog[0].implies;
    assert b in Implied(catalog, ClosureSet(catalog, {a}));
    ClosureElements(catalog, [a]);
    assert Elements([a]) == {a} && Ids(catalog) == [a];
    assert b !in Elements(Closure(catalog, [a]));
  }

  /** Applying it twice changes nothing, not even the order. */
  lemma ClosureIdempotent(catalog: seq<Descriptor>, permissions: seq<Permission>)
    ensures Closure(catalog, Closure(catalog, permissions)) == Closure(catalog, permissions)
  {
    var granted, ids := ClosureSet(catalog, Elements(permissions)), Elements(Ids(catalog));
    var once := Closure(catalog, permissions);
    var a, b := Pick(Ids(catalog), granted), Pick(permissions, granted - ids);
    ClosureElements(catalog, permissions);
    ClosureSetIsClosed(catalog, Elements(permissions));
    assert Elements(permissions) <= Elements(once) <= granted;
    ClosureSetMonotone(catalog, Elements(permissions), Elements(once));
    ClosureSetIsLeast(catalog, Elements(once), granted);
    assert ClosureSet(catalog, Elements(once)) == granted;
    PickElements(Ids(catalog), granted);
    PickElements(permissions, granted - ids);
    PickSkips(a, b, granted - ids);
    PickAll(b, granted - ids);
  }

  lemma ClosureMonotone(catalog: seq<Descriptor>, p: seq<Permission>, q: seq<Permission>)
    requires Elements(p) <= Elements(q)
    ensures Elements(Closure(catalog, p)) <= Elements(Closure(catalog, q))
  {
    ClosureElements(catalog, p);
    ClosureElements(catalog, q);
    ClosureSetMonotone(catalog, Elements(p), Elements(q));
  }

  /** Ids the build does not know survive, and none is invented. */
  lemma ClosureKeepsUnknown(catalog: seq<Descriptor>, permissions: seq<Permission>, p: Permission)
    requires p !in Ids(catalog)
    ensures p in Closure(catalog, permissions) <==> p in permissions
  {
    ClosureElements(catalog, permissions);
    ClosureSetIsClosed(catalog, Elements(permissions));
    assert p in Elements(Closure(catalog, permissions)) <==> p in Closure(catalog, permissions);
    assert p in Elements(permissions) <==> p in permissions;
    assert p !in Elements(Ids(catalog));
  }

  lemma ClosureOfNothing(catalog: seq<Descriptor>)
    ensures forall p :: p !in Closure(catalog, [])
  {
    var none: seq<Permission> := [];
    assert Elements(none) == {} && Closed(catalog, {});
    ClosureElements(catalog, none);
    assert forall p :: p in Closure(catalog, none) ==> p in Elements(Closure(catalog, none));
  }

  lemma ShippedCatalogIsWellFormed()
    ensures WellFormed(CATALOG)
  {
    var ids := Ids(CATALOG);
    assert ids[0] == ConsoleView && ids[4] == LibraryRead;
    forall q | q in AllImplied(CATALOG)
      ensures q in Elements(ids)
    {
      var d :| d in CATALOG && q in d.implies;
      ShippedImplications(d, q);
    }
  }

  lemma ShippedImplications(d: Descriptor, q: Permission)
    requires d in CATALOG && q in d.implies
    ensures q == ConsoleView || q == LibraryRead
  {
  }

  // The spelling of stored grants.

  function AppendOnce(s: seq<Permission>, p: Permission): seq<Permission> { if p in s then s else s + [p] }

  /** Add one stored grant; split grants of earlier releases become the grants they now mean. */
  function AppendSpelled(s: seq<Permission>, p: Permission): seq<Permission> {
    if p == MediaMount then AppendOnce(AppendOnce(s, MediumAttach), LibraryRead)
    else if p == MediaManage then AppendOnce(AppendOnce(s, LibraryRead), LibraryWrite)
    else AppendOnce(s, p)
  }

  function Normalize(permissions: seq<Permission>): seq<Permission> {
    if permissions == [] then []
    else AppendSpelled(Normalize(permissions[..|permissions| - 1]), permissions[|permissions| - 1])
  }

  method NormalizeStoredPermissions(permissions: seq<Permission>) returns (normalized: seq<Permission>)
    ensures normalized == Normalize(permissions)
  {
    normalized := [];
    for i := 0 to |permissions|
      invariant normalized == Normalize(permissions[..i])
    {
      var p := permissions[i];
      assert permissions[..i + 1][..i] == permissions[..i];
      if p == MediaMount {
        normalized := AppendOnce(normalized, MediumAttach);
        normalized := AppendOnce(normalized, LibraryRead);
      } else if p == MediaManage {
        normalized := AppendOnce(normalized, LibraryRead);
        normalized := AppendOnce(normalized, LibraryWrite);
      } else {
        normalized := AppendOnce(normalized, p);
      }
    }
    assert permissions[..|permissions|] == permissions;
  }

  predicate Legacy(p: Permission) { p == MediaMount || p == MediaManage }

  /** The grants one stored spelling stands for. */
  function Meaning(p: Permission): set<Permission> {
    if p == MediaMount then {MediumAttach, LibraryRead}
    else if p == MediaManage then {LibraryRead, LibraryWrite}
    else {p}
  }

  lemma AppendOnceElements(s: seq<Permission>, p: Permission)
    requires NoDuplicates(s)
    ensures NoDuplicates(AppendOnce(s, p)) && Elements(AppendOnce(s, p)) == Elements(s) + {p}
  {
  }

  lemma AppendSpelledElements(s: seq<Permission>, p: Permission)
    requires NoDuplicates(s)
    ensures NoDuplicates(AppendSpelled(s, p)) && Elements(AppendSpelled(s, p)) == Elements(s) + Meaning(p)
  {
    if p == MediaMount {
      AppendOnceElements(s, MediumAttach);
      AppendOnceElements(AppendOnce(s, MediumAttach), LibraryRead);
    } else if p == MediaManage {
      AppendOnceElements(s, LibraryRead);
      AppendOnceElements(AppendOnce(s, LibraryRead), LibraryWrite);
    } else {
      AppendOnceElements(s, p);
    }
  }

  /** Duplicate-free, free of the old spellings, and meaning exactly what was stored. */
  lemma {:induction false} NormalizeElements(permissions: seq<Permission>)
    ensures NoDuplicates(Normalize(permissions))
    ensures forall p :: p in Normalize(permissions) ==> !Legacy(p)
    ensures Elements(Normalize(permissions)) == set p, q | p in permissions && q in Meaning(p) :: q
  {
    if permissions != [] {
      var last := permissions[|permissions| - 1];
      var front := permissions[..|permissions| - 1];
      NormalizeElements(front);
      assert permissions == front + [last];
      var meant := set p, q | p in front && q in Meaning(p) :: q;
      assert (set p, q | p in permissions && q in Meaning(p) :: q) == meant + Meaning(last);
      AppendSpelledElements(Normalize(front), last);
      assert forall p :: p in Normalize(permissions) ==> p in Elements(Normalize(front)) + Meaning(last);
    }
  }

  lemma {:induction false} NormalizeFixed(s: seq<Permission>)
    requires NoDuplicates(s) && forall p :: p in s ==> !Legacy(p)
    ensures Normalize(s) == s
  {
    if s != [] {
      var front, last := s[..|s| - 1], s[|s| - 1];
      assert forall p :: p in front ==> p in s;
      NormalizeFixed(front);
      assert last in s && last !in front;
      assert AppendSpelled(front, last) == front + [last] == s;
    }
  }

  lemma NormalizeIdempotent(permissions: seq<Permission>)
    ensures Normalize(Normalize(permissions)) == Normalize(permissions)
  {
    NormalizeElements(permissions);
    NormalizeFixed(Normalize(permissions));
  }
}
