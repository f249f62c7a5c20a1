/**
 * A device's links as a bridge transaction sees them, each with its master: what the armed steps
 * of a transaction can make of them, what a restore makes of that, and when the restore puts back
 * what was captured.
 */
module BridgeSetup {
  import opened Wrappers
  import opened BridgeRestore

  type MasterMap = map<Name, Option<Name>>

  function MastersOf(links: Links): MasterMap { map n | n in links :: links[n].master }

  /** The snapshot is a capture of those masters. */
  predicate Records(snap: Snapshot, base: MasterMap) {
    && (forall l :: l in snap.links ==> l.name in base && l.master == base[l.name])
    && (forall n :: n in base ==> Link(n, base[n]) in snap.links)
  }

  /** What a restore releases. */
  predicate Loose(base: MasterMap, live: MasterMap, n: Name)
    requires n in live
  {
    || (Gadget(n) && ((n in base && base[n] == NO_MASTER) || live[n] == UNDER_BRIDGE))
    || (n == Stock && n in base && base[n] == NO_MASTER)
  }

  function Restored(base: MasterMap, live: MasterMap): MasterMap {
    map n | n in live && (n == Bridge ==> Bridge in base) :: if Loose(base, live, n) then NO_MASTER else live[n]
  }

  lemma RecordsLookup(snap: Snapshot, base: MasterMap)
    requires Records(snap, base)
    ensures forall n :: Captured(snap, n) <==> n in base
    ensures StockWasFree(snap) <==> Stock in base && base[Stock] == NO_MASTER
    ensures forall n :: Link(n, NO_MASTER) in snap.links <==> n in base && base[n] == NO_MASTER
  {
    forall n ensures Captured(snap, n) <==> n in base {
      if n in base {
        assert Link(n, base[n]) in snap.links;
      }
    }
  }

  lemma {:induction false} NothingRefused(links: Links, cmds: seq<Cmd>, refused: set<Cmd>)
    requires AllWork(links, cmds, refused)
    ensures Replay(links, cmds, refused) == Replay(links, cmds, {})
    decreases |cmds|
  {
    if cmds != [] {
      NothingRefused(links, cmds[..|cmds| - 1], refused);
    }
  }

  /**
   * A restore with no error, on any device, leaves exactly the masters named above; the uplink
   * file is the captured one.
   */
  lemma CleanRestoreGives(
      snap: Snapshot, base: MasterMap, live: seq<Link>, links: Links, refused: set<Cmd>, uplink: Option<Name>)
    requires Records(snap, base) && Lists(live, links) && NamesFit(snap)
    requires AllWork(links, Commands(snap, live, true), refused)
    requires snap.uplink.Some? ==> UplinkName(snap.uplink.value)
    ensures MastersOf(Replay(links, Commands(snap, live, true), refused)) == Restored(base, MastersOf(links))
    ensures UplinkAfter(snap.uplink, uplink) == snap.uplink
  {
    NothingRefused(links, Commands(snap, live, true), refused);
    UplinkAsCaptured(snap.uplink, uplink);
    AfterRestoreIs(snap, live, links);
    BeforeTeardownIs(snap, live, links);
    ReleasableIsLoose(snap, base, live, links);
    ReleasedMasters(base, links, AfterRestore(snap, live, links), Releasable(snap, live));
  }

  lemma ReleasableIsLoose(snap: Snapshot, base: MasterMap, live: seq<Link>, links: Links)
    requires Records(snap, base) && Lists(live, links)
    ensures Captured(snap, Bridge) <==> Bridge in base
    ensures forall n :: n in links ==> (n in Releasable(snap, live) <==> Loose(base, MastersOf(links), n))
  {
    RecordsLookup(snap, base);
    ReleasableElements(snap, live);
    forall n | n in links
      ensures n in Releasable(snap, live) <==> Loose(base, MastersOf(links), n)
    {
      assert Link(n, links[n].master) in live;
    }
  }

  lemma ReleasedMasters(base: MasterMap, links: Links, after: Links, released: seq<Name>)
    requires after.Keys == if Bridge in base then links.Keys else links.Keys - {Bridge}
    requires forall n :: n in after ==> after[n].master == if n in released then NO_MASTER else links[n].master
    requires forall n :: n in links ==> (n in released <==> Loose(base, MastersOf(links), n))
    ensures MastersOf(after) == Restored(base, MastersOf(links))
  {
    var a, b := MastersOf(after), Restored(base, MastersOf(links));
    assert a.Keys == b.Keys;
    forall n | n in a ensures a[n] == b[n] {
      assert n in links && MastersOf(links)[n] == links[n].master;
    }
  }

  // What the armed part of a transaction can do to the masters, and what a restore makes of that.

  datatype Relinking = AddBridge | EnslaveStock | ReleaseStock | ReleaseGadget(n: Name)

  /** An enable builds br0 and enslaves eth0; a disable releases the captured gadget ports and eth0. */
  predicate MayRelink(enabling: bool, base: MasterMap, s: MasterMap, m: Relinking) {
    match m
    case AddBridge => enabling && Bridge !in s
    case EnslaveStock => enabling && Stock in s && Bridge in s
    case ReleaseStock => !enabling && Stock in s
    case ReleaseGadget(n) => !enabling && Gadget(n) && n in s && n in base && base[n] == UNDER_BRIDGE
  }

  function Relinked(s: MasterMap, m: Relinking): MasterMap {
    match m
    case AddBridge => s[Bridge := NO_MASTER]
    case EnslaveStock => s[Stock := UNDER_BRIDGE]
    case ReleaseStock => s[Stock := NO_MASTER]
    case ReleaseGadget(n) => s[n := NO_MASTER]
  }

  /** What an operation writes into the uplink file; a disable removes it. */
  function Uplink(enabling: bool): Option<Name> { if enabling then Some(Bridge) else None }

  /** eth0 had a master in the capture and no longer has it: no restore gives it back. */
  predicate Moved(base: MasterMap, s: MasterMap) {
    Stock in base && base[Stock].Some? && Stock in s && s[Stock] != base[Stock]
  }

  /** One link of what can be reached from a capture. */
  predicate ReachedLink(base: MasterMap, s: MasterMap, n: Name)
    requires n in base && n in s
  {
    if n == Stock then base[n] == NO_MASTER ==> s[n] == NO_MASTER || s[n] == UNDER_BRIDGE
    else s[n] == base[n] || (Gadget(n) && base[n] == UNDER_BRIDGE && s[n] == NO_MASTER)
  }

  predicate Reached(base: MasterMap, s: MasterMap) {
    && s.Keys + {Bridge} == base.Keys + {Bridge}
    && (Bridge in base ==> Bridge in s)
    && forall n :: n in base && n in s ==> ReachedLink(base, s, n)
  }

  lemma CaptureIsReached(base: MasterMap)
    ensures Reached(base, base) && !Moved(base, base)
  {
  }

  lemma RelinkingStaysReached(enabling: bool, base: MasterMap, s: MasterMap, m: Relinking)
    requires Reached(base, s) && MayRelink(enabling, base, s, m)
    ensures Reached(base, Relinked(s, m))
  {
  }

  predicate HasGadgetPort(base: MasterMap) { exists n :: n in base && Gadget(n) && base[n] == UNDER_BRIDGE }

  /** The capture has a gadget port of br0, which every restore releases, or eth0 has lost its captured master. */
  predicate Doomed(base: MasterMap, s: MasterMap) { HasGadgetPort(base) || Moved(base, s) }

  /** A restore with no error puts the captured masters back if and only if they were not doomed. */
  lemma RestoreIsExactWhen(base: MasterMap, s: MasterMap)
    requires Reached(base, s)
    ensures Restored(base, s) == base <==> !Doomed(base, s)
    ensures Reached(base, Restored(base, s))
    ensures Doomed(base, Restored(base, s)) == Doomed(base, s)
  {
    var r := Restored(base, s);
    assert r.Keys == base.Keys;
    forall n | n in base
      ensures ReachedLink(base, r, n)
      ensures r[n] == base[n] <==> !(n == Stock && Moved(base, s)) && !(Gadget(n) && base[n] == UNDER_BRIDGE)
    {
      assert ReachedLink(base, s, n);
    }
    if !Doomed(base, s) {
      assert r == base;
    }
  }

  /** So whatever a transaction did to a device without br0, whose eth0 was free, is undone. */
  lemma CaptureWithoutBridgeIsRestored(base: MasterMap, s: MasterMap)
    requires Bridge !in base && Reached(base, s)
    requires forall n :: n in base ==> base[n] != UNDER_BRIDGE
    requires Stock in base ==> base[Stock] == NO_MASTER
    ensures Restored(base, s) == base
  {
    RestoreIsExactWhen(base, s);
  }

  // A restore that fails, or is cut short, on the way.

  /** A command a restore of this capture may issue. */
  predicate Harmless(base: MasterMap, c: Cmd) {
    match c
    case Release(n) =>
      n in base ==>
        (Gadget(n) && (base[n] == NO_MASTER || base[n] == UNDER_BRIDGE))
        || (n == Stock && base[n] == NO_MASTER)
    case Delete(n) => n == Bridge && Bridge !in base
    case _ => true
  }

  predicate AllHarmless(base: MasterMap, cmds: seq<Cmd>) { forall i :: 0 <= i < |cmds| ==> Harmless(base, cmds[i]) }

  lemma HarmlessTogether(base: MasterMap, a: seq<Cmd>, b: seq<Cmd>)
    requires AllHarmless(base, a) && AllHarmless(base, b)
    ensures AllHarmless(base, a + b)
  {
  }

  lemma HarmlessStaysReached(base: MasterMap, links: Links, c: Cmd, refused: set<Cmd>)
    requires Reached(base, MastersOf(links)) && Harmless(base, c)
    ensures Reached(base, MastersOf(Run(links, c, refused)))
    ensures Moved(base, MastersOf(Run(links, c, refused))) == Moved(base, MastersOf(links))
  {
    var s, t := MastersOf(links), MastersOf(Run(links, c, refused));
    assert t.Keys == if c.Delete? && Works(links, c, refused) then s.Keys - {c.dev} else s.Keys;
    forall n | n in base && n in t ensures ReachedLink(base, t, n) {
      assert ReachedLink(base, s, n);
      assert t[n] == if c.Release? && c.dev == n && Works(links, c, refused) then NO_MASTER else s[n];
    }
  }

  lemma {:induction false} HarmlessRunStaysReached(
      base: MasterMap, links: Links, cmds: seq<Cmd>, refused: set<Cmd>)
    requires Reached(base, MastersOf(links))
    requires AllHarmless(base, cmds)
    ensures Reached(base, MastersOf(Replay(links, cmds, refused)))
    ensures Moved(base, MastersOf(Replay(links, cmds, refused))) == Moved(base, MastersOf(links))
    decreases |cmds|
  {
    if cmds != [] {
      var front := cmds[..|cmds| - 1];
      HarmlessRunStaysReached(base, links, front, refused);
      HarmlessStaysReached(base, Replay(links, front, refused), cmds[|cmds| - 1], refused);
    }
  }

  lemma {:induction false} ReleasesAreHarmless(base: MasterMap, devs: seq<Name>, masters: MasterMap, known: bool)
    requires forall d :: d in devs ==> Harmless(base, Release(d))
    ensures AllHarmless(base, ReleaseAll(devs, masters, known))
    decreases |devs|
  {
    if devs != [] {
      ReleasesAreHarmless(base, devs[1..], masters, known);
      assert devs[0] in devs;
      HarmlessTogether(base, ReleaseOne(devs[0], masters, known), ReleaseAll(devs[1..], masters, known));
    }
  }

  lemma ReleasableIsHarmless(snap: Snapshot, base: MasterMap, live: seq<Link>, links: Links, d: Name)
    requires Records(snap, base) && Reached(base, MastersOf(links))
    requires live == [] || Lists(live, links)
    requires d in Releasable(snap, live)
    ensures Harmless(base, Release(d))
  {
    RecordsLookup(snap, base);
    ReleasableElements(snap, live);
    if Gadget(d) && Link(d, UNDER_BRIDGE) in live && d in base {
      assert d in links && MastersOf(links)[d] == UNDER_BRIDGE;
      assert ReachedLink(base, MastersOf(links), d);
    }
  }

  lemma RestoreIsHarmless(snap: Snapshot, base: MasterMap, live: seq<Link>, links: Links, known: bool)
    requires Records(snap, base) && Reached(base, MastersOf(links))
    requires if known then Lists(live, links) else live == []
    ensures AllHarmless(base, Commands(snap, live, known))
  {
    forall d | d in Releasable(snap, live) ensures Harmless(base, Release(d)) {
      ReleasableIsHarmless(snap, base, live, links, d);
    }
    RecordsLookup(snap, base);
    var releases := Released(snap, live, known);
    ReleasesAreHarmless(base, Releasable(snap, live), Masters(live), known);
    var last := Teardown(snap, Masters(live), known);
    assert AllHarmless(base, last);
    HarmlessTogether(base, releases, last);
  }

  /**
   * Wherever a restore stops and whatever it is refused, the masters are some the transaction can
   * reach, and doomed if they were.
   */
  lemma AnyRestoreStaysReached(
      snap: Snapshot, base: MasterMap, live: seq<Link>, links: Links, known: bool, refused: set<Cmd>, n: nat)
    requires Records(snap, base) && Reached(base, MastersOf(links))
    requires if known then Lists(live, links) else live == []
    requires n <= |Commands(snap, live, known)|
    ensures var s := MastersOf(Replay(links, Commands(snap, live, known)[..n], refused));
      Reached(base, s) && Doomed(base, s) == Doomed(base, MastersOf(links))
  {
    RestoreIsHarmless(snap, base, live, links, known);
    HarmlessRunStaysReached(base, links, Commands(snap, live, known)[..n], refused);
  }
}
