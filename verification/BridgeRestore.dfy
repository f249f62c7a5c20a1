/**
 * Restoring a captured network state: which devices are released, in which order the commands go
 * out, what the device is afterwards, and what a second restore still finds to do.
 */
module BridgeRestore {
  import opened Wrappers

  // Device names, sorted into the kinds the code tells apart.

  datatype Name = Bridge | Stock | Usb(digits: string) | Other(text: string)

  predicate Digit(c: char) { '0' <= c <= '9' }

  predicate Digits(s: string) { forall i :: 0 <= i < |s| ==> Digit(s[i]) }

  /** usb followed by one or more digits. */
  predicate GadgetShaped(s: string) { |s| > 3 && s[..3] == "usb" && Digits(s[3..]) }

  function Parse(s: string): Name {
    if s == "br0" then Bridge
    else if s == "eth0" then Stock
    else if GadgetShaped(s) then Usb(s[3..])
    else Other(s)
  }

  function Print(n: Name): string {
    match n
    case Bridge => "br0"
    case Stock => "eth0"
    case Usb(digits) => "usb" + digits
    case Other(text) => text
  }

  predicate NameStart(c: char) { Digit(c) || 'a' <= c <= 'z' || 'A' <= c <= 'Z' }

  predicate NameChar(c: char) { NameStart(c) || c == '.' || c == '_' || c == '-' }

  predicate DeviceName(s: string) {
    1 <= |s| <= 15 && NameStart(s[0]) && forall i :: 0 <= i < |s| ==> NameChar(s[i])
  }

  /** What may reach a command line. */
  predicate Safe(n: Name) {
    match n
    case Usb(digits) => |digits| <= 12
    case Other(text) => DeviceName(text)
    case _ => true
  }

  /** Sorting loses nothing, and safety is the kernel's name pattern. */
  lemma ParseIsExact(s: string)
    ensures Print(Parse(s)) == s
    ensures Safe(Parse(s)) <==> DeviceName(s)
  {
    if s != "br0" && s != "eth0" && GadgetShaped(s) {
      assert s == s[..3] + s[3..];
      forall i | 0 <= i < |s| ensures NameChar(s[i]) && (i == 0 ==> NameStart(s[i])) {
        assert s[i] == if i < 3 then s[..3][i] else s[3..][i - 3];
      }
    }
  }

  predicate DigitCode(c: int) { 48 <= c <= 57 }

  predicate LetterCode(c: int) { 65 <= c <= 90 || 97 <= c <= 122 }

  /** The patterns, in ASCII: usb and digits; 1 to 15 letters and digits, after the first also dash, dot, underscore. */
  lemma PatternsAre(s: string)
    ensures Gadget(Parse(s)) <==>
      |s| > 3 && s[..3] == "usb" && forall i :: 3 <= i < |s| ==> DigitCode(s[i] as int)
    ensures Safe(Parse(s)) <==>
      && 1 <= |s| <= 15
      && forall i :: 0 <= i < |s| ==>
           var c := s[i] as int;
           DigitCode(c) || LetterCode(c) || (i > 0 && (c == 45 || c == 46 || c == 95))
  {
    ParseIsExact(s);
    if |s| > 3 && s[..3] == "usb" {
      var rest := s[3..];
      assert s[0] == s[..3][0] == 'u';
      assert forall i :: 3 <= i < |s| ==> s[i] == rest[i - 3];
      assert forall i :: 0 <= i < |rest| ==> rest[i] == s[i + 3];
    }
  }

  predicate Gadget(n: Name) { n.Usb? }

  /** One line of a link listing. */
  datatype Link = Link(name: Name, master: Option<Name>)

  datatype Port = Port(master: Option<Name>, up: bool)

  type Links = map<Name, Port>

  const NO_MASTER: Option<Name> := None
  const UNDER_BRIDGE: Option<Name> := Some(Bridge)

  /** `uplink` is None when the file was absent; it can hold any text. */
  datatype Snapshot = Snapshot(links: seq<Link>, uplink: Option<Name>)

  datatype Cmd = Release(dev: Name) | Up(dev: Name) | Down(dev: Name) | Delete(dev: Name)

  // The capture.

  predicate Captured(snap: Snapshot, dev: Name) { exists l :: l in snap.links && l.name == dev }

  /** The first entry of that name is the one a lookup returns. */
  function Lookup(links: seq<Link>, dev: Name): (r: Option<Link>)
    ensures r.Some? <==> exists l :: l in links && l.name == dev
    ensures r.Some? ==> r.value in links && r.value.name == dev
  {
    if links == [] then None
    else if links[0].name == dev then Some(links[0])
    else
      assert forall l :: l in links && l.name == dev ==> l in links[1..];
      Lookup(links[1..], dev)
  }

  /** eth0 was there and free. */
  predicate StockWasFree(snap: Snapshot) {
    var l := Lookup(snap.links, Stock);
    l.Some? && l.value.master == NO_MASTER
  }

  // Which devices a restore may have to release, without repeats.

  function Add(names: seq<Name>, name: Name): seq<Name> {
    if name in names then names else names + [name]
  }

  function AddAll(names: seq<Name>, more: seq<Name>): seq<Name>
    decreases |more|
  {
    if more == [] then names else AddAll(Add(names, more[0]), more[1..])
  }

  /** The gadget-shaped devices with that master, in listing order. */
  function GadgetsUnder(links: seq<Link>, master: Option<Name>): seq<Name> {
    if links == [] then []
    else
      (if links[0].master == master && Gadget(links[0].name) then [links[0].name] else [])
      + GadgetsUnder(links[1..], master)
  }

  function StockPart(snap: Snapshot): seq<Name> { if StockWasFree(snap) then [Stock] else [] }

  function Releasable(snap: Snapshot, live: seq<Link>): seq<Name> {
    AddAll(AddAll(AddAll([], GadgetsUnder(snap.links, NO_MASTER)), GadgetsUnder(live, UNDER_BRIDGE)), StockPart(snap))
  }

  predicate NoRepeats(s: seq<Name>) { forall i, j :: 0 <= i < j < |s| ==> s[i] != s[j] }

  lemma {:induction false} AddAllElements(names: seq<Name>, more: seq<Name>)
    requires NoRepeats(names)
    ensures NoRepeats(AddAll(names, more))
    ensures forall n :: n in AddAll(names, more) <==> n in names || n in more
    decreases |more|
  {
    if more != [] {
      AddAllElements(Add(names, more[0]), more[1..]);
      assert forall n :: n in more <==> n == more[0] || n in more[1..];
    }
  }

  lemma {:induction false} AddAllAppend(names: seq<Name>, more: seq<Name>, last: Name)
    ensures AddAll(names, more + [last]) == Add(AddAll(names, more), last)
    decreases |more|
  {
    if more == [] {
      assert (more + [last])[1..] == [];
    } else {
      assert (more + [last])[1..] == more[1..] + [last];
      AddAllAppend(Add(names, more[0]), more[1..], last);
    }
  }

  lemma {:induction false} GadgetsUnderElements(links: seq<Link>, master: Option<Name>)
    ensures forall n :: n in GadgetsUnder(links, master) <==> Gadget(n) && Link(n, master) in links
    decreases |links|
  {
    if links != [] {
      GadgetsUnderElements(links[1..], master);
      assert links == [links[0]] + links[1..];
    }
  }

  lemma {:induction false} GadgetsUnderAppend(links: seq<Link>, l: Link, master: Option<Name>)
    ensures GadgetsUnder(links + [l], master)
         == GadgetsUnder(links, master) + (if l.master == master && Gadget(l.name) then [l.name] else [])
    decreases |links|
  {
    if links != [] {
      assert (links + [l])[1..] == links[1..] + [l];
      GadgetsUnderAppend(links[1..], l, master);
    }
  }

  /** Exactly the captured free gadgets, the gadgets br0 holds now, and eth0 if it was captured free; each once. */
  lemma ReleasableElements(snap: Snapshot, live: seq<Link>)
    ensures NoRepeats(Releasable(snap, live))
    ensures forall n :: n in Releasable(snap, live) <==>
      || (Gadget(n) && (Link(n, NO_MASTER) in snap.links || Link(n, UNDER_BRIDGE) in live))
      || (n == Stock && StockWasFree(snap))
  {
    var a := AddAll([], GadgetsUnder(snap.links, NO_MASTER));
    AddAllElements([], GadgetsUnder(snap.links, NO_MASTER));
    GadgetsUnderElements(snap.links, NO_MASTER);
    AddAllElements(a, GadgetsUnder(live, UNDER_BRIDGE));
    GadgetsUnderElements(live, UNDER_BRIDGE);
    AddAllElements(AddAll(a, GadgetsUnder(live, UNDER_BRIDGE)), StockPart(snap));
  }

  /** The loop over one listing. */
  method AddGadgets(names: seq<Name>, links: seq<Link>, master: Option<Name>) returns (out: seq<Name>)
    ensures out == AddAll(names, GadgetsUnder(links, master))
  {
    out := names;
    var i := 0;
    while i < |links|
      invariant i <= |links|
      invariant out == AddAll(names, GadgetsUnder(links[..i], master))
    {
      var l := links[i];
      ghost var sofar := GadgetsUnder(links[..i], master);
      assert links[..i + 1] == links[..i] + [l];
      GadgetsUnderAppend(links[..i], l, master);
      if l.master == master && Gadget(l.name) {
        AddAllAppend(names, sofar, l.name);
        out := Add(out, l.name);
      } else {
        assert sofar + [] == sofar;
      }
      i := i + 1;
    }
    assert links[..i] == links;
  }

  method ComputeReleasable(snap: Snapshot, live: seq<Link>) returns (out: seq<Name>)
    ensures out == Releasable(snap, live)
  {
    out := AddGadgets([], snap.links, NO_MASTER);
    out := AddGadgets(out, live, UNDER_BRIDGE);
    var stock := Lookup(snap.links, Stock);
    if stock.Some? && stock.value.master == NO_MASTER {
      AddAllAppend(out, [], Stock);
      assert [] + [Stock] == [Stock];
      out := Add(out, Stock);
    }
  }

  // The commands, from what was captured and what was read. `known` is whether the live read worked.

  /** What the listing says of each device; a later line of the same name wins. */
  function Masters(live: seq<Link>): map<Name, Option<Name>> {
    if live == [] then map[]
    else
      var l := live[|live| - 1];
      Masters(live[..|live| - 1])[l.name := l.master]
  }

  method ReadMasters(live: seq<Link>) returns (masters: map<Name, Option<Name>>)
    ensures masters == Masters(live)
  {
    masters := map[];
    var i := 0;
    while i < |live|
      invariant i <= |live| && masters == Masters(live[..i])
    {
      assert live[..i + 1][..i] == live[..i];
      masters := masters[live[i].name := live[i].master];
      i := i + 1;
    }
    assert live[..i] == live;
  }

  function ReleaseOne(dev: Name, masters: map<Name, Option<Name>>, known: bool): seq<Cmd> {
    if !known then [Release(dev), Up(dev)]
    else if dev !in masters then []
    else if masters[dev] != NO_MASTER then [Release(dev), Up(dev)]
    else [Up(dev)]
  }

  function ReleaseAll(devs: seq<Name>, masters: map<Name, Option<Name>>, known: bool): seq<Cmd> {
    if devs == [] then [] else ReleaseOne(devs[0], masters, known) + ReleaseAll(devs[1..], masters, known)
  }

  function Teardown(snap: Snapshot, masters: map<Name, Option<Name>>, known: bool): seq<Cmd> {
    if Lookup(snap.links, Bridge).Some? || (known && Bridge !in masters) then [] else [Down(Bridge), Delete(Bridge)]
  }

  /** `live` is empty when the read failed. */
  function Released(snap: Snapshot, live: seq<Link>, known: bool): seq<Cmd> {
    ReleaseAll(Releasable(snap, live), Masters(live), known)
  }

  function Commands(snap: Snapshot, live: seq<Link>, known: bool): seq<Cmd> {
    Released(snap, live, known) + Teardown(snap, Masters(live), known)
  }

  // What commands do. Deleting a bridge does not release its ports here: what happens to ports it
  // still holds is not defined.

  function Effect(links: Links, c: Cmd): Links {
    if c.dev !in links then links
    else
      match c
      case Release(d) => links[d := links[d].(master := NO_MASTER)]
      case Up(d) => links[d := links[d].(up := true)]
      case Down(d) => links[d := links[d].(up := false)]
      case Delete(d) => links - {d}
  }

  /** A command fails on a name that is unsafe or not there, and where the kernel refuses it. */
  predicate Works(links: Links, c: Cmd, refused: set<Cmd>) {
    Safe(c.dev) && c.dev in links && c !in refused
  }

  function Run(links: Links, c: Cmd, refused: set<Cmd>): Links {
    if Works(links, c, refused) then Effect(links, c) else links
  }

  function Replay(links: Links, cmds: seq<Cmd>, refused: set<Cmd>): Links {
    if cmds == [] then links
    else Run(Replay(links, cmds[..|cmds| - 1], refused), cmds[|cmds| - 1], refused)
  }

  lemma {:induction false} ReplaySplit(links: Links, a: seq<Cmd>, b: seq<Cmd>, refused: set<Cmd>)
    ensures Replay(links, a + b, refused) == Replay(Replay(links, a, refused), b, refused)
    decreases |b|
  {
    if b == [] {
      assert a + b == a;
    } else {
      assert (a + b)[..|a + b| - 1] == a + b[..|b| - 1];
      ReplaySplit(links, a, b[..|b| - 1], refused);
    }
  }

  predicate AllWork(links: Links, cmds: seq<Cmd>, refused: set<Cmd>) {
    cmds == [] ||
    (AllWork(links, cmds[..|cmds| - 1], refused)
     && Works(Replay(links, cmds[..|cmds| - 1], refused), cmds[|cmds| - 1], refused))
  }

  /** Commands the kernel refuses, or on names that are not there, change nothing. */
  lemma {:induction false} RefusedChangesNothing(links: Links, cmds: seq<Cmd>, refused: set<Cmd>)
    requires forall i :: 0 <= i < |cmds| ==> cmds[i] in refused || cmds[i].dev !in links || !Safe(cmds[i].dev)
    ensures Replay(links, cmds, refused) == links
  {
    if cmds != [] {
      RefusedChangesNothing(links, cmds[..|cmds| - 1], refused);
    }
  }

  lemma ReplayOne(links: Links, c: Cmd, refused: set<Cmd>)
    ensures Replay(links, [c], refused) == Run(links, c, refused)
  {
    assert [c][..0] == [];
  }

  lemma ReplayTwo(links: Links, c: Cmd, d: Cmd, refused: set<Cmd>)
    ensures Replay(links, [c, d], refused) == Run(Run(links, c, refused), d, refused)
  {
    assert [c, d][..1] == [c];
    ReplayOne(links, c, refused);
  }

  // The device and the restore itself.

  predicate UplinkName(name: Name) { name == Bridge || name == Stock }

  /** A present file is written back only under the two names; an absent one is removed. */
  function UplinkAfter(captured: Option<Name>, uplink: Option<Name>): Option<Name> {
    if captured.None? || UplinkName(captured.value) then captured else uplink
  }

  class Device {
    var links: Links
    var uplink: Option<Name>
    var log: seq<Cmd>
    const refused: set<Cmd>

    constructor (links: Links, uplink: Option<Name>, refused: set<Cmd>)
      ensures this.links == links && this.uplink == uplink && this.refused == refused && log == []
    {
      this.links, this.uplink, this.refused, this.log := links, uplink, refused, [];
    }

    method Issue(c: Cmd) returns (ok: bool)
      modifies this
      ensures log == old(log) + [c] && uplink == old(uplink)
      ensures ok <==> Works(old(links), c, refused)
      ensures links == Run(old(links), c, refused)
    {
      ok := Safe(c.dev) && c.dev in links && c !in refused;
      log := log + [c];
      if ok {
        links := Effect(links, c);
      }
    }

    /** Refuses every name but the two the uplink can have. */
    method WriteUplink(name: Name) returns (ok: bool)
      modifies this
      ensures links == old(links) && log == old(log)
      ensures ok <==> UplinkName(name)
      ensures uplink == if ok then Some(name) else old(uplink)
    {
      ok := name == Bridge || name == Stock;
      if ok {
        uplink := Some(name);
      }
    }

    method IssueAll(cmds: seq<Cmd>) returns (clean: bool)
      modifies this
      ensures log == old(log) + cmds && uplink == old(uplink)
      ensures links == Replay(old(links), cmds, refused)
      ensures clean <==> AllWork(old(links), cmds, refused)
    {
      clean := true;
      var i := 0;
      while i < |cmds|
        invariant i <= |cmds| && (clean <==> AllWork(old(links), cmds[..i], refused))
        invariant log == old(log) + cmds[..i] && uplink == old(uplink)
        invariant links == Replay(old(links), cmds[..i], refused)
      {
        var ok := Issue(cmds[i]);
        assert cmds[..i + 1][..i] == cmds[..i];
        clean := clean && ok;
        i := i + 1;
      }
      assert cmds[..i] == cmds;
    }

    /**
     * Best effort: every command goes out whatever failed before it, so the commands depend only
     * on the capture and the listing; the result is clean exactly when nothing failed.
     */
    method Restore(snap: Snapshot, listing: seq<Link>, known: bool) returns (clean: bool)
      modifies this
      ensures var cmds := Commands(snap, if known then listing else [], known);
        && log == old(log) + cmds && links == Replay(old(links), cmds, refused)
        && (clean <==>
              known && (snap.uplink.Some? ==> UplinkName(snap.uplink.value)) && AllWork(old(links), cmds, refused))
      ensures uplink == UplinkAfter(snap.uplink, old(uplink))
    {
      clean := known;
      if snap.uplink.Some? {
        var ok := WriteUplink(snap.uplink.value);
        clean := clean && ok;
      } else {
        uplink := None;
      }
      var live := if known then listing else [];
      var masters := ReadMasters(live);
      var devs := ComputeReleasable(snap, live);
      var issued := IssueAll(ReleaseAll(devs, masters, known) + Teardown(snap, masters, known));
      clean := clean && issued;
    }
  }

  // What a restore achieves.

  /** A listing of the device: every link once, with its master; names fit the kernel's limit. */
  predicate Lists(live: seq<Link>, links: Links) {
    && (forall l :: l in live ==> l.name in links && l.master == links[l.name].master)
    && (forall d :: d in links ==> Safe(d) && Link(d, links[d].master) in live)
  }

  lemma {:induction false} MastersOfListing(live: seq<Link>)
    ensures forall d :: d in Masters(live) ==> Link(d, Masters(live)[d]) in live
    ensures forall l :: l in live ==> l.name in Masters(live)
    decreases |live|
  {
    if live != [] {
      MastersOfListing(live[..|live| - 1]);
      assert live == live[..|live| - 1] + [live[|live| - 1]];
    }
  }

  lemma MastersMatch(live: seq<Link>, links: Links)
    requires Lists(live, links)
    ensures Masters(live).Keys == links.Keys
    ensures forall d :: d in links ==> Masters(live)[d] == links[d].master
  {
    MastersOfListing(live);
    forall d | d in links ensures d in Masters(live) {
      assert Link(d, links[d].master) in live;
    }
    forall d | d in Masters(live) ensures d in links && Masters(live)[d] == links[d].master {
      assert Link(d, Masters(live)[d]) in live;
    }
  }

  /** What a released port is: nobody's, and up. */
  const FREE := Port(NO_MASTER, true)

  lemma ReleaseOneEffect(links: Links, dev: Name, masters: map<Name, Option<Name>>, known: bool)
    requires Safe(dev)
    requires known ==> masters.Keys == links.Keys
    requires known ==> forall d :: d in links ==> links[d].master == masters[d] || links[d].master == NO_MASTER
    ensures var after := Replay(links, ReleaseOne(dev, masters, known), {});
      && after.Keys == links.Keys
      && (forall d :: d in links ==> after[d] == if d == dev then FREE else links[d])
  {
    if !known || (dev in masters && masters[dev] != NO_MASTER) {
      ReplayTwo(links, Release(dev), Up(dev), {});
    } else if dev in masters {
      ReplayOne(links, Up(dev), {});
    }
  }

  lemma {:induction false} ReleaseAllEffect(
      links: Links, devs: seq<Name>, masters: map<Name, Option<Name>>, known: bool)
    requires forall d :: d in devs ==> Safe(d)
    requires known ==> masters.Keys == links.Keys
    requires known ==> forall d :: d in links ==> links[d].master == masters[d] || links[d].master == NO_MASTER
    ensures var after := Replay(links, ReleaseAll(devs, masters, known), {});
      && after.Keys == links.Keys
      && (forall d :: d in links ==> after[d] == if d in devs then FREE else links[d])
    decreases |devs|
  {
    if devs != [] {
      var one := ReleaseOne(devs[0], masters, known);
      var mid := Replay(links, one, {});
      ReleaseOneEffect(links, devs[0], masters, known);
      ReleaseAllEffect(mid, devs[1..], masters, known);
      ReplaySplit(links, one, ReleaseAll(devs[1..], masters, known), {});
      assert forall d :: d in devs <==> d == devs[0] || d in devs[1..];
    }
  }

  /** Names in the listing fit, so everything a restore may release is safe, if the capture's names fit too. */
  predicate NamesFit(snap: Snapshot) { forall l :: l in snap.links ==> Safe(l.name) }

  lemma ReleasableIsSafe(snap: Snapshot, live: seq<Link>, links: Links)
    requires Lists(live, links) && NamesFit(snap)
    ensures forall d :: d in Releasable(snap, live) ==> Safe(d) && (Gadget(d) || d == Stock)
  {
    ReleasableElements(snap, live);
    forall d | d in Releasable(snap, live) ensures Safe(d) && (Gadget(d) || d == Stock) {
      if Gadget(d) {
        if Link(d, NO_MASTER) in snap.links {
          assert Safe(Link(d, NO_MASTER).name);
        } else {
          assert Link(d, UNDER_BRIDGE).name in links;
        }
      }
    }
  }

  /** The ports a restore knows how to take off br0. */
  predicate Coverable(snap: Snapshot, d: Name) { Gadget(d) || (d == Stock && StockWasFree(snap)) }

  predicate HoldsPort(links: Links) { exists d :: d in links && links[d].master == UNDER_BRIDGE }

  /** Just before the bridge is torn down. */
  function BeforeTeardown(snap: Snapshot, live: seq<Link>, links: Links): Links {
    Replay(links, Released(snap, live, true), {})
  }

  function AfterRestore(snap: Snapshot, live: seq<Link>, links: Links): Links {
    Replay(links, Commands(snap, live, true), {})
  }

  lemma BeforeTeardownIs(snap: Snapshot, live: seq<Link>, links: Links)
    requires Lists(live, links) && NamesFit(snap)
    ensures var mid := BeforeTeardown(snap, live, links);
      && mid.Keys == links.Keys
      && (forall d :: d in links ==> mid[d] == if d in Releasable(snap, live) then FREE else links[d])
  {
    MastersMatch(live, links);
    ReleasableIsSafe(snap, live, links);
    ReleaseAllEffect(links, Releasable(snap, live), Masters(live), true);
  }

  lemma TeardownEffect(links: Links)
    ensures Replay(links, [Down(Bridge), Delete(Bridge)], {}) == links - {Bridge}
  {
    ReplayTwo(links, Down(Bridge), Delete(Bridge), {});
  }

  lemma AfterRestoreIs(snap: Snapshot, live: seq<Link>, links: Links)
    requires Lists(live, links) && NamesFit(snap)
    ensures AfterRestore(snap, live, links) ==
      if Captured(snap, Bridge) then BeforeTeardown(snap, live, links)
      else BeforeTeardown(snap, live, links) - {Bridge}
  {
    MastersMatch(live, links);
    BeforeTeardownIs(snap, live, links);
    var mid := BeforeTeardown(snap, live, links);
    var last := Teardown(snap, Masters(live), true);
    ReplaySplit(links, Released(snap, live, true), last, {});
    TeardownEffect(mid);
  }

  /**
   * Every port is off br0 before the bridge is deleted if and only if each is usbN or an eth0
   * that was captured free, whatever names the capture knew.
   */
  lemma PortsAreReleasedFirst(snap: Snapshot, live: seq<Link>, links: Links)
    requires Lists(live, links) && NamesFit(snap)
    ensures !HoldsPort(BeforeTeardown(snap, live, links)) <==>
      forall d :: d in links && links[d].master == UNDER_BRIDGE ==> Coverable(snap, d)
  {
    BeforeTeardownIs(snap, live, links);
    ReleasableElements(snap, live);
    var mid := BeforeTeardown(snap, live, links);
    forall d | d in links && links[d].master == UNDER_BRIDGE
      ensures mid[d].master == UNDER_BRIDGE <==> !Coverable(snap, d)
    {
      assert Link(d, UNDER_BRIDGE) in live;
    }
    forall d | d in mid && mid[d].master == UNDER_BRIDGE ensures links[d].master == UNDER_BRIDGE {
    }
  }

  /** So an eth0 the capture missed is still a port of br0 when br0 is deleted. */
  lemma UncapturedStockStaysEnslaved()
    ensures var snap, live := Snapshot([], None), [Link(Stock, UNDER_BRIDGE), Link(Bridge, NO_MASTER)];
      var links: Links := map[Stock := Port(UNDER_BRIDGE, true), Bridge := Port(NO_MASTER, true)];
      && Lists(live, links) && NamesFit(snap) && !Captured(snap, Bridge)
      && HoldsPort(BeforeTeardown(snap, live, links)) && Delete(Bridge) in Commands(snap, live, true)
  {
    var snap, live := Snapshot([], None), [Link(Stock, UNDER_BRIDGE), Link(Bridge, NO_MASTER)];
    var links: Links := map[Stock := Port(UNDER_BRIDGE, true), Bridge := Port(NO_MASTER, true)];
    assert live[0] in live && live[1] in live;
    assert Lists(live, links);
    PortsAreReleasedFirst(snap, live, links);
    assert links[Stock].master == UNDER_BRIDGE && !Coverable(snap, Stock);
    MastersMatch(live, links);
    var last := Teardown(snap, Masters(live), true);
    assert last[1] == Delete(Bridge);
  }

  /** With the links unknown, what is released is decided by the capture alone. */
  lemma BlindReleasable(snap: Snapshot, d: Name)
    ensures d in Releasable(snap, []) <==>
      (Gadget(d) && Link(d, NO_MASTER) in snap.links) || (d == Stock && StockWasFree(snap))
  {
    ReleasableElements(snap, []);
  }

  lemma BlindReleasedGives(snap: Snapshot, links: Links)
    requires NamesFit(snap)
    ensures var mid, devs := Replay(links, Released(snap, [], false), {}), Releasable(snap, []);
      && mid.Keys == links.Keys
      && (forall d :: d in mid ==> mid[d] == if d in devs then FREE else links[d])
  {
    var devs := Releasable(snap, []);
    forall d | d in devs ensures Safe(d) {
      BlindReleasable(snap, d);
      assert Gadget(d) ==> Safe(Link(d, NO_MASTER).name);
    }
    ReleaseAllEffect(links, devs, Masters([]), false);
  }

  /** Then every captured free port that is there is freed, and br0 goes unless it was captured. */
  lemma BlindRestoreGives(snap: Snapshot, links: Links)
    requires NamesFit(snap)
    ensures var after, devs := Replay(links, Commands(snap, [], false), {}), Releasable(snap, []);
      && after.Keys == links.Keys - (if Captured(snap, Bridge) then {} else {Bridge})
      && (forall d :: d in after ==> after[d] == if d in devs then FREE else links[d])
      && (forall d :: d in devs <==>
            (Gadget(d) && Link(d, NO_MASTER) in snap.links) || (d == Stock && StockWasFree(snap)))
  {
    forall d ensures d in Releasable(snap, []) <==>
        (Gadget(d) && Link(d, NO_MASTER) in snap.links) || (d == Stock && StockWasFree(snap)) {
      BlindReleasable(snap, d);
    }
    BlindReleasedGives(snap, links);
    ReplaySplit(links, Released(snap, [], false), Teardown(snap, Masters([]), false), {});
    TeardownEffect(Replay(links, Released(snap, [], false), {}));
  }

  lemma {:induction false} ReleaseAllElements(devs: seq<Name>, masters: map<Name, Option<Name>>, known: bool, d: Name)
    ensures var cmds := ReleaseAll(devs, masters, known);
      && (Release(d) in cmds <==> d in devs && (known ==> d in masters && masters[d] != NO_MASTER))
      && (Up(d) in cmds <==> d in devs && (known ==> d in masters))
      && Down(d) !in cmds && Delete(d) !in cmds
    decreases |devs|
  {
    if devs != [] {
      ReleaseAllElements(devs[1..], masters, known, d);
      assert forall x :: x in devs <==> x == devs[0] || x in devs[1..];
    }
  }

  /**
   * Only the commands that are needed: on a device that could be listed, a release for each port
   * that has a master, an up for each that is there, a teardown for a br0 that is there; blindly
   * otherwise, for whatever the capture knows.
   */
  lemma CommandsAreNeeded(snap: Snapshot, live: seq<Link>, known: bool, d: Name)
    ensures var cmds, masters := Commands(snap, live, known), Masters(live);
      && (Release(d) in cmds <==> d in Releasable(snap, live) && (known ==> d in masters && masters[d] != NO_MASTER))
      && (Up(d) in cmds <==> d in Releasable(snap, live) && (known ==> d in masters))
      && (Delete(d) in cmds <==> d == Bridge && !Captured(snap, Bridge) && (known ==> d in masters))
      && (Down(d) in cmds <==> Delete(d) in cmds)
  {
    ReleaseAllElements(Releasable(snap, live), Masters(live), known, d);
    var last := Teardown(snap, Masters(live), known);
    assert last != [] ==> last[0] == Down(Bridge) && last[1] == Delete(Bridge);
  }

  /**
   * A capture without br0, restored with every command succeeding, leaves no br0 and nothing
   * enslaved to it; links outside the released set and br0, wlan0 among them, are untouched.
   */
  lemma RestoreRemovesBridge(snap: Snapshot, live: seq<Link>, links: Links)
    requires Lists(live, links) && NamesFit(snap) && !Captured(snap, Bridge)
    requires forall d :: d in links && links[d].master == UNDER_BRIDGE ==> Coverable(snap, d)
    ensures var after := AfterRestore(snap, live, links);
      && after.Keys == links.Keys - {Bridge} && !HoldsPort(after)
      && forall d :: d in after && !Gadget(d) && d != Stock ==> after[d] == links[d]
  {
    AfterRestoreIs(snap, live, links);
    BeforeTeardownIs(snap, live, links);
    PortsAreReleasedFirst(snap, live, links);
    ReleasableElements(snap, live);
    var mid, after := BeforeTeardown(snap, live, links), AfterRestore(snap, live, links);
    forall d | d in after ensures after[d] == mid[d] && after[d].master != UNDER_BRIDGE {
      assert d in mid;
    }
  }

  predicate OnlyUps(cmds: seq<Cmd>) { forall i :: 0 <= i < |cmds| ==> cmds[i].Up? }

  lemma {:induction false} ReleaseAllQuiet(devs: seq<Name>, masters: map<Name, Option<Name>>)
    requires forall d :: d in devs && d in masters ==> masters[d] == NO_MASTER
    ensures OnlyUps(ReleaseAll(devs, masters, true))
    decreases |devs|
  {
    if devs != [] {
      ReleaseAllQuiet(devs[1..], masters);
      assert devs[0] in devs;
    }
  }

  lemma NothingLeftToRelease(snap: Snapshot, live: seq<Link>, links: Links, again: seq<Link>, d: Name)
    requires Lists(live, links) && NamesFit(snap) && Lists(again, AfterRestore(snap, live, links))
    requires d in Releasable(snap, again) && d in AfterRestore(snap, live, links)
    ensures AfterRestore(snap, live, links)[d].master == NO_MASTER
  {
    var after := AfterRestore(snap, live, links);
    AfterRestoreIs(snap, live, links);
    BeforeTeardownIs(snap, live, links);
    ReleasableElements(snap, live);
    ReleasableElements(snap, again);
    assert d in links && after[d] == BeforeTeardown(snap, live, links)[d];
    if Link(d, UNDER_BRIDGE) in again && Gadget(d) {
      assert after[d].master == UNDER_BRIDGE;
      assert Link(d, links[d].master) in live;
    }
  }

  /** A second restore, from whatever the first one left, releases nothing and deletes nothing. */
  lemma SecondRestoreIsQuiet(snap: Snapshot, live: seq<Link>, links: Links, again: seq<Link>)
    requires Lists(live, links) && NamesFit(snap) && Lists(again, AfterRestore(snap, live, links))
    ensures OnlyUps(Commands(snap, again, true))
  {
    var after := AfterRestore(snap, live, links);
    AfterRestoreIs(snap, live, links);
    MastersMatch(again, after);
    forall d | d in Releasable(snap, again) && d in Masters(again) ensures Masters(again)[d] == NO_MASTER {
      NothingLeftToRelease(snap, live, links, again, d);
    }
    ReleaseAllQuiet(Releasable(snap, again), Masters(again));
  }

  /** The order: releases and ups of gadgets and eth0 first, the teardown of br0 last; nothing else is named. */
  predicate NamesOnlyPorts(cmds: seq<Cmd>) {
    forall i :: 0 <= i < |cmds| ==> (cmds[i].Release? || cmds[i].Up?) && (Gadget(cmds[i].dev) || cmds[i].dev == Stock)
  }

  lemma {:induction false} ReleaseAllNames(devs: seq<Name>, masters: map<Name, Option<Name>>, known: bool)
    requires forall d :: d in devs ==> Gadget(d) || d == Stock
    ensures NamesOnlyPorts(ReleaseAll(devs, masters, known))
    decreases |devs|
  {
    if devs != [] {
      ReleaseAllNames(devs[1..], masters, known);
      assert devs[0] in devs;
    }
  }

  lemma TeardownComesLast(snap: Snapshot, live: seq<Link>, known: bool)
    ensures var cmds := Commands(snap, live, known);
      exists n :: 0 <= n <= |cmds| && NamesOnlyPorts(cmds[..n])
        && (cmds[n..] == [] || cmds[n..] == [Down(Bridge), Delete(Bridge)])
  {
    ReleasableElements(snap, live);
    var released := Released(snap, live, known);
    ReleaseAllNames(Releasable(snap, live), Masters(live), known);
    var cmds := Commands(snap, live, known);
    assert cmds[..|released|] == released && cmds[|released|..] == Teardown(snap, Masters(live), known);
  }

  /** The uplink file ends as captured if and only if it was absent, names br0 or eth0, or already was so. */
  lemma UplinkAsCaptured(captured: Option<Name>, uplink: Option<Name>)
    ensures UplinkAfter(captured, uplink) == captured <==> captured in {None, Some(Bridge), Some(Stock), uplink}
  {
  }
}
