/**
 * The dead-man protocol on the bridge itself: its rules are what enables, disables and restores
 * were shown to do to a device's links and uplink file, and a rollback then is exact or not as
 * its capture says.
 */
module BridgeTransaction {
  import opened Wrappers
  import opened BridgeRestore
  import opened BridgeSetup
  import opened Deadman

  /** Every link's master, and the uplink file. */
  type BridgeState = State<MasterMap, Option<Name>>

  /** One change of links by an enable or a disable. */
  ghost predicate Allowed(enabling: bool, base: MasterMap, s: MasterMap, t: MasterMap) {
    exists m :: MayRelink(enabling, base, s, m) && t == Relinked(s, m)
  }

  ghost function BridgeRules(): Rules<MasterMap, Option<Name>> {
    Rules((e, b, s, t) => Allowed(e, b, s, t),
          (b, s) => Reached(b, s),
          (b, s) => Restored(b, s),
          (b, s) => Doomed(b, s),
          e => Uplink(e))
  }

  /** What the protocol assumes of a restore, the restore does. */
  lemma BridgeIsLawful()
    ensures Lawful(BridgeRules())
  {
    var k := BridgeRules();
    forall b ensures k.reached(b, b) {
      CaptureIsReached(b);
    }
    forall e, b, s, t | k.reached(b, s) && k.may(e, b, s, t) ensures k.reached(b, t) {
      var m :| MayRelink(e, b, s, m) && t == Relinked(s, m);
      RelinkingStaysReached(e, b, s, m);
    }
    forall b, s | k.reached(b, s)
      ensures k.reached(b, k.restored(b, s)) && (k.restored(b, s) == b <==> !k.doomed(b, s))
      ensures k.doomed(b, k.restored(b, s)) == k.doomed(b, s)
    {
      RestoreIsExactWhen(b, s);
    }
  }

  /** A device that has recorded nothing yet. */
  ghost predicate BridgeInit(s: BridgeState) { Init(s) && s.k == BridgeRules() }

  /**
   * At every point of every run with no marker, late writes or not: after a rollback the masters
   * are the captured ones if and only if the capture had no gadget port of br0 and eth0 still had
   * its captured master when the restore of the links began; and the uplink file is the captured
   * one if and only if no late write landed, or it wrote just that.
   */
  lemma {:induction false} RollbackIsExactWhen(s: BridgeState, events: seq<Event<MasterMap>>)
    requires BridgeInit(s)
    ensures var r := Exec(s, events);
      r.Some? && !r.value.disk.marker && r.value.records != [] && r.value.records[0].outcome.RolledBack? ==>
        var t := r.value;
        && (t.device.links == t.base.links <==> !HasGadgetPort(t.base.links) && !Moved(t.base.links, t.origin))
        && (t.device.file == t.base.file <==> t.late.None? || t.late.value == t.base.file)
  {
    EveryRunKeepsInv(s, events);
    RulesStay(s, events);
  }

  // An enable is doomed only by what its capture already holds.

  predicate Restorable(base: MasterMap) {
    !HasGadgetPort(base) && (Stock in base ==> base[Stock] == NO_MASTER || base[Stock] == UNDER_BRIDGE)
  }

  ghost predicate EnableOk(s: BridgeState) {
    Own(s) && s.enabling && Restorable(s.base.links) ==> !Doomed(s.base.links, s.device.links)
  }

  lemma EnableRelinks(base: MasterMap, s: MasterMap, t: MasterMap)
    requires Restorable(base) && !Doomed(base, s) && Allowed(true, base, s, t)
    ensures !Doomed(base, t)
  {
    var m :| MayRelink(true, base, s, m) && t == Relinked(s, m);
  }

  lemma OwnStepKeepsEnables(s: BridgeState, t: BridgeState)
    requires s.k == BridgeRules() && EnableOk(s) && OwnStep(s, t)
    ensures EnableOk(t)
  {
    if Own(t) && t.enabling && Restorable(t.base.links) {
      if t.device.links == t.base.links {
        CaptureIsReached(t.base.links);
      } else if s.k.may(s.enabling, s.base.links, s.device.links, t.device.links) {
        EnableRelinks(s.base.links, s.device.links, t.device.links);
      }
    }
  }

  lemma {:induction false} EveryRunKeepsEnables(s: BridgeState, events: seq<Event<MasterMap>>)
    requires s.k == BridgeRules() && Inv(s) && EnableOk(s)
    ensures Exec(s, events).Some? ==> EnableOk(Exec(s, events).value)
    decreases |events|
  {
    if events != [] && Enabled(s, events[0]) {
      StepKeepsInv(s, events[0]);
      match events[0] {
        case OnTxn(t) => TxnStepIsOwn(s, t);
        case OnWatch(w) => WatchStepIsOwn(s, w);
        case OnRecover(r) => RecoverStepIsOwn(s, r);
        case Crash(leaves) => CrashIsOwn(s, leaves);
      }
      OwnStepKeepsEnables(s, Step(s, events[0]));
      EveryRunKeepsEnables(Step(s, events[0]), events[1..]);
    }
  }

  /**
   * An enable whose capture has no gadget port of br0, and eth0 free or already under br0, is
   * never doomed; so its rollback, whoever makes it and whatever it interrupts, puts the captured
   * masters back, and with no marker on disk the device has exactly those.
   */
  lemma {:induction false} EnableRollsBackExactly(s: BridgeState, events: seq<Event<MasterMap>>)
    requires BridgeInit(s)
    ensures var r := Exec(s, events);
      r.Some? && r.value.enabling && Restorable(r.value.base.links) && Own(r.value) ==>
        var t := r.value;
        && !Doomed(t.base.links, t.device.links)
        && (!t.disk.marker && t.records != [] && t.records[0].outcome.RolledBack? ==>
              t.device.links == t.base.links)
  {
    EveryRunKeepsInv(s, events);
    RulesStay(s, events);
    EveryRunKeepsEnables(s, events);
  }

  /** The same for a crash while it is armed: every recovery that works puts the capture back. */
  lemma {:induction false} EnableSurvivesCrash(s: BridgeState, leaves: MasterMap, events: seq<Event<MasterMap>>)
    requires s.k == BridgeRules() && Inv(s) && EnableOk(s) && s.enabling && Restorable(s.base.links)
    requires Armed(s.txn) && !WatchWon(s.watch) && Enabled(s, Crash(leaves))
    requires forall i :: 0 <= i < |events| ==> Recovers(events[i])
    ensures var r := Exec(Step(s, Crash(leaves)), events);
      r.Some? && r.value.server.Serving? ==> r.value.device == s.base && !r.value.disk.marker
  {
    CrashThenRecovery(s, leaves, events);
  }

  // What a transaction that goes through leaves.

  lemma EnableBuilds(base: MasterMap, mid: MasterMap, to: MasterMap)
    requires Bridge !in base && Stock in base
    requires mid == Relinked(base, AddBridge) && to == Relinked(mid, EnslaveStock)
    ensures TwoChanges(BridgeRules(), true, base, mid, to)
  {
    assert MayRelink(true, base, base, AddBridge);
    assert MayRelink(true, base, mid, EnslaveStock);
  }

  /** From any device without br0: br0 with eth0 under it, other links as they were, and an uplink file saying so. */
  lemma EnableCommits(s: BridgeState, gates: Gates) returns (events: seq<Event<MasterMap>>)
    requires BridgeInit(s) && Bridge !in s.device.links && Stock in s.device.links && gates.Passed()
    ensures var r := Exec(s, events);
      && r.Some? && r.value.txn.Idle? && !r.value.disk.marker
      && r.value.disk.lkg == Some(Record(ByTxn, Applied(true), gates))
      && r.value.device.file == Some(Bridge)
      && r.value.device.links == s.device.links[Bridge := NO_MASTER][Stock := UNDER_BRIDGE]
  {
    var mid := Relinked(s.device.links, AddBridge);
    var to := Relinked(mid, EnslaveStock);
    EnableBuilds(s.device.links, mid, to);
    events := ChangeThenCommit(s, true, mid, to, gates);
  }

  /** From any device with eth0 under br0: eth0 is its own again, and there is no uplink file. */
  lemma DisableCommits(s: BridgeState, gates: Gates) returns (events: seq<Event<MasterMap>>)
    requires BridgeInit(s) && Bridged(s.device.links) && gates.Passed()
    ensures var r := Exec(s, events);
      && r.Some? && r.value.txn.Idle? && !r.value.disk.marker
      && r.value.disk.lkg == Some(Record(ByTxn, Applied(false), gates))
      && r.value.device == Device(s.device.links[Stock := NO_MASTER], None)
  {
    var freed := Relinked(s.device.links, ReleaseStock);
    FreedStaysFree(s.device.links, freed);
    events := ChangeThenCommit(s, false, freed, freed, gates);
  }

  // Where it is not exact: a disable that fails after it freed eth0.

  predicate Bridged(m: MasterMap) { Stock in m && m[Stock] == UNDER_BRIDGE && Bridge in m }

  lemma FreedStaysFree(base: MasterMap, freed: MasterMap)
    requires Bridged(base) && freed == Relinked(base, ReleaseStock)
    ensures TwoChanges(BridgeRules(), false, base, freed, freed)
    ensures var r := Restored(base, freed); Stock in r && r[Stock] == NO_MASTER
  {
    assert MayRelink(false, base, base, ReleaseStock);
    assert MayRelink(false, base, freed, ReleaseStock) && Relinked(freed, ReleaseStock) == freed;
  }

  /**
   * On any device whose eth0 is under br0: the rollback reports no error, is recorded as rolled
   * back and takes the marker away, and eth0 is still outside br0.
   */
  lemma DisableRollbackIsLossy(s: BridgeState) returns (events: seq<Event<MasterMap>>)
    requires BridgeInit(s) && Bridged(s.device.links)
    ensures var r := Exec(s, events);
      && r.Some? && r.value.txn.Idle? && !r.value.disk.marker && r.value.late.None?
      && r.value.disk.lkg == Some(Record(ByTxn, RolledBack, NO_GATES))
      && r.value.settled == Some(s.device)
      && Stock in r.value.device.links && r.value.device.links[Stock] == NO_MASTER
  {
    var freed := Relinked(s.device.links, ReleaseStock);
    FreedStaysFree(s.device.links, freed);
    events := ChangeThenRollBack(s, false, freed, freed);
  }

  // And a late write: an enable has built br0 and enslaved eth0, its context expires, the watchdog
  // takes it all back, and the uplink file is written last.

  predicate Unbridged(m: MasterMap) {
    && Bridge !in m && Stock in m && m[Stock] == NO_MASTER
    && forall n :: n in m ==> m[n] != UNDER_BRIDGE
  }

  lemma EnableIsTakenBack(base: MasterMap, mid: MasterMap, to: MasterMap)
    requires Unbridged(base) && mid == Relinked(base, AddBridge) && to == Relinked(mid, EnslaveStock)
    ensures TwoChanges(BridgeRules(), true, base, mid, to) && Restored(base, to) == base
  {
    EnableBuilds(base, mid, to);
    CaptureIsReached(base);
    RelinkingStaysReached(true, base, base, AddBridge);
    RelinkingStaysReached(true, base, mid, EnslaveStock);
    CaptureWithoutBridgeIsRestored(base, to);
  }

  /** From any device without br0: its links are as captured, no marker is left, and the uplink file names br0. */
  lemma LateUplinkIsReached(s: BridgeState) returns (events: seq<Event<MasterMap>>)
    requires BridgeInit(s) && Unbridged(s.device.links)
    ensures var r := Exec(s, events);
      && r.Some? && r.value.txn.Idle? && !r.value.disk.marker
      && r.value.disk.lkg == Some(Record(ByWatch, RolledBack, NO_GATES)) && r.value.settled == Some(s.device)
      && r.value.device == Device(s.device.links, Some(Bridge))
  {
    var mid := Relinked(s.device.links, AddBridge);
    var to := Relinked(mid, EnslaveStock);
    EnableIsTakenBack(s.device.links, mid, to);
    events := LateWriteRun(s, true, mid, to);
  }
}
