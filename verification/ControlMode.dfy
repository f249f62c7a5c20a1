/**
 * The control-mode gate and the manager around it: shared leases taken by check, acquire and
 * recheck; a switch that announces itself, preempts, waits a bounded time for exclusive access,
 * cleans up and saves. Every critical section is one step, for any number of lease takers.
 */
module ControlMode {
  import opened Wrappers
  import opened Sums

  // The gate. Channels are numbered in the order they are made; making a new one closes the last.

  datatype GateState = GateState(active: nat, exclusive: bool, changed: Option<nat>)

  predicate Signalled(g: GateState, channel: nat) { g.changed.Some? && channel < g.changed.value }

  /** The channel a waiter sleeps on, made on first use. */
  function Watched(g: GateState): GateState { if g.changed.None? then g.(changed := Some(0)) else g }

  function Signal(g: GateState): GateState { if g.changed.None? then g else g.(changed := Some(g.changed.value + 1)) }

  function SharedIn(g: GateState): GateState { if g.exclusive then Watched(g) else g.(active := g.active + 1) }

  function SharedOut(g: GateState): GateState { Signal(g.(active := if g.active > 0 then g.active - 1 else 0)) }

  predicate ExclusiveFree(g: GateState) { !g.exclusive && g.active == 0 }

  function ExclusiveIn(g: GateState): GateState { if ExclusiveFree(g) then g.(exclusive := true) else Watched(g) }

  function ExclusiveOut(g: GateState): GateState { Signal(g.(exclusive := false)) }

  class Gate {
    var active: nat
    var exclusive: bool
    var changed: Option<nat>

    ghost function Value(): GateState
      reads this
    {
      GateState(active, exclusive, changed)
    }

    constructor ()
      ensures Value() == GateState(0, false, None)
    {
      active, exclusive, changed := 0, false, None;
    }

    method ChangedLocked() returns (channel: nat)
      modifies this
      ensures Value() == Watched(old(Value())) && changed == Some(channel)
      ensures !Signalled(Value(), channel)
    {
      if changed.None? {
        changed := Some(0);
      }
      channel := changed.value;
    }

    method SignalLocked()
      modifies this
      ensures Value() == Signal(old(Value()))
      ensures forall c :: old(changed) == Some(c) ==> Signalled(Value(), c)
    {
      if changed.Some? {
        changed := Some(changed.value + 1);
      }
    }

    /** One turn of the shared loop: in, or the channel to sleep on. */
    method TryShared() returns (sleepOn: Option<nat>)
      modifies this
      ensures Value() == SharedIn(old(Value()))
      ensures sleepOn.None? <==> !old(exclusive)
      ensures sleepOn.Some? ==> changed == sleepOn
    {
      if !exclusive {
        active := active + 1;
        return None;
      }
      var c := ChangedLocked();
      return Some(c);
    }

    method TryExclusive() returns (sleepOn: Option<nat>)
      modifies this
      ensures Value() == ExclusiveIn(old(Value()))
      ensures sleepOn.None? <==> ExclusiveFree(old(Value()))
      ensures sleepOn.Some? ==> changed == sleepOn
    {
      if !exclusive && active == 0 {
        exclusive := true;
        return None;
      }
      var c := ChangedLocked();
      return Some(c);
    }

    method ReleaseShared()
      modifies this
      ensures Value() == SharedOut(old(Value()))
    {
      if active > 0 {
        active := active - 1;
      }
      SignalLocked();
    }

    method ReleaseExclusive()
      modifies this
      ensures Value() == ExclusiveOut(old(Value()))
    {
      exclusive := false;
      SignalLocked();
    }
  }

  // The mode file and the cached reading of it. Every write changes the file's size or time.

  datatype Mode = Off | Mcp | Picoclaw

  /** `mode` is None when the text is not a mode. */
  datatype File = Absent | Text(mode: Option<Mode>, stamp: nat)

  function Effective(f: File, default: Mode): Mode {
    if f.Absent? then default else if f.mode.None? then Off else f.mode.value
  }

  datatype Seen = Nothing | SeenAbsent | SeenStamp(stamp: nat)

  function Signature(f: File): Seen { if f.Absent? then SeenAbsent else SeenStamp(f.stamp) }

  datatype Cache = Cache(loaded: bool, mode: Mode, seen: Seen)

  datatype ReadIo = ReadOk | StatFails | ReadFails

  /** None is an error; it changes nothing. */
  function Load(c: Cache, transitioning: bool, f: File, default: Mode, io: ReadIo): Option<Cache> {
    if c.loaded && transitioning then Some(c)
    else if io.StatFails? then None
    else if c.loaded && c.seen == Signature(f) then Some(c)
    else if io.ReadFails? then None
    else Some(Cache(true, Effective(f, default), Signature(f)))
  }

  /** The cached mode is the file's as long as nothing shows that the file has changed. */
  predicate CacheRight(c: Cache, f: File, default: Mode) {
    c.loaded && c.seen == Signature(f) ==> c.mode == Effective(f, default)
  }

  /** Whether a look at the file goes through, outside a transition. */
  predicate Readable(c: Cache, f: File, io: ReadIo) {
    !io.StatFails? && ((c.loaded && c.seen == Signature(f)) || !io.ReadFails?)
  }

  datatype WriteIo = Lands(statOk: bool) | Fails | LandsWithError

  function SavedFile(f: File, m: Mode, io: WriteIo): File {
    if io.Fails? then f else Text(Some(m), if f.Absent? then 0 else f.stamp + 1)
  }

  function SavedCache(c: Cache, f: File, m: Mode, io: WriteIo): Cache {
    if io.Lands? then Cache(true, m, if io.statOk then Signature(SavedFile(f, m, io)) else Nothing) else c
  }

  /** The manager's own fields; the file is what the disk holds. */
  class ModeStore {
    var loaded: bool
    var mode: Mode
    var seen: Seen
    var transitioning: bool
    var file: File
    const default: Mode

    ghost function Cached(): Cache
      reads this
    {
      Cache(loaded, mode, seen)
    }

    constructor (file: File, default: Mode)
      ensures !loaded && !transitioning && this.file == file && this.default == default
    {
      this.file, this.default := file, default;
      loaded, mode, seen, transitioning := false, Off, Nothing, false;
    }

    method LoadLocked(io: ReadIo) returns (ok: bool)
      modifies this
      ensures file == old(file) && transitioning == old(transitioning)
      ensures var next := Load(old(Cached()), transitioning, file, default, io);
        (ok <==> next.Some?) && Cached() == if ok then next.value else old(Cached())
    {
      if loaded && transitioning {
        return true;
      }
      if io.StatFails? {
        return false;
      }
      if loaded && seen == Signature(file) {
        return true;
      }
      if io.ReadFails? {
        return false;
      }
      match file {
        case Absent => mode := default;
        case Text(None, _) => mode := Off;
        case Text(Some(m), _) => mode := m;
      }
      loaded, seen := true, Signature(file);
      return true;
    }

    method SaveLocked(m: Mode, io: WriteIo) returns (ok: bool)
      modifies this
      ensures ok <==> io.Lands?
      ensures file == SavedFile(old(file), m, io) && Cached() == SavedCache(old(Cached()), old(file), m, io)
      ensures transitioning == old(transitioning)
    {
      if io.Fails? {
        return false;
      }
      file := Text(Some(m), if file.Absent? then 0 else file.stamp + 1);
      if io.LandsWithError? {
        return false;
      }
      mode, loaded := m, true;
      seen := if io.statOk then Signature(file) else Nothing;
      return true;
    }
  }

  /** The manager when nobody else moves: each operation from its first check to its last defer. */
  class Manager {
    const gate: Gate
    const store: ModeStore

    constructor (gate: Gate, store: ModeStore)
      ensures this.gate == gate && this.store == store
    {
      this.gate, this.store := gate, store;
    }

    /**
     * Check, acquire, check again; a lease that is refused gives its place in the gate back. It is
     * granted exactly when both looks go through, outside a transition, and the file has the mode
     * wanted.
     */
    method Lease(want: Want, first: ReadIo, second: ReadIo) returns (granted: bool)
      requires !gate.exclusive
      modifies gate, store
      ensures gate.active == old(gate.active) + (if granted then 1 else 0) && !gate.exclusive
      ensures store.file == old(store.file) && store.transitioning == old(store.transitioning)
      ensures granted ==> !store.transitioning && store.loaded && (want.AsMode? ==> store.mode == want.mode)
      ensures CacheRight(old(store.Cached()), store.file, store.default) ==>
        (granted <==>
           && !store.transitioning && Readable(old(store.Cached()), store.file, first) && !second.StatFails?
           && (want.AsMode? ==> Effective(store.file, store.default) == want.mode))
    {
      granted := Check(want, first);
      if !granted {
        return;
      }
      var sleepOn := gate.TryShared();
      granted := Check(want, second);
      if !granted {
        gate.ReleaseShared();
      }
    }

    method Check(want: Want, io: ReadIo) returns (ok: bool)
      modifies store
      ensures store.file == old(store.file) && store.transitioning == old(store.transitioning)
      ensures ok ==> Passes(Some(store.Cached()), store.transitioning, want) && store.loaded
      ensures var next := Load(old(store.Cached()), store.transitioning, store.file, store.default, io);
        store.Cached() == if next.Some? then next.value else old(store.Cached())
      ensures ok <==> Passes(Load(old(store.Cached()), store.transitioning, store.file, store.default, io),
                             store.transitioning, want)
    {
      var loaded := store.LoadLocked(io);
      ok := loaded && !store.transitioning && (want.AsMode? ==> store.mode == want.mode);
    }

    /**
     * A switch that got past its first look. However it ends, the gate is open and the transition
     * over; the file is as SwitchOutcomes says, by what failed first.
     */
    method Switch(next: Mode, preempt: bool, cleanup: bool, io: WriteIo) returns (outcome: Outcome)
      requires !gate.exclusive
      modifies gate, store
      ensures !gate.exclusive && gate.active == old(gate.active) && !store.transitioning
      ensures outcome.PreemptFailed? <==> !preempt
      ensures outcome.TimedOut? <==> preempt && gate.active > 0
      ensures outcome.CleanupFailed? <==> preempt && gate.active == 0 && !cleanup
      ensures outcome.Switched? <==> preempt && gate.active == 0 && cleanup && io.Lands?
      ensures outcome.PreemptFailed? || outcome.TimedOut? ==>
        store.file == old(store.file) && store.Cached() == old(store.Cached())
      ensures outcome.CleanupFailed? ==>
        store.file == SavedFile(old(store.file), Off, io)
        && store.Cached() == SavedCache(old(store.Cached()), old(store.file), Off, io)
      ensures outcome.SaveFailed? || outcome.Switched? ==>
        store.file == SavedFile(old(store.file), next, io)
        && store.Cached() == SavedCache(old(store.Cached()), old(store.file), next, io)
    {
      store.transitioning := true;
      if !preempt {
        store.transitioning := false;
        return PreemptFailed;
      }
      var sleepOn := gate.TryExclusive();
      if sleepOn.Some? {
        store.transitioning := false;
        return TimedOut;
      }
      var saved := store.SaveLocked(if cleanup then next else Off, io);
      outcome := if !cleanup then CleanupFailed else if saved then Switched else SaveFailed;
      gate.ReleaseExclusive();
      store.transitioning := false;
    }
  }

  // The threads.

  datatype Want = AsMode(mode: Mode) | AnyMode

  datatype Sharer =
    | Out
    | Checked(want: Want)
    | Asleep(want: Want, channel: nat)
    | Inside(want: Want)
    | Leased(want: Want, mode: Mode)
    | Leaving

  datatype Outcome = PreemptFailed | TimedOut | CleanupFailed | SaveFailed | Switched

  datatype Switcher =
    | Free
    | Chosen(next: Mode)
    | Preempting(next: Mode)
    | Wanting(next: Mode)
    | Blocked(next: Mode, channel: nat)
    | Holding(next: Mode)
    | Saving(next: Mode, cleaned: bool)
    | Releasing(next: Mode, outcome: Outcome)
    | Ending(next: Mode, outcome: Outcome)

  /** `start` is the file when the current switch began. The transition mutex allows one switch at a time. */
  datatype State = State(
    gate: GateState, file: File, cache: Cache, transitioning: bool,
    sharers: seq<Sharer>, switcher: Switcher, start: File, default: Mode)

  datatype SharerAct = FirstCheck(want: Want, io: ReadIo) | Enter | Wake | Recheck(io: ReadIo) | Leave

  datatype SwitchAct =
    | Choose(expected: Option<Mode>, next: Mode, io: ReadIo)
    | Announce
    | Preempt(ok: bool)
    | TryGate
    | WakeSwitch
    | TimeOut
    | Cleanup(ok: bool)
    | Save(wrote: WriteIo)
    | ReleaseGate
    | Finish

  datatype Event = OnSharer(i: nat, a: SharerAct) | OnSwitch(w: SwitchAct)

  predicate SharerEnabled(s: State, x: Sharer, a: SharerAct) {
    match a
    case FirstCheck(_, _) => x.Out?
    case Enter => x.Checked?
    case Wake => x.Asleep? && Signalled(s.gate, x.channel)
    case Recheck(_) => x.Inside?
    case Leave => x.Leased? || x.Leaving?
  }

  /** A check passes on a mode that is not in transition and is the one wanted. */
  predicate Passes(c: Option<Cache>, transitioning: bool, want: Want) {
    c.Some? && !transitioning && (want.AsMode? ==> c.value.mode == want.mode)
  }

  function Reading(s: State, io: ReadIo): Option<Cache> { Load(s.cache, s.transitioning, s.file, s.default, io) }

  function CacheAfter(s: State, io: ReadIo): Cache { if Reading(s, io).Some? then Reading(s, io).value else s.cache }

  function SharerNext(s: State, x: Sharer, a: SharerAct): Sharer
    requires SharerEnabled(s, x, a)
  {
    match a
    case FirstCheck(want, io) => if Passes(Reading(s, io), s.transitioning, want) then Checked(want) else Out
    case Enter => if s.gate.exclusive then Asleep(x.want, Watched(s.gate).changed.value) else Inside(x.want)
    case Wake => Checked(x.want)
    case Recheck(io) =>
      if Passes(Reading(s, io), s.transitioning, x.want) then Leased(x.want, Reading(s, io).value.mode) else Leaving
    case Leave => Out
  }

  function SharerStep(s: State, i: nat, a: SharerAct): State
    requires i < |s.sharers| && SharerEnabled(s, s.sharers[i], a)
  {
    var t := s.(sharers := s.sharers[i := SharerNext(s, s.sharers[i], a)]);
    match a
    case FirstCheck(_, io) => t.(cache := CacheAfter(s, io))
    case Recheck(io) => t.(cache := CacheAfter(s, io))
    case Enter => t.(gate := SharedIn(s.gate))
    case Leave => t.(gate := SharedOut(s.gate))
    case Wake => t
  }

  predicate SwitchEnabled(s: State, w: SwitchAct) {
    match w
    case Choose(_, _, _) => s.switcher.Free?
    case Announce => s.switcher.Chosen?
    case Preempt(_) => s.switcher.Preempting?
    case TryGate => s.switcher.Wanting?
    case WakeSwitch => s.switcher.Blocked? && Signalled(s.gate, s.switcher.channel)
    case TimeOut => s.switcher.Blocked?
    case Cleanup(_) => s.switcher.Holding?
    case Save(_) => s.switcher.Saving?
    case ReleaseGate => s.switcher.Releasing?
    case Finish => s.switcher.Ending?
  }

  function SwitchStep(s: State, w: SwitchAct): State
    requires SwitchEnabled(s, w)
  {
    match w
    case Choose(expected, next, io) =>
      var c := Reading(s, io);
      if c.None? then s
      else if (expected.Some? && c.value.mode != expected.value) || c.value.mode == next then s.(cache := c.value)
      else s.(cache := c.value, switcher := Chosen(next), start := s.file)
    case Announce => s.(transitioning := true, switcher := Preempting(s.switcher.next))
    case Preempt(ok) =>
      s.(switcher := if ok then Wanting(s.switcher.next) else Ending(s.switcher.next, PreemptFailed))
    case TryGate =>
      s.(gate := ExclusiveIn(s.gate),
         switcher :=
           if ExclusiveFree(s.gate) then Holding(s.switcher.next)
           else Blocked(s.switcher.next, Watched(s.gate).changed.value))
    case WakeSwitch => s.(switcher := Wanting(s.switcher.next))
    case TimeOut => s.(switcher := Ending(s.switcher.next, TimedOut))
    case Cleanup(ok) => s.(switcher := Saving(s.switcher.next, ok))
    case Save(io) =>
      var m := if s.switcher.cleaned then s.switcher.next else Off;
      var outcome := if !s.switcher.cleaned then CleanupFailed else if io.Lands? then Switched else SaveFailed;
      s.(file := SavedFile(s.file, m, io), cache := SavedCache(s.cache, s.file, m, io),
         switcher := Releasing(s.switcher.next, outcome))
    case ReleaseGate => s.(gate := ExclusiveOut(s.gate), switcher := Ending(s.switcher.next, s.switcher.outcome))
    case Finish => s.(transitioning := false, switcher := Free)
  }

  predicate Enabled(s: State, e: Event) {
    match e
    case OnSharer(i, a) => i < |s.sharers| && SharerEnabled(s, s.sharers[i], a)
    case OnSwitch(w) => SwitchEnabled(s, w)
  }

  function Step(s: State, e: Event): State
    requires Enabled(s, e)
  {
    match e
    case OnSharer(i, a) => SharerStep(s, i, a)
    case OnSwitch(w) => SwitchStep(s, w)
  }

  function Exec(s: State, events: seq<Event>): Option<State>
    decreases |events|
  {
    if events == [] then Some(s)
    else if !Enabled(s, events[0]) then None
    else Exec(Step(s, events[0]), events[1..])
  }

  predicate Init(s: State) {
    && s.gate == GateState(0, false, None) && !s.cache.loaded && s.cache.seen.Nothing?
    && !s.transitioning && s.switcher.Free?
    && forall i :: 0 <= i < |s.sharers| ==> s.sharers[i].Out?
  }

  // The invariant.

  function Holds(x: Sharer): int { if x.Inside? || x.Leased? || x.Leaving? then 1 else 0 }

  predicate HoldsExclusive(w: Switcher) { w.Holding? || w.Saving? || w.Releasing? }

  ghost predicate GateOk(s: State) {
    && s.gate.active == Sum(s.sharers, Holds)
    && (s.gate.exclusive <==> HoldsExclusive(s.switcher))
    && (s.gate.exclusive ==> s.gate.active == 0)
  }

  /** A sleeper's channel was really made, and is still open only while what it needs is taken. */
  predicate SleeperOk(g: GateState, channel: nat, blocked: bool) {
    g.changed.Some? && channel <= g.changed.value && (channel == g.changed.value ==> blocked)
  }

  predicate SharerOk(s: State, x: Sharer) {
    && (x.Asleep? ==> SleeperOk(s.gate, x.channel, s.gate.exclusive))
    && (x.Leased? ==>
          && s.cache.loaded && s.cache.mode == x.mode == Effective(s.file, s.default)
          && (x.want.AsMode? ==> x.mode == x.want.mode))
  }

  predicate SharersOk(s: State) { forall i :: 0 <= i < |s.sharers| ==> SharerOk(s, s.sharers[i]) }

  predicate CacheOk(s: State) {
    && CacheRight(s.cache, s.file, s.default)
    && (s.cache.seen.SeenStamp? ==> s.file.Text? && s.cache.seen.stamp <= s.file.stamp)
  }

  /** What has been written, by how far the switch has got. */
  predicate OutcomeOk(s: State, next: Mode, o: Outcome) {
    match o
    case PreemptFailed => s.file == s.start
    case TimedOut => s.file == s.start
    case CleanupFailed => s.file == s.start || Effective(s.file, s.default) == Off
    case SaveFailed => s.file == s.start || Effective(s.file, s.default) == next
    case Switched => Effective(s.file, s.default) == next && s.cache.mode == next
  }

  predicate SwitchOk(s: State) {
    && (s.transitioning <==> !s.switcher.Free? && !s.switcher.Chosen?)
    && (!s.switcher.Free? ==> s.cache.loaded)
    && (match s.switcher
        case Free => true
        case Releasing(next, o) => OutcomeOk(s, next, o)
        case Ending(next, o) => OutcomeOk(s, next, o)
        case Blocked(_, c) => s.file == s.start && SleeperOk(s.gate, c, s.gate.active > 0)
        case _ => s.file == s.start)
  }

  ghost predicate Inv(s: State) { GateOk(s) && SharersOk(s) && CacheOk(s) && SwitchOk(s) }

  lemma SharerKeepsGate(s: State, i: nat, a: SharerAct)
    requires Inv(s) && i < |s.sharers| && SharerEnabled(s, s.sharers[i], a)
    ensures GateOk(SharerStep(s, i, a))
    ensures a.Leave? ==> s.gate.active > 0
  {
    SumUpdate(s.sharers, i, SharerNext(s, s.sharers[i], a), Holds);
    SumAtLeastTerm(s.sharers, i, Holds);
  }

  lemma SharerKeepsOthers(s: State, i: nat, a: SharerAct)
    requires Inv(s) && i < |s.sharers| && SharerEnabled(s, s.sharers[i], a)
    ensures SharersOk(SharerStep(s, i, a))
  {
    var t := SharerStep(s, i, a);
    forall k | 0 <= k < |t.sharers| ensures SharerOk(t, t.sharers[k]) {
      assert SharerOk(s, s.sharers[k]);
    }
  }

  lemma SharerKeepsInv(s: State, i: nat, a: SharerAct)
    requires Inv(s) && i < |s.sharers| && SharerEnabled(s, s.sharers[i], a)
    ensures Inv(SharerStep(s, i, a))
  {
    SharerKeepsGate(s, i, a);
    SharerKeepsOthers(s, i, a);
  }

  /** With the exclusive side held there is no lease to disturb. */
  lemma NoLeaseUnderExclusive(s: State, i: nat)
    requires GateOk(s) && i < |s.sharers| && s.gate.active == 0
    ensures !s.sharers[i].Leased? && Holds(s.sharers[i]) == 0
  {
    SumAtLeastTerm(s.sharers, i, Holds);
  }

  lemma SwitchKeepsSharers(s: State, w: SwitchAct)
    requires Inv(s) && SwitchEnabled(s, w)
    ensures SharersOk(SwitchStep(s, w))
  {
    var t := SwitchStep(s, w);
    forall k | 0 <= k < |t.sharers| ensures SharerOk(t, t.sharers[k]) {
      assert SharerOk(s, s.sharers[k]);
      if w.Save? {
        NoLeaseUnderExclusive(s, k);
      }
    }
  }

  lemma SwitchKeepsInv(s: State, w: SwitchAct)
    requires Inv(s) && SwitchEnabled(s, w)
    ensures Inv(SwitchStep(s, w))
  {
    SwitchKeepsSharers(s, w);
  }

  lemma {:induction false} EveryRunKeepsInv(s: State, events: seq<Event>)
    requires Inv(s)
    ensures Exec(s, events).Some? ==> Inv(Exec(s, events).value)
    decreases |events|
  {
    if events != [] && Enabled(s, events[0]) {
      match events[0] {
        case OnSharer(i, a) => SharerKeepsInv(s, i, a);
        case OnSwitch(w) => SwitchKeepsInv(s, w);
      }
      EveryRunKeepsInv(Step(s, events[0]), events[1..]);
    }
  }

  lemma {:induction false} InitHolds(sharers: seq<Sharer>)
    requires forall i :: 0 <= i < |sharers| ==> sharers[i].Out?
    ensures Sum(sharers, Holds) == 0
  {
    if sharers != [] {
      InitHolds(sharers[..|sharers| - 1]);
    }
  }

  lemma {:induction false} Reached(s: State, events: seq<Event>)
    requires Init(s) && Exec(s, events).Some?
    ensures Inv(Exec(s, events).value)
  {
    InitHolds(s.sharers);
    EveryRunKeepsInv(s, events);
  }

  // The results.

  /**
   * Over every run, all leases held at one time are for one mode, the one the file holds and any
   * status reading gives, and no switch has the exclusive side.
   */
  lemma {:induction false} LeasesAgree(s: State, events: seq<Event>, i: nat, j: nat, io: ReadIo)
    requires Init(s)
    ensures var r := Exec(s, events);
      && r.Some? && i < |r.value.sharers| && j < |r.value.sharers|
      && r.value.sharers[i].Leased? && r.value.sharers[j].Leased? ==>
        && r.value.sharers[i].mode == r.value.sharers[j].mode == Effective(r.value.file, r.value.default)
        && (r.value.sharers[i].want.AsMode? ==> r.value.sharers[i].mode == r.value.sharers[i].want.mode)
        && (Reading(r.value, io).Some? ==> Reading(r.value, io).value.mode == r.value.sharers[i].mode)
        && !HoldsExclusive(r.value.switcher)
  {
    if Exec(s, events).Some? {
      Reached(s, events);
      var t := Exec(s, events).value;
      if i < |t.sharers| && j < |t.sharers| && t.sharers[i].Leased? && t.sharers[j].Leased? {
        assert SharerOk(t, t.sharers[i]) && SharerOk(t, t.sharers[j]);
        SumAtLeastTerm(t.sharers, i, Holds);
      }
    }
  }

  /** At each look a lease goes on exactly outside a transition, when the file has the mode wanted. */
  lemma GrantedExactlyWhen(s: State, i: nat, want: Want, io: ReadIo)
    requires Inv(s) && i < |s.sharers|
    ensures var goes :=
        && !s.transitioning && Readable(s.cache, s.file, io)
        && (want.AsMode? ==> Effective(s.file, s.default) == want.mode);
      && (s.sharers[i].Out? ==>
            var t := SharerStep(s, i, FirstCheck(want, io));
            (t.sharers[i] == Checked(want) <==> goes)
            && (goes ==> t.cache.loaded && t.cache.mode == Effective(s.file, s.default)))
      && (s.sharers[i] == Inside(want) ==>
            (SharerStep(s, i, Recheck(io)).sharers[i] == Leased(want, Effective(s.file, s.default)) <==> goes)
            && (SharerStep(s, i, Recheck(io)).sharers[i] == Leaving <==> !goes))
  {
  }

  /** A switch begins exactly when the mode in the file is the one expected and not yet the target. */
  lemma ChosenExactlyWhen(s: State, expected: Option<Mode>, next: Mode, io: ReadIo)
    requires Inv(s) && s.switcher.Free?
    ensures var mode, t := Effective(s.file, s.default), SwitchStep(s, Choose(expected, next, io));
      && (t.switcher == Chosen(next) <==>
            Readable(s.cache, s.file, io) && (expected.Some? ==> mode == expected.value) && mode != next)
      && (t.switcher == Chosen(next) ==> t.cache.loaded && t.cache.mode == mode && t.start == t.file == s.file)
  {
  }

  /** The steps of a switch that finds the gate free, by what its hooks and its save do. */
  function SwitchPath(preempt: bool, cleanup: bool, io: WriteIo): seq<SwitchAct> {
    if preempt then [Announce, Preempt(true), TryGate, Cleanup(cleanup), Save(io), ReleaseGate]
    else [Announce, Preempt(false)]
  }

  function ExecSwitch(s: State, acts: seq<SwitchAct>): Option<State>
    decreases |acts|
  {
    if acts == [] then Some(s)
    else if !SwitchEnabled(s, acts[0]) then None
    else ExecSwitch(SwitchStep(s, acts[0]), acts[1..])
  }

  lemma SwitchOnce(s: State, acts: seq<SwitchAct>)
    requires acts != [] && SwitchEnabled(s, acts[0])
    ensures ExecSwitch(s, acts) == ExecSwitch(SwitchStep(s, acts[0]), acts[1..])
  {
  }

  lemma SavingReports(s: State, cleanup: bool, io: WriteIo)
    requires s.switcher.Wanting? && ExclusiveFree(s.gate)
    ensures var r := ExecSwitch(s, [TryGate, Cleanup(cleanup), Save(io), ReleaseGate]);
      && r.Some? && r.value.transitioning == s.transitioning && !r.value.gate.exclusive
      && r.value.file == SavedFile(s.file, if cleanup then s.switcher.next else Off, io)
      && r.value.switcher == Ending(s.switcher.next,
           if !cleanup then CleanupFailed else if io.Lands? then Switched else SaveFailed)
  {
    var acts := [TryGate, Cleanup(cleanup), Save(io), ReleaseGate];
    var a := SwitchStep(s, TryGate);
    var b := SwitchStep(a, Cleanup(cleanup));
    SwitchOnce(s, acts);
    SwitchOnce(a, acts[1..]);
    assert acts[1..][1..] == [Save(io), ReleaseGate];
    SwitchOnce(b, [Save(io), ReleaseGate]);
    assert [Save(io), ReleaseGate][1..] == [ReleaseGate] && [ReleaseGate][1..] == [];
    SwitchOnce(SwitchStep(b, Save(io)), [ReleaseGate]);
  }

  /**
   * What such a switch reports, and the mode it leaves, is decided by the first stage that failed.
   */
  lemma SwitchReports(s: State, preempt: bool, cleanup: bool, io: WriteIo)
    requires Inv(s) && s.switcher.Chosen? && s.gate.active == 0
    ensures var r, next := ExecSwitch(s, SwitchPath(preempt, cleanup, io)), s.switcher.next;
      && r.Some? && r.value.transitioning && !r.value.gate.exclusive
      && r.value.switcher == Ending(next,
           if !preempt then PreemptFailed
           else if !cleanup then CleanupFailed
           else if io.Lands? then Switched else SaveFailed)
      && Effective(r.value.file, s.default) ==
           (if !preempt || io.Fails? then Effective(s.file, s.default) else if !cleanup then Off else next)
  {
    var path := SwitchPath(preempt, cleanup, io);
    var t := SwitchStep(s, Announce);
    SwitchOnce(s, path);
    SwitchOnce(t, path[1..]);
    if preempt {
      assert path[1..][1..] == [TryGate, Cleanup(cleanup), Save(io), ReleaseGate];
      SavingReports(SwitchStep(t, Preempt(true)), cleanup, io);
    } else {
      assert path[1..][1..] == [];
    }
  }

  /** While a lease is held, no step of anyone changes the file or the mode a status reading gives. */
  lemma LeaseHoldsModeStable(s: State, i: nat, e: Event)
    requires Inv(s) && i < |s.sharers| && s.sharers[i].Leased? && Enabled(s, e)
    ensures Step(s, e).file == s.file && Step(s, e).cache.mode == s.cache.mode == s.sharers[i].mode
    ensures !(e.OnSharer? && e.i == i) ==> Step(s, e).sharers[i] == s.sharers[i]
  {
    assert SharerOk(s, s.sharers[i]);
    SumAtLeastTerm(s.sharers, i, Holds);
  }

  /**
   * How a switch can end: a failed preempt or a timed-out wait leaves the file as it was; a failed
   * cleanup leaves it as it was or off; a success leaves it, and the cached mode, at the target.
   */
  lemma {:induction false} SwitchOutcomes(s: State, events: seq<Event>)
    requires Init(s)
    ensures var r := Exec(s, events);
      r.Some? && r.value.switcher.Ending? ==>
        var t := r.value;
        && (t.switcher.outcome.PreemptFailed? || t.switcher.outcome.TimedOut? ==> t.file == t.start)
        && (t.switcher.outcome.CleanupFailed? ==> t.file == t.start || Effective(t.file, t.default) == Off)
        && (t.switcher.outcome.SaveFailed? ==> t.file == t.start || Effective(t.file, t.default) == t.switcher.next)
        && (t.switcher.outcome.Switched? ==> Effective(t.file, t.default) == t.cache.mode == t.switcher.next)
  {
    if Exec(s, events).Some? {
      Reached(s, events);
    }
  }

  /**
   * No waiter is left behind: over every run a sleeper whose channel is still open is waiting for
   * something that is still held, and whoever holds it has a release ahead of it that signals.
   */
  lemma {:induction false} NoWaiterIsLeft(s: State, events: seq<Event>, i: nat)
    requires Init(s)
    ensures var r := Exec(s, events);
      r.Some? ==>
        var t := r.value;
        && (i < |t.sharers| && t.sharers[i].Asleep? && !Signalled(t.gate, t.sharers[i].channel) ==>
              HoldsExclusive(t.switcher) && Signalled(ExclusiveOut(t.gate), t.sharers[i].channel))
        && (t.switcher.Blocked? && !Signalled(t.gate, t.switcher.channel) ==>
              t.gate.active > 0 && Signalled(SharedOut(t.gate), t.switcher.channel)
              && exists k :: 0 <= k < |t.sharers| && Holds(t.sharers[k]) == 1)
  {
    if Exec(s, events).Some? {
      Reached(s, events);
      var t := Exec(s, events).value;
      if i < |t.sharers| {
        assert SharerOk(t, t.sharers[i]);
      }
      if t.gate.active > 0 {
        SomeoneHolds(t.sharers);
      }
    }
  }

  /** And a sleeper whose channel was closed, or whoever else is on the way, has a step that brings the end nearer. */
  function SharerRank(x: Sharer): nat {
    match x
    case Asleep(_, _) => 5
    case Checked(_) => 4
    case Inside(_) => 3
    case Leased(_, _) => 2
    case Leaving => 1
    case Out => 0
  }

  lemma SharerGoesOn(s: State, i: nat) returns (a: SharerAct)
    requires Inv(s) && i < |s.sharers| && !s.sharers[i].Out? && !s.gate.exclusive
    requires s.sharers[i].Asleep? ==> Signalled(s.gate, s.sharers[i].channel)
    ensures SharerEnabled(s, s.sharers[i], a)
    ensures SharerRank(SharerNext(s, s.sharers[i], a)) < SharerRank(s.sharers[i])
  {
    a := match s.sharers[i]
      case Asleep(_, _) => Wake
      case Checked(_) => Enter
      case Inside(_) => Recheck(ReadOk)
      case _ => Leave;
  }

  /** With a lease out the switch waits once and then gives up; without one it goes through. */
  function SwitchRank(w: Switcher, busy: bool): nat {
    match w
    case Free => 0
    case Chosen(_) => 8
    case Preempting(_) => 7
    case Blocked(_, _) => if busy then 5 else 6
    case Wanting(_) => if busy then 6 else 5
    case Holding(_) => 4
    case Saving(_, _) => 3
    case Releasing(_, _) => 2
    case Ending(_, _) => 1
  }

  /** A switch under way always has a step that brings its end nearer, whether a lease is out or not. */
  lemma SwitchGoesOn(s: State) returns (w: SwitchAct)
    requires Inv(s) && !s.switcher.Free?
    ensures SwitchEnabled(s, w)
    ensures var busy := s.gate.active > 0;
      SwitchRank(SwitchStep(s, w).switcher, busy) < SwitchRank(s.switcher, busy)
  {
    w := match s.switcher
      case Chosen(_) => Announce
      case Preempting(_) => Preempt(true)
      case Blocked(_, _) => if s.gate.active == 0 then WakeSwitch else TimeOut
      case Wanting(_) => TryGate
      case Holding(_) => Cleanup(true)
      case Saving(_, _) => Save(Lands(true))
      case Releasing(_, _) => ReleaseGate
      case _ => Finish;
  }

  lemma {:induction false} SomeoneHolds(sharers: seq<Sharer>)
    requires Sum(sharers, Holds) > 0
    ensures exists k :: 0 <= k < |sharers| && Holds(sharers[k]) == 1
  {
    var last := |sharers| - 1;
    if sharers != [] && Holds(sharers[last]) != 1 {
      SomeoneHolds(sharers[..last]);
      var k :| 0 <= k < last && Holds(sharers[..last][k]) == 1;
      assert Holds(sharers[k]) == 1;
    }
  }

  /**
   * A switch that reports a failed save has nevertheless switched if and only if the write landed
   * before the error: the next reading, once the transition is over, gives the target.
   */
  lemma FailedSaveMayStillSwitch(s: State, io: WriteIo)
    requires Inv(s) && s.switcher.Saving? && s.switcher.cleaned && !io.Lands?
    requires Effective(s.file, s.default) != s.switcher.next
    ensures var t := SwitchStep(SwitchStep(SwitchStep(s, Save(io)), ReleaseGate), Finish);
      && SwitchStep(s, Save(io)).switcher.outcome == SaveFailed
      && (Reading(t, ReadOk).Some? && Reading(t, ReadOk).value.mode == s.switcher.next <==> io.LandsWithError?)
  {
    SwitchKeepsInv(s, Save(io));
    SwitchKeepsInv(SwitchStep(s, Save(io)), ReleaseGate);
    SwitchKeepsInv(SwitchStep(SwitchStep(s, Save(io)), ReleaseGate), Finish);
  }
}
