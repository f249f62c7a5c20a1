/**
 * Kernel install and commit over two slots, with power cuts anywhere. Small files are replaced
 * atomically; boot.sd and boot.alt are overwritten in place and are torn until the write ends.
 */
module BootSlot {
  import opened Wrappers

  /** A kernel is known by its digest. */
  type Kernel = nat

  datatype Image = Whole(kernel: Kernel) | Torn

  datatype AbState = Committed | Trial

  datatype Slot = NoPolicy | GoodSlot | TrialSlot

  /**
   * /boot: the two slots, ab_state, the boot counter and the pending version. `verified` records
   * that boot.alt was read back equal since it was last written, `attempts` the trial boots
   * since ab_state was last armed.
   */
  datatype Disk = Disk(
    sd: Image, alt: Image, ab: AbState, count: nat, pending: Option<Kernel>,
    verified: bool, attempts: nat)

  /** What the server is in the middle of; `pc` counts finished steps. */
  datatype Task = Idle | Installing(k: Kernel, pc: nat) | Confirming(cpc: nat)

  datatype Power =
    | Off
    | On(slot: Slot, running: Kernel, task: Task, installed: bool)
    | Bricked

  /** `policy` is whether the bootloader knows the A/B policy at all. */
  datatype State = State(policy: bool, disk: Disk, power: Power)

  // The bootloader, as the source describes it: an armed trial with a zero counter boots
  // boot.alt and counts the attempt; anything else boots boot.sd.

  predicate PicksAlt(s: State) { s.policy && s.disk.ab.Trial? && s.disk.count == 0 }

  function Selected(s: State): Image { if PicksAlt(s) then s.disk.alt else s.disk.sd }

  function Booted(s: State): State {
    var image := Selected(s);
    if image.Torn? then s.(power := Bricked)
    else
      var slot := if !s.policy then NoPolicy else if PicksAlt(s) then TrialSlot else GoodSlot;
      s.(disk := if PicksAlt(s) then s.disk.(count := 1, attempts := s.disk.attempts + 1) else s.disk,
         power := On(slot, image.kernel, Idle, false))
  }

  // The steps of an install, in order: disarm, overwrite boot.alt, read it back, zero the
  // counter, arm, record the version. `landed` is what the overwrite really left there.

  const INSTALL_STEPS: nat := 7

  function InstallStep(d: Disk, pc: nat, k: Kernel, landed: Image): Option<Disk> {
    if pc == 0 then Some(d.(ab := Committed))
    else if pc == 1 then Some(d.(alt := Torn, verified := false))
    else if pc == 2 then Some(d.(alt := landed))
    else if pc == 3 then if d.alt == Whole(k) then Some(d.(verified := true)) else None
    else if pc == 4 then Some(d.(count := 0))
    else if pc == 5 then Some(d.(ab := Trial, attempts := 0))
    else Some(d.(pending := Some(k)))
  }

  /** An unconfirmed trial must not be written over. */
  predicate MayInstall(s: State) {
    && s.power.On? && s.power.task.Idle? && !s.power.slot.NoPolicy?
    && (s.power.slot.TrialSlot? ==> s.disk.ab.Committed?)
  }

  // The steps of a commit: (the guard is signalled and room is checked first) copy boot.alt over
  // boot.sd, set ab_state, zero the counter, forget the pending version.

  const CONFIRM_STEPS: nat := 5

  function ConfirmStep(d: Disk, pc: nat): Disk {
    if pc == 0 then d.(sd := Torn)
    else if pc == 1 then d.(sd := d.alt)
    else if pc == 2 then d.(ab := Committed)
    else if pc == 3 then d.(count := 0)
    else d.(pending := None)
  }

  predicate MidCopy(s: State) { s.power.On? && s.power.task == Confirming(1) }

  datatype Event =
    | Boot
    | PowerCut
    | InstallBegin(k: Kernel)
    | InstallNext(landed: Image)
    | ConfirmBegin
    | ConfirmNext
    | TaskFails

  predicate Enabled(s: State, e: Event) {
    match e
    case Boot => s.power.Off?
    case PowerCut => s.power.On?
    case InstallBegin(_) => MayInstall(s)
    case InstallNext(_) => s.power.On? && s.power.task.Installing? && s.power.task.pc < INSTALL_STEPS
    case ConfirmBegin => s.power.On? && s.power.task.Idle? && s.power.slot.TrialSlot?
    case ConfirmNext => s.power.On? && s.power.task.Confirming? && s.power.task.cpc < CONFIRM_STEPS
    case TaskFails => s.power.On? && !s.power.task.Idle?
  }

  function Step(s: State, e: Event): State
    requires Enabled(s, e)
  {
    match e
    case Boot => Booted(s)
    case PowerCut => s.(power := Off)
    case InstallBegin(k) => s.(power := s.power.(task := Installing(k, 0), installed := true))
    case InstallNext(landed) =>
      var t := s.power.task;
      (match InstallStep(s.disk, t.pc, t.k, landed)
       case None => s.(power := s.power.(task := Idle))
       case Some(d) =>
         var next := if t.pc + 1 == INSTALL_STEPS then Idle else Installing(t.k, t.pc + 1);
         s.(disk := d, power := s.power.(task := next)))
    case ConfirmBegin => s.(power := s.power.(task := Confirming(0)))
    case ConfirmNext =>
      var pc := s.power.task.cpc;
      s.(disk := ConfirmStep(s.disk, pc),
         power := s.power.(task := if pc + 1 == CONFIRM_STEPS then Idle else Confirming(pc + 1)))
    case TaskFails => s.(power := s.power.(task := Idle))
  }

  function Exec(s: State, events: seq<Event>): Option<State>
    decreases |events|
  {
    if events == [] then Some(s)
    else if !Enabled(s, events[0]) then None
    else Exec(Step(s, events[0]), events[1..])
  }

  /**
   * What the design does not promise to survive: a cut or an I/O error inside the commit's own
   * copy, and a commit after an install in the same boot.
   */
  predicate Survivable(s: State, e: Event) {
    && (MidCopy(s) ==> !e.PowerCut? && !e.TaskFails?)
    && (e.ConfirmBegin? && s.power.On? ==> !s.power.installed)
  }

  predicate AllSurvivable(s: State, events: seq<Event>)
    decreases |events|
  {
    events != [] && Enabled(s, events[0]) ==>
      Survivable(s, events[0]) && AllSurvivable(Step(s, events[0]), events[1..])
  }

  // The invariant.

  predicate DiskOk(d: Disk) {
    && (d.verified ==> d.alt.Whole?)
    && (d.ab.Trial? && d.count == 0 ==> d.verified && d.attempts == 0)
    && d.attempts <= 1
  }

  /** Where an install has got to says what is already true of the disk. */
  predicate InstallOk(d: Disk, t: Task) {
    t.Installing? ==>
      && t.pc < INSTALL_STEPS
      && (1 <= t.pc <= 5 ==> d.ab.Committed?)
      && (2 <= t.pc <= 3 ==> !d.verified)
      && (t.pc >= 4 ==> d.verified && d.alt == Whole(t.k))
      && (t.pc == 5 ==> d.count == 0)
  }

  /** A trial boot: before any install boot.alt is the running kernel; once committed, so is boot.sd. */
  predicate TrialOk(d: Disk, p: Power)
    requires p.On?
  {
    p.slot.TrialSlot? ==>
      && (!p.installed ==> d.alt == Whole(p.running) && d.verified && (d.ab.Trial? ==> d.count > 0))
      && ((p.installed || d.ab.Committed?) && p.task != Confirming(1) ==> d.sd == Whole(p.running))
      && (p.task.Confirming? && p.task.cpc >= 2 ==> d.sd == Whole(p.running))
  }

  predicate Inv(s: State) {
    && DiskOk(s.disk) && !s.power.Bricked?
    && (if MidCopy(s) then s.disk.sd.Torn? else s.disk.sd.Whole?)
    && (s.power.On? ==>
         && InstallOk(s.disk, s.power.task) && TrialOk(s.disk, s.power)
         && (s.power.slot.NoPolicy? <==> !s.policy)
         && (s.power.task.Installing? ==> s.power.installed)
         && (s.power.task.Confirming? ==>
               && s.power.slot.TrialSlot? && !s.power.installed && s.power.task.cpc < CONFIRM_STEPS
               && (s.power.task.cpc >= 3 ==> s.disk.ab.Committed?)))
  }

  lemma StepKeepsInv(s: State, e: Event)
    requires Inv(s) && Enabled(s, e) && Survivable(s, e)
    ensures Inv(Step(s, e))
  {
  }

  lemma {:induction false} EveryRunKeepsInv(s: State, events: seq<Event>)
    requires Inv(s) && AllSurvivable(s, events)
    ensures Exec(s, events).Some? ==> Inv(Exec(s, events).value)
    decreases |events|
  {
    if events != [] && Enabled(s, events[0]) {
      StepKeepsInv(s, events[0]);
      EveryRunKeepsInv(Step(s, events[0]), events[1..]);
    }
  }

  /** A flashed device: a whole committed kernel, whatever is in the other slot. */
  predicate Flashed(s: State) {
    s.power.Off? && s.disk.sd.Whole? && s.disk.ab.Committed? && !s.disk.verified && s.disk.attempts == 0
  }

  /**
   * Over any sequence of boots, installs, commits, failures and power cuts the design promises
   * to survive: the device is never left without a kernel to boot; boot.alt is selectable only
   * when it is whole and was read back equal; an armed trial has had no attempt yet, so it gets
   * one; and a trial boot whose ab_state is committed has its running kernel in boot.sd.
   */
  lemma {:induction false} AlwaysBoots(s: State, events: seq<Event>)
    requires Flashed(s) && AllSurvivable(s, events)
    ensures var r := Exec(s, events);
      r.Some? ==>
        var t := r.value;
        && !t.power.Bricked?
        && (!MidCopy(t) ==> Selected(t).Whole?)
        && (PicksAlt(t) ==> t.disk.verified && t.disk.alt.Whole? && t.disk.attempts == 0)
        && t.disk.attempts <= 1
        && (t.power.On? && t.power.slot.TrialSlot? && t.disk.ab.Committed? && !MidCopy(t) ==>
              t.disk.sd == Whole(t.power.running))
  {
    EveryRunKeepsInv(s, events);
  }

  /** The trial that never confirmed falls back: the boot after it uses boot.sd. */
  lemma UnconfirmedTrialFallsBack(s: State)
    requires Inv(s) && s.power.On? && s.power.slot.TrialSlot? && !s.power.installed && s.disk.ab.Trial? && !MidCopy(s)
    ensures var t := Booted(Step(s, PowerCut));
      t.power.On? && t.power.slot == GoodSlot && s.disk.sd == Whole(t.power.running)
  {
  }

  lemma Prepend(s: State, e: Event, rest: seq<Event>)
    requires Enabled(s, e)
    ensures Exec(s, [e] + rest) == Exec(Step(s, e), rest)
  {
    assert ([e] + rest)[1..] == rest;
  }

  // An upgrade that goes well.

  lemma {:induction false} After(s: State, events: seq<Event>, t: State, e: Event)
    returns (longer: seq<Event>, next: State)
    requires Exec(s, events) == Some(t) && Enabled(t, e)
    ensures next == Step(t, e) && Exec(s, longer) == Some(next)
    ensures longer == events + [e]
    decreases |events|
  {
    longer, next := events + [e], Step(t, e);
    if events == [] {
      assert longer[1..] == [];
    } else {
      var _, _ := After(Step(s, events[0]), events[1..], t, e);
      assert longer[1..] == events[1..] + [e];
    }
  }

  /** An install whose write lands arms a trial of exactly that kernel, and leaves boot.sd alone. */
  lemma InstallArms(s: State, k: Kernel) returns (events: seq<Event>, t: State)
    requires MayInstall(s)
    ensures Exec(s, events) == Some(t)
    ensures t == s.(
      disk := Disk(s.disk.sd, Whole(k), Trial, 0, Some(k), true, 0),
      power := s.power.(task := Idle, installed := true))
  {
    events, t := [], s;
    events, t := After(s, events, t, InstallBegin(k));
    events, t := After(s, events, t, InstallNext(Whole(k)));
    events, t := After(s, events, t, InstallNext(Whole(k)));
    events, t := After(s, events, t, InstallNext(Whole(k)));
    events, t := After(s, events, t, InstallNext(Whole(k)));
    events, t := After(s, events, t, InstallNext(Whole(k)));
    events, t := After(s, events, t, InstallNext(Whole(k)));
    events, t := After(s, events, t, InstallNext(Whole(k)));
  }

  lemma Rebooted(s: State, before: seq<Event>, t: State) returns (events: seq<Event>, u: State)
    requires Exec(s, before) == Some(t) && t.power.On?
    ensures Exec(s, events) == Some(u) && u == Booted(t.(power := Off))
  {
    var off;
    events, off := After(s, before, t, PowerCut);
    events, u := After(s, events, off, Boot);
  }

  /** The boot after it is the trial, the first attempt, of that kernel. */
  lemma TrialIsBooted(s: State, k: Kernel) returns (events: seq<Event>, t: State)
    requires MayInstall(s) && s.policy
    ensures Exec(s, events) == Some(t)
    ensures t == s.(
      disk := Disk(s.disk.sd, Whole(k), Trial, 1, Some(k), true, 1), power := On(TrialSlot, k, Idle, false))
  {
    events, t := InstallArms(s, k);
    events, t := Rebooted(s, events, t);
  }

  /** Left alone, the next boot is of boot.sd again. */
  lemma TrialFallsBack(s: State, k: Kernel) returns (events: seq<Event>, t: State)
    requires MayInstall(s) && s.policy && s.disk.sd.Whole?
    ensures Exec(s, events) == Some(t)
    ensures t.power == On(GoodSlot, s.disk.sd.kernel, Idle, false) && t.disk.sd == s.disk.sd
  {
    events, t := TrialIsBooted(s, k);
    events, t := Rebooted(s, events, t);
  }

  /** Confirmed, the new kernel is in boot.sd and every later boot is of it. */
  lemma UpgradeSucceeds(s: State, k: Kernel) returns (events: seq<Event>, t: State)
    requires MayInstall(s) && s.policy
    ensures Exec(s, events) == Some(t)
    ensures t.power == On(GoodSlot, k, Idle, false) && t.disk.sd == Whole(k) && t.disk.ab.Committed?
    ensures t.disk.pending.None? && MayInstall(t) && Booted(t.(power := Off)) == t
  {
    events, t := TrialIsBooted(s, k);
    events, t := After(s, events, t, ConfirmBegin);
    events, t := After(s, events, t, ConfirmNext);
    events, t := After(s, events, t, ConfirmNext);
    events, t := After(s, events, t, ConfirmNext);
    events, t := After(s, events, t, ConfirmNext);
    events, t := After(s, events, t, ConfirmNext);
    events, t := Rebooted(s, events, t);
  }

  /** A kernel that does not read back as written is not armed, and the device goes on as it was. */
  lemma MismatchIsRefused(s: State, k: Kernel, landed: Image) returns (events: seq<Event>, t: State)
    requires MayInstall(s) && landed != Whole(k)
    ensures Exec(s, events) == Some(t)
    ensures t.power == s.power.(task := Idle, installed := true)
    ensures t.disk == s.disk.(alt := landed, ab := Committed, verified := false)
  {
    events, t := [], s;
    events, t := After(s, events, t, InstallBegin(k));
    events, t := After(s, events, t, InstallNext(landed));
    events, t := After(s, events, t, InstallNext(landed));
    events, t := After(s, events, t, InstallNext(landed));
    events, t := After(s, events, t, InstallNext(landed));
  }

  // What lies outside that promise, and exactly when.

  /** From any reachable running state, a power cut loses the device exactly inside the commit's copy. */
  lemma CutLosesExactlyMidCopy(s: State)
    requires Inv(s) && s.power.On?
    ensures Booted(Step(s, PowerCut)).power.Bricked? <==> MidCopy(s)
  {
  }

  predicate Settled(s: State) {
    s.power.On? && s.power.slot.TrialSlot? && s.power.task.Idle?
  }

  function Commit(s: State): (t: Option<State>) {
    Exec(s, [ConfirmBegin, ConfirmNext, ConfirmNext, ConfirmNext, ConfirmNext, ConfirmNext])
  }

  lemma CommitIs(s: State)
    requires Settled(s)
    ensures Commit(s) == Some(s.(disk := s.disk.(sd := s.disk.alt, ab := Committed, count := 0, pending := None)))
  {
    var s0 := Step(s, ConfirmBegin);
    var s1 := Step(s0, ConfirmNext);
    var s2 := Step(s1, ConfirmNext);
    var s3 := Step(s2, ConfirmNext);
    var s4 := Step(s3, ConfirmNext);
    var one := [ConfirmNext];
    Prepend(s4, ConfirmNext, []);
    assert one + [] == one;
    Prepend(s3, ConfirmNext, one);
    Prepend(s2, ConfirmNext, one + one);
    Prepend(s1, ConfirmNext, one + (one + one));
    Prepend(s0, ConfirmNext, one + (one + (one + one)));
    var five := one + (one + (one + (one + one)));
    Prepend(s, ConfirmBegin, five);
    assert [ConfirmBegin, ConfirmNext, ConfirmNext, ConfirmNext, ConfirmNext, ConfirmNext] == [ConfirmBegin] + five;
  }

  /**
   * A commit run to its end in any trial boot, whatever came before it, leaves the running
   * kernel in boot.sd if and only if boot.alt still held it, and a device that boots if and only
   * if boot.alt was whole.
   */
  lemma CommitIsRightExactlyWhen(s: State)
    requires Settled(s)
    ensures Commit(s).Some?
    ensures Commit(s).value.disk.sd == Whole(s.power.running) <==> s.disk.alt == Whole(s.power.running)
    ensures Booted(Step(Commit(s).value, PowerCut)).power.Bricked? <==> s.disk.alt.Torn?
  {
    CommitIs(s);
  }

  /** In a trial boot with no install yet, the condition holds. */
  lemma CommitWithoutInstallIsRight(s: State)
    requires Inv(s) && Settled(s) && !s.power.installed
    ensures Commit(s).Some? && Commit(s).value.disk.sd == Whole(s.power.running)
  {
    CommitIs(s);
  }

  /** After an install that failed while writing, in the same boot, it does not: the commit is lost. */
  lemma CommitAfterFailedInstall(s: State, k: Kernel)
    requires Inv(s) && Settled(s) && s.disk.ab.Committed?
    ensures var r := Exec(s, [InstallBegin(k), InstallNext(Torn), InstallNext(Torn), TaskFails]);
      && r.Some? && Inv(r.value) && Settled(r.value)
      && Commit(r.value).Some? && Booted(Step(Commit(r.value).value, PowerCut)).power.Bricked?
  {
    var s1 := Step(s, InstallBegin(k));
    var s2 := Step(s1, InstallNext(Torn));
    var s3 := Step(s2, InstallNext(Torn));
    var s4 := Step(s3, TaskFails);
    StepKeepsInv(s, InstallBegin(k));
    StepKeepsInv(s1, InstallNext(Torn));
    StepKeepsInv(s2, InstallNext(Torn));
    StepKeepsInv(s3, TaskFails);
    var last := [TaskFails];
    Prepend(s3, TaskFails, []);
    assert last + [] == last;
    Prepend(s2, InstallNext(Torn), last);
    Prepend(s1, InstallNext(Torn), [InstallNext(Torn)] + last);
    var tail := [InstallNext(Torn)] + ([InstallNext(Torn)] + last);
    Prepend(s, InstallBegin(k), tail);
    assert [InstallBegin(k), InstallNext(Torn), InstallNext(Torn), TaskFails] == [InstallBegin(k)] + tail;
    CommitIsRightExactlyWhen(s4);
  }

  /** The same steps as the server runs them: a loop over an ordered list that stops at the first failure. */
  class Partition {
    var disk: Disk

    constructor (d: Disk)
      ensures disk == d
    {
      disk := d;
    }

    /**
     * `failsAt` is the step an I/O error strikes, INSTALL_STEPS or more for none. The committed
     * slot is never touched; success means the read-back matched and the trial is armed with a
     * zero counter; and a failure leaves the trial either disarmed or armed with the kernel whole.
     */
    method Install(k: Kernel, landed: Image, failsAt: nat) returns (ok: bool)
      modifies this
      ensures disk.sd == old(disk.sd)
      ensures ok <==> failsAt >= INSTALL_STEPS && landed == Whole(k)
      ensures ok ==> disk == Disk(old(disk.sd), Whole(k), Trial, 0, Some(k), true, 0)
      ensures !ok && failsAt == 0 ==> disk == old(disk)
      ensures !ok && failsAt > 0 ==>
        disk.ab.Committed? || (disk.alt == Whole(k) && disk.verified && disk.count == 0 && disk.attempts == 0)
      ensures !ok ==> disk.pending == old(disk.pending)
    {
      var pc := 0;
      while pc < INSTALL_STEPS
        invariant pc <= INSTALL_STEPS && pc <= failsAt
        invariant disk.sd == old(disk.sd)
        invariant pc == 0 ==> disk == old(disk)
        invariant 1 <= pc <= 5 ==> disk.ab.Committed?
        invariant pc == 3 ==> disk.alt == landed
        invariant pc >= 4 ==> disk.alt == landed == Whole(k) && disk.verified
        invariant pc >= 5 ==> disk.count == 0
        invariant pc >= 6 ==> disk.ab.Trial? && disk.attempts == 0
        invariant disk.pending == if pc == 7 then Some(k) else old(disk.pending)
      {
        if pc == failsAt {
          return false;
        }
        var next := InstallStep(disk, pc, k, landed);
        if next.None? {
          return false;
        }
        disk := next.value;
        pc := pc + 1;
      }
      return true;
    }

    /**
     * Nothing happens outside a trial boot or before the copy; a failure after the copy and
     * before the state line leaves a trial that rolls back onto the same kernel.
     */
    method Confirm(slot: Slot, failsAt: nat) returns (ok: bool)
      modifies this
      ensures disk.alt == old(disk.alt) && disk.verified == old(disk.verified) && disk.attempts == old(disk.attempts)
      ensures !slot.TrialSlot? ==> ok && disk == old(disk)
      ensures slot.TrialSlot? ==> (ok <==> failsAt >= CONFIRM_STEPS)
      ensures slot.TrialSlot? && ok ==>
        disk == old(disk).(sd := old(disk.alt), ab := Committed, count := 0, pending := None)
      ensures !ok && failsAt == 0 ==> disk == old(disk)
      ensures !ok && failsAt == 1 ==> disk == old(disk).(sd := Torn)
      ensures !ok && failsAt >= 2 ==> disk.sd == old(disk.alt)
      ensures !ok && failsAt <= 2 ==> disk.ab == old(disk.ab) && disk.count == old(disk.count)
    {
      if !slot.TrialSlot? {
        return true;
      }
      var pc := 0;
      while pc < CONFIRM_STEPS
        invariant pc <= CONFIRM_STEPS && pc <= failsAt
        invariant disk == old(disk).(
          sd := if pc == 0 then old(disk.sd) else if pc == 1 then Torn else old(disk.alt),
          ab := if pc >= 3 then Committed else old(disk.ab),
          count := if pc >= 4 then 0 else old(disk.count),
          pending := if pc >= 5 then None else old(disk.pending))
      {
        if pc == failsAt {
          return false;
        }
        disk := ConfirmStep(disk, pc);
        pc := pc + 1;
      }
      return true;
    }
  }
}
