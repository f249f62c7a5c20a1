/**
 * The bridge transaction and its dead-man: capture, durable snapshot, durable marker, mutate,
 * verify three gates, then one compare-and-swap decides between the transaction and the
 * watchdog. Every atomic action is a step; the process can die between any two of them, and the
 * next process restores from the marker before it serves anything.
 *
 * The transaction's commands run on a context whose deadline is set before the watchdog's timer
 * is, to the same window. So once the watchdog can fire no command of the transaction changes a
 * link any more; only its file writes, which take no context, can still land.
 */
module Deadman {
  import opened Wrappers

  /**
   * What the protocol needs to know of the links `L` and the uplink file `F`: which change of
   * links an enable or a disable may make; which links a transaction can reach from its capture,
   * restores cut short included; what a restore without an error leaves; when that is not the
   * capture; and what the operation writes into the file.
   */
  datatype Rules<!L, !F> = Rules(
    may: (bool, L, L, L) -> bool,
    reached: (L, L) -> bool,
    restored: (L, L) -> L,
    doomed: (L, L) -> bool,
    target: bool -> F)

  ghost predicate Lawful<L(!new), F>(k: Rules<L, F>) {
    && (forall b :: k.reached(b, b))
    && (forall e, b, d, t :: k.reached(b, d) && k.may(e, b, d, t) ==> k.reached(b, t))
    && (forall b, d :: k.reached(b, d) ==>
          && k.reached(b, k.restored(b, d))
          && (k.restored(b, d) == b <==> !k.doomed(b, d))
          && k.doomed(b, k.restored(b, d)) == k.doomed(b, d))
  }

  datatype Device<L, F> = Device(links: L, file: F)

  /** What a restore of the links that did not get through can leave. */
  ghost predicate Partial<L(!new), F>(s: State<L, F>, leaves: L) {
    && s.k.reached(s.base.links, leaves)
    && s.k.doomed(s.base.links, leaves) == s.k.doomed(s.base.links, s.device.links)
  }

  datatype Gates = Gates(address: bool, gateway: bool, inbound: bool) {
    predicate Passed() { address && gateway && inbound }
  }

  const NO_GATES := Gates(false, false, false)

  datatype Actor = ByTxn | ByWatch | ByRecovery

  datatype Outcome = Applied(enabled: bool) | RolledBack | Failed

  datatype Record = Record(author: Actor, outcome: Outcome, gates: Gates)

  /** An atomic file write or removal: done, not done, or done and then reported as failed. */
  datatype Io = Lands | Fails | LandsWithError

  datatype Want = Commit | Rollback

  datatype Txn =
    | Idle
    | Captured
    | Saved
    | Mutating
    | Claiming(want: Want)
    | Stopping(want: Want, owned: bool)
    | Joining(want: Want, owned: bool)
    | RestoringFile
    | RestoringLinks(fileOk: bool)
    | Recording(outcome: Outcome)
    | Clearing

  datatype Watch =
    | Absent
    | Selecting
    | Fired
    | Claimed
    | WatchFile
    | WatchLinks(fileOk: bool)
    | WatchRecording(ok: bool)
    | WatchClearing
    | Done(won: bool)

  datatype Server =
    | Dead
    | Checking
    | RecoverFile
    | RecoverLinks(fileOk: bool)
    | RecoverRecording(ok: bool)
    | RecoverClearing
    | Serving

  datatype Disk<D> = Disk(snapshot: Option<D>, marker: bool, lkg: Option<Record>)

  /**
   * `expired` is the transaction's context. `base` is what this transaction captured, `verified`
   * what passed its gates, and `origin` the links that the last restore of links started from.
   * `records` holds the outcomes written since the transaction began. `settled` is the device the
   * last recorded outcome stands for, None when that outcome is a failed rollback, and `lossy`
   * whether it was a rollback that could not put those links back. `late` is what the transaction
   * wrote into the file after the watchdog had restored it; it lasts until the next marker or
   * recovery.
   */
  datatype State<!L, !F> = State(
    k: Rules<L, F>, device: Device<L, F>, disk: Disk<Device<L, F>>, server: Server,
    txn: Txn, watch: Watch, taken: bool, stopped: bool, expired: bool,
    enabling: bool, base: Device<L, F>, gates: Gates, verified: Device<L, F>, origin: L,
    records: seq<Record>, settled: Option<Device<L, F>>, lossy: bool, late: Option<F>)

  datatype TxnStep<L> =
    | Begin(enabling: bool)
    | SaveSnapshot(io: Io)
    | Arm(io: Io)
    | Expire
    | Relink(to: L)
    | WriteFile
    | GiveUp
    | Verify(gates: Gates)
    | Take
    | CloseStop
    | Join
    | RestoreFile(io: Io)
    | RestoreLinks(ok: bool, leaves: L)
    | RecordOutcome(io: Io)
    | ClearMarker(io: Io)

  datatype WatchStep<L> =
    | SeeStop
    | Fire
    | WatchTake
    | WatchReads(ok: bool)
    | WatchRestoresFile(io: Io)
    | WatchRestoresLinks(ok: bool, leaves: L)
    | WatchRecords(io: Io)
    | WatchClears(io: Io)

  datatype RecoverStep<L> =
    | Start
    | CheckMarker(ok: bool)
    | RecoversFile(io: Io)
    | RecoversLinks(ok: bool, leaves: L)
    | RecoverRecords(io: Io)
    | RecoverClears(io: Io)

  datatype Event<L> = OnTxn(t: TxnStep<L>) | OnWatch(w: WatchStep<L>) | OnRecover(r: RecoverStep<L>) | Crash(leaves: L)

  // The transaction. A restore puts the file back first and then the links; one of the links
  // without an error leaves what the rules say, one with errors or cut short by a crash anything
  // that can be reached from the capture. Steps that change nothing the model keeps are left out.

  ghost predicate TxnEnabled<L(!new), F>(s: State<L, F>, t: TxnStep<L>) {
    s.server.Serving? &&
    match t
    case Begin(_) => s.txn.Idle?
    case SaveSnapshot(_) => s.txn.Captured?
    case Arm(_) => s.txn.Saved?
    case Expire => !s.txn.Idle?
    case Relink(to) => s.txn.Mutating? && !s.expired && s.k.may(s.enabling, s.base.links, s.device.links, to)
    case WriteFile => s.txn.Mutating?
    case GiveUp => s.txn.Mutating?
    case Verify(_) => s.txn.Mutating?
    case Take => s.txn.Claiming?
    case CloseStop => s.txn.Stopping?
    case Join => s.txn.Joining? && s.watch.Done?
    case RestoreFile(_) => s.txn.RestoringFile?
    case RestoreLinks(_, leaves) => s.txn.RestoringLinks? && Partial(s, leaves)
    case RecordOutcome(_) => s.txn.Recording?
    case ClearMarker(_) => s.txn.Clearing?
  }

  predicate WatchWon(w: Watch) { WatchHolds(w) || (w.Done? && w.won) }

  /** The watchdog still has its marker to clear. */
  predicate WatchHolds(w: Watch) {
    w.Claimed? || w.WatchFile? || w.WatchLinks? || w.WatchRecording? || w.WatchClearing?
  }

  /** The watchdog has been past the file. */
  predicate PastFile(w: Watch) { w.WatchLinks? || w.WatchRecording? || w.WatchClearing? || (w.Done? && w.won) }

  /** Recording writes the outcome; an error of any kind leaves the marker in place. */
  ghost function Recorded<L(!new), F>(s: State<L, F>, r: Record, io: Io, device: Device<L, F>): (next: State<L, F>)
    ensures next.k == s.k
  {
    if io.Fails? then s
    else s.(
      disk := s.disk.(lkg := Some(r)), records := s.records + [r],
      settled := if r.outcome.Failed? then None else Some(device),
      lossy := r.outcome.RolledBack? && s.k.doomed(s.base.links, s.origin))
  }

  ghost function Cleared<L(!new), F>(s: State<L, F>, io: Io): State<L, F> {
    if io.Fails? then s else s.(disk := s.disk.(marker := false))
  }

  ghost function FileRestored<L(!new), F>(s: State<L, F>, io: Io): State<L, F> {
    if io.Fails? then s else s.(device := s.device.(file := s.base.file))
  }

  ghost function LinksRestored<L(!new), F>(s: State<L, F>, ok: bool, leaves: L): State<L, F> {
    s.(device := s.device.(links := if ok then s.k.restored(s.base.links, s.device.links) else leaves),
       origin := s.device.links)
  }

  ghost function TxnNext<L(!new), F>(s: State<L, F>, t: TxnStep<L>): (next: State<L, F>)
    requires TxnEnabled(s, t)
    ensures next.k == s.k
  {
    match t
    case Begin(enabling) =>
      s.(txn := Captured, watch := Absent, taken := false, stopped := false, expired := false,
         enabling := enabling, base := s.device, gates := NO_GATES, records := [])
    case SaveSnapshot(io) =>
      s.(disk := if io.Fails? then s.disk else s.disk.(snapshot := Some(s.base)),
         txn := if io.Lands? then Saved else Idle)
    case Arm(io) =>
      s.(disk := if io.Fails? then s.disk else s.disk.(marker := true),
         txn := if io.Lands? then Mutating else Idle,
         watch := if io.Lands? then Selecting else Absent,
         late := if io.Fails? then s.late else None)
    case Expire => s.(expired := true)
    case Relink(to) => s.(device := s.device.(links := to))
    case WriteFile =>
      var written := s.k.target(s.enabling);
      s.(device := s.device.(file := written), late := if PastFile(s.watch) then Some(written) else s.late)
    case GiveUp => s.(txn := Claiming(Rollback))
    case Verify(gates) =>
      s.(gates := gates, verified := s.device, txn := Claiming(if gates.Passed() then Commit else Rollback))
    case Take => s.(taken := true, txn := Stopping(s.txn.want, !s.taken))
    case CloseStop => s.(stopped := true, txn := Joining(s.txn.want, s.txn.owned))
    case Join =>
      s.(txn :=
        if !s.txn.owned then Idle
        else if s.txn.want.Commit? then Recording(Applied(s.enabling))
        else RestoringFile)
    case RestoreFile(io) => FileRestored(s, io).(txn := RestoringLinks(io.Lands?))
    case RestoreLinks(ok, leaves) =>
      LinksRestored(s, ok, leaves).(txn := Recording(if ok && s.txn.fileOk then RolledBack else Failed))
    case RecordOutcome(io) =>
      var o := s.txn.outcome;
      Recorded(s, Record(ByTxn, o, s.gates), io, if o.Applied? then s.verified else s.base).(
        txn := if io.Lands? then Clearing else Idle)
    case ClearMarker(io) => Cleared(s, io).(txn := Idle)
  }

  // The watchdog. Its own read of the snapshot can fail, and then it ends with nothing done.

  ghost predicate WatchEnabled<L(!new), F>(s: State<L, F>, w: WatchStep<L>) {
    s.server.Serving? &&
    match w
    case SeeStop => s.watch.Selecting? && s.stopped
    case Fire => s.watch.Selecting? && s.expired
    case WatchTake => s.watch.Fired?
    case WatchReads(_) => s.watch.Claimed?
    case WatchRestoresFile(_) => s.watch.WatchFile?
    case WatchRestoresLinks(_, leaves) => s.watch.WatchLinks? && Partial(s, leaves)
    case WatchRecords(_) => s.watch.WatchRecording?
    case WatchClears(_) => s.watch.WatchClearing?
  }

  ghost function WatchNext<L(!new), F>(s: State<L, F>, w: WatchStep<L>): (next: State<L, F>)
    requires WatchEnabled(s, w)
    ensures next.k == s.k
  {
    match w
    case SeeStop => s.(watch := Done(false))
    case Fire => s.(watch := Fired)
    case WatchTake => s.(taken := true, watch := if s.taken then Done(false) else Claimed)
    case WatchReads(ok) => s.(watch := if ok && s.disk.snapshot.Some? then WatchFile else Done(true))
    case WatchRestoresFile(io) => FileRestored(s, io).(watch := WatchLinks(io.Lands?))
    case WatchRestoresLinks(ok, leaves) =>
      LinksRestored(s, ok, leaves).(watch := WatchRecording(ok && s.watch.fileOk))
    case WatchRecords(io) =>
      Recorded(s, Record(ByWatch, if s.watch.ok then RolledBack else Failed, NO_GATES), io, s.base).(
        watch := if io.Lands? then WatchClearing else Done(true))
    case WatchClears(io) => Cleared(s, io).(watch := Done(true))
  }

  // Start-up, before any route is served.

  ghost predicate RecoverEnabled<L(!new), F>(s: State<L, F>, r: RecoverStep<L>) {
    match r
    case Start => s.server.Dead?
    case CheckMarker(_) => s.server.Checking?
    case RecoversFile(_) => s.server.RecoverFile?
    case RecoversLinks(_, leaves) => s.server.RecoverLinks? && Partial(s, leaves)
    case RecoverRecords(_) => s.server.RecoverRecording?
    case RecoverClears(_) => s.server.RecoverClearing?
  }

  ghost function RecoverNext<L(!new), F>(s: State<L, F>, r: RecoverStep<L>): (next: State<L, F>)
    requires RecoverEnabled(s, r)
    ensures next.k == s.k
  {
    match r
    case Start => s.(server := Checking)
    case CheckMarker(ok) =>
      if ok && s.disk.marker && s.disk.snapshot.Some?
      then s.(server := RecoverFile, base := s.disk.snapshot.value, records := [], late := None)
      else s.(server := Serving)
    case RecoversFile(io) => FileRestored(s, io).(server := RecoverLinks(io.Lands?))
    case RecoversLinks(ok, leaves) =>
      LinksRestored(s, ok, leaves).(server := RecoverRecording(ok && s.server.fileOk))
    case RecoverRecords(io) =>
      Recorded(s, Record(ByRecovery, if s.server.ok then RolledBack else Failed, NO_GATES), io, s.base).(
        server := if io.Lands? then RecoverClearing else Serving)
    case RecoverClears(io) => Cleared(s, io).(server := Serving)
  }

  ghost predicate MidLinks<L(!new), F>(s: State<L, F>) {
    s.txn.RestoringLinks? || s.watch.WatchLinks? || s.server.RecoverLinks?
  }

  ghost predicate Enabled<L(!new), F>(s: State<L, F>, e: Event<L>) {
    match e
    case OnTxn(t) => TxnEnabled(s, t)
    case OnWatch(w) => WatchEnabled(s, w)
    case OnRecover(r) => RecoverEnabled(s, r)
    case Crash(leaves) =>
      !s.server.Dead? && if MidLinks(s) then Partial(s, leaves) else leaves == s.device.links
  }

  ghost function Step<L(!new), F>(s: State<L, F>, e: Event<L>): (next: State<L, F>)
    requires Enabled(s, e)
    ensures next.k == s.k
  {
    match e
    case OnTxn(t) => TxnNext(s, t)
    case OnWatch(w) => WatchNext(s, w)
    case OnRecover(r) => RecoverNext(s, r)
    case Crash(leaves) =>
      s.(device := s.device.(links := leaves),
         server := Dead, txn := Idle, watch := Absent, taken := false, stopped := false)
  }

  ghost function Exec<L(!new), F>(s: State<L, F>, events: seq<Event<L>>): Option<State<L, F>>
    decreases |events|
  {
    if events == [] then Some(s)
    else if !Enabled(s, events[0]) then None
    else Exec(Step(s, events[0]), events[1..])
  }

  ghost predicate Init<L(!new), F>(s: State<L, F>) {
    && s.server.Serving? && s.txn.Idle? && s.watch.Absent? && !s.taken && !s.stopped && s.late.None?
    && s.disk == Disk(None, false, None) && s.records == []
    && s.settled == Some(s.device) && !s.lossy && Lawful(s.k)
  }

  // The invariant, by concern.

  predicate Armed(t: Txn) { !t.Idle? && !t.Captured? && !t.Saved? }

  /** Past the join, so the watchdog is over. */
  predicate Alone(t: Txn) { t.RestoringFile? || t.RestoringLinks? || t.Recording? || t.Clearing? }

  predicate TxnOwns(t: Txn) { (t.Stopping? && t.owned) || (t.Joining? && t.owned) || Alone(t) }

  /**
   * The claim is taken exactly when one side has it, never by both; past the join the watchdog is
   * over; and it does not fire before the transaction's context has expired.
   */
  ghost predicate OneClaim<L(!new), F>(s: State<L, F>) {
    && (Armed(s.txn) ==> s.taken == (TxnOwns(s.txn) || WatchWon(s.watch)) && !s.watch.Absent?)
    && !(TxnOwns(s.txn) && WatchWon(s.watch))
    && (s.txn.Idle? ==> s.watch.Absent? || s.watch.Done?)
    && (s.txn.Captured? || s.txn.Saved? ==> s.watch.Absent? && !s.taken && !s.stopped)
    && (s.txn.Stopping? && !s.txn.owned ==> WatchWon(s.watch))
    && (s.txn.Joining? ==> s.stopped && (!s.txn.owned ==> WatchWon(s.watch)))
    && (Alone(s.txn) ==> s.watch == Done(false))
    && (Armed(s.txn) && (s.watch.Fired? || WatchWon(s.watch)) ==> s.expired)
  }

  ghost predicate ServerOk<L(!new), F>(s: State<L, F>) { !s.server.Serving? ==> s.txn.Idle? && s.watch.Absent? }

  predicate Restarting(r: Server) { r.RecoverFile? || r.RecoverLinks? || r.RecoverRecording? || r.RecoverClearing? }

  /** A marker always names a complete snapshot, and in the armed window this transaction's own. */
  ghost predicate MarkerOk<L(!new), F>(s: State<L, F>) {
    && (s.disk.marker ==> s.disk.snapshot.Some?)
    && (s.txn.Saved? ==> s.disk.snapshot == Some(s.base))
    && (Armed(s.txn) ==> s.disk.snapshot == Some(s.base))
    && (Armed(s.txn) && (!WatchWon(s.watch) || WatchHolds(s.watch)) ==> s.disk.marker)
    && (Restarting(s.server) ==> s.disk.marker && s.disk.snapshot == Some(s.base))
  }

  /** Which record may be written: an applied outcome needs the claim and all three gates. */
  ghost predicate GatesOk<L(!new), F>(s: State<L, F>) {
    && (s.txn.Claiming? && s.txn.want.Commit? ==> s.gates.Passed())
    && (s.txn.Stopping? && s.txn.want.Commit? ==> s.gates.Passed())
    && (s.txn.Joining? && s.txn.want.Commit? ==> s.gates.Passed())
    && (s.txn.Recording? && s.txn.outcome.Applied? ==> s.gates.Passed())
  }

  predicate RecordSound(r: Record) { r.outcome.Applied? ==> r.author.ByTxn? && r.gates.Passed() }

  ghost predicate RecordsOk<L(!new), F>(s: State<L, F>) {
    && (s.records != [] ==> RecordSound(s.records[0]))
    && (s.disk.lkg.Some? ==> RecordSound(s.disk.lkg.value))
    && (Armed(s.txn) && !s.txn.Clearing? && !WatchWon(s.watch) ==> s.records == [])
    && (s.txn.Captured? || s.txn.Saved? ==> s.records == [])
    && (WatchHolds(s.watch) && !s.watch.WatchClearing? ==> s.records == [])
    && (Restarting(s.server) && !s.server.RecoverClearing? ==> s.records == [])
    && |s.records| <= 1
    && (s.records != [] && s.records[0].outcome.Applied? ==> s.txn.Clearing? || s.txn.Idle?)
  }

  ghost predicate Control<L(!new), F>(s: State<L, F>) {
    OneClaim(s) && ServerOk(s) && MarkerOk(s) && GatesOk(s) && RecordsOk(s)
  }

  /** With a marker on disk the links are some its snapshot can be restored from. */
  ghost predicate ReachOk<L(!new), F>(s: State<L, F>) {
    && (s.disk.marker && s.disk.snapshot.Some? ==> s.k.reached(s.disk.snapshot.value.links, s.device.links))
    && (s.txn.Captured? || s.txn.Saved? ==> s.device == s.base)
  }

  /** A restore of the links without an error has just ended. */
  ghost predicate JustRestored<L(!new), F>(s: State<L, F>) {
    s.device.links == s.k.restored(s.base.links, s.origin) && s.k.reached(s.base.links, s.origin)
  }

  /** The links are what the last outcome stands for, but for a lossy rollback, when they are not. */
  ghost predicate LinksMatch<L(!new), F>(s: State<L, F>) {
    s.settled.Some? ==> (s.device.links == s.settled.value.links <==> !s.lossy)
  }

  ghost predicate LinksOk<L(!new), F>(s: State<L, F>) {
    && (!s.disk.marker || s.txn.Clearing? || s.watch.WatchClearing? || s.server.RecoverClearing? ==> LinksMatch(s))
    && (s.watch == WatchRecording(true) || s.server == RecoverRecording(true) || s.txn == Recording(RolledBack) ==>
          JustRestored(s))
  }

  /** What the file holds if the given content was last put there by an outcome. */
  ghost function WithLate<L(!new), F>(s: State<L, F>, file: F): F { if s.late.Some? then s.late.value else file }

  ghost predicate FileMatches<L(!new), F>(s: State<L, F>) {
    s.settled.Some? ==> s.device.file == WithLate(s, s.settled.value.file)
  }

  ghost predicate FileOk<L(!new), F>(s: State<L, F>) {
    && (!s.disk.marker || s.txn.Clearing? || s.watch.WatchClearing? || s.server.RecoverClearing? ==> FileMatches(s))
    && (s.watch == WatchLinks(true) || s.watch == WatchRecording(true) ==> s.device.file == WithLate(s, s.base.file))
    && (s.txn == RestoringLinks(true) || s.txn == Recording(RolledBack) ==> s.device.file == s.base.file)
    && (s.server == RecoverLinks(true) || s.server == RecoverRecording(true) ==> s.device.file == s.base.file)
    && (Armed(s.txn) && !PastFile(s.watch) ==> s.late.None?)
    && (Restarting(s.server) ==> s.late.None?)
  }

  /** Until the watchdog claims, what was verified stays. */
  ghost predicate VerifiedOk<L(!new), F>(s: State<L, F>) {
    !WatchWon(s.watch) ==>
      && (s.txn.Claiming? && s.txn.want.Commit? ==> s.device == s.verified)
      && (s.txn.Stopping? && s.txn.want.Commit? ==> s.device == s.verified)
      && (s.txn.Joining? && s.txn.want.Commit? ==> s.device == s.verified)
      && (s.txn.Recording? && s.txn.outcome.Applied? ==> s.device == s.verified)
  }

  /** What the one outcome of this transaction stands for. */
  ghost predicate LastOk<L(!new), F>(s: State<L, F>) {
    s.records != [] ==>
      && (s.records[0].outcome.Applied? ==> s.settled == Some(s.verified) && !s.lossy && s.late.None?)
      && (s.records[0].outcome.RolledBack? ==>
            s.settled == Some(s.base) && s.lossy == s.k.doomed(s.base.links, s.origin) && JustRestored(s))
  }

  ghost predicate Data<L(!new), F>(s: State<L, F>) {
    ReachOk(s) && LinksOk(s) && FileOk(s) && VerifiedOk(s) && LastOk(s)
  }

  ghost predicate Inv<L(!new), F>(s: State<L, F>) { Lawful(s.k) && Control(s) && Data(s) }

  // Each concern is kept by each side on its own.

  lemma TxnBeginKeepsControl<L(!new), F>(s: State<L, F>, enabling: bool)
    requires Control(s) && TxnEnabled(s, Begin(enabling))
    ensures Control(TxnNext(s, Begin(enabling)))
  {
  }

  lemma TxnBeginKeepsData<L(!new), F>(s: State<L, F>, enabling: bool)
    requires Inv(s) && TxnEnabled(s, Begin(enabling))
    ensures Data(TxnNext(s, Begin(enabling)))
  {
  }

  lemma TxnSaveKeepsControl<L(!new), F>(s: State<L, F>, io: Io)
    requires Control(s) && TxnEnabled(s, SaveSnapshot(io))
    ensures Control(TxnNext(s, SaveSnapshot(io)))
  {
  }

  lemma TxnSaveKeepsData<L(!new), F>(s: State<L, F>, io: Io)
    requires Inv(s) && TxnEnabled(s, SaveSnapshot(io))
    ensures Data(TxnNext(s, SaveSnapshot(io)))
  {
  }

  lemma TxnArmKeepsControl<L(!new), F>(s: State<L, F>, io: Io)
    requires Control(s) && TxnEnabled(s, Arm(io))
    ensures Control(TxnNext(s, Arm(io)))
  {
  }

  lemma TxnArmKeepsData<L(!new), F>(s: State<L, F>, io: Io)
    requires Inv(s) && TxnEnabled(s, Arm(io))
    ensures Data(TxnNext(s, Arm(io)))
  {
  }

  lemma TxnRelinkKeepsControl<L(!new), F>(s: State<L, F>, to: L)
    requires Control(s) && TxnEnabled(s, Relink(to))
    ensures Control(TxnNext(s, Relink(to)))
  {
  }

  lemma TxnRelinkKeepsData<L(!new), F>(s: State<L, F>, to: L)
    requires Inv(s) && TxnEnabled(s, Relink(to))
    ensures Data(TxnNext(s, Relink(to)))
  {
  }

  lemma TxnWriteKeepsControl<L(!new), F>(s: State<L, F>)
    requires Control(s) && TxnEnabled(s, WriteFile)
    ensures Control(TxnNext(s, WriteFile))
  {
  }

  lemma TxnWriteKeepsData<L(!new), F>(s: State<L, F>)
    requires Inv(s) && TxnEnabled(s, WriteFile)
    ensures Data(TxnNext(s, WriteFile))
  {
  }

  lemma TxnFileKeepsControl<L(!new), F>(s: State<L, F>, io: Io)
    requires Control(s) && TxnEnabled(s, RestoreFile(io))
    ensures Control(TxnNext(s, RestoreFile(io)))
  {
  }

  lemma TxnFileKeepsData<L(!new), F>(s: State<L, F>, io: Io)
    requires Inv(s) && TxnEnabled(s, RestoreFile(io))
    ensures Data(TxnNext(s, RestoreFile(io)))
  {
  }

  lemma TxnLinksKeepsControl<L(!new), F>(s: State<L, F>, ok: bool, leaves: L)
    requires Control(s) && TxnEnabled(s, RestoreLinks(ok, leaves))
    ensures Control(TxnNext(s, RestoreLinks(ok, leaves)))
  {
  }

  lemma TxnLinksKeepsData<L(!new), F>(s: State<L, F>, ok: bool, leaves: L)
    requires Inv(s) && TxnEnabled(s, RestoreLinks(ok, leaves))
    ensures Data(TxnNext(s, RestoreLinks(ok, leaves)))
  {
  }

  lemma TxnRecordKeepsControl<L(!new), F>(s: State<L, F>, io: Io)
    requires Control(s) && TxnEnabled(s, RecordOutcome(io))
    ensures Control(TxnNext(s, RecordOutcome(io)))
  {
  }

  lemma TxnRecordKeepsData<L(!new), F>(s: State<L, F>, io: Io)
    requires Inv(s) && TxnEnabled(s, RecordOutcome(io))
    ensures Data(TxnNext(s, RecordOutcome(io)))
  {
  }

  lemma TxnClearKeepsControl<L(!new), F>(s: State<L, F>, io: Io)
    requires Control(s) && TxnEnabled(s, ClearMarker(io))
    ensures Control(TxnNext(s, ClearMarker(io)))
  {
  }

  lemma TxnClearKeepsData<L(!new), F>(s: State<L, F>, io: Io)
    requires Inv(s) && TxnEnabled(s, ClearMarker(io))
    ensures Data(TxnNext(s, ClearMarker(io)))
  {
  }

  ghost predicate Quiet<L>(t: TxnStep<L>) {
    t.Expire? || t.GiveUp? || t.Verify? || t.Take? || t.CloseStop? || t.Join?
  }

  lemma QuietKeepsControl<L(!new), F>(s: State<L, F>, t: TxnStep<L>)
    requires Control(s) && TxnEnabled(s, t) && Quiet(t)
    ensures Control(TxnNext(s, t))
  {
  }

  lemma VerdictKeepsData<L(!new), F>(s: State<L, F>, t: TxnStep<L>)
    requires Inv(s) && TxnEnabled(s, t) && (t.Expire? || t.GiveUp? || t.Verify?)
    ensures Data(TxnNext(s, t))
  {
  }

  lemma DisarmKeepsData<L(!new), F>(s: State<L, F>, t: TxnStep<L>)
    requires Inv(s) && TxnEnabled(s, t) && (t.Take? || t.CloseStop? || t.Join?)
    ensures Data(TxnNext(s, t))
  {
  }

  lemma WatchFileKeepsControl<L(!new), F>(s: State<L, F>, io: Io)
    requires Control(s) && WatchEnabled(s, WatchRestoresFile(io))
    ensures Control(WatchNext(s, WatchRestoresFile(io)))
  {
  }

  lemma WatchFileKeepsData<L(!new), F>(s: State<L, F>, io: Io)
    requires Inv(s) && WatchEnabled(s, WatchRestoresFile(io))
    ensures Data(WatchNext(s, WatchRestoresFile(io)))
  {
  }

  lemma WatchLinksKeepsControl<L(!new), F>(s: State<L, F>, ok: bool, leaves: L)
    requires Control(s) && WatchEnabled(s, WatchRestoresLinks(ok, leaves))
    ensures Control(WatchNext(s, WatchRestoresLinks(ok, leaves)))
  {
  }

  lemma WatchLinksKeepsData<L(!new), F>(s: State<L, F>, ok: bool, leaves: L)
    requires Inv(s) && WatchEnabled(s, WatchRestoresLinks(ok, leaves))
    ensures Data(WatchNext(s, WatchRestoresLinks(ok, leaves)))
  {
  }

  lemma WatchRecordsKeepsControl<L(!new), F>(s: State<L, F>, io: Io)
    requires Control(s) && WatchEnabled(s, WatchRecords(io))
    ensures Control(WatchNext(s, WatchRecords(io)))
  {
  }

  lemma WatchRecordsKeepsData<L(!new), F>(s: State<L, F>, io: Io)
    requires Inv(s) && WatchEnabled(s, WatchRecords(io))
    ensures Data(WatchNext(s, WatchRecords(io)))
  {
  }

  lemma WatchClearsKeepsControl<L(!new), F>(s: State<L, F>, io: Io)
    requires Control(s) && WatchEnabled(s, WatchClears(io))
    ensures Control(WatchNext(s, WatchClears(io)))
  {
  }

  lemma WatchClearsKeepsData<L(!new), F>(s: State<L, F>, io: Io)
    requires Inv(s) && WatchEnabled(s, WatchClears(io))
    ensures Data(WatchNext(s, WatchClears(io)))
  {
  }

  ghost predicate Claims<L>(w: WatchStep<L>) { w.SeeStop? || w.Fire? || w.WatchTake? || w.WatchReads? }

  lemma WatchClaimKeepsControl<L(!new), F>(s: State<L, F>, w: WatchStep<L>)
    requires Control(s) && WatchEnabled(s, w) && Claims(w)
    ensures Control(WatchNext(s, w))
  {
  }

  lemma WatchClaimKeepsData<L(!new), F>(s: State<L, F>, w: WatchStep<L>)
    requires Inv(s) && WatchEnabled(s, w) && Claims(w)
    ensures Data(WatchNext(s, w))
  {
  }

  lemma RecoverStartKeepsControl<L(!new), F>(s: State<L, F>)
    requires Control(s) && RecoverEnabled(s, Start)
    ensures Control(RecoverNext(s, Start))
  {
  }

  lemma RecoverStartKeepsData<L(!new), F>(s: State<L, F>)
    requires Inv(s) && RecoverEnabled(s, Start)
    ensures Data(RecoverNext(s, Start))
  {
  }

  lemma RecoverCheckKeepsControl<L(!new), F>(s: State<L, F>, ok: bool)
    requires Control(s) && RecoverEnabled(s, CheckMarker(ok))
    ensures Control(RecoverNext(s, CheckMarker(ok)))
  {
  }

  lemma RecoverCheckKeepsData<L(!new), F>(s: State<L, F>, ok: bool)
    requires Inv(s) && RecoverEnabled(s, CheckMarker(ok))
    ensures Data(RecoverNext(s, CheckMarker(ok)))
  {
  }

  lemma RecoverFileKeepsControl<L(!new), F>(s: State<L, F>, io: Io)
    requires Control(s) && RecoverEnabled(s, RecoversFile(io))
    ensures Control(RecoverNext(s, RecoversFile(io)))
  {
  }

  lemma RecoverFileKeepsData<L(!new), F>(s: State<L, F>, io: Io)
    requires Inv(s) && RecoverEnabled(s, RecoversFile(io))
    ensures Data(RecoverNext(s, RecoversFile(io)))
  {
  }

  lemma RecoverLinksKeepsControl<L(!new), F>(s: State<L, F>, ok: bool, leaves: L)
    requires Control(s) && RecoverEnabled(s, RecoversLinks(ok, leaves))
    ensures Control(RecoverNext(s, RecoversLinks(ok, leaves)))
  {
  }

  lemma RecoverLinksKeepsData<L(!new), F>(s: State<L, F>, ok: bool, leaves: L)
    requires Inv(s) && RecoverEnabled(s, RecoversLinks(ok, leaves))
    ensures Data(RecoverNext(s, RecoversLinks(ok, leaves)))
  {
  }

  lemma RecoverRecordsKeepsControl<L(!new), F>(s: State<L, F>, io: Io)
    requires Control(s) && RecoverEnabled(s, RecoverRecords(io))
    ensures Control(RecoverNext(s, RecoverRecords(io)))
  {
  }

  lemma RecoverRecordsKeepsData<L(!new), F>(s: State<L, F>, io: Io)
    requires Inv(s) && RecoverEnabled(s, RecoverRecords(io))
    ensures Data(RecoverNext(s, RecoverRecords(io)))
  {
  }

  lemma RecoverClearsKeepsControl<L(!new), F>(s: State<L, F>, io: Io)
    requires Control(s) && RecoverEnabled(s, RecoverClears(io))
    ensures Control(RecoverNext(s, RecoverClears(io)))
  {
  }

  lemma RecoverClearsKeepsData<L(!new), F>(s: State<L, F>, io: Io)
    requires Inv(s) && RecoverEnabled(s, RecoverClears(io))
    ensures Data(RecoverNext(s, RecoverClears(io)))
  {
  }

  lemma TxnKeepsControl<L(!new), F>(s: State<L, F>, t: TxnStep<L>)
    requires Control(s) && TxnEnabled(s, t)
    ensures Control(TxnNext(s, t))
  {
    match t
    case Begin(enabling) => TxnBeginKeepsControl(s, enabling);
    case SaveSnapshot(io) => TxnSaveKeepsControl(s, io);
    case Arm(io) => TxnArmKeepsControl(s, io);
    case Relink(to) => TxnRelinkKeepsControl(s, to);
    case WriteFile => TxnWriteKeepsControl(s);
    case RestoreFile(io) => TxnFileKeepsControl(s, io);
    case RestoreLinks(ok, leaves) => TxnLinksKeepsControl(s, ok, leaves);
    case RecordOutcome(io) => TxnRecordKeepsControl(s, io);
    case ClearMarker(io) => TxnClearKeepsControl(s, io);
    case _ => QuietKeepsControl(s, t);
  }

  lemma TxnKeepsData<L(!new), F>(s: State<L, F>, t: TxnStep<L>)
    requires Inv(s) && TxnEnabled(s, t)
    ensures Data(TxnNext(s, t))
  {
    match t
    case Begin(enabling) => TxnBeginKeepsData(s, enabling);
    case SaveSnapshot(io) => TxnSaveKeepsData(s, io);
    case Arm(io) => TxnArmKeepsData(s, io);
    case Relink(to) => TxnRelinkKeepsData(s, to);
    case WriteFile => TxnWriteKeepsData(s);
    case RestoreFile(io) => TxnFileKeepsData(s, io);
    case RestoreLinks(ok, leaves) => TxnLinksKeepsData(s, ok, leaves);
    case RecordOutcome(io) => TxnRecordKeepsData(s, io);
    case ClearMarker(io) => TxnClearKeepsData(s, io);
    case _ => if t.Take? || t.CloseStop? || t.Join? { DisarmKeepsData(s, t); } else { VerdictKeepsData(s, t); }
  }

  lemma WatchKeepsControl<L(!new), F>(s: State<L, F>, w: WatchStep<L>)
    requires Control(s) && WatchEnabled(s, w)
    ensures Control(WatchNext(s, w))
  {
    match w
    case WatchRestoresFile(io) => WatchFileKeepsControl(s, io);
    case WatchRestoresLinks(ok, leaves) => WatchLinksKeepsControl(s, ok, leaves);
    case WatchRecords(io) => WatchRecordsKeepsControl(s, io);
    case WatchClears(io) => WatchClearsKeepsControl(s, io);
    case _ => WatchClaimKeepsControl(s, w);
  }

  lemma WatchKeepsData<L(!new), F>(s: State<L, F>, w: WatchStep<L>)
    requires Inv(s) && WatchEnabled(s, w)
    ensures Data(WatchNext(s, w))
  {
    match w
    case WatchRestoresFile(io) => WatchFileKeepsData(s, io);
    case WatchRestoresLinks(ok, leaves) => WatchLinksKeepsData(s, ok, leaves);
    case WatchRecords(io) => WatchRecordsKeepsData(s, io);
    case WatchClears(io) => WatchClearsKeepsData(s, io);
    case _ => WatchClaimKeepsData(s, w);
  }

  lemma RecoverKeepsControl<L(!new), F>(s: State<L, F>, r: RecoverStep<L>)
    requires Control(s) && RecoverEnabled(s, r)
    ensures Control(RecoverNext(s, r))
  {
    match r
    case Start => RecoverStartKeepsControl(s);
    case CheckMarker(ok) => RecoverCheckKeepsControl(s, ok);
    case RecoversFile(io) => RecoverFileKeepsControl(s, io);
    case RecoversLinks(ok, leaves) => RecoverLinksKeepsControl(s, ok, leaves);
    case RecoverRecords(io) => RecoverRecordsKeepsControl(s, io);
    case RecoverClears(io) => RecoverClearsKeepsControl(s, io);
  }

  lemma RecoverKeepsData<L(!new), F>(s: State<L, F>, r: RecoverStep<L>)
    requires Inv(s) && RecoverEnabled(s, r)
    ensures Data(RecoverNext(s, r))
  {
    match r
    case Start => RecoverStartKeepsData(s);
    case CheckMarker(ok) => RecoverCheckKeepsData(s, ok);
    case RecoversFile(io) => RecoverFileKeepsData(s, io);
    case RecoversLinks(ok, leaves) => RecoverLinksKeepsData(s, ok, leaves);
    case RecoverRecords(io) => RecoverRecordsKeepsData(s, io);
    case RecoverClears(io) => RecoverClearsKeepsData(s, io);
  }

  lemma CrashKeepsInv<L(!new), F>(s: State<L, F>, leaves: L)
    requires Inv(s) && Enabled(s, Crash(leaves))
    ensures Inv(Step(s, Crash(leaves)))
  {
  }

  lemma StepKeepsInv<L(!new), F>(s: State<L, F>, e: Event<L>)
    requires Inv(s) && Enabled(s, e)
    ensures Inv(Step(s, e))
  {
    match e
    case OnTxn(t) =>
      TxnKeepsControl(s, t);
      TxnKeepsData(s, t);
    case OnWatch(w) =>
      WatchKeepsControl(s, w);
      WatchKeepsData(s, w);
    case OnRecover(r) =>
      RecoverKeepsControl(s, r);
      RecoverKeepsData(s, r);
    case Crash(leaves) => CrashKeepsInv(s, leaves);
  }

  lemma {:induction false} EveryRunKeepsInv<L(!new), F>(s: State<L, F>, events: seq<Event<L>>)
    requires Inv(s)
    ensures Exec(s, events).Some? ==> Inv(Exec(s, events).value)
    decreases |events|
  {
    if events != [] && Enabled(s, events[0]) {
      StepKeepsInv(s, events[0]);
      EveryRunKeepsInv(Step(s, events[0]), events[1..]);
    }
  }

  // The results.

  predicate PastTake(t: Txn) { t.Stopping? || t.Joining? || Alone(t) }

  predicate TxnRestores(t: Txn) { t.RestoringFile? || t.RestoringLinks? }

  predicate WatchRestores(w: Watch) { w.WatchFile? || w.WatchLinks? }

  /**
   * Over every run, with any timing of the deadline and any crash: the two sides never both hold
   * the claim, and once the transaction has tried for it exactly one does; their restores never
   * overlap, with each other or with a recovery; a transaction leaves at most one outcome; and
   * an outcome that says applied was written by a transaction whose three gates all passed, while
   * it held the claim and the device still held what was verified.
   */
  lemma {:induction false} OneOutcome<L(!new), F>(s: State<L, F>, events: seq<Event<L>>)
    requires Init(s)
    ensures var r := Exec(s, events);
      r.Some? ==>
        var t := r.value;
        && !(TxnOwns(t.txn) && WatchWon(t.watch))
        && (PastTake(t.txn) ==> TxnOwns(t.txn) != WatchWon(t.watch))
        && !(TxnRestores(t.txn) && WatchRestores(t.watch))
        && (Restarting(t.server) ==> t.txn.Idle? && t.watch.Absent?)
        && |t.records| <= 1
        && (t.disk.lkg.Some? && t.disk.lkg.value.outcome.Applied? ==>
              t.disk.lkg.value.author.ByTxn? && t.disk.lkg.value.gates.Passed())
        && (t.txn.Recording? && t.txn.outcome.Applied? ==>
              t.gates.Passed() && t.device == t.verified && t.watch == Done(false))
  {
    EveryRunKeepsInv(s, events);
  }

  /**
   * From the first change to the durable outcome, until the watchdog claims, a crash finds a
   * marker and this transaction's own snapshot.
   */
  lemma {:induction false} CrashFindsMarker<L(!new), F>(s: State<L, F>, events: seq<Event<L>>)
    requires Init(s)
    ensures var r := Exec(s, events);
      r.Some? ==>
        && (r.value.disk.marker ==> r.value.disk.snapshot.Some?)
        && (Armed(r.value.txn) && !WatchWon(r.value.watch) ==>
              r.value.disk.marker && r.value.disk.snapshot == Some(r.value.base))
        && (WatchHolds(r.value.watch) ==> r.value.disk.marker)
  {
    EveryRunKeepsInv(s, events);
  }

  /**
   * At every point of every run with no marker on disk, late writes or not: the links are what
   * the last outcome stands for if and only if that outcome was not a lossy rollback. The outcome
   * of this transaction or recovery, once written, stands for what passed the gates, which the
   * device then is, file included; or for the capture, which the links are if and only if those
   * the restore began with were not doomed.
   */
  lemma {:induction false} NeverHalfApplied<L(!new), F>(s: State<L, F>, events: seq<Event<L>>)
    requires Init(s)
    ensures var r := Exec(s, events);
      r.Some? && !r.value.disk.marker ==>
        var t := r.value;
        && (t.settled.Some? ==> (t.device.links == t.settled.value.links <==> !t.lossy))
        && (t.records != [] && t.records[0].outcome.Applied? ==> t.device == t.verified)
        && (t.records != [] && t.records[0].outcome.RolledBack? ==>
              (t.device.links == t.base.links <==> !t.k.doomed(t.base.links, t.origin)))
  {
    EveryRunKeepsInv(s, events);
  }

  /**
   * And the file, the one part that can differ: it is what the last outcome stands for if and
   * only if no write landed after the watchdog had restored it, or what was written is that.
   */
  lemma {:induction false} FileAgreesExactlyWhen<L(!new), F>(s: State<L, F>, events: seq<Event<L>>)
    requires Init(s)
    ensures var r := Exec(s, events);
      r.Some? && !r.value.disk.marker && r.value.settled.Some? ==>
        var t := r.value;
        t.device.file == t.settled.value.file <==> t.late.None? || t.late.value == t.settled.value.file
  {
    EveryRunKeepsInv(s, events);
  }

  // What is recorded is what was asked for, with what the gates said.

  ghost predicate AnswerOk<L(!new), F>(s: State<L, F>) {
    && (s.txn.Recording? && s.txn.outcome.Applied? ==> s.txn.outcome.enabled == s.enabling)
    && (s.records != [] ==> s.disk.lkg == Some(s.records[0]))
    && (s.records != [] && s.records[0].author.ByTxn? ==>
          && (s.txn.Clearing? || s.txn.Idle?)
          && s.records[0].gates == s.gates
          && (s.records[0].outcome.Applied? ==> s.records[0].outcome.enabled == s.enabling))
  }

  /** The flag of the last `Begin`, or what it was before. */
  ghost function Asked<L(!new)>(before: bool, events: seq<Event<L>>): bool
    decreases |events|
  {
    if events == [] then before
    else
      var e := events[0];
      Asked(if e.OnTxn? && e.t.Begin? then e.t.enabling else before, events[1..])
  }

  lemma OutcomeKeepsAnswer<L(!new), F>(s: State<L, F>, io: Io)
    requires OneClaim(s) && RecordsOk(s) && AnswerOk(s) && TxnEnabled(s, RecordOutcome(io))
    ensures AnswerOk(TxnNext(s, RecordOutcome(io))) && TxnNext(s, RecordOutcome(io)).enabling == s.enabling
  {
  }

  /** From the first step to the claim no outcome of its own is there yet. */
  lemma BeforeClaimKeepsAnswer<L(!new), F>(s: State<L, F>, t: TxnStep<L>)
    requires AnswerOk(s) && TxnEnabled(s, t)
    requires !t.Take? && !t.CloseStop? && !t.Join? && !t.RestoreFile? && !t.RestoreLinks? && !t.RecordOutcome?
      && !t.ClearMarker?
    ensures AnswerOk(TxnNext(s, t))
    ensures TxnNext(s, t).enabling == if t.Begin? then t.enabling else s.enabling
  {
  }

  lemma ClaimKeepsAnswer<L(!new), F>(s: State<L, F>, t: TxnStep<L>)
    requires AnswerOk(s) && TxnEnabled(s, t) && (t.Take? || t.CloseStop? || t.Join?)
    ensures AnswerOk(TxnNext(s, t)) && TxnNext(s, t).enabling == s.enabling
  {
  }

  lemma RestoreKeepsAnswer<L(!new), F>(s: State<L, F>, t: TxnStep<L>)
    requires AnswerOk(s) && TxnEnabled(s, t) && (t.RestoreFile? || t.RestoreLinks? || t.ClearMarker?)
    ensures AnswerOk(TxnNext(s, t)) && TxnNext(s, t).enabling == s.enabling
  {
  }

  lemma TxnKeepsAnswer<L(!new), F>(s: State<L, F>, t: TxnStep<L>)
    requires OneClaim(s) && RecordsOk(s) && AnswerOk(s) && TxnEnabled(s, t)
    ensures AnswerOk(TxnNext(s, t))
    ensures TxnNext(s, t).enabling == if t.Begin? then t.enabling else s.enabling
  {
    match t
    case RecordOutcome(io) => OutcomeKeepsAnswer(s, io);
    case Take => ClaimKeepsAnswer(s, t);
    case CloseStop => ClaimKeepsAnswer(s, t);
    case Join => ClaimKeepsAnswer(s, t);
    case RestoreFile(_) => RestoreKeepsAnswer(s, t);
    case RestoreLinks(_, _) => RestoreKeepsAnswer(s, t);
    case ClearMarker(_) => RestoreKeepsAnswer(s, t);
    case _ => BeforeClaimKeepsAnswer(s, t);
  }

  lemma WatchKeepsAnswer<L(!new), F>(s: State<L, F>, w: WatchStep<L>)
    requires OneClaim(s) && RecordsOk(s) && AnswerOk(s) && WatchEnabled(s, w)
    ensures AnswerOk(WatchNext(s, w)) && WatchNext(s, w).enabling == s.enabling
  {
  }

  lemma RollbackKeepsAnswer<L(!new), F>(s: State<L, F>, io: Io)
    requires ServerOk(s) && RecordsOk(s) && AnswerOk(s) && RecoverEnabled(s, RecoverRecords(io))
    ensures var t := RecoverNext(s, RecoverRecords(io)); AnswerOk(t) && t.enabling == s.enabling
  {
  }

  lemma CheckKeepsAnswer<L(!new), F>(s: State<L, F>, ok: bool)
    requires AnswerOk(s) && RecoverEnabled(s, CheckMarker(ok))
    ensures var t := RecoverNext(s, CheckMarker(ok)); AnswerOk(t) && t.enabling == s.enabling
  {
  }

  lemma PutBackKeepsAnswer<L(!new), F>(s: State<L, F>, ok: bool, leaves: L)
    requires AnswerOk(s) && RecoverEnabled(s, RecoversLinks(ok, leaves))
    ensures var t := RecoverNext(s, RecoversLinks(ok, leaves)); AnswerOk(t) && t.enabling == s.enabling
  {
  }

  lemma FileBackKeepsAnswer<L(!new), F>(s: State<L, F>, io: Io)
    requires AnswerOk(s) && RecoverEnabled(s, RecoversFile(io))
    ensures var t := RecoverNext(s, RecoversFile(io)); AnswerOk(t) && t.enabling == s.enabling
  {
  }

  lemma ClearKeepsAnswer<L(!new), F>(s: State<L, F>, io: Io)
    requires AnswerOk(s) && RecoverEnabled(s, RecoverClears(io))
    ensures var t := RecoverNext(s, RecoverClears(io)); AnswerOk(t) && t.enabling == s.enabling
  {
  }

  lemma RecoverKeepsAnswer<L(!new), F>(s: State<L, F>, r: RecoverStep<L>)
    requires ServerOk(s) && RecordsOk(s) && AnswerOk(s) && RecoverEnabled(s, r)
    ensures AnswerOk(RecoverNext(s, r)) && RecoverNext(s, r).enabling == s.enabling
  {
    match r
    case Start =>
    case CheckMarker(ok) => CheckKeepsAnswer(s, ok);
    case RecoversFile(io) => FileBackKeepsAnswer(s, io);
    case RecoversLinks(ok, leaves) => PutBackKeepsAnswer(s, ok, leaves);
    case RecoverRecords(io) => RollbackKeepsAnswer(s, io);
    case RecoverClears(io) => ClearKeepsAnswer(s, io);
  }

  lemma StepKeepsAnswer<L(!new), F>(s: State<L, F>, e: Event<L>)
    requires Control(s) && AnswerOk(s) && Enabled(s, e)
    ensures AnswerOk(Step(s, e)) && Step(s, e).enabling == Asked(s.enabling, [e])
  {
    match e {
      case OnTxn(t) => TxnKeepsAnswer(s, t);
      case OnWatch(w) => WatchKeepsAnswer(s, w);
      case OnRecover(r) => RecoverKeepsAnswer(s, r);
      case Crash(_) =>
    }
  }

  lemma {:induction false} EveryRunKeepsAnswer<L(!new), F>(s: State<L, F>, events: seq<Event<L>>)
    requires Inv(s) && AnswerOk(s)
    ensures var r := Exec(s, events);
      r.Some? ==> AnswerOk(r.value) && r.value.enabling == Asked(s.enabling, events)
    decreases |events|
  {
    if events != [] && Enabled(s, events[0]) {
      StepKeepsInv(s, events[0]);
      StepKeepsAnswer(s, events[0]);
      EveryRunKeepsAnswer(Step(s, events[0]), events[1..]);
    }
  }

  /**
   * At every point of every run: an applied outcome, about to be written or written, is for the
   * direction the last `Begin` asked for; whoever wrote an outcome since then, it is the one on
   * disk, and the transaction's own carries what its gates said.
   */
  lemma {:induction false} RecordsWhatWasAsked<L(!new), F>(s: State<L, F>, events: seq<Event<L>>)
    requires Init(s)
    ensures var r := Exec(s, events);
      r.Some? ==>
        var t, enabling := r.value, Asked(s.enabling, events);
        && (t.txn.Recording? && t.txn.outcome.Applied? ==> t.txn.outcome == Applied(enabling))
        && (t.records != [] ==> t.disk.lkg == Some(t.records[0]))
        && (t.records != [] && t.records[0].outcome.Applied? ==>
              t.records[0] == Record(ByTxn, Applied(enabling), t.gates))
        && (t.records != [] && t.records[0].author.ByTxn? ==> t.records[0].gates == t.gates)
  {
    EveryRunKeepsInv(s, events);
    EveryRunKeepsAnswer(s, events);
  }

  // Runs built step by step.

  lemma {:induction false} After<L(!new), F>(s: State<L, F>, events: seq<Event<L>>, t: State<L, F>, e: Event<L>)
    returns (longer: seq<Event<L>>, next: State<L, F>)
    requires Exec(s, events) == Some(t) && Enabled(t, e)
    ensures next == Step(t, e) && Exec(s, longer) == Some(next)
    ensures longer == events + [e]
    decreases |events|
  {
    longer, next := events + [e], Step(t, e);
    if events == [] {
      assert longer[1..] == [];
    } else {
      var _, _ := After(Step(s, events[0]), events[1..], t, e);
      assert longer[1..] == events[1..] + [e];
    }
  }

  // Crash and recovery.

  /** A recovery step that works, or another crash. */
  ghost predicate Recovers<L(!new)>(e: Event<L>) {
    match e
    case Crash(_) => true
    case OnRecover(Start) => true
    case OnRecover(CheckMarker(ok)) => ok
    case OnRecover(RecoversFile(io)) => io.Lands?
    case OnRecover(RecoversLinks(ok, _)) => ok
    case OnRecover(RecoverRecords(io)) => io.Lands?
    case OnRecover(RecoverClears(io)) => io.Lands?
    case _ => false
  }

  const RECOVERED := Record(ByRecovery, RolledBack, NO_GATES)

  /** The device is put back: the file, and the links if they were not doomed. */
  ghost predicate PutBack<L(!new), F>(s: State<L, F>, base: Device<L, F>, doomed: bool) {
    s.device.file == base.file && (s.device.links == base.links <==> !doomed)
  }

  ghost predicate Finished<L(!new), F>(s: State<L, F>, base: Device<L, F>, doomed: bool) {
    !s.disk.marker && s.disk.lkg == Some(RECOVERED) && PutBack(s, base, doomed)
  }

  /** On the way from the crash to the first request served. */
  ghost predicate OnTheWay<L(!new), F>(s: State<L, F>, base: Device<L, F>, doomed: bool) {
    && s.disk.snapshot == Some(base)
    && (s.disk.marker ==> s.k.doomed(base.links, s.device.links) == doomed)
    && (s.disk.marker || Finished(s, base, doomed))
    && (s.server.RecoverLinks? ==> s.server.fileOk && s.device.file == base.file)
    && (s.server.RecoverRecording? ==> s.server.ok && PutBack(s, base, doomed))
    && (s.server.RecoverClearing? ==> s.disk.lkg == Some(RECOVERED) && PutBack(s, base, doomed))
    && (s.server.Serving? ==> Finished(s, base, doomed))
  }

  lemma RecoveryReadStays<L(!new), F>(s: State<L, F>, r: RecoverStep<L>, base: Device<L, F>, doomed: bool)
    requires ServerOk(s) && MarkerOk(s) && OnTheWay(s, base, doomed) && RecoverEnabled(s, r)
    requires r == Start || r == CheckMarker(true) || r == RecoversFile(Lands)
    ensures OnTheWay(RecoverNext(s, r), base, doomed)
  {
  }

  lemma RecoveryLinksStay<L(!new), F>(s: State<L, F>, leaves: L, base: Device<L, F>, doomed: bool)
    requires Lawful(s.k) && MarkerOk(s) && ReachOk(s) && OnTheWay(s, base, doomed)
    requires RecoverEnabled(s, RecoversLinks(true, leaves))
    ensures OnTheWay(RecoverNext(s, RecoversLinks(true, leaves)), base, doomed)
  {
  }

  lemma RecoveryWriteStays<L(!new), F>(s: State<L, F>, r: RecoverStep<L>, base: Device<L, F>, doomed: bool)
    requires MarkerOk(s) && OnTheWay(s, base, doomed) && RecoverEnabled(s, r)
    requires r == RecoverRecords(Lands) || r == RecoverClears(Lands)
    ensures OnTheWay(RecoverNext(s, r), base, doomed)
  {
  }

  lemma AnotherCrashStays<L(!new), F>(s: State<L, F>, leaves: L, base: Device<L, F>, doomed: bool)
    requires MarkerOk(s) && OneClaim(s) && ServerOk(s) && OnTheWay(s, base, doomed) && Enabled(s, Crash(leaves))
    requires s.txn.Idle?
    ensures OnTheWay(Step(s, Crash(leaves)), base, doomed)
  {
  }

  lemma RecoverStepStays<L(!new), F>(s: State<L, F>, r: RecoverStep<L>, base: Device<L, F>, doomed: bool)
    requires Lawful(s.k) && ServerOk(s) && MarkerOk(s) && ReachOk(s) && OnTheWay(s, base, doomed)
    requires RecoverEnabled(s, r) && Recovers(OnRecover(r))
    ensures OnTheWay(RecoverNext(s, r), base, doomed) && RecoverNext(s, r).txn == s.txn
  {
    match r
    case RecoversLinks(_, leaves) => RecoveryLinksStay(s, leaves, base, doomed);
    case RecoverRecords(_) => RecoveryWriteStays(s, r, base, doomed);
    case RecoverClears(_) => RecoveryWriteStays(s, r, base, doomed);
    case _ => RecoveryReadStays(s, r, base, doomed);
  }

  lemma {:induction false} RecoveryRunStays<L(!new), F>(
      s: State<L, F>, events: seq<Event<L>>, base: Device<L, F>, doomed: bool)
    requires Inv(s) && s.txn.Idle? && OnTheWay(s, base, doomed)
    requires forall i :: 0 <= i < |events| ==> Recovers(events[i])
    ensures Exec(s, events).Some? ==> OnTheWay(Exec(s, events).value, base, doomed)
    decreases |events|
  {
    if events != [] && Enabled(s, events[0]) {
      StepKeepsInv(s, events[0]);
      match events[0] {
        case Crash(leaves) => AnotherCrashStays(s, leaves, base, doomed);
        case OnRecover(r) => RecoverStepStays(s, r, base, doomed);
      }
      RecoveryRunStays(Step(s, events[0]), events[1..], base, doomed);
    }
  }

  /**
   * A crash anywhere in that window, in the middle of a restore included, then any recovery whose
   * steps work, further crashes included: when the server serves again the rollback is recorded,
   * the marker is gone, the file is the captured one, and the links are the captured ones if and
   * only if they were not doomed when the crash came.
   */
  lemma {:induction false} CrashThenRecovery<L(!new), F>(s: State<L, F>, leaves: L, events: seq<Event<L>>)
    requires Inv(s) && Armed(s.txn) && !WatchWon(s.watch) && Enabled(s, Crash(leaves))
    requires forall i :: 0 <= i < |events| ==> Recovers(events[i])
    ensures var r := Exec(Step(s, Crash(leaves)), events);
      r.Some? && r.value.server.Serving? ==>
        && !r.value.disk.marker && r.value.disk.lkg == Some(RECOVERED)
        && r.value.device.file == s.base.file
        && (r.value.device.links == s.base.links <==> !s.k.doomed(s.base.links, s.device.links))
  {
    StepKeepsInv(s, Crash(leaves));
    RecoveryRunStays(Step(s, Crash(leaves)), events, s.base, s.k.doomed(s.base.links, s.device.links));
  }

  /** And such a recovery can always be run to its end. */
  lemma RecoveryCanFinish<L(!new), F>(s: State<L, F>) returns (events: seq<Event<L>>)
    requires s.server.Dead? && s.disk.marker && s.disk.snapshot.Some?
    requires s.k.reached(s.disk.snapshot.value.links, s.device.links)
    ensures forall i :: 0 <= i < |events| ==> Recovers(events[i])
    ensures Exec(s, events).Some? && Exec(s, events).value.server.Serving?
  {
    var t := s;
    events := [];
    events, t := After(s, events, t, OnRecover(Start));
    events, t := After(s, events, t, OnRecover(CheckMarker(true)));
    events, t := After(s, events, t, OnRecover(RecoversFile(Lands)));
    events, t := After(s, events, t, OnRecover(RecoversLinks(true, t.device.links)));
    events, t := After(s, events, t, OnRecover(RecoverRecords(Lands)));
    events, t := After(s, events, t, OnRecover(RecoverClears(Lands)));
  }

  // The join cannot hang: the watchdog always has a step, and it has few.

  function WatchRank(w: Watch): nat {
    match w
    case Selecting => 7
    case Fired => 6
    case Claimed => 5
    case WatchFile => 4
    case WatchLinks(_) => 3
    case WatchRecording(_) => 2
    case WatchClearing => 1
    case _ => 0
  }

  lemma WatchStepsFall<L(!new), F>(s: State<L, F>, w: WatchStep<L>)
    requires WatchEnabled(s, w)
    ensures WatchRank(WatchNext(s, w).watch) < WatchRank(s.watch)
  {
  }

  /** A waiting transaction's watchdog has a step, and each of its steps brings the end nearer. */
  lemma JoinIsReached<L(!new), F>(s: State<L, F>) returns (w: WatchStep<L>)
    requires Inv(s) && s.server.Serving? && s.txn.Joining? && !s.watch.Done?
    ensures WatchEnabled(s, w)
    ensures forall other :: WatchEnabled(s, other) ==> WatchRank(WatchNext(s, other).watch) < WatchRank(s.watch)
  {
    w := match s.watch
      case Selecting => SeeStop
      case Fired => WatchTake
      case Claimed => WatchReads(true)
      case WatchFile => WatchRestoresFile(Lands)
      case WatchLinks(_) => WatchRestoresLinks(true, s.device.links)
      case WatchRecording(_) => WatchRecords(Lands)
      case _ => WatchClears(Lands);
    forall other | WatchEnabled(s, other)
      ensures WatchRank(WatchNext(s, other).watch) < WatchRank(s.watch)
    {
      WatchStepsFall(s, other);
    }
  }

  // Runs to their ends.

  /** The record is on disk, and is the one outcome of this transaction. */
  ghost predicate Wrote<L(!new), F>(s: State<L, F>, r: Record) { s.disk.lkg == Some(r) && s.records == [r] }

  /** Two changes of links, as an operation makes them. */
  ghost predicate TwoChanges<L(!new), F>(k: Rules<L, F>, enabling: bool, base: L, mid: L, to: L) {
    k.may(enabling, base, base, mid) && k.may(enabling, base, mid, to)
  }

  lemma Changed<L(!new), F>(s: State<L, F>, enabling: bool, mid: L, to: L)
    returns (events: seq<Event<L>>, t: State<L, F>)
    requires Init(s) && TwoChanges(s.k, enabling, s.device.links, mid, to)
    ensures Exec(s, events) == Some(t)
    ensures t == s.(
      txn := Mutating, watch := Selecting, expired := false, enabling := enabling, base := s.device, gates := NO_GATES,
      records := [], disk := Disk(Some(s.device), true, None), device := s.device.(links := to))
  {
    t := s;
    events := [];
    events, t := After(s, events, t, OnTxn(Begin(enabling)));
    events, t := After(s, events, t, OnTxn(SaveSnapshot(Lands)));
    events, t := After(s, events, t, OnTxn(Arm(Lands)));
    events, t := After(s, events, t, OnTxn(Relink(mid)));
    events, t := After(s, events, t, OnTxn(Relink(to)));
  }

  /** It changes the links twice, gives up, and rolls back with no error. */
  lemma ChangeThenRollBack<L(!new), F>(s: State<L, F>, enabling: bool, mid: L, to: L) returns (events: seq<Event<L>>)
    requires Init(s) && TwoChanges(s.k, enabling, s.device.links, mid, to)
    ensures var r := Exec(s, events);
      && r.Some? && r.value.txn.Idle? && !r.value.disk.marker && r.value.late.None?
      && Wrote(r.value, Record(ByTxn, RolledBack, NO_GATES))
      && r.value.settled == Some(s.device)
      && r.value.device == Device(s.k.restored(s.device.links, to), s.device.file)
  {
    var t;
    events, t := Changed(s, enabling, mid, to);
    assert Lawful(s.k) && s.k.reached(s.device.links, to);
    events := RollsBack(s, events, t);
  }

  /**
   * It changes the links twice, writes the file, and its gates pass in time: the outcome is
   * recorded as applied, in the direction asked for, and what was built stays.
   */
  lemma ChangeThenCommit<L(!new), F>(s: State<L, F>, enabling: bool, mid: L, to: L, gates: Gates)
    returns (events: seq<Event<L>>)
    requires Init(s) && TwoChanges(s.k, enabling, s.device.links, mid, to) && gates.Passed()
    ensures var r := Exec(s, events);
      && r.Some? && r.value.txn.Idle? && !r.value.disk.marker && r.value.late.None?
      && Wrote(r.value, Record(ByTxn, Applied(enabling), gates))
      && r.value.device == Device(to, s.k.target(enabling)) && r.value.settled == Some(r.value.device)
  {
    var t;
    events, t := Changed(s, enabling, mid, to);
    events, t := After(s, events, t, OnTxn(WriteFile));
    events, t := Passes(s, events, t, gates);
    events, t := After(s, events, t, OnTxn(RecordOutcome(Lands)));
    events, t := After(s, events, t, OnTxn(ClearMarker(Lands)));
  }

  /** The gates pass and the claim is free: the transaction goes on to record its own outcome. */
  lemma Passes<L(!new), F>(s: State<L, F>, before: seq<Event<L>>, armed: State<L, F>, gates: Gates)
    returns (events: seq<Event<L>>, t: State<L, F>)
    requires Exec(s, before) == Some(armed) && armed.server.Serving? && armed.txn.Mutating?
    requires armed.watch.Selecting? && !armed.taken && gates.Passed()
    ensures Exec(s, events) == Some(t)
    ensures t == armed.(
      txn := Recording(Applied(armed.enabling)), watch := Done(false), taken := true, stopped := true,
      gates := gates, verified := armed.device)
  {
    t := armed;
    events := before;
    events, t := After(s, events, t, OnTxn(Verify(gates)));
    events, t := After(s, events, t, OnTxn(Take));
    events, t := After(s, events, t, OnTxn(CloseStop));
    events, t := After(s, events, t, OnWatch(SeeStop));
    events, t := After(s, events, t, OnTxn(Join));
  }

  /** Giving up in time: the transaction owns the outcome and the watchdog is over. */
  lemma GivesUp<L(!new), F>(s: State<L, F>, before: seq<Event<L>>, armed: State<L, F>)
    returns (events: seq<Event<L>>, t: State<L, F>)
    requires Exec(s, before) == Some(armed) && armed.server.Serving? && armed.txn.Mutating?
    requires armed.watch.Selecting? && !armed.taken
    ensures Exec(s, events) == Some(t)
    ensures t == armed.(txn := RestoringFile, watch := Done(false), taken := true, stopped := true)
  {
    t := armed;
    events := before;
    events, t := After(s, events, t, OnTxn(GiveUp));
    events, t := After(s, events, t, OnTxn(Take));
    events, t := After(s, events, t, OnTxn(CloseStop));
    events, t := After(s, events, t, OnWatch(SeeStop));
    events, t := After(s, events, t, OnTxn(Join));
  }

  lemma RollsBack<L(!new), F>(s: State<L, F>, before: seq<Event<L>>, armed: State<L, F>) returns (events: seq<Event<L>>)
    requires Exec(s, before) == Some(armed) && armed.server.Serving? && armed.txn.Mutating? && armed.watch.Selecting?
    requires !armed.taken && armed.gates == NO_GATES && armed.late.None? && armed.records == []
    requires Partial(armed, armed.device.links)
    ensures var r := Exec(s, events);
      && r.Some? && r.value.txn.Idle? && !r.value.disk.marker && r.value.late.None?
      && Wrote(r.value, Record(ByTxn, RolledBack, NO_GATES)) && r.value.settled == Some(armed.base)
      && r.value.device == Device(armed.k.restored(armed.base.links, armed.device.links), armed.base.file)
  {
    var t;
    events, t := GivesUp(s, before, armed);
    events, t := PutsBack(s, events, t);
    events, t := After(s, events, t, OnTxn(RecordOutcome(Lands)));
    events, t := After(s, events, t, OnTxn(ClearMarker(Lands)));
  }

  lemma PutsBack<L(!new), F>(s: State<L, F>, before: seq<Event<L>>, t: State<L, F>)
    returns (events: seq<Event<L>>, u: State<L, F>)
    requires Exec(s, before) == Some(t) && t.server.Serving? && t.txn.RestoringFile? && Partial(t, t.device.links)
    ensures Exec(s, events) == Some(u)
    ensures u == t.(
      txn := Recording(RolledBack), origin := t.device.links,
      device := Device(t.k.restored(t.base.links, t.device.links), t.base.file))
  {
    events, u := After(s, before, t, OnTxn(RestoreFile(Lands)));
    events, u := After(s, events, u, OnTxn(RestoreLinks(true, u.device.links)));
  }

  /** The deadline fires instead, with the file still to be written. */
  lemma DeadlineFires<L(!new), F>(s: State<L, F>, before: seq<Event<L>>, armed: State<L, F>)
    returns (events: seq<Event<L>>, t: State<L, F>)
    requires Exec(s, before) == Some(armed) && armed.server.Serving? && armed.txn.Mutating? && armed.watch.Selecting?
    requires !armed.taken && armed.disk.snapshot.Some?
    ensures Exec(s, events) == Some(t)
    ensures t == armed.(expired := true, watch := WatchFile, taken := true)
  {
    t := armed;
    events := before;
    events, t := After(s, events, t, OnTxn(Expire));
    events, t := After(s, events, t, OnWatch(Fire));
    events, t := After(s, events, t, OnWatch(WatchTake));
    events, t := After(s, events, t, OnWatch(WatchReads(true)));
  }

  lemma WatchdogRestores<L(!new), F>(s: State<L, F>, before: seq<Event<L>>, claimed: State<L, F>)
    returns (events: seq<Event<L>>, t: State<L, F>)
    requires Exec(s, before) == Some(claimed) && claimed.server.Serving? && claimed.watch.WatchFile?
    requires Partial(claimed, claimed.device.links)
    ensures Exec(s, events) == Some(t)
    ensures t == claimed.(
      watch := WatchRecording(true), origin := claimed.device.links,
      device := Device(claimed.k.restored(claimed.base.links, claimed.device.links), claimed.base.file))
  {
    t := claimed;
    events := before;
    events, t := After(s, events, t, OnWatch(WatchRestoresFile(Lands)));
    events, t := After(s, events, t, OnWatch(WatchRestoresLinks(true, t.device.links)));
  }

  /**
   * From any state in which the watchdog is through: the write stays on the device, and the
   * transaction ends without noticing, with everything else as the watchdog left it.
   */
  lemma LateWriteStays<L(!new), F>(s: State<L, F>, before: seq<Event<L>>, over: State<L, F>)
    returns (events: seq<Event<L>>, t: State<L, F>)
    requires Exec(s, before) == Some(over) && over.server.Serving? && over.txn.Mutating?
    requires over.watch == Done(true) && over.taken
    ensures Exec(s, events) == Some(t)
    ensures var written := over.k.target(over.enabling);
      t == over.(txn := Idle, stopped := true, device := over.device.(file := written), late := Some(written))
  {
    t := over;
    events := before;
    events, t := After(s, events, t, OnTxn(WriteFile));
    events, t := After(s, events, t, OnTxn(GiveUp));
    events, t := After(s, events, t, OnTxn(Take));
    events, t := After(s, events, t, OnTxn(CloseStop));
    events, t := After(s, events, t, OnTxn(Join));
  }

  /** The whole run: the links are put back, and the file then holds what the operation wrote. */
  lemma LateWriteRun<L(!new), F>(s: State<L, F>, enabling: bool, mid: L, to: L) returns (events: seq<Event<L>>)
    requires Init(s) && TwoChanges(s.k, enabling, s.device.links, mid, to)
    ensures var r := Exec(s, events);
      && r.Some? && r.value.txn.Idle? && !r.value.disk.marker
      && Wrote(r.value, Record(ByWatch, RolledBack, NO_GATES)) && r.value.settled == Some(s.device)
      && r.value.device == Device(s.k.restored(s.device.links, to), s.k.target(enabling))
  {
    var t;
    events, t := Changed(s, enabling, mid, to);
    assert Lawful(s.k) && s.k.reached(s.device.links, to);
    events, t := DeadlineFires(s, events, t);
    events, t := WatchdogRestores(s, events, t);
    events, t := After(s, events, t, OnWatch(WatchRecords(Lands)));
    events, t := After(s, events, t, OnWatch(WatchClears(Lands)));
    events, t := LateWriteStays(s, events, t);
  }

  lemma {:induction false} RulesStay<L(!new), F>(s: State<L, F>, events: seq<Event<L>>)
    ensures Exec(s, events).Some? ==> Exec(s, events).value.k == s.k
    decreases |events|
  {
    if events != [] && Enabled(s, events[0]) {
      RulesStay(Step(s, events[0]), events[1..]);
    }
  }

  // How the links of one transaction change.

  /** This transaction is under way or has left its outcome. */
  ghost predicate Own<L(!new), F>(s: State<L, F>) {
    !s.txn.Idle? || (s.records != [] && !s.records[0].author.ByRecovery?)
  }

  /** They start at their capture, and then take armed steps and restores, whole or partial. */
  ghost predicate OwnStep<L(!new), F>(s: State<L, F>, t: State<L, F>) {
    Own(t) ==>
      || t.device.links == t.base.links
      || (Own(s) && t.base == s.base && t.enabling == s.enabling
          && (t.device.links == s.device.links
              || s.k.may(s.enabling, s.base.links, s.device.links, t.device.links)
              || s.k.doomed(s.base.links, t.device.links) == s.k.doomed(s.base.links, s.device.links)))
  }

  lemma TxnStepIsOwn<L(!new), F>(s: State<L, F>, t: TxnStep<L>)
    requires Inv(s) && TxnEnabled(s, t)
    ensures OwnStep(s, TxnNext(s, t))
  {
    match t
    case Relink(to) => RelinkIsOwn(s, to);
    case RestoreLinks(ok, leaves) => RestoreIsOwn(s, ok, leaves);
    case _ => RestIsOwn(s, t);
  }

  lemma RelinkIsOwn<L(!new), F>(s: State<L, F>, to: L)
    requires TxnEnabled(s, Relink(to))
    ensures OwnStep(s, TxnNext(s, Relink(to)))
  {
  }

  lemma RestoreIsOwn<L(!new), F>(s: State<L, F>, ok: bool, leaves: L)
    requires Inv(s) && TxnEnabled(s, RestoreLinks(ok, leaves))
    ensures OwnStep(s, TxnNext(s, RestoreLinks(ok, leaves)))
  {
  }

  lemma RestIsOwn<L(!new), F>(s: State<L, F>, t: TxnStep<L>)
    requires Control(s) && TxnEnabled(s, t) && !t.Relink? && !t.RestoreLinks?
    ensures OwnStep(s, TxnNext(s, t))
  {
  }

  lemma WatchStepIsOwn<L(!new), F>(s: State<L, F>, w: WatchStep<L>)
    requires Inv(s) && WatchEnabled(s, w)
    ensures OwnStep(s, WatchNext(s, w))
  {
  }

  lemma RecoverStepIsOwn<L(!new), F>(s: State<L, F>, r: RecoverStep<L>)
    requires Control(s) && RecoverEnabled(s, r)
    ensures OwnStep(s, RecoverNext(s, r))
  {
    if r.Start? || r.CheckMarker? {
      RestartIsOwn(s, r);
    } else if r.RecoversLinks? {
      RecoveryLinksAreOwn(s, r);
    } else {
      RecoveryIsOwn(s, r);
    }
  }

  lemma RecoveryLinksAreOwn<L(!new), F>(s: State<L, F>, r: RecoverStep<L>)
    requires Control(s) && RecoverEnabled(s, r) && r.RecoversLinks?
    ensures OwnStep(s, RecoverNext(s, r))
  {
  }

  lemma RecoveryIsOwn<L(!new), F>(s: State<L, F>, r: RecoverStep<L>)
    requires Control(s) && RecoverEnabled(s, r) && !r.Start? && !r.CheckMarker? && !r.RecoversLinks?
    ensures OwnStep(s, RecoverNext(s, r))
  {
  }

  lemma RestartIsOwn<L(!new), F>(s: State<L, F>, r: RecoverStep<L>)
    requires Control(s) && RecoverEnabled(s, r) && (r.Start? || r.CheckMarker?)
    ensures OwnStep(s, RecoverNext(s, r))
  {
  }

  lemma CrashIsOwn<L(!new), F>(s: State<L, F>, leaves: L)
    requires Inv(s) && Enabled(s, Crash(leaves))
    ensures OwnStep(s, Step(s, Crash(leaves)))
  {
  }

  /** The flags themselves. */
  class Flags {
    var taken: bool
    var expired: bool
    var stopped: bool

    constructor ()
      ensures !taken && !expired && !stopped
    {
      taken, expired, stopped := false, false, false;
    }

    /** The compare-and-swap: it succeeds for the first caller only. */
    method Take() returns (owned: bool)
      modifies this
      ensures owned <==> !old(taken)
      ensures taken && expired == old(expired) && stopped == old(stopped)
    {
      owned := !taken;
      taken := true;
    }

    /** The watchdog's half: the deadline is recorded whether or not the claim succeeds. */
    method Expire() returns (owned: bool)
      modifies this
      ensures owned <==> !old(taken)
      ensures taken && expired && stopped == old(stopped)
    {
      expired := true;
      owned := Take();
    }

    /** The transaction's half; closing twice is harmless. */
    method Disarm() returns (owned: bool)
      modifies this
      ensures owned <==> !old(taken)
      ensures taken && stopped && expired == old(expired)
    {
      owned := Take();
      stopped := true;
    }

    /** The two halves in either order: exactly one of them owns the outcome. */
    method Race(deadlineFirst: bool) returns (watch: bool, txn: bool)
      requires !taken
      modifies this
      ensures watch != txn && watch == deadlineFirst
      ensures taken && expired && stopped
    {
      if deadlineFirst {
        watch := Expire();
        txn := Disarm();
      } else {
        txn := Disarm();
        watch := Expire();
      }
    }
  }
}
