/**
 * The receiving half of a nexit/1 session: the reader queues DATA, one drain per TCP stream
 * writes it to the destination socket and returns credit, and anyone may drop a stream in
 * between. Every critical section of the source is one step; UDP streams are not modelled.
 */
module NexitReceive {
  import opened Sums
  import opened Wrappers
  import opened Bytes
  import opened NexitCredit

  const U32: int := 0x1_0000_0000

  // The accounting the source does under a mutex, as values and as the objects that hold them.

  /** `consume` on a counter: the new counter and the WINDOW increment (0 for none). */
  function Consumed(consumed: nat, n: nat, window: nat): (nat, nat) {
    if window > 0 && consumed + n >= window / 2 then (0, consumed + n) else (consumed + n, 0)
  }

  /** `creditConn` on its counter; unlike `consume` it does not test for a zero window. */
  function ConnCredited(consumed: nat, n: nat, window: nat): (nat, nat) {
    if n == 0 then (consumed, 0)
    else if consumed + n >= window / 2 then (0, consumed + n)
    else (consumed + n, 0)
  }

  class StreamFlags {
    var remoteEof: bool
    var localEof: bool
    var consumed: nat

    constructor ()
      ensures !remoteEof && !localEof && consumed == 0
    {
      remoteEof, localEof, consumed := false, false, 0;
    }

    method MarkRemoteEof() returns (both: bool)
      modifies this`remoteEof
      ensures remoteEof && both == localEof
    {
      remoteEof := true;
      both := localEof;
    }

    method MarkLocalEof() returns (both: bool)
      modifies this`localEof
      ensures localEof && both == remoteEof
    {
      localEof := true;
      both := remoteEof;
    }

    /** Each side ends once, in either order: only the second to end is told to drop the stream. */
    method EndBoth(remoteFirst: bool) returns (first: bool, second: bool)
      requires !remoteEof && !localEof
      modifies this`remoteEof, this`localEof
      ensures !first && second && remoteEof && localEof
    {
      if remoteFirst {
        first := MarkRemoteEof();
        second := MarkLocalEof();
      } else {
        first := MarkLocalEof();
        second := MarkRemoteEof();
      }
    }

    /** Nothing is lost between the counter and the increment. */
    method Consume(n: nat, window: nat) returns (inc: nat)
      modifies this`consumed
      ensures (consumed, inc) == Consumed(old(consumed), n, window)
      ensures consumed + inc == old(consumed) + n
    {
      consumed := consumed + n;
      if window > 0 && consumed >= window / 2 {
        inc := consumed;
        consumed := 0;
        return;
      }
      inc := 0;
    }
  }

  class Queue<T> {
    var items: seq<T>

    constructor ()
      ensures items == []
    {
      items := [];
    }

    method Push(item: T)
      modifies this
      ensures items == old(items) + [item]
    {
      items := items + [item];
    }

    /** First in, first out; `None` only when empty, whatever the context says. */
    method Pop() returns (r: Option<T>)
      modifies this
      ensures old(items) == [] ==> r == None && items == []
      ensures old(items) != [] ==> r == Some(old(items)[0]) && [r.value] + items == old(items)
    {
      if |items| == 0 {
        return None;
      }
      r := Some(items[0]);
      items := items[1..];
    }
  }

  // The machine.

  datatype Item = Bytes(data: seq<Byte>) | EofMark

  datatype Drain =
    | Popping
    | Writing(data: seq<Byte>)
    | Counting(n: nat)
    | Announcing(inc: nat, n: nat)
    | Crediting(n: nat)
    | AnnouncingConn(inc: nat)
    | Stopped

  /**
   * `frames`, `popped`, `written`, `announced`, `unsent` and `discarded` record history: what the
   * peer sent on the stream, what the drain took off the queue and the socket took; credit
   * returned to the peer, computed but not sent because the session was over; and bytes that can
   * never be credited. `halfClosed` is the destination socket, closed for writing.
   */
  datatype Stream = Stream(
    id: nat, queue: seq<Item>, remoteEof: bool, cancelled: bool, consumed: nat, drain: Drain, halfClosed: bool,
    frames: seq<Item>, popped: seq<Item>, written: seq<Byte>,
    announced: nat, unsent: nat, discarded: nat, rejected: bool)

  /** `had` is history: whether the session had had the id when the frame came. */
  datatype Reader =
    | Idle
    | Found(i: nat, data: seq<Byte>)
    | Unknown(id: nat, n: nat, had: bool)
    | Pushing(i: nat, data: seq<Byte>)
    | PushingEof(i: nat)
    | CreditingLate(n: nat)
    | AnnouncingLate(inc: nat)

  /** `received` counts the DATA bytes on every id the session has or had; see `Heard`. */
  datatype Conn = Conn(consumed: nat, announced: nat, unsent: nat, received: nat)

  datatype State = State(
    streamWindow: nat, connWindow: nat, streams: seq<Stream>, reader: Reader,
    table: map<nat, nat>, released: set<nat>, conn: Conn)

  datatype DrainStep =
    | Pop
    | Write(ok: bool, k: nat)
    | Count
    | Announce(sessionDone: bool)
    | Credit
    | AnnounceConn(sessionDone: bool)

  datatype Event =
    | Enter(id: nat)
    | DataFrame(id: nat, data: seq<Byte>)
    | EofFrame(id: nat)
    | CheckReleased
    | CheckEof
    | Push
    | PushEof
    | CreditLate
    | AnnounceLate(sessionDone: bool)
    | Drop(i: nat)
    | Abort(i: nat)
    | OnDrain(i: nat, step: DrainStep)

  predicate CanDrain(st: Stream, step: DrainStep) {
    match step
    case Pop => st.drain.Popping? && (st.queue != [] || st.cancelled)
    case Write(ok, k) => st.drain.Writing? && k <= |st.drain.data|
    case Count => st.drain.Counting?
    case Announce(_) => st.drain.Announcing?
    case Credit => st.drain.Crediting?
    case AnnounceConn(_) => st.drain.AnnouncingConn?
  }

  predicate Enabled(s: State, e: Event) {
    match e
    case Enter(_) => true
    case DataFrame(_, data) => s.reader.Idle? && |data| <= MAX_FRAME
    case EofFrame(_) => s.reader.Idle?
    case CheckReleased => s.reader.Unknown?
    case CheckEof => s.reader.Found? && s.reader.i < |s.streams|
    case Push => s.reader.Pushing? && s.reader.i < |s.streams|
    case PushEof => s.reader.PushingEof? && s.reader.i < |s.streams|
    case CreditLate => s.reader.CreditingLate?
    case AnnounceLate(_) => s.reader.AnnouncingLate?
    case Drop(i) => i < |s.streams|
    case Abort(i) => i < |s.streams|
    case OnDrain(i, step) => i < |s.streams| && CanDrain(s.streams[i], step)
  }

  function Halt(st: Stream): Stream { st.(drain := Stopped) }

  function DrainStream(s: State, st: Stream, step: DrainStep): Stream
    requires CanDrain(st, step)
  {
    match step
    case Pop =>
      if st.queue == [] then Halt(st)
      else
        var rest := st.(queue := st.queue[1..], popped := st.popped + [st.queue[0]]);
        if st.queue[0].EofMark? then rest.(remoteEof := true, halfClosed := true)
        else rest.(drain := Writing(st.queue[0].data))
    case Write(ok, k) =>
      if ok then st.(written := st.written + st.drain.data, drain := Counting(|st.drain.data|))
      else Halt(st.(written := st.written + st.drain.data[..k], discarded := st.discarded + |st.drain.data|))
    case Count =>
      var r := Consumed(st.consumed, st.drain.n, s.streamWindow);
      st.(consumed := r.0, drain := if r.1 > 0 then Announcing(r.1, st.drain.n) else Crediting(st.drain.n))
    case Announce(sessionDone) =>
      var t := st.(drain := Crediting(st.drain.n));
      if sessionDone then t.(unsent := st.unsent + st.drain.inc)
      else t.(announced := st.announced + st.drain.inc)
    case Credit =>
      var r := ConnCredited(s.conn.consumed, st.drain.n, s.connWindow);
      st.(drain := if r.1 > 0 then AnnouncingConn(r.1) else Popping)
    case AnnounceConn(_) => st.(drain := Popping)
  }

  function SendConn(c: Conn, inc: nat, sessionDone: bool): Conn {
    if sessionDone then c.(unsent := c.unsent + inc) else c.(announced := c.announced + inc)
  }

  function DrainConn(s: State, st: Stream, step: DrainStep): Conn
    requires CanDrain(st, step)
  {
    match step
    case Credit => s.conn.(consumed := ConnCredited(s.conn.consumed, st.drain.n, s.connWindow).0)
    case AnnounceConn(sessionDone) => SendConn(s.conn, st.drain.inc, sessionDone)
    case _ => s.conn
  }

  /** `drop` under the session mutex: only the stream the table still names leaves it. */
  function Dropped(s: State, i: nat): State
    requires i < |s.streams|
  {
    var id := s.streams[i].id;
    if id in s.table && s.table[id] == i
    then s.(table := s.table - {id}, released := s.released + {id})
    else s
  }

  function OnData(s: State, id: nat, data: seq<Byte>): State {
    if id in s.table && s.table[id] < |s.streams| then s.(reader := Found(s.table[id], data))
    else s.(reader := Unknown(id, |data|, id in s.released))
  }

  /** The second look at an unknown id, under the mutex again: anything may have happened in between. */
  function OnCheckReleased(s: State): State
    requires s.reader.Unknown?
  {
    s.(reader := if s.reader.id in s.released then CreditingLate(s.reader.n) else Idle)
  }

  function OnCheckEof(s: State): State
    requires Enabled(s, CheckEof)
  {
    var i, data := s.reader.i, s.reader.data;
    var st := s.streams[i];
    if st.remoteEof then
      Dropped(s, i).(
        streams := s.streams[i := st.(rejected := true, discarded := st.discarded + |data|)],
        reader := Idle)
    else s.(reader := Pushing(i, data))
  }

  function NewStream(id: nat): Stream {
    Stream(id, [], false, false, 0, Popping, false, [], [], [], 0, 0, 0, false)
  }

  /** What the source does. */
  function Act(s: State, e: Event): State
    requires Enabled(s, e)
  {
    match e
    case Enter(id) =>
      s.(streams := s.streams + [NewStream(id)],
         table := s.table[id := |s.streams|])
    case DataFrame(id, data) => OnData(s, id, data)
    case EofFrame(id) =>
      if id in s.table && s.table[id] < |s.streams| then
        var i := s.table[id];
        s.(streams := s.streams[i := s.streams[i].(remoteEof := true)], reader := PushingEof(i))
      else s
    case CheckReleased => OnCheckReleased(s)
    case CheckEof => OnCheckEof(s)
    case Push =>
      var i, data := s.reader.i, s.reader.data;
      var st := s.streams[i];
      s.(streams := s.streams[i := st.(queue := st.queue + [Bytes(data)])], reader := Idle)
    case PushEof =>
      var st := s.streams[s.reader.i];
      s.(streams := s.streams[s.reader.i := st.(queue := st.queue + [EofMark])], reader := Idle)
    case CreditLate =>
      var r := ConnCredited(s.conn.consumed, s.reader.n, s.connWindow);
      s.(conn := s.conn.(consumed := r.0), reader := if r.1 > 0 then AnnouncingLate(r.1) else Idle)
    case AnnounceLate(sessionDone) => s.(conn := SendConn(s.conn, s.reader.inc, sessionDone), reader := Idle)
    case Drop(i) => Dropped(s, i)
    case Abort(i) => s.(streams := s.streams[i := s.streams[i].(cancelled := true)])
    case OnDrain(i, step) =>
      s.(streams := s.streams[i := DrainStream(s, s.streams[i], step)], conn := DrainConn(s, s.streams[i], step))
  }

  /**
   * The DATA bytes a step adds to those the session answers for, whatever it does with them: a
   * frame on an id in the table, or on one that has left it, by the reader's second look at the
   * latest.
   */
  function Heard(s: State, e: Event): nat
    requires Enabled(s, e)
  {
    match e
    case DataFrame(id, data) => if id in s.table || id in s.released then |data| else 0
    case CheckReleased => if !s.reader.had && s.reader.id in s.released then s.reader.n else 0
    case _ => 0
  }

  /** The frame a step brings, and the stream the table then names for it. */
  function FrameOf(s: State, e: Event): Option<(nat, Item)> {
    match e
    case DataFrame(id, data) =>
      if id in s.table && s.table[id] < |s.streams| then Some((s.table[id], Bytes(data))) else None
    case EofFrame(id) =>
      if id in s.table && s.table[id] < |s.streams| then Some((s.table[id], EofMark)) else None
    case _ => None
  }

  function Framed(st: Stream, item: Item): Stream { st.(frames := st.frames + [item]) }

  /** And what is noted of it. */
  function Step(s: State, e: Event): State
    requires Enabled(s, e)
  {
    var t, f := Act(s, e), FrameOf(s, e);
    t.(conn := t.conn.(received := t.conn.received + Heard(s, e)),
       streams :=
         if f.Some? && f.value.0 < |t.streams|
         then t.streams[f.value.0 := Framed(t.streams[f.value.0], f.value.1)]
         else t.streams)
  }

  function Exec(s: State, events: seq<Event>): Option<State>
    decreases |events|
  {
    if events == [] then Some(s)
    else if !Enabled(s, events[0]) then None
    else Exec(Step(s, events[0]), events[1..])
  }

  function Start(streamWindow: nat, connWindow: nat): State {
    State(streamWindow, connWindow, [], Idle, map[], {}, Conn(0, 0, 0, 0))
  }

  // Where a byte can be.

  function Queued(queue: seq<Item>): seq<Byte> {
    if queue == [] then [] else (if queue[0].Bytes? then queue[0].data else []) + Queued(queue[1..])
  }

  lemma {:induction false} QueuedAppend(queue: seq<Item>, item: Item)
    ensures Queued(queue + [item]) == Queued(queue) + (if item.Bytes? then item.data else [])
  {
    if queue == [] {
      assert queue + [item] == [item];
    } else {
      assert (queue + [item])[1..] == queue[1..] + [item];
      QueuedAppend(queue[1..], item);
    }
  }

  function InHand(d: Drain): seq<Byte> { if d.Writing? then d.data else [] }

  /** Bytes the drain has taken off the queue and not yet put in the stream's counter. */
  function StreamFlight(d: Drain): nat {
    match d
    case Writing(data) => |data|
    case Counting(n) => n
    case Announcing(inc, _) => inc
    case _ => 0
  }

  /** The same for the connection's counter. */
  function ConnFlight(d: Drain): nat {
    match d
    case Writing(data) => |data|
    case Counting(n) => n
    case Announcing(_, n) => n
    case Crediting(n) => n
    case AnnouncingConn(inc) => inc
    case _ => 0
  }

  function ReaderHand(r: Reader, i: nat): seq<Byte> {
    if (r.Found? || r.Pushing?) && r.i == i then r.data else []
  }

  function ReaderFlight(r: Reader): nat {
    match r
    case Found(_, data) => |data|
    case Unknown(_, n, had) => if had then n else 0
    case Pushing(_, data) => |data|
    case CreditingLate(n) => n
    case AnnouncingLate(inc) => inc
    case _ => 0
  }

  ghost function ConnPlaces(st: Stream): int { |Queued(st.queue)| + ConnFlight(st.drain) + st.discarded }

  function Half(window: nat): nat { if window / 2 == 0 then 1 else window / 2 }

  // The laws.

  /** An increment that is about to be sent is positive and fits in the 32 bits of the frame. */
  predicate FitsFrame(inc: int) { 1 <= inc < U32 }

  predicate DrainShape(d: Drain) {
    match d
    case Writing(data) => |data| <= MAX_FRAME
    case Counting(n) => n <= MAX_FRAME
    case Announcing(inc, n) => FitsFrame(inc) && n <= MAX_FRAME
    case Crediting(n) => n <= MAX_FRAME
    case AnnouncingConn(inc) => FitsFrame(inc)
    case _ => true
  }

  predicate ReaderShape(r: Reader) {
    match r
    case Found(_, data) => |data| <= MAX_FRAME
    case Unknown(_, n, _) => n <= MAX_FRAME
    case Pushing(_, data) => |data| <= MAX_FRAME
    case CreditingLate(n) => n <= MAX_FRAME
    case AnnouncingLate(inc) => FitsFrame(inc)
    case _ => true
  }

  predicate ItemsShape(queue: seq<Item>) {
    forall k :: 0 <= k < |queue| && queue[k].Bytes? ==> |queue[k].data| <= MAX_FRAME
  }

  /** What the drain took off the queue is written or in hand, in order; a write that failed ends it. */
  ghost predicate InOrder(st: Stream) {
    if st.drain.Stopped? then st.written <= Queued(st.popped)
    else st.written + InHand(st.drain) == Queued(st.popped)
  }

  predicate At(r: Reader, i: nat) { (r.Found? || r.Pushing? || r.PushingEof?) && r.i == i }

  function Hand(r: Reader, i: nat): seq<Item> {
    if !At(r, i) then [] else if r.PushingEof? then [EofMark] else [Bytes(r.data)]
  }

  /** Every frame received was queued or is in the reader's hand, in order, until one is rejected. */
  predicate QueuedInOrder(r: Reader, i: nat, st: Stream) {
    if st.rejected then st.popped + st.queue <= st.frames && !At(r, i)
    else st.popped + st.queue + Hand(r, i) == st.frames
  }

  /** The end of file is the last thing queued, and the destination is closed when it is popped. */
  predicate EofLast(r: Reader, i: nat, st: Stream) {
    && (st.remoteEof <==> EofMark in st.frames)
    && (r.Pushing? && r.i == i ==> !st.remoteEof)
    && (st.halfClosed <==> EofMark in st.popped)
    && forall j, k :: 0 <= j < k < |st.popped + st.queue| && (st.popped + st.queue)[j].EofMark? ==>
         (st.popped + st.queue)[k].EofMark?
  }

  ghost predicate ClosedAfterAll(st: Stream) {
    st.halfClosed ==> (st.drain.Popping? || st.drain.Stopped?) && st.written == Queued(st.popped)
  }

  function Received(st: Stream): seq<Byte> { Queued(st.frames) }

  /** Every byte received for the stream is in exactly one place. */
  predicate StreamConserved(r: Reader, i: nat, st: Stream) {
    |Received(st)| ==
      |ReaderHand(r, i)| + |Queued(st.queue)| + StreamFlight(st.drain) +
      st.consumed + st.announced + st.unsent + st.discarded
  }

  ghost predicate StreamOk(streamWindow: nat, r: Reader, i: nat, st: Stream) {
    && DrainShape(st.drain) && ItemsShape(st.queue)
    && InOrder(st) && StreamConserved(r, i, st)
    && (streamWindow > 0 ==> st.consumed < Half(streamWindow))
    && (st.discarded > 0 ==> st.rejected || st.drain.Stopped?)
  }

  /** Every DATA byte heard is in exactly one place of the connection's books. */
  ghost predicate ConnConserved(s: State) {
    && s.conn.consumed < Half(s.connWindow)
    && s.conn.received ==
       Sum(s.streams, ConnPlaces) + ReaderFlight(s.reader) + s.conn.consumed + s.conn.announced + s.conn.unsent
  }

  predicate TableOk(s: State) {
    && (forall id :: id in s.table ==>
          s.table[id] < |s.streams| && s.streams[s.table[id]].id == id && !s.streams[s.table[id]].rejected)
    && (forall i :: 0 <= i < |s.streams| ==> s.streams[i].id in s.table || s.streams[i].id in s.released)
    && (s.reader.Unknown? && s.reader.had ==> s.reader.id in s.released)
  }

  ghost predicate Inv(s: State) {
    && s.streamWindow < U32 && s.connWindow < U32
    && ReaderShape(s.reader) && TableOk(s) && ConnConserved(s)
    && (s.reader.Found? || s.reader.Pushing? || s.reader.PushingEof? ==> s.reader.i < |s.streams|)
    && forall i :: 0 <= i < |s.streams| ==> StreamOk(s.streamWindow, s.reader, i, s.streams[i])
  }

  /** The order of the frames, kept apart from the books. */
  ghost predicate Ordered(r: Reader, i: nat, st: Stream) {
    QueuedInOrder(r, i, st) && EofLast(r, i, st) && ClosedAfterAll(st)
  }

  ghost predicate Orderly(s: State) {
    forall i :: 0 <= i < |s.streams| ==> Ordered(s.reader, i, s.streams[i])
  }

  // Each step keeps them: first on the one stream it touches.

  lemma PopBytesKeeps(w: nat, r: Reader, i: nat, st: Stream)
    requires StreamOk(w, r, i, st) && st.drain.Popping? && st.queue != [] && st.queue[0].Bytes?
    ensures var t := st.(
        queue := st.queue[1..], popped := st.popped + [st.queue[0]], drain := Writing(st.queue[0].data));
      StreamOk(w, r, i, t) && ConnPlaces(t) == ConnPlaces(st)
  {
    var rest := st.queue[1..];
    QueuedAppend(st.popped, st.queue[0]);
    assert st.written + [] == st.written;
    assert Queued(st.queue) == st.queue[0].data + Queued(rest);
    assert forall k :: 0 <= k < |rest| ==> rest[k] == st.queue[k + 1];
  }

  lemma PopEofKeeps(w: nat, r: Reader, i: nat, st: Stream)
    requires StreamOk(w, r, i, st) && st.drain.Popping? && st.queue != [] && st.queue[0].EofMark?
    ensures var t := st.(
        queue := st.queue[1..], popped := st.popped + [st.queue[0]], remoteEof := true, halfClosed := true);
      StreamOk(w, r, i, t) && ConnPlaces(t) == ConnPlaces(st)
  {
    var rest := st.queue[1..];
    QueuedAppend(st.popped, st.queue[0]);
    assert Queued(st.popped) + [] == Queued(st.popped);
    assert Queued(st.queue) == [] + Queued(rest) == Queued(rest);
    assert forall k :: 0 <= k < |rest| ==> rest[k] == st.queue[k + 1];
  }

  lemma PopKeeps(w: nat, r: Reader, i: nat, st: Stream, s: State)
    requires StreamOk(w, r, i, st) && CanDrain(st, Pop)
    ensures var t := DrainStream(s, st, Pop); StreamOk(w, r, i, t) && ConnPlaces(t) == ConnPlaces(st)
  {
    if st.queue != [] {
      if st.queue[0].Bytes? { PopBytesKeeps(w, r, i, st); } else { PopEofKeeps(w, r, i, st); }
    }
  }

  lemma WriteKeeps(w: nat, r: Reader, i: nat, st: Stream, s: State, ok: bool, k: nat)
    requires StreamOk(w, r, i, st) && CanDrain(st, Write(ok, k))
    ensures var t := DrainStream(s, st, Write(ok, k)); StreamOk(w, r, i, t) && ConnPlaces(t) == ConnPlaces(st)
  {
    var data := st.drain.data;
    assert st.written + data == Queued(st.popped);
    assert data == data[..k] + data[k..];
    assert st.written + data[..k] + data[k..] == Queued(st.popped);
    assert st.written + data + [] == st.written + data;
  }

  lemma CountKeeps(w: nat, s: State, i: nat, st: Stream)
    requires w == s.streamWindow < U32 && StreamOk(w, s.reader, i, st) && CanDrain(st, Count)
    ensures var t := DrainStream(s, st, Count); StreamOk(w, s.reader, i, t) && ConnPlaces(t) == ConnPlaces(st)
  {
    assert InHand(DrainStream(s, st, Count).drain) == InHand(st.drain) == [];
  }

  lemma AnnounceKeeps(w: nat, s: State, i: nat, st: Stream, done: bool)
    requires StreamOk(w, s.reader, i, st) && CanDrain(st, Announce(done))
    ensures var t := DrainStream(s, st, Announce(done)); StreamOk(w, s.reader, i, t) && ConnPlaces(t) == ConnPlaces(st)
  {
    assert InHand(DrainStream(s, st, Announce(done)).drain) == InHand(st.drain) == [];
  }

  lemma CreditKeeps(s: State, i: nat, st: Stream, step: DrainStep)
    requires s.connWindow < U32 && s.conn.consumed < Half(s.connWindow)
    requires StreamOk(s.streamWindow, s.reader, i, st) && CanDrain(st, step) && (step.Credit? || step.AnnounceConn?)
    ensures var t, c := DrainStream(s, st, step), DrainConn(s, st, step);
      && StreamOk(s.streamWindow, s.reader, i, t)
      && c.consumed < Half(s.connWindow) && c.received == s.conn.received
      && ConnPlaces(t) + c.consumed + c.announced + c.unsent ==
         ConnPlaces(st) + s.conn.consumed + s.conn.announced + s.conn.unsent
  {
    var t := DrainStream(s, st, step);
    assert InHand(t.drain) == InHand(st.drain) == [];
  }

  lemma DrainKeeps(s: State, i: nat, st: Stream, step: DrainStep)
    requires s.streamWindow < U32 && s.connWindow < U32 && s.conn.consumed < Half(s.connWindow)
    requires StreamOk(s.streamWindow, s.reader, i, st) && CanDrain(st, step)
    ensures var t, c := DrainStream(s, st, step), DrainConn(s, st, step);
      && StreamOk(s.streamWindow, s.reader, i, t) && t.id == st.id && t.rejected == st.rejected
      && c.consumed < Half(s.connWindow) && c.received == s.conn.received
      && ConnPlaces(t) + c.consumed + c.announced + c.unsent ==
         ConnPlaces(st) + s.conn.consumed + s.conn.announced + s.conn.unsent
  {
    if step.Pop? {
      PopKeeps(s.streamWindow, s.reader, i, st, s);
    } else if step.Write? {
      WriteKeeps(s.streamWindow, s.reader, i, st, s, step.ok, step.k);
    } else if step.Count? {
      CountKeeps(s.streamWindow, s, i, st);
    } else if step.Announce? {
      AnnounceKeeps(s.streamWindow, s, i, st, step.sessionDone);
    } else {
      CreditKeeps(s, i, st, step);
    }
  }

  lemma ReceiveKeeps(w: nat, r: Reader, i: nat, st: Stream, data: seq<Byte>)
    requires StreamOk(w, r, i, st) && r.Idle?
    ensures StreamOk(w, Found(i, data), i, Framed(st, Bytes(data)))
  {
    QueuedAppend(st.frames, Bytes(data));
  }

  lemma ReceiveEofKeeps(w: nat, r: Reader, i: nat, st: Stream)
    requires StreamOk(w, r, i, st) && r.Idle?
    ensures StreamOk(w, PushingEof(i), i, Framed(st.(remoteEof := true), EofMark))
  {
    QueuedAppend(st.frames, EofMark);
  }

  lemma EnqueueKeeps(w: nat, r: Reader, i: nat, st: Stream)
    requires StreamOk(w, r, i, st) && r.Pushing? && r.i == i && |r.data| <= MAX_FRAME
    ensures var t := st.(queue := st.queue + [Bytes(r.data)]);
      StreamOk(w, Idle, i, t) && ConnPlaces(t) == ConnPlaces(st) + |r.data|
  {
    QueuedAppend(st.queue, Bytes(r.data));
  }

  lemma EnqueueEofKeeps(w: nat, r: Reader, i: nat, st: Stream)
    requires StreamOk(w, r, i, st) && r == PushingEof(i)
    ensures var t := st.(queue := st.queue + [EofMark]);
      StreamOk(w, Idle, i, t) && ConnPlaces(t) == ConnPlaces(st)
  {
    QueuedAppend(st.queue, EofMark);
    assert Queued(st.queue) + [] == Queued(st.queue);
  }

  lemma RejectKeeps(w: nat, r: Reader, i: nat, st: Stream)
    requires StreamOk(w, r, i, st) && r.Found? && r.i == i
    ensures var t := st.(rejected := true, discarded := st.discarded + |r.data|);
      StreamOk(w, Idle, i, t) && ConnPlaces(t) == ConnPlaces(st) + |r.data|
  {
  }

  /** `r` and `r'` differ only in what the reader is doing to stream `i`. */
  ghost predicate OnlyAt(r: Reader, r': Reader, i: nat) {
    r == r' || forall k: nat :: k != i ==> !At(r, k) && !At(r', k)
  }

  lemma OtherKeeps(w: nat, r: Reader, r': Reader, i: nat, k: nat, st: Stream)
    requires StreamOk(w, r, k, st) && k != i && OnlyAt(r, r', i)
    ensures StreamOk(w, r', k, st)
  {
    assert r != r' ==> !At(r, k) && !At(r', k);
  }

  /** Then on the whole session: one stream replaced, and the books of the connection balanced. */
  lemma Rebuild(s: State, t: State, i: nat)
    requires Inv(s) && i < |s.streams| && |t.streams| == |s.streams|
    requires t.streams == s.streams[i := t.streams[i]]
    requires t.streamWindow == s.streamWindow && t.connWindow == s.connWindow
    requires OnlyAt(s.reader, t.reader, i) && ReaderShape(t.reader)
    requires t.reader.Found? || t.reader.Pushing? || t.reader.PushingEof? ==> t.reader.i < |s.streams|
    requires StreamOk(t.streamWindow, t.reader, i, t.streams[i])
    requires TableOk(t) && t.conn.consumed < Half(t.connWindow)
    requires t.conn.received - ReaderFlight(t.reader) - t.conn.consumed - t.conn.announced - t.conn.unsent
               - ConnPlaces(t.streams[i])
          == s.conn.received - ReaderFlight(s.reader) - s.conn.consumed - s.conn.announced - s.conn.unsent
               - ConnPlaces(s.streams[i])
    ensures Inv(t)
  {
    SumUpdate(s.streams, i, t.streams[i], ConnPlaces);
    forall k | 0 <= k < |t.streams|
      ensures StreamOk(t.streamWindow, t.reader, k, t.streams[k])
    {
      if k != i {
        OtherKeeps(s.streamWindow, s.reader, t.reader, i, k, s.streams[k]);
      }
    }
  }

  lemma DataKeeps(s: State, id: nat, data: seq<Byte>)
    requires Inv(s) && Enabled(s, DataFrame(id, data))
    ensures Inv(Step(s, DataFrame(id, data)))
  {
    var t := Step(s, DataFrame(id, data));
    if id in s.table {
      var i := s.table[id];
      ReceiveKeeps(s.streamWindow, s.reader, i, s.streams[i], data);
      assert TableOk(t);
      Rebuild(s, t, i);
    } else {
      LateKeeps(s, t);
    }
  }

  predicate NoStream(r: Reader) { r.Idle? || r.Unknown? || r.CreditingLate? || r.AnnouncingLate? }

  /** Steps that touch no stream at all. */
  lemma LateKeeps(s: State, t: State)
    requires Inv(s)
    requires t == s.(reader := t.reader, conn := t.conn)
    requires NoStream(s.reader) && NoStream(t.reader)
    requires ReaderShape(t.reader) && TableOk(t) && t.conn.consumed < Half(t.connWindow)
    requires t.conn.received - ReaderFlight(t.reader) - t.conn.consumed - t.conn.announced - t.conn.unsent
          == s.conn.received - ReaderFlight(s.reader) - s.conn.consumed - s.conn.announced - s.conn.unsent
    ensures Inv(t)
  {
    forall k | 0 <= k < |t.streams|
      ensures StreamOk(t.streamWindow, t.reader, k, t.streams[k])
    {
      OtherKeeps(s.streamWindow, s.reader, t.reader, |s.streams|, k, s.streams[k]);
    }
  }

  /** Steps that bring no frame are noted as they are. */
  lemma QuietStep(s: State, e: Event)
    requires Enabled(s, e) && !e.DataFrame? && !e.EofFrame? && !e.CheckReleased?
    ensures Step(s, e) == Act(s, e)
  {
  }

  lemma CheckEofKeeps(s: State)
    requires Inv(s) && Enabled(s, CheckEof)
    ensures Inv(OnCheckEof(s))
  {
    var t, i := OnCheckEof(s), s.reader.i;
    var st := s.streams[i];
    if st.remoteEof {
      RejectKeeps(s.streamWindow, s.reader, i, st);
    } else {
      assert StreamOk(t.streamWindow, t.reader, i, st);
    }
    assert TableOk(t);
    Rebuild(s, t, i);
  }

  lemma PushKeeps(s: State, e: Event)
    requires Inv(s) && Enabled(s, e) && (e.Push? || e.PushEof?)
    ensures Inv(Act(s, e))
  {
    var t, i := Act(s, e), s.reader.i;
    if e.Push? {
      EnqueueKeeps(s.streamWindow, s.reader, i, s.streams[i]);
    } else {
      EnqueueEofKeeps(s.streamWindow, s.reader, i, s.streams[i]);
    }
    assert TableOk(t);
    Rebuild(s, t, i);
  }

  lemma EofOnStreamKeeps(s: State, id: nat)
    requires Inv(s) && Enabled(s, EofFrame(id)) && id in s.table
    ensures Inv(Step(s, EofFrame(id)))
  {
    var t, i := Step(s, EofFrame(id)), s.table[id];
    ReceiveEofKeeps(s.streamWindow, s.reader, i, s.streams[i]);
    assert t.streams[i] == Framed(s.streams[i].(remoteEof := true), EofMark);
    assert TableOk(t);
    Rebuild(s, t, i);
  }

  lemma EofFrameKeeps(s: State, id: nat)
    requires Inv(s) && Enabled(s, EofFrame(id))
    ensures Inv(Step(s, EofFrame(id)))
  {
    if id in s.table {
      EofOnStreamKeeps(s, id);
    } else {
      assert Step(s, EofFrame(id)) == s;
    }
  }

  lemma AbortKeeps(s: State, i: nat)
    requires Inv(s) && Enabled(s, Abort(i))
    ensures Inv(Act(s, Abort(i)))
  {
    var t := Act(s, Abort(i));
    assert StreamOk(s.streamWindow, s.reader, i, s.streams[i]);
    assert StreamOk(t.streamWindow, t.reader, i, t.streams[i]);
    assert TableOk(t);
    Rebuild(s, t, i);
  }

  lemma NewStreamKeeps(w: nat, r: Reader, i: nat, id: nat)
    requires r.Found? || r.Pushing? || r.PushingEof? ==> r.i != i
    ensures StreamOk(w, r, i, NewStream(id)) && ConnPlaces(NewStream(id)) == 0
  {
  }

  lemma EnterKeeps(s: State, id: nat)
    requires Inv(s) && Enabled(s, Enter(id))
    ensures Inv(Act(s, Enter(id)))
  {
    var t, n := Act(s, Enter(id)), |s.streams|;
    NewStreamKeeps(s.streamWindow, s.reader, n, id);
    SumAppend(s.streams, NewStream(id), ConnPlaces);
    assert TableOk(t);
    forall k | 0 <= k < |t.streams|
      ensures StreamOk(t.streamWindow, t.reader, k, t.streams[k])
    {
      if k < n {
        assert StreamOk(s.streamWindow, s.reader, k, s.streams[k]);
      }
    }
  }

  lemma OnDrainKeeps(s: State, i: nat, step: DrainStep)
    requires Inv(s) && Enabled(s, OnDrain(i, step))
    ensures Inv(Act(s, OnDrain(i, step)))
  {
    var t := Act(s, OnDrain(i, step));
    DrainKeeps(s, i, s.streams[i], step);
    assert TableOk(t);
    Rebuild(s, t, i);
  }

  lemma QuietStepKeeps(s: State, e: Event)
    requires Inv(s) && Enabled(s, e) && !e.DataFrame? && !e.EofFrame? && !e.CheckReleased?
    ensures Inv(Act(s, e))
  {
    var t := Act(s, e);
    match e {
      case Enter(id) => EnterKeeps(s, id);
      case CheckEof => CheckEofKeeps(s);
      case Push => PushKeeps(s, e);
      case PushEof => PushKeeps(s, e);
      case Abort(i) => AbortKeeps(s, i);
      case OnDrain(i, step) => OnDrainKeeps(s, i, step);
      case CreditLate => LateKeeps(s, t);
      case AnnounceLate(_) => LateKeeps(s, t);
      case Drop(_) =>
    }
  }

  lemma StepKeepsInv(s: State, e: Event)
    requires Inv(s) && Enabled(s, e)
    ensures Inv(Step(s, e))
  {
    match e {
      case DataFrame(id, data) => DataKeeps(s, id, data);
      case EofFrame(id) => EofFrameKeeps(s, id);
      case CheckReleased => LateKeeps(s, Step(s, e));
      case _ =>
        QuietStep(s, e);
        QuietStepKeeps(s, e);
    }
  }

  // The order of the frames.

  /** Popping moves the front of the queue to the end of what was popped. */
  lemma PopMovesFront(r: Reader, i: nat, st: Stream, t: Stream)
    requires QueuedInOrder(r, i, st) && EofLast(r, i, st) && st.queue != []
    requires t.queue == st.queue[1..] && t.popped == st.popped + [st.queue[0]]
    requires t.frames == st.frames && t.rejected == st.rejected
    requires t.remoteEof == (st.remoteEof || st.queue[0].EofMark?)
    requires t.halfClosed == (st.halfClosed || st.queue[0].EofMark?)
    ensures QueuedInOrder(r, i, t) && EofLast(r, i, t)
    ensures st.halfClosed ==> st.queue[0].EofMark?
  {
    var all := st.popped + st.queue;
    assert t.popped + t.queue == all;
    assert st.queue[0] in all && forall x :: x in all ==> x in st.frames;
    assert all[|st.popped|] == st.queue[0];
    if EofMark in st.popped {
      var j :| 0 <= j < |st.popped| && st.popped[j] == EofMark;
      assert all[j].EofMark?;
    }
  }

  lemma OrderOfPop(w: nat, r: Reader, i: nat, st: Stream, s: State)
    requires Ordered(r, i, st) && StreamOk(w, r, i, st) && CanDrain(st, Pop)
    ensures Ordered(r, i, DrainStream(s, st, Pop))
  {
    if st.queue != [] {
      PopMovesFront(r, i, st, DrainStream(s, st, Pop));
      QueuedAppend(st.popped, st.queue[0]);
      assert st.written + [] == st.written && Queued(st.popped) + [] == Queued(st.popped);
    }
  }

  /** The other steps of the drain, and an abort, leave queue and flags alone. */
  lemma OrderStays(r: Reader, i: nat, st: Stream, t: Stream)
    requires Ordered(r, i, st) && t.queue == st.queue && t.frames == st.frames && t.popped == st.popped
    requires t.remoteEof == st.remoteEof && t.halfClosed == st.halfClosed && t.rejected == st.rejected
    requires st.halfClosed ==> (t.drain.Popping? || t.drain.Stopped?) && t.written == st.written
    ensures Ordered(r, i, t)
  {
  }

  lemma OrderOfFrame(r: Reader, i: nat, st: Stream, item: Item)
    requires Ordered(r, i, st) && r.Idle? && !st.rejected
    ensures Ordered(if item.EofMark? then PushingEof(i) else Found(i, item.data), i,
                    Framed(st.(remoteEof := st.remoteEof || item.EofMark?), item))
  {
    assert st.popped + st.queue + [] == st.frames;
  }

  lemma OrderOfPush(r: Reader, i: nat, st: Stream)
    requires Ordered(r, i, st) && (r.Pushing? || r.PushingEof?) && r.i == i
    ensures Ordered(Idle, i, st.(queue := st.queue + Hand(r, i)))
  {
    var t := st.(queue := st.queue + Hand(r, i));
    assert t.popped + t.queue == st.popped + st.queue + Hand(r, i) == st.frames;
    assert t.popped + t.queue + [] == st.frames;
    assert forall k :: 0 <= k < |st.popped + st.queue| ==> (t.popped + t.queue)[k] == (st.popped + st.queue)[k];
    assert forall x :: x in st.popped + st.queue ==> x in st.frames;
  }

  lemma OrderOfCheck(r: Reader, i: nat, st: Stream)
    requires Ordered(r, i, st) && r.Found? && r.i == i
    ensures st.remoteEof ==> Ordered(Idle, i, st.(rejected := true, discarded := st.discarded + |r.data|))
    ensures !st.remoteEof ==> Ordered(Pushing(i, r.data), i, st)
  {
  }

  lemma OrderElsewhere(r: Reader, r': Reader, i: nat, k: nat, st: Stream)
    requires Ordered(r, k, st) && k != i && OnlyAt(r, r', i)
    ensures Ordered(r', k, st)
  {
    assert r != r' ==> !At(r, k) && !At(r', k);
  }

  lemma RebuildOrder(s: State, t: State, i: nat)
    requires Orderly(s) && i < |s.streams| && |t.streams| == |s.streams|
    requires t.streams == s.streams[i := t.streams[i]] && OnlyAt(s.reader, t.reader, i)
    requires Ordered(t.reader, i, t.streams[i])
    ensures Orderly(t)
  {
    forall k | 0 <= k < |t.streams| ensures Ordered(t.reader, k, t.streams[k]) {
      if k != i {
        OrderElsewhere(s.reader, t.reader, i, k, s.streams[k]);
      }
    }
  }

  lemma LateKeepsOrder(s: State, t: State)
    requires Orderly(s) && t.streams == s.streams && NoStream(s.reader) && NoStream(t.reader)
    ensures Orderly(t)
  {
    forall k | 0 <= k < |t.streams| ensures Ordered(t.reader, k, t.streams[k]) {
      OrderElsewhere(s.reader, t.reader, |s.streams|, k, s.streams[k]);
    }
  }

  lemma FrameKeepsOrder(s: State, e: Event)
    requires Inv(s) && Orderly(s) && Enabled(s, e) && (e.DataFrame? || e.EofFrame?)
    ensures Orderly(Step(s, e))
  {
    var t := Step(s, e);
    if e.id in s.table {
      var i := s.table[e.id];
      OrderOfFrame(s.reader, i, s.streams[i], if e.EofFrame? then EofMark else Bytes(e.data));
      RebuildOrder(s, t, i);
    } else if e.DataFrame? {
      LateKeepsOrder(s, t);
    }
  }

  lemma OrderOfDrain(w: nat, r: Reader, i: nat, st: Stream, s: State, step: DrainStep)
    requires Ordered(r, i, st) && StreamOk(w, r, i, st) && CanDrain(st, step)
    ensures Ordered(r, i, DrainStream(s, st, step))
  {
    if step.Pop? {
      OrderOfPop(w, r, i, st, s);
    } else {
      OrderStays(r, i, st, DrainStream(s, st, step));
    }
  }

  lemma DrainKeepsOrder(s: State, i: nat, step: DrainStep)
    requires Inv(s) && Orderly(s) && Enabled(s, OnDrain(i, step))
    ensures Orderly(Act(s, OnDrain(i, step)))
  {
    OrderOfDrain(s.streamWindow, s.reader, i, s.streams[i], s, step);
    RebuildOrder(s, Act(s, OnDrain(i, step)), i);
  }

  lemma ReaderKeepsOrder(s: State, e: Event)
    requires Inv(s) && Orderly(s) && Enabled(s, e) && (e.CheckEof? || e.Push? || e.PushEof?)
    ensures Orderly(Act(s, e))
  {
    var i := s.reader.i;
    if e.CheckEof? {
      OrderOfCheck(s.reader, i, s.streams[i]);
    } else {
      OrderOfPush(s.reader, i, s.streams[i]);
    }
    RebuildOrder(s, Act(s, e), i);
  }

  lemma QuietStepKeepsOrder(s: State, e: Event)
    requires Inv(s) && Orderly(s) && Enabled(s, e) && !e.DataFrame? && !e.EofFrame? && !e.CheckReleased?
    ensures Orderly(Act(s, e))
  {
    match e {
      case Enter(id) =>
        assert forall k :: 0 <= k < |s.streams| ==> Ordered(s.reader, k, s.streams[k]);
      case CheckEof => ReaderKeepsOrder(s, e);
      case Push => ReaderKeepsOrder(s, e);
      case PushEof => ReaderKeepsOrder(s, e);
      case Abort(i) =>
        OrderStays(s.reader, i, s.streams[i], s.streams[i].(cancelled := true));
        RebuildOrder(s, Act(s, e), i);
      case OnDrain(i, step) => DrainKeepsOrder(s, i, step);
      case CreditLate => LateKeepsOrder(s, Act(s, e));
      case AnnounceLate(_) => LateKeepsOrder(s, Act(s, e));
      case Drop(_) =>
    }
  }

  lemma StepKeepsOrder(s: State, e: Event)
    requires Inv(s) && Orderly(s) && Enabled(s, e)
    ensures Orderly(Step(s, e))
  {
    if e.DataFrame? || e.EofFrame? {
      FrameKeepsOrder(s, e);
    } else if e.CheckReleased? {
      LateKeepsOrder(s, Step(s, e));
    } else {
      QuietStep(s, e);
      QuietStepKeepsOrder(s, e);
    }
  }

  lemma {:induction false} WindowsStayFixed(s: State, events: seq<Event>)
    ensures var r := Exec(s, events);
      r.Some? ==> r.value.streamWindow == s.streamWindow && r.value.connWindow == s.connWindow
    decreases |events|
  {
    if events != [] && Enabled(s, events[0]) {
      WindowsStayFixed(Step(s, events[0]), events[1..]);
    }
  }

  lemma {:induction false} EveryRunConserves(s: State, events: seq<Event>)
    requires Inv(s) && Orderly(s)
    ensures Exec(s, events).Some? ==> Inv(Exec(s, events).value) && Orderly(Exec(s, events).value)
    decreases |events|
  {
    if events != [] && Enabled(s, events[0]) {
      StepKeepsInv(s, events[0]);
      StepKeepsOrder(s, events[0]);
      EveryRunConserves(Step(s, events[0]), events[1..]);
    }
  }

  // Nobody stands still.

  function DrainWork(st: Stream): nat {
    7 * |st.queue| +
    match st.drain
    case Writing(_) => 6
    case Counting(_) => 5
    case Announcing(_, _) => 4
    case Crediting(_) => 3
    case AnnouncingConn(_) => 2
    case Popping => if st.cancelled then 1 else 0
    case Stopped => 0
  }

  /**
   * A drain with something queued or in hand has a step that leaves it less, and one that was
   * aborted stops once its queue is empty; the others wait for the reader.
   */
  lemma DrainGoesOn(s: State, i: nat) returns (step: DrainStep)
    requires i < |s.streams| && !s.streams[i].drain.Stopped?
    requires s.streams[i].drain.Popping? ==> s.streams[i].queue != [] || s.streams[i].cancelled
    ensures Enabled(s, OnDrain(i, step))
    ensures DrainWork(DrainStream(s, s.streams[i], step)) < DrainWork(s.streams[i])
  {
    step := match s.streams[i].drain
      case Writing(_) => Write(true, 0)
      case Counting(_) => Count
      case Announcing(_, _) => Announce(false)
      case Crediting(_) => Credit
      case AnnouncingConn(_) => AnnounceConn(false)
      case _ => Pop;
  }

  /** An abort reaches a drain that waits: it may then stop. */
  lemma AbortReachesDrain(s: State, i: nat)
    requires i < |s.streams| && s.streams[i].drain.Popping? && s.streams[i].queue == []
    ensures Enabled(s, Abort(i))
    ensures var t := Act(s, Abort(i));
      Enabled(t, OnDrain(i, Pop)) && DrainStream(t, t.streams[i], Pop).drain.Stopped?
  {
  }

  function ReaderWork(r: Reader): nat {
    match r
    case Idle => 0
    case Found(_, _) => 2
    case Unknown(_, _, _) => 3
    case Pushing(_, _) => 1
    case PushingEof(_) => 1
    case CreditingLate(_) => 2
    case AnnouncingLate(_) => 1
  }

  /** The reader always finishes the frame it has in hand. */
  lemma ReaderGoesOn(s: State) returns (e: Event)
    requires Inv(s) && !s.reader.Idle?
    ensures Enabled(s, e) && ReaderWork(Step(s, e).reader) < ReaderWork(s.reader)
  {
    e := match s.reader
      case Found(_, _) => CheckEof
      case Unknown(_, _, _) => CheckReleased
      case Pushing(_, _) => Push
      case PushingEof(_) => PushEof
      case CreditingLate(_) => CreditLate
      case _ => AnnounceLate(false);
  }

  /** A stream whose bytes are all accounted for: still in the table, drained, nothing in hand. */
  predicate Drained(s: State, i: nat) {
    && i < |s.streams|
    && s.streams[i].id in s.table && s.table[s.streams[i].id] == i
    && s.streams[i].drain.Popping? && s.streams[i].queue == [] && !At(s.reader, i)
  }

  /** What the peer may still send on a stream, by the frames that crossed the wire. */
  function PeerCredit(window: nat, announced: nat, received: nat): int { window + announced - received }

  lemma DrainedLeavesCredit(s: State, i: nat)
    requires Inv(s) && Drained(s, i) && s.streamWindow >= 1 && s.streams[i].unsent == 0
    ensures var st := s.streams[i];
      PeerCredit(s.streamWindow, st.announced, |Received(st)|) >= s.streamWindow - (Half(s.streamWindow) - 1) >= 1
  {
    assert StreamOk(s.streamWindow, s.reader, i, s.streams[i]);
    assert !s.streams[s.table[s.streams[i].id]].rejected;
  }

  lemma {:induction false} QueuedConcat(a: seq<Item>, b: seq<Item>)
    ensures Queued(a + b) == Queued(a) + Queued(b)
  {
    if b == [] {
      assert a + b == a;
    } else {
      var front, last := b[..|b| - 1], b[|b| - 1];
      QueuedConcat(a, front);
      QueuedAppend(a + front, last);
      QueuedAppend(front, last);
      assert a + b == (a + front) + [last] && b == front + [last];
    }
  }

  lemma WrittenIsPrefix(s: State, i: nat)
    requires Inv(s) && Orderly(s) && i < |s.streams|
    ensures s.streams[i].written <= Received(s.streams[i])
  {
    var st := s.streams[i];
    assert StreamOk(s.streamWindow, s.reader, i, st) && QueuedInOrder(s.reader, i, st);
    assert st.popped <= st.frames;
    QueuedConcat(st.popped, st.frames[|st.popped|..]);
    assert st.popped + st.frames[|st.popped|..] == st.frames;
  }

  /** The destination is closed for writing at the peer's end of file, after all that came before it. */
  lemma HalfCloseComesLast(s: State, i: nat)
    requires Inv(s) && Orderly(s) && i < |s.streams| && s.streams[i].halfClosed
    ensures var st := s.streams[i];
      && EofMark in st.frames && Queued(st.queue) == []
      && st.written == Queued(st.popped + st.queue)
      && (!st.rejected && !At(s.reader, i) ==> st.written == Received(st))
  {
    var st := s.streams[i];
    assert QueuedInOrder(s.reader, i, st) && EofLast(s.reader, i, st) && ClosedAfterAll(st);
    var j :| 0 <= j < |st.popped| && st.popped[j].EofMark?;
    var all := st.popped + st.queue;
    assert all[j].EofMark?;
    assert all[j] == st.popped[j] && j in {j};
    forall k | 0 <= k < |st.queue| ensures st.queue[k].EofMark? {
      assert all[|st.popped| + k] == st.queue[k];
    }
    MarksHoldNothing(st.queue);
    QueuedConcat(st.popped, st.queue);
    assert all + [] == all;
  }

  lemma {:induction false} MarksHoldNothing(queue: seq<Item>)
    requires forall k :: 0 <= k < |queue| ==> queue[k].EofMark?
    ensures Queued(queue) == []
  {
    if queue != [] {
      MarksHoldNothing(queue[1..]);
    }
  }

  /**
   * For any schedule: what the socket got is a prefix of what the peer sent; credit returned
   * never exceeds bytes received; a drained live stream of a session still able to send leaves
   * the peer at least half its window, so never zero; and the connection credit the peer is
   * short of is exactly what is still counted, in flight, queued or discarded.
   */
  lemma {:induction false} CreditReturned(streamWindow: nat, connWindow: nat, events: seq<Event>)
    requires streamWindow < U32 && connWindow < U32
    ensures var r := Exec(Start(streamWindow, connWindow), events);
      r.Some? ==>
        var s := r.value;
        && (forall i :: 0 <= i < |s.streams| ==>
              var st := s.streams[i];
              && st.written <= Received(st)
              && st.announced <= |Received(st)|
              && (Drained(s, i) && streamWindow >= 1 && st.unsent == 0 ==>
                    PeerCredit(streamWindow, st.announced, |Received(st)|)
                      >= streamWindow - (Half(streamWindow) - 1) >= 1))
        && s.conn.announced <= s.conn.received
        && PeerCredit(connWindow, s.conn.announced, s.conn.received) ==
           connWindow - s.conn.consumed - s.conn.unsent - ReaderFlight(s.reader) - Sum(s.streams, ConnPlaces)
  {
    EveryRunConserves(Start(streamWindow, connWindow), events);
    WindowsStayFixed(Start(streamWindow, connWindow), events);
    var r := Exec(Start(streamWindow, connWindow), events);
    if r.Some? {
      var s := r.value;
      SumNonNegative(s.streams, ConnPlaces);
      forall i | 0 <= i < |s.streams|
        ensures s.streams[i].written <= Received(s.streams[i])
        ensures s.streams[i].announced <= |Received(s.streams[i])|
        ensures Drained(s, i) && streamWindow >= 1 && s.streams[i].unsent == 0 ==>
          PeerCredit(streamWindow, s.streams[i].announced, |Received(s.streams[i])|)
            >= streamWindow - (Half(streamWindow) - 1) >= 1
      {
        WrittenIsPrefix(s, i);
        assert StreamConserved(s.reader, i, s.streams[i]);
        if Drained(s, i) && streamWindow >= 1 && s.streams[i].unsent == 0 {
          DrainedLeavesCredit(s, i);
        }
      }
    }
  }
}
