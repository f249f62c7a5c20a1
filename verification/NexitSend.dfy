/**
 * The sending half of a nexit/1 session: any number of pumps, one per TCP stream, spending
 * their own window and the shared connection window while WINDOW frames, resets and shutdown
 * arrive in between. Every critical section of the source is one step.
 */
module NexitSend {
  import opened Sums
  import opened Wrappers
  import opened Bytes
  import opened NexitCredit

  datatype Frame = Data(bytes: seq<Byte>) | Eof | Rst

  /** Where a pump stands; the numbers are credit it has taken and not yet sent or returned. */
  datatype Pump =
    | Reading
    | WantStream(p: seq<Byte>)
    | WantConn(p: seq<Byte>, n: nat)
    | Refund(n: nat)
    | Trim(p: seq<Byte>, n: nat, m: nat)
    | Sending(p: seq<Byte>, m: nat)
    | Ending
    | Dropping
    | Resetting
    | Stopped(lost: nat)

  /** How reading the socket ended, if it has: end of file, an error, or an error after an abort. */
  datatype Ending = StillOpen | AtEof | Failed | Aborted

  /**
   * `read`, `ended` and `wire` record everything the socket gave, how it ended, and every frame
   * the pump queued.
   */
  datatype Stream = Stream(
    window: Window, increments: nat, cancelled: bool,
    pump: Pump, read: seq<Byte>, ended: Ending, wire: seq<Frame>)

  /** `done` is the end of the session; a send then may be refused. */
  datatype State = State(
    streamWindow: nat, connWindow: nat,
    conn: Window, connIncrements: nat, done: bool, streams: seq<Stream>)

  /** A step on one stream: a frame or a shutdown reaching it, or its own pump moving on. */
  datatype Action =
    | Increment(inc: nat)
    | Close
    | Cancel
    | Read(data: seq<Byte>)
    | ReadEof
    | ReadError
    | DropStream
    | SendRst(refused: bool)
    | TakeStream
    | TakeConn
    | RefundAll
    | TrimExcess
    | Send(refused: bool)
    | SendEof(refused: bool)

  datatype Event =
    | Open
    | ConnIncrement(inc: nat)
    | CloseConn
    | Finish
    | OnStream(i: nat, action: Action)

  /** A blocked `take` is not a step: the pump sleeps until a window or its context changes. */
  predicate CanAct(st: Stream, conn: Window, a: Action) {
    match a
    case Increment(_) | Close | Cancel => true
    case Read(data) => st.pump.Reading? && 1 <= |data| <= MAX_FRAME
    case ReadEof => st.pump.Reading?
    case ReadError => st.pump.Reading?
    case DropStream => st.pump.Dropping?
    case SendRst(_) => st.pump.Resetting?
    case TakeStream => st.pump.WantStream? && !TakeOutcome(st.window, |st.pump.p|, st.cancelled).Blocked?
    case TakeConn => st.pump.WantConn? && !TakeOutcome(conn, st.pump.n, st.cancelled).Blocked?
    case RefundAll => st.pump.Refund?
    case TrimExcess => st.pump.Trim?
    case Send(_) => st.pump.Sending? && st.pump.m <= |st.pump.p|
    case SendEof(_) => st.pump.Ending?
  }

  predicate Refused(a: Action) { (a.Send? || a.SendEof? || a.SendRst?) && a.refused }

  predicate Enabled(s: State, e: Event) {
    e.OnStream? ==>
      e.i < |s.streams| && CanAct(s.streams[e.i], s.conn, e.action) && (Refused(e.action) ==> s.done)
  }

  function NextPump(p: seq<Byte>): Pump {
    if p == [] then Reading else WantStream(p)
  }

  // One function per step of the pump; `conn` is the connection window it meets.

  function OnIncrement(st: Stream, inc: nat): Stream {
    st.(window := Added(st.window, inc), increments := st.increments + inc)
  }

  function OnClose(st: Stream): Stream { st.(window := st.window.(closed := true)) }

  function OnRead(st: Stream, data: seq<Byte>): Stream {
    st.(pump := WantStream(data), read := st.read + data)
  }

  function OnReadEof(st: Stream): Stream { st.(ended := AtEof, pump := Ending) }

  /** An error that an abort explains ends the pump without a frame. */
  function OnReadError(st: Stream): Stream {
    if st.cancelled then st.(ended := Aborted, pump := Stopped(0)) else st.(ended := Failed, pump := Dropping)
  }

  function OnDropStream(st: Stream): Stream { OnClose(st).(cancelled := true, pump := Resetting) }

  /** The stream's last frame, unless the session is over. */
  function OnLastFrame(st: Stream, f: Frame, refused: bool): Stream {
    st.(pump := Stopped(0), wire := if refused then st.wire else st.wire + [f])
  }

  function OnTakeStream(st: Stream): Stream
    requires st.pump.WantStream?
  {
    match TakeOutcome(st.window, |st.pump.p|, st.cancelled)
    case Granted(n) =>
      st.(window := AfterTake(st.window, |st.pump.p|, st.cancelled), pump := WantConn(st.pump.p, n))
    case _ => st.(pump := Stopped(0))
  }

  function OnTakeConn(st: Stream, conn: Window): Stream
    requires st.pump.WantConn?
  {
    match TakeOutcome(conn, st.pump.n, st.cancelled)
    case Granted(m) =>
      st.(pump := if m < st.pump.n then Trim(st.pump.p, st.pump.n, m) else Sending(st.pump.p, m))
    case _ => st.(pump := Refund(st.pump.n))
  }

  function OnRefund(st: Stream): Stream
    requires st.pump.Refund?
  {
    st.(window := Added(st.window, st.pump.n), pump := Stopped(0))
  }

  function OnTrim(st: Stream): Stream
    requires st.pump.Trim?
  {
    st.(window := Added(st.window, st.pump.n - st.pump.m), pump := Sending(st.pump.p, st.pump.m))
  }

  function OnSend(st: Stream, refused: bool): Stream
    requires st.pump.Sending? && st.pump.m <= |st.pump.p|
  {
    if refused then st.(pump := Stopped(st.pump.m))
    else
      var p, m := st.pump.p, st.pump.m;
      st.(wire := st.wire + [Data(p[..m])], pump := NextPump(p[m..]))
  }

  function Act(st: Stream, conn: Window, a: Action): Stream
    requires CanAct(st, conn, a)
  {
    match a
    case Increment(inc) => OnIncrement(st, inc)
    case Close => OnClose(st)
    case Cancel => st.(cancelled := true)
    case Read(data) => OnRead(st, data)
    case ReadEof => OnReadEof(st)
    case ReadError => OnReadError(st)
    case DropStream => OnDropStream(st)
    case SendRst(refused) => OnLastFrame(st, Rst, refused)
    case TakeStream => OnTakeStream(st)
    case TakeConn => OnTakeConn(st, conn)
    case RefundAll => OnRefund(st)
    case TrimExcess => OnTrim(st)
    case Send(refused) => OnSend(st, refused)
    case SendEof(refused) => OnLastFrame(st, Eof, refused)
  }

  /** Only taking connection credit changes the connection window. */
  function ConnAfter(st: Stream, conn: Window, a: Action): Window
    requires CanAct(st, conn, a)
  {
    if a.TakeConn? then AfterTake(conn, st.pump.n, st.cancelled) else conn
  }

  function Step(s: State, e: Event): State
    requires Enabled(s, e)
  {
    match e
    case Open =>
      s.(streams := s.streams + [Stream(Window(s.streamWindow, false), 0, false, Reading, [], StillOpen, [])])
    case ConnIncrement(inc) => s.(conn := Added(s.conn, inc), connIncrements := s.connIncrements + inc)
    case CloseConn => s.(conn := s.conn.(closed := true))
    case Finish => s.(done := true)
    case OnStream(i, a) =>
      s.(streams := s.streams[i := Act(s.streams[i], s.conn, a)],
         conn := ConnAfter(s.streams[i], s.conn, a))
  }

  function Exec(s: State, events: seq<Event>): Option<State>
    decreases |events|
  {
    if events == [] then Some(s)
    else if !Enabled(s, events[0]) then None
    else Exec(Step(s, events[0]), events[1..])
  }

  function Start(streamWindow: nat, connWindow: nat): State {
    State(streamWindow, connWindow, Window(connWindow, false), 0, false, [])
  }

  // What the frames and the pumps add up to.

  function DataOf(wire: seq<Frame>): seq<Byte> {
    if wire == [] then []
    else DataOf(wire[..|wire| - 1]) + (if wire[|wire| - 1].Data? then wire[|wire| - 1].bytes else [])
  }

  lemma DataOfAppend(wire: seq<Frame>, f: Frame)
    ensures DataOf(wire + [f]) == DataOf(wire) + (if f.Data? then f.bytes else [])
  {
    assert (wire + [f])[..|wire|] == wire;
  }

  function StreamHeld(p: Pump): nat {
    match p
    case WantConn(_, n) => n
    case Refund(n) => n
    case Trim(_, n, _) => n
    case Sending(_, m) => m
    case Stopped(lost) => lost
    case _ => 0
  }

  function ConnHeld(p: Pump): nat {
    match p
    case Trim(_, _, m) => m
    case Sending(_, m) => m
    case Stopped(lost) => lost
    case _ => 0
  }

  function Unsent(p: Pump): seq<Byte> {
    match p
    case WantStream(p) => p
    case WantConn(p, _) => p
    case Trim(p, _, _) => p
    case Sending(p, _) => p
    case _ => []
  }

  ghost function Sent(st: Stream): int { |DataOf(st.wire)| }
  ghost function ConnSpent(st: Stream): int { ConnHeld(st.pump) + Sent(st) }

  // The laws.

  predicate PumpShape(p: Pump) {
    match p
    case WantStream(p) => 1 <= |p| <= MAX_FRAME
    case WantConn(p, n) => 1 <= n <= |p| <= MAX_FRAME
    case Trim(p, n, m) => 1 <= m < n <= |p| <= MAX_FRAME
    case Sending(p, m) => 1 <= m <= |p| <= MAX_FRAME
    case _ => true
  }

  /** available + held by the pump + DATA bytes sent = initial window + increments received. */
  ghost predicate StreamConserved(s: State, st: Stream) {
    && st.window.avail >= 0
    && st.window.avail + StreamHeld(st.pump) + Sent(st) == s.streamWindow + st.increments
  }

  /** DATA is a prefix of what was read, in frames of legal size, and EOF only closes all of it. */
  ghost predicate InOrder(st: Stream) {
    && DataOf(st.wire) <= st.read
    && (!st.pump.Stopped? && !st.pump.Refund? ==> DataOf(st.wire) + Unsent(st.pump) == st.read)
    && (forall k :: 0 <= k < |st.wire| && st.wire[k].Data? ==> 1 <= |st.wire[k].bytes| <= MAX_FRAME)
    && (forall k :: 0 <= k < |st.wire| && !st.wire[k].Data? ==> k == |st.wire| - 1 && st.pump.Stopped?)
    && (st.wire != [] && st.wire[|st.wire| - 1].Eof? ==> DataOf(st.wire) == st.read)
  }

  /** The last frame tells how the socket ended, and nothing but the end of the session withholds it. */
  predicate EndsRight(done: bool, st: Stream) {
    && (st.pump.Ending? ==> st.ended.AtEof?)
    && (st.pump.Dropping? ==> st.ended.Failed?)
    && (st.pump.Resetting? ==> st.ended.Failed? && st.cancelled && st.window.closed)
    && (!st.ended.StillOpen? ==> st.pump.Ending? || st.pump.Dropping? || st.pump.Resetting? || st.pump.Stopped?)
    && (st.wire != [] && st.wire[|st.wire| - 1].Eof? ==> st.ended.AtEof?)
    && (st.wire != [] && st.wire[|st.wire| - 1].Rst? ==> st.ended.Failed?)
    && (st.pump.Stopped? && (st.ended.AtEof? || st.ended.Failed?) && !done ==>
          st.wire != [] && st.wire[|st.wire| - 1] == if st.ended.AtEof? then Eof else Rst)
    && (st.pump.Stopped? && st.pump.lost > 0 ==> done)
  }

  ghost predicate StreamOk(s: State, st: Stream) {
    PumpShape(st.pump) && StreamConserved(s, st) && InOrder(st)
  }

  ghost predicate ConnConserved(s: State) {
    && s.conn.avail >= 0
    && s.conn.avail + Sum(s.streams, ConnSpent) == s.connWindow + s.connIncrements
  }

  ghost predicate Inv(s: State) {
    && ConnConserved(s)
    && forall i :: 0 <= i < |s.streams| ==> StreamOk(s, s.streams[i]) && EndsRight(s.done, s.streams[i])
  }

  /** Steps that touch neither the socket's bytes nor the frames keep the order law. */
  lemma QuietStepOk(s: State, st: Stream, t: Stream)
    requires StreamOk(s, st) && PumpShape(t.pump) && StreamConserved(s, t)
    requires t.read == st.read && t.wire == st.wire
    requires Unsent(t.pump) == Unsent(st.pump) || t.pump.Stopped? || t.pump.Refund?
    requires st.pump.Stopped? || st.pump.Refund? ==> t.pump.Stopped? || t.pump.Refund?
    requires st.pump.Stopped? ==> t.pump.Stopped?
    ensures StreamOk(s, t)
  {
  }

  lemma ReadOk(s: State, st: Stream, data: seq<Byte>)
    requires StreamOk(s, st) && st.pump.Reading? && 1 <= |data| <= MAX_FRAME
    ensures StreamOk(s, OnRead(st, data))
  {
    assert DataOf(st.wire) == st.read;
  }

  lemma LastFrameOk(s: State, st: Stream, f: Frame, t: Stream)
    requires StreamOk(s, st) && (st.pump.Resetting? || st.pump.Ending?) && !f.Data?
    requires f == if st.pump.Ending? then Eof else Rst
    requires t.pump == Stopped(0) && t.read == st.read && t.wire == st.wire + [f] && t.ended == st.ended
    requires t.window.avail == st.window.avail && t.increments == st.increments
    ensures StreamOk(s, t) && Sent(t) == Sent(st)
  {
    DataOfAppend(st.wire, f);
    assert DataOf(st.wire) == st.read;
  }

  /** One more frame of what is in hand: the data so far, what is left, and the bytes sent. */
  lemma SendData(st: Stream)
    requires st.pump.Sending? && st.pump.m <= |st.pump.p| && DataOf(st.wire) + st.pump.p == st.read
    ensures var t := OnSend(st, false);
      DataOf(t.wire) == DataOf(st.wire) + st.pump.p[..st.pump.m] && DataOf(t.wire) + Unsent(t.pump) == st.read
  {
    var p, m := st.pump.p, st.pump.m;
    DataOfAppend(st.wire, Data(p[..m]));
    assert DataOf(st.wire) + p[..m] + p[m..] == DataOf(st.wire) + p;
    assert Unsent(OnSend(st, false).pump) == p[m..];
  }

  lemma SendOk(s: State, st: Stream)
    requires StreamOk(s, st) && st.pump.Sending?
    ensures StreamOk(s, OnSend(st, false)) && ConnSpent(OnSend(st, false)) == ConnSpent(st)
  {
    var t := OnSend(st, false);
    SendData(st);
    assert t.read == st.read && |t.wire| == |st.wire| + 1;
    assert DataOf(t.wire) <= t.read;
    assert forall k :: 0 <= k < |st.wire| ==> t.wire[k] == st.wire[k] && st.wire[k].Data?;
    assert t.wire[|st.wire|].Data?;
  }

  lemma TakeStreamOk(s: State, st: Stream)
    requires StreamOk(s, st) && st.pump.WantStream?
    ensures StreamOk(s, OnTakeStream(st)) && ConnSpent(OnTakeStream(st)) == ConnSpent(st)
  {
    QuietStepOk(s, st, OnTakeStream(st));
  }

  lemma TakeConnOk(s: State, st: Stream)
    requires StreamOk(s, st) && s.conn.avail >= 0 && CanAct(st, s.conn, TakeConn)
    ensures var t := OnTakeConn(st, s.conn);
      && StreamOk(s, t)
      && ConnSpent(t) == ConnSpent(st) + s.conn.avail - ConnAfter(st, s.conn, TakeConn).avail
      && ConnAfter(st, s.conn, TakeConn).avail >= 0
  {
    QuietStepOk(s, st, OnTakeConn(st, s.conn));
  }

  /** Ends of a pump's life, where the last frame (if any) is not DATA. */
  lemma EndOk(s: State, st: Stream, a: Action)
    requires StreamOk(s, st) && CanAct(st, s.conn, a) && (a.SendRst? || a.SendEof?)
    ensures StreamOk(s, Act(st, s.conn, a)) && ConnSpent(Act(st, s.conn, a)) == ConnSpent(st)
  {
    var t := Act(st, s.conn, a);
    if !a.refused {
      LastFrameOk(s, st, if a.SendRst? then Rst else Eof, t);
    } else {
      QuietStepOk(s, st, t);
    }
  }

  lemma ActKeeps(s: State, st: Stream, a: Action)
    requires StreamOk(s, st) && s.conn.avail >= 0 && CanAct(st, s.conn, a)
    ensures var t := Act(st, s.conn, a);
      && StreamOk(s, t)
      && ConnSpent(t) == ConnSpent(st) + s.conn.avail - ConnAfter(st, s.conn, a).avail
      && ConnAfter(st, s.conn, a).avail >= 0
  {
    if a.Read? {
      ReadOk(s, st, a.data);
    } else if a.SendRst? || a.SendEof? {
      EndOk(s, st, a);
    } else if a == Send(false) {
      SendOk(s, st);
    } else if a.TakeStream? {
      TakeStreamOk(s, st);
    } else if a.TakeConn? {
      TakeConnOk(s, st);
    } else {
      QuietActKeeps(s, st, a);
    }
  }

  lemma QuietActKeeps(s: State, st: Stream, a: Action)
    requires StreamOk(s, st) && CanAct(st, s.conn, a) && !a.Read? && !a.TakeStream? && !a.TakeConn?
    requires !a.SendRst? && !a.SendEof? && a != Send(false)
    ensures StreamOk(s, Act(st, s.conn, a)) && ConnSpent(Act(st, s.conn, a)) == ConnSpent(st)
    ensures ConnAfter(st, s.conn, a) == s.conn
  {
    QuietStepOk(s, st, Act(st, s.conn, a));
  }

  lemma LastFrameEndsRight(done: bool, st: Stream, a: Action, conn: Window)
    requires EndsRight(done, st) && CanAct(st, conn, a) && (a.SendRst? || a.SendEof?) && (Refused(a) ==> done)
    ensures EndsRight(done, Act(st, conn, a))
  {
  }

  lemma DataEndsRight(done: bool, st: Stream, refused: bool)
    requires EndsRight(done, st) && st.pump.Sending? && st.pump.m <= |st.pump.p| && (refused ==> done)
    ensures EndsRight(done, OnSend(st, refused))
  {
    assert !refused ==> OnSend(st, refused).wire[|st.wire|].Data?;
  }

  lemma ActEndsRight(done: bool, st: Stream, a: Action, conn: Window)
    requires EndsRight(done, st) && CanAct(st, conn, a) && (Refused(a) ==> done)
    ensures EndsRight(done, Act(st, conn, a))
  {
    if a.SendRst? || a.SendEof? {
      LastFrameEndsRight(done, st, a, conn);
    } else if a.Send? {
      DataEndsRight(done, st, a.refused);
    } else {
      assert Act(st, conn, a).wire == st.wire;
    }
  }

  lemma StepKeepsInv(s: State, e: Event)
    requires Inv(s) && Enabled(s, e)
    ensures Inv(Step(s, e))
  {
    var t := Step(s, e);
    match e {
      case Open => SumAppend(s.streams, t.streams[|s.streams|], ConnSpent);
      case ConnIncrement(_) =>
      case CloseConn =>
      case Finish =>
      case OnStream(i, a) =>
        ActKeeps(s, s.streams[i], a);
        ActEndsRight(s.done, s.streams[i], a, s.conn);
        SumUpdate(s.streams, i, Act(s.streams[i], s.conn, a), ConnSpent);
    }
    forall i | 0 <= i < |t.streams|
      ensures StreamOk(t, t.streams[i]) && EndsRight(t.done, t.streams[i])
    {
      assert i < |s.streams| ==> StreamOk(s, s.streams[i]) && EndsRight(s.done, s.streams[i]);
    }
  }

  /** Every reachable state of every interleaving satisfies the conservation and order laws. */
  lemma {:induction false} EveryRunConserves(s: State, events: seq<Event>)
    requires Inv(s)
    ensures Exec(s, events).Some? ==> Inv(Exec(s, events).value)
    decreases |events|
  {
    if events != [] && Enabled(s, events[0]) {
      StepKeepsInv(s, events[0]);
      EveryRunConserves(Step(s, events[0]), events[1..]);
    }
  }

  lemma {:induction false} WindowsStayFixed(s: State, events: seq<Event>)
    ensures var r := Exec(s, events);
      r.Some? ==> r.value.streamWindow == s.streamWindow && r.value.connWindow == s.connWindow
    decreases |events|
  {
    if events != [] && Enabled(s, events[0]) {
      WindowsStayFixed(Step(s, events[0]), events[1..]);
    }
  }

  lemma {:induction false} SentAtMostSpent(streams: seq<Stream>)
    ensures Sum(streams, Sent) <= Sum(streams, ConnSpent)
  {
    if streams != [] {
      SentAtMostSpent(streams[..|streams| - 1]);
    }
  }

  // The history a stream keeps is that of the events.

  function ReadBy(events: seq<Event>, i: nat): seq<Byte> {
    if events == [] then []
    else
      var e := events[0];
      (if e.OnStream? && e.i == i && e.action.Read? then e.action.data else []) + ReadBy(events[1..], i)
  }

  function GrantedTo(events: seq<Event>, i: nat): nat {
    if events == [] then 0
    else
      var e := events[0];
      (if e.OnStream? && e.i == i && e.action.Increment? then e.action.inc else 0) + GrantedTo(events[1..], i)
  }

  function GrantedToConn(events: seq<Event>): nat {
    if events == [] then 0
    else (if events[0].ConnIncrement? then events[0].inc else 0) + GrantedToConn(events[1..])
  }

  predicate Ended(e: Ending, events: seq<Event>, i: nat) {
    && (e.AtEof? <==> OnStream(i, ReadEof) in events)
    && (e.Failed? || e.Aborted? <==> OnStream(i, ReadError) in events)
  }

  /** What the run adds to what a stream, or one not yet open, had before. */
  predicate Adds(events: seq<Event>, i: nat, before: Stream, after: Stream) {
    && after.read == before.read + ReadBy(events, i)
    && after.increments == before.increments + GrantedTo(events, i)
    && (if before.ended.StillOpen? then Ended(after.ended, events, i) else after.ended == before.ended)
  }

  function Opened(s: State): Stream {
    Stream(Window(s.streamWindow, false), 0, false, Reading, [], StillOpen, [])
  }

  function StreamOf(s: State, i: nat): Stream { if i < |s.streams| then s.streams[i] else Opened(s) }

  lemma ActAdds(st: Stream, conn: Window, a: Action)
    requires CanAct(st, conn, a)
    ensures var t := Act(st, conn, a);
      && t.read == st.read + (if a.Read? then a.data else [])
      && t.increments == st.increments + (if a.Increment? then a.inc else 0)
      && (if a.ReadEof? then t.ended.AtEof?
          else if a.ReadError? then t.ended.Failed? || t.ended.Aborted?
          else t.ended == st.ended)
  {
    assert st.read + [] == st.read;
  }

  lemma StepAdds(s: State, e: Event, i: nat)
    requires Enabled(s, e)
    requires forall k :: 0 <= k < |s.streams| ==> EndsRight(s.done, s.streams[k])
    ensures Adds([e], i, StreamOf(s, i), StreamOf(Step(s, e), i))
    ensures !StreamOf(s, i).ended.StillOpen? ==> e != OnStream(i, ReadEof) && e != OnStream(i, ReadError)
  {
    assert [e][1..] == [];
    var before := StreamOf(s, i);
    if e.OnStream? && e.i == i {
      ActAdds(before, s.conn, e.action);
      assert ReadBy([e], i) == (if e.action.Read? then e.action.data else []) + [];
    } else {
      assert StreamOf(Step(s, e), i) == before && before.read + [] == before.read;
    }
  }

  lemma AddsTogether(e: Event, rest: seq<Event>, i: nat, a: Stream, b: Stream, c: Stream)
    requires Adds([e], i, a, b) && Adds(rest, i, b, c)
    requires !b.ended.StillOpen? ==> OnStream(i, ReadEof) !in rest && OnStream(i, ReadError) !in rest
    ensures Adds([e] + rest, i, a, c)
  {
    var all := [e] + rest;
    assert all[1..] == rest && all[0] == e && [e][1..] == [];
    assert ReadBy([e], i) + ReadBy(rest, i) == ReadBy(all, i);
    assert GrantedTo([e], i) + GrantedTo(rest, i) == GrantedTo(all, i);
    assert a.read + ReadBy([e], i) + ReadBy(rest, i) == a.read + ReadBy(all, i);
    assert forall x :: x in all <==> x == e || x in rest;
  }

  /** A socket whose reading has ended is not read again. */
  lemma {:induction false} EndsOnce(s: State, events: seq<Event>, i: nat)
    requires Inv(s) && Exec(s, events).Some? && !StreamOf(s, i).ended.StillOpen?
    ensures OnStream(i, ReadEof) !in events && OnStream(i, ReadError) !in events
    decreases |events|
  {
    if events != [] {
      StepKeepsInv(s, events[0]);
      StepAdds(s, events[0], i);
      EndsOnce(Step(s, events[0]), events[1..], i);
      assert events == [events[0]] + events[1..];
    }
  }

  lemma {:induction false} HistoryIsEvents(s: State, events: seq<Event>, i: nat)
    requires Inv(s) && Exec(s, events).Some?
    ensures Adds(events, i, StreamOf(s, i), StreamOf(Exec(s, events).value, i))
    decreases |events|
  {
    if events == [] {
      assert StreamOf(s, i).read + [] == StreamOf(s, i).read;
    } else {
      var t := Step(s, events[0]);
      StepKeepsInv(s, events[0]);
      StepAdds(s, events[0], i);
      HistoryIsEvents(t, events[1..], i);
      if !StreamOf(t, i).ended.StillOpen? {
        EndsOnce(t, events[1..], i);
      }
      AddsTogether(events[0], events[1..], i, StreamOf(s, i), StreamOf(t, i), StreamOf(Exec(s, events).value, i));
      assert [events[0]] + events[1..] == events;
    }
  }

  lemma {:induction false} SessionIsEvents(s: State, events: seq<Event>)
    ensures var r := Exec(s, events);
      r.Some? ==>
        && r.value.connIncrements == s.connIncrements + GrantedToConn(events)
        && (r.value.done <==> s.done || Finish in events)
    decreases |events|
  {
    if events != [] && Enabled(s, events[0]) {
      SessionIsEvents(Step(s, events[0]), events[1..]);
      assert events == [events[0]] + events[1..];
    }
  }

  /** One stream against what came for it. */
  ghost predicate Within(st: Stream, window: nat, events: seq<Event>, i: nat) {
    && Sent(st) <= window + GrantedTo(events, i)
    && DataOf(st.wire) <= ReadBy(events, i)
    && (st.pump.Stopped? && Finish !in events ==> st.window.avail + Sent(st) == window + GrantedTo(events, i))
  }

  lemma StreamIsWithin(s: State, st: Stream, window: nat, events: seq<Event>, i: nat)
    requires StreamOk(s, st) && EndsRight(s.done, st) && s.streamWindow == window
    requires Adds(events, i, Opened(s), st) && (s.done <==> Finish in events)
    ensures Within(st, window, events, i)
  {
    assert [] + ReadBy(events, i) == ReadBy(events, i);
  }

  /**
   * What the peer relies on, for any schedule of any number of pumps: no stream and no
   * connection is ever sent more DATA than its window plus the increments granted; every
   * byte sent was read, in order; and while the session lives a pump that stopped holds
   * nothing, so a `takeBoth` that failed gave everything back.
   */
  lemma {:induction false} NeverOverspends(streamWindow: nat, connWindow: nat, events: seq<Event>)
    ensures var r := Exec(Start(streamWindow, connWindow), events);
      r.Some? ==>
        var s := r.value;
        && Sum(s.streams, Sent) <= connWindow + GrantedToConn(events)
        && s.conn.avail + Sum(s.streams, ConnSpent) == connWindow + GrantedToConn(events)
        && forall i :: 0 <= i < |s.streams| ==> Within(s.streams[i], streamWindow, events, i)
  {
    var s0 := Start(streamWindow, connWindow);
    EveryRunConserves(s0, events);
    WindowsStayFixed(s0, events);
    var r := Exec(s0, events);
    if r.Some? {
      SentAtMostSpent(r.value.streams);
      SessionIsEvents(s0, events);
      forall i | 0 <= i < |r.value.streams|
        ensures Within(r.value.streams[i], streamWindow, events, i)
      {
        HistoryIsEvents(s0, events, i);
        StreamIsWithin(r.value, r.value.streams[i], streamWindow, events, i);
      }
    }
  }

  /**
   * What the peer can conclude from a stream's last frame, for any schedule: EOF means that the
   * socket reported end of file and every byte it gave came before; RST, that it reported an
   * error. And it is told: as long as the session lives, a pump that stopped at the end of its
   * socket has sent the frame for it, except after an error that an abort explains.
   */
  lemma {:induction false} LastFrameTells(streamWindow: nat, connWindow: nat, events: seq<Event>, i: nat)
    ensures var r := Exec(Start(streamWindow, connWindow), events);
      r.Some? && i < |r.value.streams| ==>
        var st := r.value.streams[i];
        var last := if st.wire == [] then None else Some(st.wire[|st.wire| - 1]);
        && DataOf(st.wire) <= ReadBy(events, i)
        && (last == Some(Eof) ==> OnStream(i, ReadEof) in events && DataOf(st.wire) == ReadBy(events, i))
        && (last == Some(Rst) ==> OnStream(i, ReadError) in events && st.ended.Failed?)
        && (st.pump.Stopped? && Finish !in events && OnStream(i, ReadEof) in events ==> last == Some(Eof))
        && (st.pump.Stopped? && Finish !in events && OnStream(i, ReadError) in events ==>
              last == Some(Rst) || st.ended.Aborted?)
  {
    var s0 := Start(streamWindow, connWindow);
    var r := Exec(s0, events);
    if r.Some? && i < |r.value.streams| {
      EveryRunConserves(s0, events);
      HistoryIsEvents(s0, events, i);
      SessionIsEvents(s0, events);
      var st := r.value.streams[i];
      assert StreamOk(r.value, st) && EndsRight(r.value.done, st);
      assert [] + ReadBy(events, i) == ReadBy(events, i);
    }
  }

  // A pump goes on until it has a reason to stop.

  /** Reading has ended, the stream or the connection was closed or cancelled, or the session is over. */
  predicate StopsForReason(s: State, st: Stream) {
    && (st.pump.Ending? || st.pump.Dropping? || st.pump.Resetting? ==> !st.ended.StillOpen?)
    && (st.pump.Refund? ==> st.cancelled || s.conn.closed)
    && (st.pump.Stopped? && st.ended.StillOpen? ==> st.cancelled || st.window.closed || s.conn.closed || s.done)
  }

  predicate Reasons(s: State) { forall i :: 0 <= i < |s.streams| ==> StopsForReason(s, s.streams[i]) }

  lemma ActHasReason(s: State, st: Stream, a: Action)
    requires StopsForReason(s, st) && CanAct(st, s.conn, a) && (Refused(a) ==> s.done)
    ensures StopsForReason(s, Act(st, s.conn, a))
  {
  }

  lemma StepHasReason(s: State, e: Event)
    requires Reasons(s) && Enabled(s, e)
    ensures Reasons(Step(s, e))
  {
    var t := Step(s, e);
    if e.OnStream? {
      ActHasReason(s, s.streams[e.i], e.action);
    }
    forall i | 0 <= i < |t.streams| ensures StopsForReason(t, t.streams[i]) {
      assert i < |s.streams| ==> StopsForReason(s, s.streams[i]);
    }
  }

  lemma {:induction false} EveryStopHasReason(s: State, events: seq<Event>)
    requires Reasons(s)
    ensures Exec(s, events).Some? ==> Reasons(Exec(s, events).value)
    decreases |events|
  {
    if events != [] && Enabled(s, events[0]) {
      StepHasReason(s, events[0]);
      EveryStopHasReason(Step(s, events[0]), events[1..]);
    }
  }

  /** For any schedule, a pump stops only at the end of its socket or because something else has ended. */
  lemma {:induction false} PumpStopsForReason(streamWindow: nat, connWindow: nat, events: seq<Event>, i: nat)
    ensures var r := Exec(Start(streamWindow, connWindow), events);
      r.Some? && i < |r.value.streams| && r.value.streams[i].pump.Stopped? ==>
        var st := r.value.streams[i];
        || OnStream(i, ReadEof) in events || OnStream(i, ReadError) in events
        || st.cancelled || st.window.closed || r.value.conn.closed || Finish in events
  {
    var s0 := Start(streamWindow, connWindow);
    var r := Exec(s0, events);
    if r.Some? && i < |r.value.streams| {
      EveryStopHasReason(s0, events);
      HistoryIsEvents(s0, events, i);
      SessionIsEvents(s0, events);
      assert StopsForReason(r.value, r.value.streams[i]);
    }
  }

  /** What a pump still has to do, short of reading more. */
  function Work(p: Pump): nat {
    8 * |Unsent(p)| +
    match p
    case WantStream(_) => 5
    case WantConn(_, _) => 4
    case Trim(_, _, _) => 3
    case Sending(_, _) => 2
    case Dropping => 2
    case Refund(_) => 1
    case Ending => 1
    case Resetting => 1
    case _ => 0
  }

  /** A pump with something to do has a step that leaves it less, unless it waits for credit. */
  lemma PumpGoesOn(s: State, i: nat) returns (a: Action)
    requires i < |s.streams| && PumpShape(s.streams[i].pump)
    requires !s.streams[i].pump.Reading? && !s.streams[i].pump.Stopped?
    ensures var st := s.streams[i];
      || (st.pump.WantStream? && TakeOutcome(st.window, |st.pump.p|, st.cancelled).Blocked?)
      || (st.pump.WantConn? && TakeOutcome(s.conn, st.pump.n, st.cancelled).Blocked?)
      || (Enabled(s, OnStream(i, a)) && Work(Act(st, s.conn, a).pump) < Work(st.pump))
  {
    var st := s.streams[i];
    a := match st.pump
      case WantStream(_) => TakeStream
      case WantConn(_, _) => TakeConn
      case Refund(_) => RefundAll
      case Trim(_, _, _) => TrimExcess
      case Sending(_, _) => Send(false)
      case Ending => SendEof(false)
      case Dropping => DropStream
      case _ => SendRst(false);
    if st.pump.Sending? {
      assert Unsent(Act(st, s.conn, a).pump) == st.pump.p[st.pump.m..];
    }
  }

  /** A send that is refused stops its pump and puts nothing on the wire. */
  lemma RefusedEndsPump(s: State, i: nat, a: Action)
    requires Enabled(s, OnStream(i, a)) && Refused(a)
    ensures var st, t := s.streams[i], Step(s, OnStream(i, a)).streams[i];
      t.pump.Stopped? && t.wire == st.wire && StreamHeld(t.pump) == StreamHeld(st.pump)
  {
  }

  // Closing reaches a waiting pump.

  /**
   * A stream can be closed or cancelled, and the connection closed, at any time; a pump that waits
   * then has a step, and on what was closed it gets no credit any more, not even what is left.
   */
  lemma ClosingUnblocks(s: State, i: nat, e: Event)
    requires i < |s.streams| && s.conn.avail >= 0 && s.streams[i].window.avail >= 0
    requires e in {CloseConn, OnStream(i, Close), OnStream(i, Cancel)} && PumpShape(s.streams[i].pump)
    ensures Enabled(s, e)
    ensures var st, t := s.streams[i], Step(s, e);
      && (st.pump.WantStream? && !e.CloseConn? ==> Enabled(t, OnStream(i, TakeStream)))
      && (st.pump.WantConn? && e != OnStream(i, Close) ==> Enabled(t, OnStream(i, TakeConn)))
      && (st.pump.WantStream? && e == OnStream(i, Close) ==> OnTakeStream(t.streams[i]).pump.Stopped?)
      && (st.pump.WantConn? && e.CloseConn? ==> OnTakeConn(t.streams[i], t.conn).pump.Refund?)
  {
  }
}
