/** One additive flow-control window of nexit/1 and the loop that spends it. */
module NexitCredit {
  import opened Bytes

  /** The largest payload one frame may carry. */
  const MAX_FRAME: int := 16384

  /** A window's value: what is left to spend, and whether it was closed. */
  datatype Window = Window(avail: int, closed: bool)

  /** How one pass through the critical section of `take` ends. */
  datatype Taken = Granted(n: nat) | Closed | Cancelled | Blocked

  function Min(a: int, b: int): int { if a < b then a else b }

  /** `add`: increments that are not positive are ignored. */
  function Added(w: Window, n: int): Window {
    if n <= 0 then w else w.(avail := w.avail + n)
  }

  /** One pass of the loop in `take`: closed beats credit, credit beats a cancelled context. */
  function TakeOutcome(w: Window, want: int, cancelled: bool): Taken {
    if want <= 0 then Granted(0)
    else if w.closed then Closed
    else if w.avail > 0 then Granted(Min(want, w.avail))
    else if cancelled then Cancelled
    else Blocked
  }

  function AfterTake(w: Window, want: int, cancelled: bool): Window {
    match TakeOutcome(w, want, cancelled)
    case Granted(n) => w.(avail := w.avail - n)
    case _ => w
  }

  class Credit {
    var avail: int
    var closed: bool

    ghost function Value(): Window
      reads this
    {
      Window(avail, closed)
    }

    constructor (n: int)
      ensures Value() == Window(n, false)
    {
      avail, closed := n, false;
    }

    method Add(n: int)
      modifies this
      ensures Value() == Added(old(Value()), n)
    {
      if n > 0 {
        avail := avail + n;
      }
    }

    method Take(want: int, cancelled: bool) returns (r: Taken)
      modifies this
      ensures r == TakeOutcome(old(Value()), want, cancelled)
      ensures Value() == AfterTake(old(Value()), want, cancelled)
    {
      if want <= 0 {
        return Granted(0);
      }
      if closed {
        return Closed;
      }
      if avail > 0 {
        var n := want;
        if n > avail {
          n := avail;
        }
        avail := avail - n;
        return Granted(n);
      }
      if cancelled {
        return Cancelled;
      }
      return Blocked;
    }

    method Close()
      modifies this
      ensures Value() == old(Value()).(closed := true)
    {
      closed := true;
    }
  }

  /**
   * `takeBoth` when nothing else touches the two windows. A grant spends exactly the same
   * number of bytes from both, as many as both allow; anything else leaves both as they were,
   * except that a caller blocked on the connection is still holding the stream's bytes.
   */
  method TakeBoth(stream: Credit, conn: Credit, want: nat, cancelled: bool) returns (r: Taken, ghost held: nat)
    requires stream != conn && 0 < want
    modifies stream, conn
    ensures stream.closed == old(stream.closed) && conn.closed == old(conn.closed)
    ensures r.Granted? ==>
      && r.n == Min(want, Min(old(stream.avail), old(conn.avail))) && r.n >= 1
      && stream.avail == old(stream.avail) - r.n && conn.avail == old(conn.avail) - r.n
    ensures r.Granted? <==>
      !old(stream.closed) && !old(conn.closed) && old(stream.avail) > 0 && old(conn.avail) > 0
    ensures !r.Granted? ==> conn.avail == old(conn.avail) && stream.avail == old(stream.avail) - held
    ensures held > 0 <==>
      r.Blocked? && !old(stream.closed) && old(stream.avail) > 0
    ensures held > 0 ==> held == Min(want, old(stream.avail))
  {
    held := 0;
    r := stream.Take(want, cancelled);
    if !r.Granted? {
      return;
    }
    var n := r.n;
    r := conn.Take(n, cancelled);
    match r {
      case Granted(m) =>
        if m < n {
          stream.Add(n - m);
        }
      case Blocked =>
        held := n;
      case _ =>
        stream.Add(n);
    }
  }

  ghost function Concat(frames: seq<seq<Byte>>): seq<Byte> {
    if frames == [] then [] else Concat(frames[..|frames| - 1]) + frames[|frames| - 1]
  }

  lemma ConcatAppend(frames: seq<seq<Byte>>, f: seq<Byte>)
    ensures Concat(frames + [f]) == Concat(frames) + f
  {
    assert (frames + [f])[..|frames|] == frames;
  }

  /**
   * The inner loop of `pump`: one socket read cut into DATA frames as credit allows. The frames
   * are a prefix of the buffer, in order, each of 1 to MAX_FRAME bytes; both windows pay
   * exactly for them; and the loop stops early only when `takeBoth` did not grant.
   */
  method SendBuffer(stream: Credit, conn: Credit, buffer: seq<Byte>, cancelled: bool)
      returns (frames: seq<seq<Byte>>, rest: seq<Byte>, last: Taken, ghost held: nat)
    requires stream != conn && |buffer| <= MAX_FRAME
    requires stream.avail >= 0 && conn.avail >= 0
    modifies stream, conn
    ensures Concat(frames) + rest == buffer
    ensures forall i :: 0 <= i < |frames| ==> 1 <= |frames[i]| <= MAX_FRAME
    ensures conn.avail == old(conn.avail) - |Concat(frames)|
    ensures stream.avail == old(stream.avail) - |Concat(frames)| - held
    ensures stream.avail >= 0 && conn.avail >= 0
    ensures rest == [] <==> last.Granted?
    ensures held > 0 ==> last.Blocked?
  {
    frames, rest, last, held := [], buffer, Granted(0), 0;
    while |rest| > 0
      invariant Concat(frames) + rest == buffer
      invariant forall i :: 0 <= i < |frames| ==> 1 <= |frames[i]| <= MAX_FRAME
      invariant conn.avail == old(conn.avail) - |Concat(frames)| >= 0
      invariant stream.avail == old(stream.avail) - |Concat(frames)| >= 0
      invariant last.Granted? && held == 0
      decreases |rest|
    {
      last, held := TakeBoth(stream, conn, |rest|, cancelled);
      if !last.Granted? {
        return;
      }
      var m := last.n;
      ConcatAppend(frames, rest[..m]);
      assert rest[..m] + rest[m..] == rest;
      assert Concat(frames) + rest[..m] + rest[m..] == Concat(frames) + rest;
      frames, rest := frames + [rest[..m]], rest[m..];
    }
  }
}
