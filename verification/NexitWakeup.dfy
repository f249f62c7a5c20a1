/**
 * The sleeping protocol shared by `credit.take` and `queue.pop`: a mutex, a condition variable,
 * and a context whose cancellation callback broadcasts after an empty critical section. Any
 * number of waiters share the resource, as pumps share the connection window; each has its own
 * context. A broadcast always happens after the mutex was released, and a context can be
 * cancelled at any instant, also while a waiter holds the mutex between its check and its sleep.
 */
module NexitWakeup {
  import opened Wrappers

  /** `Checked` waiters hold the mutex: nothing to take, then context found alive. */
  datatype Wait = Outside | Entering | Holding | CheckedResource | CheckedContext | Asleep

  /** The callback registered with the context, up to its broadcast. */
  datatype Callback = Unregistered | Armed | Passed | Fired

  datatype Waiter = Waiter(at: Wait, cancelled: bool, callback: Callback)

  /** `pending` counts changes whose broadcast has not happened yet. */
  datatype State = State(avail: nat, closed: bool, pending: nat, waiters: seq<Waiter>)

  datatype Event =
    | Change(avail: nat, close: bool)
    | Broadcast
    | Begin(i: nat)
    | Lock(i: nat)
    | CheckResource(i: nat, taken: nat)
    | CheckContext(i: nat)
    | Sleep(i: nat)
    | Cancel(i: nat)
    | CallbackLock(i: nat)
    | CallbackBroadcast(i: nat)

  predicate HoldsMutex(w: Waiter) { w.at.Holding? || w.at.CheckedResource? || w.at.CheckedContext? }

  predicate MutexFree(s: State) {
    forall k :: 0 <= k < |s.waiters| ==> !HoldsMutex(s.waiters[k])
  }

  predicate Enabled(s: State, e: Event) {
    match e
    case Change(avail, close) => MutexFree(s) && avail >= s.avail
    case Broadcast => s.pending > 0
    case Begin(i) => i < |s.waiters| && s.waiters[i].at.Outside?
    case Lock(i) => i < |s.waiters| && s.waiters[i].at.Entering? && MutexFree(s)
    case CheckResource(i, taken) =>
      && i < |s.waiters| && s.waiters[i].at.Holding?
      && (if NothingToTake(s) || s.closed then taken == 0 else 1 <= taken <= s.avail)
    case CheckContext(i) => i < |s.waiters| && s.waiters[i].at.CheckedResource?
    case Sleep(i) => i < |s.waiters| && s.waiters[i].at.CheckedContext?
    case Cancel(i) => i < |s.waiters|
    case CallbackLock(i) =>
      i < |s.waiters| && s.waiters[i].cancelled && s.waiters[i].callback.Armed? && MutexFree(s)
    case CallbackBroadcast(i) => i < |s.waiters| && s.waiters[i].callback.Passed?
  }

  /** Waking means returning from `Wait` and queueing for the mutex again. */
  function Woken(w: Waiter): Waiter { if w.at.Asleep? then w.(at := Entering) else w }

  function WakeAll(ws: seq<Waiter>): (r: seq<Waiter>)
    ensures |r| == |ws| && forall k :: 0 <= k < |ws| ==> r[k] == Woken(ws[k])
  {
    if ws == [] then [] else [Woken(ws[0])] + WakeAll(ws[1..])
  }

  /**
   * Leaving runs the deferred stop: a callback whose goroutine has not started is withdrawn.
   * One that has (its context was cancelled) still runs to its broadcast.
   */
  function Leave(w: Waiter): Waiter {
    w.(at := Outside, callback := if w.callback.Armed? && !w.cancelled then Unregistered else w.callback)
  }

  /** A callback left over from an earlier call; its broadcast can only wake more waiters. */
  predicate Stray(w: Waiter) { w.callback.Armed? || w.callback.Passed? }

  function WaiterStep(s: State, w: Waiter, e: Event): Waiter {
    match e
    case Begin(_) => w.(at := Entering, callback := Armed)
    case Lock(_) => w.(at := Holding)
    case CheckResource(_, _) => if s.closed || s.avail > 0 then Leave(w) else w.(at := CheckedResource)
    case CheckContext(_) => if w.cancelled then Leave(w) else w.(at := CheckedContext)
    case Sleep(_) => w.(at := Asleep)
    case Cancel(_) => w.(cancelled := true)
    case CallbackLock(_) => w.(callback := Passed)
    case _ => w
  }

  function Step(s: State, e: Event): State
    requires Enabled(s, e)
  {
    match e
    case Change(avail, close) => s.(avail := avail, closed := s.closed || close, pending := s.pending + 1)
    case Broadcast => s.(pending := s.pending - 1, waiters := WakeAll(s.waiters))
    case CallbackBroadcast(i) => s.(waiters := WakeAll(s.waiters[i := s.waiters[i].(callback := Fired)]))
    case CheckResource(i, taken) =>
      s.(waiters := s.waiters[i := WaiterStep(s, s.waiters[i], e)], avail := s.avail - taken)
    case Begin(i) =>
      s.(waiters := s.waiters[i := WaiterStep(s, s.waiters[i], e)],
         pending := s.pending + if Stray(s.waiters[i]) then 1 else 0)
    case _ => s.(waiters := s.waiters[e.i := WaiterStep(s, s.waiters[e.i], e)])
  }

  function Exec(s: State, events: seq<Event>): Option<State>
    decreases |events|
  {
    if events == [] then Some(s)
    else if !Enabled(s, events[0]) then None
    else Exec(Step(s, events[0]), events[1..])
  }

  predicate NothingToTake(s: State) { s.avail == 0 && !s.closed }

  // The invariant behind "no lost wake-up".

  predicate WaiterOk(s: State, w: Waiter) {
    && (w.at.Asleep? ==> NothingToTake(s) || s.pending > 0)
    && (w.at.CheckedResource? || w.at.CheckedContext? ==> NothingToTake(s))
    && (w.at.CheckedContext? ==> w.callback.Armed?)
    && (w.at.Asleep? ==> w.callback.Armed? || w.callback.Passed?)
    && (w.callback.Passed? || w.callback.Fired? ==> w.cancelled)
    && (!w.at.Outside? ==> !w.callback.Unregistered?)
  }

  predicate Inv(s: State) {
    && (forall k :: 0 <= k < |s.waiters| ==> WaiterOk(s, s.waiters[k]))
    && (forall j, k :: 0 <= j < k < |s.waiters| ==> !(HoldsMutex(s.waiters[j]) && HoldsMutex(s.waiters[k])))
  }

  predicate Wakes(e: Event) { e.Change? || e.Broadcast? || e.CallbackBroadcast? }

  lemma StepKeepsWaiter(s: State, e: Event, k: nat)
    requires Inv(s) && Enabled(s, e) && k < |s.waiters|
    ensures |Step(s, e).waiters| == |s.waiters| && WaiterOk(Step(s, e), Step(s, e).waiters[k])
  {
    assert WaiterOk(s, s.waiters[k]);
    if !Wakes(e) && e.i != k && !NothingToTake(s) {
      assert e.CheckResource? ==> !HoldsMutex(s.waiters[k]);
    }
  }

  lemma StepKeepsMutex(s: State, e: Event, j: nat, k: nat)
    requires Inv(s) && Enabled(s, e) && j < k < |s.waiters|
    ensures |Step(s, e).waiters| == |s.waiters|
    ensures !(HoldsMutex(Step(s, e).waiters[j]) && HoldsMutex(Step(s, e).waiters[k]))
  {
    assert !(HoldsMutex(s.waiters[j]) && HoldsMutex(s.waiters[k]));
  }

  lemma StepKeepsInv(s: State, e: Event)
    requires Inv(s) && Enabled(s, e)
    ensures Inv(Step(s, e))
  {
    var t := Step(s, e);
    forall k | 0 <= k < |t.waiters|
      ensures WaiterOk(t, t.waiters[k])
    {
      StepKeepsWaiter(s, e, k);
    }
    forall j, k | 0 <= j < k < |t.waiters|
      ensures !(HoldsMutex(t.waiters[j]) && HoldsMutex(t.waiters[k]))
    {
      StepKeepsMutex(s, e, j, k);
    }
  }

  lemma {:induction false} EveryRunKeepsInv(s: State, events: seq<Event>)
    requires Inv(s)
    ensures Exec(s, events).Some? ==> Inv(Exec(s, events).value)
    decreases |events|
  {
    if events != [] && Enabled(s, events[0]) {
      StepKeepsInv(s, events[0]);
      EveryRunKeepsInv(Step(s, events[0]), events[1..]);
    }
  }

  /** Nobody is using the resource yet. */
  predicate Fresh(s: State) {
    forall k :: 0 <= k < |s.waiters| ==> s.waiters[k].at.Outside? && s.waiters[k].callback.Unregistered?
  }

  /** No broadcast is on its way, from a change or from a cancelled context. */
  predicate Settled(s: State) {
    s.pending == 0 && forall k :: 0 <= k < |s.waiters| ==>
      !s.waiters[k].callback.Passed? && !(s.waiters[k].callback.Armed? && s.waiters[k].cancelled)
  }

  /**
   * No lost wake-up: once the broadcasts are out, whoever still sleeps has a live context, an
   * open window and nothing to take. So after `abort` (context cancelled) or after the window
   * was closed, nobody sleeps, not even a waiter that checked its context an instant before.
   */
  lemma {:induction false} NoLostWakeup(s: State, events: seq<Event>)
    requires Fresh(s)
    ensures var r := Exec(s, events);
      r.Some? && Settled(r.value) ==>
        forall k :: 0 <= k < |r.value.waiters| && r.value.waiters[k].at.Asleep? ==>
          !r.value.waiters[k].cancelled && r.value.avail == 0 && !r.value.closed
  {
    EveryRunKeepsInv(s, events);
    var r := Exec(s, events);
    if r.Some? && Settled(r.value) {
      forall k | 0 <= k < |r.value.waiters|
        ensures WaiterOk(r.value, r.value.waiters[k])
      {
      }
    }
  }

  // And the broadcasts do get out.

  /** A sleeper that has something to wake for. */
  predicate OughtToWake(s: State, i: nat) {
    i < |s.waiters| && s.waiters[i].at.Asleep? && (s.waiters[i].cancelled || !NothingToTake(s))
  }

  predicate SomeoneIs(s: State, at: Wait) { exists k :: 0 <= k < |s.waiters| && s.waiters[k].at == at }

  /** How far a sleeper is from its broadcast: one, or its callback's turn at the mutex and who holds it. */
  function Distance(s: State, i: nat): nat {
    if i >= |s.waiters| || !s.waiters[i].at.Asleep? then 0
    else if s.pending > 0 || s.waiters[i].callback.Passed? then 1
    else if SomeoneIs(s, Holding) then 5
    else if SomeoneIs(s, CheckedResource) then 4
    else if SomeoneIs(s, CheckedContext) then 3
    else 2
  }

  /** The next step on the way, and it is on the way. */
  lemma SleeperIsNeverStuck(s: State, i: nat) returns (e: Event)
    requires Inv(s) && OughtToWake(s, i)
    ensures Enabled(s, e) && Distance(Step(s, e), i) < Distance(s, i)
    ensures Distance(Step(s, e), i) > 0 ==> OughtToWake(Step(s, e), i)
  {
    assert WaiterOk(s, s.waiters[i]);
    if s.pending > 0 {
      e := Broadcast;
    } else if s.waiters[i].callback.Passed? {
      e := CallbackBroadcast(i);
    } else if MutexFree(s) {
      e := CallbackLock(i);
    } else {
      var k :| 0 <= k < |s.waiters| && HoldsMutex(s.waiters[k]);
      match s.waiters[k].at {
        case Holding => e := CheckResource(k, if NothingToTake(s) || s.closed then 0 else 1);
        case CheckedResource => e := CheckContext(k);
        case CheckedContext => e := Sleep(k);
      }
      HolderMovesOn(s, i, k, e);
    }
  }

  lemma HolderMovesOn(s: State, i: nat, k: nat, e: Event)
    requires Inv(s) && OughtToWake(s, i) && s.pending == 0 && !s.waiters[i].callback.Passed?
    requires k < |s.waiters| && HoldsMutex(s.waiters[k]) && Enabled(s, e)
    requires (e.CheckResource? || e.CheckContext? || e.Sleep?) && e.i == k
    ensures 0 < Distance(Step(s, e), i) < Distance(s, i) && OughtToWake(Step(s, e), i)
  {
    var t := Step(s, e);
    assert WaiterOk(s, s.waiters[i]);
    assert t.waiters[i] == s.waiters[i];
    assert forall j :: 0 <= j < |s.waiters| && j != k ==> !HoldsMutex(s.waiters[j]) && t.waiters[j] == s.waiters[j];
    assert SomeoneIs(s, s.waiters[k].at);
  }

  /**
   * No other step puts it further off, but for a waiter taking the free mutex first; and only
   * the credit it was to wake for can go, to someone else, never its cancellation.
   */
  lemma OthersDoNotDelay(s: State, i: nat, e: Event)
    requires Inv(s) && OughtToWake(s, i) && Enabled(s, e) && !e.Lock?
    ensures Distance(Step(s, e), i) <= Distance(s, i)
    ensures Distance(Step(s, e), i) > 0 && s.waiters[i].cancelled ==> OughtToWake(Step(s, e), i)
  {
    var t := Step(s, e);
    assert WaiterOk(s, s.waiters[i]);
    StepKeepsInv(s, e);
    if s.pending == 0 && !s.waiters[i].callback.Passed? && (e.CheckResource? || e.CheckContext? || e.Sleep?) {
      HolderMovesOn(s, i, e.i, e);
    } else if s.pending == 0 && !s.waiters[i].callback.Passed? && !Wakes(e) {
      assert t.waiters[i].at == s.waiters[i].at;
      assert forall k :: 0 <= k < |s.waiters| && HoldsMutex(t.waiters[k]) ==> t.waiters[k].at == s.waiters[k].at;
    }
  }

  /** So within five steps of the system it is awake. */
  lemma {:induction false} SleeperWakes(s: State, i: nat) returns (events: seq<Event>)
    requires Inv(s) && OughtToWake(s, i)
    ensures |events| <= Distance(s, i) <= 5
    ensures var r := Exec(s, events);
      r.Some? && i < |r.value.waiters| && !r.value.waiters[i].at.Asleep?
    decreases Distance(s, i)
  {
    var e := SleeperIsNeverStuck(s, i);
    var t := Step(s, e);
    StepKeepsInv(s, e);
    events := [];
    if Distance(t, i) > 0 {
      events := SleeperWakes(t, i);
    } else {
      StepKeepsWaiter(s, e, i);
      assert Exec(t, events) == Some(t);
    }
    assert ([e] + events)[1..] == events;
    events := [e] + events;
  }

  // What a call comes to, and that every broadcast is made.

  lemma {:induction false} After(s: State, events: seq<Event>, t: State, e: Event)
    returns (longer: seq<Event>, next: State)
    requires Exec(s, events) == Some(t) && Enabled(t, e)
    ensures next == Step(t, e) && Exec(s, longer) == Some(next)
    ensures longer == events + [e]
    decreases |events|
  {
    longer, next := events + [e], Step(t, e);
    if events == [] {
      assert longer[1..] == [];
    } else {
      var _, _ := After(Step(s, events[0]), events[1..], t, e);
      assert longer[1..] == events[1..] + [e];
    }
  }

  lemma Locked(s: State, i: nat) returns (events: seq<Event>, t: State)
    requires i < |s.waiters| && s.waiters[i].at.Outside? && MutexFree(s)
    ensures Exec(s, events) == Some(t)
    ensures t == s.(waiters := t.waiters, pending := t.pending)
    ensures t.waiters == s.waiters[i := s.waiters[i].(at := Holding, callback := Armed)]
  {
    var begun;
    events, begun := After(s, [], s, Begin(i));
    events, t := After(s, events, begun, Lock(i));
  }

  /**
   * A call that finds the mutex free: it takes what it asks for if there is something, returns at
   * once if the window is closed or the context cancelled, and otherwise sleeps with its callback
   * armed.
   */
  lemma CallEnds(s: State, i: nat, taken: nat) returns (events: seq<Event>, t: State)
    requires i < |s.waiters| && s.waiters[i].at.Outside? && MutexFree(s)
    requires if s.closed || s.avail == 0 then taken == 0 else 1 <= taken <= s.avail
    ensures Exec(s, events) == Some(t) && t.avail == s.avail - taken && t.closed == s.closed
    ensures |t.waiters| == |s.waiters| && forall k :: 0 <= k < |s.waiters| && k != i ==> t.waiters[k] == s.waiters[k]
    ensures if s.closed || s.avail > 0 || s.waiters[i].cancelled then t.waiters[i].at.Outside?
      else t.waiters[i].at.Asleep? && t.waiters[i].callback.Armed?
  {
    events, t := Locked(s, i);
    events, t := After(s, events, t, CheckResource(i, taken));
    if t.waiters[i].at.CheckedResource? {
      events, t := After(s, events, t, CheckContext(i));
      if t.waiters[i].at.CheckedContext? {
        events, t := After(s, events, t, Sleep(i));
      }
    }
  }

  /** What happens to a sleeper's window or context is something for it to wake for. */
  lemma ChangesReachSleepers(s: State, i: nat, e: Event)
    requires i < |s.waiters| && s.waiters[i].at.Asleep? && Enabled(s, e)
    ensures e == Cancel(i) || (e.Change? && (e.close || e.avail > 0)) ==> OughtToWake(Step(s, e), i)
    ensures Enabled(s, Cancel(i))
  {
  }

  lemma {:induction false} BroadcastsRunOut(s: State, before: seq<Event>, t: State)
    returns (events: seq<Event>, u: State)
    requires Exec(s, before) == Some(t)
    ensures Exec(s, events) == Some(u) && u.pending == 0 && |u.waiters| == |t.waiters|
    ensures forall k :: 0 <= k < |t.waiters| ==> u.waiters[k].callback == t.waiters[k].callback
    ensures forall k :: 0 <= k < |t.waiters| ==> u.waiters[k].cancelled == t.waiters[k].cancelled
    decreases t.pending
  {
    events, u := before, t;
    if t.pending > 0 {
      events, u := After(s, before, t, Broadcast);
      events, u := BroadcastsRunOut(s, events, u);
    }
  }

  /** No callback of the first `n` waiters is on its way. */
  predicate Calm(s: State, n: nat)
    requires n <= |s.waiters|
  {
    forall k :: 0 <= k < n ==>
      !s.waiters[k].callback.Passed? && !(s.waiters[k].callback.Armed? && s.waiters[k].cancelled)
  }

  lemma CallbackEnds(s: State, before: seq<Event>, t: State, i: nat) returns (events: seq<Event>, u: State)
    requires Exec(s, before) == Some(t) && MutexFree(t) && i < |t.waiters| && Calm(t, i)
    ensures Exec(s, events) == Some(u) && MutexFree(u) && |u.waiters| == |t.waiters| && Calm(u, i + 1)
  {
    events, u := before, t;
    if u.waiters[i].callback.Armed? && u.waiters[i].cancelled {
      events, u := After(s, events, u, CallbackLock(i));
    }
    if u.waiters[i].callback.Passed? {
      events, u := After(s, events, u, CallbackBroadcast(i));
    }
  }

  lemma {:induction false} CallbacksEnd(s: State, n: nat) returns (events: seq<Event>, u: State)
    requires MutexFree(s) && n <= |s.waiters|
    ensures Exec(s, events) == Some(u) && MutexFree(u) && |u.waiters| == |s.waiters| && Calm(u, n)
  {
    if n == 0 {
      events, u := [], s;
    } else {
      events, u := CallbacksEnd(s, n - 1);
      events, u := CallbackEnds(s, events, u, n - 1);
    }
  }

  /** With the mutex free all broadcasts that are due can be made, one after the other. */
  lemma CanSettle(s: State) returns (events: seq<Event>, u: State)
    requires MutexFree(s)
    ensures Exec(s, events) == Some(u) && Settled(u)
  {
    var calm;
    events, calm := CallbacksEnd(s, |s.waiters|);
    events, u := BroadcastsRunOut(s, events, calm);
  }

  // And it is awake sooner or later under every fair schedule, not only that one.

  /** A run that never ends; where nothing else moves, a repeated `Cancel` does. */
  datatype Run = Run(states: nat -> State, events: nat -> Event)

  ghost predicate IsRun(run: Run) {
    && Inv(run.states(0))
    && forall n: nat :: Enabled(run.states(n), run.events(n)) && run.states(n + 1) == Step(run.states(n), run.events(n))
  }

  /** What a goroutine owes: a broadcast, the holder's next step, a callback's turn at the mutex and after it. */
  datatype Due = Broadcasting | Moving(k: nat) | Locking(k: nat) | Calling(k: nat)

  predicate Pays(e: Event, d: Due) {
    match d
    case Broadcasting => e.Broadcast?
    case Moving(k) => (e.CheckResource? || e.CheckContext? || e.Sleep?) && e.i == k
    case Locking(k) => e == CallbackLock(k)
    case Calling(k) => e == CallbackBroadcast(k) || e == Begin(k)
  }

  predicate Owes(s: State, d: Due) {
    match d
    case Broadcasting => s.pending > 0
    case Moving(k) => k < |s.waiters| && HoldsMutex(s.waiters[k])
    case Locking(k) => Enabled(s, CallbackLock(k))
    case Calling(k) => k < |s.waiters| && s.waiters[k].callback.Passed?
  }

  ghost predicate Paid(run: Run, d: Due, n: nat) { exists m: nat :: n <= m && Pays(run.events(m), d) }

  ghost predicate Owed(run: Run, d: Due, n: nat) { exists m: nat :: n <= m && Owes(run.states(m), d) }

  /**
   * Every goroutine keeps running: a broadcast due is made, a holder of the mutex moves on, a
   * callback that passed the mutex broadcasts unless a new call replaces it. And the mutex starves
   * nobody: a callback that finds it free again and again gets it.
   */
  ghost predicate Fair(run: Run) {
    && (forall n: nat, d: Due :: !d.Locking? && Owes(run.states(n), d) ==> Paid(run, d, n))
    && (forall k: nat :: (forall n: nat :: Owed(run, Locking(k), n)) ==> forall n: nat :: Paid(run, Locking(k), n))
  }

  lemma {:induction false} RunKeepsInv(run: Run, n: nat)
    requires IsRun(run)
    ensures Inv(run.states(n)) && |run.states(n).waiters| == |run.states(0).waiters|
  {
    if n > 0 {
      RunKeepsInv(run, n - 1);
      StepKeepsInv(run.states(n - 1), run.events(n - 1));
    }
  }

  function Left(w: Waiter): nat {
    if w.at.Holding? then 3 else if w.at.CheckedResource? then 2 else if w.at.CheckedContext? then 1 else 0
  }

  /** While `k` holds the mutex only its own steps touch its place, each bringing it nearer the end. */
  lemma OnlyHolderMoves(s: State, e: Event, k: nat)
    requires Inv(s) && Owes(s, Moving(k)) && Enabled(s, e)
    ensures k < |Step(s, e).waiters|
    ensures if Pays(e, Moving(k)) then Left(Step(s, e).waiters[k]) < Left(s.waiters[k])
            else Step(s, e).waiters[k].at == s.waiters[k].at
    ensures Owes(Step(s, e), Moving(k)) || MutexFree(Step(s, e))
  {
    assert forall j :: 0 <= j < |s.waiters| && j != k ==> !HoldsMutex(s.waiters[j]);
  }

  lemma RunSteps(run: Run, n: nat)
    requires IsRun(run)
    ensures Inv(run.states(n)) && Enabled(run.states(n), run.events(n))
    ensures run.states(n + 1) == Step(run.states(n), run.events(n))
    ensures |run.states(n).waiters| == |run.states(n + 1).waiters| == |run.states(0).waiters|
  {
    RunKeepsInv(run, n);
    RunKeepsInv(run, n + 1);
  }

  /** A held mutex is free again: its holder `k` moves on at `next` at the latest, three times in all. */
  lemma {:induction false} HolderLeaves(run: Run, n: nat, next: nat, k: nat) returns (m: nat)
    requires IsRun(run) && Fair(run) && Owes(run.states(n), Moving(k))
    requires n <= next && Pays(run.events(next), Moving(k))
    ensures n <= m && MutexFree(run.states(m))
    decreases Left(run.states(n).waiters[k]), next - n
  {
    RunSteps(run, n);
    OnlyHolderMoves(run.states(n), run.events(n), k);
    m := n + 1;
    if Owes(run.states(n + 1), Moving(k)) {
      var later := next;
      if Pays(run.events(n), Moving(k)) {
        assert Paid(run, Moving(k), n + 1);
        later :| n + 1 <= later && Pays(run.events(later), Moving(k));
      }
      m := HolderLeaves(run, n + 1, later, k);
    }
  }

  lemma MutexComesFree(run: Run, n: nat) returns (m: nat)
    requires IsRun(run) && Fair(run)
    ensures n <= m && MutexFree(run.states(m))
  {
    m := n;
    if !MutexFree(run.states(n)) {
      var k :| 0 <= k < |run.states(n).waiters| && HoldsMutex(run.states(n).waiters[k]);
      assert Owes(run.states(n), Moving(k));
      assert Paid(run, Moving(k), n);
      var next: nat :| n <= next && Pays(run.events(next), Moving(k));
      m := HolderLeaves(run, n, next, k);
    }
  }

  predicate Sleeps(s: State, i: nat) { i < |s.waiters| && s.waiters[i].at.Asleep? }

  ghost predicate SleepsOn(run: Run, i: nat, n: nat) { forall m: nat :: n <= m ==> Sleeps(run.states(m), i) }

  /** No broadcast of the condition leaves `i` asleep, and a sleeper makes no new call. */
  lemma SleeperHearsNothing(run: Run, i: nat, n: nat, m: nat)
    requires IsRun(run) && SleepsOn(run, i, n) && n <= m
    ensures !run.events(m).Broadcast? && !Pays(run.events(m), Calling(i))
  {
    RunSteps(run, m);
    assert Sleeps(run.states(m), i) && Sleeps(run.states(m + 1), i);
  }

  lemma SleeperHasNoCall(run: Run, i: nat, n: nat, m: nat)
    requires IsRun(run) && Fair(run) && SleepsOn(run, i, n) && n <= m
    ensures !Owes(run.states(m), Calling(i))
  {
    if Owes(run.states(m), Calling(i)) {
      assert Paid(run, Calling(i), m);
      var b: nat :| m <= b && Pays(run.events(b), Calling(i));
      SleeperHearsNothing(run, i, n, b);
    }
  }

  /** A cancelled sleeper stays cancelled and keeps its callback until that runs. */
  lemma {:induction false} SleeperKeeps(run: Run, i: nat, n: nat, m: nat)
    requires IsRun(run) && SleepsOn(run, i, n) && n <= m
    requires Sleeps(run.states(n), i) && run.states(n).waiters[i].cancelled
    ensures Sleeps(run.states(m), i) && run.states(m).waiters[i].cancelled
    ensures run.states(m).waiters[i].callback.Armed? || run.states(m).waiters[i].callback.Passed?
    decreases m - n
  {
    RunSteps(run, m);
    assert WaiterOk(run.states(m), run.states(m).waiters[i]);
    if n < m {
      SleeperKeeps(run, i, n, m - 1);
      RunSteps(run, m - 1);
    }
  }

  /** Its callback finds the mutex free again and again, so it gets it, and then broadcasts. */
  lemma CancelledWakes(run: Run, i: nat, n: nat)
    requires IsRun(run) && Fair(run) && Sleeps(run.states(n), i) && run.states(n).waiters[i].cancelled
    ensures !SleepsOn(run, i, n)
  {
    if SleepsOn(run, i, n) {
      forall a: nat
        ensures Owed(run, Locking(i), a)
      {
        var m := MutexComesFree(run, if a < n then n else a);
        SleeperKeeps(run, i, n, m);
        SleeperHasNoCall(run, i, n, m);
        assert Owes(run.states(m), Locking(i));
      }
      assert Paid(run, Locking(i), n);
      var m: nat :| n <= m && Pays(run.events(m), Locking(i));
      RunSteps(run, m);
      SleeperHasNoCall(run, i, n, m + 1);
    }
  }

  /** Under every fair schedule a sleeper that ought to wake does. */
  lemma EverySleeperWakes(run: Run, i: nat, n: nat) returns (m: nat)
    requires IsRun(run) && Fair(run) && OughtToWake(run.states(n), i)
    ensures n <= m && i < |run.states(m).waiters| && !run.states(m).waiters[i].at.Asleep?
  {
    RunSteps(run, n);
    assert WaiterOk(run.states(n), run.states(n).waiters[i]);
    if SleepsOn(run, i, n) {
      if run.states(n).waiters[i].cancelled {
        CancelledWakes(run, i, n);
      } else {
        assert Owes(run.states(n), Broadcasting);
        assert Paid(run, Broadcasting, n);
        var b: nat :| n <= b && Pays(run.events(b), Broadcasting);
        SleeperHearsNothing(run, i, n, b);
      }
      assert false;
    }
    m :| n <= m && !Sleeps(run.states(m), i);
    RunSteps(run, m);
  }
}
