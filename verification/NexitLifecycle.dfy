/**
 * Which streams a nexit/1 session knows: the dial goroutines that enter the table, the drops
 * that leave it, and the one-time shutdown sweep. Only TCP streams are modelled.
 */
module NexitLifecycle {
  import opened Wrappers

  datatype Phase = Dialing | Gone | Entered

  /**
   * `owed` means some goroutine removed or gave up the stream and has yet to call `abort`;
   * `overwritten` that a later dial of the same id took its place in the table.
   */
  datatype Life = Life(id: nat, phase: Phase, owed: bool, aborted: bool, overwritten: bool)

  datatype Finish = NotStarted | DoneClosed | Sweeping(todo: set<nat>) | Finished

  datatype State = State(streams: seq<Life>, table: map<nat, nat>, finish: Finish)

  /** `done` is closed by the first step of `finish` and never reopened. */
  predicate Done(s: State) { !s.finish.NotStarted? }

  datatype Event =
    | OpenFrame(id: nat)
    | DialFails(i: nat)
    | Connect(i: nat)
    | Drop(i: nat)
    | Abort(i: nat)
    | FinishStart
    | FinishSweep
    | FinishAbort(i: nat)
    | FinishEnd

  predicate Enabled(s: State, e: Event) {
    match e
    case OpenFrame(id) => id !in s.table
    case DialFails(i) => i < |s.streams| && s.streams[i].phase.Dialing?
    case Connect(i) => i < |s.streams| && s.streams[i].phase.Dialing?
    case Drop(i) => i < |s.streams| && s.streams[i].phase.Entered?
    case Abort(i) => i < |s.streams| && s.streams[i].owed
    case FinishStart => s.finish.NotStarted?
    case FinishSweep => s.finish.DoneClosed?
    case FinishAbort(i) => s.finish.Sweeping? && i in s.finish.todo && i < |s.streams|
    case FinishEnd => s.finish.Sweeping? && s.finish.todo == {}
  }

  /** Under the mutex: refuse once done, otherwise take the id, whoever holds it. */
  function OnConnect(s: State, i: nat): State
    requires i < |s.streams|
  {
    var st := s.streams[i];
    if Done(s) then s.(streams := s.streams[i := st.(phase := Gone)])
    else
      var displaced :=
        if st.id in s.table && s.table[st.id] < |s.streams| && s.table[st.id] != i
        then s.streams[s.table[st.id] := s.streams[s.table[st.id]].(overwritten := true)]
        else s.streams;
      s.(streams := displaced[i := st.(phase := Entered)], table := s.table[st.id := i])
  }

  function OnDrop(s: State, i: nat): State
    requires i < |s.streams|
  {
    var st := s.streams[i];
    s.(streams := s.streams[i := st.(owed := true)],
       table := if st.id in s.table && s.table[st.id] == i then s.table - {st.id} else s.table)
  }

  function Step(s: State, e: Event): State
    requires Enabled(s, e)
  {
    match e
    case OpenFrame(id) => s.(streams := s.streams + [Life(id, Dialing, false, false, false)])
    case DialFails(i) => s.(streams := s.streams[i := s.streams[i].(phase := Gone)])
    case Connect(i) => OnConnect(s, i)
    case Drop(i) => OnDrop(s, i)
    case Abort(i) => s.(streams := s.streams[i := s.streams[i].(owed := false, aborted := true)])
    case FinishStart => s.(finish := DoneClosed)
    case FinishSweep => s.(finish := Sweeping(s.table.Values), table := map[])
    case FinishAbort(i) =>
      s.(streams := s.streams[i := s.streams[i].(aborted := true)], finish := Sweeping(s.finish.todo - {i}))
    case FinishEnd => s.(finish := Finished)
  }

  function Exec(s: State, events: seq<Event>): Option<State>
    decreases |events|
  {
    if events == [] then Some(s)
    else if !Enabled(s, events[0]) then None
    else Exec(Step(s, events[0]), events[1..])
  }

  const START := State([], map[], NotStarted)

  /** The peer does not OPEN an id again before the previous OPEN of it was answered. */
  predicate Polite(s: State, events: seq<Event>)
    decreases |events|
  {
    events != [] && Enabled(s, events[0]) ==>
      && (events[0].OpenFrame? ==> NotDialing(s, events[0].id))
      && Polite(Step(s, events[0]), events[1..])
  }

  /** No OPEN of this id is still waiting for its answer. */
  predicate NotDialing(s: State, id: nat) {
    forall k :: 0 <= k < |s.streams| && s.streams[k].id == id ==> !s.streams[k].phase.Dialing?
  }

  // Invariants.

  predicate Todo(s: State, i: nat) { s.finish.Sweeping? && i in s.finish.todo }

  predicate InTable(s: State, i: nat) {
    i < |s.streams| && s.streams[i].id in s.table && s.table[s.streams[i].id] == i
  }

  /** A stream that entered is accounted for: someone will abort it, or it was overwritten. */
  predicate Covered(s: State, i: nat)
    requires i < |s.streams|
  {
    var st := s.streams[i];
    st.phase.Entered? ==> st.aborted || st.owed || st.overwritten || Todo(s, i) || InTable(s, i)
  }

  predicate Inv(s: State) {
    && (forall id :: id in s.table ==> s.table[id] < |s.streams| && s.streams[s.table[id]].id == id)
    && (forall i :: 0 <= i < |s.streams| ==> Covered(s, i))
    && (s.finish.Sweeping? || s.finish.Finished? ==> s.table == map[])
  }

  /** What politeness adds: an id being dialed is not in the table and is dialed once. */
  predicate PoliteInv(s: State) {
    && (forall i :: 0 <= i < |s.streams| ==> !s.streams[i].overwritten)
    && (forall i :: 0 <= i < |s.streams| && s.streams[i].phase.Dialing? ==> s.streams[i].id !in s.table)
    && (forall i, j :: 0 <= i < j < |s.streams| && s.streams[i].phase.Dialing? && s.streams[j].phase.Dialing?
          ==> s.streams[i].id != s.streams[j].id)
  }

  lemma StepKeepsInv(s: State, e: Event)
    requires Inv(s) && Enabled(s, e)
    ensures Inv(Step(s, e))
  {
    var t := Step(s, e);
    forall i | 0 <= i < |t.streams|
      ensures Covered(t, i)
    {
      assert i < |s.streams| ==> Covered(s, i);
      if e.FinishSweep? && InTable(s, i) {
        assert s.table[s.streams[i].id] in s.table.Values;
      }
    }
  }

  lemma StepKeepsPolite(s: State, e: Event)
    requires Inv(s) && PoliteInv(s) && Enabled(s, e)
    requires e.OpenFrame? ==> NotDialing(s, e.id)
    ensures PoliteInv(Step(s, e))
  {
  }

  lemma {:induction false} EveryRunCovers(s: State, events: seq<Event>)
    requires Inv(s)
    ensures Exec(s, events).Some? ==> Inv(Exec(s, events).value)
    decreases |events|
  {
    if events != [] && Enabled(s, events[0]) {
      StepKeepsInv(s, events[0]);
      EveryRunCovers(Step(s, events[0]), events[1..]);
    }
  }

  lemma {:induction false} PoliteRunNeverOverwrites(s: State, events: seq<Event>)
    requires Inv(s) && PoliteInv(s) && Polite(s, events)
    ensures Exec(s, events).Some? ==> PoliteInv(Exec(s, events).value)
    decreases |events|
  {
    if events != [] && Enabled(s, events[0]) {
      StepKeepsInv(s, events[0]);
      StepKeepsPolite(s, events[0]);
      PoliteRunNeverOverwrites(Step(s, events[0]), events[1..]);
    }
  }

  /** Shutdown is complete: `finish` returned and no goroutine still owes an `abort`. */
  predicate Quiet(s: State) {
    s.finish.Finished? && forall i :: 0 <= i < |s.streams| ==> !s.streams[i].owed
  }

  // Which overwritten streams are aborted after all: those that were dropped.

  function Dropped(events: seq<Event>): set<nat> { set e | e in events && e.Drop? :: e.i }

  /** One stream, against the streams dropped so far. */
  predicate Accounted(s: State, dropped: set<nat>, i: nat)
    requires i < |s.streams|
  {
    var st := s.streams[i];
    && (i in dropped ==> st.phase.Entered? && (st.aborted || st.owed) && !InTable(s, i))
    && (i !in dropped ==> !st.owed)
    && (i !in dropped && st.aborted ==> !st.overwritten && Done(s))
    && (InTable(s, i) ==> st.phase.Entered?)
    && (st.overwritten ==> st.phase.Entered? && !InTable(s, i) && !Todo(s, i))
  }

  predicate AllAccounted(s: State, dropped: set<nat>) {
    && (forall i :: 0 <= i < |s.streams| ==> Accounted(s, dropped, i))
    && (forall i :: i in dropped ==> i < |s.streams|)
  }

  lemma StepKeepsAccounts(s: State, e: Event, dropped: set<nat>)
    requires Inv(s) && AllAccounted(s, dropped) && Enabled(s, e)
    ensures AllAccounted(Step(s, e), dropped + Dropped([e]))
  {
    var t := Step(s, e);
    assert Dropped([e]) == if e.Drop? then {e.i} else {} by {
      assert e in [e];
    }
    forall i | 0 <= i < |t.streams|
      ensures Accounted(t, dropped + Dropped([e]), i)
    {
      assert i < |s.streams| ==> Accounted(s, dropped, i);
    }
  }

  lemma {:induction false} EveryRunAccounts(s: State, events: seq<Event>, dropped: set<nat>)
    requires Inv(s) && AllAccounted(s, dropped)
    ensures Exec(s, events).Some? ==>
      Inv(Exec(s, events).value) && AllAccounted(Exec(s, events).value, dropped + Dropped(events))
    decreases |events|
  {
    if events == [] {
      assert dropped + Dropped(events) == dropped;
    } else if Enabled(s, events[0]) {
      StepKeepsInv(s, events[0]);
      StepKeepsAccounts(s, events[0], dropped);
      EveryRunAccounts(Step(s, events[0]), events[1..], dropped + Dropped([events[0]]));
      assert events == [events[0]] + events[1..];
      assert dropped + Dropped([events[0]]) + Dropped(events[1..]) == dropped + Dropped(events);
    }
  }

  /**
   * After shutdown a stream that entered the table is aborted if and only if no later dial of
   * its id overwrote it or it was dropped, by itself or by the reader. A polite peer overwrites
   * nothing, so then every stream is aborted.
   */
  lemma {:induction false} FinishAbortsEveryStream(events: seq<Event>)
    ensures var r := Exec(START, events);
      r.Some? && Quiet(r.value) ==>
        forall i :: 0 <= i < |r.value.streams| && r.value.streams[i].phase.Entered? ==>
          && (r.value.streams[i].aborted <==> !r.value.streams[i].overwritten || Drop(i) in events)
          && (Polite(START, events) ==> r.value.streams[i].aborted)
  {
    EveryRunAccounts(START, events, {});
    if Polite(START, events) {
      PoliteRunNeverOverwrites(START, events);
    }
    var r := Exec(START, events);
    if r.Some? && Quiet(r.value) {
      forall i: nat | i < |r.value.streams| && r.value.streams[i].phase.Entered?
        ensures r.value.streams[i].aborted <==> !r.value.streams[i].overwritten || Drop(i) in events
      {
        assert Accounted(r.value, {} + Dropped(events), i) && Covered(r.value, i);
        assert Drop(i) in events <==> i in Dropped(events);
        assert !Todo(r.value, i) && !InTable(r.value, i);
      }
    }
  }

  // Each dial is decided once, and shutdown can always be completed.

  /** What the events so far say of one dial. */
  predicate Decided(s: State, events: seq<Event>, i: nat)
    requires i < |s.streams|
  {
    var st := s.streams[i];
    && (st.phase.Dialing? <==> Connect(i) !in events && DialFails(i) !in events)
    && (st.phase.Entered? ==> Connect(i) in events)
    && (st.phase.Gone? && Connect(i) in events ==> Done(s))
    && !(Connect(i) in events && DialFails(i) in events)
  }

  /** Events about streams that are not there yet have not happened. */
  ghost predicate AllDecided(s: State, events: seq<Event>) {
    && (forall i :: 0 <= i < |s.streams| ==> Decided(s, events, i))
    && (forall i: nat :: Connect(i) in events || DialFails(i) in events ==> i < |s.streams|)
  }

  lemma StepDecides(s: State, before: seq<Event>, e: Event)
    requires AllDecided(s, before) && Enabled(s, e)
    ensures AllDecided(Step(s, e), before + [e])
  {
    var t, events := Step(s, e), before + [e];
    assert forall x :: x in events <==> x in before || x == e;
    forall i | 0 <= i < |t.streams| ensures Decided(t, events, i) {
      assert i < |s.streams| ==> Decided(s, before, i);
    }
  }

  lemma {:induction false} RunDecides(s: State, before: seq<Event>, events: seq<Event>)
    requires AllDecided(s, before)
    ensures Exec(s, events).Some? ==> AllDecided(Exec(s, events).value, before + events)
    decreases |events|
  {
    if events == [] {
      assert before + events == before;
    } else if Enabled(s, events[0]) {
      StepDecides(s, before, events[0]);
      RunDecides(Step(s, events[0]), before + [events[0]], events[1..]);
      assert before + [events[0]] + events[1..] == before + events;
    }
  }

  /**
   * A dial is open until it connects or fails, never both; one that failed never enters, and one
   * that connected did enter, unless the session is over.
   */
  lemma {:induction false} DialsAreDecided(events: seq<Event>, i: nat)
    ensures var r := Exec(START, events);
      r.Some? && i < |r.value.streams| ==>
        var phase := r.value.streams[i].phase;
        && (phase.Dialing? <==> Connect(i) !in events && DialFails(i) !in events)
        && (DialFails(i) in events ==> phase.Gone?)
        && (Connect(i) in events ==> phase.Entered? || Done(r.value))
  {
    RunDecides(START, [], events);
    assert [] + events == events;
    var r := Exec(START, events);
    assert r.Some? && i < |r.value.streams| ==> Decided(r.value, events, i);
  }

  lemma {:induction false} After(s: State, events: seq<Event>, t: State, e: Event)
    returns (longer: seq<Event>, next: State)
    requires Exec(s, events) == Some(t) && Enabled(t, e)
    ensures next == Step(t, e) && Exec(s, longer) == Some(next)
    ensures longer == events + [e]
    decreases |events|
  {
    longer, next := events + [e], Step(t, e);
    if events == [] {
      assert longer[1..] == [];
    } else {
      var _, _ := After(Step(s, events[0]), events[1..], t, e);
      assert longer[1..] == events[1..] + [e];
    }
  }

  /** The sweep aborts what it took out of the table, one by one. */
  lemma {:induction false} SweepEnds(s: State, before: seq<Event>, t: State) returns (events: seq<Event>, u: State)
    requires Exec(s, before) == Some(t) && t.finish.Sweeping?
    requires forall i :: i in t.finish.todo ==> i < |t.streams|
    ensures Exec(s, events) == Some(u) && u.finish.Finished? && |u.streams| == |t.streams|
    decreases t.finish.todo
  {
    if i :| i in t.finish.todo {
      var next;
      events, next := After(s, before, t, FinishAbort(i));
      events, u := SweepEnds(s, events, next);
    } else {
      events, u := After(s, before, t, FinishEnd);
    }
  }

  lemma {:induction false} DebtsArePaid(s: State, before: seq<Event>, t: State, n: nat)
    returns (events: seq<Event>, u: State)
    requires Exec(s, before) == Some(t) && t.finish.Finished? && n <= |t.streams|
    requires forall i :: n <= i < |t.streams| ==> !t.streams[i].owed
    ensures Exec(s, events) == Some(u) && Quiet(u)
    decreases n
  {
    events, u := before, t;
    if n > 0 {
      if t.streams[n - 1].owed {
        events, u := After(s, before, t, Abort(n - 1));
      }
      events, u := DebtsArePaid(s, events, u, n - 1);
    }
  }

  /** From every reachable state shutdown can be run to its end, with every abort that is owed made. */
  lemma {:induction false} ShutdownCanFinish(events: seq<Event>) returns (more: seq<Event>, u: State)
    requires Exec(START, events).Some? && Exec(START, events).value.finish.NotStarted?
    ensures Exec(START, more) == Some(u) && Quiet(u) && events <= more
  {
    EveryRunCovers(START, events);
    var t := Exec(START, events).value;
    var rest, s1, s2, s3 := [], t, t, t;
    assert Exec(t, rest) == Some(t);
    rest, s1 := After(t, rest, t, FinishStart);
    rest, s2 := After(t, rest, s1, FinishSweep);
    rest, s3 := SweepEnds(t, rest, s2);
    rest, u := DebtsArePaid(t, rest, s3, |s3.streams|);
    RunsJoin(START, events, rest);
    more := events + rest;
  }

  lemma {:induction false} RunsJoin(s: State, a: seq<Event>, b: seq<Event>)
    requires Exec(s, a).Some?
    ensures Exec(s, a + b) == Exec(Exec(s, a).value, b)
    decreases |a|
  {
    if a == [] {
      assert a + b == b;
    } else {
      RunsJoin(Step(s, a[0]), a[1..], b);
      assert (a + b)[1..] == a[1..] + b;
    }
  }

  /** Once `done` is closed no stream enters the table, whatever happens afterwards. */
  lemma {:induction false} NoneEntersAfterDone(s: State, events: seq<Event>)
    requires Done(s)
    ensures var r := Exec(s, events);
      r.Some? ==>
        && Done(r.value) && |r.value.streams| >= |s.streams|
        && (forall i :: 0 <= i < |s.streams| ==>
              (r.value.streams[i].phase.Entered? <==> s.streams[i].phase.Entered?))
        && (forall i :: |s.streams| <= i < |r.value.streams| ==> !r.value.streams[i].phase.Entered?)
        && (forall id :: id in r.value.table ==> id in s.table && r.value.table[id] == s.table[id])
    decreases |events|
  {
    if events != [] && Enabled(s, events[0]) {
      NoneEntersAfterDone(Step(s, events[0]), events[1..]);
    }
  }

  lemma Prepend(s: State, e: Event, t: State, events: seq<Event>)
    requires Enabled(s, e) && Step(s, e) == t
    ensures Exec(s, [e] + events) == Exec(t, events)
    ensures Polite(s, [e] + events) ==> Polite(t, events) && (e.OpenFrame? ==> NotDialing(s, e.id))
  {
    assert ([e] + events)[1..] == events;
  }

  /** Two OPENs of one unanswered id: the first connection is overwritten and never aborted. */
  lemma RepeatedOpenLeaks() returns (events: seq<Event>)
    ensures !Polite(START, events)
    ensures Exec(START, events).Some? && Quiet(Exec(START, events).value)
    ensures var s := Exec(START, events).value;
      |s.streams| > 0 && s.streams[0].phase.Entered? && s.streams[0].overwritten && !s.streams[0].aborted
  {
    var l := Life(1, Dialing, false, false, false);
    var s1 := State([l], map[], NotStarted);
    var s2 := State([l, l], map[], NotStarted);
    var s3 := State([l.(phase := Entered), l], map[1 := 0], NotStarted);
    var s4 := State([l.(phase := Entered, overwritten := true), l.(phase := Entered)], map[1 := 1], NotStarted);
    events := LeakAfter(s4);
    Prepend(s3, Connect(1), s4, events);         events := [Connect(1)] + events;
    Prepend(s2, Connect(0), s3, events);         events := [Connect(0)] + events;
    Prepend(s1, OpenFrame(1), s2, events);       events := [OpenFrame(1)] + events;
    assert s1.streams[0].phase.Dialing?;
    Prepend(START, OpenFrame(1), s1, events);    events := [OpenFrame(1)] + events;
  }

  /** The shutdown half of that run. */
  lemma LeakAfter(s4: State) returns (events: seq<Event>)
    requires s4.table == map[1 := 1] && s4.finish.NotStarted? && |s4.streams| == 2
    requires !s4.streams[0].owed && !s4.streams[1].owed
    ensures Exec(s4, events).Some? && Quiet(Exec(s4, events).value)
    ensures |Exec(s4, events).value.streams| == 2 && Exec(s4, events).value.streams[0] == s4.streams[0]
  {
    var s5 := s4.(finish := DoneClosed);
    var s6 := s4.(finish := Sweeping({1}), table := map[]);
    var s7 := s6.(streams := s6.streams[1 := s6.streams[1].(aborted := true)], finish := Sweeping({}));
    var s8 := s7.(finish := Finished);
    assert s5.table[1] in s5.table.Values;
    assert s5.table.Values == {1} && {1} - {1} == {};
    assert Exec(s8, []) == Some(s8);
    Prepend(s7, FinishEnd, s8, []);              events := [FinishEnd] + [];
    Prepend(s6, FinishAbort(1), s7, events);     events := [FinishAbort(1)] + events;
    Prepend(s5, FinishSweep, s6, events);        events := [FinishSweep] + events;
    Prepend(s4, FinishStart, s5, events);        events := [FinishStart] + events;
  }
}
