/**
 * The positive answer cache: entries live for their smallest TTL, capped, and are aged on the
 * way out. Times are nanoseconds on a monotone clock; only the TTL of a record matters here.
 */
module DnsCache {
  import opened Wrappers

  const CACHE_SIZE: nat := 1000
  const MAX_TTL: nat := 300
  const SECOND: nat := 1_000_000_000

  type Word32 = n: nat | n < 0x1_0000_0000

  datatype Resource = Resource(ttl: Word32, data: nat)

  datatype Entry = Entry(answers: seq<Resource>, expires: nat, stored: nat)

  /** A lower-cased name, a type and a class. */
  type Key = nat

  type Entries = map<Key, Entry>

  predicate HasZero(answers: seq<Resource>) { exists i :: 0 <= i < |answers| && answers[i].ttl == 0 }

  /** The smallest TTL, at most the cap. */
  function MinTtl(answers: seq<Resource>): nat {
    if answers == [] then MAX_TTL
    else
      var rest := MinTtl(answers[..|answers| - 1]);
      var last := answers[|answers| - 1].ttl;
      if last < rest then last else rest
  }

  lemma {:induction false} MinTtlIsLeast(answers: seq<Resource>)
    ensures MinTtl(answers) <= MAX_TTL
    ensures forall i :: 0 <= i < |answers| ==> MinTtl(answers) <= answers[i].ttl
    ensures MinTtl(answers) == MAX_TTL || exists i :: 0 <= i < |answers| && answers[i].ttl == MinTtl(answers)
  {
    if answers != [] {
      var front := answers[..|answers| - 1];
      MinTtlIsLeast(front);
      var last := answers[|answers| - 1].ttl;
      if last >= MinTtl(front) && MinTtl(answers) != MAX_TTL {
        var i :| 0 <= i < |front| && front[i].ttl == MinTtl(front);
        assert answers[i].ttl == MinTtl(answers);
      }
    }
  }

  predicate Live(e: Entry, now: nat) { now < e.expires }

  /** Whole seconds, in thirty-two bits. */
  function Elapsed(e: Entry, now: nat): Word32
    requires e.stored <= now
  {
    ((now - e.stored) / SECOND) % 0x1_0000_0000
  }

  function Aged(r: Resource, elapsed: Word32): Resource {
    r.(ttl := if r.ttl > elapsed then r.ttl - elapsed else 1)
  }

  function AgedAll(answers: seq<Resource>, elapsed: Word32): (r: seq<Resource>)
    ensures |r| == |answers| && forall i :: 0 <= i < |r| ==> r[i] == Aged(answers[i], elapsed)
  {
    seq(|answers|, i requires 0 <= i < |answers| => Aged(answers[i], elapsed))
  }

  function NewEntry(answers: seq<Resource>, now: nat): Entry {
    Entry(answers, now + MinTtl(answers) * SECOND, now)
  }

  /**
   * What making room may do: below the limit, nothing. At it, expired entries go first; live
   * ones only if that was not enough, and then just enough of them.
   */
  predicate RoomMade(before: Entries, after: Entries, now: nat) {
    && after.Keys <= before.Keys && (forall k :: k in after ==> after[k] == before[k])
    && (|before| < CACHE_SIZE ==> after == before)
    && (|before| >= CACHE_SIZE ==>
          && |after| < CACHE_SIZE && (forall k :: k in after ==> Live(after[k], now))
          && ((exists k :: k in before && k !in after && Live(before[k], now)) ==> |after| == CACHE_SIZE - 1))
  }

  lemma SubmapSize(small: Entries, large: Entries, k: Key)
    requires k in large && small == large - {k}
    ensures |small| == |large| - 1
  {
    assert small.Keys == large.Keys - {k};
    assert |large.Keys| == |large.Keys - {k}| + 1;
    assert |small| == |small.Keys| && |large| == |large.Keys|;
  }

  class Cache {
    var entries: Entries

    constructor ()
      ensures entries == map[]
    {
      entries := map[];
    }

    /** Served only while live, aged by whole elapsed seconds; an expired entry is dropped. */
    method Get(k: Key, now: nat) returns (r: Option<seq<Resource>>)
      requires forall j :: j in entries ==> entries[j].stored <= now
      modifies this
      ensures r.Some? <==> k in old(entries) && Live(old(entries)[k], now)
      ensures r.Some? ==>
        entries == old(entries) && r.value == AgedAll(old(entries)[k].answers, Elapsed(old(entries)[k], now))
      ensures r.None? ==> entries == old(entries) - {k}
    {
      if k !in entries {
        return None;
      }
      var e := entries[k];
      if now >= e.expires {
        entries := entries - {k};
        return None;
      }
      var elapsed := Elapsed(e, now);
      var out: seq<Resource> := [];
      for i := 0 to |e.answers|
        invariant |out| == i && forall j :: 0 <= j < i ==> out[j] == Aged(e.answers[j], elapsed)
      {
        var a := e.answers[i];
        out := out + [a.(ttl := if a.ttl > elapsed then a.ttl - elapsed else 1)];
      }
      assert out == AgedAll(e.answers, elapsed);
      return Some(out);
    }

    method Smallest(answers: seq<Resource>) returns (zero: bool, min: nat)
      ensures zero <==> HasZero(answers)
      ensures !zero ==> min == MinTtl(answers)
    {
      min := MAX_TTL;
      for i := 0 to |answers|
        invariant !HasZero(answers[..i]) && min == MinTtl(answers[..i])
      {
        assert answers[..i + 1][..i] == answers[..i];
        if answers[i].ttl == 0 {
          return true, min;
        }
        if answers[i].ttl < min {
          min := answers[i].ttl;
        }
        assert forall j :: 0 <= j < i ==> answers[..i + 1][j] == answers[..i][j];
      }
      assert answers[..|answers|] == answers;
      zero := false;
    }

    method MakeRoom(now: nat)
      modifies this
      ensures RoomMade(old(entries), entries, now)
    {
      if |entries| < CACHE_SIZE {
        return;
      }
      DropExpired(now);
      ghost var mid := entries;
      var keys := entries.Keys;
      while keys != {}
        invariant keys <= entries.Keys <= mid.Keys && forall k :: k in entries ==> entries[k] == mid[k]
        invariant keys == entries.Keys
        invariant entries == mid || |entries| >= CACHE_SIZE - 1
        decreases keys
      {
        if |entries| < CACHE_SIZE {
          break;
        }
        var k :| k in keys;
        SubmapSize(entries - {k}, entries, k);
        entries := entries - {k};
        keys := keys - {k};
      }
      if keys == {} {
        assert entries == map[];
      }
    }

    method DropExpired(now: nat)
      modifies this
      ensures entries.Keys <= old(entries).Keys && forall k :: k in entries ==> entries[k] == old(entries)[k]
      ensures forall k :: k in old(entries) ==> (k in entries <==> Live(old(entries)[k], now))
    {
      var keys := entries.Keys;
      while keys != {}
        invariant keys <= entries.Keys <= old(entries).Keys
        invariant forall k :: k in entries ==> entries[k] == old(entries)[k]
        invariant forall k :: k in old(entries) && k !in keys ==> (k in entries <==> Live(old(entries)[k], now))
        decreases keys
      {
        var k :| k in keys;
        if now >= entries[k].expires {
          entries := entries - {k};
        }
        keys := keys - {k};
      }
    }

    method Put(k: Key, answers: seq<Resource>, now: nat)
      modifies this
      ensures HasZero(answers) ==> entries == old(entries)
      ensures !HasZero(answers) ==>
        exists room :: RoomMade(old(entries), room, now) && entries == room[k := NewEntry(answers, now)]
    {
      var zero, min := Smallest(answers);
      if zero {
        return;
      }
      MakeRoom(now);
      ghost var room := entries;
      entries := entries[k := Entry(answers, now + min * SECOND, now)];
      assert entries == room[k := NewEntry(answers, now)];
    }
  }

  // Runs. `last` is the latest storable answer put for each key.

  datatype State = State(entries: Entries, now: nat, last: map<Key, Entry>)

  datatype Event = Tick(to: nat) | Get(k: Key) | Put(k: Key, answers: seq<Resource>, room: Entries)

  predicate Enabled(s: State, e: Event) {
    match e
    case Tick(to) => s.now <= to
    case Get(_) => true
    case Put(_, answers, room) => RoomMade(s.entries, room, s.now)
  }

  function Step(s: State, e: Event): State
    requires Enabled(s, e)
  {
    match e
    case Tick(to) => s.(now := to)
    case Get(k) => if k in s.entries && Live(s.entries[k], s.now) then s else s.(entries := s.entries - {k})
    case Put(k, answers, room) =>
      if HasZero(answers) then s
      else
        var entry := NewEntry(answers, s.now);
        s.(entries := room[k := entry], last := s.last[k := entry])
  }

  function Exec(s: State, events: seq<Event>): Option<State>
    decreases |events|
  {
    if events == [] then Some(s)
    else if !Enabled(s, events[0]) then None
    else Exec(Step(s, events[0]), events[1..])
  }

  predicate AllPositive(answers: seq<Resource>) { forall i :: 0 <= i < |answers| ==> answers[i].ttl > 0 }

  predicate EntryOk(e: Entry, now: nat) {
    e.stored <= now && AllPositive(e.answers) && e.expires == e.stored + MinTtl(e.answers) * SECOND
  }

  /** Looking an answer up removes it exactly when its time has passed, and touches no other. */
  lemma GetRemovesExpired(s: State, k: Key)
    ensures var t := Step(s, Get(k));
      && t == s.(entries := t.entries)
      && (forall j :: j in t.entries <==> j in s.entries && (j == k ==> s.now < s.entries[j].expires))
      && (forall j :: j in t.entries ==> t.entries[j] == s.entries[j])
  {
  }

  /** An answer is stored exactly when every record in it has a TTL, from now until the smallest has passed. */
  lemma PutStoresPositive(s: State, k: Key, answers: seq<Resource>, room: Entries)
    requires Enabled(s, Put(k, answers, room))
    ensures var t := Step(s, Put(k, answers, room));
      if AllPositive(answers) then
        && t.entries == room[k := Entry(answers, s.now + MinTtl(answers) * SECOND, s.now)]
        && t.last == s.last[k := t.entries[k]] && t.now == s.now
      else t == s
  {
    assert AllPositive(answers) <==> !HasZero(answers);
  }

  function ClockAfter(now: nat, events: seq<Event>): nat
    decreases |events|
  {
    if events == [] then now else ClockAfter(if events[0].Tick? then events[0].to else now, events[1..])
  }

  /** The cache goes by the last tick. */
  lemma {:induction false} ClockIsLastTick(s: State, events: seq<Event>)
    ensures Exec(s, events).Some? ==> Exec(s, events).value.now == ClockAfter(s.now, events)
    decreases |events|
  {
    if events != [] && Enabled(s, events[0]) {
      ClockIsLastTick(Step(s, events[0]), events[1..]);
    }
  }

  predicate Inv(s: State) {
    && |s.entries| <= CACHE_SIZE
    && forall k :: k in s.entries ==> EntryOk(s.entries[k], s.now) && k in s.last && s.last[k] == s.entries[k]
  }

  lemma AddedSize(m: Entries, k: Key, e: Entry)
    ensures |m[k := e]| <= |m| + 1
    ensures k in m ==> |m[k := e]| == |m|
  {
    assert m[k := e].Keys == m.Keys + {k};
    assert k in m ==> m.Keys + {k} == m.Keys;
    assert |m| == |m.Keys| && |m[k := e]| == |m[k := e].Keys|;
  }

  lemma RemovedSize(m: Entries, k: Key)
    ensures |m - {k}| <= |m|
  {
    if k in m {
      SubmapSize(m - {k}, m, k);
    } else {
      assert m - {k} == m;
    }
  }

  lemma GetKeepsInv(s: State, k: Key)
    requires Inv(s)
    ensures Inv(Step(s, Get(k)))
  {
    RemovedSize(s.entries, k);
  }

  lemma PutKeepsInv(s: State, k: Key, answers: seq<Resource>, room: Entries)
    requires Inv(s) && RoomMade(s.entries, room, s.now)
    ensures Inv(Step(s, Put(k, answers, room)))
  {
    var entry := NewEntry(answers, s.now);
    AddedSize(room, k, entry);
    if !HasZero(answers) {
      var t := Step(s, Put(k, answers, room));
      forall j | j in t.entries ensures EntryOk(t.entries[j], t.now) && j in t.last && t.last[j] == t.entries[j] {
        assert j != k ==> j in room && room[j] == s.entries[j];
      }
    }
  }

  lemma StepKeepsInv(s: State, e: Event)
    requires Inv(s) && Enabled(s, e)
    ensures Inv(Step(s, e))
  {
    match e
    case Tick(_) =>
    case Get(k) => GetKeepsInv(s, k);
    case Put(k, answers, room) => PutKeepsInv(s, k, answers, room);
  }

  lemma {:induction false} EveryRunKeepsInv(s: State, events: seq<Event>)
    requires Inv(s)
    ensures Exec(s, events).Some? ==> Inv(Exec(s, events).value)
    decreases |events|
  {
    if events != [] && Enabled(s, events[0]) {
      StepKeepsInv(s, events[0]);
      EveryRunKeepsInv(Step(s, events[0]), events[1..]);
    }
  }

  predicate Served(s: State, k: Key) { k in s.entries && Live(s.entries[k], s.now) }

  lemma ElapsedIsBelow(e: Entry, now: nat)
    requires EntryOk(e, now) && Live(e, now)
    ensures Elapsed(e, now) == (now - e.stored) / SECOND < MinTtl(e.answers) <= MAX_TTL
  {
    MinTtlIsLeast(e.answers);
    var age := now - e.stored;
    assert age < MinTtl(e.answers) * SECOND;
    assert (age / SECOND) * SECOND <= age;
  }

  /**
   * Over every run of puts, gets and clock ticks the cache stays within its size; an answer is
   * served only from the latest storable put, before its smallest capped TTL has elapsed; and
   * each record then carries its own TTL less the whole elapsed seconds, at least one, so the
   * clamp in the source never fires.
   */
  lemma {:induction false} ServedAnswersAreFresh(now: nat, events: seq<Event>, k: Key, i: nat)
    ensures var r := Exec(State(map[], now, map[]), events);
      r.Some? ==>
        var s := r.value;
        && |s.entries| <= CACHE_SIZE
        && (Served(s, k) ==>
              var e := s.entries[k];
              && k in s.last && e == s.last[k]
              && e.stored <= s.now < e.stored + MinTtl(e.answers) * SECOND
              && (i < |e.answers| ==>
                    var out := AgedAll(e.answers, Elapsed(e, s.now))[i];
                    && out.ttl == e.answers[i].ttl - (s.now - e.stored) / SECOND
                    && out.ttl >= 1 && out.data == e.answers[i].data))
  {
    var s0 := State(map[], now, map[]);
    EveryRunKeepsInv(s0, events);
    var r := Exec(s0, events);
    if r.Some? && Served(r.value, k) {
      var e := r.value.entries[k];
      ElapsedIsBelow(e, r.value.now);
      MinTtlIsLeast(e.answers);
    }
  }
}
