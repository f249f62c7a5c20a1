/** The ab_state line of uEnv.txt: the reader's line scan and the writer's byte search. */
module UEnv {
  import opened Wrappers
  import opened Bytes

  const NEWLINE: Byte := 10
  const PREFIX: seq<Byte> := [97, 98, 95, 115, 116, 97, 116, 101, 61] // "ab_state="
  const COMMITTED: seq<Byte> := [99, 111, 109, 109, 105, 116, 116, 101, 100]
  const TRIAL: seq<Byte> := [116, 114, 105, 97, 108]

  datatype Error = NoState | UnknownState

  // The library searches, by their meaning.

  function IndexByte(data: seq<Byte>, b: Byte): (r: int)
    ensures -1 <= r < |data|
    ensures r >= 0 ==> data[r] == b
    ensures forall k :: 0 <= k < |data| && (r < 0 || k < r) ==> data[k] != b
  {
    if data == [] then -1
    else if data[0] == b then 0
    else
      var r := IndexByte(data[1..], b);
      if r < 0 then -1 else r + 1
  }

  predicate OccursAt(data: seq<Byte>, pattern: seq<Byte>, i: int) { 0 <= i <= |data| && pattern <= data[i..] }

  lemma OccursFurther(data: seq<Byte>, pattern: seq<Byte>, i: nat)
    requires 1 <= i <= |data|
    ensures OccursAt(data, pattern, i) <==> OccursAt(data[1..], pattern, i - 1)
  {
    assert data[1..][i - 1..] == data[i..];
  }

  lemma OccursHere(data: seq<Byte>, pattern: seq<Byte>)
    ensures OccursAt(data, pattern, 0) <==> pattern <= data
  {
    assert data[0..] == data;
  }

  /** What the search of the tail says of the whole. */
  lemma IndexStep(data: seq<Byte>, pattern: seq<Byte>, r: int)
    requires data != [] && !(pattern <= data) && -1 <= r < |data|
    requires r >= 0 ==> OccursAt(data[1..], pattern, r)
    requires forall i :: 0 <= i < |data| && (r < 0 || i < r) ==> !OccursAt(data[1..], pattern, i)
    ensures r >= 0 ==> OccursAt(data, pattern, r + 1)
    ensures forall i :: 0 <= i <= |data| && (r < 0 || i < r + 1) ==> !OccursAt(data, pattern, i)
  {
    OccursHere(data, pattern);
    if r >= 0 {
      OccursFurther(data, pattern, r + 1);
    }
    forall i | 1 <= i <= |data| && (r < 0 || i < r + 1) ensures !OccursAt(data, pattern, i) {
      OccursFurther(data, pattern, i);
    }
  }

  function Index(data: seq<Byte>, pattern: seq<Byte>): (r: int)
    ensures -1 <= r <= |data|
    ensures r >= 0 ==> OccursAt(data, pattern, r)
    ensures forall i :: 0 <= i <= |data| && (r < 0 || i < r) ==> !OccursAt(data, pattern, i)
  {
    OccursHere(data, pattern);
    if pattern <= data then 0
    else if data == [] then -1
    else
      var r := Index(data[1..], pattern);
      IndexStep(data, pattern, r);
      if r < 0 then -1 else r + 1
  }

  /** `strings.TrimRight` of NUL and carriage return. */
  function TrimRight(s: seq<Byte>): seq<Byte> {
    if s != [] && (s[|s| - 1] == 0 || s[|s| - 1] == 13) then TrimRight(s[..|s| - 1]) else s
  }

  /** What is left ends in neither, and nothing else is taken off. */
  lemma {:induction false} TrimRightTrims(s: seq<Byte>)
    ensures var r := TrimRight(s);
      && r <= s && (r != [] ==> r[|r| - 1] != 0 && r[|r| - 1] != 13)
      && forall i :: |r| <= i < |s| ==> s[i] == 0 || s[i] == 13
  {
    if s != [] && (s[|s| - 1] == 0 || s[|s| - 1] == 13) {
      TrimRightTrims(s[..|s| - 1]);
    }
  }

  // The reader: split at newlines, take the first line with the prefix.

  function Line(data: seq<Byte>): seq<Byte> {
    var n := IndexByte(data, NEWLINE);
    if n < 0 then data else data[..n]
  }

  /** For any key; the file's is PREFIX. */
  function ReadFrom(data: seq<Byte>, key: seq<Byte>): Result<seq<Byte>, Error> {
    if key <= Line(data) then Ok(TrimRight(Line(data)[|key|..]))
    else
      var n := IndexByte(data, NEWLINE);
      if n < 0 then Err(NoState) else ReadFrom(data[n + 1..], key)
  }

  function ReadState(data: seq<Byte>): Result<seq<Byte>, Error> { ReadFrom(data, PREFIX) }

  // The writer: find the key at the start of a line, replace up to the newline.

  function StartOf(data: seq<Byte>, key: seq<Byte>): (r: int)
    ensures -1 <= r <= |data|
  {
    if key <= data then 0
    else
      var n := Index(data, [NEWLINE] + key);
      if n < 0 then -1 else n + 1
  }

  /** The newline that ends the line starting at `start`, or -1. */
  function LineEnd(data: seq<Byte>, start: nat): (r: int)
    requires start <= |data|
    ensures r < 0 || start <= r < |data|
  {
    var n := IndexByte(data[start..], NEWLINE);
    if n < 0 then -1 else start + n
  }

  function Splice(data: seq<Byte>, key: seq<Byte>, state: seq<Byte>): Result<seq<Byte>, Error> {
    var start := StartOf(data, key);
    if start < 0 then Err(NoState)
    else
      var end := LineEnd(data, start);
      if end < 0 then Err(NoState)
      else Ok(data[..start] + key + state + data[end..])
  }

  function SetState(data: seq<Byte>, state: seq<Byte>): Result<seq<Byte>, Error> {
    if state != COMMITTED && state != TRIAL then Err(UnknownState) else Splice(data, PREFIX, state)
  }

  // Both pick the same line: the first that starts with the key.

  predicate LineStart(data: seq<Byte>, i: int) { i == 0 || (0 < i <= |data| && data[i - 1] == NEWLINE) }

  predicate KeyLine(data: seq<Byte>, key: seq<Byte>, i: int) { LineStart(data, i) && OccursAt(data, key, i) }

  predicate FirstKeyLine(data: seq<Byte>, key: seq<Byte>, i: int) {
    KeyLine(data, key, i) && forall j :: 0 <= j < i ==> !KeyLine(data, key, j)
  }

  lemma OccursMeans(data: seq<Byte>, key: seq<Byte>, i: int)
    requires OccursAt(data, key, i) && NEWLINE !in key
    ensures i + |key| <= |data|
    ensures forall k :: i <= k < i + |key| ==> data[k] == key[k - i] != NEWLINE
  {
    forall k | i <= k < i + |key|
      ensures data[k] == key[k - i] != NEWLINE
    {
      assert data[i..][k - i] == key[k - i];
    }
  }

  lemma KeyIsInLine(data: seq<Byte>, key: seq<Byte>)
    requires NEWLINE !in key
    ensures key <= Line(data) <==> key <= data
  {
    assert data[0..] == data;
    if OccursAt(data, key, 0) {
      OccursMeans(data, key, 0);
    }
  }

  lemma WriterPicksFirst(data: seq<Byte>, key: seq<Byte>)
    requires NEWLINE !in key
    ensures var r := StartOf(data, key);
      if r < 0 then forall i :: 0 <= i <= |data| ==> !KeyLine(data, key, i) else FirstKeyLine(data, key, r)
  {
    var pattern := [NEWLINE] + key;
    assert data[0..] == data;
    forall i | 0 < i <= |data|
      ensures KeyLine(data, key, i) <==> OccursAt(data, pattern, i - 1)
    {
      assert data[i - 1..] == [data[i - 1]] + data[i..];
      if pattern <= data[i - 1..] {
        assert pattern[1..] == key;
        assert pattern[1..] <= data[i - 1..][1..];
      }
    }
  }

  lemma FirstIsUnique(data: seq<Byte>, key: seq<Byte>, i: nat, j: nat)
    requires FirstKeyLine(data, key, i) && FirstKeyLine(data, key, j)
    ensures i == j
  {
  }

  /** Past a newline the lines are those of the whole. */
  lemma KeyLineAfter(data: seq<Byte>, key: seq<Byte>, n: nat, k: nat)
    requires n < |data| && data[n] == NEWLINE && k <= |data| - n - 1
    ensures KeyLine(data[n + 1..], key, k) <==> KeyLine(data, key, n + 1 + k)
  {
    var rest := data[n + 1..];
    assert rest[k..] == data[n + 1 + k..];
    assert k > 0 ==> rest[k - 1] == data[n + k];
  }

  /** Skipping a line without the key does not change which line comes first. */
  lemma FirstAfterLine(data: seq<Byte>, key: seq<Byte>, i: nat) returns (n: nat)
    requires !(key <= data) && FirstKeyLine(data, key, i)
    ensures n < i && n == IndexByte(data, NEWLINE) && FirstKeyLine(data[n + 1..], key, i - n - 1)
  {
    OccursHere(data, key);
    assert i > 0 && data[i - 1] == NEWLINE;
    n := IndexByte(data, NEWLINE);
    var rest := data[n + 1..];
    KeyLineAfter(data, key, n, i - n - 1);
    forall j | 0 <= j < i - n - 1
      ensures !KeyLine(rest, key, j)
    {
      KeyLineAfter(data, key, n, j);
      assert !KeyLine(data, key, n + 1 + j);
    }
  }

  /** The reader returns the value on the first line of the key. */
  lemma {:induction false} ReaderReadsFirst(data: seq<Byte>, key: seq<Byte>, i: nat)
    requires NEWLINE !in key && FirstKeyLine(data, key, i)
    ensures |Line(data[i..])| >= |key| && ReadFrom(data, key) == Ok(TrimRight(Line(data[i..])[|key|..]))
    decreases |data|
  {
    KeyIsInLine(data, key);
    assert data[0..] == data;
    if key <= data {
      assert KeyLine(data, key, 0);
      assert data[i..] == data;
    } else {
      var n := FirstAfterLine(data, key, i);
      assert data[n + 1..][i - n - 1..] == data[i..];
      ReaderReadsFirst(data[n + 1..], key, i - n - 1);
    }
  }

  lemma NextLine(data: seq<Byte>, key: seq<Byte>) returns (n: nat)
    requires NEWLINE !in key && ReadFrom(data, key).Ok? && !(key <= data)
    ensures n < |data| && data[n] == NEWLINE && ReadFrom(data[n + 1..], key).Ok?
  {
    KeyIsInLine(data, key);
    n := IndexByte(data, NEWLINE);
  }

  /** And when it finds a value there is such a line. */
  lemma {:induction false} FindsKeyLine(data: seq<Byte>, key: seq<Byte>) returns (i: nat)
    requires NEWLINE !in key && ReadFrom(data, key).Ok?
    ensures i <= |data| && KeyLine(data, key, i)
    decreases |data|
  {
    if key <= data {
      OccursHere(data, key);
      return 0;
    }
    var n := NextLine(data, key);
    var k := FindsKeyLine(data[n + 1..], key);
    KeyLineAfter(data, key, n, k);
    i := n + 1 + k;
  }

  /** Reader and writer find a line in the same files, and it is the same line. */
  lemma ReaderAndWriterAgree(data: seq<Byte>, key: seq<Byte>)
    requires NEWLINE !in key
    ensures ReadFrom(data, key).Ok? <==> StartOf(data, key) >= 0
    ensures var i := StartOf(data, key);
      i >= 0 ==> |Line(data[i..])| >= |key| && ReadFrom(data, key) == Ok(TrimRight(Line(data[i..])[|key|..]))
  {
    WriterPicksFirst(data, key);
    if StartOf(data, key) >= 0 {
      ReaderReadsFirst(data, key, StartOf(data, key));
    } else if ReadFrom(data, key).Ok? {
      var i := FindsKeyLine(data, key);
    }
  }

  /** Writing succeeds exactly when the line the reader reads is ended by a newline. */
  lemma SpliceSucceeds(data: seq<Byte>, key: seq<Byte>, state: seq<Byte>)
    requires NEWLINE !in key
    ensures Splice(data, key, state).Ok? <==>
      exists i :: FirstKeyLine(data, key, i) && NEWLINE in data[i..]
  {
    WriterPicksFirst(data, key);
    var r := StartOf(data, key);
    if i :| FirstKeyLine(data, key, i) && NEWLINE in data[i..] {
      FirstIsUnique(data, key, i, r);
    }
  }

  /** Before the replaced line nothing moved, so the same line is first again. */
  lemma SpliceKeepsFirst(data: seq<Byte>, key: seq<Byte>, i: nat, tail: seq<Byte>)
    requires NEWLINE !in key && FirstKeyLine(data, key, i)
    ensures FirstKeyLine(data[..i] + key + tail, key, i)
  {
    var r := data[..i] + key + tail;
    assert r[i..] == key + tail;
    forall j | 0 <= j < i
      ensures !KeyLine(r, key, j)
    {
      assert !KeyLine(data, key, j) && r[i - 1] == NEWLINE;
      if OccursAt(r, key, j) {
        OccursMeans(r, key, j);
        assert j + |key| <= i - 1;
        assert data[j..j + |key|] == r[j..j + |key|] == key;
        assert data[j..][..|key|] == data[j..j + |key|];
        assert OccursAt(data, key, j);
      }
    }
  }

  /** A value that survives being read: on one line, nothing for the reader to trim. */
  predicate PlainValue(state: seq<Byte>) { NEWLINE !in state && TrimRight(state) == state }

  lemma StatesArePlain()
    ensures PlainValue(COMMITTED) && PlainValue(TRIAL)
  {
  }

  /** The first newline after the written value is the one that was there before. */
  lemma EndOfWritten(head: seq<Byte>, tail: seq<Byte>)
    requires tail != [] && tail[0] == NEWLINE && NEWLINE !in head
    ensures IndexByte(head + tail, NEWLINE) == |head|
  {
    var line := head + tail;
    assert line[|head|] == NEWLINE;
    assert forall k :: 0 <= k < |head| ==> line[k] == head[k];
  }

  lemma WrittenLine(data: seq<Byte>, key: seq<Byte>, state: seq<Byte>, i: nat, end: nat, r: seq<Byte>)
    requires NEWLINE !in key && NEWLINE !in state
    requires FirstKeyLine(data, key, i) && i <= end < |data| && data[end] == NEWLINE
    requires r == data[..i] + key + state + data[end..]
    ensures FirstKeyLine(r, key, i) && r[..i] == data[..i]
    ensures r[i..] == (key + state) + data[end..]
    ensures IndexByte(r[i..], NEWLINE) == |key + state|
  {
    assert r == data[..i] + key + (state + data[end..]);
    SpliceKeepsFirst(data, key, i, state + data[end..]);
    assert NEWLINE !in key + state;
    EndOfWritten(key + state, data[end..]);
  }

  lemma SpliceParts(data: seq<Byte>, key: seq<Byte>, state: seq<Byte>)
    requires NEWLINE !in key && Splice(data, key, state).Ok?
    ensures var i, end := StartOf(data, key), LineEnd(data, StartOf(data, key));
      && FirstKeyLine(data, key, i) && i <= end < |data| && data[end] == NEWLINE
      && Splice(data, key, state).value == data[..i] + key + state + data[end..]
  {
    WriterPicksFirst(data, key);
  }

  /** A state that is written reads back as written, and no byte outside the line changed. */
  lemma SpliceThenRead(data: seq<Byte>, key: seq<Byte>, state: seq<Byte>)
    requires NEWLINE !in key && PlainValue(state) && Splice(data, key, state).Ok?
    ensures var r, i, end := Splice(data, key, state).value, StartOf(data, key), LineEnd(data, StartOf(data, key));
      && ReadFrom(r, key) == Ok(state)
      && i <= end && r[..i] == data[..i] && r[i..] == key + state + data[end..]
  {
    var r, i, end := Splice(data, key, state).value, StartOf(data, key), LineEnd(data, StartOf(data, key));
    SpliceParts(data, key, state);
    WrittenLine(data, key, state, i, end, r);
    ReaderReadsFirst(r, key, i);
    assert Line(r[i..]) == key + state;
    assert (key + state)[|key|..] == state;
  }

  /** A second write leaves no trace of the first. */
  lemma SpliceOverrides(data: seq<Byte>, key: seq<Byte>, state: seq<Byte>, next: seq<Byte>)
    requires NEWLINE !in key && PlainValue(state) && Splice(data, key, state).Ok?
    ensures Splice(Splice(data, key, state).value, key, next) == Splice(data, key, next)
  {
    var r, i, end := Splice(data, key, state).value, StartOf(data, key), LineEnd(data, StartOf(data, key));
    SpliceParts(data, key, state);
    WrittenLine(data, key, state, i, end, r);
    WriterPicksFirst(r, key);
    FirstIsUnique(r, key, i, StartOf(r, key));
    assert LineEnd(r, i) == i + |key + state|;
    assert r[LineEnd(r, i)..] == data[end..];
  }

  lemma PrefixIsPlain()
    ensures NEWLINE !in PREFIX
  {
  }

  /** The two states the boot policy knows, through the checked entry point. */
  lemma SetStateRoundTrip(data: seq<Byte>, state: seq<Byte>, next: seq<Byte>)
    requires SetState(data, state).Ok?
    ensures ReadState(SetState(data, state).value) == Ok(state)
    ensures SetState(SetState(data, state).value, next) == SetState(data, next)
  {
    StatesArePlain();
    PrefixIsPlain();
    SpliceThenRead(data, PREFIX, state);
    SpliceOverrides(data, PREFIX, state, next);
  }

  /** Exactly those two are taken, by a file with a line for them that is ended. */
  lemma StatesAccepted(data: seq<Byte>, state: seq<Byte>)
    ensures SetState(data, state) == Err(UnknownState) <==> state !in {COMMITTED, TRIAL}
    ensures SetState(data, state).Ok? <==>
      state in {COMMITTED, TRIAL} && exists i :: FirstKeyLine(data, PREFIX, i) && NEWLINE in data[i..]
  {
    PrefixIsPlain();
    SpliceSucceeds(data, PREFIX, state);
  }

  /** The file itself: read line by line, rewritten whole through a temporary. */
  class EnvFile {
    var data: seq<Byte>

    constructor (data: seq<Byte>)
      ensures this.data == data
    {
      this.data := data;
    }

    method State() returns (r: Result<seq<Byte>, Error>)
      ensures r == ReadState(data)
    {
      var rest := data;
      while true
        invariant ReadState(rest) == ReadState(data)
        decreases |rest|
      {
        if PREFIX <= Line(rest) {
          return Ok(TrimRight(Line(rest)[|PREFIX|..]));
        }
        var n := IndexByte(rest, NEWLINE);
        if n < 0 {
          return Err(NoState);
        }
        rest := rest[n + 1..];
      }
    }

    /** `replaced` is whether the atomic replacement went through; otherwise the old file stays. */
    method Set(state: seq<Byte>, replaced: bool) returns (ok: bool)
      modifies this
      ensures ok <==> SetState(old(data), state).Ok? && replaced
      ensures data == if ok then SetState(old(data), state).value else old(data)
    {
      if state != COMMITTED && state != TRIAL {
        return false;
      }
      var start := StartOf(data, PREFIX);
      if start < 0 {
        return false;
      }
      var end := LineEnd(data, start);
      if end < 0 || !replaced {
        return false;
      }
      data := data[..start] + PREFIX + state + data[end..];
      return true;
    }
  }
}
