/**
 * Editing an account while its connections are live. A connection authenticates, registers and
 * then reads the account again; an edit writes the store and then drops sessions by channel,
 * cancelling them one by one outside the lock. Any number of both interleave, step by step.
 */
module Grants {
  import opened Wrappers
  import opened Permissions
  import opened AccountStore
  import opened AccountRuns
  import opened AccountEdits
  import opened Sessions

  /** What a request runs as; an administrator has every permission. */
  datatype Principal = Principal(role: Role, permissions: seq<Permission>)

  predicate Has(p: Principal, g: Permission) { p.role.Admin? || g in p.permissions }

  datatype Stage = Fresh | Authenticated | Registered(id: nat) | Serving(id: nat) | Gone

  datatype Conn = Conn(
    user: string, version: Word64, channel: Channel, stage: Stage, principal: Principal, cancelled: bool)

  /** An edit that has written the store and must still drop sessions, or is cancelling them. */
  datatype Editor = ToDrop(user: string, channels: Option<seq<Channel>>) | Cancelling(todo: set<nat>)

  datatype State = State(
    users: seq<User>, registry: Registry, nextId: nat, conns: seq<Conn>, editors: seq<Editor>)

  datatype ConnStep = Authenticate | Register | Recheck | Leave | Expire

  /** `reported` is false when the file was replaced but the save still returned an error. */
  datatype Event =
    | Connect(user: string, version: Word64, channel: Channel)
    | OnConn(c: nat, step: ConnStep)
    | Edit(op: Op, reported: bool)
    | Drop(e: nat)
    | Cancel(e: nat, c: nat)

  /** `ValidateToken` against the accounts of this instant. */
  function Validate(users: seq<User>, user: string, version: Word64): Option<User> {
    var u := Find(users, user);
    if u.Some? && u.value.enabled && u.value.version == version then u else None
  }

  /** What the handler of an edit drops: nothing, the user's channels, or (None) everything. */
  function DropFor(op: Op, u: Option<User>, v: Option<User>): Option<Option<seq<Channel>>> {
    match op
    case Update(_, _, _) =>
      if u.None? || v.None? then None
      else if u.value.version != v.value.version then Some(None)
      else
        var channels := ChannelsFor(Changed(EnabledPermissions(u.value), EnabledPermissions(v.value)));
        if channels == [] then None else Some(Some(channels))
    case Delete(_, _) => Some(None)
    case SetPassword(_, _, _, _) => Some(None)
    case Revoke(_) => Some(None)
    case _ => None
  }

  predicate CanStep(conn: Conn, step: ConnStep) {
    match step
    case Authenticate => conn.stage.Fresh?
    case Register => conn.stage.Authenticated?
    case Recheck => conn.stage.Registered?
    case Leave => conn.stage.Serving?
    case Expire => conn.stage.Registered? || conn.stage.Serving?
  }

  predicate Enabled(s: State, e: Event) {
    match e
    case Connect(_, _, _) => true
    case OnConn(c, step) => c < |s.conns| && CanStep(s.conns[c], step)
    case Edit(op, _) => Saves(s.users, op) && (op.SetPassword? ==> op.after)
    case Drop(e) => e < |s.editors| && s.editors[e].ToDrop?
    case Cancel(e, c) => e < |s.editors| && s.editors[e].Cancelling? && c in s.editors[e].todo && c < |s.conns|
  }

  function Granted(u: User): Principal { Principal(u.role, Effective(u)) }

  /** Only long-lived channels read the account again; a failed reading ends the connection. */
  function ConnAfter(s: State, conn: Conn, step: ConnStep): Conn
    requires CanStep(conn, step)
  {
    var u := Validate(s.users, conn.user, conn.version);
    match step
    case Authenticate =>
      if u.None? then conn.(stage := Gone)
      else conn.(stage := Authenticated, principal := Granted(u.value))
    case Register => conn.(stage := Registered(s.nextId + 1))
    case Recheck =>
      if conn.channel.Short? then conn.(stage := Serving(conn.stage.id))
      else if u.None? then conn.(stage := Gone, cancelled := true)
      else conn.(stage := Serving(conn.stage.id), principal := Granted(u.value))
    case Leave => conn.(stage := Gone, cancelled := true)
    case Expire => conn.(cancelled := true)
  }

  function RegistryAfter(s: State, c: nat, conn: Conn, step: ConnStep): Registry
    requires CanStep(conn, step)
  {
    if step.Register? then Sessions.Registered(s.registry, conn.user, s.nextId + 1, Entry(c, conn.channel))
    else if (step.Recheck? || step.Leave?) && ConnAfter(s, conn, step).stage.Gone?
    then Unregistered(s.registry, conn.user, conn.stage.id)
    else s.registry
  }

  function AfterEdit(s: State, op: Op, reported: bool): State
    requires Saves(s.users, op)
  {
    var users := RepairAll(EditOf(s.users, op).users);
    var drop := DropFor(op, Find(s.users, op.name), Find(users, op.name));
    s.(users := users,
       editors := if reported && drop.Some? then s.editors + [ToDrop(op.name, drop.value)] else s.editors)
  }

  function Step(s: State, e: Event): State
    requires Enabled(s, e)
  {
    match e
    case Connect(user, version, channel) =>
      s.(conns := s.conns + [Conn(user, version, channel, Fresh, Principal(Plain, []), false)])
    case OnConn(c, step) =>
      s.(conns := s.conns[c := ConnAfter(s, s.conns[c], step)],
         registry := RegistryAfter(s, c, s.conns[c], step),
         nextId := if step.Register? then s.nextId + 1 else s.nextId)
    case Edit(op, reported) => AfterEdit(s, op, reported)
    case Drop(i) =>
      var e := s.editors[i];
      s.(registry := AfterDrop(s.registry, e.user, e.channels),
         editors := s.editors[i := Cancelling(DroppedConns(s.registry, e.user, e.channels))])
    case Cancel(i, c) =>
      s.(conns := s.conns[c := s.conns[c].(cancelled := true)],
         editors := s.editors[i := Cancelling(s.editors[i].todo - {c})])
  }

  function Exec(s: State, events: seq<Event>): Option<State>
    decreases |events|
  {
    if events == [] then Some(s)
    else if !Enabled(s, events[0]) then None
    else Exec(Step(s, events[0]), events[1..])
  }

  // What a connection may still hold.

  /** The connection's grants for its channel are those of the account as stored now. */
  ghost predicate Current(users: seq<User>, conn: Conn) {
    var u := Validate(users, conn.user, conn.version);
    u.Some? && forall g :: g in Needs(conn.channel) ==> (Has(conn.principal, g) <==> g in Effective(u.value))
  }

  predicate Covered(s: State, conn: Conn) {
    exists e :: 0 <= e < |s.editors| && s.editors[e].ToDrop?
      && s.editors[e].user == conn.user && Matches(conn.channel, s.editors[e].channels)
  }

  predicate InTodo(s: State, c: nat) {
    exists e :: 0 <= e < |s.editors| && s.editors[e].Cancelling? && c in s.editors[e].todo
  }

  predicate HasEntry(r: Registry, c: nat, conn: Conn)
    requires conn.stage.Registered? || conn.stage.Serving?
  {
    conn.user in r && conn.stage.id in r[conn.user] && r[conn.user][conn.stage.id] == Entry(c, conn.channel)
  }

  predicate Known(conn: Conn) { conn.stage.Registered? || conn.stage.Serving? }

  /** A registered connection is findable, about to be cancelled, or already cancelled. */
  predicate Tracked(s: State, c: nat, conn: Conn) {
    Known(conn) && !conn.cancelled ==> InTodo(s, c) || HasEntry(s.registry, c, conn)
  }

  /**
   * `lost` are the connections that unreported edits left stale, with nothing on its way to drop
   * them: a served connection will be dropped, or is current if it is not lost and stale if it is.
   */
  ghost predicate UpToDate(s: State, c: nat, conn: Conn, lost: set<nat>) {
    && (conn.stage.Serving? && !conn.cancelled && !conn.channel.Short? ==>
          InTodo(s, c) || Covered(s, conn) || (Current(s.users, conn) <==> c !in lost))
    && (c in lost ==> conn.stage.Serving? || conn.stage.Gone?)
  }

  predicate IdsUnique(s: State) {
    && (forall c :: 0 <= c < |s.conns| && Known(s.conns[c]) ==> s.conns[c].stage.id <= s.nextId)
    && (forall c, d :: 0 <= c < d < |s.conns| && Known(s.conns[c]) && Known(s.conns[d])
          ==> s.conns[c].stage.id != s.conns[d].stage.id)
  }

  ghost predicate Inv(s: State, lost: set<nat>) {
    && CleanUsers(s.users) && IdsUnique(s)
    && (forall c :: c in lost ==> c < |s.conns|)
    && forall c :: 0 <= c < |s.conns| ==> Tracked(s, c, s.conns[c]) && UpToDate(s, c, s.conns[c], lost)
  }

  // An edit against one connection.

  /** The drop an edit calls for, of its own user's connections, reaches this one. */
  predicate Reaches(users: seq<User>, op: Op, conn: Conn)
    requires Saves(users, op)
  {
    var drop := DropFor(op, Find(users, op.name), Find(RepairAll(EditOf(users, op).users), op.name));
    conn.user == op.name && drop.Some? && Matches(conn.channel, drop.value)
  }

  /** An account is not created again under a token version already given out for the name. */
  predicate Reissues(op: Op, user: string, version: Word64) {
    op.Create? && op.name == user && (op.version == version || (op.version == 0 && version == 1))
  }

  /** The drop reaches the channel if and only if the login or a grant of the channel changed. */
  lemma DropDecides(users: seq<User>, after: seq<User>, op: Op, conn: Conn)
    requires op.Update? && conn.user == op.name && Find(users, op.name).Some? && Find(after, op.name).Some?
    requires Find(users, op.name).value.version == Find(after, op.name).value.version ==>
      Find(users, op.name).value.enabled == Find(after, op.name).value.enabled
    ensures var drop := DropFor(op, Find(users, op.name), Find(after, op.name));
      if drop.Some? && Matches(conn.channel, drop.value)
      then Current(users, conn) ==> !Current(after, conn)
      else Current(after, conn) <==> Current(users, conn)
  {
    var u, v := Find(users, op.name).value, Find(after, op.name).value;
    if u.version == v.version && u.enabled {
      SameChannelGrants(u, v, conn.channel);
    }
  }

  lemma UpdateExactly(users: seq<User>, op: Op, conn: Conn)
    requires CleanUsers(users) && Saves(users, op) && op.Update? && conn.user == op.name && !conn.channel.Short?
    ensures var after := RepairAll(EditOf(users, op).users);
      && (!Reaches(users, op, conn) ==> (Current(after, conn) <==> Current(users, conn)))
      && (Reaches(users, op, conn) && Current(users, conn) ==> !Current(after, conn))
  {
    UpdateBecomes(users, op);
    DropDecides(users, RepairAll(EditOf(users, op).users), op, conn);
  }

  /** The channel is in the drop exactly when a grant it depends on comes or goes. */
  lemma SameChannelGrants(u: User, v: User, ch: Channel)
    requires u.enabled && v.enabled
    ensures ch in ChannelsFor(Changed(EnabledPermissions(u), EnabledPermissions(v))) <==>
      exists g :: g in Needs(ch) && (g in Effective(u)) != (g in Effective(v))
  {
    if ch in ChannelsFor(Changed(EnabledPermissions(u), EnabledPermissions(v))) {
      OnlyAffectedChannels(u, v, ch);
      var g :| g in Needs(ch) && ((g in EnabledPermissions(u)) != (g in EnabledPermissions(v)));
      assert (g in Effective(u)) != (g in Effective(v));
    }
    if g :| g in Needs(ch) && (g in Effective(u)) != (g in Effective(v)) {
      ChangeReachesChannels(u, v, g, ch);
    }
  }

  /**
   * What any edit does to a connection: out of reach of its drop it stays current or stays
   * stale; within reach a current one becomes stale.
   */
  lemma EditExactly(users: seq<User>, op: Op, conn: Conn)
    requires CleanUsers(users) && Saves(users, op) && (op.SetPassword? ==> op.after)
    requires !conn.channel.Short? && !Reissues(op, conn.user, conn.version)
    ensures var after := RepairAll(EditOf(users, op).users);
      && (!Reaches(users, op, conn) ==> (Current(after, conn) <==> Current(users, conn)))
      && (Reaches(users, op, conn) && Current(users, conn) ==> !Current(after, conn))
  {
    if op.Update? && conn.user == op.name {
      UpdateExactly(users, op, conn);
    } else {
      EditBecomes(users, op, conn.user);
    }
  }

  // Each step keeps the invariant, for each connection `d`.

  lemma EditorsGrow(s: State, t: State, d: nat, conn: Conn)
    requires s.editors <= t.editors
    ensures InTodo(s, d) ==> InTodo(t, d)
    ensures Covered(s, conn) ==> Covered(t, conn)
  {
    if InTodo(s, d) {
      var e :| 0 <= e < |s.editors| && s.editors[e].Cancelling? && d in s.editors[e].todo;
      assert t.editors[e] == s.editors[e];
    }
    if Covered(s, conn) {
      var e :| 0 <= e < |s.editors| && s.editors[e].ToDrop?
        && s.editors[e].user == conn.user && Matches(conn.channel, s.editors[e].channels);
      assert t.editors[e] == s.editors[e];
    }
  }

  /** The drop a reported edit owes covers whom it reaches. */
  lemma EditCovers(s: State, op: Op, conn: Conn)
    requires Saves(s.users, op) && Reaches(s.users, op, conn)
    ensures Covered(AfterEdit(s, op, true), conn)
  {
    var t := AfterEdit(s, op, true);
    var drop := DropFor(op, Find(s.users, op.name), Find(t.users, op.name));
    assert t.editors[|s.editors|] == ToDrop(op.name, drop.value);
  }

  /** No connection presents a token version that this edit gives out. */
  predicate Unissued(s: State, op: Op) {
    forall c :: 0 <= c < |s.conns| ==> !Reissues(op, s.conns[c].user, s.conns[c].version)
  }

  /** What is lost after an edit nobody was told of: whom it reaches and leaves stale, and who was already. */
  ghost function LostBy(s: State, op: Op, lost: set<nat>): set<nat>
    requires Saves(s.users, op)
  {
    set c: nat | c < |s.conns| && Served(s.conns[c])
      && (if Reaches(s.users, op, s.conns[c]) then !Current(AfterEdit(s, op, false).users, s.conns[c])
          else c in lost) :: c
  }

  predicate Served(conn: Conn) { conn.stage.Serving? && !conn.channel.Short? }

  lemma UnreportedEditKeeps(s: State, op: Op, d: nat, lost: set<nat>)
    requires Inv(s, lost) && Enabled(s, Edit(op, false)) && d < |s.conns| && Unissued(s, op)
    ensures var t := AfterEdit(s, op, false);
      t.conns == s.conns && Tracked(t, d, t.conns[d]) && UpToDate(t, d, t.conns[d], LostBy(s, op, lost))
  {
    var t, conn := AfterEdit(s, op, false), s.conns[d];
    EditorsGrow(s, t, d, conn);
    assert Tracked(s, d, conn) && UpToDate(s, d, conn, lost);
    if Served(conn) {
      EditExactly(s.users, op, conn);
    }
  }

  lemma EditKeeps(s: State, op: Op, d: nat, lost: set<nat>)
    requires Inv(s, lost) && Enabled(s, Edit(op, true)) && d < |s.conns|
    requires lost != {} ==> Unissued(s, op)
    ensures var t := AfterEdit(s, op, true); Tracked(t, d, t.conns[d]) && UpToDate(t, d, t.conns[d], lost)
  {
    var t, conn := AfterEdit(s, op, true), s.conns[d];
    EditorsGrow(s, t, d, conn);
    assert UpToDate(s, d, conn, lost);
    if !conn.channel.Short? && conn.stage.Serving? && !conn.cancelled && !InTodo(s, d) && !Covered(s, conn) {
      if Reissues(op, conn.user, conn.version) {
        CreateBecomes(s.users, op);
      }
      EditExactly(s.users, op, conn);
      if Reaches(s.users, op, conn) {
        EditCovers(s, op, conn);
      }
    }
  }

  lemma DropKeeps(s: State, i: nat, d: nat, lost: set<nat>)
    requires Inv(s, lost) && Enabled(s, Drop(i)) && d < |s.conns|
    ensures var t := Step(s, Drop(i)); Tracked(t, d, t.conns[d]) && UpToDate(t, d, t.conns[d], lost)
  {
    var t, conn, ed := Step(s, Drop(i)), s.conns[d], s.editors[i];
    if InTodo(s, d) {
      var e :| 0 <= e < |s.editors| && s.editors[e].Cancelling? && d in s.editors[e].todo;
      assert t.editors[e] == s.editors[e];
    } else if Known(conn) && !conn.cancelled {
      if conn.user == ed.user && Matches(conn.channel, ed.channels) {
        assert EntriesOf(s.registry, ed.user)[conn.stage.id] == Entry(d, conn.channel);
        assert d in t.editors[i].todo;
      } else {
        assert conn.user == ed.user ==> conn.stage.id in Kept(EntriesOf(s.registry, ed.user), ed.channels);
        assert HasEntry(t.registry, d, conn);
        if Covered(s, conn) {
          var e :| 0 <= e < |s.editors| && s.editors[e].ToDrop?
            && s.editors[e].user == conn.user && Matches(conn.channel, s.editors[e].channels);
          assert t.editors[e] == s.editors[e];
        }
      }
    }
  }

  lemma CancelKeeps(s: State, i: nat, c: nat, d: nat, lost: set<nat>)
    requires Inv(s, lost) && Enabled(s, Cancel(i, c)) && d < |s.conns|
    ensures var t := Step(s, Cancel(i, c)); Tracked(t, d, t.conns[d]) && UpToDate(t, d, t.conns[d], lost)
  {
    var t, conn := Step(s, Cancel(i, c)), s.conns[d];
    if d != c {
      if InTodo(s, d) {
        var e :| 0 <= e < |s.editors| && s.editors[e].Cancelling? && d in s.editors[e].todo;
        assert t.editors[e].Cancelling? && d in t.editors[e].todo;
      }
      if Covered(s, conn) {
        var e :| 0 <= e < |s.editors| && s.editors[e].ToDrop?
          && s.editors[e].user == conn.user && Matches(conn.channel, s.editors[e].channels);
        assert t.editors[e] == s.editors[e];
      }
    }
  }

  /** The re-reading makes the principal current. */
  lemma RecheckIsCurrent(s: State, conn: Conn)
    requires CanStep(conn, Recheck) && !conn.channel.Short? && !ConnAfter(s, conn, Recheck).stage.Gone?
    ensures Current(s.users, ConnAfter(s, conn, Recheck))
  {
    NeedsAreListed(conn.channel);
  }

  lemma OwnStepKeeps(s: State, c: nat, step: ConnStep, lost: set<nat>)
    requires Inv(s, lost) && Enabled(s, OnConn(c, step))
    ensures var t := Step(s, OnConn(c, step)); Tracked(t, c, t.conns[c]) && UpToDate(t, c, t.conns[c], lost)
  {
    var t, conn := Step(s, OnConn(c, step)), s.conns[c];
    EditorsGrow(s, t, c, conn);
    assert Tracked(s, c, conn);
    if step.Register? {
      assert s.nextId + 1 in EntriesOf(s.registry, conn.user)[s.nextId + 1 := Entry(c, conn.channel)];
    } else if step.Recheck? && !conn.channel.Short? && !t.conns[c].stage.Gone? {
      RecheckIsCurrent(s, conn);
    }
  }

  lemma RegistryKeepsOthers(r: Registry, user: string, id: nat, e: Entry, user': string, id': nat)
    requires user' in r && id' in r[user'] && (user' != user || id' != id)
    ensures var t := Sessions.Registered(r, user, id, e);
      user' in t && id' in t[user'] && t[user'][id'] == r[user'][id']
    ensures var t := Unregistered(r, user, id);
      user' in t && id' in t[user'] && t[user'][id'] == r[user'][id']
  {
    assert user == user' ==> id' in EntriesOf(r, user)[id := e] && id' in EntriesOf(r, user) - {id};
  }

  lemma OtherStepKeeps(s: State, c: nat, step: ConnStep, d: nat, lost: set<nat>)
    requires Inv(s, lost) && Enabled(s, OnConn(c, step)) && d < |s.conns| && d != c
    ensures var t := Step(s, OnConn(c, step)); Tracked(t, d, t.conns[d]) && UpToDate(t, d, t.conns[d], lost)
  {
    var t, conn, other := Step(s, OnConn(c, step)), s.conns[d], s.conns[c];
    EditorsGrow(s, t, d, conn);
    assert Tracked(s, d, conn) && UpToDate(s, d, conn, lost);
    if Known(conn) && HasEntry(s.registry, d, conn) {
      var id := if Known(other) then other.stage.id else s.nextId + 1;
      assert id != conn.stage.id;
      RegistryKeepsOthers(s.registry, other.user, id, Entry(c, other.channel), conn.user, conn.stage.id);
    }
  }

  ghost function LostStep(s: State, e: Event, lost: set<nat>): set<nat>
    requires Enabled(s, e)
  {
    if e.Edit? && !e.reported then LostBy(s, e.op, lost) else lost
  }

  lemma StepKeepsInv(s: State, e: Event, lost: set<nat>)
    requires Inv(s, lost) && Enabled(s, e)
    requires e.Edit? && (lost != {} || !e.reported) ==> Unissued(s, e.op)
    ensures Inv(Step(s, e), LostStep(s, e, lost))
  {
    var t := Step(s, e);
    assert CleanUsers(t.users) by {
      if e.Edit? {
        EditIsClean(s.users, e.op);
      }
    }
    forall d | 0 <= d < |t.conns|
      ensures Tracked(t, d, t.conns[d]) && UpToDate(t, d, t.conns[d], LostStep(s, e, lost))
    {
      match e {
        case Connect(_, _, _) =>
          if d < |s.conns| {
            EditorsGrow(s, t, d, s.conns[d]);
            assert Tracked(s, d, s.conns[d]) && UpToDate(s, d, s.conns[d], lost);
          }
        case OnConn(c, step) =>
          if d == c { OwnStepKeeps(s, c, step, lost); } else { OtherStepKeeps(s, c, step, d, lost); }
        case Edit(op, reported) =>
          if reported { EditKeeps(s, op, d, lost); } else { UnreportedEditKeeps(s, op, d, lost); }
        case Drop(i) => DropKeeps(s, i, d, lost);
        case Cancel(i, c) => CancelKeeps(s, i, c, d, lost);
      }
    }
  }

  /** Every edit that changed the file was reported as a success to its handler. */
  predicate AllReported(events: seq<Event>) {
    forall i :: 0 <= i < |events| && events[i].Edit? ==> events[i].reported
  }

  /** No account is created again under a token version some connection of that name presents. */
  predicate UnissuedRun(s: State, events: seq<Event>)
    decreases |events|
  {
    events != [] && Enabled(s, events[0]) ==>
      (events[0].Edit? ==> Unissued(s, events[0].op)) && UnissuedRun(Step(s, events[0]), events[1..])
  }

  /** What is lost at the end of a run. */
  ghost function LostRun(s: State, events: seq<Event>, lost: set<nat>): set<nat>
    decreases |events|
  {
    if events == [] || !Enabled(s, events[0]) then lost
    else LostRun(Step(s, events[0]), events[1..], LostStep(s, events[0], lost))
  }

  lemma {:induction false} EveryRunKeepsInv(s: State, events: seq<Event>, lost: set<nat>)
    requires Inv(s, lost) && UnissuedRun(s, events)
    ensures Exec(s, events).Some? ==> Inv(Exec(s, events).value, LostRun(s, events, lost))
    decreases |events|
  {
    if events != [] && Enabled(s, events[0]) {
      StepKeepsInv(s, events[0], lost);
      EveryRunKeepsInv(Step(s, events[0]), events[1..], LostStep(s, events[0], lost));
    }
  }

  /** With every edit reported nothing is ever lost. */
  lemma {:induction false} ReportedRunKeepsInv(s: State, events: seq<Event>)
    requires Inv(s, {}) && AllReported(events)
    ensures Exec(s, events).Some? ==> Inv(Exec(s, events).value, {})
    decreases |events|
  {
    if events != [] && Enabled(s, events[0]) {
      StepKeepsInv(s, events[0], {});
      ReportedRunKeepsInv(Step(s, events[0]), events[1..]);
    }
  }

  function Start(users: seq<User>): State { State(users, map[], 0, [], []) }

  /** Every edit has dropped and cancelled everything it had to. */
  predicate EditsFinished(s: State) {
    forall e :: 0 <= e < |s.editors| ==> s.editors[e].Cancelling? && s.editors[e].todo == {}
  }

  /**
   * Whatever the interleaving: once all edits have finished, a long-lived connection that is
   * being served is cancelled, or its login is valid and it holds exactly the current value of
   * every grant its channel depends on.
   */
  lemma {:induction false} NoStaleGrants(users: seq<User>, events: seq<Event>, c: nat)
    requires CleanUsers(users) && AllReported(events)
    ensures var r := Exec(Start(users), events);
      r.Some? && EditsFinished(r.value) && c < |r.value.conns| ==>
        var conn := r.value.conns[c];
        conn.stage.Serving? && !conn.channel.Short? && !conn.cancelled ==> Current(r.value.users, conn)
  {
    ReportedRunKeepsInv(Start(users), events);
    var r := Exec(Start(users), events);
    if r.Some? && EditsFinished(r.value) && c < |r.value.conns| {
      assert UpToDate(r.value, c, r.value.conns[c], {});
    }
  }

  // What unreported edits cost: saves that replaced the file and then failed.

  /** No unreported edit of the run reaches the connection. */
  predicate NoneReaches(s: State, events: seq<Event>, c: nat)
    decreases |events|
  {
    events != [] && Enabled(s, events[0]) ==>
      && (events[0].Edit? && !events[0].reported && c < |s.conns| ==> !Reaches(s.users, events[0].op, s.conns[c]))
      && NoneReaches(Step(s, events[0]), events[1..], c)
  }

  lemma {:induction false} GoneStaysGone(s: State, events: seq<Event>, c: nat)
    requires c < |s.conns|
    ensures var r := Exec(s, events);
      r.Some? ==>
        && c < |r.value.conns| && r.value.conns[c].channel == s.conns[c].channel
        && (s.conns[c].stage.Gone? ==> r.value.conns[c].stage.Gone?)
    decreases |events|
  {
    if events != [] && Enabled(s, events[0]) {
      GoneStaysGone(Step(s, events[0]), events[1..], c);
    }
  }

  /** Out of reach, a connection is neither lost nor found. */
  lemma {:induction false} LostStays(s: State, events: seq<Event>, lost: set<nat>, c: nat)
    requires c < |s.conns| && NoneReaches(s, events, c) && Exec(s, events).Some?
    ensures c in LostRun(s, events, lost) ==> c in lost
    ensures var r := Exec(s, events).value;
      c < |r.conns| && Served(s.conns[c]) && Served(r.conns[c]) && c in lost ==> c in LostRun(s, events, lost)
    decreases |events|
  {
    if events != [] {
      var t := Step(s, events[0]);
      GoneStaysGone(t, events[1..], c);
      LostStays(t, events[1..], LostStep(s, events[0], lost), c);
    }
  }

  /**
   * Any number of unreported edits, over any run: the last one whose drop would have reached a
   * served connection decides. Once the other edits have finished, the connection, if it is still
   * being served, is current if and only if that edit left it so; and it left a current one stale.
   */
  lemma {:induction false} LastUnreportedEditDecides(
      users: seq<User>, before: seq<Event>, op: Op, after: seq<Event>, c: nat)
    requires CleanUsers(users) && UnissuedRun(Start(users), before)
    requires Exec(Start(users), before).Some?
    requires var s := Exec(Start(users), before).value;
      && Enabled(s, Edit(op, false)) && Unissued(s, op) && UnissuedRun(Step(s, Edit(op, false)), after)
      && c < |s.conns| && Served(s.conns[c]) && Reaches(s.users, op, s.conns[c])
      && NoneReaches(Step(s, Edit(op, false)), after, c)
    ensures var s := Exec(Start(users), before).value;
      var t := Step(s, Edit(op, false));
      var r := Exec(t, after);
      && (Current(s.users, s.conns[c]) ==> !Current(t.users, s.conns[c]))
      && (r.Some? && EditsFinished(r.value) ==>
            && c < |r.value.conns|
            && (Served(r.value.conns[c]) && !r.value.conns[c].cancelled ==>
                  (Current(r.value.users, r.value.conns[c]) <==> Current(t.users, s.conns[c]))))
  {
    EveryRunKeepsInv(Start(users), before, {});
    var s := Exec(Start(users), before).value;
    var was := LostRun(Start(users), before, {});
    var t, lost := Step(s, Edit(op, false)), LostBy(s, op, was);
    EditExactly(s.users, op, s.conns[c]);
    StepKeepsInv(s, Edit(op, false), was);
    EveryRunKeepsInv(t, after, lost);
    var r := Exec(t, after);
    if r.Some? && EditsFinished(r.value) {
      GoneStaysGone(t, after, c);
      LostStays(t, after, lost, c);
      assert UpToDate(r.value, c, r.value.conns[c], LostRun(t, after, lost));
      assert c in lost <==> !Current(t.users, s.conns[c]);
    }
  }

  /**
   * And if none would have reached it since it was served, however many there were, it is
   * current: so a connection is stale only by an edit that should have dropped it.
   */
  lemma {:induction false} UnreachedStaysCurrent(users: seq<User>, before: seq<Event>, after: seq<Event>, c: nat)
    requires CleanUsers(users) && UnissuedRun(Start(users), before)
    requires Exec(Start(users), before).Some? && UnissuedRun(Exec(Start(users), before).value, after)
    requires var s := Exec(Start(users), before).value;
      c < |s.conns| && !s.conns[c].stage.Serving? && NoneReaches(s, after, c)
    ensures var r := Exec(Exec(Start(users), before).value, after);
      r.Some? && EditsFinished(r.value) ==>
        && c < |r.value.conns|
        && (Served(r.value.conns[c]) && !r.value.conns[c].cancelled ==> Current(r.value.users, r.value.conns[c]))
  {
    EveryRunKeepsInv(Start(users), before, {});
    var s := Exec(Start(users), before).value;
    var lost := LostRun(Start(users), before, {});
    EveryRunKeepsInv(s, after, lost);
    var r := Exec(s, after);
    if r.Some? {
      GoneStaysGone(s, after, c);
    }
    if r.Some? && EditsFinished(r.value) && Served(r.value.conns[c]) {
      LostStays(s, after, lost, c);
      assert UpToDate(s, c, s.conns[c], lost);
      assert UpToDate(r.value, c, r.value.conns[c], LostRun(s, after, lost));
    }
  }

  // Such an edit exists: a save that replaced the file but failed to sync its
  // directory returns an error, and the handler then drops nothing.

  const OWNER := User("a", "h", Admin, true, 1, [], false, true)
  const BOB := User("b", "h", Plain, true, 1, [], false, false)
  const PROMOTION := Op.Update("a", "b", Patch(Some(Admin), None, None))

  lemma PromotionSaves()
    ensures CleanUsers([OWNER, BOB]) && Saves([OWNER, BOB], PROMOTION)
    ensures Find([OWNER, BOB], "b") == Some(BOB)
    ensures Find(RepairAll(EditOf([OWNER, BOB], PROMOTION).users), "b") == Some(BOB.(role := Admin))
  {
    var users, edited := [OWNER, BOB], [OWNER, BOB.(role := Admin)];
    assert users[1].name == "b" && users[0].name == "a" && "a"[0] != "b"[0];
    assert EnabledAdmin(users[0]) && EnabledAdmin(edited[0]);
    assert IndexOf(users, "b") == 1 && IndexOf(edited, "b") == 1;
    assert users[1 := Patched(BOB, PROMOTION.patch)] == edited;
    assert RepairAll(edited) == edited;
  }

  lemma OnlyPromotedHasTerminal()
    ensures Terminal in Effective(BOB.(role := Admin)) && Terminal !in Effective(BOB)
  {
    ClosureOfNothing(CATALOG);
    assert Effective(BOB) == Closure(CATALOG, []);
    assert Ids(CATALOG)[6] == Terminal;
  }

  lemma PromotedIsStale(users: seq<User>, conn: Conn)
    requires Find(users, conn.user) == Some(BOB.(role := Admin)) && conn.version == 1
    requires conn.channel == TerminalChannel && conn.principal == Granted(BOB)
    ensures !Current(users, conn)
  {
    OnlyPromotedHasTerminal();
    MissesGrant(users, conn, BOB.(role := Admin), Terminal);
  }

  lemma MissesGrant(users: seq<User>, conn: Conn, u: User, g: Permission)
    requires Find(users, conn.user) == Some(u) && g in Needs(conn.channel)
    requires g in Effective(u) && !Has(conn.principal, g)
    ensures !Current(users, conn)
  {
  }

  lemma StaleAfterPromotion(s: State)
    requires s.users == [OWNER, BOB] && |s.conns| == 1 && EditsFinished(s)
    requires s.conns[0] == Conn("b", 1, TerminalChannel, Serving(1), Granted(BOB), false)
    ensures Enabled(s, Edit(PROMOTION, false))
    ensures var t := Step(s, Edit(PROMOTION, false));
      EditsFinished(t) && t.conns == s.conns && !Current(t.users, t.conns[0])
  {
    PromotionSaves();
    PromotedIsStale(Step(s, Edit(PROMOTION, false)).users, s.conns[0]);
  }

  lemma {:induction false} After(s: State, events: seq<Event>, t: State, e: Event)
    returns (longer: seq<Event>, next: State)
    requires Exec(s, events) == Some(t) && Enabled(t, e)
    ensures next == Step(t, e) && Exec(s, longer) == Some(next)
    ensures longer == events + [e]
    decreases |events|
  {
    longer, next := events + [e], Step(t, e);
    if events == [] {
      assert longer[1..] == [];
    } else {
      var _, _ := After(Step(s, events[0]), events[1..], t, e);
      assert longer[1..] == events[1..] + [e];
    }
  }

  /** A connection of his to the terminal channel is served while he may not use it. */
  lemma BobIsServed() returns (events: seq<Event>, s: State)
    ensures Exec(Start([OWNER, BOB]), events) == Some(s)
    ensures s.users == [OWNER, BOB] && s.editors == []
    ensures s.conns == [Conn("b", 1, TerminalChannel, Serving(1), Granted(BOB), false)]
  {
    PromotionSaves();
    events, s := [], Start([OWNER, BOB]);
    events, s := After(Start([OWNER, BOB]), events, s, Connect("b", 1, TerminalChannel));
    events, s := After(Start([OWNER, BOB]), events, s, OnConn(0, Authenticate));
    events, s := After(Start([OWNER, BOB]), events, s, OnConn(0, Register));
    events, s := After(Start([OWNER, BOB]), events, s, OnConn(0, Recheck));
  }

  /** With one unreported edit a served connection can be stale after all edits finished. */
  lemma UnreportedEditLeavesStaleGrants() returns (events: seq<Event>)
    ensures CleanUsers([OWNER, BOB]) && Exec(Start([OWNER, BOB]), events).Some?
    ensures var s := Exec(Start([OWNER, BOB]), events).value;
      && EditsFinished(s) && |s.conns| == 1
      && s.conns[0].stage.Serving? && !s.conns[0].channel.Short? && !s.conns[0].cancelled
      && !Current(s.users, s.conns[0])
  {
    PromotionSaves();
    var s;
    events, s := BobIsServed();
    StaleAfterPromotion(s);
    events, s := After(Start([OWNER, BOB]), events, s, Edit(PROMOTION, false));
  }
}
