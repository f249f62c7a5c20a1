/** Live connections by user and channel, and which of them a change of grants must drop. */
module Sessions {
  import opened Wrappers
  import opened Permissions
  import opened AccountStore

  /** `Short` requests are on no channel: only a hard revocation reaches them. */
  datatype Channel = Short | Console | Stream | TerminalChannel | AiChannel

  datatype Entry = Entry(conn: nat, channel: Channel)

  type Registry = map<string, map<nat, Entry>>

  // The registry.

  function EntriesOf(r: Registry, user: string): map<nat, Entry> { if user in r then r[user] else map[] }

  /** A user with no entries has no map either. */
  function WithEntries(r: Registry, user: string, entries: map<nat, Entry>): Registry {
    if entries == map[] then r - {user} else r[user := entries]
  }

  function Registered(r: Registry, user: string, id: nat, e: Entry): Registry {
    WithEntries(r, user, EntriesOf(r, user)[id := e])
  }

  function Unregistered(r: Registry, user: string, id: nat): Registry {
    WithEntries(r, user, EntriesOf(r, user) - {id})
  }

  /** No channel list means a hard revocation, which matches everything. */
  predicate Matches(channel: Channel, channels: Option<seq<Channel>>) {
    channels.Some? ==> channel in channels.value
  }

  function Kept(entries: map<nat, Entry>, channels: Option<seq<Channel>>): map<nat, Entry> {
    map id | id in entries && !Matches(entries[id].channel, channels) :: entries[id]
  }

  function DroppedConns(r: Registry, user: string, channels: Option<seq<Channel>>): set<nat> {
    var entries := EntriesOf(r, user);
    set id | id in entries && Matches(entries[id].channel, channels) :: entries[id].conn
  }

  function AfterDrop(r: Registry, user: string, channels: Option<seq<Channel>>): Registry {
    WithEntries(r, user, Kept(EntriesOf(r, user), channels))
  }

  /** No user has an empty map, whatever is done to the registry. */
  predicate Tidy(r: Registry) { forall user :: user in r ==> r[user] != map[] }

  lemma RegistryStaysTidy(r: Registry, user: string, id: nat, e: Entry, channels: Option<seq<Channel>>)
    requires Tidy(r)
    ensures Tidy(Registered(r, user, id, e)) && Tidy(Unregistered(r, user, id)) && Tidy(AfterDrop(r, user, channels))
  {
    assert id in EntriesOf(r, user)[id := e];
  }

  class SessionRegistry {
    var byUser: Registry
    var nextId: nat

    constructor ()
      ensures byUser == map[] && nextId == 0
    {
      byUser, nextId := map[], 0;
    }

    method Register(user: string, conn: nat, channel: Channel) returns (id: nat)
      modifies this
      ensures id == nextId == old(nextId) + 1
      ensures byUser == Registered(old(byUser), user, id, Entry(conn, channel))
    {
      nextId := nextId + 1;
      id := nextId;
      if user !in byUser {
        byUser := byUser[user := map[]];
      }
      var entries: map<nat, Entry> := byUser[user][id := Entry(conn, channel)];
      assert id in entries;
      byUser := byUser[user := entries];
    }

    method Unregister(user: string, id: nat)
      modifies this`byUser
      ensures byUser == Unregistered(old(byUser), user, id)
    {
      if user in byUser {
        byUser := byUser[user := byUser[user] - {id}];
        if |byUser[user]| == 0 {
          byUser := byUser - {user};
        }
      }
    }

    /** Ids are never reused and no user has an empty map. */
    ghost predicate Valid()
      reads this
    {
      Tidy(byUser) && forall user :: user in byUser ==> forall id :: id in byUser[user] ==> id <= nextId
    }

    /**
     * The order `CheckToken` keeps: register, look again, and withdraw if the second look fails.
     * A withdrawn registration leaves no trace.
     */
    method Admit(user: string, conn: nat, channel: Channel, current: bool) returns (id: nat)
      requires Valid()
      modifies this
      ensures Valid() && id == nextId == old(nextId) + 1
      ensures byUser == if current then Registered(old(byUser), user, id, Entry(conn, channel)) else old(byUser)
    {
      id := Register(user, conn, channel);
      if !current {
        ghost var was := EntriesOf(old(byUser), user);
        Unregister(user, id);
        assert was[id := Entry(conn, channel)] - {id} == was;
      }
    }

    /**
     * `dropUserSessions` up to its unlock: collects exactly the matching connections of the
     * user and leaves every other entry, of this user and of all others, where it was.
     */
    method Drop(user: string, channels: Option<seq<Channel>>) returns (dropped: set<nat>)
      modifies this`byUser
      ensures byUser == AfterDrop(old(byUser), user, channels)
      ensures dropped == DroppedConns(old(byUser), user, channels)
    {
      ghost var was := byUser;
      var sessions := EntriesOf(byUser, user);
      var kept, todo := sessions, sessions.Keys;
      dropped := {};
      while todo != {}
        invariant todo <= sessions.Keys
        invariant kept == map id
          | id in sessions && (id in todo || !Matches(sessions[id].channel, channels)) :: sessions[id]
        invariant dropped == set id
          | id in sessions && id !in todo && Matches(sessions[id].channel, channels) :: sessions[id].conn
        decreases todo
      {
        var id :| id in todo;
        todo := todo - {id};
        if Matches(sessions[id].channel, channels) {
          dropped := dropped + {sessions[id].conn};
          kept := kept - {id};
        }
      }
      assert kept == Kept(sessions, channels);
      if kept == map[] {
        byUser := byUser - {user};
      } else {
        byUser := byUser[user := kept];
      }
    }
  }

  // What the connections of a channel run under, by the routes they come in on.

  /** Which channel a long-lived endpoint is on. */
  function ChannelOf(path: string): Channel {
    if path == "/api/ws" then Console
    else if path == "/api/sources/events" || path == "/api/sources/ws" then Console
    else if "/api/stream/" <= path then Stream
    else if path == "/api/vm/terminal" then TerminalChannel
    else if path == "/api/picoclaw/gateway/ws" then AiChannel
    else Short
  }

  /** The grant its route asks for, and for the console socket the one it reads once and keeps. */
  function GrantsAt(path: string): set<Permission> {
    if path == "/api/ws" then {ConsoleView, ConsoleControl}
    else if path == "/api/sources/events" then {ConsoleView}
    else if path == "/api/sources/ws" then {ConsoleControl}
    else if "/api/stream/" <= path then {ConsoleView}
    else if path == "/api/vm/terminal" then {Terminal}
    else if path == "/api/picoclaw/gateway/ws" then {Ai}
    else {}
  }

  function Needs(ch: Channel): set<Permission> {
    match ch
    case Short => {}
    case Console => {ConsoleView, ConsoleControl}
    case Stream => {ConsoleView}
    case TerminalChannel => {Terminal}
    case AiChannel => {Ai}
  }

  /** A channel needs exactly what its endpoints run under. */
  lemma NeedsAreTheRoutes(ch: Channel, p: Permission)
    ensures p in Needs(ch) <==> exists path :: ChannelOf(path) == ch && p in GrantsAt(path)
  {
    if p in Needs(ch) {
      var path := match ch
        case Stream => "/api/stream/h264"
        case TerminalChannel => "/api/vm/terminal"
        case AiChannel => "/api/picoclaw/gateway/ws"
        case _ => "/api/ws";
      assert "/api/stream/" <= "/api/stream/h264" && "/api/stream/"[5] == 's';
      assert ChannelOf(path) == ch && p in GrantsAt(path);
    }
  }

  lemma NeedsAreListed(ch: Channel)
    ensures forall g :: g in Needs(ch) ==> IsValid(g)
  {
    var ids := Ids(CATALOG);
    assert ids[0] == ConsoleView && ids[1] == ConsoleControl && ids[6] == Terminal && ids[12] == Ai;
  }

  // Which channels a change of grants touches.

  function Channels(p: Permission): seq<Channel> {
    match p
    case ConsoleView => [Console, Stream]
    case ConsoleControl => [Console]
    case Terminal => [TerminalChannel]
    case Ai => [AiChannel]
    case _ => []
  }

  function ChannelsFor(ps: seq<Permission>): seq<Channel> {
    if ps == [] then [] else ChannelsFor(ps[..|ps| - 1]) + Channels(ps[|ps| - 1])
  }

  method ChannelsForPermissions(ps: seq<Permission>) returns (channels: seq<Channel>)
    ensures channels == ChannelsFor(ps)
    ensures forall ch :: ch in channels <==> exists p :: p in ps && p in Needs(ch)
  {
    channels := [];
    for i := 0 to |ps|
      invariant channels == ChannelsFor(ps[..i])
    {
      assert ps[..i + 1][..i] == ps[..i];
      channels := channels + Channels(ps[i]);
    }
    assert ps[..|ps|] == ps;
    ChannelsForElements(ps);
  }

  /** The switch is the table the other way round. */
  lemma ChannelsInvertNeeds(p: Permission, ch: Channel)
    ensures ch in Channels(p) <==> p in Needs(ch)
  {
  }

  lemma {:induction false} ChannelsForElements(ps: seq<Permission>)
    ensures forall ch :: ch in ChannelsFor(ps) <==> exists p :: p in ps && p in Needs(ch)
  {
    if ps != [] {
      var front, last := ps[..|ps| - 1], ps[|ps| - 1];
      ChannelsForElements(front);
      forall ch ensures ch in Channels(last) <==> last in Needs(ch) {
        ChannelsInvertNeeds(last, ch);
      }
      assert ps == front + [last];
    }
  }

  function Without(a: seq<Permission>, b: seq<Permission>): seq<Permission> {
    if a == [] then []
    else Without(a[..|a| - 1], b) + (if a[|a| - 1] in b then [] else [a[|a| - 1]])
  }

  function Changed(before: seq<Permission>, after: seq<Permission>): seq<Permission> {
    Without(before, after) + Without(after, before)
  }

  lemma {:induction false} WithoutElements(a: seq<Permission>, b: seq<Permission>)
    ensures forall p :: p in Without(a, b) <==> p in a && p !in b
  {
    if a != [] {
      WithoutElements(a[..|a| - 1], b);
      assert a == a[..|a| - 1] + [a[|a| - 1]];
    }
  }

  /** Exactly the grants held before or after but not both. */
  method PermissionsChanged(before: seq<Permission>, after: seq<Permission>) returns (changed: seq<Permission>)
    ensures changed == Changed(before, after)
    ensures forall p :: p in changed <==> ((p in before) != (p in after))
  {
    changed := [];
    for i := 0 to |before|
      invariant changed == Without(before[..i], after)
    {
      assert before[..i + 1][..i] == before[..i];
      if before[i] !in after {
        changed := changed + [before[i]];
      }
    }
    assert before[..|before|] == before;
    ghost var removed := changed;
    for i := 0 to |after|
      invariant changed == removed + Without(after[..i], before)
    {
      assert after[..i + 1][..i] == after[..i];
      if after[i] !in before {
        changed := changed + [after[i]];
      }
    }
    assert after[..|after|] == after;
    WithoutElements(before, after);
    WithoutElements(after, before);
  }

  // Grants in force.

  function Effective(u: User): seq<Permission> {
    if u.role.Admin? then Ids(CATALOG) else Closure(CATALOG, u.grants)
  }

  /** A disabled account reaches nothing, whatever it stores. */
  function EnabledPermissions(u: User): seq<Permission> { if u.enabled then Effective(u) else [] }

  /** A grant that comes or goes drops every channel that depends on it. */
  lemma ChangeReachesChannels(u: User, v: User, p: Permission, ch: Channel)
    requires u.enabled && v.enabled && p in Needs(ch)
    requires (p in Effective(u)) != (p in Effective(v))
    ensures ch in ChannelsFor(Changed(EnabledPermissions(u), EnabledPermissions(v)))
  {
    var changed := Changed(Effective(u), Effective(v));
    WithoutElements(Effective(u), Effective(v));
    WithoutElements(Effective(v), Effective(u));
    assert p in changed;
    ChannelsForElements(changed);
  }

  /** So a connection to any endpoint is dropped when a grant it runs under comes or goes. */
  lemma ChangeReachesEndpoints(u: User, v: User, p: Permission, path: string)
    requires u.enabled && v.enabled && p in GrantsAt(path)
    requires (p in Effective(u)) != (p in Effective(v))
    ensures ChannelOf(path) in ChannelsFor(Changed(EnabledPermissions(u), EnabledPermissions(v)))
  {
    NeedsAreTheRoutes(ChannelOf(path), p);
    ChangeReachesChannels(u, v, p, ChannelOf(path));
  }

  /** And nothing else is dropped: a channel in the list depends on a grant that changed. */
  lemma OnlyAffectedChannels(u: User, v: User, ch: Channel)
    requires ch in ChannelsFor(Changed(EnabledPermissions(u), EnabledPermissions(v)))
    ensures exists p :: p in Needs(ch) && ((p in EnabledPermissions(u)) != (p in EnabledPermissions(v)))
  {
    var before, after := EnabledPermissions(u), EnabledPermissions(v);
    ChannelsForElements(Changed(before, after));
    WithoutElements(before, after);
    WithoutElements(after, before);
  }

  /** What an account can reach: nothing while it is disabled. */
  predicate CanUse(u: User, p: Permission) { u.enabled && p in Effective(u) }

  /** For any two states of an account, disabled ones too, the drop is exactly the channels that need what changed. */
  lemma DroppedExactlyWhen(u: User, v: User, ch: Channel)
    ensures ch in ChannelsFor(Changed(EnabledPermissions(u), EnabledPermissions(v))) <==>
      exists p :: p in Needs(ch) && CanUse(u, p) != CanUse(v, p)
  {
    var before, after := EnabledPermissions(u), EnabledPermissions(v);
    ChannelsForElements(Changed(before, after));
    WithoutElements(before, after);
    WithoutElements(after, before);
    assert forall p :: (p in before <==> CanUse(u, p)) && (p in after <==> CanUse(v, p));
    assert forall p :: p in Changed(before, after) <==> CanUse(u, p) != CanUse(v, p);
  }
}
