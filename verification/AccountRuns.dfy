/** Edits of the account file, one at a time under the store lock, and what every run keeps. */
module AccountRuns {
  import opened Wrappers
  import opened Permissions
  import opened AccountStore

  // Finding a record.

  function IndexOf(users: seq<User>, name: string): (r: int)
    ensures -1 <= r < |users|
    ensures r >= 0 ==> users[r].name == name
    ensures r < 0 ==> forall k :: 0 <= k < |users| ==> users[k].name != name
  {
    if users == [] then -1
    else if users[0].name == name then 0
    else
      var r := IndexOf(users[1..], name);
      if r < 0 then -1 else r + 1
  }

  method UserIndex(users: seq<User>, name: string) returns (r: int)
    ensures r == IndexOf(users, name)
  {
    for i := 0 to |users|
      invariant IndexOf(users, name) == var rest := IndexOf(users[i..], name); if rest < 0 then -1 else rest + i
    {
      assert users[i..][1..] == users[i + 1..];
      if users[i].name == name {
        return i;
      }
    }
    return -1;
  }

  function Find(users: seq<User>, name: string): Option<User> {
    var i := IndexOf(users, name);
    if i < 0 then None else Some(users[i])
  }

  lemma FindAt(users: seq<User>, i: nat)
    requires UniqueNames(users) && i < |users|
    ensures Find(users, users[i].name) == Some(users[i])
  {
    var k := IndexOf(users, users[i].name);
    assert k == i;
  }

  // The edits.

  datatype Patch = Patch(role: Option<Role>, enabled: Option<bool>, grants: Option<seq<Permission>>)

  /**
   * `password` is the length of a new password in bytes and `hash` what it hashes to;
   * `SetPassword.after` is whether the system-side update that follows the commit succeeds.
   */
  datatype Op =
    | Create(name: string, password: nat, hash: string, role: Role, grants: Option<seq<Permission>>, version: Word64)
    | Update(actor: string, name: string, patch: Patch)
    | Delete(actor: string, name: string)
    | SetPassword(name: string, password: nat, hash: string, after: bool)
    | UpgradePassword(name: string, hash: string)
    | Revoke(name: string)

  datatype Edit = Refused(error: Error) | NoChange | Save(users: seq<User>)

  predicate ValidGrants(grants: seq<Permission>) {
    NoDuplicates(grants) && forall p :: p in grants ==> IsValid(p)
  }

  /** Grants a request cannot name are carried over from the record. */
  function CarryOver(granted: seq<Permission>, stored: seq<Permission>): seq<Permission>
    decreases |stored|
  {
    if stored == [] then granted
    else
      var p := stored[0];
      CarryOver(if !IsValid(p) && p !in granted then granted + [p] else granted, stored[1..])
  }

  method CarryOverLoop(granted: seq<Permission>, stored: seq<Permission>) returns (r: seq<Permission>)
    ensures r == CarryOver(granted, stored)
  {
    r := granted;
    for i := 0 to |stored|
      invariant CarryOver(r, stored[i..]) == CarryOver(granted, stored)
    {
      assert stored[i..][1..] == stored[i + 1..];
      if !IsValid(stored[i]) && stored[i] !in r {
        r := r + [stored[i]];
      }
    }
    assert stored[|stored|..] == [];
  }

  /** The loop of `permissionsEqual`, on lists that are both present. */
  predicate PermissionsEqual(a: seq<Permission>, b: seq<Permission>) {
    |a| == |b| && forall p :: p in b ==> p in a
  }

  function Bump(v: Word64): Word64 { (v + 1) % U64 }

  function Demotes(patch: Patch): bool {
    (patch.role.Some? && !patch.role.value.Admin?) || patch.enabled == Some(false)
  }

  function Patched(u: User, patch: Patch): User {
    var granted :=
      if patch.grants.Some? then CarryOver(Normalize(patch.grants.value), u.grants) else u.grants;
    u.(role := if patch.role.Some? then patch.role.value else u.role,
       enabled := if patch.enabled.Some? then patch.enabled.value else u.enabled,
       grants := if patch.grants.Some? && !PermissionsEqual(u.grants, granted) then granted else u.grants,
       version := if patch.enabled.Some? && patch.enabled.value != u.enabled then Bump(u.version) else u.version)
  }

  function UpdateEdit(users: seq<User>, actor: string, name: string, patch: Patch): Edit {
    var i := IndexOf(users, name);
    if i < 0 then Refused(NotFound)
    else
      var u := users[i];
      if patch.role.Some? && patch.role.value.Unknown? then Refused(BadRole)
      else if patch.grants.Some? && !ValidGrants(patch.grants.value) then Refused(BadGrants)
      else if actor == name && u.role.Admin? && Demotes(patch) then Refused(SelfModification)
      else if u.owner && Demotes(patch) then Refused(OwnerAccount)
      else if Patched(u, patch) == u then NoChange
      else if !HasAdmin(users[i := Patched(u, patch)]) then Refused(LastAdmin)
      else Save(users[i := Patched(u, patch)])
  }

  /** A caller that names no grants at all gets what the user role used to mean. */
  function RequestedGrants(op: Op): seq<Permission>
    requires op.Create?
  {
    match op.grants
    case Some(g) => g
    case None => if op.role.Plain? then [ConsoleView, ConsoleControl, Power] else []
  }

  /** What is refused before the file is even read. */
  function Precheck(op: Op): Option<Error> {
    match op
    case Create(name, password, _, role, _, _) =>
      if !ValidName(name) then Some(BadName)
      else if password < 8 || password > 72 then Some(BadPassword)
      else if role.Unknown? then Some(BadRole)
      else if !ValidGrants(RequestedGrants(op)) then Some(BadGrants)
      else None
    case SetPassword(_, password, _, _) => if password < 8 || password > 72 then Some(BadPassword) else None
    case Delete(actor, name) => if actor == name then Some(SelfDelete) else None
    case _ => None
  }

  function CreateEdit(users: seq<User>, op: Op): Edit
    requires op.Create?
  {
    if IndexOf(users, op.name) >= 0 then Refused(Exists)
    else Save(users + [User(op.name, op.hash, op.role, true, op.version,
                            Normalize(RequestedGrants(op)), false, false)])
  }

  function DeleteEdit(users: seq<User>, name: string): Edit {
    var i := IndexOf(users, name);
    if i < 0 then Refused(NotFound)
    else if users[i].owner then Refused(OwnerAccount)
    else if !HasAdmin(users[..i] + users[i + 1..]) then Refused(LastAdmin)
    else Save(users[..i] + users[i + 1..])
  }

  function Touched(u: User, op: Op): User {
    match op
    case SetPassword(_, _, hash, _) => u.(hash := hash, mustChange := false, version := Bump(u.version))
    case UpgradePassword(_, hash) => u.(hash := hash)
    case Revoke(_) => u.(version := Bump(u.version))
    case _ => u
  }

  function TouchEdit(users: seq<User>, name: string, op: Op): Edit {
    var i := IndexOf(users, name);
    if i < 0 then Refused(NotFound)
    else if op.UpgradePassword? && !users[i].enabled then NoChange
    else Save(users[i := Touched(users[i], op)])
  }

  function EditOf(users: seq<User>, op: Op): Edit {
    match op
    case Create(_, _, _, _, _, _) => CreateEdit(users, op)
    case Update(actor, name, patch) => UpdateEdit(users, actor, name, patch)
    case Delete(_, name) => DeleteEdit(users, name)
    case SetPassword(name, _, _, _) => TouchEdit(users, name, op)
    case UpgradePassword(name, _) => TouchEdit(users, name, op)
    case Revoke(name) => TouchEdit(users, name, op)
  }

  /** What the disk does to the saves of one operation, and what a migration would need. */
  datatype Env = Env(supply: Supply, migrate: Io, save: Io, rollback: Io)

  /** Loading creates the file of an empty device and rewrites a single-user file. */
  function Migrated(file: File, users: seq<User>, env: Env): File {
    if file.Accounts? then file else Saved(file, users, env.migrate)
  }

  /** The file after one operation, whatever the operation returned. */
  function Apply(file: File, op: Op, env: Env): File {
    var loaded := Load(file, env.supply);
    if Precheck(op).Some? || loaded.Err? then file
    else
      var users := loaded.value;
      var base := Migrated(file, users, env);
      if !file.Accounts? && !SaveOk(users, env.migrate) then base
      else Committed(base, users, op, env)
  }

  /** The edit, its save, and the rollback of a password the system side refused. */
  function Committed(base: File, users: seq<User>, op: Op, env: Env): File {
    match EditOf(users, op)
    case Refused(_) => base
    case NoChange => base
    case Save(edited) =>
      var after := Saved(base, edited, env.save);
      if op.SetPassword? && !op.after && SaveOk(edited, env.save) then Saved(after, users, env.rollback) else after
  }

  /** The file after a whole sequence of operations. */
  function Exec(file: File, ops: seq<(Op, Env)>): File {
    if ops == [] then file else Apply(Exec(file, ops[..|ops| - 1]), ops[|ops| - 1].0, ops[|ops| - 1].1)
  }

  // What a file written by the store satisfies.

  predicate CleanUser(u: User) { u.version >= 1 && forall p :: p in u.grants ==> !Legacy(p) }

  predicate CleanUsers(users: seq<User>) {
    ValidUsers(users) && forall i :: 0 <= i < |users| ==> CleanUser(users[i])
  }

  function Records(file: File): (r: seq<User>)
    requires file.Accounts?
    ensures |r| == |file.users| && forall i :: 0 <= i < |r| ==> r[i] == file.users[i].user
  {
    seq(|file.users|, i requires 0 <= i < |file.users| => file.users[i].user)
  }

  predicate Good(file: File) {
    && file.Accounts? && file.fileVersion == 1
    && (forall i :: 0 <= i < |file.users| ==> file.users[i].hasGrants)
    && CleanUsers(Records(file))
    && var m := MirrorOf(Records(file));
       m.Some? && EnabledAdmin(m.value) && file.mirrorName == m.value.name && file.mirrorHash == m.value.hash
  }

  lemma {:induction false} FirstOwnerIs(users: seq<User>)
    ensures FirstOwner(users).Some? <==> exists i :: 0 <= i < |users| && users[i].owner
    ensures FirstOwner(users).Some? ==> FirstOwner(users).value in users && FirstOwner(users).value.owner
  {
    if users != [] && !users[0].owner {
      FirstOwnerIs(users[1..]);
      if i :| 0 <= i < |users| && users[i].owner {
        assert users[1..][i - 1].owner;
      }
    }
  }

  lemma {:induction false} FirstAdminIs(users: seq<User>)
    ensures FirstAdmin(users).Some? <==> HasAdmin(users)
    ensures FirstAdmin(users).Some? ==> EnabledAdmin(FirstAdmin(users).value)
  {
    if users != [] && !EnabledAdmin(users[0]) {
      FirstAdminIs(users[1..]);
      if i :| 0 <= i < |users| && EnabledAdmin(users[i]) {
        assert EnabledAdmin(users[1..][i - 1]);
      }
      if i :| 0 <= i < |users[1..]| && EnabledAdmin(users[1..][i]) {
        assert EnabledAdmin(users[i + 1]);
      }
    }
  }

  /** The legacy mirror of a valid list names an enabled administrator. */
  lemma MirrorIsAdmin(users: seq<User>)
    requires ValidUsers(users)
    ensures MirrorOf(users).Some? && EnabledAdmin(MirrorOf(users).value)
  {
    FirstOwnerIs(users);
    FirstAdminIs(users);
  }

  predicate FirstAdminAt(users: seq<User>, i: nat)
    requires i < |users|
  {
    EnabledAdmin(users[i]) && forall j :: 0 <= j < i ==> !EnabledAdmin(users[j])
  }

  /** The mirror is the owner if there is one, and the first enabled administrator if not. */
  lemma MirrorExactly(users: seq<User>)
    requires ValidUsers(users)
    ensures MirrorOf(users).Some?
    ensures var m := MirrorOf(users).value;
      if exists i :: 0 <= i < |users| && users[i].owner then m in users && m.owner
      else exists i :: 0 <= i < |users| && users[i] == m && FirstAdminAt(users, i)
  {
    FirstOwnerIs(users);
    FirstAdminIs(users);
    FirstAdminIsFirst(users);
  }

  lemma {:induction false} FirstAdminIsFirst(users: seq<User>)
    requires FirstAdmin(users).Some?
    ensures exists i :: 0 <= i < |users| && users[i] == FirstAdmin(users).value && FirstAdminAt(users, i)
  {
    if EnabledAdmin(users[0]) {
      assert users[0] == FirstAdmin(users).value && FirstAdminAt(users, 0);
    } else {
      FirstAdminIsFirst(users[1..]);
      var i :| 0 <= i < |users[1..]| && users[1..][i] == FirstAdmin(users).value && FirstAdminAt(users[1..], i);
      assert users[i + 1] == FirstAdmin(users).value;
      forall j | 0 <= j < i + 1 ensures !EnabledAdmin(users[j]) {
        assert j > 0 ==> users[j] == users[1..][j - 1];
      }
      assert FirstAdminAt(users, i + 1);
    }
  }

  lemma WrittenIsGood(users: seq<User>)
    requires CleanUsers(RepairAll(users))
    ensures Good(Written(users)) && Records(Written(users)) == RepairAll(users)
  {
    MirrorIsAdmin(RepairAll(users));
    assert Records(Written(users)) == RepairAll(users);
  }

  lemma RepairClean(users: seq<User>)
    requires ValidUsers(users)
    requires forall i :: 0 <= i < |users| ==> forall p :: p in users[i].grants ==> !Legacy(p)
    ensures CleanUsers(RepairAll(users))
  {
    VersionsDoNotMatter(users, RepairAll(users));
  }

  lemma RepairFixesClean(users: seq<User>)
    requires CleanUsers(users)
    ensures RepairAll(users) == users
  {
    forall i | 0 <= i < |users|
      ensures RepairAll(users)[i] == users[i]
    {
      assert CleanUser(users[i]);
    }
  }

  lemma OwnerAloneIsClean(u: User)
    requires ValidName(u.name) && u == Owner(u.name, u.hash, u.version, u.mustChange) && u.hash != "" && u.version >= 1
    ensures CleanUsers([u])
  {
    assert EnabledAdmin([u][0]) && ValidUser([u][0]);
  }

  /** Whatever file is accepted, what the store works on is clean. */
  lemma LoadIsClean(file: File, supply: Supply)
    requires SupplyOk(supply) && Load(file, supply).Ok?
    ensures CleanUsers(Load(file, supply).value)
  {
    match file {
      case Missing => OwnerAloneIsClean(Owner("admin", supply.hash, supply.version, true));
      case SingleUser(name, hash) => OwnerAloneIsClean(Owner(name, hash, supply.version, supply.defaultPassword));
      case Accounts(_, fs, _, _) =>
        var users := MaterializeAll(fs);
        forall i | 0 <= i < |users|
          ensures forall p :: p in users[i].grants ==> !Legacy(p)
        {
          NormalizeElements(fs[i].user.grants);
        }
        RepairClean(users);
    }
  }

  /** A good file is read back exactly as it was written. */
  lemma GoodLoads(file: File, supply: Supply)
    requires Good(file)
    ensures Load(file, supply) == Ok(Records(file))
  {
    var users := Records(file);
    forall i | 0 <= i < |users|
      ensures Materialized(file.users[i]) == users[i]
    {
      assert ValidUser(users[i]) && CleanUser(users[i]);
      NormalizeFixed(users[i].grants);
    }
    assert MaterializeAll(file.users) == users;
    RepairFixesClean(users);
  }

  /** An edit keeps what it was given, adds every grant the build does not know, and no duplicate. */
  lemma {:induction false} CarryOverElements(granted: seq<Permission>, stored: seq<Permission>)
    requires NoDuplicates(granted)
    ensures var r := CarryOver(granted, stored);
      && NoDuplicates(r)
      && (forall p :: p in granted ==> p in r)
      && (forall p :: p in stored && !IsValid(p) ==> p in r)
      && (forall p :: p in r ==> p in granted || (p in stored && !IsValid(p)))
    decreases |stored|
  {
    if stored != [] {
      var p := stored[0];
      var next := if !IsValid(p) && p !in granted then granted + [p] else granted;
      CarryOverElements(next, stored[1..]);
      assert forall q :: q in stored ==> q == p || q in stored[1..];
    }
  }

  /** `permissionsEqual` compares sets, because neither list has duplicates. */
  lemma PermissionsEqualIsSetEquality(a: seq<Permission>, b: seq<Permission>)
    requires NoDuplicates(a) && NoDuplicates(b)
    ensures PermissionsEqual(a, b) <==> Elements(a) == Elements(b)
  {
    Distinct(a);
    Distinct(b);
    if PermissionsEqual(a, b) {
      assert Elements(b) <= Elements(a);
      SubsetOfSameSize(Elements(b), Elements(a));
    }
    assert forall p :: p in b <==> p in Elements(b);
  }

  lemma {:induction false} Distinct(s: seq<Permission>)
    requires NoDuplicates(s)
    ensures |Elements(s)| == |s|
  {
    if s != [] {
      Distinct(s[1..]);
      assert s[0] !in s[1..];
      assert Elements(s) == {s[0]} + Elements(s[1..]);
    }
  }

  lemma {:induction false} SubsetOfSameSize(a: set<Permission>, b: set<Permission>)
    requires a <= b && |a| == |b|
    ensures a == b
  {
    if x :| x in b && x !in a {
      assert a <= b - {x};
      SubsetSize(a, b - {x});
    }
  }

  lemma {:induction false} SubsetSize(a: set<Permission>, b: set<Permission>)
    requires a <= b
    ensures |a| <= |b|
  {
    if x :| x in a {
      SubsetSize(a - {x}, b - {x});
    }
  }

  // One operation.

  lemma PatchedGrants(u: User, patch: Patch)
    requires CleanUser(u) && NoDuplicates(u.grants)
    ensures forall p :: p in Patched(u, patch).grants ==> !Legacy(p)
    ensures forall p :: p in u.grants && !IsValid(p) ==> p in Patched(u, patch).grants
  {
    if patch.grants.Some? {
      NormalizeElements(patch.grants.value);
      CarryOverElements(Normalize(patch.grants.value), u.grants);
    }
  }

  /** The edited list is clean again once validation has accepted it. */
  lemma EditIsClean(users: seq<User>, op: Op)
    requires CleanUsers(users) && EditOf(users, op).Save? && ValidUsers(EditOf(users, op).users)
    ensures CleanUsers(RepairAll(EditOf(users, op).users))
  {
    var edited := EditOf(users, op).users;
    forall i | 0 <= i < |edited|
      ensures forall p :: p in edited[i].grants ==> !Legacy(p)
    {
      assert forall k :: 0 <= k < |users| ==> ValidUser(users[k]) && CleanUser(users[k]);
      match op {
        case Create(_, _, _, _, _, _) => NormalizeElements(RequestedGrants(op));
        case Update(_, name, patch) => PatchedGrants(users[IndexOf(users, name)], patch);
        case _ =>
      }
    }
    RepairClean(edited);
  }

  lemma SavedIsGood(file: File, users: seq<User>, io: Io)
    requires CleanUsers(users)
    ensures Saved(file, users, io) == file || Good(Saved(file, users, io))
  {
    RepairFixesClean(users);
    WrittenIsGood(users);
  }

  lemma CommittedIsGood(base: File, users: seq<User>, op: Op, env: Env)
    requires CleanUsers(users)
    ensures Committed(base, users, op, env) == base || Good(Committed(base, users, op, env))
  {
    var edit := EditOf(users, op);
    if edit.Save? && ValidUsers(edit.users) {
      EditIsClean(users, op);
      WrittenIsGood(edit.users);
      SavedIsGood(Saved(base, edit.users, env.save), users, env.rollback);
    }
  }

  /** Every file an operation leaves behind is the one it found or a good one. */
  lemma ApplyWritesGood(file: File, op: Op, env: Env)
    requires SupplyOk(env.supply)
    ensures Apply(file, op, env) == file || Good(Apply(file, op, env))
  {
    var loaded := Load(file, env.supply);
    if loaded.Ok? {
      var users := loaded.value;
      LoadIsClean(file, env.supply);
      SavedIsGood(file, users, env.migrate);
      CommittedIsGood(Migrated(file, users, env), users, op, env);
    }
  }

  predicate SuppliesOk(ops: seq<(Op, Env)>) { forall i :: 0 <= i < |ops| ==> SupplyOk(ops[i].1.supply) }

  /**
   * Along any run of operations and disk failures, every account file written has unique
   * names, duplicate-free grants, an enabled administrator, at most one device owner, who is an
   * enabled administrator, and a legacy mirror that names an enabled administrator.
   */
  lemma {:induction false} EveryFileWrittenIsGood(file: File, ops: seq<(Op, Env)>)
    requires SuppliesOk(ops)
    ensures Exec(file, ops) == file || Good(Exec(file, ops))
  {
    if ops != [] {
      var last := |ops| - 1;
      assert SuppliesOk(ops[..last]);
      EveryFileWrittenIsGood(file, ops[..last]);
      ApplyWritesGood(Exec(file, ops[..last]), ops[last].0, ops[last].1);
    }
  }

  // What happens to one account.

  /** The token version an account has after a bump went through validation. */
  function NextVersion(v: Word64): Word64 { if v == U64 - 1 then 1 else v + 1 }

  /** `v` is what became of the record `u` when it was kept. */
  predicate Continues(u: User, v: User) {
    && v.name == u.name && v.owner == u.owner
    && (v.version == u.version || v.version == NextVersion(u.version))
    && (forall p :: p in u.grants && !IsValid(p) ==> p in v.grants)
  }

  lemma FindReplaced(users: seq<User>, i: nat, v: User, name: string)
    requires UniqueNames(users) && i < |users| && v.name == users[i].name
    ensures Find(users[i := v], name) == if name == v.name then Some(v) else Find(users, name)
  {
    var edited := users[i := v];
    if name == v.name {
      FindAt(edited, i);
    } else {
      var k := IndexOf(users, name);
      if k >= 0 {
        FindAt(edited, k);
      } else {
        assert forall m :: 0 <= m < |edited| ==> edited[m].name != name;
        assert IndexOf(edited, name) < 0;
      }
    }
  }

  lemma FindRepaired(users: seq<User>, name: string)
    requires UniqueNames(users)
    ensures Find(RepairAll(users), name) ==
      if Find(users, name).Some? then Some(Repaired(Find(users, name).value)) else None
  {
    var k := IndexOf(users, name);
    if k >= 0 {
      FindAt(RepairAll(users), k);
    }
  }

  lemma FindAppended(users: seq<User>, v: User, name: string)
    requires UniqueNames(users + [v])
    ensures Find(users + [v], name) == if name == v.name then Some(v) else Find(users, name)
  {
    var edited := users + [v];
    var k := IndexOf(users, name);
    if name == v.name {
      FindAt(edited, |users|);
      assert forall m :: 0 <= m < |users| ==> users[m] == edited[m];
    } else if k >= 0 {
      assert edited[k] == users[k];
      FindAt(edited, k);
    }
  }

  lemma FindRemoved(users: seq<User>, i: nat, name: string)
    requires UniqueNames(users) && i < |users| && UniqueNames(users[..i] + users[i + 1..])
    ensures Find(users[..i] + users[i + 1..], name) == if name == users[i].name then None else Find(users, name)
  {
    var edited := users[..i] + users[i + 1..];
    assert forall m :: 0 <= m < |edited| ==> edited[m] == users[if m < i then m else m + 1];
    var k := IndexOf(users, name);
    if k >= 0 && k != i {
      var m := if k < i then k else k - 1;
      assert edited[m] == users[k];
      FindAt(edited, m);
    }
  }

  /** How a list of accounts may change: records continue, only a plain one can go, no owner appears. */
  predicate Evolves(users: seq<User>, after: seq<User>, name: string, deleted: bool) {
    match (Find(users, name), Find(after, name))
    case (Some(u), Some(v)) => Continues(u, v)
    case (Some(u), None) => deleted && !u.owner
    case (None, Some(v)) => !v.owner
    case (None, None) => true
  }

  lemma ReplaceEvolves(users: seq<User>, i: nat, v: User, name: string)
    requires i < |users| && UniqueNames(users) && UniqueNames(users[i := v])
    requires forall k :: 0 <= k < |users| ==> CleanUser(users[k])
    requires Continues(users[i], Repaired(v))
    ensures Evolves(users, RepairAll(users[i := v]), name, false)
  {
    FindReplaced(users, i, v, name);
    FindRepaired(users[i := v], name);
    if name == v.name {
      FindAt(users, i);
    }
  }

  lemma TouchEvolves(users: seq<User>, target: string, op: Op, name: string)
    requires CleanUsers(users) && TouchEdit(users, target, op).Save? && ValidUsers(TouchEdit(users, target, op).users)
    ensures Evolves(users, RepairAll(TouchEdit(users, target, op).users), name, false)
  {
    var i := IndexOf(users, target);
    assert CleanUser(users[i]);
    ReplaceEvolves(users, i, Touched(users[i], op), name);
  }

  lemma UpdateEvolves(users: seq<User>, op: Op, name: string)
    requires op.Update? && CleanUsers(users) && EditOf(users, op).Save? && ValidUsers(EditOf(users, op).users)
    ensures Evolves(users, RepairAll(EditOf(users, op).users), name, false)
  {
    var i := IndexOf(users, op.name);
    assert ValidUser(users[i]) && CleanUser(users[i]);
    PatchedGrants(users[i], op.patch);
    ReplaceEvolves(users, i, Patched(users[i], op.patch), name);
  }

  lemma CreateEvolves(users: seq<User>, op: Op, name: string)
    requires op.Create? && CleanUsers(users) && EditOf(users, op).Save? && ValidUsers(EditOf(users, op).users)
    ensures Evolves(users, RepairAll(EditOf(users, op).users), name, false)
  {
    var edited := EditOf(users, op).users;
    FindRepaired(edited, name);
    FindAppended(users, edited[|users|], name);
    var i := IndexOf(users, name);
    assert i >= 0 ==> CleanUser(users[i]);
  }

  lemma DeleteEvolves(users: seq<User>, op: Op, name: string)
    requires op.Delete? && CleanUsers(users) && EditOf(users, op).Save? && ValidUsers(EditOf(users, op).users)
    ensures Evolves(users, RepairAll(EditOf(users, op).users), name, op.name == name)
  {
    var i := IndexOf(users, op.name);
    FindRepaired(EditOf(users, op).users, name);
    FindRemoved(users, i, name);
    FindAt(users, i);
    var k := IndexOf(users, name);
    assert k >= 0 ==> CleanUser(users[k]);
  }

  lemma EditEvolves(users: seq<User>, op: Op, name: string)
    requires CleanUsers(users) && EditOf(users, op).Save? && ValidUsers(EditOf(users, op).users)
    ensures Evolves(users, RepairAll(EditOf(users, op).users), name, op.Delete? && op.name == name)
  {
    match op {
      case Create(_, _, _, _, _, _) => CreateEvolves(users, op, name);
      case Delete(_, _) => DeleteEvolves(users, op, name);
      case Update(_, _, _) => UpdateEvolves(users, op, name);
      case SetPassword(target, _, _, _) => TouchEvolves(users, target, op, name);
      case UpgradePassword(target, _) => TouchEvolves(users, target, op, name);
      case Revoke(target) => TouchEvolves(users, target, op, name);
    }
  }

  lemma SameEvolves(users: seq<User>, name: string)
    ensures Evolves(users, users, name, false)
  {
  }

  predicate Saves(users: seq<User>, op: Op) { EditOf(users, op).Save? && ValidUsers(EditOf(users, op).users) }

  /** On a good file an operation either leaves the records alone or writes exactly its edit. */
  lemma ApplyCases(file: File, op: Op, env: Env)
    requires Good(file)
    ensures var users, after := Records(file), Apply(file, op, env);
      || after == file
      || after == Written(users)
      || (Saves(users, op) && after == Written(EditOf(users, op).users))
    ensures Precheck(op).None? && Saves(Records(file), op) && env.save.Fine? && (op.SetPassword? ==> op.after)
      ==> Apply(file, op, env) == Written(EditOf(Records(file), op).users)
  {
    GoodLoads(file, env.supply);
  }

  /** One operation on a good file, for every account name. */
  lemma ApplyEvolves(file: File, op: Op, env: Env, name: string)
    requires Good(file)
    ensures Good(Apply(file, op, env))
    ensures Evolves(Records(file), Records(Apply(file, op, env)), name, op.Delete? && op.name == name)
  {
    var users, after := Records(file), Apply(file, op, env);
    ApplyCases(file, op, env);
    SameEvolves(users, name);
    if after == Written(users) {
      RepairFixesClean(users);
      WrittenIsGood(users);
    } else if after != file {
      EditIsClean(users, op);
      WrittenIsGood(EditOf(users, op).users);
      EditEvolves(users, op, name);
    }
  }

  // Whole runs from a good file.

  lemma {:induction false} RunStaysGood(file: File, ops: seq<(Op, Env)>)
    requires Good(file)
    ensures Good(Exec(file, ops))
  {
    if ops != [] {
      RunStaysGood(file, ops[..|ops| - 1]);
      ApplyEvolves(Exec(file, ops[..|ops| - 1]), ops[|ops| - 1].0, ops[|ops| - 1].1, "");
    }
  }

  predicate IsOwner(file: File, name: string)
    requires file.Accounts?
  {
    var u := Find(Records(file), name);
    u.Some? && u.value.owner
  }

  /** The device owner never disappears, never changes, and stays an enabled administrator. */
  lemma {:induction false} OwnerIsForever(file: File, ops: seq<(Op, Env)>, name: string)
    requires Good(file)
    ensures Good(Exec(file, ops))
    ensures IsOwner(Exec(file, ops), name) <==> IsOwner(file, name)
    ensures IsOwner(file, name) ==> EnabledAdmin(Find(Records(Exec(file, ops)), name).value)
  {
    if ops != [] {
      var before := Exec(file, ops[..|ops| - 1]);
      OwnerIsForever(file, ops[..|ops| - 1], name);
      ApplyEvolves(before, ops[|ops| - 1].0, ops[|ops| - 1].1, name);
    }
    var users := Records(Exec(file, ops));
    var i := IndexOf(users, name);
    assert i >= 0 ==> ValidUser(users[i]);
  }

  predicate Deletes(op: Op, name: string) { op.Delete? && op.name == name }

  predicate NeverDeletes(ops: seq<(Op, Env)>, name: string) {
    forall i :: 0 <= i < |ops| ==> !Deletes(ops[i].0, name)
  }

  /** Grants this build does not know survive every edit of an account that is not deleted. */
  lemma {:induction false} UnknownGrantsSurvive(file: File, ops: seq<(Op, Env)>, name: string, p: Permission)
    requires Good(file) && NeverDeletes(ops, name) && !IsValid(p)
    requires Find(Records(file), name).Some? && p in Find(Records(file), name).value.grants
    ensures Good(Exec(file, ops)) && Find(Records(Exec(file, ops)), name).Some?
    ensures p in Find(Records(Exec(file, ops)), name).value.grants
  {
    if ops != [] {
      var before := Exec(file, ops[..|ops| - 1]);
      UnknownGrantsSurvive(file, ops[..|ops| - 1], name, p);
      ApplyEvolves(before, ops[|ops| - 1].0, ops[|ops| - 1].1, name);
      assert !Deletes(ops[|ops| - 1].0, name);
    }
  }

  // Tokens.

  function VersionOf(file: File, name: string): nat
    requires file.Accounts?
  {
    var u := Find(Records(file), name);
    if u.Some? then u.value.version else 0
  }

  /** `ValidateToken`: the account exists, is enabled, and still has the version in the token. */
  predicate TokenValid(file: File, name: string, version: nat)
    requires file.Accounts?
  {
    var u := Find(Records(file), name);
    u.Some? && u.value.enabled && u.value.version == version
  }

  function Iterate(v: Word64, k: nat): Word64 { if k == 0 then v else NextVersion(Iterate(v, k - 1)) }

  lemma {:induction false} IterateClosedForm(v: Word64, k: nat)
    requires v >= 1
    ensures Iterate(v, k) == (v - 1 + k) % (U64 - 1) + 1
  {
    if k > 0 {
      IterateClosedForm(v, k - 1);
    }
  }

  lemma IterateLeaves(v: Word64, k: nat)
    requires v >= 1 && 0 < k < U64 - 1
    ensures Iterate(v, k) != v
  {
    IterateClosedForm(v, k);
  }

  lemma {:induction false} RecordKept(file: File, ops: seq<(Op, Env)>, name: string)
    requires Good(file) && NeverDeletes(ops, name) && Find(Records(file), name).Some?
    ensures Good(Exec(file, ops)) && Find(Records(Exec(file, ops)), name).Some?
  {
    if ops != [] {
      var last := |ops| - 1;
      RecordKept(file, ops[..last], name);
      assert !Deletes(ops[last].0, name);
      ApplyEvolves(Exec(file, ops[..last]), ops[last].0, ops[last].1, name);
    }
  }

  /** `w` is `v` or what a bump makes of it. */
  predicate Advances(v: nat, w: nat) { w == v || w == (if v == U64 - 1 then 1 else v + 1) }

  lemma {:induction false} StepVersion(file: File, ops: seq<(Op, Env)>, name: string, j: nat)
    requires Good(file) && NeverDeletes(ops, name) && Find(Records(file), name).Some? && j < |ops|
    ensures Exec(file, ops[..j]).Accounts? && Exec(file, ops[..j + 1]).Accounts?
    ensures Advances(VersionOf(Exec(file, ops[..j]), name), VersionOf(Exec(file, ops[..j + 1]), name))
  {
    RecordKept(file, ops[..j], name);
    RecordKept(file, ops[..j + 1], name);
    assert ops[..j + 1][..j] == ops[..j];
    assert !Deletes(ops[j].0, name);
    ApplyEvolves(Exec(file, ops[..j]), ops[j].0, ops[j].1, name);
  }

  /** A history of versions that only advances is where so many bumps take it. */
  lemma {:induction false} HistoryAdvances(vs: seq<Word64>, i: nat) returns (k: nat)
    requires i < |vs| && forall j :: 0 <= j < |vs| - 1 ==> Advances(vs[j], vs[j + 1])
    ensures vs[|vs| - 1] == Iterate(vs[0], k) && k <= |vs| - 1
    ensures vs[i] != vs[0] ==> k >= 1
  {
    var last := |vs| - 1;
    if last == 0 {
      k := 0;
    } else {
      k := HistoryAdvances(vs[..last], if i < last then i else 0);
      assert Advances(vs[last - 1], vs[last]);
      if vs[last] != vs[last - 1] {
        k := k + 1;
      }
    }
  }

  function History(file: File, ops: seq<(Op, Env)>, name: string): seq<nat> {
    seq(|ops| + 1, j requires 0 <= j <= |ops| =>
      if Exec(file, ops[..j]).Accounts? then VersionOf(Exec(file, ops[..j]), name) else 0)
  }

  lemma FirstVersion(file: File, name: string)
    requires Good(file) && Find(Records(file), name).Some?
    ensures VersionOf(file, name) >= 1
  {
    assert CleanUser(Records(file)[IndexOf(Records(file), name)]);
  }

  /**
   * Once a run has changed an account's version, a token issued before stays invalid for the
   * rest of the run. Only a run long enough to take the counter all the way round, 2^64 - 1
   * changes because zero is skipped, could make it valid again.
   */
  lemma {:induction false} TokensStayRevoked(file: File, ops: seq<(Op, Env)>, name: string, version: Word64, i: nat)
    requires Good(file) && TokenValid(file, name, version) && NeverDeletes(ops, name)
    requires i <= |ops| < U64 - 1
    requires Exec(file, ops[..i]).Accounts? && VersionOf(Exec(file, ops[..i]), name) != version
    ensures Exec(file, ops).Accounts? && !TokenValid(Exec(file, ops), name, version)
  {
    RecordKept(file, ops, name);
    var vs := History(file, ops, name);
    forall j | 0 <= j < |vs| - 1
      ensures Advances(vs[j], vs[j + 1])
    {
      StepVersion(file, ops, name, j);
    }
    assert ops[..0] == [] && ops[..|ops|] == ops;
    FirstVersion(file, name);
    var k := HistoryAdvances(vs, i);
    IterateLeaves(version, k);
  }

  /** The operations meant to end logins do change the version when they succeed. */
  predicate EndsLogins(u: User, op: Op) {
    || op.Revoke?
    || (op.SetPassword? && op.after)
    || (op.Update? && op.patch.enabled.Some? && op.patch.enabled.value != u.enabled)
  }

  lemma BumpReplaces(users: seq<User>, op: Op)
    requires CleanUsers(users) && (op.Revoke? || op.SetPassword? || op.Update?) && Saves(users, op)
    requires Find(users, op.name).Some? && EndsLogins(Find(users, op.name).value, op)
    ensures var after := Find(RepairAll(EditOf(users, op).users), op.name);
      after.Some? && after.value.version == NextVersion(Find(users, op.name).value.version)
  {
    var i := IndexOf(users, op.name);
    assert CleanUser(users[i]);
    var v := if op.Update? then Patched(users[i], op.patch) else Touched(users[i], op);
    assert v.name == op.name && v.version == Bump(users[i].version);
    assert EditOf(users, op).users == users[i := v];
    FindReplaced(users, i, v, op.name);
    FindRepaired(users[i := v], op.name);
  }

  lemma EndingLoginsBumps(file: File, op: Op, env: Env)
    requires Good(file) && (op.Revoke? || op.SetPassword? || op.Update?) && Precheck(op).None?
    requires Find(Records(file), op.name).Some? && EndsLogins(Find(Records(file), op.name).value, op)
    requires Saves(Records(file), op) && env.save.Fine?
    ensures Apply(file, op, env).Accounts?
    ensures VersionOf(Apply(file, op, env), op.name) != VersionOf(file, op.name)
  {
    var users := Records(file);
    ApplyCases(file, op, env);
    EditIsClean(users, op);
    WrittenIsGood(EditOf(users, op).users);
    BumpReplaces(users, op);
  }
}
