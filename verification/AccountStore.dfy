/** The account file: loading, validating, editing and saving, over any sequence of operations. */
module AccountStore {
  import opened Wrappers
  import opened Permissions

  const U64: int := 0x1_0000_0000_0000_0000
  type Word64 = n: int | 0 <= n < U64

  datatype Role = Admin | Plain | Unknown(name: string)

  /** `version` is the token version, a 64-bit counter; `owner` marks the device owner. */
  datatype User = User(
    name: string, hash: string, role: Role, enabled: bool, version: Word64,
    grants: seq<Permission>, mustChange: bool, owner: bool)

  /** A user as the file spells it: the grant list may be absent. */
  datatype FileUser = FileUser(user: User, hasGrants: bool)

  datatype File =
    | Missing
    | Unreadable
    | SingleUser(name: string, hash: string)
    | Accounts(fileVersion: int, users: seq<FileUser>, mirrorName: string, mirrorHash: string)

  datatype Error =
    | BadFile | BadUser | BadName | BadRole | BadGrants | BadPassword
    | NotFound | Exists | LastAdmin | SelfModification | SelfDelete | OwnerAccount
    | Disk | SystemPassword

  /** A save can fail with the old file in place, or after the rename with the new one in place. */
  datatype Io = Fine | FailsBefore | FailsAfter

  // Validation.

  predicate NameStart(c: char) { 'A' <= c <= 'Z' || 'a' <= c <= 'z' || '0' <= c <= '9' }

  predicate ValidName(s: string) {
    && 1 <= |s| <= 32 && NameStart(s[0])
    && forall i :: 1 <= i < |s| ==> NameStart(s[i]) || s[i] == '_' || s[i] == '.' || s[i] == '-'
  }

  predicate EnabledAdmin(u: User) { u.role.Admin? && u.enabled }

  predicate ValidFields(u: User) {
    ValidName(u.name) && u.hash != "" && (u.role.Admin? || u.role.Plain?) && NoDuplicates(u.grants)
  }

  predicate ValidUser(u: User) { ValidFields(u) && (u.owner ==> EnabledAdmin(u)) }

  predicate UniqueNames(users: seq<User>) {
    forall i, j :: 0 <= i < j < |users| ==> users[i].name != users[j].name
  }

  predicate OneOwner(users: seq<User>) {
    forall i, j :: 0 <= i < j < |users| ==> !(users[i].owner && users[j].owner)
  }

  predicate HasAdmin(users: seq<User>) { exists i :: 0 <= i < |users| && EnabledAdmin(users[i]) }

  predicate ValidUsers(users: seq<User>) {
    && (forall i :: 0 <= i < |users| ==> ValidUser(users[i]))
    && UniqueNames(users) && OneOwner(users) && HasAdmin(users)
  }

  /** Validation also repairs a zero token version. */
  function Repaired(u: User): User { if u.version == 0 then u.(version := 1) else u }

  function RepairAll(users: seq<User>): (r: seq<User>)
    ensures |r| == |users| && forall i :: 0 <= i < |users| ==> r[i] == Repaired(users[i])
  {
    seq(|users|, i requires 0 <= i < |users| => Repaired(users[i]))
  }

  /** Validity does not look at token versions. */
  lemma VersionsDoNotMatter(a: seq<User>, b: seq<User>)
    requires |a| == |b| && ValidUsers(a)
    requires forall i :: 0 <= i < |a| ==> b[i] == a[i].(version := b[i].version)
    ensures ValidUsers(b)
  {
    forall i | 0 <= i < |b|
      ensures ValidUser(b[i])
    {
      assert ValidUser(a[i]);
    }
    var i :| 0 <= i < |a| && EnabledAdmin(a[i]);
    assert EnabledAdmin(b[i]);
  }

  /** The checks that look at one record alone, in the order they are reported. */
  function FieldError(u: User): (r: Option<Error>)
    ensures r.None? <==> ValidFields(u)
  {
    if !ValidName(u.name) then Some(BadName)
    else if u.hash == "" || u.role.Unknown? then Some(BadUser)
    else if !NoDuplicates(u.grants) then Some(BadGrants)
    else None
  }

  /** The counting loops of `validateDatabase` accept exactly the valid user lists. */
  method ValidateDatabase(users: seq<User>) returns (r: Result<seq<User>, Error>)
    ensures r.Ok? <==> ValidUsers(users)
    ensures r.Ok? ==> r.value == RepairAll(users)
  {
    if |users| == 0 {
      return Err(BadFile);
    }
    var seen, owners := {}, 0;
    for i := 0 to |users|
      invariant seen == set k | 0 <= k < i :: users[k].name
      invariant forall k :: 0 <= k < i ==> ValidUser(users[k])
      invariant forall j, k :: 0 <= j < k < i ==> users[j].name != users[k].name
      invariant forall j, k :: 0 <= j < k < i ==> !(users[j].owner && users[k].owner)
      invariant owners <= 1 && (owners == 1 <==> exists k :: 0 <= k < i && users[k].owner)
    {
      var u := users[i];
      var bad := FieldError(u);
      if bad.Some? {
        return Err(bad.value);
      }
      if u.name in seen {
        return Err(BadFile);
      }
      seen := seen + {u.name};
      if u.owner {
        owners := owners + 1;
        if !u.role.Admin? || !u.enabled || owners > 1 {
          return Err(OwnerAccount);
        }
      }
    }
    var admins := CountEnabledAdmins(users);
    if admins == 0 {
      return Err(LastAdmin);
    }
    return Ok(RepairAll(users));
  }

  method CountEnabledAdmins(users: seq<User>) returns (count: nat)
    ensures count > 0 <==> HasAdmin(users)
  {
    count := 0;
    for i := 0 to |users|
      invariant count > 0 <==> exists k :: 0 <= k < i && EnabledAdmin(users[k])
    {
      if EnabledAdmin(users[i]) {
        count := count + 1;
      }
    }
  }

  // Reading and writing the file.

  function Materialized(f: FileUser): User {
    f.user.(grants := if f.hasGrants then Normalize(f.user.grants) else [ConsoleView, ConsoleControl, Power])
  }

  function MaterializeAll(fs: seq<FileUser>): (r: seq<User>)
    ensures |r| == |fs| && forall i :: 0 <= i < |fs| ==> r[i] == Materialized(fs[i])
  {
    seq(|fs|, i requires 0 <= i < |fs| => Materialized(fs[i]))
  }

  /** The account an empty device or a single-user file turns into. */
  function Owner(name: string, hash: string, version: Word64, mustChange: bool): User {
    User(name, hash, Admin, true, version, [ConsoleView, ConsoleControl, Power], mustChange, true)
  }

  /** What random and hashing supply: a token version that is neither 0 nor the maximum, and a hash. */
  datatype Supply = Supply(version: Word64, hash: string, defaultPassword: bool)

  predicate SupplyOk(supply: Supply) { 0 < supply.version < U64 - 1 && supply.hash != "" }

  function Load(file: File, supply: Supply): Result<seq<User>, Error> {
    match file
    case Missing => Ok([Owner("admin", supply.hash, supply.version, true)])
    case Unreadable => Err(BadFile)
    case SingleUser(name, hash) =>
      if name == "" || hash == "" || !ValidName(name) then Err(BadFile)
      else Ok([Owner(name, hash, supply.version, supply.defaultPassword)])
    case Accounts(fileVersion, fs, _, _) =>
      var users := MaterializeAll(fs);
      if fileVersion != 1 || !ValidUsers(users) then Err(BadFile) else Ok(RepairAll(users))
  }

  /** The owner if there is one, otherwise the first enabled administrator. */
  function MirrorOf(users: seq<User>): Option<User> {
    if exists i :: 0 <= i < |users| && users[i].owner then FirstOwner(users) else FirstAdmin(users)
  }

  function FirstOwner(users: seq<User>): Option<User> {
    if users == [] then None else if users[0].owner then Some(users[0]) else FirstOwner(users[1..])
  }

  function FirstAdmin(users: seq<User>): Option<User> {
    if users == [] then None else if EnabledAdmin(users[0]) then Some(users[0]) else FirstAdmin(users[1..])
  }

  method SyncLegacyAccount(users: seq<User>) returns (mirror: Option<User>)
    ensures mirror == MirrorOf(users)
  {
    var fallback := None;
    for i := 0 to |users|
      invariant forall k :: 0 <= k < i ==> !users[k].owner
      invariant FirstOwner(users) == FirstOwner(users[i..])
      invariant FirstAdmin(users) == if fallback.Some? then fallback else FirstAdmin(users[i..])
    {
      assert users[i..][1..] == users[i + 1..];
      if users[i].owner {
        return Some(users[i]);
      }
      if fallback.None? && EnabledAdmin(users[i]) {
        fallback := Some(users[i]);
      }
    }
    return fallback;
  }

  function Stored(users: seq<User>): (r: seq<FileUser>)
    ensures |r| == |users| && forall i :: 0 <= i < |users| ==> r[i] == FileUser(users[i], true)
  {
    seq(|users|, i requires 0 <= i < |users| => FileUser(users[i], true))
  }

  function Written(users: seq<User>): File {
    var repaired := RepairAll(users);
    var m := MirrorOf(repaired);
    Accounts(1, Stored(repaired), if m.Some? then m.value.name else "", if m.Some? then m.value.hash else "")
  }

  /** `saveLocked`: refuse what does not validate, else replace the file as far as the disk lets it. */
  function Saved(file: File, users: seq<User>, io: Io): File {
    if !ValidUsers(users) || io.FailsBefore? then file else Written(users)
  }

  function SaveOk(users: seq<User>, io: Io): bool { ValidUsers(users) && io.Fine? }
}
