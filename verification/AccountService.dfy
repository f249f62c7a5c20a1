/** The store's own operations: load under the lock, edit the list in place, validate, save. */
module AccountService {
  import opened Wrappers
  import opened Permissions
  import opened AccountStore
  import opened AccountRuns
  import opened AccountEdits

  // The edits, as the source makes them on the loaded list.

  method CreateUser(users: seq<User>, op: Op) returns (e: Edit)
    requires op.Create?
    ensures e == CreateEdit(users, op)
  {
    var index := UserIndex(users, op.name);
    if index >= 0 {
      return Refused(Exists);
    }
    var grants := Normalize(RequestedGrants(op));
    return Save(users + [User(op.name, op.hash, op.role, true, op.version, grants, false, false)]);
  }

  /** The patch is applied field by field, noticing whether anything changed. */
  method PatchUser(before: User, patch: Patch) returns (user: User, changed: bool)
    ensures user == Patched(before, patch)
    ensures changed <==> user != before
  {
    var granted := before.grants;
    if patch.grants.Some? {
      granted := CarryOverLoop(Normalize(patch.grants.value), before.grants);
    }
    user, changed := before, false;
    var invalidated := false;
    if patch.role.Some? && user.role != patch.role.value {
      user, changed := user.(role := patch.role.value), true;
    }
    if patch.enabled.Some? && user.enabled != patch.enabled.value {
      user, changed, invalidated := user.(enabled := patch.enabled.value), true, true;
    }
    if patch.grants.Some? && !PermissionsEqual(before.grants, granted) {
      assert granted != before.grants;
      user, changed := user.(grants := granted), true;
    }
    if invalidated {
      user := user.(version := Bump(user.version));
    }
  }

  method UpdateUser(users: seq<User>, actor: string, name: string, patch: Patch) returns (e: Edit)
    ensures e == UpdateEdit(users, actor, name, patch)
  {
    var index := UserIndex(users, name);
    if index < 0 {
      return Refused(NotFound);
    }
    var u := users[index];
    if patch.role.Some? && patch.role.value.Unknown? {
      return Refused(BadRole);
    }
    if patch.grants.Some? && !ValidGrants(patch.grants.value) {
      return Refused(BadGrants);
    }
    if actor == name && u.role.Admin? && Demotes(patch) {
      return Refused(SelfModification);
    }
    if u.owner && Demotes(patch) {
      return Refused(OwnerAccount);
    }
    var user, changed := PatchUser(u, patch);
    if !changed {
      return NoChange;
    }
    var edited := users[index := user];
    var admins := CountEnabledAdmins(edited);
    return if admins == 0 then Refused(LastAdmin) else Save(edited);
  }

  method DeleteUser(users: seq<User>, name: string) returns (e: Edit)
    ensures e == DeleteEdit(users, name)
  {
    var index := UserIndex(users, name);
    if index < 0 {
      return Refused(NotFound);
    }
    if users[index].owner {
      return Refused(OwnerAccount);
    }
    var rest := users[..index] + users[index + 1..];
    var admins := CountEnabledAdmins(rest);
    return if admins == 0 then Refused(LastAdmin) else Save(rest);
  }

  /** Password changes and revocations. */
  method TouchUser(users: seq<User>, name: string, op: Op) returns (e: Edit)
    ensures e == TouchEdit(users, name, op)
  {
    var index := UserIndex(users, name);
    if index < 0 {
      return Refused(NotFound);
    }
    if op.UpgradePassword? && !users[index].enabled {
      return NoChange;
    }
    return Save(users[index := Touched(users[index], op)]);
  }

  method EditUsers(users: seq<User>, op: Op) returns (e: Edit)
    ensures e == EditOf(users, op)
  {
    match op {
      case Create(_, _, _, _, _, _) => e := CreateUser(users, op);
      case Update(actor, name, patch) => e := UpdateUser(users, actor, name, patch);
      case Delete(_, name) => e := DeleteUser(users, name);
      case SetPassword(name, _, _, _) => e := TouchUser(users, name, op);
      case UpgradePassword(name, _) => e := TouchUser(users, name, op);
      case Revoke(name) => e := TouchUser(users, name, op);
    }
  }

  class Store {
    /** What is on disk; nothing is cached between operations. */
    var file: File

    constructor (file: File)
      ensures this.file == file
    {
      this.file := file;
    }

    method SaveLocked(users: seq<User>, io: Io) returns (ok: bool)
      modifies this
      ensures file == Saved(old(file), users, io)
      ensures ok <==> SaveOk(users, io)
    {
      var valid := ValidateDatabase(users);
      if valid.Err? {
        return false;
      }
      if io.FailsBefore? {
        return false;
      }
      var mirror := SyncLegacyAccount(valid.value);
      file := Accounts(1, Stored(valid.value),
        if mirror.Some? then mirror.value.name else "", if mirror.Some? then mirror.value.hash else "");
      return io.Fine?;
    }

    method LoadLocked(env: Env) returns (r: Option<seq<User>>)
      modifies this
      ensures r.Some? <==> Opens(old(file), env)
      ensures r.Some? ==> Load(old(file), env.supply) == Ok(r.value)
      ensures file ==
        if Load(old(file), env.supply).Err? then old(file)
        else Migrated(old(file), Load(old(file), env.supply).value, env)
    {
      var loaded := Load(file, env.supply);
      if loaded.Err? {
        return None;
      }
      if !file.Accounts? {
        var ok := SaveLocked(loaded.value, env.migrate);
        return if ok then Some(loaded.value) else None;
      }
      return Some(loaded.value);
    }

    /** Saves an edit; a password the system side then refuses is saved back. */
    method Commit(users: seq<User>, op: Op, env: Env) returns (err: Option<Error>)
      modifies this
      ensures file == Committed(old(file), users, op, env)
      ensures err == CommitAnswer(users, op, env)
    {
      var e := EditUsers(users, op);
      match e {
        case Refused(error) => return Some(error);
        case NoChange => return None;
        case Save(edited) =>
          var ok := SaveLocked(edited, env.save);
          if !ok {
            return Some(Disk);
          }
          if op.SetPassword? && !op.after {
            var _ := SaveLocked(users, env.rollback);
            return Some(SystemPassword);
          }
          return None;
      }
    }

    /** One operation of any kind, from the checks made before the lock to the last save. */
    method Run(op: Op, env: Env) returns (err: Option<Error>)
      modifies this
      ensures file == Apply(old(file), op, env)
      ensures err == Answer(old(file), op, env)
    {
      var bad := Precheck(op);
      if bad.Some? {
        return bad;
      }
      var users := LoadLocked(env);
      if users.None? {
        return Some(BadFile);
      }
      err := Commit(users.value, op, env);
    }
  }
}
