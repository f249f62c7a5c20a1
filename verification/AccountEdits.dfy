/**
 * What each account operation means to the accounts it leaves, told by name and without the
 * edits themselves: what the account it names becomes, that no other changes, when it goes
 * through, and what a refusal says.
 */
module AccountEdits {
  import opened Wrappers
  import opened Permissions
  import opened AccountStore
  import opened AccountRuns

  /** The grants a list of spellings stands for. */
  function Meant(grants: seq<Permission>): set<Permission> { set p, q | p in grants && q in Meaning(p) :: q }

  /** What the user role could do before accounts had lists of grants. */
  const BEFORE_LISTS := [ConsoleView, ConsoleControl, Power]

  /** What a create asks for; a plain account created without a list gets what it used to get. */
  function AskedFor(op: Op): set<Permission>
    requires op.Create?
  {
    if op.grants.Some? then Meant(op.grants.value)
    else if op.role.Plain? then Elements(BEFORE_LISTS)
    else {}
  }

  function Unknowns(grants: seq<Permission>): set<Permission> { set p | p in grants && !IsValid(p) }

  predicate Created(op: Op, v: User)
    requires op.Create?
  {
    && v.name == op.name && v.hash == op.hash && v.role == op.role && v.enabled && !v.owner && !v.mustChange
    && v.version == (if op.version == 0 then 1 else op.version)
    && NoDuplicates(v.grants) && Elements(v.grants) == AskedFor(op)
  }

  /** Every field the patch names has its value and every other is as before. */
  predicate Updated(u: User, patch: Patch, v: User) {
    && v.name == u.name && v.hash == u.hash && v.owner == u.owner && v.mustChange == u.mustChange
    && v.role == (if patch.role.Some? then patch.role.value else u.role)
    && v.enabled == (if patch.enabled.Some? then patch.enabled.value else u.enabled)
    && v.version == (if v.enabled == u.enabled then u.version else NextVersion(u.version))
    && (if patch.grants.Some? then Elements(v.grants) == Meant(patch.grants.value) + Unknowns(u.grants)
        else v.grants == u.grants)
  }

  /** What the account an operation names becomes. */
  predicate Becomes(op: Op, u: Option<User>, v: Option<User>) {
    match op
    case Create(_, _, _, _, _, _) => u.None? && v.Some? && Created(op, v.value)
    case Update(_, _, patch) => u.Some? && v.Some? && Updated(u.value, patch, v.value)
    case Delete(_, _) => u.Some? && v.None?
    case SetPassword(_, _, hash, _) =>
      u.Some? && v == Some(u.value.(hash := hash, mustChange := false, version := NextVersion(u.value.version)))
    case UpgradePassword(_, hash) => u.Some? && v == Some(u.value.(hash := hash))
    case Revoke(_) => u.Some? && v == Some(u.value.(version := NextVersion(u.value.version)))
  }

  lemma NewSpellingsMeanThemselves(s: seq<Permission>)
    requires forall p :: p in s ==> !Legacy(p)
    ensures Meant(s) == Elements(s)
  {
    forall q | q in s ensures q in Meant(s) {
      assert q in Meaning(q);
    }
  }

  lemma CreateBecomes(users: seq<User>, op: Op)
    requires CleanUsers(users) && Saves(users, op) && op.Create?
    ensures Becomes(op, Find(users, op.name), Find(RepairAll(EditOf(users, op).users), op.name))
  {
    var edited := EditOf(users, op).users;
    FindRepaired(edited, op.name);
    FindAppended(users, edited[|users|], op.name);
    NormalizeElements(RequestedGrants(op));
    NewSpellingsMeanThemselves(BEFORE_LISTS);
  }

  lemma GrantsBecome(u: User, grants: seq<Permission>)
    requires NoDuplicates(u.grants)
    ensures var granted := CarryOver(Normalize(grants), u.grants);
      && NoDuplicates(granted) && Elements(granted) == Meant(grants) + Unknowns(u.grants)
      && (PermissionsEqual(u.grants, granted) <==> Elements(u.grants) == Elements(granted))
  {
    NormalizeElements(grants);
    CarryOverElements(Normalize(grants), u.grants);
    var granted := CarryOver(Normalize(grants), u.grants);
    assert forall p :: p in Normalize(grants) <==> p in Meant(grants);
    PermissionsEqualIsSetEquality(u.grants, granted);
  }

  lemma PatchedIsUpdated(u: User, patch: Patch)
    requires CleanUser(u) && ValidUser(u)
    ensures Updated(u, patch, Repaired(Patched(u, patch)))
  {
    if patch.grants.Some? {
      PatchedGrantsMean(u, patch);
    }
  }

  lemma PatchedGrantsMean(u: User, patch: Patch)
    requires NoDuplicates(u.grants) && patch.grants.Some?
    ensures Elements(Patched(u, patch).grants) == Meant(patch.grants.value) + Unknowns(u.grants)
    ensures NoDuplicates(Patched(u, patch).grants)
  {
    GrantsBecome(u, patch.grants.value);
  }

  lemma UpdateBecomes(users: seq<User>, op: Op)
    requires CleanUsers(users) && Saves(users, op) && op.Update?
    ensures Becomes(op, Find(users, op.name), Find(RepairAll(EditOf(users, op).users), op.name))
  {
    var i := IndexOf(users, op.name);
    assert CleanUser(users[i]) && ValidUser(users[i]);
    FindReplaced(users, i, Patched(users[i], op.patch), op.name);
    FindRepaired(users[i := Patched(users[i], op.patch)], op.name);
    PatchedIsUpdated(users[i], op.patch);
  }

  lemma TouchBecomes(users: seq<User>, op: Op)
    requires CleanUsers(users) && Saves(users, op) && (op.SetPassword? || op.UpgradePassword? || op.Revoke?)
    ensures Becomes(op, Find(users, op.name), Find(RepairAll(EditOf(users, op).users), op.name))
  {
    var i := IndexOf(users, op.name);
    assert CleanUser(users[i]) && ValidUser(users[i]);
    FindReplaced(users, i, Touched(users[i], op), op.name);
    FindRepaired(users[i := Touched(users[i], op)], op.name);
  }

  lemma DeleteBecomes(users: seq<User>, op: Op)
    requires CleanUsers(users) && Saves(users, op) && op.Delete?
    ensures Becomes(op, Find(users, op.name), Find(RepairAll(EditOf(users, op).users), op.name))
  {
    FindRepaired(EditOf(users, op).users, op.name);
    FindRemoved(users, IndexOf(users, op.name), op.name);
  }

  /** No operation touches an account it does not name. */
  lemma OthersStay(users: seq<User>, op: Op, name: string)
    requires CleanUsers(users) && Saves(users, op) && name != op.name
    ensures Find(RepairAll(EditOf(users, op).users), name) == Find(users, name)
  {
    var edited := EditOf(users, op).users;
    var i, k := IndexOf(users, op.name), IndexOf(users, name);
    FindRepaired(edited, name);
    assert k >= 0 ==> CleanUser(users[k]);
    match op {
      case Create(_, _, _, _, _, _) => FindAppended(users, edited[|users|], name);
      case Delete(_, _) => FindRemoved(users, i, name);
      case Update(_, _, patch) => FindReplaced(users, i, Patched(users[i], patch), name);
      case _ => FindReplaced(users, i, Touched(users[i], op), name);
    }
  }

  predicate Outcome(users: seq<User>, op: Op, after: seq<User>, name: string) {
    if name == op.name then Becomes(op, Find(users, name), Find(after, name))
    else Find(after, name) == Find(users, name)
  }

  lemma EditBecomes(users: seq<User>, op: Op, name: string)
    requires CleanUsers(users) && Saves(users, op)
    ensures Outcome(users, op, RepairAll(EditOf(users, op).users), name)
  {
    if name != op.name {
      OthersStay(users, op, name);
    } else if op.Create? {
      CreateBecomes(users, op);
    } else if op.Delete? {
      DeleteBecomes(users, op);
    } else if op.Update? {
      UpdateBecomes(users, op);
    } else {
      TouchBecomes(users, op);
    }
  }

  // When an edit goes through.

  predicate OtherAdmin(users: seq<User>, name: string) {
    exists i :: 0 <= i < |users| && users[i].name != name && EnabledAdmin(users[i])
  }

  /** The role and state a patch asks for are those of an enabled administrator. */
  predicate LeavesAdmin(u: User, patch: Patch) {
    && (if patch.role.Some? then patch.role.value.Admin? else u.role.Admin?)
    && (if patch.enabled.Some? then patch.enabled.value else u.enabled)
  }

  /** The patch asks for something the record does not have. */
  predicate Differs(u: User, patch: Patch) {
    || (patch.role.Some? && patch.role.value != u.role)
    || (patch.enabled.Some? && patch.enabled.value != u.enabled)
    || (patch.grants.Some? && Elements(u.grants) != Meant(patch.grants.value) + Unknowns(u.grants))
  }

  predicate WellFormedPatch(patch: Patch) {
    (patch.role.Some? ==> !patch.role.value.Unknown?) && (patch.grants.Some? ==> ValidGrants(patch.grants.value))
  }

  /** Whether demoting or disabling this account is refused: to itself, and for the device owner to anyone. */
  predicate Guarded(actor: string, u: User) { u.owner || (actor == u.name && u.role.Admin?) }

  predicate Goes(users: seq<User>, op: Op) {
    var u := Find(users, op.name);
    match op
    case Create(_, _, _, _, _, _) => u.None?
    case Update(actor, _, patch) =>
      && u.Some? && WellFormedPatch(patch) && Differs(u.value, patch)
      && (Guarded(actor, u.value) ==> !Demotes(patch))
      && (LeavesAdmin(u.value, patch) || OtherAdmin(users, op.name))
    case Delete(_, _) => u.Some? && !u.value.owner && OtherAdmin(users, op.name)
    case UpgradePassword(_, _) => u.Some? && u.value.enabled
    case _ => u.Some?
  }

  lemma AdminAfterReplacing(users: seq<User>, i: nat, v: User)
    requires UniqueNames(users) && i < |users|
    ensures HasAdmin(users[i := v]) <==> EnabledAdmin(v) || OtherAdmin(users, users[i].name)
  {
    var edited := users[i := v];
    assert edited[i] == v;
    if k :| 0 <= k < |edited| && EnabledAdmin(edited[k]) {
      assert k != i ==> edited[k] == users[k];
    }
    if k :| 0 <= k < |users| && users[k].name != users[i].name && EnabledAdmin(users[k]) {
      assert edited[k] == users[k];
    }
  }

  lemma AdminAfterRemoving(users: seq<User>, i: nat)
    requires UniqueNames(users) && i < |users|
    ensures HasAdmin(users[..i] + users[i + 1..]) <==> OtherAdmin(users, users[i].name)
  {
    var edited := users[..i] + users[i + 1..];
    assert forall m :: 0 <= m < |edited| ==> edited[m] == users[if m < i then m else m + 1];
    if k :| 0 <= k < |users| && users[k].name != users[i].name && EnabledAdmin(users[k]) {
      assert edited[if k < i then k else k - 1] == users[k];
    }
  }

  lemma PatchChangesExactly(u: User, patch: Patch)
    requires CleanUser(u) && ValidUser(u)
    ensures Patched(u, patch) != u <==> Differs(u, patch)
  {
    if patch.grants.Some? {
      GrantsBecome(u, patch.grants.value);
    }
  }

  lemma UpdateGoes(users: seq<User>, op: Op)
    requires CleanUsers(users) && op.Update?
    ensures EditOf(users, op).Save? <==> Goes(users, op)
  {
    var i := IndexOf(users, op.name);
    if i >= 0 {
      assert CleanUser(users[i]) && ValidUser(users[i]);
      PatchChangesExactly(users[i], op.patch);
      AdminAfterReplacing(users, i, Patched(users[i], op.patch));
    }
  }

  /** An edit is saved exactly when nothing speaks against it. */
  lemma SavedExactlyWhen(users: seq<User>, op: Op)
    requires CleanUsers(users)
    ensures EditOf(users, op).Save? <==> Goes(users, op)
  {
    var i := IndexOf(users, op.name);
    if op.Update? {
      UpdateGoes(users, op);
    } else if op.Delete? && i >= 0 {
      AdminAfterRemoving(users, i);
    }
  }

  // And what is saved always validates.

  predicate HashOk(op: Op) {
    match op
    case Create(_, _, hash, _, _, _) => hash != ""
    case SetPassword(_, _, hash, _) => hash != ""
    case UpgradePassword(_, hash) => hash != ""
    case _ => true
  }

  lemma ReplacingValidates(users: seq<User>, i: nat, v: User)
    requires ValidUsers(users) && i < |users| && v.name == users[i].name && v.owner == users[i].owner
    requires ValidUser(v) && HasAdmin(users[i := v])
    ensures ValidUsers(users[i := v])
  {
    var edited := users[i := v];
    forall k | 0 <= k < |edited| ensures ValidUser(edited[k]) {
      assert ValidUser(users[k]);
    }
  }

  lemma AppendingValidates(users: seq<User>, v: User)
    requires ValidUsers(users) && IndexOf(users, v.name) < 0 && ValidUser(v) && !v.owner
    ensures ValidUsers(users + [v])
  {
    var edited := users + [v];
    forall k | 0 <= k < |edited| ensures ValidUser(edited[k]) {
      assert k < |users| ==> ValidUser(users[k]);
    }
    var a :| 0 <= a < |users| && EnabledAdmin(users[a]);
    assert EnabledAdmin(edited[a]);
  }

  lemma RemovingValidates(users: seq<User>, i: nat)
    requires ValidUsers(users) && i < |users| && HasAdmin(users[..i] + users[i + 1..])
    ensures ValidUsers(users[..i] + users[i + 1..])
  {
    var edited := users[..i] + users[i + 1..];
    assert forall m :: 0 <= m < |edited| ==> edited[m] == users[if m < i then m else m + 1];
    forall k | 0 <= k < |edited| ensures ValidUser(edited[k]) {
      assert ValidUser(users[if k < i then k else k + 1]);
    }
  }

  lemma PatchValidates(u: User, actor: string, patch: Patch)
    requires CleanUser(u) && ValidUser(u) && WellFormedPatch(patch) && (Guarded(actor, u) ==> !Demotes(patch))
    ensures ValidUser(Patched(u, patch))
  {
    if patch.grants.Some? {
      GrantsBecome(u, patch.grants.value);
    }
  }

  lemma TouchValidates(users: seq<User>, op: Op)
    requires CleanUsers(users) && HashOk(op) && !op.Create? && !op.Update? && !op.Delete? && EditOf(users, op).Save?
    ensures ValidUsers(EditOf(users, op).users)
  {
    var i := IndexOf(users, op.name);
    assert CleanUser(users[i]) && ValidUser(users[i]);
    AdminAfterReplacing(users, i, Touched(users[i], op));
    AdminAfterReplacing(users, i, users[i]);
    assert users[i := users[i]] == users;
    ReplacingValidates(users, i, Touched(users[i], op));
  }

  /** Past the checks and the edit, validation refuses nothing. */
  lemma EditsValidate(users: seq<User>, op: Op)
    requires CleanUsers(users) && HashOk(op) && Precheck(op).None? && EditOf(users, op).Save?
    ensures Saves(users, op)
  {
    var i := IndexOf(users, op.name);
    assert i >= 0 ==> CleanUser(users[i]) && ValidUser(users[i]);
    match op {
      case Create(_, _, _, _, _, _) =>
        NormalizeElements(RequestedGrants(op));
        AppendingValidates(users, EditOf(users, op).users[|users|]);
      case Update(actor, _, patch) =>
        PatchValidates(users[i], actor, patch);
        ReplacingValidates(users, i, Patched(users[i], patch));
      case Delete(_, _) => RemovingValidates(users, i);
      case _ => TouchValidates(users, op);
    }
  }

  // What a refusal says.

  predicate Says(users: seq<User>, op: Op, e: Error) {
    var u := Find(users, op.name);
    match e
    case Exists => op.Create? && u.Some?
    case NotFound => !op.Create? && u.None?
    case BadRole => op.Update? && op.patch.role.Some? && op.patch.role.value.Unknown?
    case BadGrants => op.Update? && op.patch.grants.Some? && !ValidGrants(op.patch.grants.value)
    case SelfModification => op.Update? && u.Some? && op.actor == op.name && u.value.role.Admin? && Demotes(op.patch)
    case OwnerAccount => u.Some? && u.value.owner && (op.Delete? || (op.Update? && Demotes(op.patch)))
    case LastAdmin =>
      && u.Some? && !OtherAdmin(users, op.name)
      && (op.Delete? || (op.Update? && !LeavesAdmin(u.value, op.patch)))
    case _ => false
  }

  lemma UpdateRefusals(users: seq<User>, op: Op)
    requires CleanUsers(users) && op.Update? && EditOf(users, op).Refused?
    ensures Says(users, op, EditOf(users, op).error)
  {
    var i := IndexOf(users, op.name);
    if i >= 0 {
      AdminAfterReplacing(users, i, Patched(users[i], op.patch));
    }
  }

  lemma RefusalsAreTrue(users: seq<User>, op: Op)
    requires CleanUsers(users) && EditOf(users, op).Refused?
    ensures Says(users, op, EditOf(users, op).error)
  {
    var i := IndexOf(users, op.name);
    if op.Update? {
      UpdateRefusals(users, op);
    } else if op.Delete? && i >= 0 {
      AdminAfterRemoving(users, i);
    }
  }

  /** What is refused before the file is read: the request itself is wrong. */
  lemma PrecheckSays(op: Op)
    ensures Precheck(op).None? <==>
      && (op.Create? ==>
            && ValidName(op.name) && !op.role.Unknown?
            && (op.grants.Some? ==> NoDuplicates(op.grants.value) && Unknowns(op.grants.value) == {}))
      && (op.Create? || op.SetPassword? ==> 8 <= op.password <= 72)
      && (op.Delete? ==> op.actor != op.name)
    ensures Precheck(op) == Some(SelfDelete) <==> op.Delete? && op.actor == op.name
  {
    if op.Create? {
      UnknownsNone(RequestedGrants(op));
      LegacyGrantsAreValid();
    }
  }

  lemma UnknownsNone(grants: seq<Permission>)
    ensures Unknowns(grants) == {} <==> forall p :: p in grants ==> IsValid(p)
  {
    if Unknowns(grants) == {} {
      forall p | p in grants ensures IsValid(p) {
        assert p !in Unknowns(grants);
      }
    }
  }

  lemma LegacyGrantsAreValid()
    ensures ValidGrants([ConsoleView, ConsoleControl, Power]) && ValidGrants([])
  {
    var ids := Ids(CATALOG);
    assert ids[0] == ConsoleView && ids[1] == ConsoleControl && ids[2] == Power;
  }

  // On the file.

  /**
   * One operation on a good file: the accounts are as they were, or exactly what the operation
   * asks for, for every name; and they are the latter whenever it goes through and the disk lets it.
   */
  lemma ApplyBecomes(file: File, op: Op, env: Env, name: string)
    requires Good(file)
    ensures Good(Apply(file, op, env))
    ensures var users, after := Records(file), Records(Apply(file, op, env));
      && (after == users || (Goes(users, op) && Outcome(users, op, after, name)))
      && (Precheck(op).None? && HashOk(op) && Goes(users, op) && env.save.Fine? && (op.SetPassword? ==> op.after) ==>
            Outcome(users, op, after, name))
  {
    var users := Records(file);
    ApplyCases(file, op, env);
    ApplyEvolves(file, op, env, name);
    SavedExactlyWhen(users, op);
    RepairFixesClean(users);
    WrittenIsGood(users);
    if Precheck(op).None? && HashOk(op) && Goes(users, op) {
      EditsValidate(users, op);
    }
    if Saves(users, op) {
      EditBecomes(users, op, name);
      EditIsClean(users, op);
      WrittenIsGood(EditOf(users, op).users);
    }
  }

  // What reading a file makes of it.

  /** What a stored list stands for; an account from before the lists keeps what it could do. */
  function StoredGrants(f: FileUser): set<Permission> {
    if f.hasGrants then Meant(f.user.grants) else Elements(BEFORE_LISTS)
  }

  /** A file is read exactly when it is missing, a whole single user, or a version 1 list that validates. */
  lemma LoadsExactlyWhen(file: File, supply: Supply)
    ensures Load(file, supply).Ok? <==>
      match file
      case Missing => true
      case Unreadable => false
      case SingleUser(name, hash) => ValidName(name) && hash != ""
      case Accounts(fileVersion, fs, _, _) => fileVersion == 1 && ValidUsers(MaterializeAll(fs))
  {
  }

  /** Names are 1 to 32 letters and digits, and after the first also dash, dot and underscore, all of ASCII. */
  lemma NamesAre(s: string)
    ensures ValidName(s) <==>
      && 1 <= |s| <= 32
      && forall i :: 0 <= i < |s| ==>
           var c := s[i] as int;
           || 48 <= c <= 57 || 65 <= c <= 90 || 97 <= c <= 122
           || (i > 0 && (c == 45 || c == 46 || c == 95))
  {
  }

  /** Every account is read as it is stored, its grants by their meaning and a zero version repaired. */
  lemma LoadKeepsAccounts(file: File, supply: Supply, i: nat)
    requires file.Accounts? && Load(file, supply).Ok? && i < |file.users|
    ensures var users, f := Load(file, supply).value, file.users[i];
      && |users| == |file.users|
      && users[i] == f.user.(grants := users[i].grants, version := if f.user.version == 0 then 1 else f.user.version)
      && Elements(users[i].grants) == StoredGrants(f)
  {
    if file.users[i].hasGrants {
      NormalizeElements(file.users[i].user.grants);
    }
  }

  /** A device without an account file, or with a single-user one, gets one account, the owner's. */
  lemma FirstAccountIsOwners(file: File, supply: Supply)
    requires !file.Accounts? && Load(file, supply).Ok?
    ensures var users := Load(file, supply).value;
      && |users| == 1 && users[0].owner && EnabledAdmin(users[0]) && users[0].version == supply.version
      && (if file.SingleUser?
          then users[0].name == file.name && users[0].hash == file.hash && users[0].mustChange == supply.defaultPassword
          else file.Missing? && users[0].name == "admin" && users[0].hash == supply.hash && users[0].mustChange)
  {
  }

  // What an operation answers.

  /** Whether the load went through, a migration's own save included. */
  predicate Opens(file: File, env: Env) {
    var users := Load(file, env.supply);
    users.Ok? && (file.Accounts? || SaveOk(users.value, env.migrate))
  }

  function CommitAnswer(users: seq<User>, op: Op, env: Env): Option<Error> {
    match EditOf(users, op)
    case Refused(error) => Some(error)
    case NoChange => None
    case Save(edited) =>
      if !SaveOk(edited, env.save) then Some(Disk)
      else if op.SetPassword? && !op.after then Some(SystemPassword)
      else None
  }

  function Answer(file: File, op: Op, env: Env): Option<Error> {
    if Precheck(op).Some? then Precheck(op)
    else if !Opens(file, env) then Some(BadFile)
    else CommitAnswer(Load(file, env.supply).value, op, env)
  }

  /** Nothing to do: the account is there, and what is asked for is what it has, or it is disabled. */
  predicate NothingToDo(users: seq<User>, op: Op) {
    var u := Find(users, op.name);
    && u.Some?
    && ((op.Update? && !Differs(u.value, op.patch)) || (op.UpgradePassword? && !u.value.enabled))
  }

  lemma NoChangeMeans(users: seq<User>, op: Op)
    requires CleanUsers(users) && EditOf(users, op).NoChange?
    ensures NothingToDo(users, op)
  {
    var i := IndexOf(users, op.name);
    assert CleanUser(users[i]) && ValidUser(users[i]);
    if op.Update? {
      PatchChangesExactly(users[i], op.patch);
    }
  }

  /** An edit that is saved had something to do. */
  lemma GoesChanges(users: seq<User>, op: Op)
    requires CleanUsers(users) && EditOf(users, op).Save?
    ensures !NothingToDo(users, op)
  {
    SavedExactlyWhen(users, op);
  }

  /**
   * What an answer says of the accounts. No error: they are what was asked for, or there was
   * nothing to do. An error of the disk: as before, or as asked for, because a save can fail after
   * the file was replaced. A password the system refused: as before if the rollback could be
   * written. Any other error: as before, and the error is true.
   */
  predicate AnswerTrue(
      users: seq<User>, op: Op, env: Env, after: seq<User>, answer: Option<Error>, name: string) {
    match answer
    case None => if NothingToDo(users, op) then after == users else Outcome(users, op, after, name)
    case Some(Disk) => !env.save.Fine? && (after == users || Outcome(users, op, after, name))
    case Some(SystemPassword) =>
      && op.SetPassword? && !op.after
      && (if env.rollback.FailsBefore? then Outcome(users, op, after, name) else after == users)
    case Some(e) => after == users && (answer == Precheck(op) || Says(users, op, e))
  }

  predicate RolledBackAfter(op: Op, env: Env) {
    env.save.Fine? && op.SetPassword? && !op.after && !env.rollback.FailsBefore?
  }

  /** The old file stays, the edit is written, or it is written and rolled back. */
  lemma SavedFile(file: File, op: Op, env: Env)
    requires Good(file) && Precheck(op).None? && Saves(Records(file), op)
    ensures Apply(file, op, env) ==
      if env.save.FailsBefore? then file
      else if RolledBackAfter(op, env) then Written(Records(file))
      else Written(EditOf(Records(file), op).users)
    ensures Answer(file, op, env) ==
      if !env.save.Fine? then Some(Disk) else if op.SetPassword? && !op.after then Some(SystemPassword) else None
  {
    GoodLoads(file, env.supply);
  }

  lemma SavedRecords(file: File, op: Op, env: Env)
    requires Good(file) && Precheck(op).None? && Saves(Records(file), op)
    ensures Good(Apply(file, op, env))
    ensures Records(Apply(file, op, env)) ==
      if env.save.FailsBefore? || RolledBackAfter(op, env) then Records(file)
      else RepairAll(EditOf(Records(file), op).users)
  {
    SavedFile(file, op, env);
    RepairFixesClean(Records(file));
    WrittenIsGood(Records(file));
    EditIsClean(Records(file), op);
    WrittenIsGood(EditOf(Records(file), op).users);
  }

  lemma SaveAnswers(file: File, op: Op, env: Env, name: string)
    requires Good(file) && HashOk(op) && Precheck(op).None? && EditOf(Records(file), op).Save?
    ensures Good(Apply(file, op, env))
    ensures AnswerTrue(Records(file), op, env, Records(Apply(file, op, env)), Answer(file, op, env), name)
  {
    var users := Records(file);
    EditsValidate(users, op);
    SavedFile(file, op, env);
    SavedRecords(file, op, env);
    EditBecomes(users, op, name);
    GoesChanges(users, op);
  }

  /** For every operation on a good file. */
  lemma AnswersAreTrue(file: File, op: Op, env: Env, name: string)
    requires Good(file) && HashOk(op)
    ensures Good(Apply(file, op, env))
    ensures AnswerTrue(Records(file), op, env, Records(Apply(file, op, env)), Answer(file, op, env), name)
  {
    var users := Records(file);
    GoodLoads(file, env.supply);
    if Precheck(op).None? {
      match EditOf(users, op) {
        case Refused(_) => RefusalsAreTrue(users, op);
        case NoChange => NoChangeMeans(users, op);
        case Save(_) => SaveAnswers(file, op, env, name);
      }
    }
  }
}
