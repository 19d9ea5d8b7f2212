/**
  What every run of the sign-in steps keeps: access tokens that still work say the
  person's present role, the house has an admin, and API keys stay within their
  owner's role, unless a revoked key is rotated back to life.
 */
module AuthKeys {
  import opened Options
  import opened Auth

  /** Everything stored was drawn, and tokens are no newer than the person they name. */
  ghost predicate TokensCurrent(h: House) {
    && h.users.Keys <= h.ids && h.tokens.Keys <= h.ids && h.keys.Keys <= h.ids
    && (forall t :: t in h.minted ==> t.uid in h.ids)
    && forall t :: t in h.minted && t.uid in h.users ==>
                     && t.version <= h.users[t.uid].version
                     && (t.version == h.users[t.uid].version ==> t.role == h.users[t.uid].role)
  }

  lemma {:induction false} StepKeepsTokensCurrent(cfg: Config, h: House, op: Op)
    requires TokensCurrent(h) && DrawsFresh(h, op)
    ensures TokensCurrent(Apply(cfg, h, op))
  {
    if op.Login? || op.PinSession? || op.Refresh? {
      MintingKeepsTokensCurrent(cfg, h, op);
    } else if op.CreateUser? || op.DeleteUser? || op.SetUserRole? {
      PeopleStepsKeepTokensCurrent(cfg, h, op);
    } else {
      OtherStepsKeepTokensCurrent(cfg, h, op);
    }
  }

  lemma MintingKeepsTokensCurrent(cfg: Config, h: House, op: Op)
    requires TokensCurrent(h) && DrawsFresh(h, op) && (op.Login? || op.PinSession? || op.Refresh?)
    ensures TokensCurrent(Apply(cfg, h, op))
  {
  }

  lemma PeopleStepsKeepTokensCurrent(cfg: Config, h: House, op: Op)
    requires TokensCurrent(h) && DrawsFresh(h, op) && (op.CreateUser? || op.DeleteUser? || op.SetUserRole?)
    ensures TokensCurrent(Apply(cfg, h, op))
  {
  }

  lemma OtherStepsKeepTokensCurrent(cfg: Config, h: House, op: Op)
    requires TokensCurrent(h) && DrawsFresh(h, op)
    requires !(op.Login? || op.PinSession? || op.Refresh? || op.CreateUser? || op.DeleteUser? || op.SetUserRole?)
    ensures TokensCurrent(Apply(cfg, h, op))
  {
  }

  /** A token that is let through carries the role its holder has now. */
  lemma AcceptedTokenHasPresentRole(cfg: Config, h: House, t: AccessToken)
    requires TokensCurrent(h) && TokenAccepted(cfg, h, t)
    ensures t.uid in h.users && t.role == h.users[t.uid].role
  {
  }

  // ---------- A bumped version is for good ----------

  /** No token of this person minted so far works, or ever will. */
  predicate Outdated(h: House, t: AccessToken) {
    t.uid in h.ids && (t.uid in h.users ==> t.version < h.users[t.uid].version)
  }

  lemma OutdatedStays(cfg: Config, h: House, op: Op, t: AccessToken)
    requires TokensCurrent(h) && DrawsFresh(h, op) && Outdated(h, t)
    ensures Outdated(Apply(cfg, h, op), t)
    ensures !TokenAccepted(cfg, Apply(cfg, h, op), t)
  {
  }

  /**
    The person whose sign-ins an operation is meant to end, when it is made by someone who may
    and has something to do.
   */
  function SignsOut(cfg: Config, h: House, op: Op): Option<Id> {
    if CallerOf(op).None? || !Accepted(cfg, h, CallerOf(op).value) then None
    else match op
      case EndAllSessions(caller) => if caller.Person? then Some(caller.token.uid) else None
      case ChangePassword(caller) => CallerUid(cfg, h, caller)
      case SetUserPassword(caller, uid) => if IsAdmin(cfg, h, caller) then Some(uid) else None
      case SetUserRole(caller, uid, role) =>
        if IsAdmin(cfg, h, caller) && uid in h.users && h.users[uid].role != role
           && (h.users[uid].role == Admin ==> KeepsAnAdmin(h.users, uid, Some(role)))
        then Some(uid) else None
      case DeleteUser(caller, uid) =>
        if IsAdmin(cfg, h, caller) && CallerUid(cfg, h, caller) != Some(uid) && KeepsAnAdmin(h.users, uid, None)
        then Some(uid) else None
      case _ => None
  }

  /**
    Signing out everywhere, a new password, one set by an admin, a new role and removal
    each leave every access token the person had outdated and no refresh token of theirs usable.
   */
  lemma {:induction false} SigningOutOutdates(cfg: Config, h: House, op: Op, uid: Id)
    requires TokensCurrent(h) && DrawsFresh(h, op) && SignsOut(cfg, h, op) == Some(uid) && uid in h.users
    ensures var h' := Apply(cfg, h, op);
            && (forall t :: t in h.minted && t.uid == uid ==> Outdated(h', t) && !TokenAccepted(cfg, h', t))
            && forall id :: id in h'.tokens && h'.tokens[id].user == uid ==> !Usable(h'.tokens[id], h'.now)
  {
  }

  // ---------- The house keeps an admin ----------

  predicate HasAdmin(h: House) {
    exists u :: u in h.users && h.users[u].role == Admin
  }

  lemma {:induction false} StepKeepsAdmin(cfg: Config, h: House, op: Op)
    requires TokensCurrent(h) && DrawsFresh(h, op) && HasAdmin(h)
    ensures HasAdmin(Apply(cfg, h, op))
  {
    var h' := Apply(cfg, h, op);
    if h' != h && op.SetUserRole? {
      if h.users[op.uid].role != Admin {
        OtherAdminCounts(h, op.uid, Some(op.role));
      }
      ChangeKeepsAdmin(h, h', op.uid, Some(op.role));
    } else if h' != h && op.DeleteUser? {
      ChangeKeepsAdmin(h, h', op.uid, None);
    } else {
      OthersKeepAdmin(cfg, h, op);
    }
  }

  lemma {:induction false} OtherAdminCounts(h: House, uid: Id, role: Option<Role>)
    requires HasAdmin(h) && uid in h.users && h.users[uid].role != Admin
    ensures KeepsAnAdmin(h.users, uid, role)
  {
    var a :| a in h.users && h.users[a].role == Admin;
    assert (if a == uid then role else Some(h.users[a].role)) == Some(Admin);
  }

  /** A change of one person that left an admin by the guard's own count leaves an admin. */
  lemma {:induction false} ChangeKeepsAdmin(h: House, h': House, uid: Id, role: Option<Role>)
    requires KeepsAnAdmin(h.users, uid, role)
    requires forall u :: u in h.users && u != uid ==> u in h'.users && h'.users[u].role == h.users[u].role
    requires role.Some? && uid in h.users ==> uid in h'.users && h'.users[uid].role == role.value
    ensures HasAdmin(h')
  {
    var a :| a in h.users && (if a == uid then role else Some(h.users[a].role)) == Some(Admin);
    assert a in h'.users && h'.users[a].role == Admin;
  }

  lemma {:induction false} OthersKeepAdmin(cfg: Config, h: House, op: Op)
    requires TokensCurrent(h) && DrawsFresh(h, op) && HasAdmin(h)
    requires op.SetUserRole? || op.DeleteUser? ==> Apply(cfg, h, op) == h
    ensures HasAdmin(Apply(cfg, h, op))
  {
    var u :| u in h.users && h.users[u].role == Admin;
    assert u in Apply(cfg, h, op).users && Apply(cfg, h, op).users[u].role == Admin;
  }

  /** From a house with one admin, over any run, there is always an admin. */
  lemma {:induction false} RunKeepsAdmin(cfg: Config, run: seq<House>, ops: seq<Op>, n: nat)
    requires IsRun(cfg, run, ops) && n <= |ops|
    requires TokensCurrent(run[0]) && HasAdmin(run[0])
    ensures TokensCurrent(run[n]) && HasAdmin(run[n])
  {
    if n > 0 {
      RunKeepsAdmin(cfg, run, ops, n - 1);
      StepKeepsTokensCurrent(cfg, run[n - 1], ops[n - 1]);
      StepKeepsAdmin(cfg, run[n - 1], ops[n - 1]);
    }
  }

  // ---------- Keys within their owner's role ----------

  predicate KeyWithin(h: House, k: ApiKey) {
    !k.display && !k.revoked ==> k.owner in h.users && k.scopes <= RoleScopes(h.users[k.owner].role)
  }

  ghost predicate KeysWithin(h: House) {
    forall id :: id in h.keys ==> KeyWithin(h, h.keys[id])
  }

  /** Rotating this key would hand out scopes its owner no longer has: what to look for before the call. */
  predicate RevivesBeyondOwner(cfg: Config, h: House, op: Op) {
    && op.RotateApiKey?
    && Accepted(cfg, h, op.caller)
    && op.key in h.keys
    && MayManageKey(cfg, h, op.caller, h.keys[op.key])
    && h.keys[op.key].revoked
    && !KeyWithin(h, h.keys[op.key].(revoked := false))
  }

  lemma RoleChangeKeepsKeysWithin(h: House, h': House, uid: Id, role: Option<Role>)
    requires KeysWithin(h) && h'.keys == BringKeysWithin(h.keys, uid, role)
    requires forall u :: u != uid && u in h.users ==> u in h'.users && h'.users[u].role == h.users[u].role
    requires role.Some? ==> uid in h'.users && h'.users[uid].role == role.value
    ensures KeysWithin(h')
  {
  }

  lemma {:induction false} NewKeyIsWithin(cfg: Config, h: House, caller: Caller, owner: Id, scopes: set<Scope>)
    requires TokensCurrent(h) && Accepted(cfg, h, caller)
    requires NewKeyScopes(cfg, h, caller, owner).Some? && scopes <= NewKeyScopes(cfg, h, caller, owner).value
    ensures owner in h.users && scopes <= RoleScopes(h.users[owner].role)
  {
  }

  /** A step keeps every key within its owner's role exactly when it does not revive one that is beyond it. */
  lemma {:induction false} StepKeepsKeysWithin(cfg: Config, h: House, op: Op)
    requires TokensCurrent(h) && DrawsFresh(h, op) && KeysWithin(h)
    ensures KeysWithin(Apply(cfg, h, op)) <==> !RevivesBeyondOwner(cfg, h, op)
  {
    if CallerOf(op).Some? && !Accepted(cfg, h, CallerOf(op).value) {
      return;
    }
    if op.CreateApiKey? || op.UpdateApiKey? || op.RevokeApiKey? || op.CreateDisplay? {
      KeyStepsKeepWithin(cfg, h, op);
    } else if op.RotateApiKey? {
      RotationKeepsWithinIff(cfg, h, op.caller, op.key);
    } else if op.SetUserRole? || op.DeleteUser? {
      PeopleStepsKeepWithin(cfg, h, op);
    } else {
      OthersKeepWithin(cfg, h, op);
    }
  }

  lemma {:induction false} KeyStepsKeepWithin(cfg: Config, h: House, op: Op)
    requires TokensCurrent(h) && DrawsFresh(h, op) && KeysWithin(h)
    requires op.CreateApiKey? || op.UpdateApiKey? || op.RevokeApiKey? || op.CreateDisplay?
    requires Accepted(cfg, h, op.caller)
    ensures KeysWithin(Apply(cfg, h, op))
  {
    if op.CreateApiKey? && Apply(cfg, h, op) != h {
      NewKeyIsWithin(cfg, h, op.caller, NewKeyOwner(cfg, h, op.caller, op.owner).value, op.scopes - RETIRED);
    }
  }

  lemma {:induction false} RotationKeepsWithinIff(cfg: Config, h: House, caller: Caller, key: Id)
    requires KeysWithin(h) && Accepted(cfg, h, caller)
    ensures KeysWithin(DoRotateApiKey(cfg, h, caller, key)) <==> !RevivesBeyondOwner(cfg, h, RotateApiKey(caller, key))
  {
    var h' := DoRotateApiKey(cfg, h, caller, key);
    if RevivesBeyondOwner(cfg, h, RotateApiKey(caller, key)) {
      assert !KeyWithin(h', h'.keys[key]);
    }
  }

  lemma {:induction false} PeopleStepsKeepWithin(cfg: Config, h: House, op: Op)
    requires KeysWithin(h) && (op.SetUserRole? || op.DeleteUser?) && Accepted(cfg, h, op.caller)
    ensures KeysWithin(Apply(cfg, h, op))
  {
    var h' := Apply(cfg, h, op);
    if h' != h {
      RoleChangeKeepsKeysWithin(h, h', op.uid, if op.SetUserRole? then Some(op.role) else None);
    }
  }

  lemma OthersKeepWithin(cfg: Config, h: House, op: Op)
    requires TokensCurrent(h) && DrawsFresh(h, op) && KeysWithin(h)
    requires !(op.CreateApiKey? || op.UpdateApiKey? || op.RevokeApiKey? || op.CreateDisplay? || op.RotateApiKey?)
    requires !(op.SetUserRole? || op.DeleteUser?)
    ensures KeysWithin(Apply(cfg, h, op))
  {
  }

  /** Over a whole run without such a rotation, no key ever does more than its owner may. */
  lemma {:induction false} RunKeepsKeysWithin(cfg: Config, run: seq<House>, ops: seq<Op>, n: nat)
    requires IsRun(cfg, run, ops) && n <= |ops|
    requires TokensCurrent(run[0]) && KeysWithin(run[0])
    requires forall i :: 0 <= i < n ==> !RevivesBeyondOwner(cfg, run[i], ops[i])
    ensures TokensCurrent(run[n]) && KeysWithin(run[n])
  {
    if n > 0 {
      RunKeepsKeysWithin(cfg, run, ops, n - 1);
      StepKeepsTokensCurrent(cfg, run[n - 1], ops[n - 1]);
      StepKeepsKeysWithin(cfg, run[n - 1], ops[n - 1]);
    }
  }

  /** So a key that is let through acts within the role its owner has now. */
  lemma AcceptedKeyIsWithinOwner(cfg: Config, h: House, id: Id)
    requires KeysWithin(h) && Accepted(cfg, h, Key(id)) && !h.keys[id].display
    ensures h.keys[id].owner in h.users
    ensures ClaimedScopes(cfg, h, Key(id)) <= RoleScopes(h.users[h.keys[id].owner].role)
  {
  }

  // ---------- Such a rotation is reached ----------

  /** A person is added and signs in. */
  lemma {:induction false} SignsIn(cfg: Config) returns (run: seq<House>, ops: seq<Op>)
    ensures IsRun(cfg, run, ops) && run[0] == NewHouse(0) && |ops| == 2
    ensures run[2] == House(map[0 := Account(Admin, 0), 1 := Account(User, 0)],
                            map[2 := RefreshToken(1, None, 2, false, false, cfg.refreshLifetime)], map[], map[], 0,
                            {AccessToken(1, User, 0, Some(2), cfg.lifetime)}, {0, 1, 2})
  {
    run, ops := [NewHouse(0)], [];
    var op := CreateUser(LocalAdmin, 1, User);
    RunGrows(cfg, run, ops, op);
    run, ops := run + [Apply(cfg, run[0], op)], ops + [op];
    op := Login(1, 2);
    RunGrows(cfg, run, ops, op);
    run, ops := run + [Apply(cfg, run[1], op)], ops + [op];
  }

  /** They make themselves a key that may write to devices. */
  lemma {:induction false} MakesKey(cfg: Config) returns (run: seq<House>, ops: seq<Op>)
    ensures IsRun(cfg, run, ops) && run[0] == NewHouse(0) && |ops| == 3
    ensures var h := run[3];
            && h.users == map[0 := Account(Admin, 0), 1 := Account(User, 0)] && h.ended == map[] && h.now == 0
            && h.keys == map[3 := ApiKey(1, {DevicesWrite}, false, false, None)] && h.ids == {0, 1, 2, 3}
            && AccessToken(1, User, 0, Some(2), cfg.lifetime) in h.minted
  {
    var token := AccessToken(1, User, 0, Some(2), cfg.lifetime);
    run, ops := SignsIn(cfg);
    assert TokenAccepted(cfg, run[2], token);
    var op := CreateApiKey(Person(token), None, {DevicesWrite}, 3, None);
    assert DevicesWrite in RoleScopes(User) && DevicesWrite !in RETIRED;
    assert {DevicesWrite} - RETIRED == {DevicesWrite};
    RunGrows(cfg, run, ops, op);
    run, ops := run + [Apply(cfg, run[2], op)], ops + [op];
  }

  /** They revoke it. */
  lemma {:induction false} RevokesKey(cfg: Config) returns (run: seq<House>, ops: seq<Op>)
    ensures IsRun(cfg, run, ops) && run[0] == NewHouse(0) && |ops| == 4
    ensures var h := run[4];
            && h.users == map[0 := Account(Admin, 0), 1 := Account(User, 0)] && h.ended == map[] && h.now == 0
            && h.keys == map[3 := ApiKey(1, {DevicesWrite}, false, true, None)] && h.ids == {0, 1, 2, 3}
  {
    var token := AccessToken(1, User, 0, Some(2), cfg.lifetime);
    run, ops := MakesKey(cfg);
    var op := RevokeApiKey(Person(token), 3);
    assert TokenAccepted(cfg, run[3], token);
    RunGrows(cfg, run, ops, op);
    run, ops := run + [Apply(cfg, run[3], op)], ops + [op];
  }

  /** Then their role is narrowed. */
  lemma {:induction false} RevokedAndNarrowed(cfg: Config) returns (run: seq<House>, ops: seq<Op>)
    ensures IsRun(cfg, run, ops) && run[0] == NewHouse(0) && |ops| == 5
    ensures var h := run[5];
            && h.users == map[0 := Account(Admin, 0), 1 := Account(ReadOnly, 1)] && h.ended == map[] && h.now == 0
            && h.keys == map[3 := ApiKey(1, {DevicesWrite}, false, true, None)] && h.ids == {0, 1, 2, 3}
  {
    run, ops := RevokesKey(cfg);
    var op := SetUserRole(LocalAdmin, 1, ReadOnly);
    RunGrows(cfg, run, ops, op);
    run, ops := run + [Apply(cfg, run[4], op)], ops + [op];
  }

  /**
    Such a rotation happens: a person revokes a key of theirs, their role is narrowed,
    they sign in again and rotate the key, and it comes back with a scope they no longer have.
   */
  lemma {:induction false} RotationCanReviveBeyondOwner(cfg: Config) returns (run: seq<House>, ops: seq<Op>)
    ensures IsRun(cfg, run, ops) && run[0] == NewHouse(0) && |ops| == 7
    ensures TokensCurrent(run[6]) && KeysWithin(run[6]) && RevivesBeyondOwner(cfg, run[6], ops[6])
    ensures !KeysWithin(run[7])
  {
    run, ops := RevokedAndNarrowed(cfg);
    var op := Login(1, 4);
    RunGrows(cfg, run, ops, op);
    run, ops := run + [Apply(cfg, run[5], op)], ops + [op];
    var token := AccessToken(1, ReadOnly, 1, Some(4), cfg.lifetime);
    assert TokenAccepted(cfg, run[6], token);
    op := RotateApiKey(Person(token), 3);
    assert DevicesWrite !in RoleScopes(ReadOnly);
    RunGrows(cfg, run, ops, op);
    RunKeepsAdminAndTokens(cfg, run, ops, 6);
    assert RevivesBeyondOwner(cfg, run[6], op);
    StepKeepsKeysWithin(cfg, run[6], op);
    run, ops := run + [Apply(cfg, run[6], op)], ops + [op];
  }

  lemma {:induction false} RunKeepsAdminAndTokens(cfg: Config, run: seq<House>, ops: seq<Op>, n: nat)
    requires IsRun(cfg, run, ops) && run[0] == NewHouse(0) && n <= |ops|
    ensures TokensCurrent(run[n]) && HasAdmin(run[n])
  {
    assert HasAdmin(run[0]) by { assert 0 in run[0].users; }
    RunKeepsAdmin(cfg, run, ops, n);
  }
}
