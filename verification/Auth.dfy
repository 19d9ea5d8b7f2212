/**
  Sign-in, refresh, sign-out, people and API keys, as steps on the stored records.

  Each request is one step, and store calls succeed. Ids are drawn fresh. Password,
  PIN and secret checks have already been passed by whoever makes the request.
 */
module Auth {
  import opened Options

  type Id = nat

  datatype Role = Admin | User | ReadOnly | Observer | DeviceOperator | RuleEditor | ServiceOperator | HouseholdMember

  datatype Scope =
    | DevicesRead | AutomationsRead | ScenesRead | AreasRead | ContentRead
    | DevicesWrite | DevicesCommand | ScenesRun
    | AutomationsWrite | ScenesWrite | AreasWrite | ContentWrite
    | UsersRead | UsersWrite | PluginsRead | PluginsWrite | AuditRead | ApiKeysAdmin
    | DashboardsRead | DashboardsWrite | SkinsRead | SkinsWrite

  const READ_ALL := {DevicesRead, AutomationsRead, ScenesRead, AreasRead, ContentRead}
  const AUTHORING := {AutomationsWrite, ScenesWrite, AreasWrite, ContentWrite}
  const OPERATE := {DevicesCommand, ScenesRun}
  const RETIRED := {DashboardsRead, DashboardsWrite, SkinsRead, SkinsWrite}

  function RoleScopes(role: Role): set<Scope> {
    match role
    case Admin => READ_ALL + {DevicesWrite} + OPERATE + AUTHORING
                  + {UsersRead, UsersWrite, PluginsRead, PluginsWrite, AuditRead, ApiKeysAdmin}
    case User => READ_ALL + {DevicesWrite} + OPERATE + AUTHORING
    case HouseholdMember => READ_ALL + OPERATE
    case ReadOnly => READ_ALL
    case Observer => READ_ALL + {PluginsRead, AuditRead}
    case DeviceOperator => READ_ALL + {DevicesWrite, DevicesCommand, PluginsRead, AuditRead}
    case RuleEditor => READ_ALL + {ScenesRun} + AUTHORING + {PluginsRead, AuditRead}
    case ServiceOperator => READ_ALL + {DevicesWrite} + OPERATE + AUTHORING + {AuditRead}
  }

  // ---------- Records ----------

  /** A person; the version falls behind every token minted before it was bumped. */
  datatype Account = Account(role: Role, version: nat)

  datatype RefreshToken = RefreshToken(
    user: Id, parent: Option<Id>, session: Id, used: bool, revoked: bool, expires: nat)

  datatype ApiKey = ApiKey(owner: Id, scopes: set<Scope>, display: bool, revoked: bool, expires: Option<nat>)

  /** A signed access token, as its claims read. */
  datatype AccessToken = AccessToken(uid: Id, role: Role, version: nat, session: Option<Id>, exp: nat)

  /** Token lifetimes in seconds, and how long past its expiry a token is still let through. */
  datatype Config = Config(lifetime: nat, refreshLifetime: nat, leeway: nat)

  datatype House = House(
    users: map<Id, Account>,
    tokens: map<Id, RefreshToken>,
    keys: map<Id, ApiKey>,
    ended: map<Id, nat>,
    now: nat,
    minted: set<AccessToken>,  // every access token ever handed out
    ids: set<Id>)              // every id ever drawn

  // ---------- Who is asking ----------

  datatype Caller = Person(token: AccessToken) | Key(id: Id) | LocalAdmin

  predicate Usable(t: RefreshToken, now: nat) {
    !t.used && !t.revoked && t.expires > now
  }

  predicate KeyUsable(k: ApiKey, now: nat) {
    !k.revoked && (k.expires.Some? ==> k.expires.value > now)
  }

  /** A signed token is let through until its expiry, unless its session ended or its version fell behind. */
  predicate TokenAccepted(cfg: Config, h: House, t: AccessToken) {
    && t in h.minted
    && h.now <= t.exp + cfg.leeway
    && (t.session.Some? ==> t.session.value !in h.ended)
    && t.uid in h.users
    && h.users[t.uid].version == t.version
  }

  predicate Accepted(cfg: Config, h: House, caller: Caller) {
    match caller
    case Person(t) => TokenAccepted(cfg, h, t)
    case Key(id) => id in h.keys && KeyUsable(h.keys[id], h.now)
    case LocalAdmin => true
  }

  const DISPLAY_SCOPES := READ_ALL + OPERATE

  function ClaimedScopes(cfg: Config, h: House, caller: Caller): set<Scope>
    requires Accepted(cfg, h, caller)
  {
    match caller
    case Person(t) => RoleScopes(t.role)
    case Key(id) => if h.keys[id].display then DISPLAY_SCOPES else h.keys[id].scopes
    case LocalAdmin => RoleScopes(Admin)
  }

  function CallerUid(cfg: Config, h: House, caller: Caller): Option<Id>
    requires Accepted(cfg, h, caller)
  {
    match caller
    case Person(t) => Some(t.uid)
    case Key(id) => Some(h.keys[id].owner)
    case LocalAdmin => None
  }

  predicate IsAdmin(cfg: Config, h: House, caller: Caller)
    requires Accepted(cfg, h, caller)
  {
    match caller
    case Person(t) => t.role == Admin
    case Key(_) => UsersWrite in ClaimedScopes(cfg, h, caller)
    case LocalAdmin => true
  }

  predicate ManagesAllKeys(cfg: Config, h: House, caller: Caller)
    requires Accepted(cfg, h, caller)
  {
    caller.LocalAdmin? || ApiKeysAdmin in ClaimedScopes(cfg, h, caller)
  }

  /** A key manages keys only if it was given `api_keys:admin`. */
  predicate MayManageKeys(cfg: Config, h: House, caller: Caller)
    requires Accepted(cfg, h, caller)
  {
    caller.Key? ==> ApiKeysAdmin in ClaimedScopes(cfg, h, caller)
  }

  predicate MayManageKey(cfg: Config, h: House, caller: Caller, key: ApiKey)
    requires Accepted(cfg, h, caller)
  {
    && MayManageKeys(cfg, h, caller)
    && (ManagesAllKeys(cfg, h, caller) || CallerUid(cfg, h, caller) == Some(key.owner))
  }

  /** What a key made or changed by this caller may hold: what the owner's role allows and the caller has. */
  function Grantable(cfg: Config, h: House, caller: Caller, ownerScopes: set<Scope>): set<Scope>
    requires Accepted(cfg, h, caller)
  {
    if caller.LocalAdmin? then ownerScopes else ownerScopes * ClaimedScopes(cfg, h, caller)
  }

  // ---------- Pieces of the steps ----------

  function RevokeToken(tokens: map<Id, RefreshToken>, id: Id): map<Id, RefreshToken> {
    if id in tokens then tokens[id := tokens[id].(revoked := true)] else tokens
  }

  /** Every token of a session revoked. */
  function RevokeSession(tokens: map<Id, RefreshToken>, session: Id): map<Id, RefreshToken> {
    map id | id in tokens :: if tokens[id].session == session then tokens[id].(revoked := true) else tokens[id]
  }

  /** Every unexpired token of a person revoked. */
  function RevokeAll(tokens: map<Id, RefreshToken>, uid: Id, now: nat): map<Id, RefreshToken> {
    map id | id in tokens ::
      if tokens[id].user == uid && tokens[id].expires > now then tokens[id].(revoked := true) else tokens[id]
  }

  /** The note of ended sessions: notes older than one token lifetime go, this one is added. */
  function NoteEnded(ended: map<Id, nat>, session: Id, now: nat, lifetime: nat): map<Id, nat> {
    (map s | s in ended && ended[s] + lifetime > now :: ended[s])[session := now]
  }

  /** A person's own keys brought within a role, or revoked when they are gone; displays are left alone. */
  function KeyBroughtWithin(k: ApiKey, owner: Id, role: Option<Role>): ApiKey {
    if k.owner != owner || k.display || k.revoked then k
    else match role
      case None => k.(revoked := true)
      case Some(r) => k.(scopes := k.scopes * RoleScopes(r))
  }

  function BringKeysWithin(keys: map<Id, ApiKey>, owner: Id, role: Option<Role>): map<Id, ApiKey> {
    map id | id in keys :: KeyBroughtWithin(keys[id], owner, role)
  }

  /** Whether someone is still an admin once `uid` becomes `role`, or is gone. */
  predicate KeepsAnAdmin(users: map<Id, Account>, uid: Id, role: Option<Role>) {
    exists u :: u in users && (if u == uid then role else Some(users[u].role)) == Some(Admin)
  }

  function Mint(cfg: Config, h: House, uid: Id, session: Option<Id>, ttl: nat): AccessToken
    requires uid in h.users
  {
    AccessToken(uid, h.users[uid].role, h.users[uid].version, session, h.now + ttl)
  }

  /** The version goes up and the refresh tokens go: everything signed in before is out. */
  function SignOutEverywhere(h: House, uid: Id): House
    requires uid in h.users
  {
    h.(users := h.users[uid := h.users[uid].(version := h.users[uid].version + 1)],
       tokens := RevokeAll(h.tokens, uid, h.now))
  }

  // ---------- Steps ----------

  datatype Op =
    | Pass(seconds: nat)
    | Login(uid: Id, id: Id)
    | PinSession(uid: Id, ttl: nat)
    | Refresh(token: Id, id: Id)
    | Logout(token: Id)
    | EndSession(caller: Caller, token: Id)
    | EndAllSessions(caller: Caller)
    | ChangePassword(caller: Caller)
    | SetUserPassword(caller: Caller, uid: Id)
    | CreateUser(caller: Caller, uid: Id, role: Role)
    | DeleteUser(caller: Caller, uid: Id)
    | SetUserRole(caller: Caller, uid: Id, role: Role)
    | CreateApiKey(caller: Caller, owner: Option<Id>, scopes: set<Scope>, id: Id, expires: Option<nat>)
    | UpdateApiKey(caller: Caller, key: Id, newScopes: Option<set<Scope>>)
    | RevokeApiKey(caller: Caller, key: Id)
    | RotateApiKey(caller: Caller, key: Id)
    | CreateDisplay(caller: Caller, id: Id)

  /** The id a step would store something under is one never drawn before. */
  predicate DrawsFresh(h: House, op: Op) {
    match op
    case Login(_, id) => id !in h.ids
    case Refresh(_, id) => id !in h.ids
    case CreateUser(_, uid, _) => uid !in h.ids
    case CreateApiKey(_, _, _, id, _) => id !in h.ids
    case CreateDisplay(_, id) => id !in h.ids
    case _ => true
  }

  function CallerOf(op: Op): Option<Caller> {
    match op
    case EndSession(c, _) => Some(c)
    case EndAllSessions(c) => Some(c)
    case ChangePassword(c) => Some(c)
    case SetUserPassword(c, _) => Some(c)
    case CreateUser(c, _, _) => Some(c)
    case DeleteUser(c, _) => Some(c)
    case SetUserRole(c, _, _) => Some(c)
    case CreateApiKey(c, _, _, _, _) => Some(c)
    case UpdateApiKey(c, _, _) => Some(c)
    case RevokeApiKey(c, _) => Some(c)
    case RotateApiKey(c, _) => Some(c)
    case CreateDisplay(c, _) => Some(c)
    case _ => None
  }

  function DoLogin(cfg: Config, h: House, uid: Id, id: Id): House {
    if uid !in h.users then h
    else h.(tokens := h.tokens[id := RefreshToken(uid, None, id, false, false, h.now + cfg.refreshLifetime)],
            minted := h.minted + {Mint(cfg, h, uid, Some(id), cfg.lifetime)},
            ids := h.ids + {id})
  }

  function DoRefresh(cfg: Config, h: House, token: Id, id: Id): House {
    if token !in h.tokens then h
    else
      var t := h.tokens[token];
      if t.used then
        h.(tokens := RevokeSession(h.tokens, t.session), ended := NoteEnded(h.ended, t.session, h.now, cfg.lifetime))
      else if !Usable(t, h.now) then h
      else
        var retired := h.tokens[token := t.(used := true)];
        if t.user !in h.users then h.(tokens := retired)
        else h.(tokens := retired[id := RefreshToken(t.user, Some(token), t.session, false, false,
                                                     h.now + cfg.refreshLifetime)],
                minted := h.minted + {Mint(cfg, h, t.user, Some(t.session), cfg.lifetime)},
                ids := h.ids + {id})
  }

  function DoLogout(cfg: Config, h: House, token: Id): House {
    if token !in h.tokens || !Usable(h.tokens[token], h.now) then h
    else h.(tokens := RevokeToken(h.tokens, token),
            ended := NoteEnded(h.ended, h.tokens[token].session, h.now, cfg.lifetime))
  }

  function DoEndSession(cfg: Config, h: House, caller: Caller, token: Id): House
    requires Accepted(cfg, h, caller)
  {
    if token !in h.tokens || Some(h.tokens[token].user) != CallerUid(cfg, h, caller) then h
    else h.(tokens := RevokeToken(h.tokens, token),
            ended := NoteEnded(h.ended, h.tokens[token].session, h.now, cfg.lifetime))
  }

  function DoSetUserRole(cfg: Config, h: House, caller: Caller, uid: Id, role: Role): House
    requires Accepted(cfg, h, caller)
  {
    if !IsAdmin(cfg, h, caller) || uid !in h.users || h.users[uid].role == role then h
    else if h.users[uid].role == Admin && !KeepsAnAdmin(h.users, uid, Some(role)) then h
    else h.(users := h.users[uid := Account(role, h.users[uid].version + 1)],
            tokens := RevokeAll(h.tokens, uid, h.now),
            keys := BringKeysWithin(h.keys, uid, Some(role)))
  }

  function DoDeleteUser(cfg: Config, h: House, caller: Caller, uid: Id): House
    requires Accepted(cfg, h, caller)
  {
    if !IsAdmin(cfg, h, caller) || CallerUid(cfg, h, caller) == Some(uid) then h
    else if !KeepsAnAdmin(h.users, uid, None) || uid !in h.users then h
    else h.(users := h.users - {uid},
            tokens := RevokeAll(h.tokens, uid, h.now),
            keys := BringKeysWithin(h.keys, uid, None))
  }

  /** The owner a new key gets, when one can be told. */
  function NewKeyOwner(cfg: Config, h: House, caller: Caller, owner: Option<Id>): Option<Id>
    requires Accepted(cfg, h, caller)
  {
    if owner.Some? then owner else CallerUid(cfg, h, caller)
  }

  function NewKeyScopes(cfg: Config, h: House, caller: Caller, owner: Id): Option<set<Scope>>
    requires Accepted(cfg, h, caller)
  {
    if caller.Person? && CallerUid(cfg, h, caller) == Some(owner) then Some(ClaimedScopes(cfg, h, caller))
    else if owner in h.users then Some(Grantable(cfg, h, caller, RoleScopes(h.users[owner].role)))
    else None
  }

  function DoCreateApiKey(cfg: Config, h: House, caller: Caller, owner: Option<Id>, scopes: set<Scope>, id: Id,
                          expires: Option<nat>): House
    requires Accepted(cfg, h, caller)
  {
    var uid := NewKeyOwner(cfg, h, caller, owner);
    if !MayManageKeys(cfg, h, caller) || uid.None? then h
    else if uid != CallerUid(cfg, h, caller) && !ManagesAllKeys(cfg, h, caller) then h
    else
      var allowed := NewKeyScopes(cfg, h, caller, uid.value);
      if allowed.None? || !(scopes - RETIRED <= allowed.value) then h
      else h.(keys := h.keys[id := ApiKey(uid.value, scopes - RETIRED, false, false, expires)], ids := h.ids + {id})
  }

  function DoUpdateApiKey(cfg: Config, h: House, caller: Caller, key: Id, scopes: Option<set<Scope>>): House
    requires Accepted(cfg, h, caller)
  {
    if key !in h.keys || !MayManageKey(cfg, h, caller, h.keys[key]) || scopes.None? then h
    else
      var owner := h.keys[key].owner;
      if owner !in h.users then h
      else if !(scopes.value - RETIRED <= Grantable(cfg, h, caller, RoleScopes(h.users[owner].role))) then h
      else h.(keys := h.keys[key := h.keys[key].(scopes := scopes.value - RETIRED)])
  }

  function DoRevokeApiKey(cfg: Config, h: House, caller: Caller, key: Id): House
    requires Accepted(cfg, h, caller)
  {
    if key !in h.keys || !MayManageKey(cfg, h, caller, h.keys[key]) then h
    else h.(keys := h.keys[key := h.keys[key].(revoked := true)])
  }

  /** A new secret; the stored record comes back unrevoked. */
  function DoRotateApiKey(cfg: Config, h: House, caller: Caller, key: Id): House
    requires Accepted(cfg, h, caller)
  {
    if key !in h.keys || !MayManageKey(cfg, h, caller, h.keys[key]) then h
    else h.(keys := h.keys[key := h.keys[key].(revoked := false)])
  }

  function Apply(cfg: Config, h: House, op: Op): House {
    if CallerOf(op).Some? && !Accepted(cfg, h, CallerOf(op).value) then h
    else match op
      case Pass(seconds) => h.(now := h.now + seconds)
      case Login(uid, id) => DoLogin(cfg, h, uid, id)
      case PinSession(uid, ttl) => if uid in h.users then h.(minted := h.minted + {Mint(cfg, h, uid, None, ttl)}) else h
      case Refresh(token, id) => DoRefresh(cfg, h, token, id)
      case Logout(token) => DoLogout(cfg, h, token)
      case EndSession(caller, token) => DoEndSession(cfg, h, caller, token)
      case EndAllSessions(caller) =>
        if caller.Person? then SignOutEverywhere(h, caller.token.uid) else h
      case ChangePassword(caller) =>
        var uid := CallerUid(cfg, h, caller);
        if uid.Some? && uid.value in h.users then SignOutEverywhere(h, uid.value) else h
      case SetUserPassword(caller, uid) =>
        if IsAdmin(cfg, h, caller) && uid in h.users then SignOutEverywhere(h, uid) else h
      case CreateUser(caller, uid, role) =>
        if IsAdmin(cfg, h, caller) then h.(users := h.users[uid := Account(role, 0)], ids := h.ids + {uid}) else h
      case DeleteUser(caller, uid) => DoDeleteUser(cfg, h, caller, uid)
      case SetUserRole(caller, uid, role) => DoSetUserRole(cfg, h, caller, uid, role)
      case CreateApiKey(caller, owner, scopes, id, expires) =>
        DoCreateApiKey(cfg, h, caller, owner, scopes, id, expires)
      case UpdateApiKey(caller, key, scopes) => DoUpdateApiKey(cfg, h, caller, key, scopes)
      case RevokeApiKey(caller, key) => DoRevokeApiKey(cfg, h, caller, key)
      case RotateApiKey(caller, key) => DoRotateApiKey(cfg, h, caller, key)
      case CreateDisplay(caller, id) =>
        if IsAdmin(cfg, h, caller) then
          var owner := CallerUid(cfg, h, caller);
          h.(keys := h.keys[id := ApiKey(if owner.Some? then owner.value else 0, DISPLAY_SCOPES, true, false, None)],
             ids := h.ids + {id})
        else h
  }

  /** A run: each step on what the one before left, every drawn id fresh. */
  ghost predicate IsRun(cfg: Config, run: seq<House>, ops: seq<Op>) {
    && |run| == |ops| + 1
    && forall i :: 0 <= i < |ops| ==> DrawsFresh(run[i], ops[i]) && run[i + 1] == Apply(cfg, run[i], ops[i])
  }

  /** A new house: one admin, and nothing signed in. */
  function NewHouse(admin: Id): House {
    House(map[admin := Account(Admin, 0)], map[], map[], map[], 0, {}, {admin})
  }

  /** A run grows by any step whose drawn id is fresh. */
  lemma RunGrows(cfg: Config, run: seq<House>, ops: seq<Op>, op: Op)
    requires IsRun(cfg, run, ops) && DrawsFresh(run[|ops|], op)
    ensures IsRun(cfg, run + [Apply(cfg, run[|ops|], op)], ops + [op])
  {
  }
}
