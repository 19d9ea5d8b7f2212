/**
  The request handlers and the stores behind them, updating records in place; each is
  proved to do what its step in module Auth says.
 */
module AuthService {
  import opened Options
  import opened Auth
  import opened AuthSessions

  /** No token of the person was made from one in the set without being in it. */
  predicate Complete(tokens: Tokens, user: Id, found: set<Id>) {
    forall id :: id in tokens && tokens[id].user == user && tokens[id].parent.Some? ==>
                   tokens[id].parent.value in found ==> id in found
  }

  class Server {
    const cfg: Config
    var users: map<Id, Account>
    var tokens: map<Id, RefreshToken>
    var keys: map<Id, ApiKey>
    var ended: map<Id, nat>
    var now: nat
    ghost var minted: set<AccessToken>
    ghost var ids: set<Id>

    ghost function View(): House
      reads this
    {
      House(users, tokens, keys, ended, now, minted, ids)
    }

    constructor (cfg: Config, admin: Id)
      ensures this.cfg == cfg
      ensures View() == NewHouse(admin)
    {
      this.cfg := cfg;
      users, tokens, keys, ended, now := map[admin := Account(Admin, 0)], map[], map[], map[], 0;
      minted, ids := {}, {admin};
    }

    // ---------- Sweeps over the stores ----------

    method RevokeRefresh(id: Id) returns (found: bool)
      modifies this`tokens
      ensures tokens == RevokeToken(old(tokens), id)
      ensures found <==> id in old(tokens)
    {
      if id !in tokens {
        return false;
      }
      if !tokens[id].revoked {
        tokens := tokens[id := tokens[id].(revoked := true)];
      }
      return true;
    }

    /** Every live token of the person goes; dead ones are skipped and not counted. */
    method RevokeAllSessions(uid: Id) returns (revoked: nat)
      modifies this`tokens
      ensures tokens == RevokeAll(old(tokens), uid, now)
      ensures revoked == |set id | id in old(tokens) && old(tokens)[id] != tokens[id]|
    {
      var all := set id | id in tokens && tokens[id].user == uid;
      var left := all;
      ghost var done: set<Id> := {};
      revoked := 0;
      while left != {}
        invariant left <= all && tokens.Keys == old(tokens).Keys
        invariant forall id :: id in tokens ==>
                    tokens[id] == if id in all - left then RevokeAll(old(tokens), uid, now)[id] else old(tokens)[id]
        invariant done == (set id | id in old(tokens) && old(tokens)[id] != tokens[id]) && revoked == |done|
        invariant done !! left
        decreases left
      {
        var id :| id in left;
        left := left - {id};
        if !tokens[id].revoked && tokens[id].expires > now {
          var _ := RevokeRefresh(id);
          done := done + {id};
          revoked := revoked + 1;
        }
      }
    }

    /** The owner's own unrevoked keys are narrowed to the role, or revoked when they are gone. */
    method BringKeysWithinRole(owner: Id, role: Option<Role>)
      modifies this`keys
      ensures keys == BringKeysWithin(old(keys), owner, role)
    {
      var all := set id | id in keys && keys[id].owner == owner && !keys[id].display && !keys[id].revoked;
      var left := all;
      while left != {}
        invariant left <= all && keys.Keys == old(keys).Keys
        invariant forall id :: id in keys ==>
                    keys[id] == if id in all - left then KeyBroughtWithin(old(keys)[id], owner, role) else old(keys)[id]
        decreases left
      {
        var id :| id in left;
        left := left - {id};
        var _ := BringKeyWithinRole(id, role);
      }
    }

    method BringKeyWithinRole(id: Id, role: Option<Role>) returns (changed: bool)
      requires id in keys && !keys[id].display && !keys[id].revoked
      modifies this`keys
      ensures keys == old(keys)[id := KeyBroughtWithin(old(keys)[id], old(keys)[id].owner, role)]
      ensures changed <==> keys[id] != old(keys)[id]
    {
      var key := keys[id];
      match role {
        case None =>
          keys := keys[id := key.(revoked := true)];
          return true;
        case Some(r) =>
          var kept := key.scopes * RoleScopes(r);
          if kept == key.scopes {
            return false;
          }
          keys := keys[id := key.(scopes := kept)];
          return true;
      }
    }

    method StillHasAdmin(uid: Id, role: Option<Role>) returns (kept: bool)
      ensures kept <==> KeepsAnAdmin(users, uid, role)
    {
      var left := users.Keys;
      while left != {}
        invariant left <= users.Keys
        invariant forall u :: u in users.Keys - left ==> (if u == uid then role else Some(users[u].role)) != Some(Admin)
        decreases left
      {
        var u :| u in left;
        if (if u == uid then role else Some(users[u].role)) == Some(Admin) {
          return true;
        }
        left := left - {u};
      }
      return false;
    }

    method NoteSessionEnded(session: Id)
      modifies this`ended
      ensures ended == NoteEnded(old(ended), session, now, cfg.lifetime)
    {
      ended := map s | s in ended && ended[s] + cfg.lifetime > now :: ended[s];
      ended := ended[session := now];
    }

    // ---------- Chain revocation ----------

    /** From any token up to the first of its session. */
    method CollectAncestors(anyId: Id, ghost c: seq<Id>) returns (found: set<Id>)
      requires anyId in tokens && IsChain(tokens, tokens[anyId].session, c)
      ensures c[0] in found && forall id :: id in found ==> id in c
    {
      found := {};
      var cursor := Some(anyId);
      ghost var at: int :| 0 <= at < |c| && c[at] == anyId;
      while cursor.Some? && cursor.value in tokens
        invariant -1 <= at < |c|
        invariant cursor == if at < 0 then None else Some(c[at])
        invariant at >= 0 ==> c[at] in tokens
        invariant at < 0 ==> c[0] in found
        invariant forall id :: id in found ==> id in c
        decreases at
      {
        assert Link(tokens, tokens[anyId].session, c, at);
        found := found + {cursor.value};
        cursor := tokens[cursor.value].parent;
        at := at - 1;
      }
    }

    /** One pass over the person's tokens, adding those made from one already found. */
    method AddChildren(user: Id, found: set<Id>) returns (more: set<Id>)
      ensures found <= more
      ensures forall id :: id in more - found ==>
                id in tokens && tokens[id].parent.Some? && tokens[id].parent.value in more
      ensures more == found ==> Complete(tokens, user, found)
    {
      more := found;
      var all := set id | id in tokens && tokens[id].user == user;
      var left := all;
      while left != {}
        invariant left <= all && found <= more
        invariant forall id :: id in more - found ==>
                  id in tokens && tokens[id].parent.Some? && tokens[id].parent.value in more
        invariant more == found ==>
                    forall id :: id in all - left && tokens[id].parent.Some? && tokens[id].parent.value in found ==>
                                   id in found
        decreases left
      {
        var id :| id in left;
        left := left - {id};
        if id !in more && tokens[id].parent.Some? && tokens[id].parent.value in more {
          more := more + {id};
        }
      }
    }

    /**
      Walking up to the first token and then down through every descendant, pass after
      pass, revokes the whole session: no token of it is missed and no other is touched.
     */
    method RevokeChain(anyId: Id)
      requires Chained(tokens)
      modifies this`tokens
      ensures anyId !in old(tokens) ==> tokens == old(tokens)
      ensures anyId in old(tokens) ==> tokens == RevokeSession(old(tokens), old(tokens)[anyId].session)
    {
      if anyId !in tokens {
        return;
      }
      ghost var session := tokens[anyId].session;
      assert HasChain(tokens, session);
      ghost var c :| IsChain(tokens, session, c);
      ghost var mine := set id | id in tokens && tokens[id].session == session;
      ChainIsSession(tokens, session, c);
      var found := CollectAncestors(anyId, c);
      var grew := true;
      while grew
        invariant tokens == old(tokens) && c[0] in found && found <= mine
        invariant !grew ==> Complete(tokens, tokens[anyId].user, found)
        decreases mine - found, grew
      {
        var more := AddChildren(tokens[anyId].user, found);
        ChildrenShareSession(tokens, session, found, more);
        grew := more != found;
        found := more;
      }
      ClosedUnderChildren(tokens, session, c, tokens[anyId].user, found);
      RevokeEach(found);
    }

    method RevokeEach(found: set<Id>)
      requires found <= tokens.Keys
      modifies this`tokens
      ensures tokens == map id | id in old(tokens) ::
                          if id in found then old(tokens)[id].(revoked := true) else old(tokens)[id]
    {
      var left := found;
      while left != {}
        invariant left <= found && tokens.Keys == old(tokens).Keys
        invariant forall id :: id in tokens ==>
                    tokens[id] == if id in found - left then old(tokens)[id].(revoked := true) else old(tokens)[id]
        decreases left
      {
        var id :| id in left;
        var _ := RevokeRefresh(id);
        left := left - {id};
      }
    }

    // ---------- Handlers ----------

    method HandleLogin(uid: Id, id: Id) returns (access: Option<AccessToken>)
      requires DrawsFresh(View(), Login(uid, id))
      modifies this
      ensures View() == DoLogin(cfg, old(View()), uid, id)
      ensures access.Some? <==> uid in old(users)
      ensures access.Some? ==> access.value in minted && access.value.session == Some(id)
    {
      if uid !in users {
        return None;
      }
      tokens := tokens[id := RefreshToken(uid, None, id, false, false, now + cfg.refreshLifetime)];
      var token := AccessToken(uid, users[uid].role, users[uid].version, Some(id), now + cfg.lifetime);
      minted, ids := minted + {token}, ids + {id};
      return Some(token);
    }

    method HandleRefresh(token: Id, id: Id) returns (access: Option<AccessToken>)
      requires Chained(tokens) && DrawsFresh(View(), Refresh(token, id))
      modifies this
      ensures View() == DoRefresh(cfg, old(View()), token, id)
      ensures access.Some? <==>
                token in old(tokens) && Usable(old(tokens)[token], now) && old(tokens)[token].user in users
      ensures access.Some? ==> access.value in minted && access.value.session == Some(old(tokens)[token].session)
    {
      if token !in tokens {
        return None;
      }
      if tokens[token].used {
        var session := tokens[token].session;
        RevokeChain(token);
        NoteSessionEnded(session);
        return None;
      }
      if tokens[token].revoked || tokens[token].expires <= now {
        return None;
      }
      access := Rotate(token, id);
    }

    /** A usable token is retired; if its person still exists, the next one and an access token are made. */
    method Rotate(token: Id, id: Id) returns (access: Option<AccessToken>)
      requires token in tokens && Usable(tokens[token], now)
      modifies this
      ensures View() == DoRefresh(cfg, old(View()), token, id)
      ensures access.Some? <==> old(tokens)[token].user in users
      ensures access.Some? ==> access.value in minted && access.value.session == Some(old(tokens)[token].session)
    {
      var t := tokens[token];
      tokens := tokens[token := t.(used := true)];
      if t.user !in users {
        return None;
      }
      tokens := tokens[id := RefreshToken(t.user, Some(token), t.session, false, false, now + cfg.refreshLifetime)];
      var person := users[t.user];
      var minting := AccessToken(t.user, person.role, person.version, Some(t.session), now + cfg.lifetime);
      minted, ids := minted + {minting}, ids + {id};
      return Some(minting);
    }

    method HandleLogout(token: Id)
      modifies this`tokens, this`ended
      ensures View() == DoLogout(cfg, old(View()), token)
    {
      if token in tokens && Usable(tokens[token], now) {
        var session := tokens[token].session;
        var _ := RevokeRefresh(token);
        NoteSessionEnded(session);
      }
    }

    /** Also a new password, the person's own or set by an admin: the version goes up, the refresh tokens go. */
    method HandleSignOutEverywhere(uid: Id) returns (revoked: nat)
      requires uid in users
      modifies this`users, this`tokens
      ensures View() == SignOutEverywhere(old(View()), uid)
    {
      users := users[uid := users[uid].(version := users[uid].version + 1)];
      revoked := RevokeAllSessions(uid);
    }

    method HandleSetUserRole(caller: Caller, uid: Id, role: Role) returns (ok: bool)
      requires Accepted(cfg, View(), caller)
      modifies this`users, this`tokens, this`keys
      ensures View() == DoSetUserRole(cfg, old(View()), caller, uid, role)
      ensures ok ==> uid in users && users[uid].role == role
    {
      var admin := CallerIsAdmin(caller);
      if !admin || uid !in users {
        return false;
      }
      var before := users[uid].role;
      if before == role {
        return true;
      }
      if before == Admin {
        var kept := StillHasAdmin(uid, Some(role));
        if !kept {
          return false;
        }
      }
      users := users[uid := Account(role, users[uid].version + 1)];
      var _ := RevokeAllSessions(uid);
      BringKeysWithinRole(uid, Some(role));
      return true;
    }

    method HandleDeleteUser(caller: Caller, uid: Id) returns (ok: bool)
      requires Accepted(cfg, View(), caller)
      modifies this`users, this`tokens, this`keys
      ensures View() == DoDeleteUser(cfg, old(View()), caller, uid)
      ensures ok ==> uid !in users
    {
      var admin := CallerIsAdmin(caller);
      var self := CallerIs(caller, uid);
      if !admin || self {
        return false;
      }
      var kept := StillHasAdmin(uid, None);
      if !kept || uid !in users {
        return false;
      }
      users := users - {uid};
      var _ := RevokeAllSessions(uid);
      BringKeysWithinRole(uid, None);
      return true;
    }

    method HandleEndSession(caller: Caller, token: Id) returns (ok: bool)
      requires Accepted(cfg, View(), caller)
      modifies this`tokens, this`ended
      ensures View() == DoEndSession(cfg, old(View()), caller, token)
      ensures ok <==> token in old(tokens) && CallerUid(cfg, old(View()), caller) == Some(old(tokens)[token].user)
    {
      if token !in tokens {
        return false;
      }
      var own := CallerIs(caller, tokens[token].user);
      if !own {
        return false;
      }
      var session := tokens[token].session;
      var _ := RevokeRefresh(token);
      NoteSessionEnded(session);
      return true;
    }

    // ---------- API keys ----------

    method CallerScopes(caller: Caller) returns (scopes: set<Scope>)
      requires Accepted(cfg, View(), caller)
      ensures scopes == ClaimedScopes(cfg, View(), caller)
    {
      match caller
      case Person(t) => return RoleScopes(t.role);
      case Key(id) => return if keys[id].display then DISPLAY_SCOPES else keys[id].scopes;
      case LocalAdmin => return RoleScopes(Admin);
    }

    /** Whether the caller may make, change or remove keys of this owner. */
    method CallerManages(caller: Caller, owner: Id) returns (ok: bool)
      requires Accepted(cfg, View(), caller)
      ensures ok <==> MayManageKeys(cfg, View(), caller)
                      && (ManagesAllKeys(cfg, View(), caller) || CallerUid(cfg, View(), caller) == Some(owner))
    {
      var scopes := CallerScopes(caller);
      if caller.Key? && ApiKeysAdmin !in scopes {
        return false;
      }
      var own := CallerIs(caller, owner);
      return own || caller.LocalAdmin? || ApiKeysAdmin in scopes;
    }

    method ScopesFor(caller: Caller, owner: Id) returns (allowed: Option<set<Scope>>)
      requires Accepted(cfg, View(), caller)
      ensures allowed == NewKeyScopes(cfg, View(), caller, owner)
    {
      var own := CallerIs(caller, owner);
      var scopes := CallerScopes(caller);
      if caller.Person? && own {
        return Some(scopes);
      }
      if owner !in users {
        return None;
      }
      var role := RoleScopes(users[owner].role);
      return Some(if caller.LocalAdmin? then role else role * scopes);
    }

    method HandleCreateApiKey(caller: Caller, owner: Option<Id>, scopes: set<Scope>, id: Id,
                              expires: Option<nat>) returns (ok: bool)
      requires Accepted(cfg, View(), caller)
      modifies this`keys, this`ids
      ensures View() == DoCreateApiKey(cfg, old(View()), caller, owner, scopes, id, expires)
      ensures !ok ==> View() == old(View())
    {
      var uid := owner;
      if uid.None? {
        match caller
        case Person(t) => uid := Some(t.uid);
        case Key(k) => uid := Some(keys[k].owner);
        case LocalAdmin =>
      }
      if uid.None? {
        return false;
      }
      var may := CallerManages(caller, uid.value);
      if !may {
        return false;
      }
      var allowed := ScopesFor(caller, uid.value);
      var kept := scopes - RETIRED;
      if allowed.None? || !(kept <= allowed.value) {
        return false;
      }
      keys, ids := keys[id := ApiKey(uid.value, kept, false, false, expires)], ids + {id};
      return true;
    }

    method HandleUpdateApiKey(caller: Caller, key: Id, scopes: Option<set<Scope>>) returns (ok: bool)
      requires Accepted(cfg, View(), caller)
      modifies this`keys
      ensures View() == DoUpdateApiKey(cfg, old(View()), caller, key, scopes)
      ensures !ok ==> View() == old(View())
    {
      if key !in keys || scopes.None? {
        return false;
      }
      var may := CallerManages(caller, keys[key].owner);
      if !may || keys[key].owner !in users {
        return false;
      }
      var allowed := RoleScopes(users[keys[key].owner].role);
      if !caller.LocalAdmin? {
        var own := CallerScopes(caller);
        allowed := allowed * own;
      }
      var kept := scopes.value - RETIRED;
      if !(kept <= allowed) {
        return false;
      }
      keys := keys[key := keys[key].(scopes := kept)];
      return true;
    }

    method HandleRevokeApiKey(caller: Caller, key: Id) returns (ok: bool)
      requires Accepted(cfg, View(), caller)
      modifies this`keys
      ensures View() == DoRevokeApiKey(cfg, old(View()), caller, key)
      ensures ok ==> key in keys && keys[key].revoked
    {
      if key !in keys {
        return false;
      }
      var may := CallerManages(caller, keys[key].owner);
      if may {
        keys := keys[key := keys[key].(revoked := true)];
      }
      return may;
    }

    /** The secret is replaced, and with it the mark that the key was revoked goes. */
    method HandleRotateApiKey(caller: Caller, key: Id) returns (ok: bool)
      requires Accepted(cfg, View(), caller)
      modifies this`keys
      ensures View() == DoRotateApiKey(cfg, old(View()), caller, key)
      ensures ok ==> key in keys && !keys[key].revoked
    {
      if key !in keys {
        return false;
      }
      var may := CallerManages(caller, keys[key].owner);
      if may {
        keys := keys[key := keys[key].(revoked := false)];
      }
      return may;
    }

    // ---------- Who is asking ----------

    method CallerIsAdmin(caller: Caller) returns (admin: bool)
      requires Accepted(cfg, View(), caller)
      ensures admin == IsAdmin(cfg, View(), caller)
    {
      match caller
      case Person(t) => return t.role == Admin;
      case Key(id) => return UsersWrite in if keys[id].display then DISPLAY_SCOPES else keys[id].scopes;
      case LocalAdmin => return true;
    }

    method CallerIs(caller: Caller, uid: Id) returns (same: bool)
      requires Accepted(cfg, View(), caller)
      ensures same <==> CallerUid(cfg, View(), caller) == Some(uid)
    {
      match caller
      case Person(t) => return t.uid == uid;
      case Key(id) => return keys[id].owner == uid;
      case LocalAdmin => return false;
    }
  }

  // ---------- Why chain revocation is exact ----------

  lemma {:induction false} ChainIsSession(tokens: Tokens, session: Id, c: seq<Id>)
    requires IsChain(tokens, session, c)
    ensures forall id :: id in c <==> id in tokens && tokens[id].session == session
  {
    forall i | 0 <= i < |c| ensures c[i] in tokens && tokens[c[i]].session == session {
      assert Link(tokens, session, c, i);
    }
  }

  lemma {:induction false} ChildrenShareSession(tokens: Tokens, session: Id, found: set<Id>, more: set<Id>)
    requires Chained(tokens) && found <= more
    requires forall id :: id in found ==> id in tokens && tokens[id].session == session
    requires forall id :: id in more - found ==>
              id in tokens && tokens[id].parent.Some? && tokens[id].parent.value in more
    ensures forall id :: id in more ==> id in tokens && tokens[id].session == session
  {
    forall id | id in more - found ensures tokens[id].session == session {
      DescendsFrom(tokens, session, found, more, id);
    }
  }

  /** Following parents from a found descendant comes to one found earlier, as chains are finite. */
  lemma {:induction false} DescendsFrom(tokens: Tokens, session: Id, found: set<Id>, more: set<Id>, id: Id)
    requires Chained(tokens)
    requires forall x :: x in found ==> x in tokens && tokens[x].session == session
    requires forall x :: x in more - found ==> x in tokens && tokens[x].parent.Some? && tokens[x].parent.value in more
    requires id in more && id in tokens
    ensures tokens[id].session == session
  {
    var own := tokens[id].session;
    assert HasChain(tokens, own);
    var c :| IsChain(tokens, own, c);
    var i :| 0 <= i < |c| && c[i] == id;
    DescendsAlong(tokens, session, found, more, own, c, i);
  }

  lemma {:induction false} DescendsAlong(tokens: Tokens, session: Id, found: set<Id>, more: set<Id>, own: Id,
                                         c: seq<Id>, i: nat)
    requires IsChain(tokens, own, c) && i < |c| && c[i] in more
    requires forall x :: x in found ==> x in tokens && tokens[x].session == session
    requires forall x :: x in more - found ==> x in tokens && tokens[x].parent.Some? && tokens[x].parent.value in more
    ensures own == session
  {
    assert Link(tokens, own, c, i);
    if c[i] !in found {
      DescendsAlong(tokens, session, found, more, own, c, i - 1);
    }
  }

  lemma {:induction false} ReachedAlong(tokens: Tokens, session: Id, c: seq<Id>, user: Id, found: set<Id>, i: nat)
    requires IsChain(tokens, session, c) && i < |c| && c[0] in found && c[0] in tokens && tokens[c[0]].user == user
    requires Complete(tokens, user, found)
    ensures c[i] in found && c[i] in tokens && tokens[c[i]].user == user
  {
    assert Link(tokens, session, c, i);
    if i > 0 {
      ReachedAlong(tokens, session, c, user, found, i - 1);
    }
  }

  lemma {:induction false} SameUser(tokens: Tokens, session: Id, c: seq<Id>, i: nat)
    requires IsChain(tokens, session, c) && i < |c|
    ensures c[0] in tokens && c[i] in tokens && tokens[c[i]].user == tokens[c[0]].user
  {
    assert Link(tokens, session, c, i) && Link(tokens, session, c, 0);
    if i > 0 {
      SameUser(tokens, session, c, i - 1);
    }
  }

  /** Nothing left to add means the whole session was found. */
  lemma {:induction false} ClosedUnderChildren(tokens: Tokens, session: Id, c: seq<Id>, user: Id, found: set<Id>)
    requires IsChain(tokens, session, c) && c[0] in found
    requires exists id :: id in tokens && tokens[id].session == session && tokens[id].user == user
    requires forall id :: id in found ==> id in tokens && tokens[id].session == session
    requires Complete(tokens, user, found)
    ensures forall id :: id in tokens ==> (id in found <==> tokens[id].session == session)
  {
    var x :| x in tokens && tokens[x].session == session && tokens[x].user == user;
    var k :| 0 <= k < |c| && c[k] == x;
    SameUser(tokens, session, c, k);
    forall id | id in tokens && tokens[id].session == session ensures id in found {
      var i :| 0 <= i < |c| && c[i] == id;
      ReachedAlong(tokens, session, c, user, found, i);
    }
  }
}
