/**
  Sessions: the refresh tokens of one sign-in form a chain in which only the last can
  still be used, presenting a used one ends the session, and an ended session's access
  tokens stay out.
 */
module AuthSessions {
  import opened Options
  import opened Auth
  import opened AuthKeys

  type Tokens = map<Id, RefreshToken>

  /** The `i`-th token of a chain: made from the one before it, and used unless it is the last. */
  predicate Link(tokens: Tokens, session: Id, c: seq<Id>, i: nat)
    requires i < |c|
  {
    && c[i] in tokens
    && tokens[c[i]].session == session
    && (i == 0 ==> tokens[c[i]].parent == None)
    && (i > 0 ==>
              tokens[c[i]].parent == Some(c[i - 1]) && c[i - 1] in tokens && tokens[c[i]].user == tokens[c[i - 1]].user)
    && (i < |c| - 1 ==> tokens[c[i]].used)
  }

  /** `c` is the session's tokens, oldest first. */
  ghost predicate IsChain(tokens: Tokens, session: Id, c: seq<Id>) {
    && c != [] && c[0] == session
    && (forall i :: 0 <= i < |c| ==> Link(tokens, session, c, i))
    && (forall i, j :: 0 <= i < j < |c| ==> c[i] != c[j])
    && (forall id :: id in tokens && tokens[id].session == session ==> id in c)
  }

  ghost predicate HasChain(tokens: Tokens, session: Id) {
    exists c :: IsChain(tokens, session, c)
  }

  /** Every stored token belongs to such a chain. */
  ghost predicate Chained(tokens: Tokens) {
    forall id :: id in tokens ==> HasChain(tokens, tokens[id].session)
  }

  // ---------- Every step keeps the chains ----------

  /** Tokens are only ever marked: same ids, same links, and what was used stays used. */
  ghost predicate OnlyMarked(tokens: Tokens, tokens': Tokens) {
    && tokens.Keys == tokens'.Keys
    && forall id :: id in tokens ==>
                      && tokens'[id].session == tokens[id].session
                      && tokens'[id].parent == tokens[id].parent
                      && tokens'[id].user == tokens[id].user
                      && (tokens[id].used ==> tokens'[id].used)
                      && (tokens[id].revoked ==> tokens'[id].revoked)
  }

  lemma {:induction false} MarkingKeepsChained(tokens: Tokens, tokens': Tokens)
    requires Chained(tokens) && OnlyMarked(tokens, tokens')
    ensures Chained(tokens')
  {
    forall id | id in tokens' ensures HasChain(tokens', tokens'[id].session) {
      assert HasChain(tokens, tokens[id].session);
      var c :| IsChain(tokens, tokens[id].session, c);
      forall i | 0 <= i < |c| ensures Link(tokens', tokens[id].session, c, i) {
        assert Link(tokens, tokens[id].session, c, i);
      }
      assert IsChain(tokens', tokens[id].session, c);
    }
  }

  lemma {:induction false} OtherChainStays(tokens: Tokens, tokens': Tokens, session: Id)
    requires HasChain(tokens, session)
    requires forall id :: id in tokens && tokens[id].session == session ==> id in tokens' && tokens'[id] == tokens[id]
    requires forall id :: id in tokens' && tokens'[id].session == session ==>
              id in tokens && tokens[id].session == session
    ensures HasChain(tokens', session)
  {
    var c :| IsChain(tokens, session, c);
    forall i | 0 <= i < |c| ensures Link(tokens', session, c, i) {
      assert Link(tokens, session, c, i);
      assert i > 0 ==> Link(tokens, session, c, i - 1);
    }
    assert IsChain(tokens', session, c);
  }

  lemma {:induction false} LoginKeepsChained(tokens: Tokens, id: Id, t: RefreshToken)
    requires Chained(tokens) && id !in tokens && t.session == id && t.parent == None
    ensures Chained(tokens[id := t])
  {
    var tokens' := tokens[id := t];
    SessionIsStored(tokens, id);
    assert IsChain(tokens', id, [id]) by {
      assert Link(tokens', id, [id], 0);
    }
    forall x | x in tokens' ensures HasChain(tokens', tokens'[x].session) {
      if x != id {
        assert tokens[x].session != id;
        OtherChainStays(tokens, tokens', tokens[x].session);
      }
    }
  }

  /** A session's id is that of its first token, so an id not stored is no session. */
  lemma {:induction false} SessionIsStored(tokens: Tokens, session: Id)
    requires Chained(tokens)
    ensures (exists x :: x in tokens && tokens[x].session == session) ==> session in tokens
  {
    if x :| x in tokens && tokens[x].session == session {
      assert HasChain(tokens, tokens[x].session);
      var c :| IsChain(tokens, tokens[x].session, c);
      assert Link(tokens, session, c, 0);
    }
  }

  /** Only the last of the chain can be unused. */
  lemma {:induction false} UnusedIsLast(tokens: Tokens, session: Id, c: seq<Id>, id: Id)
    requires IsChain(tokens, session, c) && id in tokens && tokens[id].session == session && !tokens[id].used
    ensures id == c[|c| - 1]
  {
    var i :| 0 <= i < |c| && c[i] == id;
    assert Link(tokens, session, c, i);
  }

  /** Trading in the last token puts the new one after it. */
  lemma {:induction false} ChainGrows(tokens: Tokens, session: Id, c: seq<Id>, drawn: Id, t: RefreshToken)
    requires IsChain(tokens, session, c) && drawn !in tokens && c[|c| - 1] in tokens
    requires t.session == session && t.parent == Some(c[|c| - 1]) && t.user == tokens[c[|c| - 1]].user
    ensures var last := c[|c| - 1];
            HasChain(tokens[last := tokens[last].(used := true)][drawn := t], session)
  {
    var last, c' := c[|c| - 1], c + [drawn];
    var tokens' := tokens[last := tokens[last].(used := true)][drawn := t];
    forall i | 0 <= i < |c'| ensures Link(tokens', session, c', i) {
      if i < |c| {
        assert Link(tokens, session, c, i);
      }
    }
    forall i | 0 <= i < |c| ensures c[i] in tokens {
      assert Link(tokens, session, c, i);
    }
    assert IsChain(tokens', session, c');
  }

  lemma {:induction false} RotationKeepsChained(tokens: Tokens, id: Id, drawn: Id, t: RefreshToken)
    requires Chained(tokens) && id in tokens && !tokens[id].used && drawn !in tokens
    requires t.session == tokens[id].session && t.parent == Some(id) && t.user == tokens[id].user
    ensures Chained(tokens[id := tokens[id].(used := true)][drawn := t])
  {
    var tokens' := tokens[id := tokens[id].(used := true)][drawn := t];
    var session := tokens[id].session;
    assert HasChain(tokens, session);
    var grown :| IsChain(tokens, session, grown);
    UnusedIsLast(tokens, session, grown, id);
    ChainGrows(tokens, session, grown, drawn, t);
    forall x | x in tokens' ensures HasChain(tokens', tokens'[x].session) {
      if tokens'[x].session != session {
        OtherChainStays(tokens, tokens', tokens[x].session);
      }
    }
  }

  /** Apart from signing in and refreshing, a step only marks tokens and mints none that names a session. */
  lemma {:induction false} OtherStepsOnlyMark(cfg: Config, h: House, op: Op)
    requires !op.Login? && !op.Refresh?
    ensures OnlyMarked(h.tokens, Apply(cfg, h, op).tokens)
    ensures h.minted <= Apply(cfg, h, op).minted
    ensures forall t :: t in Apply(cfg, h, op).minted && t.session.Some? ==> t in h.minted
  {
    if EndsSessions(op) {
      EndingOnlyMarks(cfg, h, op);
    } else {
      RestLeavesTokens(cfg, h, op);
    }
  }

  /** The steps that may end sessions. */
  predicate EndsSessions(op: Op) {
    || op.Logout? || op.EndSession? || op.EndAllSessions? || op.ChangePassword? || op.SetUserPassword?
    || op.DeleteUser? || op.SetUserRole?
  }

  lemma RevokingOnlyMarks(tokens: Tokens, id: Id, uid: Id, now: nat)
    ensures OnlyMarked(tokens, RevokeToken(tokens, id)) && OnlyMarked(tokens, RevokeAll(tokens, uid, now))
  {
  }

  /** What such a step does to the stored tokens: nothing, or one of two revocations. */
  lemma EndingRevokes(cfg: Config, h: House, op: Op) returns (id: Id, uid: Id)
    requires EndsSessions(op)
    ensures var tokens := Apply(cfg, h, op).tokens;
            tokens == h.tokens || tokens == RevokeToken(h.tokens, id) || tokens == RevokeAll(h.tokens, uid, h.now)
    ensures Apply(cfg, h, op).minted == h.minted
  {
    id, uid := 0, 0;
    match op {
      case Logout(token) => id := token;
      case EndSession(_, token) => id := token;
      case EndAllSessions(caller) => uid := if caller.Person? then caller.token.uid else 0;
      case ChangePassword(caller) =>
        var own := if Accepted(cfg, h, caller) then CallerUid(cfg, h, caller) else None;
        uid := if own.Some? then own.value else 0;
      case SetUserPassword(_, who) => uid := who;
      case DeleteUser(_, who) => uid := who;
      case SetUserRole(_, who, _) => uid := who;
    }
  }

  lemma {:induction false} EndingOnlyMarks(cfg: Config, h: House, op: Op)
    requires EndsSessions(op)
    ensures OnlyMarked(h.tokens, Apply(cfg, h, op).tokens) && Apply(cfg, h, op).minted == h.minted
  {
    var id, uid := EndingRevokes(cfg, h, op);
    RevokingOnlyMarks(h.tokens, id, uid, h.now);
  }

  lemma RestLeavesTokens(cfg: Config, h: House, op: Op)
    requires !EndsSessions(op) && !op.Login? && !op.Refresh?
    ensures Apply(cfg, h, op).tokens == h.tokens && h.minted <= Apply(cfg, h, op).minted
    ensures forall t :: t in Apply(cfg, h, op).minted && t.session.Some? ==> t in h.minted
  {
  }

  /** A refresh marks tokens, or retires one unused token and puts a new one after it. */
  lemma RefreshMarksOrRotates(cfg: Config, h: House, token: Id, id: Id)
    ensures var h' := DoRefresh(cfg, h, token, id);
            || (OnlyMarked(h.tokens, h'.tokens) && h'.minted == h.minted)
            || (&& token in h.tokens && Usable(h.tokens[token], h.now) && h.tokens[token].user in h.users
                && h'.tokens == h.tokens[token := h.tokens[token].(used := true)]
                                [id := RefreshToken(h.tokens[token].user, Some(token), h.tokens[token].session,
                                                    false, false,
                                                    h.now + cfg.refreshLifetime)]
                && h'.minted == h.minted
                                + {Mint(cfg, h, h.tokens[token].user, Some(h.tokens[token].session), cfg.lifetime)})
  {
  }

  lemma {:induction false} StepKeepsChained(cfg: Config, h: House, op: Op)
    requires TokensCurrent(h) && DrawsFresh(h, op) && Chained(h.tokens)
    ensures Chained(Apply(cfg, h, op).tokens)
  {
    var h' := Apply(cfg, h, op);
    if op.Login? {
      if h' != h {
        LoginKeepsChained(h.tokens, op.id, h'.tokens[op.id]);
      }
    } else if op.Refresh? {
      RefreshMarksOrRotates(cfg, h, op.token, op.id);
      if OnlyMarked(h.tokens, h'.tokens) {
        MarkingKeepsChained(h.tokens, h'.tokens);
      } else {
        RotationKeepsChained(h.tokens, op.token, op.id, h'.tokens[op.id]);
      }
    } else {
      OtherStepsOnlyMark(cfg, h, op);
      MarkingKeepsChained(h.tokens, h'.tokens);
    }
  }

  // ---------- Closed sessions ----------

  /** No token of the session can be traded in any more. */
  ghost predicate Closed(tokens: Tokens, session: Id) {
    forall id :: id in tokens && tokens[id].session == session ==> tokens[id].used || tokens[id].revoked
  }

  /** A closed session stays closed, and no access token naming it is minted again. */
  lemma {:induction false} ClosedStays(cfg: Config, h: House, op: Op, session: Id)
    requires TokensCurrent(h) && DrawsFresh(h, op) && Chained(h.tokens)
    requires session in h.tokens && Closed(h.tokens, session)
    ensures session in Apply(cfg, h, op).tokens && Closed(Apply(cfg, h, op).tokens, session)
    ensures forall t :: t in Apply(cfg, h, op).minted && t.session == Some(session) ==> t in h.minted
  {
    if op.Refresh? {
      RefreshMarksOrRotates(cfg, h, op.token, op.id);
    } else if !op.Login? {
      OtherStepsOnlyMark(cfg, h, op);
    }
  }

  /** Presenting any used token of a session closes it: whoever holds the latest one is out too. */
  lemma ReuseCloses(cfg: Config, h: House, token: Id, drawn: Id)
    requires token in h.tokens && h.tokens[token].used
    ensures Closed(Apply(cfg, h, Refresh(token, drawn)).tokens, h.tokens[token].session)
  {
  }

  /** From whatever point of a run a session is closed, it stays so to the end, and mints nothing more. */
  lemma {:induction false} ClosedForGood(cfg: Config, run: seq<House>, ops: seq<Op>, session: Id, a: nat, n: nat)
    requires IsRun(cfg, run, ops) && a <= n <= |ops|
    requires TokensCurrent(run[a]) && Chained(run[a].tokens)
    requires session in run[a].tokens && Closed(run[a].tokens, session)
    ensures TokensCurrent(run[n]) && Chained(run[n].tokens)
    ensures session in run[n].tokens && Closed(run[n].tokens, session)
    ensures forall t :: t in run[n].minted && t.session == Some(session) ==> t in run[a].minted
  {
    if a < n {
      ClosedForGood(cfg, run, ops, session, a, n - 1);
      StepKeepsTokensCurrent(cfg, run[n - 1], ops[n - 1]);
      StepKeepsChained(cfg, run[n - 1], ops[n - 1]);
      ClosedStays(cfg, run[n - 1], ops[n - 1], session);
    }
  }

  /** Revoking an unused token closes its session: being unused, it was the last of the chain. */
  lemma {:induction false} RevokingUnusedCloses(tokens: Tokens, token: Id)
    requires Chained(tokens) && token in tokens && !tokens[token].used
    ensures Closed(RevokeToken(tokens, token), tokens[token].session)
  {
    var session := tokens[token].session;
    assert HasChain(tokens, session);
    var c :| IsChain(tokens, session, c);
    forall id | id in tokens && tokens[id].session == session && !tokens[id].used ensures id == token {
      UnusedIsLast(tokens, session, c, id);
      UnusedIsLast(tokens, session, c, token);
    }
  }

  lemma {:induction false} LogoutCloses(cfg: Config, h: House, token: Id)
    requires Chained(h.tokens) && token in h.tokens && Usable(h.tokens[token], h.now)
    ensures Closed(Apply(cfg, h, Logout(token)).tokens, h.tokens[token].session)
  {
    RevokingUnusedCloses(h.tokens, token);
  }

  /**
    Ending a session by one of its tokens closes it exactly when that token is unused, or
    the session was closed already: an already used one leaves a live session open.
   */
  lemma {:induction false} EndSessionCloses(cfg: Config, h: House, caller: Caller, token: Id)
    requires Chained(h.tokens)
    requires Accepted(cfg, h, caller) && token in h.tokens && Some(h.tokens[token].user) == CallerUid(cfg, h, caller)
    ensures var session := h.tokens[token].session;
            Closed(Apply(cfg, h, EndSession(caller, token)).tokens, session) <==>
            !h.tokens[token].used || Closed(h.tokens, session)
  {
    var h' := Apply(cfg, h, EndSession(caller, token));
    assert h'.tokens == RevokeToken(h.tokens, token);
    if !h.tokens[token].used {
      RevokingUnusedCloses(h.tokens, token);
    }
    assert forall id :: id in h.tokens && id != token ==> h'.tokens[id] == h.tokens[id];
  }

  /** In particular when it is one that the list of sessions shows. */
  lemma {:induction false} EndListedSessionCloses(cfg: Config, h: House, caller: Caller, token: Id)
    requires Chained(h.tokens)
    requires Accepted(cfg, h, caller) && token in h.tokens && Some(h.tokens[token].user) == CallerUid(cfg, h, caller)
    requires Usable(h.tokens[token], h.now)
    ensures Closed(Apply(cfg, h, EndSession(caller, token)).tokens, h.tokens[token].session)
  {
    RevokingUnusedCloses(h.tokens, token);
  }

  // ---------- Ended sessions stay out ----------

  /** Access tokens of a sign-in live one lifetime from when they were minted. */
  ghost predicate ExpiriesBounded(cfg: Config, h: House) {
    && (forall t :: t in h.minted && t.session.Some? ==> t.exp <= h.now + cfg.lifetime)
    && (forall s :: s in h.ended ==> h.ended[s] <= h.now)
  }

  lemma StepKeepsExpiries(cfg: Config, h: House, op: Op)
    requires ExpiriesBounded(cfg, h)
    ensures ExpiriesBounded(cfg, Apply(cfg, h, op))
  {
  }

  /** The session an accepted step notes as ended, if it does. */
  function Ends(cfg: Config, h: House, op: Op): Option<Id> {
    match op
    case Refresh(token, _) => if token in h.tokens && h.tokens[token].used then Some(h.tokens[token].session) else None
    case Logout(token) =>
      if token in h.tokens && Usable(h.tokens[token], h.now) then Some(h.tokens[token].session) else None
    case EndSession(caller, token) =>
      if Accepted(cfg, h, caller) && token in h.tokens && Some(h.tokens[token].user) == CallerUid(cfg, h, caller)
      then Some(h.tokens[token].session) else None
    case _ => None
  }

  lemma EndedAfter(cfg: Config, h: House, op: Op)
    ensures Apply(cfg, h, op).ended ==
            if Ends(cfg, h, op).Some? then NoteEnded(h.ended, Ends(cfg, h, op).value, h.now, cfg.lifetime) else h.ended
  {
  }

  /** The session is closed, and each of its access tokens is either kept out by the note or past its time. */
  ghost predicate Shut(cfg: Config, h: House, session: Id) {
    && session in h.tokens && Closed(h.tokens, session)
    && (session in h.ended ==>
          forall t :: t in h.minted && t.session == Some(session) ==> t.exp <= h.ended[session] + cfg.lifetime)
    && (session !in h.ended ==>
          forall t :: t in h.minted && t.session == Some(session) ==> h.now > t.exp + cfg.leeway)
  }

  lemma ShutKeepsOut(cfg: Config, h: House, session: Id, t: AccessToken)
    requires Shut(cfg, h, session) && t.session == Some(session)
    ensures !TokenAccepted(cfg, h, t)
  {
  }

  /** Ending a session by a step that closes it shuts it. */
  lemma {:induction false} EndingShuts(cfg: Config, h: House, op: Op, session: Id)
    requires TokensCurrent(h) && DrawsFresh(h, op) && Chained(h.tokens) && ExpiriesBounded(cfg, h)
    requires Ends(cfg, h, op) == Some(session) && Closed(Apply(cfg, h, op).tokens, session)
    ensures Shut(cfg, Apply(cfg, h, op), session)
  {
    EndedAfter(cfg, h, op);
    var token := op.token;
    assert h.tokens[token].session == session;
    SessionIsStored(h.tokens, session);
  }

  /** This step forgets the session's note while one of its access tokens would still be let through. */
  ghost predicate ForgetsTooSoon(cfg: Config, h: House, op: Op, session: Id) {
    && Ends(cfg, h, op).Some? && Ends(cfg, h, op) != Some(session)
    && session in h.ended && h.ended[session] + cfg.lifetime <= h.now
    && exists t :: t in h.minted && t.session == Some(session) && h.now <= t.exp + cfg.leeway
  }

  /** A shut session stays shut over a step exactly when the step does not forget it too soon. */
  lemma {:induction false} ShutStays(cfg: Config, h: House, op: Op, session: Id)
    requires TokensCurrent(h) && DrawsFresh(h, op) && Chained(h.tokens) && ExpiriesBounded(cfg, h)
    requires Shut(cfg, h, session)
    ensures Shut(cfg, Apply(cfg, h, op), session) <==> !ForgetsTooSoon(cfg, h, op, session)
  {
    ClosedStays(cfg, h, op, session);
    EndedAfter(cfg, h, op);
    StepsGoForward(cfg, h, op);
  }

  lemma StepsGoForward(cfg: Config, h: House, op: Op)
    ensures h.minted <= Apply(cfg, h, op).minted && h.now <= Apply(cfg, h, op).now
    ensures Ends(cfg, h, op).Some? ==> Apply(cfg, h, op).now == h.now
  {
  }

  /** What to look for before noting an end: no note is within the leeway of one lifetime old. */
  predicate NoNoteFalling(cfg: Config, h: House) {
    forall s :: s in h.ended ==> !(h.ended[s] + cfg.lifetime <= h.now <= h.ended[s] + cfg.lifetime + cfg.leeway)
  }

  /**
    Over a run that never notes an end at such a moment, a shut session's access tokens are
    never let through again.
   */
  lemma {:induction false} ShutForGood(cfg: Config, run: seq<House>, ops: seq<Op>, session: Id, a: nat, n: nat)
    requires IsRun(cfg, run, ops) && a <= n <= |ops|
    requires TokensCurrent(run[a]) && Chained(run[a].tokens) && ExpiriesBounded(cfg, run[a])
    requires Shut(cfg, run[a], session)
    requires forall i :: a <= i < n && Ends(cfg, run[i], ops[i]).Some? ==> NoNoteFalling(cfg, run[i])
    ensures TokensCurrent(run[n]) && Chained(run[n].tokens) && ExpiriesBounded(cfg, run[n])
    ensures Shut(cfg, run[n], session)
    ensures forall t: AccessToken :: t.session == Some(session) ==> !TokenAccepted(cfg, run[n], t)
  {
    if a < n {
      ShutForGood(cfg, run, ops, session, a, n - 1);
      StepKeepsTokensCurrent(cfg, run[n - 1], ops[n - 1]);
      StepKeepsChained(cfg, run[n - 1], ops[n - 1]);
      StepKeepsExpiries(cfg, run[n - 1], ops[n - 1]);
      ShutStays(cfg, run[n - 1], ops[n - 1], session);
    }
  }

  // ---------- From a new house ----------

  /** A new house satisfies all that the runs above start from. */
  lemma {:induction false} NewHouseIsSound(cfg: Config, admin: Id)
    ensures var h := NewHouse(admin);
            TokensCurrent(h) && HasAdmin(h) && KeysWithin(h) && Chained(h.tokens) && ExpiriesBounded(cfg, h)
  {
    assert admin in NewHouse(admin).users;
  }

  /** In every run of a house the refresh tokens of a session form one chain, and only its last can be unused. */
  lemma {:induction false} RunIsChained(cfg: Config, run: seq<House>, ops: seq<Op>, admin: Id, n: nat)
    requires IsRun(cfg, run, ops) && run[0] == NewHouse(admin) && n <= |ops|
    ensures TokensCurrent(run[n]) && Chained(run[n].tokens) && ExpiriesBounded(cfg, run[n])
  {
    if n == 0 {
      NewHouseIsSound(cfg, admin);
    } else {
      RunIsChained(cfg, run, ops, admin, n - 1);
      StepKeepsTokensCurrent(cfg, run[n - 1], ops[n - 1]);
      StepKeepsChained(cfg, run[n - 1], ops[n - 1]);
      StepKeepsExpiries(cfg, run[n - 1], ops[n - 1]);
    }
  }

  /**
    Once a step of a house's run has ended and closed a session, none of its access tokens
    is ever let through again, as long as no end is noted while a note is falling.
   */
  lemma {:induction false} EndedSessionStaysOut(cfg: Config, run: seq<House>, ops: seq<Op>, admin: Id, session: Id,
                                                k: nat, n: nat)
    requires IsRun(cfg, run, ops) && run[0] == NewHouse(admin) && k < n <= |ops|
    requires Ends(cfg, run[k], ops[k]) == Some(session) && Closed(run[k + 1].tokens, session)
    requires forall i :: k < i < n && Ends(cfg, run[i], ops[i]).Some? ==> NoNoteFalling(cfg, run[i])
    ensures forall t: AccessToken :: t.session == Some(session) ==> !TokenAccepted(cfg, run[n], t)
  {
    RunIsChained(cfg, run, ops, admin, k);
    RunIsChained(cfg, run, ops, admin, k + 1);
    EndingShuts(cfg, run[k], ops[k], session);
    ShutForGood(cfg, run, ops, session, k + 1, n);
  }

  // ---------- A note dropped too soon ----------

  /** A person signs in twice. */
  lemma {:induction false} SignsInTwice(cfg: Config) returns (run: seq<House>, ops: seq<Op>)
    ensures IsRun(cfg, run, ops) && run[0] == NewHouse(0) && |ops| == 3
    ensures var h := run[3];
            && h.users == map[0 := Account(Admin, 0), 1 := Account(User, 0)] && h.ended == map[] && h.now == 0
            && h.tokens == map[2 := RefreshToken(1, None, 2, false, false, cfg.refreshLifetime),
                               3 := RefreshToken(1, None, 3, false, false, cfg.refreshLifetime)]
            && AccessToken(1, User, 0, Some(2), cfg.lifetime) in h.minted
  {
    run, ops := SignsIn(cfg);
    var op := Login(1, 3);
    RunGrows(cfg, run, ops, op);
    run, ops := run + [Apply(cfg, run[2], op)], ops + [op];
  }

  /** They sign out of the first, and one token lifetime goes by. */
  lemma {:induction false} SignsOutAndWaits(cfg: Config) returns (run: seq<House>, ops: seq<Op>)
    requires cfg.refreshLifetime > cfg.lifetime
    ensures IsRun(cfg, run, ops) && run[0] == NewHouse(0) && |ops| == 5
    ensures Ends(cfg, run[3], ops[3]) == Some(2) && Closed(run[4].tokens, 2)
    ensures var h := run[5];
            && h.users == map[0 := Account(Admin, 0), 1 := Account(User, 0)] && h.ended == map[2 := 0]
            && h.now == cfg.lifetime && 3 in h.tokens && h.tokens[3].session == 3 && Usable(h.tokens[3], h.now)
            && AccessToken(1, User, 0, Some(2), cfg.lifetime) in h.minted
  {
    run, ops := SignsInTwice(cfg);
    var op := Logout(2);
    RunGrows(cfg, run, ops, op);
    run, ops := run + [Apply(cfg, run[3], op)], ops + [op];
    assert run[4].ended == map[2 := 0];
    op := Pass(cfg.lifetime);
    RunGrows(cfg, run, ops, op);
    run, ops := run + [Apply(cfg, run[4], op)], ops + [op];
  }

  /**
    With any leeway, zero included, such a moment is reached: a person signs in twice and
    out of the first; exactly one lifetime later they sign out of the second, which drops
    the first one's note while its token is at its last second, and the token is let through.
   */
  lemma {:induction false} NoteCanBeForgottenTooSoon(cfg: Config) returns (run: seq<House>, ops: seq<Op>)
    requires cfg.refreshLifetime > cfg.lifetime
    ensures IsRun(cfg, run, ops) && run[0] == NewHouse(0) && |ops| == 6
    ensures Ends(cfg, run[3], ops[3]) == Some(2) && Closed(run[4].tokens, 2)
    ensures ForgetsTooSoon(cfg, run[5], ops[5], 2)
    ensures exists t: AccessToken :: t.session == Some(2) && TokenAccepted(cfg, run[6], t)
  {
    var token := AccessToken(1, User, 0, Some(2), cfg.lifetime);
    run, ops := SignsOutAndWaits(cfg);
    var op := Logout(3);
    RunGrows(cfg, run, ops, op);
    run, ops := run + [Apply(cfg, run[5], op)], ops + [op];
    assert TokenAccepted(cfg, run[6], token);
  }
}
