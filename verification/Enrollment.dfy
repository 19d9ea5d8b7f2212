/**
  Plugin-runtime enrollment: a runtime asks to join, polls for an answer, and an admin
  approves or denies, over one store of records, with time passing in between.

  Each request is one step, store calls succeed, and secrets are ideal: a secret is a
  number never drawn before, and presenting it is the only way to match its hash.
 */
module Enrollment {
  import opened Basics
  import opened Options

  type Secret = nat

  datatype Status = Pending | Approved | Denied

  datatype Capabilities = Capabilities(kind: string, abi: string, arch: string)

  datatype Runtime = Runtime(
    publicKey: string,
    capabilities: Capabilities,
    status: Status,
    secret: Option<Secret>,
    apiKey: Option<Secret>,
    pluginId: Option<string>,
    denials: nat,
    cooldownUntil: Option<nat>,
    expires: Option<nat>)

  datatype EnrollToken = EnrollToken(expires: nat, used: bool)

  datatype Config = Config(
    tokenOnly: bool, maxPending: nat, maxDenials: nat, pendingTtl: nat, cooldown: nat, tokenTtl: nat)

  datatype Request = Request(runtimeId: string, publicKey: string, capabilities: Capabilities, token: Option<Secret>)

  /** What happened, oldest first; kept by the model, not by the store. */
  datatype Fact =
    | AdminApproved(id: string)
    | TokenApproved(id: string, token: Secret)
    | AdminDenied(id: string)
    | KeyIssued(id: string, key: Secret)

  datatype State = State(
    runtimes: map<string, Runtime>,
    tokens: map<Secret, EnrollToken>,
    now: nat,
    drawn: set<Secret>,
    log: seq<Fact>)

  // ---------- Decisions ----------

  predicate PendingOpen(r: Runtime, now: nat) {
    r.status == Pending && (r.expires.Some? ==> r.expires.value > now)
  }

  predicate MayRetry(r: Runtime, now: nat) {
    r.cooldownUntil.Some? ==> r.cooldownUntil.value <= now
  }

  datatype Decision = Approve | Wait | Reject

  function Decide(cfg: Config, now: nat, existing: Option<Runtime>, tokenValid: bool, pendingCount: nat): Decision {
    if existing.Some? && (!MayRetry(existing.value, now) || existing.value.denials >= cfg.maxDenials) then Reject
    else if existing.Some? && existing.value.status == Approved then Approve
    else if cfg.tokenOnly then (if tokenValid then Approve else Reject)
    else if tokenValid then Approve
    else if pendingCount >= cfg.maxPending then Reject
    else Wait
  }

  function SaturatingSucc(n: nat): nat {
    if n >= 0xFFFF_FFFF then n else n + 1
  }

  predicate AlphaNumeric(c: char) {
    'a' <= c <= 'z' || 'A' <= c <= 'Z' || '0' <= c <= '9'
  }

  function Lower(s: string): string {
    seq(|s|, i requires 0 <= i < |s| => if 'A' <= s[i] <= 'Z' then s[i] - 'A' + 'a' else s[i])
  }

  function Trim(s: string): string {
    if s != [] && s[0] == ' ' then Trim(s[1..])
    else if s != [] && s[|s| - 1] == ' ' then Trim(s[..|s| - 1])
    else s
  }

  function AlphaNumericPrefix(s: string, n: nat): string {
    if s == [] || n == 0 then []
    else if AlphaNumeric(s[0]) then [s[0]] + AlphaNumericPrefix(s[1..], n - 1)
    else AlphaNumericPrefix(s[1..], n)
  }

  /** The plugin id a runtime registers under, from its kind and the start of its id. */
  function PluginIdFor(kind: string, runtimeId: string): Result<string> {
    var k := Lower(Trim(kind));
    if k == [] || exists c :: c in k && !AlphaNumeric(c) && c != '-' then Err("runtime kind must be alphanumeric")
    else
      var short := AlphaNumericPrefix(runtimeId, 8);
      if short == [] then Err("runtime_id has no usable characters")
      else Ok("plugin." + k + "-" + short)
  }

  // ---------- Steps ----------

  datatype Op =
    | Pass(seconds: nat)
    | IssueToken(token: Secret)
    | Enroll(request: Request, secret: Secret)
    | Poll(id: string, presented: Secret, secret: Secret)
    | ApproveRuntime(id: string)
    | DenyRuntime(id: string)

  predicate DrawsFresh(s: State, op: Op) {
    match op
    case IssueToken(t) => t !in s.drawn
    case Enroll(_, x) => x !in s.drawn
    case Poll(_, _, x) => x !in s.drawn
    case _ => true
  }

  function OpenIds(s: State): set<string> {
    set id | id in s.runtimes && PendingOpen(s.runtimes[id], s.now)
  }

  function Existing(s: State, id: string): Option<Runtime> {
    if id in s.runtimes then Some(s.runtimes[id]) else None
  }

  function NewRecord(r: Request): Runtime {
    Runtime(r.publicKey, r.capabilities, Pending, None, None, None, 0, None, None)
  }

  predicate Redeemable(s: State, token: Option<Secret>) {
    token.Some? && token.value in s.tokens && !s.tokens[token.value].used && s.tokens[token.value].expires > s.now
  }

  /** A redeemed token is spent at once, whatever is then decided. */
  function Redeem(s: State, token: Option<Secret>): State {
    if Redeemable(s, token) then s.(tokens := s.tokens[token.value := s.tokens[token.value].(used := true)]) else s
  }

  function PluginIdOf(id: string, r: Runtime): Result<string> {
    if r.pluginId.Some? then Ok(r.pluginId.value) else PluginIdFor(r.capabilities.kind, id)
  }

  /** Credentials handed out: a fresh API key replaces whatever key there was. */
  function HandOut(s: State, id: string, r: Runtime, key: Secret, facts: seq<Fact>): State {
    s.(runtimes := s.runtimes[id := r.(apiKey := Some(key))],
       drawn := s.drawn + {key},
       log := s.log + facts + [KeyIssued(id, key)])
  }

  function DoEnroll(cfg: Config, s: State, r: Request, secret: Secret): State {
    var existing := Existing(s, r.runtimeId);
    if existing.Some? && existing.value.publicKey != r.publicKey then s
    else
      var s1 := Redeem(s, r.token);
      var rec := if existing.Some? then existing.value else NewRecord(r);
      match Decide(cfg, s.now, existing, Redeemable(s, r.token), |OpenIds(s)|)
      case Reject => s1
      case Approve =>
        var plugin := PluginIdOf(r.runtimeId, rec);
        if plugin.Err? then s1
        else HandOut(s1, r.runtimeId, rec.(status := Approved, expires := None, pluginId := Some(plugin.value)), secret,
                     if existing.Some? && existing.value.status == Approved then []
                     else if r.token.Some? then [TokenApproved(r.runtimeId, r.token.value)] else [])
      case Wait =>
        s1.(runtimes := s1.runtimes[r.runtimeId := rec.(status := Pending, secret := Some(secret),
                                                        expires := Some(s.now + AtLeastOne(cfg.pendingTtl)))],
            drawn := s1.drawn + {secret})
  }

  function DoPoll(s: State, id: string, presented: Secret, secret: Secret): State {
    if id !in s.runtimes || s.runtimes[id].secret != Some(presented) then s
    else if s.runtimes[id].status != Approved then s
    else if PluginIdOf(id, s.runtimes[id]).Err? then s
    else HandOut(s, id, s.runtimes[id], secret, [])
  }

  function DoApprove(s: State, id: string): State {
    if id !in s.runtimes then s
    else
      var r := s.runtimes[id];
      if r.status == Pending && !PendingOpen(r, s.now) then s
      else
        var plugin := PluginIdFor(r.capabilities.kind, id);
        if plugin.Err? then s
        else s.(runtimes := s.runtimes[id := r.(status := Approved, expires := None, pluginId := Some(plugin.value))],
                log := s.log + [AdminApproved(id)])
  }

  function DoDeny(cfg: Config, s: State, id: string): State {
    if id !in s.runtimes then s
    else
      var r := s.runtimes[id];
      var denials := SaturatingSucc(r.denials);
      s.(runtimes := s.runtimes[id := r.(status := Denied, secret := None, expires := None, denials := denials,
                                         cooldownUntil := if denials >= cfg.maxDenials
                                                          then Some(s.now + AtLeastOne(cfg.cooldown))
                                                          else r.cooldownUntil)],
         log := s.log + [AdminDenied(id)])
  }

  function Apply(cfg: Config, s: State, op: Op): State {
    match op
    case Pass(seconds) => s.(now := s.now + seconds)
    case IssueToken(t) => s.(tokens := s.tokens[t := EnrollToken(s.now + cfg.tokenTtl, false)], drawn := s.drawn + {t})
    case Enroll(r, secret) => DoEnroll(cfg, s, r, secret)
    case Poll(id, presented, secret) => DoPoll(s, id, presented, secret)
    case ApproveRuntime(id) => DoApprove(s, id)
    case DenyRuntime(id) => DoDeny(cfg, s, id)
  }

  const START := State(map[], map[], 0, {}, [])

  ghost predicate IsRun(cfg: Config, run: seq<State>, ops: seq<Op>) {
    && |run| == |ops| + 1 && run[0] == START
    && forall i :: 0 <= i < |ops| ==> DrawsFresh(run[i], ops[i]) && run[i + 1] == Apply(cfg, run[i], ops[i])
  }

  // ---------- What the log says ----------

  /** Said yes to since last said no to. */
  predicate Cleared(log: seq<Fact>, id: string) {
    if log == [] then false
    else
      var last := log[|log| - 1];
      if last == AdminDenied(id) then false
      else if last == AdminApproved(id) || (last.TokenApproved? && last.id == id) then true
      else Cleared(log[..|log| - 1], id)
  }

  /** The API key most recently handed to a runtime. */
  function LastKey(log: seq<Fact>, id: string): Option<Secret> {
    if log == [] then None
    else
      var last := log[|log| - 1];
      if last.KeyIssued? && last.id == id then Some(last.key) else LastKey(log[..|log| - 1], id)
  }

  function TimesRedeemed(log: seq<Fact>, token: Secret): nat {
    if log == [] then 0
    else
      var last := log[|log| - 1];
      TimesRedeemed(log[..|log| - 1], token) + if last.TokenApproved? && last.token == token then 1 else 0
  }

  lemma {:induction false} LogGrows(log: seq<Fact>, f: Fact)
    ensures forall id :: LastKey(log + [f], id) == if f.KeyIssued? && f.id == id then Some(f.key) else LastKey(log, id)
    ensures forall id :: Cleared(log + [f], id)
                         == (&& f != AdminDenied(id)
                             && (f == AdminApproved(id) || (f.TokenApproved? && f.id == id) || Cleared(log, id)))
    ensures forall t: Secret ::
              TimesRedeemed(log + [f], t) == TimesRedeemed(log, t) + if f.TokenApproved? && f.token == t then 1 else 0
  {
  }

  // ---------- What every run keeps ----------

  /** One record against the log. */
  predicate RecordSound(s: State, id: string)
    requires id in s.runtimes
  {
    var r := s.runtimes[id];
    && (r.pluginId.Some? ==> PluginIdFor(r.capabilities.kind, id) == Ok(r.pluginId.value))
    && (r.status == Approved ==> Cleared(s.log, id) && r.pluginId.Some?)
    && r.apiKey == LastKey(s.log, id)
  }

  ghost predicate Sound(cfg: Config, s: State) {
    && (forall id :: id in s.runtimes ==> RecordSound(s, id))
    && (forall id :: id !in s.runtimes ==> LastKey(s.log, id) == None)
    && (forall t: Secret :: TimesRedeemed(s.log, t) <= 1)
    && (forall t: Secret :: TimesRedeemed(s.log, t) == 1 ==> t in s.tokens && s.tokens[t].used)
    && s.tokens.Keys <= s.drawn
    && |OpenIds(s)| <= cfg.maxPending
  }

  lemma {:induction false} SubsetSize<T>(a: set<T>, b: set<T>)
    requires a <= b
    ensures |a| <= |b|
  {
    assert b == a + (b - a);
  }

  /** Replacing one record by one that is not newly open adds no open request. */
  lemma {:induction false} NoNewOpen(s: State, s': State, id: string)
    requires s'.now >= s.now
    requires forall x :: x in s'.runtimes && x != id ==> x in s.runtimes && s'.runtimes[x] == s.runtimes[x]
    requires id in s'.runtimes && PendingOpen(s'.runtimes[id], s'.now) ==>
              id in s.runtimes && PendingOpen(s.runtimes[id], s.now)
    ensures |OpenIds(s')| <= |OpenIds(s)|
  {
    assert OpenIds(s') <= OpenIds(s);
    SubsetSize(OpenIds(s'), OpenIds(s));
  }

  /** A token not redeemed before clears the runtime. */
  lemma {:induction false} ClearingKeepsSound(cfg: Config, s: State, id: string, token: Secret)
    requires Sound(cfg, s)
    requires token in s.tokens && s.tokens[token].used && TimesRedeemed(s.log, token) == 0
    ensures var s' := s.(log := s.log + [TokenApproved(id, token)]); Sound(cfg, s') && Cleared(s'.log, id)
  {
    var s' := s.(log := s.log + [TokenApproved(id, token)]);
    LogGrows(s.log, TokenApproved(id, token));
    forall x | x in s'.runtimes ensures RecordSound(s', x) {
      assert RecordSound(s, x);
    }
    assert OpenIds(s') == OpenIds(s);
  }

  lemma {:induction false} HandOutKeepsSound(cfg: Config, s: State, id: string, r: Runtime, key: Secret)
    requires Sound(cfg, s) && r.status == Approved && r.pluginId.Some? && Cleared(s.log, id)
    requires PluginIdFor(r.capabilities.kind, id) == Ok(r.pluginId.value)
    ensures Sound(cfg, HandOut(s, id, r, key, []))
  {
    var s' := HandOut(s, id, r, key, []);
    assert s'.log == s.log + [KeyIssued(id, key)];
    LogGrows(s.log, KeyIssued(id, key));
    forall x | x in s'.runtimes ensures RecordSound(s', x) {
      if x != id {
        assert RecordSound(s, x);
      }
    }
    NoNewOpen(s, s', id);
  }

  lemma {:induction false} RedeemKeepsSound(cfg: Config, s: State, token: Option<Secret>)
    requires Sound(cfg, s)
    ensures Sound(cfg, Redeem(s, token))
    ensures Redeemable(s, token) ==> TimesRedeemed(s.log, token.value) == 0
  {
  }

  /** The record of a runtime that is already known, or a new one. */
  function RecordFor(s: State, r: Request): Runtime {
    if r.runtimeId in s.runtimes then s.runtimes[r.runtimeId] else NewRecord(r)
  }

  lemma {:induction false} ApprovedEnrollKeepsSound(cfg: Config, s: State, r: Request, secret: Secret)
    requires Sound(cfg, s) && PluginIdOf(r.runtimeId, RecordFor(s, r)).Ok?
    requires Redeemable(s, r.token) || (r.runtimeId in s.runtimes && s.runtimes[r.runtimeId].status == Approved)
    ensures var rec := RecordFor(s, r).(status := Approved, expires := None,
                                        pluginId := Some(PluginIdOf(r.runtimeId, RecordFor(s, r)).value));
            Sound(cfg, HandOut(Redeem(s, r.token), r.runtimeId, rec, secret,
                               if r.runtimeId in s.runtimes && s.runtimes[r.runtimeId].status == Approved then []
                               else [TokenApproved(r.runtimeId, r.token.value)]))
  {
    var id := r.runtimeId;
    var rec := RecordFor(s, r).(status := Approved, expires := None,
                                pluginId := Some(PluginIdOf(id, RecordFor(s, r)).value));
    RedeemKeepsSound(cfg, s, r.token);
    var s1 := Redeem(s, r.token);
    assert id in s.runtimes ==> RecordSound(s, id);
    if id in s.runtimes && s.runtimes[id].status == Approved {
      HandOutKeepsSound(cfg, s1, id, rec, secret);
    } else {
      ClearingKeepsSound(cfg, s1, id, r.token.value);
      var s2 := s1.(log := s1.log + [TokenApproved(id, r.token.value)]);
      HandOutKeepsSound(cfg, s2, id, rec, secret);
      assert HandOut(s2, id, rec, secret, []) == HandOut(s1, id, rec, secret, [TokenApproved(id, r.token.value)]);
    }
  }

  lemma {:induction false} WaitingEnrollKeepsSound(cfg: Config, s: State, r: Request, secret: Secret, expires: nat)
    requires Sound(cfg, s) && |OpenIds(s)| < cfg.maxPending
    ensures var rec := RecordFor(s, r).(status := Pending, secret := Some(secret), expires := Some(expires));
            Sound(cfg, s.(runtimes := s.runtimes[r.runtimeId := rec], drawn := s.drawn + {secret}))
  {
    var rec := RecordFor(s, r).(status := Pending, secret := Some(secret), expires := Some(expires));
    var s' := s.(runtimes := s.runtimes[r.runtimeId := rec], drawn := s.drawn + {secret});
    forall x | x in s'.runtimes ensures RecordSound(s', x) {
      if x in s.runtimes {
        assert RecordSound(s, x);
      }
    }
    assert OpenIds(s') <= OpenIds(s) + {r.runtimeId};
    SubsetSize(OpenIds(s'), OpenIds(s) + {r.runtimeId});
  }

  lemma {:induction false} EnrollKeepsSound(cfg: Config, s: State, r: Request, secret: Secret)
    requires Sound(cfg, s)
    ensures Sound(cfg, DoEnroll(cfg, s, r, secret))
  {
    var existing := Existing(s, r.runtimeId);
    if existing.Some? && existing.value.publicKey != r.publicKey {
      return;
    }
    RedeemKeepsSound(cfg, s, r.token);
    match Decide(cfg, s.now, existing, Redeemable(s, r.token), |OpenIds(s)|) {
      case Reject =>
      case Approve =>
        if PluginIdOf(r.runtimeId, RecordFor(s, r)).Ok? {
          ApprovedEnrollKeepsSound(cfg, s, r, secret);
        }
      case Wait =>
        WaitingEnrollKeepsSound(cfg, s, r, secret, s.now + AtLeastOne(cfg.pendingTtl));
    }
  }

  lemma {:induction false} ApproveKeepsSound(cfg: Config, s: State, id: string)
    requires Sound(cfg, s)
    ensures Sound(cfg, DoApprove(s, id))
  {
    var s' := DoApprove(s, id);
    if s' != s {
      LogGrows(s.log, AdminApproved(id));
      forall x | x in s'.runtimes ensures RecordSound(s', x) {
        assert RecordSound(s, x);
      }
      NoNewOpen(s, s', id);
    }
  }

  lemma {:induction false} DenyKeepsSound(cfg: Config, s: State, id: string)
    requires Sound(cfg, s)
    ensures Sound(cfg, DoDeny(cfg, s, id))
  {
    var s' := DoDeny(cfg, s, id);
    if id in s.runtimes {
      LogGrows(s.log, AdminDenied(id));
      forall x | x in s'.runtimes ensures RecordSound(s', x) {
        assert RecordSound(s, x);
      }
      NoNewOpen(s, s', id);
    }
  }

  lemma {:induction false} StepKeepsSound(cfg: Config, s: State, op: Op)
    requires Sound(cfg, s) && DrawsFresh(s, op)
    ensures Sound(cfg, Apply(cfg, s, op))
  {
    match op {
      case Pass(_) => NoNewOpen(s, Apply(cfg, s, op), "");
      case IssueToken(t) => assert OpenIds(Apply(cfg, s, op)) == OpenIds(s);
      case Enroll(r, secret) => EnrollKeepsSound(cfg, s, r, secret);
      case Poll(id, presented, secret) =>
        if DoPoll(s, id, presented, secret) != s {
          assert RecordSound(s, id);
          HandOutKeepsSound(cfg, s, id, s.runtimes[id], secret);
        }
      case ApproveRuntime(id) => ApproveKeepsSound(cfg, s, id);
      case DenyRuntime(id) => DenyKeepsSound(cfg, s, id);
    }
  }

  lemma {:induction false} RunIsSound(cfg: Config, run: seq<State>, ops: seq<Op>, n: nat)
    requires IsRun(cfg, run, ops) && n <= |ops|
    ensures Sound(cfg, run[n])
  {
    if n == 0 {
      assert OpenIds(START) == {};
    } else {
      RunIsSound(cfg, run, ops, n - 1);
      StepKeepsSound(cfg, run[n - 1], ops[n - 1]);
    }
  }

  // ---------- The results ----------

  /** A runtime is let in only with the key it was handed last, and only while approved since its last denial. */
  predicate Authenticates(s: State, id: string, presented: Secret) {
    id in s.runtimes && s.runtimes[id].status == Approved && s.runtimes[id].apiKey == Some(presented)
  }

  lemma {:induction false} OnlyLatestKeyAuthenticates(cfg: Config, run: seq<State>, ops: seq<Op>, n: nat, id: string,
                                                      presented: Secret)
    requires IsRun(cfg, run, ops) && n <= |ops|
    ensures Authenticates(run[n], id, presented) ==>
              Cleared(run[n].log, id) && LastKey(run[n].log, id) == Some(presented)
    ensures id in run[n].runtimes && run[n].runtimes[id].status == Approved
            && LastKey(run[n].log, id) == Some(presented) ==>
              Authenticates(run[n], id, presented)
  {
    RunIsSound(cfg, run, ops, n);
    if id in run[n].runtimes {
      assert RecordSound(run[n], id);
    }
  }

  lemma {:induction false} OpenRequestsBounded(cfg: Config, run: seq<State>, ops: seq<Op>, n: nat)
    requires IsRun(cfg, run, ops) && n <= |ops|
    ensures |OpenIds(run[n])| <= cfg.maxPending
  {
    RunIsSound(cfg, run, ops, n);
  }

  lemma {:induction false} TokensWorkOnce(cfg: Config, run: seq<State>, ops: seq<Op>, n: nat, token: Secret)
    requires IsRun(cfg, run, ops) && n <= |ops|
    ensures TimesRedeemed(run[n].log, token) <= 1
  {
    RunIsSound(cfg, run, ops, n);
  }

  // ---------- What fresh secrets buy ----------

  predicate HoldsKey(s: State, id: string, key: Secret) {
    id in s.runtimes && s.runtimes[id].apiKey == Some(key)
  }

  predicate Gains(s: State, s': State, id: string, key: Secret) {
    HoldsKey(s', id, key) && !HoldsKey(s, id, key)
  }

  /** Every key stored was drawn, and no two runtimes hold the same. */
  ghost predicate KeysApart(s: State) {
    && (forall id, key :: HoldsKey(s, id, key) ==> key in s.drawn)
    && forall id, id', key :: HoldsKey(s, id, key) && HoldsKey(s, id', key) ==> id == id'
  }

  /**
    A step leaves each runtime's key as it was, or puts in its place one drawn just now, and
    that for one runtime only.
   */
  lemma {:induction false} StepKeepsKeysOrDraws(cfg: Config, s: State, op: Op)
    requires DrawsFresh(s, op)
    ensures var s' := Apply(cfg, s, op);
            && s.drawn <= s'.drawn
            && (forall id, key :: HoldsKey(s', id, key) ==> HoldsKey(s, id, key) || Gains(s, s', id, key))
            && (forall id, key :: Gains(s, s', id, key) ==> key in s'.drawn && key !in s.drawn)
            && (forall id, id', key :: Gains(s, s', id, key) && Gains(s, s', id', key) ==> id == id')
  {
    match op {
      case Enroll(r, secret) => EnrollDraws(cfg, s, r, secret);
      case _ =>
    }
  }

  lemma EnrollDraws(cfg: Config, s: State, r: Request, secret: Secret)
    ensures var s' := DoEnroll(cfg, s, r, secret);
            && s.drawn <= s'.drawn
            && (forall id, key :: Gains(s, s', id, key) ==> id == r.runtimeId && key == secret && secret in s'.drawn)
  {
  }

  lemma {:induction false} StepKeepsKeysApart(cfg: Config, s: State, op: Op)
    requires KeysApart(s) && DrawsFresh(s, op)
    ensures KeysApart(Apply(cfg, s, op))
  {
    StepKeepsKeysOrDraws(cfg, s, op);
  }

  lemma {:induction false} RunKeepsKeysApart(cfg: Config, run: seq<State>, ops: seq<Op>, n: nat)
    requires IsRun(cfg, run, ops) && n <= |ops|
    ensures KeysApart(run[n])
  {
    if n > 0 {
      RunKeepsKeysApart(cfg, run, ops, n - 1);
      StepKeepsKeysApart(cfg, run[n - 1], ops[n - 1]);
    }
  }

  /** No API key ever authenticates two runtimes. */
  lemma {:induction false} KeyNamesOneRuntime(cfg: Config, run: seq<State>, ops: seq<Op>, n: nat, id: string,
                                              id': string, key: Secret)
    requires IsRun(cfg, run, ops) && n <= |ops|
    requires Authenticates(run[n], id, key) && Authenticates(run[n], id', key)
    ensures id == id'
  {
    RunKeepsKeysApart(cfg, run, ops, n);
    assert HoldsKey(run[n], id, key) && HoldsKey(run[n], id', key);
  }

  /**
    A key that has been handed out and is no longer its runtime's never authenticates again,
    that runtime or any other.
   */
  lemma {:induction false} ReplacedKeyIsDead(cfg: Config, run: seq<State>, ops: seq<Op>, a: nat, b: nat, n: nat,
                                             id: string, key: Secret)
    requires IsRun(cfg, run, ops) && a <= b <= n <= |ops|
    requires HoldsKey(run[a], id, key) && !HoldsKey(run[b], id, key)
    ensures forall x :: !Authenticates(run[n], x, key)
  {
    StaysDrawn(cfg, run, ops, a, b, id, key);
    NobodyHoldsAgain(cfg, run, ops, b, n, key);
    assert forall x :: Authenticates(run[n], x, key) ==> HoldsKey(run[n], x, key);
  }

  /** While a key exists only its own runtime can hold it. */
  lemma {:induction false} StaysDrawn(cfg: Config, run: seq<State>, ops: seq<Op>, a: nat, b: nat, id: string,
                                      key: Secret)
    requires IsRun(cfg, run, ops) && a <= b <= |ops| && HoldsKey(run[a], id, key)
    ensures key in run[b].drawn && forall x :: HoldsKey(run[b], x, key) ==> x == id
    decreases b
  {
    RunKeepsKeysApart(cfg, run, ops, a);
    if a < b {
      StaysDrawn(cfg, run, ops, a, b - 1, id, key);
      StepKeepsKeysOrDraws(cfg, run[b - 1], ops[b - 1]);
    }
  }

  lemma {:induction false} NobodyHoldsAgain(cfg: Config, run: seq<State>, ops: seq<Op>, b: nat, n: nat, key: Secret)
    requires IsRun(cfg, run, ops) && b <= n <= |ops| && key in run[b].drawn && forall x :: !HoldsKey(run[b], x, key)
    ensures key in run[n].drawn && forall x :: !HoldsKey(run[n], x, key)
  {
    if b < n {
      NobodyHoldsAgain(cfg, run, ops, b, n - 1, key);
      StepKeepsKeysOrDraws(cfg, run[n - 1], ops[n - 1]);
    }
  }

  /** A runtime keeps its key, its capabilities and, once it has one, its plugin id. */
  predicate SameRuntime(r: Runtime, r': Runtime) {
    r'.publicKey == r.publicKey && r'.capabilities == r.capabilities && (r.pluginId.Some? ==> r'.pluginId == r.pluginId)
  }

  lemma {:induction false} StepKeepsIdentity(cfg: Config, s: State, op: Op, id: string)
    requires Sound(cfg, s) && id in s.runtimes
    ensures id in Apply(cfg, s, op).runtimes && SameRuntime(s.runtimes[id], Apply(cfg, s, op).runtimes[id])
  {
    assert RecordSound(s, id);
    if op.Enroll? {
      EnrollKeepsIdentity(cfg, s, op.request, op.secret, id);
    }
  }

  lemma EnrollKeepsIdentity(cfg: Config, s: State, r: Request, secret: Secret, id: string)
    requires id in s.runtimes
    ensures var s' := DoEnroll(cfg, s, r, secret); id in s'.runtimes && SameRuntime(s.runtimes[id], s'.runtimes[id])
  {
  }

  lemma {:induction false} IdentityIsForGood(cfg: Config, run: seq<State>, ops: seq<Op>, m: nat, n: nat, id: string)
    requires IsRun(cfg, run, ops) && m <= n <= |ops| && id in run[m].runtimes
    ensures id in run[n].runtimes && SameRuntime(run[m].runtimes[id], run[n].runtimes[id])
    decreases n
  {
    if m < n {
      IdentityIsForGood(cfg, run, ops, m, n - 1, id);
      RunIsSound(cfg, run, ops, n - 1);
      StepKeepsIdentity(cfg, run[n - 1], ops[n - 1], id);
    }
  }

  /**
    At the denial limit, or while cooling down, an enrollment is refused however often it is
    tried and whatever token it brings.
   */
  lemma DenialLimitHolds(cfg: Config, s: State, r: Request, secret: Secret)
    requires r.runtimeId in s.runtimes
    requires s.runtimes[r.runtimeId].denials >= cfg.maxDenials || !MayRetry(s.runtimes[r.runtimeId], s.now)
    ensures DoEnroll(cfg, s, r, secret).runtimes == s.runtimes
  {
  }

  ghost predicate NobodyWaits(s: State) {
    forall id :: id in s.runtimes ==> s.runtimes[id].status != Pending
  }

  lemma StepLeavesNobodyWaiting(cfg: Config, s: State, op: Op)
    requires cfg.tokenOnly && NobodyWaits(s)
    ensures NobodyWaits(Apply(cfg, s, op))
  {
  }

  /** Where a token is required no request ever waits for approval: it is let in by its token or leaves no record. */
  lemma {:induction false} TokenOnlyNeverWaits(cfg: Config, run: seq<State>, ops: seq<Op>, n: nat)
    requires cfg.tokenOnly && IsRun(cfg, run, ops) && n <= |ops|
    ensures NobodyWaits(run[n])
  {
    if n > 0 {
      TokenOnlyNeverWaits(cfg, run, ops, n - 1);
      StepLeavesNobodyWaiting(cfg, run[n - 1], ops[n - 1]);
    }
  }

  /** A runtime that is approved, or brings a good token, and may ask leaves an enrollment with a key that works. */
  lemma WelcomeEnrollAuthenticates(cfg: Config, s: State, r: Request, secret: Secret)
    requires r.runtimeId in s.runtimes ==> s.runtimes[r.runtimeId].publicKey == r.publicKey
    requires r.runtimeId in s.runtimes ==>
              MayRetry(s.runtimes[r.runtimeId], s.now) && s.runtimes[r.runtimeId].denials < cfg.maxDenials
    requires Redeemable(s, r.token) || (r.runtimeId in s.runtimes && s.runtimes[r.runtimeId].status == Approved)
    requires PluginIdOf(r.runtimeId, RecordFor(s, r)).Ok?
    ensures Authenticates(DoEnroll(cfg, s, r, secret), r.runtimeId, secret)
  {
  }

  // ---------- The handlers ----------

  /** The store and its handlers, updating records in place. */
  class Registry {
    const cfg: Config
    var runtimes: map<string, Runtime>
    var tokens: map<Secret, EnrollToken>
    var now: nat
    ghost var drawn: set<Secret>
    ghost var log: seq<Fact>

    ghost function View(): State
      reads this
    {
      State(runtimes, tokens, now, drawn, log)
    }

    constructor (cfg: Config)
      ensures this.cfg == cfg && View() == START
    {
      this.cfg := cfg;
      runtimes, tokens, now, drawn, log := map[], map[], 0, {}, [];
    }

    method PendingCount() returns (n: nat)
      ensures n == |OpenIds(View())|
    {
      n := 0;
      var left := runtimes.Keys;
      ghost var counted: set<string> := {};
      while left != {}
        invariant left <= runtimes.Keys
        invariant counted == (set id | id in runtimes.Keys - left && PendingOpen(runtimes[id], now)) && n == |counted|
        decreases left
      {
        var id :| id in left;
        if PendingOpen(runtimes[id], now) {
          n, counted := n + 1, counted + {id};
        }
        left := left - {id};
      }
      assert counted == OpenIds(View());
    }

    /** False when the token was already used or has expired. */
    method RedeemToken(token: Option<Secret>) returns (ok: bool)
      modifies this`tokens
      ensures ok == Redeemable(old(View()), token)
      ensures View() == Redeem(old(View()), token)
    {
      if token.None? || token.value !in tokens || tokens[token.value].used || tokens[token.value].expires <= now {
        return false;
      }
      tokens := tokens[token.value := tokens[token.value].(used := true)];
      return true;
    }

    method HandleEnroll(r: Request, secret: Secret)
      modifies this
      ensures View() == DoEnroll(cfg, old(View()), r, secret)
    {
      var existing := if r.runtimeId in runtimes then Some(runtimes[r.runtimeId]) else None;
      if existing.Some? && existing.value.publicKey != r.publicKey {
        return;
      }
      var pending := PendingCount();
      var valid := RedeemToken(r.token);
      var rec := if existing.Some? then existing.value else NewRecord(r);
      match Decide(cfg, now, existing, valid, pending) {
        case Reject =>
        case Approve =>
          var plugin := PluginIdOf(r.runtimeId, rec);
          if plugin.Ok? {
            rec := rec.(status := Approved, expires := None, pluginId := Some(plugin.value));
            runtimes := runtimes[r.runtimeId := rec.(apiKey := Some(secret))];
            drawn := drawn + {secret};
            log := log + (if existing.Some? && existing.value.status == Approved then []
                          else if r.token.Some? then [TokenApproved(r.runtimeId, r.token.value)] else [])
                   + [KeyIssued(r.runtimeId, secret)];
          }
        case Wait =>
          rec := rec.(status := Pending, secret := Some(secret), expires := Some(now + AtLeastOne(cfg.pendingTtl)));
          runtimes := runtimes[r.runtimeId := rec];
          drawn := drawn + {secret};
      }
    }

    /** The key handed to a poller that presents its secret and has been approved; nothing otherwise. */
    method HandlePoll(id: string, presented: Secret, secret: Secret) returns (key: Option<Secret>)
      modifies this
      ensures View() == DoPoll(old(View()), id, presented, secret)
      ensures key.Some? <==> id in old(runtimes) && old(runtimes)[id].secret == Some(presented)
                             && old(runtimes)[id].status == Approved && PluginIdOf(id, old(runtimes)[id]).Ok?
      ensures key.Some? ==> key == Some(secret) && Authenticates(View(), id, secret)
    {
      if id !in runtimes || runtimes[id].secret != Some(presented) { return None; }
      if runtimes[id].status != Approved { return None; }
      if PluginIdOf(id, runtimes[id]).Err? { return None; }
      runtimes := runtimes[id := runtimes[id].(apiKey := Some(secret))];
      drawn := drawn + {secret};
      log := log + [] + [KeyIssued(id, secret)];
      return Some(secret);
    }

    method HandleApprove(id: string) returns (ok: bool)
      modifies this
      ensures View() == DoApprove(old(View()), id)
      ensures ok ==> id in runtimes && runtimes[id].status == Approved
      ensures !ok ==> View() == old(View())
    {
      if id !in runtimes { return false; }
      var r := runtimes[id];
      if r.status == Pending && !PendingOpen(r, now) { return false; }
      var plugin := PluginIdFor(r.capabilities.kind, id);
      if plugin.Err? { return false; }
      runtimes := runtimes[id := r.(status := Approved, expires := None, pluginId := Some(plugin.value))];
      log := log + [AdminApproved(id)];
      return true;
    }

    method HandleDeny(id: string) returns (found: bool)
      modifies this
      ensures View() == DoDeny(cfg, old(View()), id)
      ensures found <==> id in old(runtimes)
    {
      if id !in runtimes {
        return false;
      }
      var r := runtimes[id].(status := Denied, secret := None, expires := None,
                             denials := SaturatingSucc(runtimes[id].denials));
      if r.denials >= cfg.maxDenials {
        r := r.(cooldownUntil := Some(now + AtLeastOne(cfg.cooldown)));
      }
      runtimes := runtimes[id := r];
      log := log + [AdminDenied(id)];
      return true;
    }
  }
}
