/** One identity's sessions, factors and proofs, as every handler that touches them leaves them
    (backend/app/api/auth.py, backend/app/services/mfa.py, backend/app/api/dependencies.py:106-176,
    backend/app/services/identity.py:44-47). A handler is one committed transaction; a handler that
    fails leaves the row as it was, except where the code commits before failing. Clocks, addresses
    and what the cryptographic checks answer are parameters. */
module Sessions {
  import opened Prelude

  datatype Purpose = LOGIN | FACTOR2 | FACTOR3

  datatype Action =
    | DOCUMENT_VIEW | DOCUMENT_SUBMIT | ACCESS_REQUEST | DOWNLOAD_REQUEST
    | ASSET_MINT | ASSET_APPROVE | DOCUMENT_MODIFY | DOCUMENT_DOWNLOAD | ADMIN_RESET
    | IDENTITY_REVOKE | IDENTITY_PROVISION | IDENTITY_ROLE | ASSET_MANAGE
    | MANAGE(purpose: Purpose) | LINK(factor: Purpose)

  /** Which purpose proves an action (backend/app/services/mfa.py:48-72). */
  function PurposeOf(a: Action): Purpose {
    match a
    case DOCUMENT_VIEW => FACTOR2
    case DOCUMENT_SUBMIT => FACTOR2
    case ACCESS_REQUEST => FACTOR2
    case DOWNLOAD_REQUEST => FACTOR2
    case MANAGE(p) => p
    case LINK(_) => LOGIN
    case _ => FACTOR3
  }

  /** Secrets are numbered in the order they were generated. */
  datatype Totp = Totp(secret: Option<nat>, enabled: bool, lastStep: Option<int>)

  datatype Totps = Totps(login: Totp, factor2: Totp, factor3: Totp) {
    function Get(p: Purpose): Totp { match p case LOGIN => login case FACTOR2 => factor2 case FACTOR3 => factor3 }

    function Set(p: Purpose, t: Totp): Totps {
      match p case LOGIN => this.(login := t) case FACTOR2 => this.(factor2 := t) case FACTOR3 => this.(factor3 := t)
    }
  }

  datatype Credential = Credential(scope: Purpose, site: string, active: bool)
  datatype Kind = REGISTER | AUTHENTICATE
  datatype Challenge = Challenge(kind: Kind, purpose: Purpose, action: Option<Action>, expires: int, consumed: bool)
  datatype Grant = Grant(user: nat, purpose: Purpose, action: Action, version: nat, expires: int, consumed: bool)
  datatype Token = Token(version: nat, full: bool, ip: string)
  /** A step-up token that was accepted: by whom, for what, in which session, when. */
  datatype Spend = Spend(grant: nat, user: nat, purpose: Purpose, action: Action, version: nat, at: int)

  /** Fields of the row, its credentials, challenges and grants; then three records of what
      happened: session tokens issued, TOTP steps accepted, step-up tokens accepted. */
  datatype State = State(
    id: nat, active: bool, revoked: bool, version: nat, pending: bool,
    totp: Totps, uses2: bool, uses3: bool, credentials: seq<Credential>,
    pinHash: bool, pinUsed: bool, pinExpires: int, lastActivity: Option<int>,
    challenges: seq<Challenge>, grants: seq<Grant>, nextSecret: nat,
    tokens: seq<Token>, accepted: seq<(nat, int)>, spent: seq<Spend>)

  /** The request's surroundings: the time in seconds, the client address, the code a TOTP secret
      yields at a time step, and the configured limits. */
  datatype Env = Env(now: int, ip: string, site: string, codeAt: (nat, int) -> int,
                     timeout: int, touch: int, stepUpTtl: int, challengeTtl: int)

  const INTERVAL := 30
  const MAX_PASSKEYS := 10

  // ---------------------------------------------------------------- factors

  predicate UsesLogin(s: State, p: Purpose) { (p == FACTOR2 && s.uses2) || (p == FACTOR3 && s.uses3) }

  function Source(s: State, p: Purpose): Purpose { if UsesLogin(s, p) then LOGIN else p }

  predicate TotpEnabled(s: State, p: Purpose) { s.totp.Get(Source(s, p)).enabled }

  function Scoped(creds: seq<Credential>, scope: Purpose): nat {
    if creds == [] then 0 else
    Scoped(creds[..|creds| - 1], scope)
    + (if creds[|creds| - 1].active && creds[|creds| - 1].scope == scope then 1 else 0)
  }

  /** Active passkeys that satisfy a purpose. */
  function Passkeys(s: State, p: Purpose): nat { Scoped(s.credentials, Source(s, p)) }

  function HereScoped(creds: seq<Credential>, scope: Purpose, site: string): nat {
    if creds == [] then 0 else
    HereScoped(creds[..|creds| - 1], scope, site)
    + (if creds[|creds| - 1].active && creds[|creds| - 1].scope == scope && creds[|creds| - 1].site == site then 1 else 0)
  }

  predicate SetupComplete(s: State) { s.totp.login.enabled && Scoped(s.credentials, LOGIN) > 0 }

  predicate Usable(s: State) { s.active && !s.revoked }

  /** The first of the three steps around now whose code this is. */
  function MatchStep(secret: nat, code: int, env: Env): Option<int> {
    var now := env.now / INTERVAL;
    if env.codeAt(secret, now - 1) == code then Some(now - 1)
    else if env.codeAt(secret, now) == code then Some(now)
    else if env.codeAt(secret, now + 1) == code then Some(now + 1)
    else None
  }

  /** None is a refusal; on success the accepted step is remembered. */
  function VerifyTotp(s: State, p: Purpose, code: int, requireEnabled: bool, env: Env): Option<State> {
    var q := Source(s, p);
    var t := s.totp.Get(q);
    if (requireEnabled && !t.enabled) || t.secret == None then None else
    match MatchStep(t.secret.value, code, env)
    case None => None
    case Some(step) =>
      if t.lastStep.Some? && step <= t.lastStep.value then None
      else Some(s.(totp := s.totp.Set(q, t.(lastStep := Some(step))), accepted := s.accepted + [(t.secret.value, step)]))
  }

  /** Setting (or clearing) a secret disables the factor and forgets its last step. */
  function SetSecret(s: State, p: Purpose, secret: Option<nat>): State {
    s.(totp := s.totp.Set(p, Totp(secret, false, None)))
  }

  function NewSecret(s: State, p: Purpose): State {
    SetSecret(s, p, Some(s.nextSecret)).(nextSecret := s.nextSecret + 1)
  }

  predicate GrantMatches(s: State, g: nat, p: Purpose, a: Action, now: int) {
    && g < |s.grants|
    && var x := s.grants[g];
       x.user == s.id && x.purpose == p && x.action == a && x.version == s.version && !x.consumed && x.expires > now
  }

  /** The conditional UPDATE: it matches at most one row, and marks it. */
  function ConsumeStepUp(s: State, g: nat, p: Purpose, a: Action, now: int): Option<State> {
    if GrantMatches(s, g, p, a, now)
    then Some(s.(grants := s.grants[g := s.grants[g].(consumed := true)],
                 spent := s.spent + [Spend(g, s.id, p, a, s.version, now)]))
    else None
  }

  datatype Proof = Proof(code: Option<int>, grant: Option<nat>)

  function RequireFactor(s: State, a: Action, proof: Proof, env: Env): Option<State> {
    var p := PurposeOf(a);
    var byToken := if proof.grant.Some? then ConsumeStepUp(s, proof.grant.value, p, a, env.now) else None;
    if byToken.Some? then byToken
    else if !TotpEnabled(s, p) && Passkeys(s, p) == 0 then None
    else if proof.code.Some? then VerifyTotp(s, p, proof.code.value, true, env)
    else None
  }

  // ---------------------------------------------------------------- sessions

  /** Start a new session; it is a full one only when login set-up is complete. */
  function IssueSession(s: State, env: Env): State {
    var complete := SetupComplete(s);
    s.(pending := !complete, version := s.version + 1, lastActivity := Some(env.now),
       tokens := s.tokens + [Token(s.version + 1, complete, env.ip)])
  }

  function Bump(s: State): State { s.(version := s.version + 1) }

  /** Is this session still good? A changed address and inactivity end it, and that is committed
      although the request fails. Asking this is no activity. */
  function CheckSession(s: State, t: Token, env: Env): (bool, State) {
    if t !in s.tokens || !Usable(s) || t.version != s.version then (false, s)
    else if t.ip != "" && t.ip != env.ip then (false, Bump(s))
    else if s.lastActivity.Some? && env.now - s.lastActivity.value > env.timeout then (false, Bump(s))
    else (true, s)
  }

  /** Every protected endpoint starts here: (granted, state). */
  function Authenticate(s: State, t: Token, env: Env): (bool, State) {
    var (ok, s1) := CheckSession(s, t, env);
    if ok && (s.lastActivity == None || env.now - s.lastActivity.value > env.touch) then (true, s1.(lastActivity := Some(env.now)))
    else (ok, s1)
  }

  /** A full session, as application endpoints need. */
  function AuthenticateFull(s: State, t: Token, env: Env): (bool, State) {
    var (ok, s1) := Authenticate(s, t, env);
    (ok && t.full, s1)
  }

  // ---------------------------------------------------------------- handlers

  /** First import of a wallet with the one-time PIN. */
  function Provision(s: State, pinOk: bool, env: Env): State {
    if !Usable(s) || !s.pinHash || s.pinUsed || env.now > s.pinExpires || !pinOk then s
    else IssueSession(s.(pinUsed := true, pinHash := false), env)
  }

  function LoginTotp(s: State, code: int, env: Env): State {
    if !Usable(s) || !s.totp.login.enabled then s else
    match VerifyTotp(s, LOGIN, code, true, env) case None => s case Some(s1) => IssueSession(s1, env)
  }

  function AddChallenge(s: State, kind: Kind, p: Purpose, a: Option<Action>, env: Env): State {
    s.(challenges := s.challenges + [Challenge(kind, p, a, env.now + env.challengeTtl, false)])
  }

  predicate ChallengeOpen(s: State, c: nat, kind: Kind, p: Purpose, now: int) {
    c < |s.challenges| && s.challenges[c].kind == kind && s.challenges[c].purpose == p
    && !s.challenges[c].consumed && s.challenges[c].expires > now
  }

  function SpendChallenge(s: State, c: nat): State
    requires c < |s.challenges|
  {
    s.(challenges := s.challenges[c := s.challenges[c].(consumed := true)])
  }

  /** Sign-in options: a challenge, if the purpose has a passkey for this site. */
  function PasskeyOptions(s: State, p: Purpose, a: Option<Action>, env: Env): State {
    if HereScoped(s.credentials, Source(s, p), env.site) == 0 then s else AddChallenge(s, AUTHENTICATE, p, a, env)
  }

  function LoginOptions(s: State, env: Env): State { if Usable(s) then PasskeyOptions(s, LOGIN, None, env) else s }

  predicate AssertionHolds(s: State, p: Purpose, cred: nat, verified: bool) {
    cred < |s.credentials| && s.credentials[cred].active && s.credentials[cred].scope == Source(s, p) && verified
  }

  /** The challenge is spent whether or not the assertion holds. */
  function LoginPasskey(s: State, c: nat, cred: nat, verified: bool, env: Env): State {
    if !Usable(s) || !ChallengeOpen(s, c, AUTHENTICATE, LOGIN, env.now) then s else
    var s1 := SpendChallenge(s, c);
    if AssertionHolds(s1, LOGIN, cred, verified) then IssueSession(s1, env) else s1
  }

  function Logout(s: State, t: Token, env: Env): State {
    var (ok, s1) := Authenticate(s, t, env);
    if ok then Bump(s1).(lastActivity := None) else s1
  }

  /** Enrolment of an authenticator, first half: a fresh secret. */
  function TotpSetup(s: State, t: Token, p: Purpose, proof: Proof, env: Env): State {
    var (ok, s1) := if p == LOGIN then Authenticate(s, t, env) else AuthenticateFull(s, t, env);
    if !ok || (p != LOGIN && (s1.pending || UsesLogin(s1, p))) then s1 else
    var s2 := if p != LOGIN && Passkeys(s1, p) > 0 then RequireFactor(s1, MANAGE(p), proof, env) else Some(s1);
    if s2 == None || TotpEnabled(s2.value, p) then s1 else NewSecret(s2.value, p)
  }

  function Enabled(s: State, p: Purpose): State { s.(totp := s.totp.Set(p, s.totp.Get(p).(enabled := true))) }

  /** The login factor that completes the set-up ends onboarding with a full session. */
  function Finish(s: State, p: Purpose, env: Env): State {
    if p == LOGIN && s.pending && SetupComplete(s) then IssueSession(s, env) else s
  }

  /** Second half: a first code proves the secret was stored; finishing login set-up starts a full
      session. */
  function TotpVerify(s: State, t: Token, p: Purpose, code: int, env: Env): State {
    var (ok, s1) := if p == LOGIN then Authenticate(s, t, env) else AuthenticateFull(s, t, env);
    if !ok || (p != LOGIN && UsesLogin(s1, p)) || s1.totp.Get(p).secret == None || TotpEnabled(s1, p) then s1 else
    match VerifyTotp(s1, p, code, false, env)
    case None => s1
    case Some(s2) => Finish(Enabled(s2, p), p, env)
  }

  function TotpReset(s: State, t: Token, p: Purpose, proof: Proof, env: Env): State {
    var (ok, s1) := AuthenticateFull(s, t, env);
    if !ok || p == LOGIN || UsesLogin(s1, p) then s1 else
    match RequireFactor(s1, MANAGE(p), proof, env) case None => s1 case Some(s2) => SetSecret(s2, p, None)
  }

  function RegisterOptions(s: State, t: Token, p: Purpose, proof: Proof, env: Env): State {
    var (ok, s1) := Authenticate(s, t, env);
    if !ok || UsesLogin(s1, p) || Passkeys(s1, p) >= MAX_PASSKEYS then s1 else
    var here := HereScoped(s1.credentials, p, env.site) > 0;
    var s2 := if p == LOGIN then (if s1.pending then (if here then None else Some(s1)) else RequireFactor(s1, MANAGE(LOGIN), proof, env))
              else if s1.pending then None
              else if here || TotpEnabled(s1, p) then RequireFactor(s1, MANAGE(p), proof, env)
              else Some(s1);
    match s2 case None => s1 case Some(s3) => AddChallenge(s3, REGISTER, p, None, env)
  }

  function RegisterVerify(s: State, t: Token, p: Purpose, c: nat, verified: bool, env: Env): State {
    var (ok, s1) := Authenticate(s, t, env);
    if !ok || UsesLogin(s1, p) || !ChallengeOpen(s1, c, REGISTER, p, env.now) then s1 else
    var s2 := SpendChallenge(s1, c);
    if !verified then s2 else
    Finish(s2.(credentials := s2.credentials + [Credential(p, env.site, true)]), p, env)
  }

  function Deactivate(s: State, cred: nat): State
    requires cred < |s.credentials|
  {
    s.(credentials := s.credentials[cred := s.credentials[cred].(active := false)])
  }

  /** The last login passkey stays: it is part of the login set-up. */
  function DisablePasskey(s: State, t: Token, cred: nat, proof: Proof, env: Env): State {
    var (ok, s1) := AuthenticateFull(s, t, env);
    if !ok || cred >= |s1.credentials| || !s1.credentials[cred].active then s1 else
    var scope := s1.credentials[cred].scope;
    if scope == LOGIN && Scoped(s1.credentials, LOGIN) <= 1 then s1 else
    match RequireFactor(s1, MANAGE(scope), proof, env)
    case None => s1
    case Some(s2) => if cred < |s2.credentials| then Deactivate(s2, cred) else s1
  }

  function SetLink(s: State, p: Purpose, on: bool): State {
    if p == FACTOR2 then s.(uses2 := on) else if p == FACTOR3 then s.(uses3 := on) else s
  }

  function UseLogin(s: State, t: Token, p: Purpose, proof: Proof, env: Env): State {
    var (ok, s1) := AuthenticateFull(s, t, env);
    if !ok || p == LOGIN || UsesLogin(s1, p) || TotpEnabled(s1, p) || Passkeys(s1, p) > 0 then s1 else
    match RequireFactor(s1, LINK(p), proof, env) case None => s1 case Some(s2) => SetLink(s2, p, true)
  }

  function UseSeparate(s: State, t: Token, p: Purpose, proof: Proof, env: Env): State {
    var (ok, s1) := AuthenticateFull(s, t, env);
    if !ok || p == LOGIN || !UsesLogin(s1, p) then s1 else
    match RequireFactor(s1, LINK(p), proof, env) case None => s1 case Some(s2) => SetLink(s2, p, false)
  }

  function IssueStepUp(s: State, p: Purpose, a: Action, env: Env): State {
    s.(grants := s.grants + [Grant(s.id, p, a, s.version, env.now + env.stepUpTtl, false)])
  }

  function StepUpTotp(s: State, t: Token, a: Action, code: int, env: Env): State {
    var (ok, s1) := AuthenticateFull(s, t, env);
    if !ok then s1 else
    match VerifyTotp(s1, PurposeOf(a), code, true, env) case None => s1 case Some(s2) => IssueStepUp(s2, PurposeOf(a), a, env)
  }

  function StepUpOptions(s: State, t: Token, a: Action, env: Env): State {
    var (ok, s1) := AuthenticateFull(s, t, env);
    if !ok then s1 else PasskeyOptions(s1, PurposeOf(a), Some(a), env)
  }

  /** The token is for the action the challenge was issued for. */
  function StepUpPasskey(s: State, t: Token, p: Purpose, c: nat, cred: nat, verified: bool, env: Env): State {
    var (ok, s1) := AuthenticateFull(s, t, env);
    if !ok || !ChallengeOpen(s1, c, AUTHENTICATE, p, env.now) then s1 else
    var s2 := SpendChallenge(s1, c);
    var a := s1.challenges[c].action;
    if !AssertionHolds(s2, p, cred, verified) then s2
    else if a == None || PurposeOf(a.value) != p then s1
    else IssueStepUp(s2, p, a.value, env)
  }

  /** Any other protected handler: the proof, then its own work, which may still fail. */
  function Protected(s: State, t: Token, a: Action, proof: Proof, commits: bool, env: Env): State {
    var (ok, s1) := AuthenticateFull(s, t, env);
    if !ok then s1 else
    match RequireFactor(s1, a, proof, env) case None => s1 case Some(s2) => if commits then s2 else s1
  }

  function DeactivateScope(creds: seq<Credential>, scope: Purpose): (r: seq<Credential>)
    ensures |r| == |creds|
  {
    seq(|creds|, i requires 0 <= i < |creds| => if creds[i].scope == scope then creds[i].(active := false) else creds[i])
  }

  /** An administrator's approval of a login reset. */
  function AdminReset(s: State, pinExpires: int): State {
    Bump(SetSecret(s, LOGIN, None)).(credentials := DeactivateScope(s.credentials, LOGIN),
                                     pinHash := true, pinUsed := false, pinExpires := pinExpires, pending := true)
  }

  function Revoke(s: State): State { Bump(s).(active := false, revoked := true) }

  /** Handlers that start and end sessions. */
  datatype SessionOp =
    | OpProvision(pinOk: bool) | OpLoginTotp(code: int)
    | OpLoginOptions | OpLoginPasskey(c: nat, cred: nat, verified: bool) | OpLogout(t: Token)
    | OpCheck(t: Token)
    | OpAdminReset(pinExpires: int) | OpRevoke | OpRoleChange

  /** Handlers that set up factors, link them and use them for step-up proofs. */
  datatype FactorOp =
    | OpTotpSetup(t: Token, p: Purpose, proof: Proof) | OpTotpVerify(t: Token, p: Purpose, code: int)
    | OpTotpReset(t: Token, p: Purpose, proof: Proof)
    | OpRegisterOptions(t: Token, p: Purpose, proof: Proof) | OpRegisterVerify(t: Token, p: Purpose, c: nat, verified: bool)
    | OpDisablePasskey(t: Token, cred: nat, proof: Proof)
    | OpUseLogin(t: Token, p: Purpose, proof: Proof) | OpUseSeparate(t: Token, p: Purpose, proof: Proof)

  datatype ProofOp =
    | OpStepUpTotp(t: Token, a: Action, code: int) | OpStepUpOptions(t: Token, a: Action)
    | OpStepUpPasskey(t: Token, p: Purpose, c: nat, cred: nat, verified: bool)
    | OpProtected(t: Token, a: Action, proof: Proof, commits: bool) | OpOthersStepUp(g: Grant)

  datatype Op = OnSession(so: SessionOp) | OnFactor(fo: FactorOp) | OnProof(po: ProofOp)

  function SessionStep(s: State, op: SessionOp, env: Env): State {
    match op
    case OpProvision(pinOk) => Provision(s, pinOk, env)
    case OpLoginTotp(code) => LoginTotp(s, code, env)
    case OpLoginOptions => LoginOptions(s, env)
    case OpLoginPasskey(c, cred, verified) => LoginPasskey(s, c, cred, verified, env)
    case OpLogout(t) => Logout(s, t, env)
    case OpCheck(t) => CheckSession(s, t, env).1
    case OpAdminReset(pinExpires) => AdminReset(s, pinExpires)
    case OpRevoke => Revoke(s)
    case OpRoleChange => Bump(s)
  }

  function FactorStep(s: State, op: FactorOp, env: Env): State {
    match op
    case OpTotpSetup(t, p, proof) => TotpSetup(s, t, p, proof, env)
    case OpTotpVerify(t, p, code) => TotpVerify(s, t, p, code, env)
    case OpTotpReset(t, p, proof) => TotpReset(s, t, p, proof, env)
    case OpRegisterOptions(t, p, proof) => RegisterOptions(s, t, p, proof, env)
    case OpRegisterVerify(t, p, c, verified) => RegisterVerify(s, t, p, c, verified, env)
    case OpDisablePasskey(t, cred, proof) => DisablePasskey(s, t, cred, proof, env)
    case OpUseLogin(t, p, proof) => UseLogin(s, t, p, proof, env)
    case OpUseSeparate(t, p, proof) => UseSeparate(s, t, p, proof, env)
  }

  function ProofStep(s: State, op: ProofOp, env: Env): State {
    match op
    case OpStepUpTotp(t, a, code) => StepUpTotp(s, t, a, code, env)
    case OpStepUpOptions(t, a) => StepUpOptions(s, t, a, env)
    case OpStepUpPasskey(t, p, c, cred, verified) => StepUpPasskey(s, t, p, c, cred, verified, env)
    case OpProtected(t, a, proof, commits) => Protected(s, t, a, proof, commits, env)
    case OpOthersStepUp(g) => if g.user == s.id then s else s.(grants := s.grants + [g])
  }

  function Step(s: State, op: Op, env: Env): State {
    match op
    case OnSession(so) => SessionStep(s, so, env)
    case OnFactor(fo) => FactorStep(s, fo, env)
    case OnProof(po) => ProofStep(s, po, env)
  }

  function Run(s: State, ops: seq<(Op, Env)>): State {
    if ops == [] then s else Step(Run(s, ops[..|ops| - 1]), ops[|ops| - 1].0, ops[|ops| - 1].1)
  }

  // ---------------------------------------------------------------- invariants

  /** Token versions increase from one token to the next and never exceed the row's. */
  ghost predicate TokensOrdered(tokens: seq<Token>, version: nat) {
    && (forall i, j :: 0 <= i < j < |tokens| ==> tokens[i].version < tokens[j].version)
    && (forall i :: 0 <= i < |tokens| ==> tokens[i].version <= version)
  }

  predicate Live(s: State, t: Token) { t in s.tokens && Usable(s) && t.version == s.version }

  /** A full session that is still live, or a finished onboarding, means login is set up. */
  ghost predicate SetupHolds(tokens: seq<Token>, version: nat, pending: bool, complete: bool) {
    && (!pending ==> complete)
    && (forall t :: t in tokens && t.version == version && t.full ==> complete)
  }

  ghost predicate LinksClean(uses2: bool, uses3: bool, totp: Totps, credentials: seq<Credential>) {
    && (uses2 ==> !totp.factor2.enabled && Scoped(credentials, FACTOR2) == 0)
    && (uses3 ==> !totp.factor3.enabled && Scoped(credentials, FACTOR3) == 0)
  }

  predicate Fresh(secret: Option<nat>, next: nat) { secret.Some? ==> secret.value < next }

  predicate Apart(a: Option<nat>, b: Option<nat>) { a.Some? ==> a != b }

  /** Secrets are those already generated, each in one field. */
  ghost predicate SecretsFresh(totp: Totps, next: nat, accepted: seq<(nat, int)>) {
    && Fresh(totp.login.secret, next) && Fresh(totp.factor2.secret, next) && Fresh(totp.factor3.secret, next)
    && Apart(totp.login.secret, totp.factor2.secret) && Apart(totp.login.secret, totp.factor3.secret)
    && Apart(totp.factor2.secret, totp.factor3.secret)
    && (forall i :: 0 <= i < |accepted| ==> accepted[i].0 < next)
  }

  /** The field remembers a step at or beyond all that were accepted for its secret. */
  ghost predicate Remembers(t: Totp, accepted: seq<(nat, int)>) {
    forall i :: 0 <= i < |accepted| && t.secret == Some(accepted[i].0) ==>
      t.lastStep.Some? && accepted[i].1 <= t.lastStep.value
  }

  ghost predicate Increasing(accepted: seq<(nat, int)>) {
    forall i, j :: 0 <= i < j < |accepted| && accepted[i].0 == accepted[j].0 ==> accepted[i].1 < accepted[j].1
  }

  /** Each secret's accepted steps increase, and its field knows how far they have come. */
  ghost predicate StepsIncrease(totp: Totps, accepted: seq<(nat, int)>) {
    && Increasing(accepted)
    && Remembers(totp.login, accepted) && Remembers(totp.factor2, accepted) && Remembers(totp.factor3, accepted)
  }

  predicate Honours(x: Spend, id: nat, grants: seq<Grant>) {
    && x.grant < |grants|
    && var g := grants[x.grant];
       && g.consumed && g.user == x.user == id && g.purpose == x.purpose && g.action == x.action && g.version == x.version
       && x.at < g.expires
  }

  /** Every acceptance of a step-up token names a different grant, which is consumed and matches
      it in user, purpose, action and session version, before it expired. */
  ghost predicate SpentOnce(id: nat, spent: seq<Spend>, grants: seq<Grant>) {
    && (forall i, j :: 0 <= i < j < |spent| ==> spent[i].grant != spent[j].grant)
    && (forall i :: 0 <= i < |spent| ==> Honours(spent[i], id, grants))
  }

  /** What holds whatever the session state is. */
  ghost predicate Factors(s: State) {
    && LinksClean(s.uses2, s.uses3, s.totp, s.credentials) && SecretsFresh(s.totp, s.nextSecret, s.accepted)
    && StepsIncrease(s.totp, s.accepted) && SpentOnce(s.id, s.spent, s.grants)
  }

  ghost predicate Inv(s: State) {
    && TokensOrdered(s.tokens, s.version) && SetupHolds(s.tokens, s.version, s.pending, SetupComplete(s))
    && Factors(s)
  }

  // ---------------------------------------------------------------- credentials

  lemma {:induction false} ScopedAppend(creds: seq<Credential>, c: Credential, scope: Purpose)
    ensures Scoped(creds + [c], scope) == Scoped(creds, scope) + (if c.active && c.scope == scope then 1 else 0)
  {
    assert (creds + [c])[..|creds|] == creds;
  }

  /** Deactivating one passkey lowers its own scope's count by one, and no other. */
  lemma {:induction false} ScopedOff(creds: seq<Credential>, k: nat, scope: Purpose)
    requires k < |creds| && creds[k].active
    ensures Scoped(creds[k := creds[k].(active := false)], scope)
         == Scoped(creds, scope) - (if creds[k].scope == scope then 1 else 0)
  {
    var n := |creds| - 1;
    var off := creds[k := creds[k].(active := false)];
    if k == n {
      assert off[..n] == creds[..n];
    } else {
      assert off[..n] == creds[..n][k := creds[k].(active := false)];
      ScopedOff(creds[..n], k, scope);
    }
  }

  lemma {:induction false} ScopedAllOff(creds: seq<Credential>, off: Purpose, scope: Purpose)
    ensures Scoped(DeactivateScope(creds, off), scope) == if scope == off then 0 else Scoped(creds, scope)
  {
    if creds != [] {
      var n := |creds| - 1;
      assert DeactivateScope(creds, off)[..n] == DeactivateScope(creds[..n], off);
      ScopedAllOff(creds[..n], off, scope);
    }
  }

  // ---------------------------------------------------------------- what the building blocks keep

  /** A proof changes nothing but last steps, consumed grants and the records of acceptance. */
  ghost predicate ProofOnly(s: State, r: State) {
    && r == s.(totp := r.totp, accepted := r.accepted, grants := r.grants, spent := r.spent)
    && forall p :: r.totp.Get(p).secret == s.totp.Get(p).secret && r.totp.Get(p).enabled == s.totp.Get(p).enabled
  }

  lemma StepAccepted(totp: Totps, accepted: seq<(nat, int)>, next: nat, p: Purpose, step: int)
    requires SecretsFresh(totp, next, accepted) && StepsIncrease(totp, accepted)
    requires totp.Get(p).secret.Some? && (totp.Get(p).lastStep.Some? ==> totp.Get(p).lastStep.value < step)
    ensures var r := totp.Set(p, totp.Get(p).(lastStep := Some(step)));
      var more := accepted + [(totp.Get(p).secret.value, step)];
      SecretsFresh(r, next, more) && StepsIncrease(r, more)
  {
    var more := accepted + [(totp.Get(p).secret.value, step)];
    assert Remembers(totp.Get(p), accepted);
    assert Increasing(more);
  }

  lemma VerifyKeeps(s: State, p: Purpose, code: int, requireEnabled: bool, env: Env)
    requires Inv(s)
    ensures VerifyTotp(s, p, code, requireEnabled, env).Some? ==>
      var r := VerifyTotp(s, p, code, requireEnabled, env).value; ProofOnly(s, r) && Inv(r)
  {
    var q := Source(s, p);
    var t := s.totp.Get(q);
    if VerifyTotp(s, p, code, requireEnabled, env).Some? {
      StepAccepted(s.totp, s.accepted, s.nextSecret, q, MatchStep(t.secret.value, code, env).value);
    }
  }

  lemma GrantConsumed(id: nat, spent: seq<Spend>, grants: seq<Grant>, x: Spend)
    requires SpentOnce(id, spent, grants) && x.grant < |grants| && !grants[x.grant].consumed
    requires Honours(x, id, grants[x.grant := grants[x.grant].(consumed := true)])
    ensures SpentOnce(id, spent + [x], grants[x.grant := grants[x.grant].(consumed := true)])
  {
    forall i | 0 <= i < |spent| ensures spent[i].grant != x.grant {
      assert Honours(spent[i], id, grants);
    }
  }

  lemma ConsumeKeeps(s: State, g: nat, p: Purpose, a: Action, now: int)
    requires Inv(s)
    ensures ConsumeStepUp(s, g, p, a, now).Some? ==>
      var r := ConsumeStepUp(s, g, p, a, now).value; ProofOnly(s, r) && Inv(r)
  {
    if ConsumeStepUp(s, g, p, a, now).Some? {
      GrantConsumed(s.id, s.spent, s.grants, Spend(g, s.id, p, a, s.version, now));
    }
  }

  lemma RequireKeeps(s: State, a: Action, proof: Proof, env: Env)
    requires Inv(s)
    ensures RequireFactor(s, a, proof, env).Some? ==>
      var r := RequireFactor(s, a, proof, env).value; ProofOnly(s, r) && Inv(r)
  {
    if proof.grant.Some? {
      ConsumeKeeps(s, proof.grant.value, PurposeOf(a), a, env.now);
    }
    if proof.code.Some? {
      VerifyKeeps(s, PurposeOf(a), proof.code.value, true, env);
    }
  }

  lemma TokenIssued(tokens: seq<Token>, version: nat, t: Token)
    requires TokensOrdered(tokens, version) && t.version == version + 1
    ensures TokensOrdered(tokens + [t], version + 1)
    ensures SetupHolds(tokens + [t], version + 1, !t.full, t.full)
  {
  }

  /** With every earlier token below the new version, at most the new one can be live. */
  lemma IssueKeeps(s: State, env: Env)
    requires TokensOrdered(s.tokens, s.version) && Factors(s)
    ensures Inv(IssueSession(s, env))
  {
    TokenIssued(s.tokens, s.version, Token(s.version + 1, SetupComplete(s), env.ip));
  }

  lemma VersionBumped(tokens: seq<Token>, version: nat, pending: bool, complete: bool)
    requires TokensOrdered(tokens, version) && (!pending ==> complete)
    ensures TokensOrdered(tokens, version + 1) && SetupHolds(tokens, version + 1, pending, complete)
  {
  }

  lemma BumpKeeps(s: State)
    requires Inv(s)
    ensures Inv(Bump(s))
  {
    VersionBumped(s.tokens, s.version, s.pending, SetupComplete(s));
  }

  lemma AuthKeeps(s: State, t: Token, env: Env)
    requires Inv(s)
    ensures Inv(Authenticate(s, t, env).1)
  {
    BumpKeeps(s);
  }

  lemma ForgotSteps(totp: Totps, accepted: seq<(nat, int)>, next: nat, p: Purpose)
    requires SecretsFresh(totp, next, accepted) && StepsIncrease(totp, accepted)
    ensures SecretsFresh(totp.Set(p, Totp(None, false, None)), next, accepted)
    ensures StepsIncrease(totp.Set(p, Totp(None, false, None)), accepted)
    ensures SecretsFresh(totp.Set(p, Totp(Some(next), false, None)), next + 1, accepted)
    ensures StepsIncrease(totp.Set(p, Totp(Some(next), false, None)), accepted)
  {
    assert Remembers(Totp(None, false, None), accepted);
    assert Remembers(Totp(Some(next), false, None), accepted);
  }

  lemma ClearKeeps(s: State, p: Purpose)
    requires Inv(s) && (p == LOGIN ==> !s.totp.login.enabled)
    ensures Inv(SetSecret(s, p, None))
  {
    ForgotSteps(s.totp, s.accepted, s.nextSecret, p);
  }

  lemma NewSecretKeeps(s: State, p: Purpose)
    requires Inv(s) && (p == LOGIN ==> !s.totp.login.enabled)
    ensures Inv(NewSecret(s, p))
  {
    ForgotSteps(s.totp, s.accepted, s.nextSecret, p);
  }

  // ---------------------------------------------------------------- what each handler keeps

  lemma ProvisionKeeps(s: State, pinOk: bool, env: Env)
    requires Inv(s)
    ensures Inv(Provision(s, pinOk, env))
  {
    IssueKeeps(s.(pinUsed := true, pinHash := false), env);
  }

  lemma LoginTotpKeeps(s: State, code: int, env: Env)
    requires Inv(s)
    ensures Inv(LoginTotp(s, code, env))
  {
    VerifyKeeps(s, LOGIN, code, true, env);
    var v := VerifyTotp(s, LOGIN, code, true, env);
    if v.Some? {
      IssueKeeps(v.value, env);
    }
  }

  lemma LoginPasskeyKeeps(s: State, c: nat, cred: nat, verified: bool, env: Env)
    requires Inv(s)
    ensures Inv(LoginPasskey(s, c, cred, verified, env))
  {
    if c < |s.challenges| {
      IssueKeeps(SpendChallenge(s, c), env);
    }
  }

  lemma LogoutKeeps(s: State, t: Token, env: Env)
    requires Inv(s)
    ensures Inv(Logout(s, t, env))
  {
    AuthKeeps(s, t, env);
    BumpKeeps(Authenticate(s, t, env).1);
  }

  lemma TotpSetupKeeps(s: State, t: Token, p: Purpose, proof: Proof, env: Env)
    requires Inv(s)
    ensures Inv(TotpSetup(s, t, p, proof, env))
  {
    AuthKeeps(s, t, env);
    var (ok, s1) := if p == LOGIN then Authenticate(s, t, env) else AuthenticateFull(s, t, env);
    RequireKeeps(s1, MANAGE(p), proof, env);
    var s2 := if p != LOGIN && Passkeys(s1, p) > 0 then RequireFactor(s1, MANAGE(p), proof, env) else Some(s1);
    if s2.Some? && !TotpEnabled(s2.value, p) {
      NewSecretKeeps(s2.value, p);
    }
  }

  lemma EnableKeeps(s: State, p: Purpose)
    requires Inv(s) && !UsesLogin(s, p)
    ensures Inv(Enabled(s, p))
  {
    assert Remembers(s.totp.Get(p), s.accepted);
    assert Remembers(s.totp.Get(p).(enabled := true), s.accepted);
  }

  lemma TotpVerifyKeeps(s: State, t: Token, p: Purpose, code: int, env: Env)
    requires Inv(s)
    ensures Inv(TotpVerify(s, t, p, code, env))
  {
    AuthKeeps(s, t, env);
    var (ok, s1) := if p == LOGIN then Authenticate(s, t, env) else AuthenticateFull(s, t, env);
    VerifyKeeps(s1, p, code, false, env);
    var v := VerifyTotp(s1, p, code, false, env);
    if v.Some? && !UsesLogin(s1, p) {
      EnableKeeps(v.value, p);
      IssueKeeps(Enabled(v.value, p), env);
    }
  }

  lemma TotpResetKeeps(s: State, t: Token, p: Purpose, proof: Proof, env: Env)
    requires Inv(s)
    ensures Inv(TotpReset(s, t, p, proof, env))
  {
    AuthKeeps(s, t, env);
    var s1 := AuthenticateFull(s, t, env).1;
    RequireKeeps(s1, MANAGE(p), proof, env);
    var s2 := RequireFactor(s1, MANAGE(p), proof, env);
    if s2.Some? && p != LOGIN {
      ClearKeeps(s2.value, p);
    }
  }

  lemma RegisterOptionsKeeps(s: State, t: Token, p: Purpose, proof: Proof, env: Env)
    requires Inv(s)
    ensures Inv(RegisterOptions(s, t, p, proof, env))
  {
    AuthKeeps(s, t, env);
    RequireKeeps(Authenticate(s, t, env).1, MANAGE(p), proof, env);
  }

  lemma AddPasskeyKeeps(s: State, p: Purpose, site: string)
    requires Inv(s) && !UsesLogin(s, p)
    ensures Inv(s.(credentials := s.credentials + [Credential(p, site, true)]))
  {
    var c := Credential(p, site, true);
    ScopedAppend(s.credentials, c, LOGIN);
    ScopedAppend(s.credentials, c, FACTOR2);
    ScopedAppend(s.credentials, c, FACTOR3);
  }

  lemma RegisterVerifyKeeps(s: State, t: Token, p: Purpose, c: nat, verified: bool, env: Env)
    requires Inv(s)
    ensures Inv(RegisterVerify(s, t, p, c, verified, env))
  {
    AuthKeeps(s, t, env);
    var s1 := Authenticate(s, t, env).1;
    if c < |s1.challenges| && !UsesLogin(s1, p) {
      var s2 := SpendChallenge(s1, c);
      AddPasskeyKeeps(s2, p, env.site);
      IssueKeeps(s2.(credentials := s2.credentials + [Credential(p, env.site, true)]), env);
    }
  }

  lemma DisablePasskeyKeeps(s: State, t: Token, cred: nat, proof: Proof, env: Env)
    requires Inv(s)
    ensures Inv(DisablePasskey(s, t, cred, proof, env))
  {
    AuthKeeps(s, t, env);
    var s1 := AuthenticateFull(s, t, env).1;
    if cred < |s1.credentials| && s1.credentials[cred].active {
      var scope := s1.credentials[cred].scope;
      RequireKeeps(s1, MANAGE(scope), proof, env);
      ScopedOff(s1.credentials, cred, LOGIN);
      ScopedOff(s1.credentials, cred, FACTOR2);
      ScopedOff(s1.credentials, cred, FACTOR3);
    }
  }

  lemma LinkKeeps(s: State, p: Purpose, on: bool)
    requires Inv(s) && (on ==> !s.totp.Get(p).enabled && Scoped(s.credentials, p) == 0)
    ensures Inv(SetLink(s, p, on))
  {
  }

  lemma UseLoginKeeps(s: State, t: Token, p: Purpose, proof: Proof, env: Env)
    requires Inv(s)
    ensures Inv(UseLogin(s, t, p, proof, env))
  {
    AuthKeeps(s, t, env);
    var s1 := AuthenticateFull(s, t, env).1;
    RequireKeeps(s1, LINK(p), proof, env);
    var s2 := RequireFactor(s1, LINK(p), proof, env);
    if s2.Some? && !UsesLogin(s1, p) && !TotpEnabled(s1, p) && Passkeys(s1, p) == 0 {
      LinkKeeps(s2.value, p, true);
    }
  }

  lemma UseSeparateKeeps(s: State, t: Token, p: Purpose, proof: Proof, env: Env)
    requires Inv(s)
    ensures Inv(UseSeparate(s, t, p, proof, env))
  {
    AuthKeeps(s, t, env);
    var s1 := AuthenticateFull(s, t, env).1;
    RequireKeeps(s1, LINK(p), proof, env);
    var s2 := RequireFactor(s1, LINK(p), proof, env);
    if s2.Some? {
      LinkKeeps(s2.value, p, false);
    }
  }

  lemma IssueStepUpKeeps(s: State, p: Purpose, a: Action, env: Env)
    requires Inv(s)
    ensures Inv(IssueStepUp(s, p, a, env))
  {
    GrantAdded(s, Grant(s.id, p, a, s.version, env.now + env.stepUpTtl, false));
  }

  lemma StepUpTotpKeeps(s: State, t: Token, a: Action, code: int, env: Env)
    requires Inv(s)
    ensures Inv(StepUpTotp(s, t, a, code, env))
  {
    AuthKeeps(s, t, env);
    var s1 := AuthenticateFull(s, t, env).1;
    VerifyKeeps(s1, PurposeOf(a), code, true, env);
    var v := VerifyTotp(s1, PurposeOf(a), code, true, env);
    if v.Some? {
      IssueStepUpKeeps(v.value, PurposeOf(a), a, env);
    }
  }

  lemma StepUpOptionsKeeps(s: State, t: Token, a: Action, env: Env)
    requires Inv(s)
    ensures Inv(StepUpOptions(s, t, a, env))
  {
    AuthKeeps(s, t, env);
  }

  lemma GrantAdded(s: State, g: Grant)
    requires Inv(s)
    ensures Inv(s.(grants := s.grants + [g]))
  {
    assert forall i :: 0 <= i < |s.spent| ==> Honours(s.spent[i], s.id, s.grants);
  }

  lemma StepUpPasskeyKeeps(s: State, t: Token, p: Purpose, c: nat, cred: nat, verified: bool, env: Env)
    requires Inv(s)
    ensures Inv(StepUpPasskey(s, t, p, c, cred, verified, env))
  {
    AuthKeeps(s, t, env);
    var s1 := AuthenticateFull(s, t, env).1;
    if c < |s1.challenges| && s1.challenges[c].action.Some? {
      IssueStepUpKeeps(SpendChallenge(s1, c), p, s1.challenges[c].action.value, env);
    }
  }

  lemma ProtectedKeeps(s: State, t: Token, a: Action, proof: Proof, commits: bool, env: Env)
    requires Inv(s)
    ensures Inv(Protected(s, t, a, proof, commits, env))
  {
    AuthKeeps(s, t, env);
    RequireKeeps(AuthenticateFull(s, t, env).1, a, proof, env);
  }

  lemma AdminResetKeeps(s: State, pinExpires: int)
    requires Inv(s)
    ensures Inv(AdminReset(s, pinExpires))
  {
    ScopedAllOff(s.credentials, LOGIN, FACTOR2);
    ScopedAllOff(s.credentials, LOGIN, FACTOR3);
    ForgotSteps(s.totp, s.accepted, s.nextSecret, LOGIN);
    VersionBumped(s.tokens, s.version, true, false);
  }

  lemma SessionStepKeeps(s: State, op: SessionOp, env: Env)
    requires Inv(s)
    ensures Inv(SessionStep(s, op, env))
  {
    match op
    case OpProvision(pinOk) => ProvisionKeeps(s, pinOk, env);
    case OpLoginTotp(code) => LoginTotpKeeps(s, code, env);
    case OpLoginOptions =>
    case OpLoginPasskey(c, cred, verified) => LoginPasskeyKeeps(s, c, cred, verified, env);
    case OpLogout(t) => LogoutKeeps(s, t, env);
    case OpCheck(_) => BumpKeeps(s);
    case OpAdminReset(pinExpires) => AdminResetKeeps(s, pinExpires);
    case OpRevoke => BumpKeeps(s);
    case OpRoleChange => BumpKeeps(s);
  }

  lemma FactorStepKeeps(s: State, op: FactorOp, env: Env)
    requires Inv(s)
    ensures Inv(FactorStep(s, op, env))
  {
    match op
    case OpTotpSetup(t, p, proof) => TotpSetupKeeps(s, t, p, proof, env);
    case OpTotpVerify(t, p, code) => TotpVerifyKeeps(s, t, p, code, env);
    case OpTotpReset(t, p, proof) => TotpResetKeeps(s, t, p, proof, env);
    case OpRegisterOptions(t, p, proof) => RegisterOptionsKeeps(s, t, p, proof, env);
    case OpRegisterVerify(t, p, c, verified) => RegisterVerifyKeeps(s, t, p, c, verified, env);
    case OpDisablePasskey(t, cred, proof) => DisablePasskeyKeeps(s, t, cred, proof, env);
    case OpUseLogin(t, p, proof) => UseLoginKeeps(s, t, p, proof, env);
    case OpUseSeparate(t, p, proof) => UseSeparateKeeps(s, t, p, proof, env);
  }

  lemma ProofStepKeeps(s: State, op: ProofOp, env: Env)
    requires Inv(s)
    ensures Inv(ProofStep(s, op, env))
  {
    match op
    case OpStepUpTotp(t, a, code) => StepUpTotpKeeps(s, t, a, code, env);
    case OpStepUpOptions(t, a) => StepUpOptionsKeeps(s, t, a, env);
    case OpStepUpPasskey(t, p, c, cred, verified) => StepUpPasskeyKeeps(s, t, p, c, cred, verified, env);
    case OpProtected(t, a, proof, commits) => ProtectedKeeps(s, t, a, proof, commits, env);
    case OpOthersStepUp(g) => GrantAdded(s, g);
  }

  /** Every handler keeps every invariant. */
  lemma StepKeeps(s: State, op: Op, env: Env)
    requires Inv(s)
    ensures Inv(Step(s, op, env))
  {
    match op
    case OnSession(so) => SessionStepKeeps(s, so, env);
    case OnFactor(fo) => FactorStepKeeps(s, fo, env);
    case OnProof(po) => ProofStepKeeps(s, po, env);
  }

  /** A new identity: nothing set up, a PIN waiting. */
  ghost predicate Initial(s: State) {
    && s.active && !s.revoked && s.pending && s.tokens == [] && s.accepted == [] && s.spent == [] && s.grants == []
    && s.credentials == [] && !s.uses2 && !s.uses3
    && var none := Totp(None, false, None); s.totp == Totps(none, none, none)
  }

  lemma {:induction false} RunKeeps(s: State, ops: seq<(Op, Env)>)
    requires Initial(s)
    ensures Inv(Run(s, ops))
  {
    if ops != [] {
      RunKeeps(s, ops[..|ops| - 1]);
      StepKeeps(Run(s, ops[..|ops| - 1]), ops[|ops| - 1].0, ops[|ops| - 1].1);
    }
  }

  // ---------------------------------------------------------------- what follows in every reachable state

  /** At most one issued session is live. */
  lemma OneLiveSession(s: State, ops: seq<(Op, Env)>, i: nat, j: nat)
    requires Initial(s) && i < |Run(s, ops).tokens| && j < |Run(s, ops).tokens|
    requires Live(Run(s, ops), Run(s, ops).tokens[i]) && Live(Run(s, ops), Run(s, ops).tokens[j])
    ensures i == j
  {
    RunKeeps(s, ops);
  }

  /** A live full session, or a finished onboarding, has both login factors behind it. */
  lemma FullMeansSetUp(s: State, ops: seq<(Op, Env)>)
    requires Initial(s)
    ensures var r := Run(s, ops);
      (!r.pending || exists t: Token :: t.full && Live(r, t)) ==> r.totp.login.enabled && Scoped(r.credentials, LOGIN) >= 1
  {
    RunKeeps(s, ops);
  }

  /** A factor linked to login has no authenticator and no passkey of its own. */
  lemma LinkedHasNoOwn(s: State, ops: seq<(Op, Env)>, p: Purpose)
    requires Initial(s) && UsesLogin(Run(s, ops), p)
    ensures !Run(s, ops).totp.Get(p).enabled && Scoped(Run(s, ops).credentials, p) == 0
  {
    RunKeeps(s, ops);
  }

  /** Replay protection over whole runs: the steps accepted for one secret strictly increase,
      whichever of login, factor 2 and factor 3 they were used for. */
  lemma StepsNeverRepeat(s: State, ops: seq<(Op, Env)>, i: nat, j: nat)
    requires Initial(s) && i < j < |Run(s, ops).accepted|
    requires Run(s, ops).accepted[i].0 == Run(s, ops).accepted[j].0
    ensures Run(s, ops).accepted[i].1 < Run(s, ops).accepted[j].1
  {
    RunKeeps(s, ops);
  }

  /** Each step-up token is accepted at most once, by its owner, for its action, in the session it
      was issued in, before it expires. */
  lemma TokensSpentOnce(s: State, ops: seq<(Op, Env)>, i: nat)
    requires Initial(s) && i < |Run(s, ops).spent|
    ensures var r := Run(s, ops); var x := r.spent[i];
      && x.grant < |r.grants| && x.user == r.id == r.grants[x.grant].user && x.at < r.grants[x.grant].expires
      && r.grants[x.grant].(consumed := true) == Grant(x.user, x.purpose, x.action, x.version, r.grants[x.grant].expires, true)
      && forall j :: 0 <= j < |r.spent| && r.spent[j].grant == x.grant ==> j == i
  {
    RunKeeps(s, ops);
  }

  /** The factor an accepted token is of: the second for submitting, viewing and asking, the one that is managed
      for managing a factor, login for linking, the third for everything else. */
  predicate OfItsFactor(x: Spend) {
    && (x.purpose == FACTOR2 <==> x.action in {DOCUMENT_VIEW, DOCUMENT_SUBMIT, ACCESS_REQUEST, DOWNLOAD_REQUEST} || x.action == MANAGE(FACTOR2))
    && (x.purpose == LOGIN <==> x.action.LINK? || x.action == MANAGE(LOGIN))
  }

  /** Nothing was accepted, or one token of the right factor. */
  ghost predicate SpendsRight(s: State, r: State) {
    r.spent == s.spent || exists x: Spend :: OfItsFactor(x) && r.spent == s.spent + [x]
  }

  lemma CodeSpends(s: State, p: Purpose, code: int, requireEnabled: bool, env: Env)
    ensures VerifyTotp(s, p, code, requireEnabled, env).Some? ==> VerifyTotp(s, p, code, requireEnabled, env).value.spent == s.spent
  {
  }

  lemma TokenSpends(s: State, g: nat, a: Action, now: int)
    ensures var r := ConsumeStepUp(s, g, PurposeOf(a), a, now); r.Some? ==> SpendsRight(s, r.value)
  {
    assert OfItsFactor(Spend(g, s.id, PurposeOf(a), a, s.version, now));
  }

  lemma RequireSpends(s: State, a: Action, proof: Proof, env: Env)
    ensures RequireFactor(s, a, proof, env).Some? ==> SpendsRight(s, RequireFactor(s, a, proof, env).value)
  {
    if proof.code.Some? {
      CodeSpends(s, PurposeOf(a), proof.code.value, true, env);
    }
    if proof.grant.Some? {
      TokenSpends(s, proof.grant.value, a, env.now);
    }
  }

  lemma AdmitSpends(s: State, t: Token, env: Env)
    ensures Authenticate(s, t, env).1.spent == s.spent && AuthenticateFull(s, t, env).1 == Authenticate(s, t, env).1
  {
  }

  lemma SessionSpends(s: State, op: SessionOp, env: Env)
    ensures SessionStep(s, op, env).spent == s.spent
  {
    match op
    case OpLoginTotp(code) => CodeSpends(s, LOGIN, code, true, env);
    case OpLogout(t) => AdmitSpends(s, t, env);
    case _ =>
  }

  lemma FinishSpends(s: State, p: Purpose, env: Env)
    ensures Finish(s, p, env).spent == s.spent
  {
  }

  lemma VerifySpends(s: State, t: Token, p: Purpose, code: int, env: Env)
    ensures TotpVerify(s, t, p, code, env).spent == s.spent
  {
    AdmitSpends(s, t, env);
    var s1 := Authenticate(s, t, env).1;
    CodeSpends(s1, p, code, false, env);
    var v := VerifyTotp(s1, p, code, false, env);
    if v.Some? {
      FinishSpends(Enabled(v.value, p), p, env);
    }
  }

  lemma RegisterSpends(s: State, t: Token, p: Purpose, c: nat, verified: bool, env: Env)
    ensures RegisterVerify(s, t, p, c, verified, env).spent == s.spent
  {
    AdmitSpends(s, t, env);
    var s1 := Authenticate(s, t, env).1;
    if c < |s1.challenges| {
      var s2 := SpendChallenge(s1, c);
      FinishSpends(s2.(credentials := s2.credentials + [Credential(p, env.site, true)]), p, env);
    }
  }

  lemma ManageSpends(s: State, t: Token, p: Purpose, proof: Proof, env: Env)
    ensures SpendsRight(s, TotpSetup(s, t, p, proof, env)) && SpendsRight(s, TotpReset(s, t, p, proof, env))
    ensures SpendsRight(s, RegisterOptions(s, t, p, proof, env))
  {
    AdmitSpends(s, t, env);
    RequireSpends(Authenticate(s, t, env).1, MANAGE(p), proof, env);
  }

  lemma LinkSpends(s: State, t: Token, p: Purpose, proof: Proof, env: Env)
    ensures SpendsRight(s, UseLogin(s, t, p, proof, env)) && SpendsRight(s, UseSeparate(s, t, p, proof, env))
  {
    AdmitSpends(s, t, env);
    RequireSpends(Authenticate(s, t, env).1, LINK(p), proof, env);
  }

  lemma DisableSpends(s: State, t: Token, cred: nat, proof: Proof, env: Env)
    ensures SpendsRight(s, DisablePasskey(s, t, cred, proof, env))
  {
    AdmitSpends(s, t, env);
    var s1 := Authenticate(s, t, env).1;
    if cred < |s1.credentials| {
      RequireSpends(s1, MANAGE(s1.credentials[cred].scope), proof, env);
    }
  }

  lemma FactorSpends(s: State, op: FactorOp, env: Env)
    ensures SpendsRight(s, FactorStep(s, op, env))
  {
    match op
    case OpTotpSetup(t, p, proof) => ManageSpends(s, t, p, proof, env);
    case OpTotpVerify(t, p, code) => VerifySpends(s, t, p, code, env);
    case OpTotpReset(t, p, proof) => ManageSpends(s, t, p, proof, env);
    case OpRegisterOptions(t, p, proof) => ManageSpends(s, t, p, proof, env);
    case OpRegisterVerify(t, p, c, verified) => RegisterSpends(s, t, p, c, verified, env);
    case OpDisablePasskey(t, cred, proof) => DisableSpends(s, t, cred, proof, env);
    case OpUseLogin(t, p, proof) => LinkSpends(s, t, p, proof, env);
    case OpUseSeparate(t, p, proof) => LinkSpends(s, t, p, proof, env);
  }

  lemma ProofSpends(s: State, op: ProofOp, env: Env)
    ensures SpendsRight(s, ProofStep(s, op, env))
  {
    match op
    case OpStepUpTotp(t, a, code) =>
      AdmitSpends(s, t, env);
      CodeSpends(Authenticate(s, t, env).1, PurposeOf(a), code, true, env);
    case OpStepUpOptions(t, a) => AdmitSpends(s, t, env);
    case OpStepUpPasskey(t, _, _, _, _) => AdmitSpends(s, t, env);
    case OpProtected(t, a, proof, _) =>
      AdmitSpends(s, t, env);
      RequireSpends(Authenticate(s, t, env).1, a, proof, env);
    case OpOthersStepUp(_) =>
  }

  /** In every run each token that was accepted was of the factor its action calls for. */
  lemma {:induction false} SpentOnItsFactor(s: State, ops: seq<(Op, Env)>)
    requires Initial(s)
    ensures forall x :: x in Run(s, ops).spent ==> OfItsFactor(x)
  {
    if ops != [] {
      var init, last := Run(s, ops[..|ops| - 1]), ops[|ops| - 1];
      SpentOnItsFactor(s, ops[..|ops| - 1]);
      match last.0
      case OnSession(so) => SessionSpends(init, so, last.1);
      case OnFactor(fo) => FactorSpends(init, fo, last.1);
      case OnProof(po) => ProofSpends(init, po, last.1);
    }
  }

  /** The session is live, the request comes from the address it was issued to, and the last activity
      is within the limit. */
  predicate Good(s: State, t: Token, env: Env) {
    && Live(s, t) && (t.ip == "" || t.ip == env.ip)
    && (s.lastActivity.Some? ==> env.now - s.lastActivity.value <= env.timeout)
  }

  /** r is a later state of s: tokens are only added, the version only rises, nobody is reactivated. */
  predicate Later(s: State, r: State) { s.tokens <= r.tokens && s.version <= r.version && (Usable(r) ==> Usable(s)) }

  /** A check of a code or a token leaves the session part of the row alone. */
  predicate SameSession(s: State, r: State) { r.tokens == s.tokens && r.version == s.version && Usable(r) == Usable(s) }

  lemma VerifySame(s: State, p: Purpose, code: int, requireEnabled: bool, env: Env)
    ensures VerifyTotp(s, p, code, requireEnabled, env).Some? ==> SameSession(s, VerifyTotp(s, p, code, requireEnabled, env).value)
  {
  }

  lemma RequireSame(s: State, a: Action, proof: Proof, env: Env)
    ensures RequireFactor(s, a, proof, env).Some? ==> SameSession(s, RequireFactor(s, a, proof, env).value)
  {
    var p := PurposeOf(a);
    if proof.code.Some? {
      VerifySame(s, p, proof.code.value, true, env);
    }
    if proof.grant.Some? && ConsumeStepUp(s, proof.grant.value, p, a, env.now).Some? {
      assert SameSession(s, ConsumeStepUp(s, proof.grant.value, p, a, env.now).value);
    }
  }

  lemma AdmitLater(s: State, t: Token, env: Env)
    ensures Later(s, Authenticate(s, t, env).1) && AuthenticateFull(s, t, env).1 == Authenticate(s, t, env).1
  {
  }

  lemma SessionLater(s: State, op: SessionOp, env: Env)
    ensures Later(s, SessionStep(s, op, env))
  {
    match op
    case OpLoginTotp(code) => VerifySame(s, LOGIN, code, true, env);
    case OpLogout(t) => AdmitLater(s, t, env);
    case _ =>
  }

  lemma FinishLater(s: State, p: Purpose, env: Env)
    ensures Later(s, Finish(s, p, env))
  {
  }

  lemma TotpVerifyLater(s: State, t: Token, p: Purpose, code: int, env: Env)
    ensures Later(s, TotpVerify(s, t, p, code, env))
  {
    AdmitLater(s, t, env);
    var s1 := Authenticate(s, t, env).1;
    VerifySame(s1, p, code, false, env);
    var v := VerifyTotp(s1, p, code, false, env);
    if v.Some? {
      FinishLater(Enabled(v.value, p), p, env);
    }
  }

  lemma RegisterVerifyLater(s: State, t: Token, p: Purpose, c: nat, verified: bool, env: Env)
    ensures Later(s, RegisterVerify(s, t, p, c, verified, env))
  {
    AdmitLater(s, t, env);
    var s1 := Authenticate(s, t, env).1;
    if c < |s1.challenges| {
      var s2 := SpendChallenge(s1, c);
      FinishLater(s2.(credentials := s2.credentials + [Credential(p, env.site, true)]), p, env);
    }
  }

  lemma DisableLater(s: State, t: Token, cred: nat, proof: Proof, env: Env)
    ensures Later(s, DisablePasskey(s, t, cred, proof, env))
  {
    AdmitLater(s, t, env);
    var s1 := Authenticate(s, t, env).1;
    if cred < |s1.credentials| {
      RequireSame(s1, MANAGE(s1.credentials[cred].scope), proof, env);
    }
  }

  lemma TotpSetupLater(s: State, t: Token, p: Purpose, proof: Proof, env: Env)
    ensures Later(s, TotpSetup(s, t, p, proof, env))
  {
    AdmitLater(s, t, env);
    RequireSame(Authenticate(s, t, env).1, MANAGE(p), proof, env);
  }

  lemma TotpResetLater(s: State, t: Token, p: Purpose, proof: Proof, env: Env)
    ensures Later(s, TotpReset(s, t, p, proof, env))
  {
    AdmitLater(s, t, env);
    RequireSame(Authenticate(s, t, env).1, MANAGE(p), proof, env);
  }

  lemma RegisterOptionsLater(s: State, t: Token, p: Purpose, proof: Proof, env: Env)
    ensures Later(s, RegisterOptions(s, t, p, proof, env))
  {
    AdmitLater(s, t, env);
    RequireSame(Authenticate(s, t, env).1, MANAGE(p), proof, env);
  }

  lemma LinkLater(s: State, t: Token, p: Purpose, proof: Proof, env: Env)
    ensures Later(s, UseLogin(s, t, p, proof, env)) && Later(s, UseSeparate(s, t, p, proof, env))
  {
    AdmitLater(s, t, env);
    RequireSame(Authenticate(s, t, env).1, LINK(p), proof, env);
  }

  lemma FactorLater(s: State, op: FactorOp, env: Env)
    ensures Later(s, FactorStep(s, op, env))
  {
    match op
    case OpTotpSetup(t, p, proof) => TotpSetupLater(s, t, p, proof, env);
    case OpTotpVerify(t, p, code) => TotpVerifyLater(s, t, p, code, env);
    case OpTotpReset(t, p, proof) => TotpResetLater(s, t, p, proof, env);
    case OpRegisterOptions(t, p, proof) => RegisterOptionsLater(s, t, p, proof, env);
    case OpRegisterVerify(t, p, c, verified) => RegisterVerifyLater(s, t, p, c, verified, env);
    case OpDisablePasskey(t, cred, proof) => DisableLater(s, t, cred, proof, env);
    case OpUseLogin(t, p, proof) => LinkLater(s, t, p, proof, env);
    case OpUseSeparate(t, p, proof) => LinkLater(s, t, p, proof, env);
  }

  lemma ProofLater(s: State, op: ProofOp, env: Env)
    ensures Later(s, ProofStep(s, op, env))
  {
    match op
    case OpStepUpTotp(t, a, code) =>
      AdmitLater(s, t, env);
      VerifySame(Authenticate(s, t, env).1, PurposeOf(a), code, true, env);
    case OpStepUpOptions(t, a) => AdmitLater(s, t, env);
    case OpStepUpPasskey(t, _, _, _, _) => AdmitLater(s, t, env);
    case OpProtected(t, a, proof, _) =>
      AdmitLater(s, t, env);
      RequireSame(Authenticate(s, t, env).1, a, proof, env);
    case OpOthersStepUp(_) =>
  }

  lemma EndedStep(s: State, op: Op, env: Env, i: nat)
    requires Inv(s) && i < |s.tokens| && !Live(s, s.tokens[i])
    ensures var r := Step(s, op, env); i < |r.tokens| && r.tokens[i] == s.tokens[i] && !Live(r, s.tokens[i])
  {
    match op
    case OnSession(so) => SessionLater(s, so, env);
    case OnFactor(fo) => FactorLater(s, fo, env);
    case OnProof(po) => ProofLater(s, po, env);
  }

  ghost predicate Ended(r: State, t: Token, i: nat) { i < |r.tokens| && r.tokens[i] == t && !Live(r, t) }

  lemma EndedNext(s: State, ops: seq<(Op, Env)>, last: (Op, Env), t: Token, i: nat)
    requires Initial(s) && Ended(Run(s, ops), t, i)
    ensures Ended(Run(s, ops + [last]), t, i)
  {
    assert (ops + [last])[..|ops|] == ops;
    RunKeeps(s, ops);
    EndedStep(Run(s, ops), last.0, last.1, i);
  }

  /** A session that has ended stays ended: in no later state is it live again. */
  lemma {:induction false} EndedStaysEnded(s: State, ops: seq<(Op, Env)>, more: seq<(Op, Env)>, t: Token, i: nat)
    requires Initial(s) && Ended(Run(s, ops), t, i)
    ensures Ended(Run(s, ops + more), t, i)
  {
    if more == [] {
      assert ops + more == ops;
    } else {
      var init, last := more[..|more| - 1], more[|more| - 1];
      EndedStaysEnded(s, ops, init, t, i);
      assert ops + more == (ops + init) + [last];
      EndedNext(s, ops + init, last, t, i);
    }
  }

  /** The session a request presents. */
  function Presented(op: Op): Option<Token> {
    match op
    case OnSession(so) => if so.OpLogout? || so.OpCheck? then Some(so.t) else None
    case OnFactor(fo) => Some(fo.t)
    case OnProof(po) => if po.OpOthersStepUp? then None else Some(po.t)
  }

  /** A refused request does nothing else. */
  lemma RefusedStep(s: State, op: Op, env: Env)
    requires Presented(op).Some? && !CheckSession(s, Presented(op).value, env).0
    ensures Step(s, op, env) == CheckSession(s, Presented(op).value, env).1
  {
  }

  lemma RefusedEnds(s: State, op: Op, env: Env, t: Token)
    requires Inv(s) && Presented(op) == Some(t) && t in s.tokens && !Good(s, t, env)
    ensures Step(s, op, env).tokens == s.tokens && !Live(Step(s, op, env), t)
  {
    RefusedStep(s, op, env);
  }

  /** In every run a request with a session is granted exactly if the session is good for it; and once
      one was refused, for another address, for inactivity or because the session had ended, every
      later one is refused and changes nothing, whatever happens in between and wherever and
      whenever it is made. */
  lemma {:induction false} RefusedForGood(s: State, ops: seq<(Op, Env)>, op: Op, env: Env, more: seq<(Op, Env)>, i: nat, later: Env)
    requires Initial(s) && i < |Run(s, ops).tokens| && Presented(op) == Some(Run(s, ops).tokens[i])
    ensures var r, t := Run(s, ops), Run(s, ops).tokens[i];
      && (Authenticate(r, t, env).0 <==> Good(r, t, env)) && (CheckSession(r, t, env).0 <==> Good(r, t, env))
    ensures var r, t := Run(s, ops + [(op, env)] + more), Run(s, ops).tokens[i];
      !Good(Run(s, ops), t, env) ==> CheckSession(r, t, later) == (false, r) && Authenticate(r, t, later) == (false, r)
  {
    if !Good(Run(s, ops), Run(s, ops).tokens[i], env) {
      RunKeeps(s, ops);
      RefusedEnds(Run(s, ops), op, env, Run(s, ops).tokens[i]);
      assert (ops + [(op, env)])[..|ops|] == ops;
      EndedStaysEnded(s, ops + [(op, env)], more, Run(s, ops).tokens[i], i);
    }
  }

  /** Asking about a session, however often, does not keep it alive: it ends when its last real
      activity is too long ago. */
  lemma {:induction false} ChecksAreNoActivity(s: State, checks: seq<(Op, Env)>, t: Token, env: Env)
    requires forall i :: 0 <= i < |checks| ==> checks[i].0.OnSession? && checks[i].0.so.OpCheck?
    requires s.lastActivity.Some? && env.now - s.lastActivity.value > env.timeout
    ensures Run(s, checks).lastActivity == s.lastActivity
    ensures !Authenticate(Run(s, checks), t, env).0 && !Live(Authenticate(Run(s, checks), t, env).1, t)
  {
    if checks != [] {
      ChecksAreNoActivity(s, checks[..|checks| - 1], t, env);
    }
  }

  // ---------------------------------------------------------------- what a proof is

  /** The step-up token is this user's, for this action and its purpose, from this session, unused and
      in time. */
  predicate TokenGood(s: State, g: nat, a: Action, now: int) {
    && g < |s.grants| && s.grants[g].user == s.id && s.grants[g].purpose == PurposeOf(a) && s.grants[g].action == a
    && s.grants[g].version == s.version && !s.grants[g].consumed && s.grants[g].expires > now
  }

  /** The authenticator that counts for a purpose: the login one where the factor is linked to it. */
  function Counting(s: State, p: Purpose): Totp {
    match p
    case LOGIN => s.totp.login
    case FACTOR2 => if s.uses2 then s.totp.login else s.totp.factor2
    case FACTOR3 => if s.uses3 then s.totp.login else s.totp.factor3
  }

  /** The first step around now whose code this is: one half minute before, now, or one after. */
  ghost predicate FirstStep(secret: nat, code: int, step: int, env: Env) {
    && env.now / 30 - 1 <= step <= env.now / 30 + 1 && env.codeAt(secret, step) == code
    && forall e :: env.now / 30 - 1 <= e < step ==> env.codeAt(secret, e) != code
  }

  ghost predicate CodeGood(s: State, p: Purpose, code: int, step: int, env: Env) {
    && Counting(s, p).secret.Some? && FirstStep(Counting(s, p).secret.value, code, step, env)
    && (Counting(s, p).lastStep.Some? ==> step > Counting(s, p).lastStep.value)
  }

  /** One token more was accepted, and it is used up. */
  ghost predicate TokenSpent(s: State, r: State, g: nat, a: Action, now: int) {
    && TokenGood(s, g, a, now) && r.spent == s.spent + [Spend(g, s.id, PurposeOf(a), a, s.version, now)] && r.accepted == s.accepted
    && g < |r.grants| && r.grants[g] == s.grants[g].(consumed := true)
  }

  /** One code more was accepted, for the authenticator that counts, which is enabled and remembers it. */
  ghost predicate CodeSpent(s: State, r: State, p: Purpose, code: int, step: int, env: Env) {
    && CodeGood(s, p, code, step, env) && Counting(s, p).enabled
    && r.accepted == s.accepted + [(Counting(s, p).secret.value, step)] && r.spent == s.spent
  }

  lemma MatchExact(secret: nat, code: int, env: Env, step: int)
    ensures MatchStep(secret, code, env) == Some(step) <==> FirstStep(secret, code, step, env)
  {
  }

  /** What accepting a code leaves: one step more, remembered by the authenticator that counts. */
  ghost predicate CodeKept(s: State, r: State, p: Purpose, step: int) {
    && Counting(s, p).secret.Some? && r == s.(totp := r.totp, accepted := s.accepted + [(Counting(s, p).secret.value, step)])
    && Counting(r, p) == Counting(s, p).(lastStep := Some(step))
  }

  lemma CodeAccepted(s: State, p: Purpose, code: int, requireEnabled: bool, env: Env, step: int)
    requires CodeGood(s, p, code, step, env) && (requireEnabled ==> Counting(s, p).enabled)
    ensures var r := VerifyTotp(s, p, code, requireEnabled, env); r.Some? && CodeKept(s, r.value, p, step)
  {
    MatchExact(Counting(s, p).secret.value, code, env, step);
  }

  lemma CodeStep(s: State, p: Purpose, code: int, requireEnabled: bool, env: Env) returns (step: int)
    requires VerifyTotp(s, p, code, requireEnabled, env).Some?
    ensures CodeGood(s, p, code, step, env) && (requireEnabled ==> Counting(s, p).enabled)
  {
    step := MatchStep(Counting(s, p).secret.value, code, env).value;
    MatchExact(Counting(s, p).secret.value, code, env, step);
  }

  /** A code is accepted if and only if it is the first match of the three steps around now, later than
      the last one accepted; then that step is remembered, and nothing else changes. */
  lemma CodeExact(s: State, p: Purpose, code: int, requireEnabled: bool, env: Env)
    ensures var r := VerifyTotp(s, p, code, requireEnabled, env);
      && (r.Some? <==> (requireEnabled ==> Counting(s, p).enabled) && exists step :: CodeGood(s, p, code, step, env))
      && (r.Some? ==> exists step :: CodeGood(s, p, code, step, env) && CodeKept(s, r.value, p, step))
  {
    if VerifyTotp(s, p, code, requireEnabled, env).Some? {
      var step := CodeStep(s, p, code, requireEnabled, env);
      CodeAccepted(s, p, code, requireEnabled, env, step);
    } else if step :| CodeGood(s, p, code, step, env) {
      if requireEnabled ==> Counting(s, p).enabled {
        CodeAccepted(s, p, code, requireEnabled, env, step);
      }
    }
  }

  lemma TokenExact(s: State, g: nat, a: Action, now: int)
    ensures var r := ConsumeStepUp(s, g, PurposeOf(a), a, now);
      && (r.Some? <==> TokenGood(s, g, a, now))
      && (r.Some? ==> TokenSpent(s, r.value, g, a, now) && r.value == s.(grants := r.value.grants, spent := r.value.spent))
  {
  }

  lemma CodePays(s: State, p: Purpose, code: int, env: Env)
    ensures var r := VerifyTotp(s, p, code, true, env);
      && (r.Some? <==> Counting(s, p).enabled && exists step :: CodeGood(s, p, code, step, env))
      && (r.Some? ==> r.value == s.(totp := r.value.totp, accepted := r.value.accepted)
                      && exists step :: CodeSpent(s, r.value, p, code, step, env))
  {
    CodeExact(s, p, code, true, env);
    var r := VerifyTotp(s, p, code, true, env);
    if r.Some? {
      var step :| CodeGood(s, p, code, step, env) && CodeKept(s, r.value, p, step);
      assert CodeSpent(s, r.value, p, code, step, env);
    }
  }

  predicate ByToken(s: State, a: Action, proof: Proof, now: int) { proof.grant.Some? && TokenGood(s, proof.grant.value, a, now) }

  ghost predicate ByCode(s: State, a: Action, proof: Proof, env: Env) {
    proof.code.Some? && Counting(s, PurposeOf(a)).enabled && exists step :: CodeGood(s, PurposeOf(a), proof.code.value, step, env)
  }

  lemma TokenPasses(s: State, a: Action, proof: Proof, env: Env)
    requires ByToken(s, a, proof, env.now)
    ensures RequireFactor(s, a, proof, env).Some?
    ensures var r := RequireFactor(s, a, proof, env).value;
      && TokenSpent(s, r, proof.grant.value, a, env.now) && r == s.(grants := r.grants, spent := r.spent) && ProofSpent(s, r)
  {
    TokenExact(s, proof.grant.value, a, env.now);
  }

  lemma CodeSecrets(s: State, p: Purpose, code: int, env: Env)
    requires VerifyTotp(s, p, code, true, env).Some?
    ensures ProofSpent(s, VerifyTotp(s, p, code, true, env).value)
  {
  }

  lemma CodePasses(s: State, a: Action, proof: Proof, env: Env)
    requires !ByToken(s, a, proof, env.now)
    ensures var r := RequireFactor(s, a, proof, env);
      && (r.Some? <==> ByCode(s, a, proof, env))
      && (r.Some? ==> r.value == s.(totp := r.value.totp, accepted := r.value.accepted) && ProofSpent(s, r.value)
                      && exists step :: CodeSpent(s, r.value, PurposeOf(a), proof.code.value, step, env))
  {
    if proof.grant.Some? {
      TokenExact(s, proof.grant.value, a, env.now);
    }
    if proof.code.Some? {
      CodePays(s, PurposeOf(a), proof.code.value, env);
      if VerifyTotp(s, PurposeOf(a), proof.code.value, true, env).Some? {
        CodeSecrets(s, PurposeOf(a), proof.code.value, env);
      }
    }
    EnabledIs(s, PurposeOf(a));
  }

  /** What a proof is, and what it is not: a request passes if and only if it presents a good token, or,
      with none that is good, a good code of the enabled authenticator that counts for the action. With
      neither it is refused. What passed has cost exactly that one token or that one code, and has
      changed nothing else. */
  lemma ProofExact(s: State, a: Action, proof: Proof, env: Env)
    ensures RequireFactor(s, a, proof, env).Some? <==> ByToken(s, a, proof, env.now) || ByCode(s, a, proof, env)
    ensures ByToken(s, a, proof, env.now) ==> TokenSpent(s, RequireFactor(s, a, proof, env).value, proof.grant.value, a, env.now)
    ensures var r := RequireFactor(s, a, proof, env);
      r.Some? && !ByToken(s, a, proof, env.now) ==> exists step :: CodeSpent(s, r.value, PurposeOf(a), proof.code.value, step, env)
    ensures var r := RequireFactor(s, a, proof, env);
      r.Some? ==> r.value == s.(totp := r.value.totp, accepted := r.value.accepted, grants := r.value.grants, spent := r.value.spent)
  {
    if ByToken(s, a, proof, env.now) {
      TokenPasses(s, a, proof, env);
    } else {
      CodePasses(s, a, proof, env);
    }
  }

  lemma EnabledIs(s: State, p: Purpose)
    ensures TotpEnabled(s, p) <==> Counting(s, p).enabled
  {
  }

  // ---------------------------------------------------------------- what each request can do

  /** The request presents what the action asks for: a good token, or a good code of the enabled
      authenticator that counts. */
  ghost predicate Proves(s: State, a: Action, proof: Proof, env: Env) { ByToken(s, a, proof, env.now) || ByCode(s, a, proof, env) }

  /** A proof leaves everything but the record of itself. */
  ghost predicate ProofSpent(s: State, r: State) {
    && r == s.(totp := r.totp, accepted := r.accepted, grants := r.grants, spent := r.spent, lastActivity := r.lastActivity)
    && (forall p :: r.totp.Get(p).secret == s.totp.Get(p).secret && r.totp.Get(p).enabled == s.totp.Get(p).enabled)
  }

  lemma ProvesExact(s: State, a: Action, proof: Proof, env: Env)
    ensures RequireFactor(s, a, proof, env).Some? <==> Proves(s, a, proof, env)
    ensures RequireFactor(s, a, proof, env).Some? ==> ProofSpent(s, RequireFactor(s, a, proof, env).value)
  {
    if ByToken(s, a, proof, env.now) {
      TokenPasses(s, a, proof, env);
    } else {
      CodePasses(s, a, proof, env);
    }
  }

  ghost predicate Touched(s: State, r: State) { r == s.(lastActivity := r.lastActivity) }

  ghost predicate Closed(s: State, r: State) { r == s.(version := r.version) }

  lemma Granted(s: State, t: Token, env: Env)
    requires Good(s, t, env)
    ensures var (ok, r) := Authenticate(s, t, env); ok && Touched(s, r) && AuthenticateFull(s, t, env) == (t.full, r)
  {
  }

  lemma Refused(s: State, t: Token, env: Env)
    requires !Good(s, t, env)
    ensures var (ok, r) := Authenticate(s, t, env); !ok && Closed(s, r) && AuthenticateFull(s, t, env) == (false, r)
  {
  }

  /** A request is granted exactly on a good session, and then only the time of the last activity
      changes; when it is refused at most the session ends. */
  lemma GrantedExact(s: State, t: Token, env: Env)
    ensures var (ok, r) := Authenticate(s, t, env); (ok <==> Good(s, t, env)) && (if ok then Touched(s, r) else Closed(s, r))
    ensures AuthenticateFull(s, t, env) == (Good(s, t, env) && t.full, Authenticate(s, t, env).1)
  {
    if Good(s, t, env) {
      Granted(s, t, env);
    } else {
      Refused(s, t, env);
    }
  }

  /** A granted request is written down as the last activity exactly when the one recorded is older than
      the touch interval; so what is recorded is never further behind, and a session used that much
      within the limit stays good. */
  lemma ActivityKept(s: State, t: Token, env: Env, later: Env)
    requires Good(s, t, env)
    ensures Authenticate(s, t, env).1
         == if s.lastActivity.Some? && env.now - s.lastActivity.value <= env.touch then s else s.(lastActivity := Some(env.now))
    ensures env.touch >= 0 && later.ip == env.ip && later.timeout == env.timeout && later.now - env.now <= env.timeout - env.touch ==>
      Good(Authenticate(s, t, env).1, t, later)
  {
  }

  lemma ProvesTouched(s: State, r: State, a: Action, proof: Proof, env: Env)
    requires Touched(s, r)
    ensures Proves(r, a, proof, env) <==> Proves(s, a, proof, env)
  {
    if proof.code.Some? {
      forall step ensures CodeGood(r, PurposeOf(a), proof.code.value, step, env) <==> CodeGood(s, PurposeOf(a), proof.code.value, step, env) {
      }
    }
  }

  predicate Linked(s: State, p: Purpose) { (p == FACTOR2 && s.uses2) || (p == FACTOR3 && s.uses3) }

  /** A passkey of the purpose's own is active somewhere. */
  ghost predicate HasPasskey(creds: seq<Credential>, scope: Purpose) {
    exists i :: 0 <= i < |creds| && creds[i].active && creds[i].scope == scope
  }

  ghost predicate HasPasskeyHere(creds: seq<Credential>, scope: Purpose, site: string) {
    exists i :: 0 <= i < |creds| && creds[i].active && creds[i].scope == scope && creds[i].site == site
  }

  lemma {:induction false} ScopedExact(creds: seq<Credential>, scope: Purpose, site: string)
    ensures Scoped(creds, scope) > 0 <==> HasPasskey(creds, scope)
    ensures HereScoped(creds, scope, site) > 0 <==> HasPasskeyHere(creds, scope, site)
  {
    if creds != [] {
      var init := creds[..|creds| - 1];
      ScopedExact(init, scope, site);
      assert forall i :: 0 <= i < |init| ==> creds[i] == init[i];
      var last := creds[|creds| - 1];
      if last.active && last.scope == scope {
        assert HasPasskey(creds, scope);
      }
      if HasPasskey(creds, scope) && !HasPasskey(init, scope) {
        var i :| 0 <= i < |creds| && creds[i].active && creds[i].scope == scope;
        assert i == |init|;
      }
      if HasPasskeyHere(creds, scope, site) && !HasPasskeyHere(init, scope, site) {
        var i :| 0 <= i < |creds| && creds[i].active && creds[i].scope == scope && creds[i].site == site;
        assert i == |init|;
      }
    }
  }

  /** A good session (a full one, once set up, for factors 2 and 3 that are not linked, with a proof where
      they have a passkey) whose authenticator is not enabled yet may draw a new secret. */
  ghost predicate MayDraw(s: State, t: Token, p: Purpose, proof: Proof, env: Env) {
    && Good(s, t, env) && !s.totp.Get(p).enabled
    && (p != LOGIN ==> t.full && !s.pending && !Linked(s, p))
    && (p != LOGIN && HasPasskey(s.credentials, p) ==> Proves(s, MANAGE(p), proof, env))
  }

  ghost predicate OthersSame(s: State, r: State, p: Purpose) {
    forall q :: q != p ==> r.totp.Get(q).secret == s.totp.Get(q).secret && r.totp.Get(q).enabled == s.totp.Get(q).enabled
  }

  /** A new authenticator secret is drawn exactly then; the old one is never touched otherwise. */
  ghost predicate DrawnExactly(s: State, r: State, t: Token, p: Purpose, proof: Proof, env: Env) {
    if MayDraw(s, t, p, proof, env)
    then r.totp.Get(p) == Totp(Some(s.nextSecret), false, None) && r.nextSecret == s.nextSecret + 1 && OthersSame(s, r, p)
    else r.totp == s.totp && r.nextSecret == s.nextSecret
  }

  lemma LoginSetupExact(s: State, t: Token, proof: Proof, env: Env)
    ensures DrawnExactly(s, TotpSetup(s, t, LOGIN, proof, env), t, LOGIN, proof, env)
  {
    GrantedExact(s, t, env);
  }

  lemma FactorDraws(s: State, t: Token, p: Purpose, proof: Proof, env: Env)
    requires p != LOGIN && MayDraw(s, t, p, proof, env)
    ensures DrawnExactly(s, TotpSetup(s, t, p, proof, env), t, p, proof, env)
  {
    Granted(s, t, env);
    var s1 := Authenticate(s, t, env).1;
    ScopedExact(s.credentials, p, "");
    ProvesExact(s1, MANAGE(p), proof, env);
    ProvesTouched(s, s1, MANAGE(p), proof, env);
  }

  lemma FactorDrawsNot(s: State, t: Token, p: Purpose, proof: Proof, env: Env)
    requires p != LOGIN && Good(s, t, env) && t.full && !MayDraw(s, t, p, proof, env)
    ensures DrawnExactly(s, TotpSetup(s, t, p, proof, env), t, p, proof, env)
  {
    Granted(s, t, env);
    var s1 := Authenticate(s, t, env).1;
    ScopedExact(s.credentials, p, "");
    ProvesExact(s1, MANAGE(p), proof, env);
    ProvesTouched(s, s1, MANAGE(p), proof, env);
  }

  lemma TotpSetupExact(s: State, t: Token, p: Purpose, proof: Proof, env: Env)
    ensures DrawnExactly(s, TotpSetup(s, t, p, proof, env), t, p, proof, env)
  {
    if p == LOGIN {
      LoginSetupExact(s, t, proof, env);
    } else if MayDraw(s, t, p, proof, env) {
      FactorDraws(s, t, p, proof, env);
    } else if Good(s, t, env) && t.full {
      FactorDrawsNot(s, t, p, proof, env);
    } else {
      GrantedExact(s, t, env);
    }
  }

  /** Resetting factor 2 or 3 takes a full session and a proof of that factor itself. */
  lemma TotpResetExact(s: State, t: Token, p: Purpose, proof: Proof, env: Env)
    ensures var r := TotpReset(s, t, p, proof, env);
      if Good(s, t, env) && t.full && p != LOGIN && !Linked(s, p) && Proves(s, MANAGE(p), proof, env)
      then r.totp.Get(p) == Totp(None, false, None)
           && (forall q :: q != p ==> r.totp.Get(q).secret == s.totp.Get(q).secret && r.totp.Get(q).enabled == s.totp.Get(q).enabled)
      else r.totp == s.totp
  {
    GrantedExact(s, t, env);
    var s1 := Authenticate(s, t, env).1;
    ProvesExact(s1, MANAGE(p), proof, env);
    if Good(s, t, env) {
      ProvesTouched(s, s1, MANAGE(p), proof, env);
    }
  }

  /** Linking a factor to login, or taking the link away, takes a full session and a proof of login; a
      factor is linked only while it has neither authenticator nor passkey of its own. */
  lemma LinkExact(s: State, t: Token, p: Purpose, proof: Proof, env: Env)
    ensures var r := UseLogin(s, t, p, proof, env); var ok := Good(s, t, env) && t.full && p != LOGIN && !Linked(s, p)
        && !s.totp.Get(p).enabled && !HasPasskey(s.credentials, p) && Proves(s, LINK(p), proof, env);
      && (r.uses2 <==> s.uses2 || (ok && p == FACTOR2)) && (r.uses3 <==> s.uses3 || (ok && p == FACTOR3))
    ensures var r := UseSeparate(s, t, p, proof, env); var ok := Good(s, t, env) && t.full && Linked(s, p) && Proves(s, LINK(p), proof, env);
      && (r.uses2 <==> s.uses2 && !(ok && p == FACTOR2)) && (r.uses3 <==> s.uses3 && !(ok && p == FACTOR3))
  {
    GrantedExact(s, t, env);
    var s1 := Authenticate(s, t, env).1;
    ScopedExact(s.credentials, p, "");
    ProvesExact(s1, LINK(p), proof, env);
    if Good(s, t, env) {
      ProvesTouched(s, s1, LINK(p), proof, env);
    }
  }

  lemma AnotherPasskey(creds: seq<Credential>, cred: nat)
    requires cred < |creds| && creds[cred].active
    ensures Scoped(creds, creds[cred].scope) > 1
      <==> exists i :: 0 <= i < |creds| && i != cred && creds[i].active && creds[i].scope == creds[cred].scope
  {
    var off := creds[cred := creds[cred].(active := false)];
    ScopedOff(creds, cred, creds[cred].scope);
    ScopedExact(off, creds[cred].scope, "");
    if i :| 0 <= i < |creds| && i != cred && creds[i].active && creds[i].scope == creds[cred].scope {
      assert off[i].active;
    }
    if HasPasskey(off, creds[cred].scope) {
      var i :| 0 <= i < |off| && off[i].active && off[i].scope == creds[cred].scope;
      assert i != cred && creds[i].active;
    }
  }

  /** A passkey is taken away exactly by a full session with a proof of its own purpose, and never the
      last login passkey. */
  lemma DisableExact(s: State, t: Token, cred: nat, proof: Proof, env: Env)
    ensures DisablePasskey(s, t, cred, proof, env).credentials ==
      if && Good(s, t, env) && t.full && cred < |s.credentials| && s.credentials[cred].active
         && (s.credentials[cred].scope == LOGIN ==>
               exists i :: 0 <= i < |s.credentials| && i != cred && s.credentials[i].active && s.credentials[i].scope == LOGIN)
         && Proves(s, MANAGE(s.credentials[cred].scope), proof, env)
      then s.credentials[cred := s.credentials[cred].(active := false)]
      else s.credentials
  {
    GrantedExact(s, t, env);
    var s1 := Authenticate(s, t, env).1;
    if Good(s, t, env) && t.full && cred < |s.credentials| && s.credentials[cred].active {
      var scope := s.credentials[cred].scope;
      AnotherPasskey(s.credentials, cred);
      ProvesExact(s1, MANAGE(scope), proof, env);
      ProvesTouched(s, s1, MANAGE(scope), proof, env);
      assert s1.credentials == s.credentials;
    }
  }

  /** A registration challenge: during onboarding one login passkey a site; later, and for factors that
      have something already, only with a proof. */
  lemma RegisterOptionsExact(s: State, t: Token, p: Purpose, proof: Proof, env: Env)
    ensures var r := RegisterOptions(s, t, p, proof, env);
      var here := HasPasskeyHere(s.credentials, p, env.site);
      if && Good(s, t, env) && !Linked(s, p) && Scoped(s.credentials, p) < 10
         && (p == LOGIN && s.pending ==> !here) && (p == LOGIN && !s.pending ==> Proves(s, MANAGE(LOGIN), proof, env))
         && (p != LOGIN ==> !s.pending && (here || s.totp.Get(p).enabled ==> Proves(s, MANAGE(p), proof, env)))
      then r.challenges == s.challenges + [Challenge(REGISTER, p, None, env.now + env.challengeTtl, false)]
      else r.challenges == s.challenges
  {
    GrantedExact(s, t, env);
    var s1 := Authenticate(s, t, env).1;
    ScopedExact(s.credentials, p, env.site);
    ProvesExact(s1, MANAGE(p), proof, env);
    if Good(s, t, env) {
      ProvesTouched(s, s1, MANAGE(p), proof, env);
    }
  }

  /** The challenge is unused, in time and of this kind and purpose. */
  predicate ChallengeGood(s: State, c: nat, kind: Kind, p: Purpose, now: int) {
    c < |s.challenges| && s.challenges[c].kind == kind && s.challenges[c].purpose == p
    && !s.challenges[c].consumed && s.challenges[c].expires > now
  }

  /** A passkey of the purpose that counts, still active, was verified. */
  predicate PasskeyGood(s: State, p: Purpose, cred: nat, verified: bool) {
    cred < |s.credentials| && s.credentials[cred].active && verified
    && s.credentials[cred].scope == if Linked(s, p) then LOGIN else p
  }

  lemma RegisterGood(s: State, t: Token, p: Purpose, c: nat, verified: bool, env: Env)
    requires Good(s, t, env)
    ensures var r := RegisterVerify(s, t, p, c, verified, env);
      var open := !Linked(s, p) && ChallengeGood(s, c, REGISTER, p, env.now);
      && r.challenges == (if open then s.challenges[c := s.challenges[c].(consumed := true)] else s.challenges)
      && r.credentials == (if open && verified then s.credentials + [Credential(p, env.site, true)] else s.credentials)
  {
    Granted(s, t, env);
  }

  /** A passkey is added exactly for a good session that answers a good registration challenge with a
      verified credential; the challenge is spent even when it is not verified. */
  lemma RegisterVerifyExact(s: State, t: Token, p: Purpose, c: nat, verified: bool, env: Env)
    ensures var r := RegisterVerify(s, t, p, c, verified, env);
      var open := Good(s, t, env) && !Linked(s, p) && ChallengeGood(s, c, REGISTER, p, env.now);
      && r.challenges == (if open then s.challenges[c := s.challenges[c].(consumed := true)] else s.challenges)
      && r.credentials == (if open && verified then s.credentials + [Credential(p, env.site, true)] else s.credentials)
  {
    if Good(s, t, env) {
      RegisterGood(s, t, p, c, verified, env);
    } else {
      Refused(s, t, env);
    }
  }

  ghost predicate FirstFull(s: State, r: State, env: Env) {
    r.version == s.version + 1 && r.tokens == s.tokens + [Token(s.version + 1, true, env.ip)] && !r.pending
  }

  lemma FinishExact(s: State, p: Purpose, env: Env)
    ensures var r := Finish(s, p, env);
      && r.totp == s.totp && r.credentials == s.credentials
      && if p == LOGIN && s.pending && s.totp.login.enabled && HasPasskey(s.credentials, LOGIN) then FirstFull(s, r, env) else r == s
  {
    ScopedExact(s.credentials, LOGIN, "");
  }

  /** The session may enable the purpose's own authenticator, and this is a good code of it. */
  ghost predicate MayEnable(s: State, t: Token, p: Purpose, code: int, env: Env) {
    && Good(s, t, env) && (p != LOGIN ==> t.full && !Linked(s, p)) && !s.totp.Get(p).enabled
    && exists step :: CodeGood(s, p, code, step, env)
  }

  ghost predicate EnabledOnly(s: State, r: State, p: Purpose) {
    && r.totp.Get(p).enabled && r.totp.Get(p).secret == s.totp.Get(p).secret && |r.accepted| == |s.accepted| + 1
    && forall q :: q != p ==> r.totp.Get(q) == s.totp.Get(q)
  }

  lemma EnablesOnly(s: State, s1: State, p: Purpose, code: int, env: Env)
    requires Touched(s, s1) && !Linked(s, p) && VerifyTotp(s1, p, code, false, env).Some?
    ensures EnabledOnly(s, Finish(Enabled(VerifyTotp(s1, p, code, false, env).value, p), p, env), p)
  {
    CodeExact(s1, p, code, false, env);
    FinishExact(Enabled(VerifyTotp(s1, p, code, false, env).value, p), p, env);
  }

  lemma VerifyGood(s: State, t: Token, p: Purpose, code: int, env: Env)
    requires Good(s, t, env) && (p != LOGIN ==> t.full)
    ensures var r := TotpVerify(s, t, p, code, env);
      if MayEnable(s, t, p, code, env) then EnabledOnly(s, r, p) else r.totp == s.totp && r.accepted == s.accepted
  {
    Granted(s, t, env);
    var s1 := Authenticate(s, t, env).1;
    CodeExact(s1, p, code, false, env);
    forall step ensures CodeGood(s1, p, code, step, env) <==> CodeGood(s, p, code, step, env) {
    }
    if VerifyTotp(s1, p, code, false, env).Some? && !Linked(s, p) {
      EnablesOnly(s, s1, p, code, env);
    }
  }

  /** An authenticator becomes enabled exactly by a first good code of its own drawn secret. */
  lemma TotpVerifyExact(s: State, t: Token, p: Purpose, code: int, env: Env)
    ensures var r := TotpVerify(s, t, p, code, env);
      if MayEnable(s, t, p, code, env) then EnabledOnly(s, r, p) else r.totp == s.totp && r.accepted == s.accepted
  {
    if Good(s, t, env) && (p != LOGIN ==> t.full) {
      VerifyGood(s, t, p, code, env);
    } else {
      GrantedExact(s, t, env);
    }
  }

  /** A session begins: a new version that replaces every earlier one, full exactly when the login
      authenticator is enabled and a login passkey is active, for this address, and active now. */
  ghost predicate Begins(s: State, r: State, env: Env) {
    var full := s.totp.login.enabled && HasPasskey(s.credentials, LOGIN);
    && r.version == s.version + 1 && r.tokens == s.tokens + [Token(s.version + 1, full, env.ip)]
    && r.pending == !full && r.lastActivity == Some(env.now)
  }

  ghost predicate NoSession(s: State, r: State) { r.tokens == s.tokens && r.version == s.version && r.pending == s.pending }

  lemma BeginsExact(s: State, env: Env)
    ensures Begins(s, IssueSession(s, env), env)
  {
    ScopedExact(s.credentials, LOGIN, "");
  }

  /** Signing in starts a session exactly with the unused one-time PIN in time, ... */
  lemma ProvisionExact(s: State, pinOk: bool, env: Env)
    ensures var r := Provision(s, pinOk, env);
      if s.active && !s.revoked && s.pinHash && !s.pinUsed && env.now <= s.pinExpires && pinOk
      then Begins(s, r, env) && r.pinUsed && !r.pinHash
      else r == s
  {
    BeginsExact(s.(pinUsed := true, pinHash := false), env);
  }

  /** ... with a good code of the enabled login authenticator, ... */
  lemma LoginTotpExact(s: State, code: int, env: Env)
    ensures var r := LoginTotp(s, code, env);
      if s.active && !s.revoked && s.totp.login.enabled && exists step :: CodeGood(s, LOGIN, code, step, env)
      then Begins(s, r, env) && |r.accepted| == |s.accepted| + 1
      else r == s
  {
    CodeExact(s, LOGIN, code, true, env);
    var v := VerifyTotp(s, LOGIN, code, true, env);
    if v.Some? {
      BeginsExact(v.value, env);
    }
  }

  /** ... or with a good challenge and a verified active login passkey; the challenge is spent even when
      the passkey does not hold. */
  lemma LoginPasskeyExact(s: State, c: nat, cred: nat, verified: bool, env: Env)
    ensures var r := LoginPasskey(s, c, cred, verified, env);
      var open := s.active && !s.revoked && ChallengeGood(s, c, AUTHENTICATE, LOGIN, env.now);
      && r.challenges == (if open then s.challenges[c := s.challenges[c].(consumed := true)] else s.challenges)
      && if open && PasskeyGood(s, LOGIN, cred, verified) then Begins(s, r, env) else NoSession(s, r)
  {
    if c < |s.challenges| {
      BeginsExact(SpendChallenge(s, c), env);
    }
  }

  /** Finishing the login set-up during onboarding, with its first code or with its passkey, starts the
      first full session; no other enrolment starts one. */
  lemma VerifyBegins(s: State, t: Token, p: Purpose, code: int, env: Env)
    requires Good(s, t, env)
    ensures var r := TotpVerify(s, t, p, code, env);
      if p == LOGIN && s.pending && r.totp.login.enabled && !s.totp.login.enabled && HasPasskey(s.credentials, LOGIN)
      then FirstFull(s, r, env) else NoSession(s, r)
  {
    Granted(s, t, env);
    var s1 := Authenticate(s, t, env).1;
    if VerifyTotp(s1, p, code, false, env).Some? && !TotpEnabled(s1, p) {
      EnabledBegins(s, s1, p, code, env);
    }
  }

  lemma EnabledBegins(s: State, s1: State, p: Purpose, code: int, env: Env)
    requires Touched(s, s1) && VerifyTotp(s1, p, code, false, env).Some?
    ensures var r := Finish(Enabled(VerifyTotp(s1, p, code, false, env).value, p), p, env);
      && (p == LOGIN ==> r.totp.login.enabled)
      && if p == LOGIN && s.pending && HasPasskey(s.credentials, LOGIN) then FirstFull(s, r, env) else NoSession(s, r)
  {
    CodeExact(s1, p, code, false, env);
    FinishExact(Enabled(VerifyTotp(s1, p, code, false, env).value, p), p, env);
  }

  lemma RegisterBegins(s: State, t: Token, p: Purpose, c: nat, verified: bool, env: Env)
    requires Good(s, t, env)
    ensures var r := RegisterVerify(s, t, p, c, verified, env);
      if p == LOGIN && s.pending && ChallengeGood(s, c, REGISTER, LOGIN, env.now) && verified && s.totp.login.enabled
      then FirstFull(s, r, env) else NoSession(s, r)
  {
    GrantedExact(s, t, env);
    var s1 := Authenticate(s, t, env).1;
    if c < |s1.challenges| {
      var s2 := SpendChallenge(s1, c);
      var s3 := s2.(credentials := s2.credentials + [Credential(p, env.site, true)]);
      assert s3.credentials[|s.credentials|] == Credential(p, env.site, true);
      FinishExact(s3, p, env);
    }
  }

  /** A sign-in challenge is issued exactly where a login passkey is active for this site, ... */
  lemma LoginOptionsExact(s: State, env: Env)
    ensures LoginOptions(s, env).challenges ==
      if s.active && !s.revoked && HasPasskeyHere(s.credentials, LOGIN, env.site)
      then s.challenges + [Challenge(AUTHENTICATE, LOGIN, None, env.now + env.challengeTtl, false)] else s.challenges
  {
    ScopedExact(s.credentials, LOGIN, env.site);
  }

  /** ... and a step-up challenge, in a full session, where one that counts for the purpose is; it carries
      the action it was asked for. */
  lemma StepUpOptionsExact(s: State, t: Token, a: Action, env: Env)
    ensures StepUpOptions(s, t, a, env).challenges ==
      if Good(s, t, env) && t.full && HasPasskeyHere(s.credentials, if Linked(s, PurposeOf(a)) then LOGIN else PurposeOf(a), env.site)
      then s.challenges + [Challenge(AUTHENTICATE, PurposeOf(a), Some(a), env.now + env.challengeTtl, false)] else s.challenges
  {
    GrantedExact(s, t, env);
    ScopedExact(s.credentials, if Linked(s, PurposeOf(a)) then LOGIN else PurposeOf(a), env.site);
  }

  /** A token of this user's for the action, in this session, for the configured time. */
  function NewToken(s: State, a: Action, env: Env): Grant { Grant(s.id, PurposeOf(a), a, s.version, env.now + env.stepUpTtl, false) }

  /** A step-up token comes exactly from a full session, with a good code of the enabled authenticator that
      counts, ... */
  lemma StepUpTotpExact(s: State, t: Token, a: Action, code: int, env: Env)
    ensures var r := StepUpTotp(s, t, a, code, env); var p := PurposeOf(a);
      if Good(s, t, env) && t.full && Counting(s, p).enabled && exists step :: CodeGood(s, p, code, step, env)
      then r.grants == s.grants + [NewToken(s, a, env)] && |r.accepted| == |s.accepted| + 1
      else r.grants == s.grants && r.accepted == s.accepted
  {
    GrantedExact(s, t, env);
    var s1, p := Authenticate(s, t, env).1, PurposeOf(a);
    CodeExact(s1, p, code, true, env);
    if Good(s, t, env) {
      forall step ensures CodeGood(s1, p, code, step, env) <==> CodeGood(s, p, code, step, env) {
      }
    }
  }

  predicate MayAnswer(s: State, t: Token, p: Purpose, c: nat, env: Env) {
    Good(s, t, env) && t.full && ChallengeGood(s, c, AUTHENTICATE, p, env.now)
  }

  /** ... or a good challenge for the purpose and a verified passkey that counts for it; and it is for the
      action the challenge was issued for. */
  lemma StepUpPasskeyExact(s: State, t: Token, p: Purpose, c: nat, cred: nat, verified: bool, env: Env)
    ensures StepUpPasskey(s, t, p, c, cred, verified, env).grants ==
      if Good(s, t, env) && t.full && Answered(s, p, c, cred, verified, env)
      then s.grants + [NewToken(s, s.challenges[c].action.value, env)]
      else s.grants
  {
    GrantedExact(s, t, env);
    if Good(s, t, env) && t.full {
      if Answered(s, p, c, cred, verified, env) {
        AnswerHolds(s, t, p, c, cred, verified, env);
      } else {
        AnswerFails(s, t, p, c, cred, verified, env);
      }
    }
  }

  lemma PasskeyHolds(s: State, s2: State, p: Purpose, cred: nat, verified: bool)
    requires s2.credentials == s.credentials && s2.uses2 == s.uses2 && s2.uses3 == s.uses3
    ensures AssertionHolds(s2, p, cred, verified) <==> PasskeyGood(s, p, cred, verified)
  {
  }

  predicate Answered(s: State, p: Purpose, c: nat, cred: nat, verified: bool, env: Env) {
    && ChallengeGood(s, c, AUTHENTICATE, p, env.now) && PasskeyGood(s, p, cred, verified)
    && s.challenges[c].action.Some? && PurposeOf(s.challenges[c].action.value) == p
  }

  lemma AnswerHolds(s: State, t: Token, p: Purpose, c: nat, cred: nat, verified: bool, env: Env)
    requires Good(s, t, env) && t.full && Answered(s, p, c, cred, verified, env)
    ensures StepUpPasskey(s, t, p, c, cred, verified, env).grants == s.grants + [NewToken(s, s.challenges[c].action.value, env)]
  {
    Granted(s, t, env);
    PasskeyHolds(s, SpendChallenge(Authenticate(s, t, env).1, c), p, cred, verified);
  }

  lemma AnswerFails(s: State, t: Token, p: Purpose, c: nat, cred: nat, verified: bool, env: Env)
    requires Good(s, t, env) && t.full && !Answered(s, p, c, cred, verified, env)
    ensures StepUpPasskey(s, t, p, c, cred, verified, env).grants == s.grants
  {
    Granted(s, t, env);
    if ChallengeGood(s, c, AUTHENTICATE, p, env.now) {
      PasskeyHolds(s, SpendChallenge(Authenticate(s, t, env).1, c), p, cred, verified);
    }
  }

  /** The challenge is spent by the answer, also by one that does not hold. */
  lemma AnswerSpends(s: State, t: Token, p: Purpose, c: nat, cred: nat, verified: bool, env: Env)
    requires MayAnswer(s, t, p, c, env) && s.challenges[c].action.Some? && PurposeOf(s.challenges[c].action.value) == p
    ensures StepUpPasskey(s, t, p, c, cred, verified, env).challenges == s.challenges[c := s.challenges[c].(consumed := true)]
  {
    GrantedExact(s, t, env);
  }

  /** A protected handler gets through exactly in a full session with a proof of its action; otherwise, or
      when its own work fails, no proof is used up. */
  lemma ProtectedExact(s: State, t: Token, a: Action, proof: Proof, commits: bool, env: Env)
    ensures var r := Protected(s, t, a, proof, commits, env);
      if Good(s, t, env) && t.full && Proves(s, a, proof, env) && commits
      then |r.spent| + |r.accepted| == |s.spent| + |s.accepted| + 1
      else r.spent == s.spent && r.accepted == s.accepted && r.grants == s.grants && r.totp == s.totp
  {
    GrantedExact(s, t, env);
    var s1 := Authenticate(s, t, env).1;
    ProvesExact(s1, a, proof, env);
    ProofExact(s1, a, proof, env);
    if Good(s, t, env) {
      ProvesTouched(s, s1, a, proof, env);
    }
  }

  /** Signing out ends the session, ... */
  lemma LogoutExact(s: State, t: Token, env: Env)
    ensures Good(s, t, env) ==> Logout(s, t, env) == s.(version := s.version + 1, lastActivity := None)
    ensures !Good(s, t, env) ==> Closed(s, Logout(s, t, env))
  {
    GrantedExact(s, t, env);
  }

  /** ... and so do an administrator's reset, which also takes the login authenticator and all login
      passkeys, none of the others, and opens a new PIN, ... */
  lemma ResetExact(s: State, pinExpires: int)
    ensures var r := AdminReset(s, pinExpires);
      && r.version == s.version + 1 && r.pending && r.pinHash && !r.pinUsed && r.pinExpires == pinExpires
      && r.totp == s.totp.(login := Totp(None, false, None)) && |r.credentials| == |s.credentials|
      && forall i :: 0 <= i < |s.credentials| ==>
           r.credentials[i] == s.credentials[i].(active := s.credentials[i].active && s.credentials[i].scope != LOGIN)
  {
  }

  /** ... a revocation, which deactivates the identity, and a change of role. */
  lemma RevokeExact(s: State, env: Env)
    ensures Revoke(s) == s.(version := s.version + 1, active := false, revoked := true)
    ensures Step(s, OnSession(OpRoleChange), env) == s.(version := s.version + 1)
  {
  }

  // ---------------------------------------------------------------- nothing is lost without a proof

  /** What protects an identity: an authenticator, a passkey, and whether a factor is linked. */
  datatype Guarded = Authenticator(p: Purpose) | Passkey(i: nat) | Link(p: Purpose)

  /** It is not there any more as it was: an enabled authenticator is off or has another secret, or a
      secret is gone; a passkey is inactive or another; the link has changed. */
  predicate Lost(s: State, r: State, w: Guarded) {
    match w
    case Authenticator(p) =>
      || (s.totp.Get(p).enabled && !(r.totp.Get(p).enabled && r.totp.Get(p).secret == s.totp.Get(p).secret))
      || (s.totp.Get(p).secret.Some? && r.totp.Get(p).secret == None)
    case Passkey(i) => i < |s.credentials| && s.credentials[i].active && !(i < |r.credentials| && r.credentials[i] == s.credentials[i])
    case Link(p) => Linked(s, p) != Linked(r, p)
  }

  /** The action whose proof such a change costs. */
  function Price(s: State, w: Guarded): Action {
    match w
    case Authenticator(p) => MANAGE(p)
    case Passkey(i) => MANAGE(if i < |s.credentials| then s.credentials[i].scope else LOGIN)
    case Link(p) => LINK(p)
  }

  /** An administrator's reset of the login factors. */
  predicate ResetOf(s: State, op: Op, w: Guarded) {
    op.OnSession? && op.so.OpAdminReset?
    && (w == Authenticator(LOGIN) || (w.Passkey? && w.i < |s.credentials| && s.credentials[w.i].scope == LOGIN))
  }

  /** One good token or one good code of the enabled authenticator was used up. */
  ghost predicate Paid(s: State, r: State, a: Action, env: Env) {
    || (exists g :: TokenSpent(s, r, g, a, env.now))
    || (exists code, step :: CodeSpent(s, r, PurposeOf(a), code, step, env))
  }

  /** The handler's own work after a proof leaves the record of the proof. */
  lemma PaidBy(s: State, s1: State, r: State, a: Action, proof: Proof, env: Env)
    requires Touched(s, s1) && RequireFactor(s1, a, proof, env).Some?
    requires var v := RequireFactor(s1, a, proof, env).value; r.spent == v.spent && r.accepted == v.accepted && r.grants == v.grants
    ensures Paid(s, r, a, env)
  {
    ProofExact(s1, a, proof, env);
    var v := RequireFactor(s1, a, proof, env).value;
    if proof.grant.Some? && TokenGood(s1, proof.grant.value, a, env.now) {
      assert TokenSpent(s, r, proof.grant.value, a, env.now);
    } else {
      var step :| CodeSpent(s1, v, PurposeOf(a), proof.code.value, step, env);
      assert CodeSpent(s, r, PurposeOf(a), proof.code.value, step, env);
    }
  }

  lemma ResetCosts(s: State, t: Token, p: Purpose, proof: Proof, env: Env, w: Guarded)
    requires Lost(s, TotpReset(s, t, p, proof, env), w)
    ensures Paid(s, TotpReset(s, t, p, proof, env), Price(s, w), env)
  {
    TotpResetExact(s, t, p, proof, env);
    GrantedExact(s, t, env);
    var s1 := Authenticate(s, t, env).1;
    ProvesExact(s1, MANAGE(p), proof, env);
    PaidBy(s, s1, TotpReset(s, t, p, proof, env), MANAGE(p), proof, env);
  }

  lemma LinkCosts(s: State, t: Token, p: Purpose, proof: Proof, env: Env, w: Guarded)
    requires Lost(s, UseLogin(s, t, p, proof, env), w)
    ensures Paid(s, UseLogin(s, t, p, proof, env), Price(s, w), env)
  {
    LinkExact(s, t, p, proof, env);
    GrantedExact(s, t, env);
    var s1 := Authenticate(s, t, env).1;
    ProvesExact(s1, LINK(p), proof, env);
    PaidBy(s, s1, UseLogin(s, t, p, proof, env), LINK(p), proof, env);
  }

  lemma UnlinkCosts(s: State, t: Token, p: Purpose, proof: Proof, env: Env, w: Guarded)
    requires Lost(s, UseSeparate(s, t, p, proof, env), w)
    ensures Paid(s, UseSeparate(s, t, p, proof, env), Price(s, w), env)
  {
    LinkExact(s, t, p, proof, env);
    GrantedExact(s, t, env);
    var s1 := Authenticate(s, t, env).1;
    ProvesExact(s1, LINK(p), proof, env);
    PaidBy(s, s1, UseSeparate(s, t, p, proof, env), LINK(p), proof, env);
  }

  lemma DisableCosts(s: State, t: Token, cred: nat, proof: Proof, env: Env, w: Guarded)
    requires Lost(s, DisablePasskey(s, t, cred, proof, env), w)
    ensures Paid(s, DisablePasskey(s, t, cred, proof, env), Price(s, w), env)
  {
    DisableExact(s, t, cred, proof, env);
    GrantedExact(s, t, env);
    var s1 := Authenticate(s, t, env).1;
    ProvesExact(s1, MANAGE(s.credentials[cred].scope), proof, env);
    PaidBy(s, s1, DisablePasskey(s, t, cred, proof, env), MANAGE(s.credentials[cred].scope), proof, env);
  }

  lemma DrawLosesNothing(s: State, t: Token, p: Purpose, proof: Proof, env: Env, w: Guarded)
    ensures !Lost(s, TotpSetup(s, t, p, proof, env), w)
  {
    TotpSetupExact(s, t, p, proof, env);
    GrantedExact(s, t, env);
    ProvesExact(Authenticate(s, t, env).1, MANAGE(p), proof, env);
  }

  lemma VerifyLosesNothing(s: State, t: Token, p: Purpose, code: int, env: Env, w: Guarded)
    ensures !Lost(s, TotpVerify(s, t, p, code, env), w)
  {
    GrantedExact(s, t, env);
    var s1 := Authenticate(s, t, env).1;
    var v := VerifyTotp(s1, p, code, false, env);
    CodeExact(s1, p, code, false, env);
    if v.Some? {
      FinishExact(Enabled(v.value, p), p, env);
    }
  }

  /** Same secrets, same links, no passkey gone. */
  ghost predicate AllThere(s: State, r: State) {
    && (forall p :: r.totp.Get(p).secret == s.totp.Get(p).secret && r.totp.Get(p).enabled == s.totp.Get(p).enabled)
    && s.credentials <= r.credentials && r.uses2 == s.uses2 && r.uses3 == s.uses3
  }

  lemma AllThereKeeps(s: State, r: State, w: Guarded)
    requires AllThere(s, r)
    ensures !Lost(s, r, w)
  {
  }

  lemma TotpLoginLosesNothing(s: State, code: int, env: Env)
    ensures AllThere(s, LoginTotp(s, code, env))
  {
    CodeExact(s, LOGIN, code, true, env);
  }

  lemma PasskeyLoginLosesNothing(s: State, c: nat, cred: nat, verified: bool, env: Env)
    ensures AllThere(s, LoginPasskey(s, c, cred, verified, env))
  {
  }

  lemma PlainLosesNothing(s: State, op: SessionOp, env: Env)
    requires op.OpProvision? || op.OpLoginOptions? || op.OpCheck? || op.OpRevoke? || op.OpRoleChange?
    ensures AllThere(s, SessionStep(s, op, env))
  {
  }

  lemma SessionsLoseNothing(s: State, op: SessionOp, env: Env)
    requires !op.OpAdminReset?
    ensures AllThere(s, SessionStep(s, op, env))
  {
    match op
    case OpLoginTotp(code) => TotpLoginLosesNothing(s, code, env);
    case OpLoginPasskey(c, cred, verified) => PasskeyLoginLosesNothing(s, c, cred, verified, env);
    case OpLogout(t) => LogoutExact(s, t, env);
    case _ => PlainLosesNothing(s, op, env);
  }

  lemma OptionsLoseNothing(s: State, t: Token, p: Purpose, proof: Proof, env: Env)
    ensures AllThere(s, RegisterOptions(s, t, p, proof, env))
  {
    GrantedExact(s, t, env);
    ProvesExact(Authenticate(s, t, env).1, MANAGE(p), proof, env);
  }

  lemma RegisterLosesNothing(s: State, t: Token, p: Purpose, c: nat, verified: bool, env: Env)
    ensures AllThere(s, RegisterVerify(s, t, p, c, verified, env))
  {
    GrantedExact(s, t, env);
    var s1 := Authenticate(s, t, env).1;
    if c < |s1.challenges| {
      FinishExact(SpendChallenge(s1, c).(credentials := s1.credentials + [Credential(p, env.site, true)]), p, env);
    }
  }

  lemma StepUpLosesNothing(s: State, t: Token, a: Action, code: int, env: Env)
    ensures AllThere(s, StepUpTotp(s, t, a, code, env))
  {
    GrantedExact(s, t, env);
    CodeExact(Authenticate(s, t, env).1, PurposeOf(a), code, true, env);
  }

  lemma PasskeyLosesNothing(s: State, t: Token, p: Purpose, c: nat, cred: nat, verified: bool, env: Env)
    ensures AllThere(s, StepUpPasskey(s, t, p, c, cred, verified, env))
  {
    GrantedExact(s, t, env);
  }

  lemma ProtectedLosesNothing(s: State, t: Token, a: Action, proof: Proof, commits: bool, env: Env)
    ensures AllThere(s, Protected(s, t, a, proof, commits, env))
  {
    GrantedExact(s, t, env);
    ProvesExact(Authenticate(s, t, env).1, a, proof, env);
  }

  lemma ChallengeLosesNothing(s: State, t: Token, a: Action, env: Env)
    ensures AllThere(s, StepUpOptions(s, t, a, env))
  {
    GrantedExact(s, t, env);
  }

  lemma ProofsLoseNothing(s: State, op: ProofOp, env: Env)
    ensures AllThere(s, ProofStep(s, op, env))
  {
    match op
    case OpStepUpTotp(t, a, code) => StepUpLosesNothing(s, t, a, code, env);
    case OpStepUpOptions(t, a) => ChallengeLosesNothing(s, t, a, env);
    case OpStepUpPasskey(t, p, c, cred, verified) => PasskeyLosesNothing(s, t, p, c, cred, verified, env);
    case OpProtected(t, a, proof, commits) => ProtectedLosesNothing(s, t, a, proof, commits, env);
    case OpOthersStepUp(_) =>
  }

  lemma FactorCosts(s: State, op: FactorOp, env: Env, w: Guarded)
    requires Lost(s, FactorStep(s, op, env), w)
    ensures Paid(s, FactorStep(s, op, env), Price(s, w), env)
  {
    match op
    case OpTotpSetup(t, p, proof) => DrawLosesNothing(s, t, p, proof, env, w);
    case OpTotpVerify(t, p, code) => VerifyLosesNothing(s, t, p, code, env, w);
    case OpTotpReset(t, p, proof) => ResetCosts(s, t, p, proof, env, w);
    case OpRegisterOptions(t, p, proof) =>
      OptionsLoseNothing(s, t, p, proof, env);
      AllThereKeeps(s, RegisterOptions(s, t, p, proof, env), w);
    case OpRegisterVerify(t, p, c, verified) =>
      RegisterLosesNothing(s, t, p, c, verified, env);
      AllThereKeeps(s, RegisterVerify(s, t, p, c, verified, env), w);
    case OpDisablePasskey(t, cred, proof) => DisableCosts(s, t, cred, proof, env, w);
    case OpUseLogin(t, p, proof) => LinkCosts(s, t, p, proof, env, w);
    case OpUseSeparate(t, p, proof) => UnlinkCosts(s, t, p, proof, env, w);
  }

  lemma ResetLoses(s: State, pinExpires: int, w: Guarded)
    requires Lost(s, AdminReset(s, pinExpires), w)
    ensures w == Authenticator(LOGIN) || (w.Passkey? && w.i < |s.credentials| && s.credentials[w.i].scope == LOGIN)
  {
  }

  lemma StepCosts(s: State, op: Op, env: Env, w: Guarded)
    requires Lost(s, Step(s, op, env), w) && !ResetOf(s, op, w)
    ensures Paid(s, Step(s, op, env), Price(s, w), env)
  {
    match op
    case OnSession(so) =>
      if so.OpAdminReset? {
        ResetLoses(s, so.pinExpires, w);
      } else {
        SessionsLoseNothing(s, so, env);
        AllThereKeeps(s, SessionStep(s, so, env), w);
      }
    case OnFactor(fo) => FactorCosts(s, fo, env, w);
    case OnProof(po) =>
      ProofsLoseNothing(s, po, env);
      AllThereKeeps(s, ProofStep(s, po, env), w);
  }

  lemma StillThere(s: State, mid: State, r: State, w: Guarded)
    requires Lost(s, r, w) && !Lost(s, mid, w)
    ensures Lost(mid, r, w)
  {
  }

  /** In every run, between any state and any later one: an enabled authenticator that is off, replaced or
      gone, a passkey that is inactive, a factor whose link has changed; somewhere in between a request
      paid for it with one good token or one good code for just that action, unless it was a login
      factor and an administrator reset it. */
  lemma {:induction false} NothingLostUnproven(s: State, ops: seq<(Op, Env)>, w: Guarded) returns (k: nat)
    requires Lost(s, Run(s, ops), w)
    ensures k < |ops|
    ensures var mid := Run(s, ops[..k]); var (op, env) := ops[k];
      ResetOf(mid, op, w) || Paid(mid, Step(mid, op, env), Price(mid, w), env)
  {
    var n := |ops| - 1;
    var mid := Run(s, ops[..n]);
    if Lost(s, mid, w) {
      k := NothingLostUnproven(s, ops[..n], w);
      assert ops[..n][..k] == ops[..k];
    } else {
      k := n;
      StillThere(s, mid, Run(s, ops), w);
      if !ResetOf(mid, ops[n].0, w) {
        StepCosts(mid, ops[n].0, ops[n].1, w);
      }
    }
  }

  // ---------------------------------------------------------------- the row and its handlers, in place

  class Identity {
    var id: nat
    var active: bool
    var revoked: bool
    var version: nat
    var pending: bool
    var totp: Totps
    var uses2: bool
    var uses3: bool
    var credentials: seq<Credential>
    var pinHash: bool
    var pinUsed: bool
    var pinExpires: int
    var lastActivity: Option<int>
    var challenges: seq<Challenge>
    var grants: seq<Grant>
    var nextSecret: nat
    var tokens: seq<Token>
    var accepted: seq<(nat, int)>
    var spent: seq<Spend>

    function View(): State reads this {
      State(id, active, revoked, version, pending, totp, uses2, uses3, credentials, pinHash, pinUsed, pinExpires,
            lastActivity, challenges, grants, nextSecret, tokens, accepted, spent)
    }

    constructor (id: nat, pinExpires: int)
      ensures Initial(View()) && View().id == id
    {
      this.id, active, revoked, version, pending := id, true, false, 0, true;
      totp := Totps(Totp(None, false, None), Totp(None, false, None), Totp(None, false, None));
      uses2, uses3, credentials, pinHash, pinUsed := false, false, [], true, false;
      this.pinExpires, lastActivity, challenges, grants, nextSecret := pinExpires, None, [], [], 0;
      tokens, accepted, spent := [], [], [];
    }

    method RestoreRow(s: State)
      modifies `id, `active, `revoked, `version, `pending, `totp, `uses2, `uses3, `credentials
      ensures id == s.id && active == s.active && revoked == s.revoked && version == s.version && pending == s.pending
      ensures totp == s.totp && uses2 == s.uses2 && uses3 == s.uses3 && credentials == s.credentials
    {
      id, active, revoked, version, pending := s.id, s.active, s.revoked, s.version, s.pending;
      totp, uses2, uses3, credentials := s.totp, s.uses2, s.uses3, s.credentials;
    }

    method RestoreLogs(s: State)
      modifies `pinHash, `pinUsed, `pinExpires, `lastActivity, `challenges, `grants, `nextSecret, `tokens, `accepted, `spent
      ensures pinHash == s.pinHash && pinUsed == s.pinUsed && pinExpires == s.pinExpires && lastActivity == s.lastActivity
      ensures challenges == s.challenges && grants == s.grants && nextSecret == s.nextSecret
      ensures tokens == s.tokens && accepted == s.accepted && spent == s.spent
    {
      pinHash, pinUsed, pinExpires, lastActivity := s.pinHash, s.pinUsed, s.pinExpires, s.lastActivity;
      challenges, grants, nextSecret := s.challenges, s.grants, s.nextSecret;
      tokens, accepted, spent := s.tokens, s.accepted, s.spent;
    }

    /** What a database rollback does to the row. */
    method Restore(s: State)
      modifies this
      ensures View() == s
    {
      RestoreRow(s);
      RestoreLogs(s);
    }

    /** The loop over the three steps around now: the first match decides. */
    static method FindStep(secret: nat, code: int, env: Env) returns (step: Option<int>)
      ensures step == MatchStep(secret, code, env)
    {
      var now := env.now / INTERVAL;
      for d := -1 to 2
        invariant forall x :: now - 1 <= x < now + d ==> env.codeAt(secret, x) != code
      {
        if env.codeAt(secret, now + d) == code {
          return Some(now + d);
        }
      }
      return None;
    }

    method Verify(p: Purpose, code: int, requireEnabled: bool, env: Env) returns (ok: bool)
      modifies `totp, `accepted
      ensures ok <==> VerifyTotp(old(View()), p, code, requireEnabled, env).Some?
      ensures View() == if ok then VerifyTotp(old(View()), p, code, requireEnabled, env).value else old(View())
    {
      var q := if (p == FACTOR2 && uses2) || (p == FACTOR3 && uses3) then LOGIN else p;
      var t := totp.Get(q);
      if (requireEnabled && !t.enabled) || t.secret == None {
        return false;
      }
      var step := FindStep(t.secret.value, code, env);
      if step == None || (t.lastStep.Some? && step.value <= t.lastStep.value) {
        return false;
      }
      Accept(q, t.secret.value, step.value);
      return true;
    }

    /** Remember an accepted step. */
    method Accept(q: Purpose, secret: nat, step: int)
      requires totp.Get(q).secret == Some(secret)
      modifies `totp, `accepted
      ensures View() == old(View()).(totp := old(totp).Set(q, old(totp).Get(q).(lastStep := Some(step))),
                                     accepted := old(accepted) + [(secret, step)])
    {
      totp := totp.Set(q, totp.Get(q).(lastStep := Some(step)));
      accepted := accepted + [(secret, step)];
    }

    method ConsumeGrant(g: nat, p: Purpose, a: Action, now: int) returns (ok: bool)
      modifies `grants, `spent
      ensures ok <==> ConsumeStepUp(old(View()), g, p, a, now).Some?
      ensures View() == if ok then ConsumeStepUp(old(View()), g, p, a, now).value else old(View())
    {
      if g >= |grants| {
        return false;
      }
      var x := grants[g];
      ok := x.user == id && x.purpose == p && x.action == a && x.version == version && !x.consumed && x.expires > now;
      if ok {
        grants := grants[g := x.(consumed := true)];
        spent := spent + [Spend(g, id, p, a, version, now)];
      }
    }

    method Require(a: Action, proof: Proof, env: Env) returns (ok: bool)
      modifies `totp, `accepted, `grants, `spent
      ensures ok <==> RequireFactor(old(View()), a, proof, env).Some?
      ensures View() == if ok then RequireFactor(old(View()), a, proof, env).value else old(View())
    {
      var p := PurposeOf(a);
      if proof.grant.Some? {
        ok := ConsumeGrant(proof.grant.value, p, a, env.now);
        if ok {
          return;
        }
      }
      if !TotpEnabled(View(), p) && Passkeys(View(), p) == 0 {
        return false;
      }
      ok := false;
      if proof.code.Some? {
        ok := Verify(p, proof.code.value, true, env);
      }
    }

    method Start(env: Env)
      modifies `pending, `version, `lastActivity, `tokens
      ensures View() == IssueSession(old(View()), env)
    {
      var complete := totp.login.enabled && Scoped(credentials, LOGIN) > 0;
      pending := !complete;
      version := version + 1;
      lastActivity := Some(env.now);
      tokens := tokens + [Token(version, complete, env.ip)];
    }

    /** The page's background check of the session. */
    method DoCheck(t: Token, env: Env) returns (ok: bool)
      modifies `version
      ensures (ok, View()) == CheckSession(old(View()), t, env)
    {
      if t !in tokens || !active || revoked || t.version != version {
        return false;
      }
      if t.ip != "" && t.ip != env.ip {
        version := version + 1;
        return false;
      }
      if lastActivity.Some? && env.now - lastActivity.value > env.timeout {
        version := version + 1;
        return false;
      }
      return true;
    }

    method Admit(t: Token, full: bool, env: Env) returns (ok: bool)
      modifies `version, `lastActivity
      ensures (ok, View()) == if full then AuthenticateFull(old(View()), t, env) else Authenticate(old(View()), t, env)
    {
      ok := DoCheck(t, env);
      if ok && (lastActivity == None || env.now - lastActivity.value > env.touch) {
        lastActivity := Some(env.now);
      }
      ok := ok && (!full || t.full);
    }

    method DoProvision(pinOk: bool, env: Env)
      modifies this
      ensures View() == Provision(old(View()), pinOk, env)
    {
      if !active || revoked || !pinHash || pinUsed || env.now > pinExpires || !pinOk {
        return;
      }
      pinUsed, pinHash := true, false;
      Start(env);
    }

    method DoLoginTotp(code: int, env: Env)
      modifies this
      ensures View() == LoginTotp(old(View()), code, env)
    {
      if !active || revoked || !totp.login.enabled {
        return;
      }
      var ok := Verify(LOGIN, code, true, env);
      if ok {
        Start(env);
      }
    }

    method PostChallenge(kind: Kind, p: Purpose, a: Option<Action>, env: Env)
      modifies `challenges
      ensures View() == AddChallenge(old(View()), kind, p, a, env)
    {
      challenges := challenges + [Challenge(kind, p, a, env.now + env.challengeTtl, false)];
    }

    /** The conditional UPDATE on challenges. */
    method TakeChallenge(c: nat, kind: Kind, p: Purpose, now: int) returns (ok: bool)
      modifies `challenges
      ensures ok <==> ChallengeOpen(old(View()), c, kind, p, now)
      ensures View() == if ok then SpendChallenge(old(View()), c) else old(View())
    {
      ok := c < |challenges| && challenges[c].kind == kind && challenges[c].purpose == p
            && !challenges[c].consumed && challenges[c].expires > now;
      if ok {
        challenges := challenges[c := challenges[c].(consumed := true)];
      }
    }

    method DoLoginOptions(env: Env)
      modifies this
      ensures View() == LoginOptions(old(View()), env)
    {
      if active && !revoked && HereScoped(credentials, LOGIN, env.site) > 0 {
        PostChallenge(AUTHENTICATE, LOGIN, None, env);
      }
    }

    method DoLoginPasskey(c: nat, cred: nat, verified: bool, env: Env)
      modifies this
      ensures View() == LoginPasskey(old(View()), c, cred, verified, env)
    {
      if !active || revoked {
        return;
      }
      var ok := TakeChallenge(c, AUTHENTICATE, LOGIN, env.now);
      if ok && cred < |credentials| && credentials[cred].active && credentials[cred].scope == LOGIN && verified {
        Start(env);
      }
    }

    method DoLogout(t: Token, env: Env)
      modifies this
      ensures View() == Logout(old(View()), t, env)
    {
      var ok := Admit(t, false, env);
      if ok {
        version := version + 1;
        lastActivity := None;
      }
    }

    method StoreSecret(p: Purpose)
      modifies `totp, `nextSecret
      ensures View() == NewSecret(old(View()), p)
    {
      totp := totp.Set(p, Totp(Some(nextSecret), false, None));
      nextSecret := nextSecret + 1;
    }

    method DoTotpSetup(t: Token, p: Purpose, proof: Proof, env: Env)
      modifies this
      ensures View() == TotpSetup(old(View()), t, p, proof, env)
    {
      var ok := Admit(t, p != LOGIN, env);
      if !ok || (p != LOGIN && (pending || UsesLogin(View(), p))) {
        return;
      }
      var saved := View();
      if p != LOGIN && Passkeys(View(), p) > 0 {
        ok := Require(MANAGE(p), proof, env);
        if !ok {
          return;
        }
      }
      if TotpEnabled(View(), p) {
        Restore(saved);
        return;
      }
      StoreSecret(p);
    }

    method Enable(p: Purpose)
      modifies `totp
      ensures View() == Enabled(old(View()), p)
    {
      totp := totp.Set(p, totp.Get(p).(enabled := true));
    }

    method Conclude(p: Purpose, env: Env)
      modifies `pending, `version, `lastActivity, `tokens
      ensures View() == Finish(old(View()), p, env)
    {
      if p == LOGIN && pending && SetupComplete(View()) {
        Start(env);
      }
    }

    method DoTotpVerify(t: Token, p: Purpose, code: int, env: Env)
      modifies this
      ensures View() == TotpVerify(old(View()), t, p, code, env)
    {
      var ok := Admit(t, p != LOGIN, env);
      if !ok || (p != LOGIN && UsesLogin(View(), p)) || totp.Get(p).secret == None || TotpEnabled(View(), p) {
        return;
      }
      ok := Verify(p, code, false, env);
      if !ok {
        return;
      }
      Enable(p);
      Conclude(p, env);
    }

    method DoTotpReset(t: Token, p: Purpose, proof: Proof, env: Env)
      modifies `version, `lastActivity, `totp, `accepted, `grants, `spent
      ensures View() == TotpReset(old(View()), t, p, proof, env)
    {
      var ok := Admit(t, true, env);
      if !ok || p == LOGIN || UsesLogin(View(), p) {
        return;
      }
      ok := Require(MANAGE(p), proof, env);
      if ok {
        totp := totp.Set(p, Totp(None, false, None));
      }
    }

    method DoRegisterOptions(t: Token, p: Purpose, proof: Proof, env: Env)
      modifies this
      ensures View() == RegisterOptions(old(View()), t, p, proof, env)
    {
      var ok := Admit(t, false, env);
      if !ok || UsesLogin(View(), p) || Passkeys(View(), p) >= MAX_PASSKEYS {
        return;
      }
      var here := HereScoped(credentials, p, env.site) > 0;
      if pending {
        if p != LOGIN || here {
          return;
        }
      } else if p == LOGIN || here || TotpEnabled(View(), p) {
        ok := Require(MANAGE(p), proof, env);
        if !ok {
          return;
        }
      }
      PostChallenge(REGISTER, p, None, env);
    }

    method DoRegisterVerify(t: Token, p: Purpose, c: nat, verified: bool, env: Env)
      modifies this
      ensures View() == RegisterVerify(old(View()), t, p, c, verified, env)
    {
      var ok := Admit(t, false, env);
      if !ok || UsesLogin(View(), p) {
        return;
      }
      ok := TakeChallenge(c, REGISTER, p, env.now);
      if !ok || !verified {
        return;
      }
      AddPasskey(p, env);
    }

    method AddPasskey(p: Purpose, env: Env)
      modifies `pending, `version, `lastActivity, `tokens, `credentials
      ensures View() == Finish(old(View()).(credentials := old(credentials) + [Credential(p, env.site, true)]), p, env)
    {
      credentials := credentials + [Credential(p, env.site, true)];
      Conclude(p, env);
    }

    method DoDisablePasskey(t: Token, cred: nat, proof: Proof, env: Env)
      modifies `version, `lastActivity, `totp, `accepted, `grants, `spent, `credentials
      ensures View() == DisablePasskey(old(View()), t, cred, proof, env)
    {
      var ok := Admit(t, true, env);
      if !ok || cred >= |credentials| || !credentials[cred].active {
        return;
      }
      var scope := credentials[cred].scope;
      if scope == LOGIN && Scoped(credentials, LOGIN) <= 1 {
        return;
      }
      ok := Require(MANAGE(scope), proof, env);
      if ok && cred < |credentials| {
        credentials := credentials[cred := credentials[cred].(active := false)];
      }
    }

    method Link(p: Purpose, on: bool)
      requires p != LOGIN
      modifies `uses2, `uses3
      ensures View() == SetLink(old(View()), p, on)
    {
      if p == FACTOR2 { uses2 := on; } else { uses3 := on; }
    }

    method DoUseLogin(t: Token, p: Purpose, proof: Proof, env: Env)
      modifies `version, `lastActivity, `totp, `accepted, `grants, `spent, `uses2, `uses3
      ensures View() == UseLogin(old(View()), t, p, proof, env)
    {
      var ok := Admit(t, true, env);
      if !ok || p == LOGIN || UsesLogin(View(), p) || TotpEnabled(View(), p) || Passkeys(View(), p) > 0 {
        return;
      }
      ok := Require(LINK(p), proof, env);
      if ok {
        Link(p, true);
      }
    }

    method DoUseSeparate(t: Token, p: Purpose, proof: Proof, env: Env)
      modifies `version, `lastActivity, `totp, `accepted, `grants, `spent, `uses2, `uses3
      ensures View() == UseSeparate(old(View()), t, p, proof, env)
    {
      var ok := Admit(t, true, env);
      if !ok || p == LOGIN || !UsesLogin(View(), p) {
        return;
      }
      ok := Require(LINK(p), proof, env);
      if ok {
        Link(p, false);
      }
    }

    method Offer(p: Purpose, a: Action, env: Env)
      modifies `grants
      ensures View() == IssueStepUp(old(View()), p, a, env)
    {
      grants := grants + [Grant(id, p, a, version, env.now + env.stepUpTtl, false)];
    }

    method DoStepUpTotp(t: Token, a: Action, code: int, env: Env)
      modifies this
      ensures View() == StepUpTotp(old(View()), t, a, code, env)
    {
      var ok := Admit(t, true, env);
      if !ok {
        return;
      }
      ok := Verify(PurposeOf(a), code, true, env);
      if ok {
        Offer(PurposeOf(a), a, env);
      }
    }

    method DoStepUpOptions(t: Token, a: Action, env: Env)
      modifies this
      ensures View() == StepUpOptions(old(View()), t, a, env)
    {
      var ok := Admit(t, true, env);
      if ok && HereScoped(credentials, Source(View(), PurposeOf(a)), env.site) > 0 {
        PostChallenge(AUTHENTICATE, PurposeOf(a), Some(a), env);
      }
    }

    method DoStepUpPasskey(t: Token, p: Purpose, c: nat, cred: nat, verified: bool, env: Env)
      modifies this
      ensures View() == StepUpPasskey(old(View()), t, p, c, cred, verified, env)
    {
      var ok := Admit(t, true, env);
      if !ok {
        return;
      }
      var saved := View();
      ok := TakeChallenge(c, AUTHENTICATE, p, env.now);
      if !ok || !AssertionHolds(View(), p, cred, verified) {
        return;
      }
      var a := challenges[c].action;
      if a == None || PurposeOf(a.value) != p {
        Restore(saved);
        return;
      }
      Offer(p, a.value, env);
    }

    /** commits says whether the handler's own work, after the proof, succeeds. */
    method DoProtected(t: Token, a: Action, proof: Proof, commits: bool, env: Env)
      modifies this
      ensures View() == Protected(old(View()), t, a, proof, commits, env)
    {
      var ok := Admit(t, true, env);
      if !ok {
        return;
      }
      var saved := View();
      ok := Require(a, proof, env);
      if ok && !commits {
        Restore(saved);
      }
    }

    /** The loop over the identity's credentials of one scope. */
    method DisableScope(scope: Purpose)
      modifies `credentials
      ensures credentials == DeactivateScope(old(credentials), scope)
    {
      ghost var was := credentials;
      for i := 0 to |credentials|
        invariant |credentials| == |was|
        invariant forall k :: 0 <= k < i ==> credentials[k] == DeactivateScope(was, scope)[k]
        invariant forall k :: i <= k < |was| ==> credentials[k] == was[k]
      {
        if credentials[i].scope == scope {
          credentials := credentials[i := credentials[i].(active := false)];
        }
      }
    }

    method ResetFactors()
      modifies `totp, `credentials
      ensures totp == old(totp).(login := Totp(None, false, None)) && credentials == DeactivateScope(old(credentials), LOGIN)
    {
      totp := totp.(login := Totp(None, false, None));
      DisableScope(LOGIN);
    }

    method ResetPin(newPinExpires: int)
      modifies `pinHash, `pinUsed, `pinExpires, `pending, `version
      ensures pinHash && !pinUsed && pinExpires == newPinExpires && pending && version == old(version) + 1
    {
      pinHash, pinUsed, pinExpires := true, false, newPinExpires;
      pending := true;
      version := version + 1;
    }

    method DoAdminReset(newPinExpires: int)
      modifies `totp, `credentials, `pinHash, `pinUsed, `pinExpires, `pending, `version
      ensures View() == AdminReset(old(View()), newPinExpires)
    {
      ResetFactors();
      ResetPin(newPinExpires);
    }

    method DoRevoke()
      modifies `active, `revoked, `version
      ensures View() == Revoke(old(View()))
    {
      active, revoked := false, true;
      version := version + 1;
    }
  }
}
