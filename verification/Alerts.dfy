/** Security alerts: one alert per incident, an escalation chain that only moves up, and a history
    from which the state can be replayed. */
module Alerts {
  import opened Prelude

  datatype Role = USER | AUDITOR | MANAGER | ADMIN

  /** A person's number stands for their DID; departments are those they manage or belong to. */
  datatype User = User(role: Role, departments: set<nat>, department: Option<nat>, active: bool, revoked: bool)

  datatype Level = LOW | HIGH | CRITICAL
  datatype Source = AI | RULE
  datatype Stage = AUDITOR_REVIEW | MANAGER_REVIEW | ADMIN_REVIEW | DISMISSED | IDENTITY_REVOKED
  datatype Action = RAISED | SEVERITY_RAISED | FORWARDED_TO_MANAGER | FORWARDED_TO_ADMIN | CLOSED | REVOKED

  datatype Entry = Entry(action: Action, actor: Option<nat>, from: Option<Stage>, to: Stage)

  datatype Alert = Alert(source: Source, event: nat, subject: Option<nat>, did: Option<nat>, department: Option<nat>,
                         level: Level, score: Option<real>, stage: Stage, created: int, history: seq<Entry>)

  /** An audit event as the AI or a rule labelled it. */
  datatype Event = Event(id: nat, source: Source, actor: Option<nat>, level: Level, score: Option<real>)

  datatype State = State(now: int, users: seq<User>, alerts: seq<Alert>)

  const DAY := 86400

  function Severity(l: Level): nat { match l case LOW => 0 case HIGH => 1 case CRITICAL => 2 }

  function Value(score: Option<real>): real { match score case None => 0.0 case Some(x) => x }

  predicate Open(a: Alert) { a.stage.AUDITOR_REVIEW? || a.stage.MANAGER_REVIEW? || a.stage.ADMIN_REVIEW? }

  function Rank(s: Stage): nat {
    match s case AUDITOR_REVIEW => 0 case MANAGER_REVIEW => 1 case ADMIN_REVIEW => 2 case DISMISSED => 3 case IDENTITY_REVOKED => 3
  }

  // ---------------------------------------------------------------- raising

  /** An open AI alert about the same person, created in the last day. */
  predicate Groups(a: Alert, did: nat, now: int) { a.did == Some(did) && a.source == AI && Open(a) && a.created >= now - DAY }

  /** The first row that satisfies the test, from i on; the length for none. */
  function FirstGroup(alerts: seq<Alert>, did: nat, now: int, i: nat): (r: nat)
    requires i <= |alerts|
    ensures i <= r <= |alerts| && (r < |alerts| ==> Groups(alerts[r], did, now))
    ensures forall k :: i <= k < r ==> !Groups(alerts[k], did, now)
    decreases |alerts| - i
  {
    if i == |alerts| || Groups(alerts[i], did, now) then i else FirstGroup(alerts, did, now, i + 1)
  }

  predicate Known(alerts: seq<Alert>, event: nat) { exists i :: 0 <= i < |alerts| && alerts[i].event == event }

  function MaxReal(a: real, b: real): real { if a >= b then a else b }

  /** Severity only rises, and each rise is added to the history; the score only rises. */
  function Evidence(a: Alert, e: Event): Alert {
    if Severity(e.level) < Severity(a.level) then a else
    var b := if Severity(e.level) > Severity(a.level)
             then a.(history := a.history + [Entry(SEVERITY_RAISED, None, None, a.stage)], level := e.level) else a;
    b.(score := Some(MaxReal(Value(a.score), Value(e.score))))
  }

  function Subject(users: seq<User>, did: Option<nat>): Option<nat> {
    if did.Some? && did.value < |users| then did else None
  }

  function NewAlert(s: State, e: Event): Alert {
    var subject := Subject(s.users, e.actor);
    Alert(e.source, e.id, subject, e.actor, if subject.Some? && subject.value < |s.users| then s.users[subject.value].department else None,
          e.level, e.score, AUDITOR_REVIEW, s.now, [Entry(RAISED, None, None, AUDITOR_REVIEW)])
  }

  function Raise(s: State, e: Event): State {
    if e.level == LOW || Known(s.alerts, e.id) then s else
    var at := if e.source == AI && e.actor.Some? then FirstGroup(s.alerts, e.actor.value, s.now, 0) else |s.alerts|;
    if at < |s.alerts| then s.(alerts := s.alerts[at := Evidence(s.alerts[at], e)])
    else s.(alerts := s.alerts + [NewAlert(s, e)])
  }

  // ---------------------------------------------------------------- acting

  predicate Covers(u: User, a: Alert) { a.department.Some? && a.department.value in u.departments }

  /** An active manager other than the subject covers the alert's department. */
  predicate ManagerExists(users: seq<User>, a: Alert) {
    a.department.Some?
    && exists i :: 0 <= i < |users| && users[i].role == MANAGER && users[i].active && Covers(users[i], a) && a.subject != Some(i)
  }

  /** The endpoints' own check: someone signed in who may see the alert. */
  predicate MaySee(u: User, a: Alert) {
    u.active && (u.role == ADMIN || u.role == AUDITOR || (u.role == MANAGER && a.stage != AUDITOR_REVIEW && Covers(u, a)))
  }

  predicate MayAct(s: State, i: nat, actor: nat) {
    i < |s.alerts| && actor < |s.users| && MaySee(s.users[actor], s.alerts[i]) && s.alerts[i].subject != Some(actor)
  }

  /** Where forwarding takes the alert; None when this role cannot forward it. */
  function Destination(users: seq<User>, a: Alert, u: User): Option<Stage> {
    if a.stage == AUDITOR_REVIEW && u.role == AUDITOR then Some(if ManagerExists(users, a) then MANAGER_REVIEW else ADMIN_REVIEW)
    else if a.stage == MANAGER_REVIEW && ((u.role == MANAGER && Covers(u, a)) || (u.role == ADMIN && !ManagerExists(users, a)))
    then Some(ADMIN_REVIEW)
    else None
  }

  predicate MayDismiss(a: Alert, u: User) {
    || (a.stage == AUDITOR_REVIEW && u.role == AUDITOR)
    || (a.stage == MANAGER_REVIEW && u.role == MANAGER && Covers(u, a))
    || (a.stage == ADMIN_REVIEW && u.role == ADMIN)
  }

  predicate MayRevoke(s: State, a: Alert, actor: nat)
    requires actor < |s.users|
  {
    && s.users[actor].role == ADMIN && a.stage == ADMIN_REVIEW && a.subject.Some? && a.subject.value < |s.users|
    && a.subject.value != actor && !(!s.users[a.subject.value].active && s.users[a.subject.value].revoked)
  }

  function Move(a: Alert, actor: nat, action: Action, to: Stage): Alert {
    a.(stage := to, history := a.history + [Entry(action, Some(actor), Some(a.stage), to)])
  }

  datatype Op =
    | Tick(seconds: nat)
    | Report(event: Event)
    | Forward(alert: nat, actor: nat)
    | Dismiss(alert: nat, actor: nat, noted: bool)
    | RevokeSubject(alert: nat, actor: nat)
    | Register(user: User)
    | Reassign(person: nat, role: Role, departments: set<nat>, department: Option<nat>)
    | Deactivate(person: nat)

  function Leave(u: User): User { u.(active := false, revoked := true) }

  function Step(s: State, op: Op): State {
    match op
    case Tick(seconds) => s.(now := s.now + seconds)
    case Report(e) => Raise(s, e)
    case Forward(i, actor) =>
      if !MayAct(s, i, actor) then s else
      (match Destination(s.users, s.alerts[i], s.users[actor])
       case None => s
       case Some(to) =>
         s.(alerts := s.alerts[i := Move(s.alerts[i], actor, if to == MANAGER_REVIEW then FORWARDED_TO_MANAGER else FORWARDED_TO_ADMIN, to)]))
    case Dismiss(i, actor, noted) =>
      if !MayAct(s, i, actor) || !noted || !MayDismiss(s.alerts[i], s.users[actor]) then s else
      s.(alerts := s.alerts[i := Move(s.alerts[i], actor, CLOSED, DISMISSED)])
    case RevokeSubject(i, actor) =>
      if !MayAct(s, i, actor) || !MayRevoke(s, s.alerts[i], actor) then s else
      var target := s.alerts[i].subject.value;
      s.(users := s.users[target := Leave(s.users[target])],
         alerts := s.alerts[i := Move(s.alerts[i], actor, REVOKED, IDENTITY_REVOKED)])
    case Register(user) => s.(users := s.users + [user])
    case Reassign(u, role, departments, department) =>
      if u >= |s.users| then s else
      s.(users := s.users[u := s.users[u].(role := role, departments := departments, department := department)])
    case Deactivate(u) => if u >= |s.users| then s else s.(users := s.users[u := Leave(s.users[u])])
  }

  function Run(s: State, ops: seq<Op>): State {
    if ops == [] then s else Step(Run(s, ops[..|ops| - 1]), ops[|ops| - 1])
  }

  // ---------------------------------------------------------------- what every step keeps

  /** The state a history leads to; None if it does not hang together. */
  function Replay(h: seq<Entry>): Option<Stage> {
    if h == [] then None else
    var e := h[|h| - 1];
    var before := Replay(h[..|h| - 1]);
    if |h| == 1 then (if e.action == RAISED && e.from == None && e.to == AUDITOR_REVIEW then Some(e.to) else None)
    else if before == None then None
    else if e.action == SEVERITY_RAISED then (if e.from == None && e.to == before.value then before else None)
    else if e.from == before && Rank(before.value) < Rank(e.to) && (e.to == IDENTITY_REVOKED ==> before.value == ADMIN_REVIEW) then Some(e.to)
    else None
  }

  function Moves(h: seq<Entry>): nat {
    if h == [] then 0 else Moves(h[..|h| - 1]) + if h[|h| - 1].from.Some? then 1 else 0
  }

  predicate ActorsOk(a: Alert) {
    forall k :: 0 <= k < |a.history| && a.history[k].from.Some? ==> a.history[k].actor.Some? && a.history[k].actor != a.subject
  }

  predicate Gone(users: seq<User>, u: nat) { u < |users| && !users[u].active && users[u].revoked }

  predicate AlertOk(a: Alert, users: seq<User>) {
    && Replay(a.history) == Some(a.stage) && Moves(a.history) <= Rank(a.stage) && ActorsOk(a) && a.level != LOW
    && (a.subject.Some? ==> a.subject.value < |users| && a.did == a.subject)
    && (a.stage == IDENTITY_REVOKED ==> a.subject.Some? && Gone(users, a.subject.value))
  }

  /** Two open AI alerts about one person lie more than a day apart. */
  predicate Apart(a: Alert, b: Alert) {
    (a.source == AI && b.source == AI && Open(a) && Open(b) && a.did.Some? && a.did == b.did) ==>
      (b.created - a.created > DAY || a.created - b.created > DAY)
  }

  ghost predicate Inv(s: State) {
    && (forall i :: 0 <= i < |s.alerts| ==> AlertOk(s.alerts[i], s.users) && s.alerts[i].created <= s.now)
    && (forall i, j :: 0 <= i < j < |s.alerts| ==> Apart(s.alerts[i], s.alerts[j]))
  }

  /** The entry is a step up from the stage the history leads to. */
  predicate StepsUp(h: seq<Entry>, e: Entry) {
    && |h| > 0 && Replay(h).Some? && e.action != SEVERITY_RAISED && e.from == Replay(h) && Rank(Replay(h).value) < Rank(e.to)
    && (e.to == IDENTITY_REVOKED ==> Replay(h).value == ADMIN_REVIEW)
  }

  lemma HistoryExtends(h: seq<Entry>, e: Entry)
    ensures Moves(h + [e]) == Moves(h) + if e.from.Some? then 1 else 0
    ensures StepsUp(h, e) ==> Replay(h + [e]) == Some(e.to)
    ensures (|h| > 0 && e.action == SEVERITY_RAISED && e.from == None && Some(e.to) == Replay(h)) ==> Replay(h + [e]) == Replay(h)
  {
    assert (h + [e])[..|h|] == h;
  }

  lemma MoveOk(a: Alert, users: seq<User>, later: seq<User>, actor: nat, action: Action, to: Stage)
    requires AlertOk(a, users) && a.subject != Some(actor) && action != SEVERITY_RAISED && Rank(a.stage) < Rank(to) && |later| >= |users|
    requires to == IDENTITY_REVOKED ==> a.stage == ADMIN_REVIEW && a.subject.Some? && Gone(later, a.subject.value)
    ensures AlertOk(Move(a, actor, action, to), later)
  {
    HistoryExtends(a.history, Entry(action, Some(actor), Some(a.stage), to));
    assert |a.history| > 0;
  }

  lemma EvidenceOk(a: Alert, users: seq<User>, e: Event)
    requires AlertOk(a, users) && e.level != LOW
    ensures AlertOk(Evidence(a, e), users)
    ensures var b := Evidence(a, e);
      b.stage == a.stage && b.created == a.created && b.did == a.did && b.source == a.source && b.subject == a.subject
      && Severity(a.level) <= Severity(b.level) && Value(a.score) <= Value(b.score)
  {
    HistoryExtends(a.history, Entry(SEVERITY_RAISED, None, None, a.stage));
    assert |a.history| > 0;
  }

  lemma NewAlertOk(s: State, e: Event)
    requires e.level != LOW
    ensures AlertOk(NewAlert(s, e), s.users)
  {
    var h := NewAlert(s, e).history;
    assert h[..0] == [];
  }

  lemma RaiseKeeps(s: State, e: Event)
    requires Inv(s)
    ensures Inv(Raise(s, e))
  {
    if e.level != LOW && !Known(s.alerts, e.id) {
      var t := Raise(s, e);
      var at := if e.source == AI && e.actor.Some? then FirstGroup(s.alerts, e.actor.value, s.now, 0) else |s.alerts|;
      if at < |s.alerts| {
        EvidenceOk(s.alerts[at], s.users, e);
      } else {
        NewAlertOk(s, e);
        forall i | 0 <= i < |s.alerts|
          ensures Apart(s.alerts[i], NewAlert(s, e))
        {
        }
      }
    }
  }

  /** The i-th alert moved; everything else is as it was or deactivated. */
  lemma ActedKeeps(s: State, t: State, i: nat)
    requires Inv(s) && i < |s.alerts| && t.now == s.now && |t.users| == |s.users|
    requires forall u :: 0 <= u < |s.users| ==> t.users[u] == s.users[u] || t.users[u] == Leave(s.users[u])
    requires |t.alerts| == |s.alerts| && (forall k :: 0 <= k < |s.alerts| && k != i ==> t.alerts[k] == s.alerts[k])
    requires AlertOk(t.alerts[i], t.users) && t.alerts[i].created == s.alerts[i].created && t.alerts[i].did == s.alerts[i].did
    requires t.alerts[i].source == s.alerts[i].source && (Open(t.alerts[i]) ==> Open(s.alerts[i]))
    ensures Inv(t)
  {
    forall a, b | 0 <= a < b < |t.alerts|
      ensures Apart(t.alerts[a], t.alerts[b])
    {
      assert Apart(s.alerts[a], s.alerts[b]);
    }
  }

  lemma ForwardKeeps(s: State, i: nat, actor: nat)
    requires Inv(s)
    ensures Inv(Step(s, Forward(i, actor)))
  {
    if MayAct(s, i, actor) {
      var to := Destination(s.users, s.alerts[i], s.users[actor]);
      if to.Some? {
        MoveOk(s.alerts[i], s.users, s.users, actor, if to.value == MANAGER_REVIEW then FORWARDED_TO_MANAGER else FORWARDED_TO_ADMIN, to.value);
        ActedKeeps(s, Step(s, Forward(i, actor)), i);
      }
    }
  }

  lemma DismissKeeps(s: State, i: nat, actor: nat, noted: bool)
    requires Inv(s)
    ensures Inv(Step(s, Dismiss(i, actor, noted)))
  {
    if MayAct(s, i, actor) && noted && MayDismiss(s.alerts[i], s.users[actor]) {
      MoveOk(s.alerts[i], s.users, s.users, actor, CLOSED, DISMISSED);
      ActedKeeps(s, Step(s, Dismiss(i, actor, noted)), i);
    }
  }

  lemma RevokeKeeps(s: State, i: nat, actor: nat)
    requires Inv(s)
    ensures Inv(Step(s, RevokeSubject(i, actor)))
  {
    if MayAct(s, i, actor) && MayRevoke(s, s.alerts[i], actor) {
      var t := Step(s, RevokeSubject(i, actor));
      MoveOk(s.alerts[i], s.users, t.users, actor, REVOKED, IDENTITY_REVOKED);
      ActedKeeps(s, t, i);
    }
  }

  lemma StepKeeps(s: State, op: Op)
    requires Inv(s)
    ensures Inv(Step(s, op))
  {
    match op
    case Report(e) => RaiseKeeps(s, e);
    case Forward(i, actor) => ForwardKeeps(s, i, actor);
    case Dismiss(i, actor, noted) => DismissKeeps(s, i, actor, noted);
    case RevokeSubject(i, actor) => RevokeKeeps(s, i, actor);
    case _ =>
  }

  lemma {:induction false} RunKeeps(s: State, ops: seq<Op>)
    requires s.alerts == []
    ensures Inv(Run(s, ops))
  {
    if ops != [] {
      RunKeeps(s, ops[..|ops| - 1]);
      StepKeeps(Run(s, ops[..|ops| - 1]), ops[|ops| - 1]);
    }
  }

  // ---------------------------------------------------------------- what follows in every run

  /** Every alert's history replays from AUDITOR_REVIEW to its present stage, in at most three moves,
      each upwards and none by its subject; a revocation comes only from ADMIN_REVIEW and its
      subject is deactivated. */
  lemma ChainHolds(s: State, ops: seq<Op>, i: nat)
    requires s.alerts == [] && i < |Run(s, ops).alerts|
    ensures var t := Run(s, ops); var a := t.alerts[i];
      && Replay(a.history) == Some(a.stage) && Moves(a.history) <= 3
      && (forall k :: 0 <= k < |a.history| && a.history[k].from.Some? ==> a.history[k].actor.Some? && a.history[k].actor != a.subject)
      && (a.stage == IDENTITY_REVOKED ==> a.subject.Some? && a.subject.value < |t.users| && !t.users[a.subject.value].active)
  {
    RunKeeps(s, ops);
    assert AlertOk(Run(s, ops).alerts[i], Run(s, ops).users);
  }

  /** Any two open AI alerts about one person were created more than a day apart. */
  lemma OneAlertPerDay(s: State, ops: seq<Op>, i: nat, j: nat)
    requires s.alerts == [] && i < j < |Run(s, ops).alerts|
    requires var a, b := Run(s, ops).alerts[i], Run(s, ops).alerts[j];
      a.source == AI == b.source && Open(a) && Open(b) && a.did.Some? && a.did == b.did
    ensures var a, b := Run(s, ops).alerts[i], Run(s, ops).alerts[j]; b.created - a.created > DAY || a.created - b.created > DAY
  {
    RunKeeps(s, ops);
  }

  /** b is a later state of a: its history only grew, its stage, severity and score never fell. */
  predicate Follows(a: Alert, b: Alert) {
    && a.history <= b.history && (a.stage == b.stage || Rank(a.stage) < Rank(b.stage))
    && Severity(a.level) <= Severity(b.level) && Value(a.score) <= Value(b.score)
    && a.source == b.source && a.subject == b.subject && a.created == b.created
  }

  lemma StepFollows(s: State, op: Op, i: nat)
    requires i < |s.alerts|
    ensures i < |Step(s, op).alerts| && Follows(s.alerts[i], Step(s, op).alerts[i])
  {
  }

  /** Along every run an alert only escalates: nothing is removed from its history, and neither its
      stage nor its severity nor its score ever falls. */
  lemma {:induction false} NeverFalls(s: State, ops: seq<Op>, i: nat)
    requires i < |s.alerts|
    ensures i < |Run(s, ops).alerts| && Follows(s.alerts[i], Run(s, ops).alerts[i])
  {
    if ops != [] {
      NeverFalls(s, ops[..|ops| - 1], i);
      StepFollows(Run(s, ops[..|ops| - 1]), ops[|ops| - 1], i);
    }
  }

  /** An open alert is never stuck: given an active auditor and an active administrator who are not
      its subject, somebody can move it on. */
  lemma NeverStuck(s: State, i: nat, auditor: nat, admin: nat) returns (op: Op)
    requires i < |s.alerts| && Open(s.alerts[i])
    requires auditor < |s.users| && s.users[auditor].role == AUDITOR && s.users[auditor].active && s.alerts[i].subject != Some(auditor)
    requires admin < |s.users| && s.users[admin].role == ADMIN && s.users[admin].active && s.alerts[i].subject != Some(admin)
    ensures (op.Forward? || op.Dismiss?) && op.alert == i && Rank(Step(s, op).alerts[i].stage) > Rank(s.alerts[i].stage)
  {
    var a := s.alerts[i];
    if a.stage == AUDITOR_REVIEW {
      op := Forward(i, auditor);
    } else if a.stage == MANAGER_REVIEW {
      if ManagerExists(s.users, a) {
        var m :| 0 <= m < |s.users| && s.users[m].role == MANAGER && s.users[m].active && Covers(s.users[m], a) && a.subject != Some(m);
        op := Forward(i, m);
      } else {
        op := Forward(i, admin);
      }
    } else {
      op := Dismiss(i, admin, true);
    }
  }

  /** Forwarding never parks an alert in a queue nobody reads: it enters the manager stage exactly when
      some independent manager can then move it on. */
  lemma NotParked(s: State, i: nat, auditor: nat)
    requires MayAct(s, i, auditor) && s.alerts[i].stage == AUDITOR_REVIEW && s.users[auditor].role == AUDITOR
    ensures var t := Step(s, Forward(i, auditor));
      t.alerts[i].stage == MANAGER_REVIEW <==>
        exists m :: 0 <= m < |s.users| && s.users[m].role == MANAGER && Step(t, Forward(i, m)).alerts[i].stage == ADMIN_REVIEW
                    && t.alerts[i].stage != ADMIN_REVIEW
  {
    var a, t := s.alerts[i], Step(s, Forward(i, auditor));
    if ManagerExists(s.users, a) {
      var m :| 0 <= m < |s.users| && s.users[m].role == MANAGER && s.users[m].active && Covers(s.users[m], a) && a.subject != Some(m);
      assert MayAct(t, i, m);
      assert Step(t, Forward(i, m)).alerts[i].stage == ADMIN_REVIEW;
    }
  }

  // ---------------------------------------------------------------- who may do what

  predicate Reviews(s: State, actor: nat, role: Role) { actor < |s.users| && s.users[actor].active && s.users[actor].role == role }

  predicate Manages(s: State, actor: nat, a: Alert) {
    Reviews(s, actor, MANAGER) && a.department.Some? && a.department.value in s.users[actor].departments
  }

  /** Some manager other than the subject could review it. */
  ghost predicate Independent(s: State, a: Alert) { exists m: nat :: Manages(s, m, a) && a.subject != Some(m) }

  /** Who reviews at a stage: an auditor first, then a manager of the department, then an administrator. */
  predicate OwnReviewer(s: State, actor: nat, a: Alert) {
    match a.stage
    case AUDITOR_REVIEW => Reviews(s, actor, AUDITOR)
    case MANAGER_REVIEW => Manages(s, actor, a)
    case ADMIN_REVIEW => Reviews(s, actor, ADMIN)
    case _ => false
  }

  /** Which operation moves the alert on, where to, and under which name it enters the history. Nobody
      moves an alert about themselves. */
  ghost function Moved(s: State, op: Op, i: nat): Option<(Action, nat, Stage)>
    requires i < |s.alerts|
  {
    var a := s.alerts[i];
    match op
    case Forward(k, u) =>
      if k != i || a.subject == Some(u) then None
      else if a.stage == AUDITOR_REVIEW && Reviews(s, u, AUDITOR) then
        if Independent(s, a) then Some((FORWARDED_TO_MANAGER, u, MANAGER_REVIEW)) else Some((FORWARDED_TO_ADMIN, u, ADMIN_REVIEW))
      else if a.stage == MANAGER_REVIEW && (Manages(s, u, a) || (Reviews(s, u, ADMIN) && !Independent(s, a))) then
        Some((FORWARDED_TO_ADMIN, u, ADMIN_REVIEW))
      else None
    case Dismiss(k, u, noted) =>
      if k == i && noted && a.subject != Some(u) && OwnReviewer(s, u, a) then Some((CLOSED, u, DISMISSED)) else None
    case RevokeSubject(k, u) =>
      if k == i && a.stage == ADMIN_REVIEW && Reviews(s, u, ADMIN) && a.subject.Some? && a.subject != Some(u)
         && a.subject.value < |s.users| && (s.users[a.subject.value].active || !s.users[a.subject.value].revoked)
      then Some((REVOKED, u, IDENTITY_REVOKED)) else None
    case _ => None
  }

  lemma IndependentIs(s: State, a: Alert)
    ensures ManagerExists(s.users, a) <==> Independent(s, a)
  {
    if ManagerExists(s.users, a) {
      var m :| 0 <= m < |s.users| && s.users[m].role == MANAGER && s.users[m].active && Covers(s.users[m], a) && a.subject != Some(m);
      assert Manages(s, m, a);
    }
  }

  /** An alert moves exactly as that table says: to that stage, with one entry that names the action, the
      actor and both stages, and nothing else about it changes. Reports apart, no operation touches
      an alert in any other way. */
  lemma MovesExact(s: State, op: Op, i: nat)
    requires i < |s.alerts|
    ensures i < |Step(s, op).alerts|
    ensures var a, b := s.alerts[i], Step(s, op).alerts[i];
      match Moved(s, op, i)
      case Some((action, u, to)) => b == a.(stage := to, history := a.history + [Entry(action, Some(u), Some(a.stage), to)])
      case None => op.Report? || b == a
  {
    IndependentIs(s, s.alerts[i]);
  }

  /** Only a revocation from an alert and a direct deactivation take anybody's access away; the first takes
      exactly the subject's. */
  lemma UsersExact(s: State, op: Op, u: nat)
    requires u < |s.users|
    ensures u < |Step(s, op).users|
    ensures var x, y := s.users[u], Step(s, op).users[u];
      if (op.RevokeSubject? && op.alert < |s.alerts| && Moved(s, op, op.alert).Some? && s.alerts[op.alert].subject == Some(u))
         || op == Deactivate(u)
      then y == x.(active := false, revoked := true)
      else if op.Reassign? && op.person == u
      then y == x.(role := op.role, departments := op.departments, department := op.department)
      else y == x
  {
  }

  /** A manager who joins and covers the department is where an auditor's forward goes, and can take it
      further; once the last independent one has left, an administrator can. */
  lemma StaffCounts(s: State, i: nat, auditor: nat, manager: User, admin: nat)
    requires i < |s.alerts| && s.alerts[i].stage == AUDITOR_REVIEW && Reviews(s, auditor, AUDITOR) && Reviews(s, admin, ADMIN)
    requires s.alerts[i].subject != Some(auditor) && s.alerts[i].subject != Some(admin)
    requires s.alerts[i].subject.Some? ==> s.alerts[i].subject.value < |s.users|
    requires manager.role == MANAGER && manager.active && s.alerts[i].department.Some? && s.alerts[i].department.value in manager.departments
    requires !Independent(s, s.alerts[i])
    ensures var m := |s.users|; var t := Step(Step(s, Register(manager)), Forward(i, auditor));
      && t.alerts[i].stage == MANAGER_REVIEW && Step(t, Forward(i, m)).alerts[i].stage == ADMIN_REVIEW
      && Step(t, Forward(i, admin)).alerts[i].stage == MANAGER_REVIEW
      && Step(Step(t, Deactivate(m)), Forward(i, admin)).alerts[i].stage == ADMIN_REVIEW
  {
    var m, j := |s.users|, Step(s, Register(manager));
    var t := Step(j, Forward(i, auditor));
    var d := Step(t, Deactivate(m));
    assert Manages(j, m, s.alerts[i]) && Manages(t, m, t.alerts[i]);
    IndependentIs(j, j.alerts[i]);
    IndependentIs(t, t.alerts[i]);
    IndependentIs(d, d.alerts[i]);
    forall k: nat ensures !(Manages(d, k, d.alerts[i]) && d.alerts[i].subject != Some(k)) {
      if Manages(d, k, d.alerts[i]) && d.alerts[i].subject != Some(k) {
        assert Manages(s, k, s.alerts[i]);
      }
    }
  }

  // ---------------------------------------------------------------- what a report does

  ghost predicate Reported(s: State, e: Event) { exists i :: 0 <= i < |s.alerts| && s.alerts[i].event == e.id }

  /** The alert this event belongs to: the first AI alert about the actor, still in review, of the last
      24 hours. */
  ghost predicate Belongs(s: State, e: Event, k: int) {
    && 0 <= k < |s.alerts| && SameIncident(s, e, k) && forall h :: 0 <= h < k ==> !SameIncident(s, e, h)
  }

  predicate SameIncident(s: State, e: Event, k: int)
    requires 0 <= k < |s.alerts|
  {
    var a := s.alerts[k];
    && e.source == AI && e.actor.Some? && a.source == AI && a.did == e.actor
    && (a.stage == AUDITOR_REVIEW || a.stage == MANAGER_REVIEW || a.stage == ADMIN_REVIEW) && s.now - a.created <= 24 * 60 * 60
  }

  predicate Higher(x: Level, y: Level) { (x == CRITICAL && y != CRITICAL) || (x == HIGH && y == LOW) }

  /** A report of a HIGH or CRITICAL event that was not reported before, by the AI or by a rule, never goes
      unnoticed: it opens one new alert about its actor, for the auditors, or, when it belongs to an
      open incident, counts as evidence there; any other report changes nothing. */
  lemma ReportExact(s: State, e: Event)
    ensures var t := Step(s, Report(e));
      if e.level == LOW || Reported(s, e) then t == s
      else if exists k :: Belongs(s, e, k) then exists k :: Belongs(s, e, k) && AddedTo(s, t, k, e)
      else OpenedBy(s, t, e)
  {
    if e.level != LOW && !Known(s.alerts, e.id) {
      if e.source == AI && e.actor.Some? {
        var k := FirstGroup(s.alerts, e.actor.value, s.now, 0);
        assert forall h :: 0 <= h < |s.alerts| ==> (SameIncident(s, e, h) <==> Groups(s.alerts[h], e.actor.value, s.now));
        if k < |s.alerts| {
          assert Belongs(s, e, k);
        }
      }
    }
  }

  /** Severity and score are the higher of both, a rise of severity enters the history; weaker evidence
      changes nothing. */
  predicate Corroborated(a: Alert, b: Alert, e: Event) {
    && b == a.(level := b.level, score := b.score, history := b.history)
    && b.level == (if Higher(e.level, a.level) then e.level else a.level)
    && b.history == a.history + (if Higher(e.level, a.level) then [Entry(SEVERITY_RAISED, None, None, a.stage)] else [])
    && b.score == if Higher(a.level, e.level) then a.score else Some(if Value(e.score) > Value(a.score) then Value(e.score) else Value(a.score))
  }

  predicate AddedTo(s: State, t: State, k: int, e: Event)
    requires 0 <= k < |s.alerts|
  {
    |t.alerts| == |s.alerts| && t == s.(alerts := s.alerts[k := t.alerts[k]]) && Corroborated(s.alerts[k], t.alerts[k], e)
  }

  predicate OpenedBy(s: State, t: State, e: Event) {
    && |t.alerts| == |s.alerts| + 1 && t == s.(alerts := s.alerts + [t.alerts[|s.alerts|]])
    && Opened(s, t.alerts[|s.alerts|], e)
  }

  predicate Opened(s: State, b: Alert, e: Event) {
    var known := e.actor.Some? && e.actor.value < |s.users|;
    && b.source == e.source && b.event == e.id && b.did == e.actor && b.subject == (if known then e.actor else None)
    && b.department == (if known then s.users[e.actor.value].department else None)
    && b.level == e.level && b.score == e.score && b.stage == AUDITOR_REVIEW && b.created == s.now
    && b.history == [Entry(RAISED, None, None, AUDITOR_REVIEW)]
  }

  /** More than a day after every alert so far, the same person's next unusual action is an incident of its
      own. */
  lemma NextDay(s: State, seconds: nat, e: Event)
    requires forall i :: 0 <= i < |s.alerts| ==> s.alerts[i].created <= s.now
    requires seconds > 86400 && e.level != LOW && !Reported(s, e)
    ensures |Step(Step(s, Tick(seconds)), Report(e)).alerts| == |s.alerts| + 1
  {
    ReportExact(Step(s, Tick(seconds)), e);
  }

  // ---------------------------------------------------------------- grouping, live and offline

  datatype Timed = Timed(at: int, event: Event)

  /** The live code on a stream: each event is raised at its own time. */
  function Live(s: State, stream: seq<Timed>): State {
    if stream == [] then s else
    var x := stream[|stream| - 1];
    Raise(Live(s, stream[..|stream| - 1]).(now := x.at), x.event)
  }

  /** The offline loop: incidents counted so far, and when each person's last one began. */
  datatype Loop = Loop(incidents: nat, last: map<nat, int>)

  predicate Counts(e: Event) { e.source == AI && e.level != LOW && e.actor.Some? }

  function LoopStep(l: Loop, x: Timed): Loop {
    if !Counts(x.event) then l else
    var actor := x.event.actor.value;
    if actor !in l.last || x.at - l.last[actor] > DAY then Loop(l.incidents + 1, l.last[actor := x.at]) else l
  }

  function Offline(stream: seq<Timed>): Loop {
    if stream == [] then Loop(0, map[]) else LoopStep(Offline(stream[..|stream| - 1]), stream[|stream| - 1])
  }

  method CountIncidents(stream: seq<Timed>) returns (incidents: nat)
    ensures incidents == Offline(stream).incidents
  {
    incidents := 0;
    var last: map<nat, int> := map[];
    for i := 0 to |stream|
      invariant Loop(incidents, last) == Offline(stream[..i])
    {
      assert stream[..i + 1][..i] == stream[..i];
      var x := stream[i];
      if Counts(x.event) && (x.event.actor.value !in last || x.at - last[x.event.actor.value] > DAY) {
        incidents := incidents + 1;
        last := last[x.event.actor.value := x.at];
      }
    }
    assert stream[..|stream|] == stream;
  }

  function AiAlerts(alerts: seq<Alert>): nat {
    if alerts == [] then 0 else AiAlerts(alerts[..|alerts| - 1]) + if alerts[|alerts| - 1].source == AI then 1 else 0
  }

  predicate Mine(a: Alert, did: nat) { a.source == AI && a.did == Some(did) }

  /** No alert is closed, and for each person the loop remembers when their latest AI alert began. */
  ghost predicate Matches(s: State, l: Loop) {
    && (forall i :: 0 <= i < |s.alerts| ==> Open(s.alerts[i]))
    && (forall i :: 0 <= i < |s.alerts| && s.alerts[i].source == AI && s.alerts[i].did.Some? ==>
          s.alerts[i].did.value in l.last && s.alerts[i].created <= l.last[s.alerts[i].did.value])
    && (forall d :: d in l.last ==> exists i :: 0 <= i < |s.alerts| && Mine(s.alerts[i], d) && s.alerts[i].created == l.last[d])
    && AiAlerts(s.alerts) == l.incidents
  }

  lemma {:induction false} AiAlertsSame(a: seq<Alert>, b: seq<Alert>)
    requires |a| == |b| && forall i :: 0 <= i < |a| ==> a[i].source == b[i].source
    ensures AiAlerts(a) == AiAlerts(b)
  {
    if a != [] {
      AiAlertsSame(a[..|a| - 1], b[..|b| - 1]);
    }
  }

  /** The live test for an open recent alert and the loop's test for a recent incident agree. */
  lemma SameTest(s: State, l: Loop, did: nat, now: int)
    requires Matches(s, l)
    ensures FirstGroup(s.alerts, did, now, 0) == |s.alerts| <==> did !in l.last || now - l.last[did] > DAY
  {
    var at := FirstGroup(s.alerts, did, now, 0);
    if did in l.last {
      var i :| 0 <= i < |s.alerts| && Mine(s.alerts[i], did) && s.alerts[i].created == l.last[did];
      if now - l.last[did] <= DAY {
        assert Groups(s.alerts[i], did, now);
      }
    }
  }

  lemma CreatedMatches(s: State, l: Loop, a: Alert, did: nat)
    requires Matches(s, l) && a.source == AI && a.did == Some(did) && Open(a)
    requires did in l.last ==> l.last[did] <= a.created
    ensures Matches(s.(alerts := s.alerts + [a]), Loop(l.incidents + 1, l.last[did := a.created]))
  {
    var more, last := s.alerts + [a], l.last[did := a.created];
    assert more[..|s.alerts|] == s.alerts && more[|s.alerts|] == a;
    forall d | d in last
      ensures exists i :: 0 <= i < |more| && Mine(more[i], d) && more[i].created == last[d]
    {
      if d == did {
        assert Mine(more[|s.alerts|], d);
      } else {
        var i :| 0 <= i < |s.alerts| && Mine(s.alerts[i], d) && s.alerts[i].created == l.last[d];
        assert Mine(more[i], d);
      }
    }
  }

  lemma RuleMatches(s: State, l: Loop, a: Alert)
    requires Matches(s, l) && a.source == RULE && Open(a)
    ensures Matches(s.(alerts := s.alerts + [a]), l)
  {
    var more := s.alerts + [a];
    assert more[..|s.alerts|] == s.alerts;
    forall d | d in l.last
      ensures exists i :: 0 <= i < |more| && Mine(more[i], d) && more[i].created == l.last[d]
    {
      var i :| 0 <= i < |s.alerts| && Mine(s.alerts[i], d) && s.alerts[i].created == l.last[d];
      assert Mine(more[i], d);
    }
  }

  lemma EvidenceMatches(s: State, l: Loop, at: nat, e: Event)
    requires Matches(s, l) && at < |s.alerts|
    ensures Matches(s.(alerts := s.alerts[at := Evidence(s.alerts[at], e)]), l)
  {
    var after := s.alerts[at := Evidence(s.alerts[at], e)];
    AiAlertsSame(s.alerts, after);
    forall d | d in l.last
      ensures exists i :: 0 <= i < |after| && Mine(after[i], d) && after[i].created == l.last[d]
    {
      var i :| 0 <= i < |s.alerts| && Mine(s.alerts[i], d) && s.alerts[i].created == l.last[d];
      assert Mine(after[i], d);
    }
  }

  lemma AiJoins(s: State, l: Loop, x: Timed)
    requires Matches(s, l) && !Known(s.alerts, x.event.id) && Counts(x.event)
    requires FirstGroup(s.alerts, x.event.actor.value, x.at, 0) < |s.alerts|
    ensures Matches(Raise(s.(now := x.at), x.event), LoopStep(l, x))
  {
    SameTest(s, l, x.event.actor.value, x.at);
    EvidenceMatches(s.(now := x.at), l, FirstGroup(s.alerts, x.event.actor.value, x.at, 0), x.event);
  }

  lemma AiOpens(s: State, l: Loop, x: Timed)
    requires Matches(s, l) && !Known(s.alerts, x.event.id) && Counts(x.event)
    requires forall d :: d in l.last ==> l.last[d] <= x.at
    requires FirstGroup(s.alerts, x.event.actor.value, x.at, 0) == |s.alerts|
    ensures Matches(Raise(s.(now := x.at), x.event), LoopStep(l, x))
  {
    SameTest(s, l, x.event.actor.value, x.at);
    CreatedMatches(s.(now := x.at), l, NewAlert(s.(now := x.at), x.event), x.event.actor.value);
  }

  lemma RaiseMatches(s: State, l: Loop, x: Timed)
    requires Matches(s, l) && !Known(s.alerts, x.event.id) && (x.event.source == AI ==> x.event.actor.Some?)
    requires forall d :: d in l.last ==> l.last[d] <= x.at
    ensures Matches(Raise(s.(now := x.at), x.event), LoopStep(l, x))
  {
    if Counts(x.event) {
      if FirstGroup(s.alerts, x.event.actor.value, x.at, 0) < |s.alerts| {
        AiJoins(s, l, x);
      } else {
        AiOpens(s, l, x);
      }
    } else if x.event.level != LOW {
      var t := s.(now := x.at);
      RuleMatches(t, l, NewAlert(t, x.event));
    }
  }

  /** Times do not go back, every event is a row of its own, and AI events have an actor. */
  ghost predicate Ordered(stream: seq<Timed>) {
    && (forall i, j :: 0 <= i < j < |stream| ==> stream[i].at <= stream[j].at && stream[i].event.id != stream[j].event.id)
    && (forall i :: 0 <= i < |stream| && stream[i].event.source == AI ==> stream[i].event.actor.Some?)
  }

  /** Every alert was raised for an event of the stream. */
  lemma {:induction false} EventOf(s: State, stream: seq<Timed>, i: nat) returns (k: nat)
    requires s.alerts == [] && i < |Live(s, stream).alerts|
    ensures k < |stream| && stream[k].event.id == Live(s, stream).alerts[i].event
  {
    var init := stream[..|stream| - 1];
    if i < |Live(s, init).alerts| {
      k := EventOf(s, init, i);
    } else {
      k := |stream| - 1;
    }
  }

  lemma {:induction false} LastSoFar(stream: seq<Timed>, at: int)
    requires forall i :: 0 <= i < |stream| ==> stream[i].at <= at
    ensures forall d :: d in Offline(stream).last ==> Offline(stream).last[d] <= at
  {
    if stream != [] {
      LastSoFar(stream[..|stream| - 1], at);
    }
  }

  lemma {:induction false} LiveMatches(s: State, stream: seq<Timed>)
    requires s.alerts == [] && Ordered(stream)
    ensures Matches(Live(s, stream), Offline(stream))
  {
    if stream != [] {
      var init, x := stream[..|stream| - 1], stream[|stream| - 1];
      LiveMatches(s, init);
      forall i | 0 <= i < |Live(s, init).alerts|
        ensures Live(s, init).alerts[i].event != x.event.id
      {
        var k := EventOf(s, init, i);
        assert stream[k] == init[k];
      }
      LastSoFar(init, x.at);
      RaiseMatches(Live(s, init), Offline(init), x);
    }
  }

  /** While no alert is closed, the live code raises exactly as many AI alerts on a time-ordered stream
      as the offline loop counts incidents. */
  lemma GroupingAgrees(s: State, stream: seq<Timed>)
    requires s.alerts == [] && Ordered(stream)
    ensures AiAlerts(Live(s, stream).alerts) == Offline(stream).incidents
  {
    LiveMatches(s, stream);
  }

  // ---------------------------------------------------------------- the desk, in place

  class Desk {
    var now: int
    var users: seq<User>
    var alerts: seq<Alert>

    function View(): State reads this { State(now, users, alerts) }

    constructor (start: int)
      ensures View() == State(start, [], [])
    {
      now, users, alerts := start, [], [];
    }

    method AddEvidence(at: nat, e: Event)
      requires at < |alerts|
      modifies `alerts
      ensures alerts == old(alerts)[at := Evidence(old(alerts)[at], e)]
    {
      var a := alerts[at];
      if Severity(e.level) < Severity(a.level) {
        return;
      }
      if Severity(e.level) > Severity(a.level) {
        a := a.(history := a.history + [Entry(SEVERITY_RAISED, None, None, a.stage)], level := e.level);
      }
      alerts := alerts[at := a.(score := Some(MaxReal(Value(a.score), Value(e.score))))];
    }

    method FindRecent(did: nat) returns (at: nat)
      ensures at == FirstGroup(alerts, did, now, 0)
    {
      at := 0;
      while at < |alerts| && !Groups(alerts[at], did, now)
        invariant at <= |alerts| && FirstGroup(alerts, did, now, at) == FirstGroup(alerts, did, now, 0)
      {
        at := at + 1;
      }
    }

    method RaiseAlert(e: Event)
      modifies `alerts
      ensures View() == Raise(old(View()), e)
    {
      if e.level == LOW || exists i :: 0 <= i < |alerts| && alerts[i].event == e.id {
        return;
      }
      if e.source == AI && e.actor.Some? {
        var at := FindRecent(e.actor.value);
        if at < |alerts| {
          AddEvidence(at, e);
          return;
        }
      }
      alerts := alerts + [NewAlert(View(), e)];
    }

    method Transition(i: nat, actor: nat, action: Action, to: Stage)
      requires i < |alerts|
      modifies `alerts
      ensures alerts == old(alerts)[i := Move(old(alerts)[i], actor, action, to)]
    {
      var a := alerts[i];
      alerts := alerts[i := a.(stage := to, history := a.history + [Entry(action, Some(actor), Some(a.stage), to)])];
    }

    method DoForward(i: nat, actor: nat) returns (done: bool)
      modifies `alerts
      ensures View() == Step(old(View()), Forward(i, actor))
      ensures done <==> MayAct(old(View()), i, actor) && Destination(old(users), old(alerts)[i], old(users)[actor]).Some?
    {
      if !MayAct(View(), i, actor) {
        return false;
      }
      var a, u := alerts[i], users[actor];
      if a.stage == AUDITOR_REVIEW && u.role == AUDITOR {
        if !ManagerExists(users, a) {
          Transition(i, actor, FORWARDED_TO_ADMIN, ADMIN_REVIEW);
        } else {
          Transition(i, actor, FORWARDED_TO_MANAGER, MANAGER_REVIEW);
        }
        return true;
      }
      if a.stage == MANAGER_REVIEW {
        if (u.role == MANAGER && Covers(u, a)) || (u.role == ADMIN && !ManagerExists(users, a)) {
          Transition(i, actor, FORWARDED_TO_ADMIN, ADMIN_REVIEW);
          return true;
        }
      }
      return false;
    }

    method DoDismiss(i: nat, actor: nat, noted: bool) returns (done: bool)
      modifies `alerts
      ensures View() == Step(old(View()), Dismiss(i, actor, noted))
      ensures done <==> MayAct(old(View()), i, actor) && noted && MayDismiss(old(alerts)[i], old(users)[actor])
    {
      done := MayAct(View(), i, actor) && noted && MayDismiss(alerts[i], users[actor]);
      if done {
        Transition(i, actor, CLOSED, DISMISSED);
      }
    }

    method DoRevokeSubject(i: nat, actor: nat) returns (done: bool)
      modifies `alerts, `users
      ensures View() == Step(old(View()), RevokeSubject(i, actor))
      ensures done <==> MayAct(old(View()), i, actor) && MayRevoke(old(View()), old(alerts)[i], actor)
    {
      done := MayAct(View(), i, actor) && MayRevoke(View(), alerts[i], actor);
      if done {
        var target := alerts[i].subject.value;
        users := users[target := users[target].(active := false, revoked := true)];
        Transition(i, actor, REVOKED, IDENTITY_REVOKED);
      }
    }
  }
}
