/** View requests as processes that interleave with each other, with revocation and with the clock.
    The counting UPDATE waits for the row lock, looks at the committed row and holds the lock
    until its transaction ends. */
module ViewLimits {
  import opened Prelude

  /** A grant as committed; lock names the process whose transaction holds the row. */
  datatype Grant = Grant(active: bool, revoked: bool, expires: Option<int>, canView: bool,
                         maxViews: Option<int>, views: nat, lock: Option<nat>)

  /** READY(at): the UPDATE was built at that time; HOLDING: it counted one, not yet committed. */
  datatype Phase = CHECKED | READY(at: int) | HOLDING(at: int) | SERVED | DENIED | FAILED

  datatype Process = Process(grant: nat, phase: Phase)

  /** A committed VIEW action, with the time its UPDATE was built at; holders and managers are not
      metered and name no grant. */
  datatype Viewed = Viewed(grant: Option<nat>, at: int)

  datatype State = State(now: int, grants: seq<Grant>, processes: seq<Process>, views: seq<Viewed>)

  predicate Usable(g: Grant, at: int) { g.active && !g.revoked && (g.expires == None || g.expires.value > at) }

  predicate Spare(g: Grant) { g.maxViews == None || g.views < g.maxViews.value }

  /** The WHERE clause, shared by the first check and by the UPDATE. */
  predicate Matches(g: Grant, at: int) { Usable(g, at) && g.canView && Spare(g) }

  datatype Event =
    | Tick(seconds: nat)
    | Share(expires: Option<int>, canView: bool, maxViews: Option<int>)
    | Begin(grant: nat)
    | Build(process: nat)
    | Count(process: nat)
    | Commit(process: nat)
    | Rollback(process: nat)
    | Revoke(grant: nat)
    | Unmetered

  predicate Live(s: State, p: nat) { p < |s.processes| && s.processes[p].grant < |s.grants| }

  function GrantOf(s: State, p: nat): Grant
    requires Live(s, p)
  {
    s.grants[s.processes[p].grant]
  }

  function SetPhase(s: State, p: nat, phase: Phase): State
    requires p < |s.processes|
  {
    s.(processes := s.processes[p := s.processes[p].(phase := phase)])
  }

  function SetGrant(s: State, g: nat, row: Grant): State
    requires g < |s.grants|
  {
    s.(grants := s.grants[g := row])
  }

  /** An event that is not enabled (a lock is held, the process is elsewhere) changes nothing. */
  function Step(s: State, e: Event): State {
    match e
    case Tick(seconds) => s.(now := s.now + seconds)
    case Share(expires, canView, maxViews) =>
      s.(grants := s.grants + [Grant(true, false, expires, canView, maxViews, 0, None)])
    case Begin(g) =>
      if g < |s.grants| && Matches(s.grants[g], s.now) then s.(processes := s.processes + [Process(g, CHECKED)]) else s
    case Build(p) =>
      if Live(s, p) && s.processes[p].phase.CHECKED? then SetPhase(s, p, READY(s.now)) else s
    case Count(p) =>
      if !Live(s, p) || !s.processes[p].phase.READY? || GrantOf(s, p).lock.Some? then s else
      var at := s.processes[p].phase.at;
      if !Matches(GrantOf(s, p), at) then SetPhase(s, p, DENIED) else
      SetPhase(SetGrant(s, s.processes[p].grant, GrantOf(s, p).(lock := Some(p))), p, HOLDING(at))
    case Commit(p) =>
      if !Live(s, p) || !s.processes[p].phase.HOLDING? then s else
      var g := s.processes[p].grant;
      SetPhase(SetGrant(s, g, s.grants[g].(views := s.grants[g].views + 1, lock := None)), p, SERVED)
        .(views := s.views + [Viewed(Some(g), s.processes[p].phase.at)])
    case Rollback(p) =>
      if !Live(s, p) then s else
      if s.processes[p].phase.HOLDING? then SetPhase(SetGrant(s, s.processes[p].grant, GrantOf(s, p).(lock := None)), p, FAILED) else
      if s.processes[p].phase.CHECKED? || s.processes[p].phase.READY? then SetPhase(s, p, FAILED) else s
    case Revoke(g) =>
      if g < |s.grants| && s.grants[g].lock == None then SetGrant(s, g, s.grants[g].(active := false, revoked := true)) else s
    case Unmetered => s.(views := s.views + [Viewed(None, s.now)])
  }

  function Run(s: State, events: seq<Event>): State {
    if events == [] then s else Step(Run(s, events[..|events| - 1]), events[|events| - 1])
  }

  predicate Initial(s: State) { s.grants == [] && s.processes == [] && s.views == [] }

  // ---------------------------------------------------------------- what every interleaving keeps

  function Counted(views: seq<Viewed>, g: nat): nat {
    if views == [] then 0 else Counted(views[..|views| - 1], g) + if views[|views| - 1].grant == Some(g) then 1 else 0
  }

  /** The committed count is the number of committed views; with the one in flight it is in bounds. */
  predicate Honest(s: State, g: nat)
    requires g < |s.grants|
  {
    var row := s.grants[g];
    && row.views == Counted(s.views, g)
    && (row.maxViews.Some? ==> row.views + (if row.lock.Some? then 1 else 0) <= Max(row.maxViews.value, 0))
    && (row.revoked || !row.active ==> row.lock == None)
  }

  /** A row is locked exactly by the process that is holding it. */
  predicate LockOk(s: State, g: nat)
    requires g < |s.grants|
  {
    var l := s.grants[g].lock;
    l.Some? ==> l.value < |s.processes| && s.processes[l.value].grant == g && s.processes[l.value].phase.HOLDING?
  }

  /** The grant was for viewing and had not run out at that time. */
  predicate Timely(g: Grant, at: int) { g.canView && (g.expires.Some? ==> at < g.expires.value) }

  predicate HolderOk(s: State, p: nat)
    requires p < |s.processes|
  {
    && s.processes[p].grant < |s.grants|
    && (s.processes[p].phase.HOLDING? ==>
          s.grants[s.processes[p].grant].lock == Some(p) && Timely(s.grants[s.processes[p].grant], s.processes[p].phase.at))
  }

  predicate ViewOk(s: State, i: nat)
    requires i < |s.views|
  {
    s.views[i].grant.Some? ==> s.views[i].grant.value < |s.grants| && Timely(s.grants[s.views[i].grant.value], s.views[i].at)
  }

  ghost predicate Inv(s: State) {
    && (forall g :: 0 <= g < |s.grants| ==> Honest(s, g) && LockOk(s, g))
    && (forall p :: 0 <= p < |s.processes| ==> HolderOk(s, p))
    && (forall i :: 0 <= i < |s.views| ==> ViewOk(s, i))
  }

  lemma CountedAppend(views: seq<Viewed>, v: Viewed, g: nat)
    ensures Counted(views + [v], g) == Counted(views, g) + if v.grant == Some(g) then 1 else 0
  {
    assert (views + [v])[..|views|] == views;
  }

  lemma {:induction false} CountedNone(views: seq<Viewed>, g: nat)
    requires forall i :: 0 <= i < |views| ==> views[i].grant != Some(g)
    ensures Counted(views, g) == 0
  {
    if views != [] {
      CountedNone(views[..|views| - 1], g);
    }
  }

  /** What was seen stays as it was: no grant changes what it is for or when it ends. */
  lemma ViewsKeep(s: State, e: Event)
    requires Inv(s)
    ensures forall i :: 0 <= i < |Step(s, e).views| ==> ViewOk(Step(s, e), i)
  {
    var t := Step(s, e);
    forall i | 0 <= i < |t.views|
      ensures ViewOk(t, i)
    {
      if i < |s.views| {
        assert ViewOk(s, i);
      } else if e.Commit? {
        assert HolderOk(s, e.process);
      }
    }
  }

  lemma CommitKeeps(s: State, p: nat)
    requires Inv(s)
    ensures Inv(Step(s, Commit(p)))
  {
    var t := Step(s, Commit(p));
    if t != s {
      var g := s.processes[p].grant;
      assert HolderOk(s, p) && Honest(s, g);
      forall k | 0 <= k < |t.grants|
        ensures Honest(t, k) && LockOk(t, k)
      {
        assert Honest(s, k) && LockOk(s, k);
        CountedAppend(s.views, t.views[|s.views|], k);
      }
      forall q | 0 <= q < |t.processes|
        ensures HolderOk(t, q)
      {
        assert HolderOk(s, q);
      }
      ViewsKeep(s, Commit(p));
    }
  }

  lemma CountKeeps(s: State, p: nat)
    requires Inv(s)
    ensures Inv(Step(s, Count(p)))
  {
    var t := Step(s, Count(p));
    forall k | 0 <= k < |t.grants|
      ensures Honest(t, k) && LockOk(t, k)
    {
      assert Honest(s, k) && LockOk(s, k);
    }
    forall q | 0 <= q < |t.processes|
      ensures HolderOk(t, q)
    {
      assert HolderOk(s, q);
    }
    ViewsKeep(s, Count(p));
  }

  lemma StepKeeps(s: State, e: Event)
    requires Inv(s)
    ensures Inv(Step(s, e))
  {
    match e
    case Commit(p) => CommitKeeps(s, p);
    case Count(p) => CountKeeps(s, p);
    case Share(_, _, _) => ShareKeeps(s, e);
    case Unmetered => PlainKeeps(s, e);
    case Rollback(p) => RollbackKeeps(s, p);
    case Tick(_) => PlainKeeps(s, e);
    case Begin(_) => PlainKeeps(s, e);
    case Build(_) => PlainKeeps(s, e);
    case Revoke(_) => PlainKeeps(s, e);
  }

  lemma ShareKeeps(s: State, e: Event)
    requires Inv(s) && e.Share?
    ensures Inv(Step(s, e))
  {
    var t := Step(s, e);
    forall i | 0 <= i < |s.views|
      ensures s.views[i].grant != Some(|s.grants|)
    {
      assert ViewOk(s, i);
    }
    CountedNone(s.views, |s.grants|);
    forall k | 0 <= k < |t.grants|
      ensures Honest(t, k) && LockOk(t, k)
    {
      if k < |s.grants| {
        assert Honest(s, k) && LockOk(s, k);
      }
    }
    forall q | 0 <= q < |t.processes|
      ensures HolderOk(t, q)
    {
      assert HolderOk(s, q);
    }
    ViewsKeep(s, e);
  }

  lemma RollbackKeeps(s: State, p: nat)
    requires Inv(s)
    ensures Inv(Step(s, Rollback(p)))
  {
    var t := Step(s, Rollback(p));
    assert p < |s.processes| ==> HolderOk(s, p);
    forall k | 0 <= k < |t.grants|
      ensures Honest(t, k) && LockOk(t, k)
    {
      assert Honest(s, k) && LockOk(s, k);
    }
    forall q | 0 <= q < |t.processes|
      ensures HolderOk(t, q)
    {
      assert HolderOk(s, q);
    }
    ViewsKeep(s, Rollback(p));
  }

  lemma PlainKeeps(s: State, e: Event)
    requires Inv(s) && (e.Tick? || e.Begin? || e.Build? || e.Revoke? || e.Unmetered?)
    ensures Inv(Step(s, e))
  {
    var t := Step(s, e);
    forall k | 0 <= k < |t.grants|
      ensures Honest(t, k) && LockOk(t, k)
    {
      assert Honest(s, k) && LockOk(s, k);
      CountedAppend(s.views, Viewed(None, s.now), k);
    }
    forall q | 0 <= q < |t.processes|
      ensures HolderOk(t, q)
    {
      if q < |s.processes| {
        assert HolderOk(s, q);
      }
    }
    ViewsKeep(s, e);
  }

  lemma {:induction false} RunKeeps(s: State, events: seq<Event>)
    requires Inv(s)
    ensures Inv(Run(s, events))
  {
    if events != [] {
      RunKeeps(s, events[..|events| - 1]);
      StepKeeps(Run(s, events[..|events| - 1]), events[|events| - 1]);
    }
  }

  // ---------------------------------------------------------------- what follows in every interleaving

  /** The committed count is the number of committed views that name the grant, and never passes a
      limit that is set; a limit of 0 or less admits none. */
  lemma LimitHolds(s: State, events: seq<Event>, g: nat)
    requires Initial(s) && g < |Run(s, events).grants|
    ensures var t := Run(s, events); var row := t.grants[g];
      row.views == Counted(t.views, g) && (row.maxViews.Some? ==> row.views <= Max(row.maxViews.value, 0))
  {
    RunKeeps(s, events);
    assert Honest(Run(s, events), g);
  }

  /** While a request holds the row, nothing but its own end touches it. */
  lemma HeldStep(s: State, e: Event, p: nat)
    requires Inv(s) && Live(s, p) && s.processes[p].phase.HOLDING? && e != Commit(p) && e != Rollback(p)
    ensures var t := Step(s, e); var g := s.processes[p].grant;
      && Live(t, p) && t.processes[p] == s.processes[p] && t.grants[g] == s.grants[g]
      && Counted(t.views, g) == Counted(s.views, g)
  {
    var g := s.processes[p].grant;
    assert HolderOk(s, p);
    match e
    case Commit(q) =>
      if Live(s, q) && s.processes[q].phase.HOLDING? {
        assert HolderOk(s, q);
        CountedAppend(s.views, Viewed(Some(s.processes[q].grant), s.processes[q].phase.at), g);
      }
    case Rollback(q) => if q < |s.processes| { assert HolderOk(s, q); }
    case Unmetered => CountedAppend(s.views, Viewed(None, s.now), g);
    case _ =>
  }

  lemma {:induction false} HeldRun(s: State, events: seq<Event>, p: nat)
    requires Inv(s) && Live(s, p) && s.processes[p].phase.HOLDING?
    requires forall n :: 0 <= n < |events| ==> events[n] != Commit(p) && events[n] != Rollback(p)
    ensures var t := Run(s, events); var g := s.processes[p].grant;
      && Inv(t) && Live(t, p) && t.processes[p] == s.processes[p] && t.grants[g] == s.grants[g]
      && Counted(t.views, g) == Counted(s.views, g)
  {
    if events != [] {
      var init := events[..|events| - 1];
      HeldRun(s, init, p);
      HeldStep(Run(s, init), events[|events| - 1], p);
      StepKeeps(Run(s, init), events[|events| - 1]);
    }
  }

  /** A request that counted and then fails, whatever everybody else did in the meantime: its grant is
      exactly what it was before it counted, no view of it was recorded, and rolling back takes
      nothing from any other grant and no view back. */
  lemma FailureConsumesNothing(s: State, p: nat, events: seq<Event>)
    requires Inv(s) && Live(s, p) && s.processes[p].phase.READY? && Step(s, Count(p)).processes[p].phase.HOLDING?
    requires forall n :: 0 <= n < |events| ==> events[n] != Commit(p) && events[n] != Rollback(p)
    ensures var t := Run(Step(s, Count(p)), events); var u := Step(t, Rollback(p)); var g := s.processes[p].grant;
      && g < |t.grants| && u.grants == t.grants[g := s.grants[g]] && u.views == t.views
      && Counted(u.views, g) == Counted(s.views, g) == u.grants[g].views
  {
    var c, g := Step(s, Count(p)), s.processes[p].grant;
    StepKeeps(s, Count(p));
    HeldRun(c, events, p);
    assert c.grants[g] == s.grants[g].(lock := Some(p)) && s.grants[g].(lock := Some(p)).(lock := None) == s.grants[g];
    assert Honest(s, g);
  }

  /** In every run a view that names a grant was counted before that grant's expiry, and the grant is
      one for viewing. */
  lemma NothingAfterExpiry(s: State, events: seq<Event>, i: nat)
    requires Initial(s) && i < |Run(s, events).views| && Run(s, events).views[i].grant.Some?
    ensures var t := Run(s, events); var x := t.views[i];
      x.grant.value < |t.grants| && t.grants[x.grant.value].canView
      && (t.grants[x.grant.value].expires.Some? ==> x.at < t.grants[x.grant.value].expires.value)
  {
    RunKeeps(s, events);
    assert ViewOk(Run(s, events), i);
  }

  /** Once a grant is revoked, which takes its row free, nothing more is ever counted or served through
      it, and it stays revoked. */
  lemma RevokedIsFinal(s: State, g: nat, events: seq<Event>)
    requires Inv(s) && g < |s.grants| && s.grants[g].lock == None
    ensures var t := Run(Step(s, Revoke(g)), events);
      && g < |t.grants| && t.grants[g].revoked && !t.grants[g].active
      && t.grants[g].views == s.grants[g].views && Counted(t.views, g) == Counted(s.views, g)
  {
    StepKeeps(s, Revoke(g));
    RevokedStays(Step(s, Revoke(g)), events, g);
  }

  ghost predicate Over(s: State, t: State, g: nat) {
    && g < |s.grants| && g < |t.grants| && t.grants[g].revoked && !t.grants[g].active
    && t.grants[g].views == s.grants[g].views && Counted(t.views, g) == Counted(s.views, g)
  }

  lemma {:induction false} RevokedStays(s: State, events: seq<Event>, g: nat)
    requires Inv(s) && Over(s, s, g)
    ensures Over(s, Run(s, events), g)
  {
    if events != [] {
      var before := Run(s, events[..|events| - 1]);
      RevokedStays(s, events[..|events| - 1], g);
      RunKeeps(s, events[..|events| - 1]);
      RevokedStep(before, events[|events| - 1], g);
    }
  }

  lemma RevokedStep(s: State, e: Event, g: nat)
    requires Inv(s) && Over(s, s, g)
    ensures Over(s, Step(s, e), g)
  {
    assert Honest(s, g);
    match e
    case Commit(p) =>
      if Live(s, p) && s.processes[p].phase.HOLDING? {
        assert HolderOk(s, p);
        CountedAppend(s.views, Viewed(Some(s.processes[p].grant), s.processes[p].phase.at), g);
      }
    case Unmetered => CountedAppend(s.views, Viewed(None, s.now), g);
    case _ =>
  }

  /** The UPDATE takes a row if and only if nobody holds it and it is active, not revoked, for viewing,
      not expired at the time the UPDATE was built and below its limit; and whatever happens until
      the commit it is just that row, with one more view, that is committed: no revocation, no other
      view and no change of its limit comes in between. */
  lemma {:induction false} CountedWasUsable(s: State, p: nat, events: seq<Event>)
    requires Inv(s) && Live(s, p) && s.processes[p].phase.READY?
    requires forall n :: 0 <= n < |events| ==> events[n] != Commit(p) && events[n] != Rollback(p)
    ensures var row := s.grants[s.processes[p].grant];
      Step(s, Count(p)).processes[p].phase.HOLDING? <==>
        && row.lock == None && row.active && !row.revoked && row.canView
        && (row.expires == None || row.expires.value > s.processes[p].phase.at)
        && (row.maxViews == None || row.views < row.maxViews.value)
    ensures var c := Step(s, Count(p)); c.processes[p].phase.HOLDING? ==>
      var t := Run(c, events); var g := s.processes[p].grant;
        && Live(t, p) && t.processes[p].grant == g && Counted(t.views, g) == Counted(s.views, g)
        && Step(t, Commit(p)).grants == t.grants[g := s.grants[g].(views := s.grants[g].views + 1)]
        && Step(t, Commit(p)).views == t.views + [Viewed(Some(g), s.processes[p].phase.at)]
  {
    var c, g := Step(s, Count(p)), s.processes[p].grant;
    if c.processes[p].phase.HOLDING? {
      StepKeeps(s, Count(p));
      HeldRun(c, events, p);
      assert c.grants[g] == s.grants[g].(lock := Some(p));
      assert s.grants[g].(lock := Some(p)).(views := s.grants[g].views + 1, lock := None) == s.grants[g].(views := s.grants[g].views + 1);
    }
  }

  // ---------------------------------------------------------------- a request on its own

  lemma RunAppend(s: State, events: seq<Event>, e: Event)
    ensures Run(s, events + [e]) == Step(Run(s, events), e)
  {
    assert (events + [e])[..|events|] == events;
  }

  /** A whole view request through grant g, by the next process, with time passing before its UPDATE. */
  function Opening(s: State, g: nat, wait: nat): seq<Event> { [] + [Begin(g)] + [Tick(wait)] + [Build(|s.processes|)] }

  function Request(s: State, g: nat, wait: nat): seq<Event> { Opening(s, g, wait) + [Count(|s.processes|)] + [Commit(|s.processes|)] }

  lemma RequestSteps(s: State, g: nat, wait: nat)
    ensures Run(s, Request(s, g, wait)) == Step(Step(Run(s, Opening(s, g, wait)), Count(|s.processes|)), Commit(|s.processes|))
  {
    RunAppend(s, Opening(s, g, wait), Count(|s.processes|));
    RunAppend(s, Opening(s, g, wait) + [Count(|s.processes|)], Commit(|s.processes|));
  }

  lemma OpeningSteps(s: State, g: nat, wait: nat)
    ensures Run(s, Opening(s, g, wait)) == Step(Step(Step(s, Begin(g)), Tick(wait)), Build(|s.processes|))
  {
    var e0: seq<Event> := [];
    RunAppend(s, e0, Begin(g));
    RunAppend(s, e0 + [Begin(g)], Tick(wait));
    RunAppend(s, e0 + [Begin(g)] + [Tick(wait)], Build(|s.processes|));
  }

  /** Usable at the time: active, not revoked, for viewing, below its limit and not expired. */
  predicate Allows(row: Grant, at: int) {
    && row.active && !row.revoked && row.canView && (row.maxViews == None || row.views < row.maxViews.value)
    && (row.expires == None || row.expires.value > at)
  }

  ghost predicate Served(s: State, t: State, g: nat, at: int)
    requires g < |s.grants|
  {
    && t.grants == s.grants[g := s.grants[g].(views := s.grants[g].views + 1)] && t.views == s.views + [Viewed(Some(g), at)]
    && t.processes == s.processes + [Process(g, SERVED)] && t.now == at
  }

  ghost predicate Turned(s: State, t: State, at: int) {
    && t.grants == s.grants && t.views == s.views && t.now == at && |s.processes| <= |t.processes|
    && forall p :: |s.processes| <= p < |t.processes| ==> t.processes[p].phase != SERVED
  }

  lemma AllowsMatches(row: Grant, at: int)
    ensures Matches(row, at) <==> Allows(row, at)
  {
  }

  /** From the UPDATE on. */
  lemma CountAndCommit(s: State, g: nat, at: int)
    requires g < |s.grants| && s.grants[g].lock == None && |s.processes| > 0 && s.processes[|s.processes| - 1] == Process(g, READY(at))
    ensures var p := |s.processes| - 1; var t := Step(Step(s, Count(p)), Commit(p));
      if Allows(s.grants[g], at)
      then t == s.(grants := s.grants[g := s.grants[g].(views := s.grants[g].views + 1)], views := s.views + [Viewed(Some(g), at)],
                   processes := s.processes[p := Process(g, SERVED)])
      else t == s.(processes := s.processes[p := Process(g, DENIED)])
  {
    var p, row := |s.processes| - 1, s.grants[g];
    AllowsMatches(row, at);
    assert row.(lock := Some(p)).(views := row.views + 1, lock := None) == row.(views := row.views + 1);
  }

  /** The state when the UPDATE of the request is built. */
  function Ready(s: State, g: nat, wait: nat): State { s.(now := s.now + wait, processes := s.processes + [Process(g, READY(s.now + wait))]) }

  lemma Begins(s: State, g: nat)
    requires g < |s.grants|
    ensures Step(s, Begin(g)) == if Allows(s.grants[g], s.now) then s.(processes := s.processes + [Process(g, CHECKED)]) else s
  {
    AllowsMatches(s.grants[g], s.now);
  }

  lemma Waits(s: State, g: nat, wait: nat)
    requires g < |s.grants|
    ensures Step(Step(s.(processes := s.processes + [Process(g, CHECKED)]), Tick(wait)), Build(|s.processes|)) == Ready(s, g, wait)
    ensures Step(Step(s, Tick(wait)), Build(|s.processes|)) == s.(now := s.now + wait)
  {
    var t := s.(now := s.now + wait, processes := s.processes + [Process(g, CHECKED)]);
    assert t.processes[|s.processes| := Process(g, READY(t.now))] == s.processes + [Process(g, READY(t.now))];
  }

  lemma Opens(s: State, g: nat, wait: nat)
    requires g < |s.grants|
    ensures Run(s, Opening(s, g, wait)) == if Allows(s.grants[g], s.now) then Ready(s, g, wait) else s.(now := s.now + wait)
  {
    OpeningSteps(s, g, wait);
    Begins(s, g);
    Waits(s, g, wait);
  }

  lemma ReadyEnds(s: State, g: nat, wait: nat)
    requires g < |s.grants| && s.grants[g].lock == None
    ensures var t := Step(Step(Ready(s, g, wait), Count(|s.processes|)), Commit(|s.processes|));
      if Allows(s.grants[g], s.now + wait) then Served(s, t, g, s.now + wait) else Turned(s, t, s.now + wait)
  {
    var r, p := Ready(s, g, wait), |s.processes|;
    CountAndCommit(r, g, s.now + wait);
    assert r.processes[p := Process(g, SERVED)] == s.processes + [Process(g, SERVED)];
  }

  lemma NobodyCounts(s: State, p: nat)
    requires p >= |s.processes|
    ensures Step(Step(s, Count(p)), Commit(p)) == s
  {
  }

  /** A request that meets nobody is served if and only if the grant is active, not revoked, for viewing,
      below its limit and still not expired when the UPDATE is built; then one view is counted and
      recorded with that time, and otherwise no row and no record changes. */
  lemma ServedAlone(s: State, g: nat, wait: nat)
    requires g < |s.grants| && s.grants[g].lock == None
    ensures var t := Run(s, Request(s, g, wait));
      if Allows(s.grants[g], s.now + wait) then Served(s, t, g, s.now + wait) else Turned(s, t, s.now + wait)
  {
    RequestSteps(s, g, wait);
    Opens(s, g, wait);
    if Allows(s.grants[g], s.now) {
      ReadyEnds(s, g, wait);
    } else {
      NobodyCounts(s.(now := s.now + wait), |s.processes|);
    }
  }

  function Requests(s: State, g: nat, n: nat): State {
    if n == 0 then s else var t := Requests(s, g, n - 1); Run(t, Request(t, g, 0))
  }

  /** A newly shared grant with a limit serves exactly that many of any number of requests, one without
      a limit serves them all. */
  lemma {:induction false} LimitIsReached(s: State, maxViews: Option<int>, n: nat)
    ensures var g := |s.grants|; var t := Requests(Step(s, Share(None, true, maxViews)), g, n);
      && |t.grants| == g + 1
      && t.grants[g] == Grant(true, false, None, true, maxViews, if maxViews == None then n else Min(n, Max(maxViews.value, 0)), None)
      && |t.views| == |s.views| + t.grants[g].views
  {
    if n > 0 {
      LimitIsReached(s, maxViews, n - 1);
      ServedAlone(Requests(Step(s, Share(None, true, maxViews)), |s.grants|, n - 1), |s.grants|, 0);
    }
  }

  /** A request that is over stays so: neither served nor failed nor denied ones come back. */
  predicate Finished(x: Process) { x.phase == SERVED || x.phase == DENIED || x.phase == FAILED }

  lemma FinishedStep(s: State, e: Event, p: nat)
    requires p < |s.processes| && Finished(s.processes[p])
    ensures p < |Step(s, e).processes| && Step(s, e).processes[p] == s.processes[p]
  {
  }

  /** A request rolled back before it ended has failed for good, whatever follows. */
  lemma {:induction false} RolledBackStays(s: State, p: nat, events: seq<Event>)
    requires Live(s, p) && s.processes[p].phase != SERVED && s.processes[p].phase != DENIED
    ensures var t := Run(Step(s, Rollback(p)), events);
      p < |t.processes| && t.processes[p] == s.processes[p].(phase := FAILED)
  {
    if events != [] {
      RolledBackStays(s, p, events[..|events| - 1]);
      FinishedStep(Run(Step(s, Rollback(p)), events[..|events| - 1]), events[|events| - 1], p);
    }
  }

  // ---------------------------------------------------------------- the table, in place

  class Grants {
    var now: int
    var grants: seq<Grant>
    var processes: seq<Process>
    var views: seq<Viewed>

    function View(): State reads this { State(now, grants, processes, views) }

    constructor (start: int)
      ensures Initial(View())
    {
      now, grants, processes, views := start, [], [], [];
    }

    /** The conditional UPDATE. None when the row is locked; otherwise whether it counted. */
    method ConsumeView(p: nat) returns (counted: Option<bool>)
      requires p < |processes| && processes[p].grant < |grants| && processes[p].phase.READY?
      modifies this
      ensures View() == Step(old(View()), Count(p))
      ensures counted == if old(grants[processes[p].grant].lock).Some? then None
                         else Some(Matches(old(grants[processes[p].grant]), old(processes[p].phase.at)))
    {
      var g, at := processes[p].grant, processes[p].phase.at;
      if grants[g].lock.Some? {
        return None;
      }
      if Matches(grants[g], at) {
        grants := grants[g := grants[g].(lock := Some(p))];
        processes := processes[p := processes[p].(phase := HOLDING(at))];
        return Some(true);
      }
      processes := processes[p := processes[p].(phase := DENIED)];
      return Some(false);
    }

    /** The end of the view handler: commit when the copy was rendered, roll back when not. */
    method Finish(p: nat, rendered: bool)
      requires p < |processes| && processes[p].grant < |grants| && processes[p].phase.HOLDING?
      modifies this
      ensures View() == Step(old(View()), if rendered then Commit(p) else Rollback(p))
    {
      var g, at := processes[p].grant, processes[p].phase.at;
      if rendered {
        grants := grants[g := grants[g].(views := grants[g].views + 1, lock := None)];
        processes := processes[p := processes[p].(phase := SERVED)];
        views := views + [Viewed(Some(g), at)];
      } else {
        grants := grants[g := grants[g].(lock := None)];
        processes := processes[p := processes[p].(phase := FAILED)];
      }
    }

    method DoRevoke(g: nat) returns (done: bool)
      modifies this
      ensures View() == Step(old(View()), Revoke(g))
      ensures done <==> g < |old(grants)| && old(grants)[g].lock == None
    {
      done := g < |grants| && grants[g].lock == None;
      if done {
        grants := grants[g := grants[g].(active := false, revoked := true)];
      }
    }
  }
}
