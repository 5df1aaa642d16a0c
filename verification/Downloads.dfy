/** Controlled downloads: a request, the owner's consent, an approval, and fetches that interleave as
    processes. The claiming UPDATE waits for the row lock and looks at the committed status. */
module Downloads {
  import opened Prelude

  datatype Status = PENDING | APPROVED | REJECTED | COMPLETED

  /** A request as committed. lock names the fetch whose transaction holds the row; revision is the
      revision made from the copy. */
  datatype Request = Request(user: nat, modification: bool, needsOwner: bool, consent: Option<nat>, status: Status,
                             expires: Option<int>, lock: Option<nat>, revision: Option<nat>)

  /** CHECKED(at): status and expiry were read at that time; CLAIMED: the row is taken, not committed. */
  datatype Phase = CHECKED(at: int) | CLAIMED(at: int) | SERVED | REFUSED | FAILED

  datatype Fetch = Fetch(request: nat, user: nat, phase: Phase)

  /** A committed copy: of which request, to whom, checked when; direct copies are the owner's own. */
  datatype Copy = Copy(request: nat, user: nat, at: int, direct: bool)

  datatype State = State(now: int, requests: seq<Request>, fetches: seq<Fetch>, copies: seq<Copy>, revisions: nat, ttl: nat)

  datatype Event =
    | Tick(seconds: nat)
    | Ask(user: nat, modification: bool, needsOwner: bool, privileged: bool)
    | Consent(request: nat, owner: nat, privileged: bool)
    | Refuse(request: nat)
    | Approve(request: nat, documentApproved: bool)
    | Reject(request: nat)
    | Begin(request: nat, user: nat)
    | Claim(fetch: nat)
    | Commit(fetch: nat)
    | Fail(fetch: nat)
    | OwnerCopy(user: nat, modification: bool)
    | Revise(request: nat, user: nat)

  function Put(s: State, r: nat, row: Request): State
    requires r < |s.requests|
  {
    s.(requests := s.requests[r := row])
  }

  function Move(s: State, f: nat, phase: Phase): State
    requires f < |s.fetches|
  {
    s.(fetches := s.fetches[f := s.fetches[f].(phase := phase)])
  }

  predicate AwaitsOwner(x: Request) { x.status == PENDING && x.needsOwner && x.consent == None }

  predicate Fetchable(x: Request, user: nat, now: int) {
    x.user == user && x.status == APPROVED && (x.expires == None || x.expires.value > now)
  }

  predicate Running(s: State, f: nat) { f < |s.fetches| && s.fetches[f].request < |s.requests| }

  /** An event that is not enabled changes nothing. */
  function Step(s: State, e: Event): State {
    match e
    case Tick(seconds) => s.(now := s.now + seconds)
    case Ask(user, modification, needsOwner, privileged) =>
      var auto := !needsOwner && privileged;
      s.(requests := s.requests + [Request(user, modification, needsOwner, None, if auto then APPROVED else PENDING,
                                           if auto then Some(s.now + s.ttl) else None, None, None)])
    case Consent(r, owner, privileged) =>
      if r >= |s.requests| || !AwaitsOwner(s.requests[r]) then s else
      var x := s.requests[r].(consent := Some(owner));
      Put(s, r, if privileged then x.(status := APPROVED, expires := Some(s.now + s.ttl)) else x)
    case Refuse(r) =>
      if r >= |s.requests| || !AwaitsOwner(s.requests[r]) then s else Put(s, r, s.requests[r].(status := REJECTED))
    case Approve(r, documentApproved) =>
      if r >= |s.requests| || s.requests[r].status != PENDING then s else
      if s.requests[r].needsOwner && s.requests[r].consent == None then s else
      if !documentApproved then s else
      Put(s, r, s.requests[r].(status := APPROVED, expires := Some(s.now + s.ttl)))
    case Reject(r) =>
      if r >= |s.requests| || s.requests[r].status != PENDING then s else Put(s, r, s.requests[r].(status := REJECTED))
    case Begin(r, user) =>
      if r < |s.requests| && Fetchable(s.requests[r], user, s.now)
      then s.(fetches := s.fetches + [Fetch(r, user, CHECKED(s.now))]) else s
    case Claim(f) =>
      if !Running(s, f) || !s.fetches[f].phase.CHECKED? then s else
      var r := s.fetches[f].request;
      if s.requests[r].lock.Some? then s else
      if s.requests[r].status != APPROVED then Move(s, f, REFUSED) else
      Move(Put(s, r, s.requests[r].(lock := Some(f))), f, CLAIMED(s.fetches[f].phase.at))
    case Commit(f) =>
      if !Running(s, f) || !s.fetches[f].phase.CLAIMED? then s else
      var r, at := s.fetches[f].request, s.fetches[f].phase.at;
      Move(Put(s, r, s.requests[r].(status := COMPLETED, lock := None)), f, SERVED)
        .(copies := s.copies + [Copy(r, s.fetches[f].user, at, false)])
    case Fail(f) =>
      if !Running(s, f) then s else
      var r := s.fetches[f].request;
      if s.fetches[f].phase.CLAIMED? then Move(Put(s, r, s.requests[r].(lock := None)), f, FAILED) else
      if s.fetches[f].phase.CHECKED? then Move(s, f, FAILED) else s
    case OwnerCopy(user, modification) =>
      s.(requests := s.requests + [Request(user, modification, false, None, COMPLETED, None, None, None)],
         copies := s.copies + [Copy(|s.requests|, user, s.now, true)])
    case Revise(r, user) =>
      if r >= |s.requests| then s else
      var x := s.requests[r];
      if x.user != user || !x.modification || x.status != COMPLETED || x.revision.Some? then s else
      Put(s, r, x.(revision := Some(s.revisions))).(revisions := s.revisions + 1)
  }

  function Run(s: State, events: seq<Event>): State {
    if events == [] then s else Step(Run(s, events[..|events| - 1]), events[|events| - 1])
  }

  predicate Initial(s: State) { s.requests == [] && s.fetches == [] && s.copies == [] && s.revisions == 0 }

  // ---------------------------------------------------------------- what every interleaving keeps

  function CopiesOf(copies: seq<Copy>, r: nat): nat {
    if copies == [] then 0 else CopiesOf(copies[..|copies| - 1], r) + if copies[|copies| - 1].request == r then 1 else 0
  }

  /** One copy exactly when completed; an approval expires and needs the consent it was asked to have;
      only an approved row is locked, by the fetch that claimed it; only a completed modification is revised. */
  predicate RowOk(s: State, r: nat)
    requires r < |s.requests|
  {
    var x := s.requests[r];
    && CopiesOf(s.copies, r) == (if x.status == COMPLETED then 1 else 0)
    && (x.needsOwner && (x.status == APPROVED || x.status == COMPLETED) ==> x.consent.Some?)
    && (x.status == APPROVED ==> x.expires.Some?)
    && (x.lock.Some? ==>
         && x.status == APPROVED && x.lock.value < |s.fetches|
         && s.fetches[x.lock.value].request == r && s.fetches[x.lock.value].phase.CLAIMED?)
    && (x.revision.Some? ==> x.modification && x.status == COMPLETED && x.revision.value < s.revisions)
  }

  predicate FetchOk(s: State, f: nat)
    requires f < |s.fetches|
  {
    var x := s.fetches[f];
    && x.request < |s.requests| && x.user == s.requests[x.request].user
    && (x.phase.CLAIMED? ==> s.requests[x.request].lock == Some(f))
    && (x.phase.CHECKED? || x.phase.CLAIMED? ==> InTime(s.requests[x.request], x.phase.at) && s.requests[x.request].status != PENDING)
  }

  /** The approval had an expiry, and it lay ahead. */
  predicate InTime(x: Request, at: int) { x.expires.Some? && x.expires.value > at }

  /** A copy went to the request's own user; a fetched one was checked before the approval expired. */
  predicate CopyOk(s: State, c: nat)
    requires c < |s.copies|
  {
    var x := s.copies[c];
    && x.request < |s.requests| && x.user == s.requests[x.request].user && s.requests[x.request].status == COMPLETED
    && (!x.direct ==> InTime(s.requests[x.request], x.at))
  }

  /** Different requests never back the same revision. */
  ghost predicate RevisionsApart(requests: seq<Request>) {
    forall i, j :: 0 <= i < |requests| && 0 <= j < |requests| && requests[i].revision.Some? && requests[i].revision == requests[j].revision ==> i == j
  }

  ghost predicate Inv(s: State) {
    && (forall r :: 0 <= r < |s.requests| ==> RowOk(s, r)) && (forall f :: 0 <= f < |s.fetches| ==> FetchOk(s, f))
    && (forall c :: 0 <= c < |s.copies| ==> CopyOk(s, c)) && RevisionsApart(s.requests)
  }

  lemma CopiesAppend(copies: seq<Copy>, c: Copy, r: nat)
    ensures CopiesOf(copies + [c], r) == CopiesOf(copies, r) + if c.request == r then 1 else 0
  {
    assert (copies + [c])[..|copies|] == copies;
  }

  lemma {:induction false} CopiesNone(copies: seq<Copy>, r: nat)
    requires forall i :: 0 <= i < |copies| ==> copies[i].request != r
    ensures CopiesOf(copies, r) == 0
  {
    if copies != [] {
      CopiesNone(copies[..|copies| - 1], r);
    }
  }

  lemma CommitRows(s: State, f: nat, r: nat)
    requires Inv(s) && r < |s.requests|
    ensures RowOk(Step(s, Commit(f)), r)
  {
    assert RowOk(s, r);
    if Running(s, f) && s.fetches[f].phase.CLAIMED? {
      assert FetchOk(s, f);
      CopiesAppend(s.copies, Copy(s.fetches[f].request, s.fetches[f].user, s.fetches[f].phase.at, false), r);
    }
  }

  lemma FailRows(s: State, f: nat, r: nat)
    requires Inv(s) && r < |s.requests|
    ensures RowOk(Step(s, Fail(f)), r)
  {
    assert RowOk(s, r);
    if Running(s, f) {
      assert FetchOk(s, f);
    }
  }

  lemma NewRow(s: State, e: Event, r: nat)
    requires Inv(s) && (e.Ask? || e.OwnerCopy?) && r < |Step(s, e).requests|
    ensures RowOk(Step(s, e), r)
  {
    if r < |s.requests| {
      assert RowOk(s, r);
    }
    CopiesOnlyOfRows(s);
    if e.OwnerCopy? {
      CopiesAppend(s.copies, Copy(|s.requests|, e.user, s.now, true), r);
    }
  }

  lemma RowsKept(s: State, e: Event, r: nat)
    requires Inv(s) && r < |Step(s, e).requests|
    ensures RowOk(Step(s, e), r)
  {
    if e.Ask? || e.OwnerCopy? {
      NewRow(s, e, r);
    } else {
      assert RowOk(s, r);
      if e.Commit? {
        CommitRows(s, e.fetch, r);
      } else if e.Fail? {
        FailRows(s, e.fetch, r);
      }
    }
  }

  lemma CopiesOnlyOfRows(s: State)
    requires Inv(s)
    ensures CopiesOf(s.copies, |s.requests|) == 0
  {
    forall i | 0 <= i < |s.copies|
      ensures s.copies[i].request != |s.requests|
    {
      assert CopyOk(s, i);
    }
    CopiesNone(s.copies, |s.requests|);
  }

  lemma FetchesKept(s: State, e: Event, f: nat)
    requires Inv(s) && f < |Step(s, e).fetches|
    ensures FetchOk(Step(s, e), f)
  {
    if f < |s.fetches| {
      assert FetchOk(s, f);
    }
    match e
    case Begin(r, _) => if r < |s.requests| { assert RowOk(s, r); }
    case Commit(k) => if Running(s, k) { assert FetchOk(s, k); }
    case Fail(k) => if Running(s, k) { assert FetchOk(s, k); }
    case _ =>
  }

  lemma CopiesKept(s: State, e: Event, c: nat)
    requires Inv(s) && c < |Step(s, e).copies|
    ensures CopyOk(Step(s, e), c)
  {
    if c < |s.copies| {
      assert CopyOk(s, c);
    }
    match e
    case Commit(f) => if Running(s, f) { assert FetchOk(s, f); }
    case _ =>
  }

  lemma RevisionsKept(s: State, e: Event)
    requires Inv(s)
    ensures RevisionsApart(Step(s, e).requests)
  {
    match e
    case Revise(r, user) =>
      forall i | 0 <= i < |s.requests| && s.requests[i].revision.Some?
        ensures s.requests[i].revision.value < s.revisions
      {
        assert RowOk(s, i);
      }
    case _ =>
  }

  lemma StepKeeps(s: State, e: Event)
    requires Inv(s)
    ensures Inv(Step(s, e))
  {
    var t := Step(s, e);
    forall r | 0 <= r < |t.requests| ensures RowOk(t, r) { RowsKept(s, e, r); }
    forall f | 0 <= f < |t.fetches| ensures FetchOk(t, f) { FetchesKept(s, e, f); }
    forall c | 0 <= c < |t.copies| ensures CopyOk(t, c) { CopiesKept(s, e, c); }
    RevisionsKept(s, e);
  }

  lemma {:induction false} RunKeeps(s: State, events: seq<Event>)
    requires Inv(s)
    ensures Inv(Run(s, events))
  {
    if events != [] {
      RunKeeps(s, events[..|events| - 1]);
      StepKeeps(Run(s, events[..|events| - 1]), events[|events| - 1]);
    }
  }

  // ---------------------------------------------------------------- what follows in every interleaving

  /** A request never yields two committed copies, and it is COMPLETED exactly when it yielded one. */
  lemma OneCopy(s: State, events: seq<Event>, r: nat)
    requires Initial(s) && r < |Run(s, events).requests|
    ensures var t := Run(s, events);
      CopiesOf(t.copies, r) <= 1 && (CopiesOf(t.copies, r) == 1 <==> t.requests[r].status == COMPLETED)
  {
    RunKeeps(s, events);
    assert RowOk(Run(s, events), r);
  }

  /** Where the owner's consent is required, nothing is approved or served without it. */
  lemma NoCopyWithoutConsent(s: State, events: seq<Event>, r: nat)
    requires Initial(s) && r < |Run(s, events).requests| && Run(s, events).requests[r].needsOwner
    requires var t := Run(s, events); t.requests[r].status in {APPROVED, COMPLETED} || CopiesOf(t.copies, r) > 0
    ensures Run(s, events).requests[r].consent.Some?
  {
    RunKeeps(s, events);
    assert RowOk(Run(s, events), r);
  }

  /** Copies go to the person who asked, on an approval that had not expired when it was checked. */
  lemma CopyIsRequesters(s: State, events: seq<Event>, c: nat)
    requires Initial(s) && c < |Run(s, events).copies|
    ensures var t := Run(s, events); var x := t.copies[c];
      && x.request < |t.requests| && x.user == t.requests[x.request].user
      && (!x.direct ==> t.requests[x.request].expires.Some? && x.at < t.requests[x.request].expires.value)
  {
    RunKeeps(s, events);
    assert CopyOk(Run(s, events), c);
  }

  /** A modification copy backs at most one revision, and a revision comes from one copy. */
  lemma OneRevision(s: State, events: seq<Event>, i: nat, j: nat)
    requires Initial(s) && var t := Run(s, events); i < |t.requests| && j < |t.requests| && t.requests[i].revision.Some?
    requires Run(s, events).requests[i].revision == Run(s, events).requests[j].revision
    ensures i == j && Run(s, events).requests[i].modification && CopiesOf(Run(s, events).copies, i) == 1
  {
    RunKeeps(s, events);
    assert RowOk(Run(s, events), i);
  }

  /** y is a later state of x: a final status, a consent, a revision and what was asked all stay. */
  predicate Follows(x: Request, y: Request) {
    && (x.status == REJECTED || x.status == COMPLETED ==> y.status == x.status)
    && (x.consent.Some? ==> y.consent == x.consent) && (x.revision.Some? ==> y.revision == x.revision)
    && y.user == x.user && y.needsOwner == x.needsOwner && y.modification == x.modification
  }

  lemma StepFollows(s: State, e: Event, r: nat)
    requires Inv(s) && r < |s.requests|
    ensures r < |Step(s, e).requests| && Follows(s.requests[r], Step(s, e).requests[r])
  {
    match e
    case Commit(f) =>
      if Running(s, f) && s.fetches[f].phase.CLAIMED? {
        assert FetchOk(s, f) && RowOk(s, s.fetches[f].request);
      }
    case _ =>
  }

  /** REJECTED and COMPLETED are final; what was asked, and a consent once given, stay; and a revision
      once recorded is never replaced. */
  lemma {:induction false} FinalStays(s: State, events: seq<Event>, r: nat)
    requires Inv(s) && r < |s.requests|
    ensures r < |Run(s, events).requests| && Follows(s.requests[r], Run(s, events).requests[r])
  {
    if events != [] {
      FinalStays(s, events[..|events| - 1], r);
      RunKeeps(s, events[..|events| - 1]);
      StepFollows(Run(s, events[..|events| - 1]), events[|events| - 1], r);
    }
  }

  /** While a fetch holds its row, nothing but its own end touches that row. */
  lemma HeldStep(s: State, e: Event, f: nat)
    requires Inv(s) && Running(s, f) && s.fetches[f].phase.CLAIMED? && e != Commit(f) && e != Fail(f)
    ensures var t := Step(s, e); var r := s.fetches[f].request;
      Running(t, f) && t.fetches[f] == s.fetches[f] && t.requests[r] == s.requests[r]
  {
    var r := s.fetches[f].request;
    assert FetchOk(s, f) && RowOk(s, r);
    match e
    case Commit(g) => if Running(s, g) { assert FetchOk(s, g); }
    case Fail(g) => if Running(s, g) { assert FetchOk(s, g); }
    case _ =>
  }

  lemma {:induction false} HeldRun(s: State, events: seq<Event>, f: nat)
    requires Inv(s) && Running(s, f) && s.fetches[f].phase.CLAIMED?
    requires forall n :: 0 <= n < |events| ==> events[n] != Commit(f) && events[n] != Fail(f)
    ensures var t := Run(s, events); var r := s.fetches[f].request;
      Inv(t) && Running(t, f) && t.fetches[f] == s.fetches[f] && t.requests[r] == s.requests[r]
  {
    if events != [] {
      var init := events[..|events| - 1];
      HeldRun(s, init, f);
      HeldStep(Run(s, init), events[|events| - 1], f);
      StepKeeps(Run(s, init), events[|events| - 1]);
    }
  }

  lemma ClaimTakes(s: State, f: nat)
    requires Inv(s) && Running(s, f) && s.fetches[f].phase.CHECKED?
    requires var x := s.requests[s.fetches[f].request]; x.lock == None && x.status == APPROVED
    ensures var c := Step(s, Claim(f)); var r := s.fetches[f].request;
      && Running(c, f) && c.fetches[f].phase.CLAIMED? && c.fetches[f].request == r
      && c.requests[r] == s.requests[r].(lock := Some(f))
  {
  }

  /** A fetch that fails after it claimed the row, whatever everybody else did in the meantime: the
      request is exactly what it was before the claim, APPROVED and free; it has yielded no copy; and
      failing takes nothing from any other request and no copy back. */
  lemma FailedFetchKeepsApproval(s: State, f: nat, events: seq<Event>)
    requires Inv(s) && Running(s, f) && s.fetches[f].phase.CHECKED?
    requires var x := s.requests[s.fetches[f].request]; x.lock == None && x.status == APPROVED
    requires forall n :: 0 <= n < |events| ==> events[n] != Commit(f) && events[n] != Fail(f)
    ensures var t := Run(Step(s, Claim(f)), events); var u := Step(t, Fail(f)); var r := s.fetches[f].request;
      && r < |t.requests| && u.requests == t.requests[r := s.requests[r]] && u.copies == t.copies
      && u.requests[r].status == APPROVED && u.requests[r].lock == None && CopiesOf(u.copies, r) == 0
  {
    var c, r := Step(s, Claim(f)), s.fetches[f].request;
    ClaimTakes(s, f);
    StepKeeps(s, Claim(f));
    HeldRun(c, events, f);
    var t := Run(c, events);
    assert RowOk(t, r);
    assert s.requests[r].(lock := Some(f)).(lock := None) == s.requests[r];
  }

  /** A completed request is claimed by nobody. */
  lemma CompletedRefuses(s: State, g: nat)
    requires Inv(s) && Running(s, g) && s.requests[s.fetches[g].request].status == COMPLETED
    ensures !s.fetches[g].phase.CLAIMED?
    ensures Step(s, Claim(g)).fetches[g].phase == if s.fetches[g].phase.CHECKED? then REFUSED else s.fetches[g].phase
  {
    assert FetchOk(s, g) && RowOk(s, s.fetches[g].request);
  }

  /** While one fetch has the row, any other that passed the check, then or later, waits, whatever else
      happens; if the first fails, the other may claim; and once the first commits, in every
      continuation, nobody ever claims the request again. */
  lemma SecondFetchRefused(s: State, f: nat, events: seq<Event>, more: seq<Event>, g: nat)
    requires Inv(s) && Running(s, f) && s.fetches[f].phase.CLAIMED?
    requires forall n :: 0 <= n < |events| ==> events[n] != Commit(f) && events[n] != Fail(f)
    ensures var t, r := Run(s, events), s.fetches[f].request;
      g < |t.fetches| && t.fetches[g].request == r && t.fetches[g].phase.CHECKED? ==>
        Step(t, Claim(g)) == t && Step(Step(t, Fail(f)), Claim(g)).fetches[g].phase.CLAIMED?
    ensures var v, r := Run(Step(Run(s, events), Commit(f)), more), s.fetches[f].request;
      g < |v.fetches| && v.fetches[g].request == r ==>
        && !v.fetches[g].phase.CLAIMED?
        && Step(v, Claim(g)).fetches[g].phase == if v.fetches[g].phase.CHECKED? then REFUSED else v.fetches[g].phase
  {
    var t, r := Run(s, events), s.fetches[f].request;
    HeldRun(s, events, f);
    assert FetchOk(t, f) && RowOk(t, r);
    var u := Step(t, Commit(f));
    StepKeeps(t, Commit(f));
    RunKeeps(u, more);
    FinalStays(u, more, r);
    if g < |Run(u, more).fetches| && Run(u, more).fetches[g].request == r {
      CompletedRefuses(Run(u, more), g);
    }
  }

  // ---------------------------------------------------------------- who decides

  predicate Had(s: State, r: nat, status: Status) { r < |s.requests| && s.requests[r].status == status }

  /** The decision that approves request r: it was asked by someone privileged where no owner has to
      consent, its owner consents and is privileged, or an approver decides, after any consent that is
      needed and for a document that is itself approved. */
  predicate Approves(s: State, e: Event, r: nat) {
    match e
    case Ask(_, _, needsOwner, privileged) => r == |s.requests| && privileged && !needsOwner
    case Consent(k, _, privileged) =>
      k == r && privileged && Had(s, r, PENDING) && s.requests[r].needsOwner && s.requests[r].consent == None
    case Approve(k, documentApproved) =>
      k == r && documentApproved && Had(s, r, PENDING) && (s.requests[r].needsOwner ==> s.requests[r].consent.Some?)
    case _ => false
  }

  /** A request becomes APPROVED exactly by such a decision, for the configured time from then on. */
  lemma ApprovalExact(s: State, e: Event, r: nat)
    requires Inv(s) && r < |Step(s, e).requests|
    ensures Had(Step(s, e), r, APPROVED) && !Had(s, r, APPROVED) <==> Approves(s, e, r)
    ensures Approves(s, e, r) ==> Step(s, e).requests[r].expires == Some(s.now + s.ttl)
    ensures r < |s.requests| && !Approves(s, e, r) ==> Step(s, e).requests[r].expires == s.requests[r].expires
  {
    if e.Fail? && Running(s, e.fetch) {
      assert FetchOk(s, e.fetch);
    }
  }

  /** It becomes REJECTED exactly while it is pending, by its owner where the owner is asked, or by an
      approver. */
  lemma RejectionExact(s: State, e: Event, r: nat)
    requires r < |s.requests|
    ensures Had(Step(s, e), r, REJECTED) && !Had(s, r, REJECTED)
      <==> Had(s, r, PENDING) && (e == Reject(r) || (e == Refuse(r) && s.requests[r].needsOwner && s.requests[r].consent == None))
  {
  }

  /** Consent is recorded exactly when an owner who is asked gives it, once. */
  lemma ConsentExact(s: State, e: Event, r: nat)
    requires r < |s.requests|
    ensures Step(s, e).requests[r].consent
      == if e.Consent? && e.request == r && Had(s, r, PENDING) && s.requests[r].needsOwner && s.requests[r].consent == None
         then Some(e.owner) else s.requests[r].consent
  {
  }

  /** A request that is asked has its asker, mode and need of consent, and nothing decided but what
      ApprovalExact says. */
  lemma AskExact(s: State, user: nat, modification: bool, needsOwner: bool, privileged: bool)
    ensures var t := Step(s, Ask(user, modification, needsOwner, privileged)); var auto := privileged && !needsOwner;
      && |t.requests| == |s.requests| + 1 && t.requests[..|s.requests|] == s.requests && t.copies == s.copies && t.fetches == s.fetches
      && t.requests[|s.requests|] == Request(user, modification, needsOwner, None, if auto then APPROVED else PENDING,
                                             if auto then Some(s.now + s.ttl) else None, None, None)
  {
  }

  predicate Decided(s: State, r: nat) { Had(s, r, APPROVED) || Had(s, r, COMPLETED) }

  lemma CommitDecidesNothing(s: State, f: nat, r: nat)
    requires Inv(s) && Decided(Step(s, Commit(f)), r)
    ensures Decided(s, r)
  {
    if Running(s, f) && s.fetches[f].phase.CLAIMED? {
      assert FetchOk(s, f) && RowOk(s, s.fetches[f].request);
    }
  }

  lemma DecidedStep(s: State, e: Event, r: nat)
    requires Inv(s) && Decided(Step(s, e), r)
    ensures Decided(s, r) || Approves(s, e, r) || (e.OwnerCopy? && r == |s.requests|)
  {
    if e.Commit? {
      CommitDecidesNothing(s, e.fetch, r);
    } else if r < |Step(s, e).requests| {
      ApprovalExact(s, e, r);
    }
  }

  /** Nothing is ever approved or served without such a decision in the run; the owner's own copy aside,
      which needs none. */
  lemma {:induction false} ApprovedByDecision(s: State, events: seq<Event>, r: nat) returns (k: nat)
    requires Initial(s) && Decided(Run(s, events), r)
    ensures k < |events|
    ensures var mid := Run(s, events[..k]); Approves(mid, events[k], r) || (events[k].OwnerCopy? && r == |mid.requests|)
  {
    var n := |events| - 1;
    RunKeeps(s, events[..n]);
    if Decided(Run(s, events[..n]), r) {
      k := ApprovedByDecision(s, events[..n], r);
      assert events[..n][..k] == events[..k];
    } else {
      k := n;
      DecidedStep(Run(s, events[..n]), events[n], r);
    }
  }

  /** A fetch begins exactly for the requester, on an approved request whose time has not run out. */
  lemma BeginExact(s: State, r: nat, user: nat)
    ensures Step(s, Begin(r, user)).fetches ==
      if Had(s, r, APPROVED) && s.requests[r].user == user && (s.requests[r].expires == None || s.now < s.requests[r].expires.value)
      then s.fetches + [Fetch(r, user, CHECKED(s.now))] else s.fetches
  {
  }

  /** A revision is recorded exactly once for a served modification copy, by the one it was served to, and
      each gets a number of its own. */
  lemma ReviseExact(s: State, r: nat, user: nat)
    requires r < |s.requests|
    ensures var t := Step(s, Revise(r, user)); var x := s.requests[r];
      if x.user == user && x.modification && x.status == COMPLETED && x.revision == None
      then t.requests[r].revision == Some(s.revisions) && t.revisions == s.revisions + 1 && t.copies == s.copies
      else t == s
  {
  }

  // ---------------------------------------------------------------- a download from end to end

  lemma RunAppend(s: State, events: seq<Event>, e: Event)
    ensures Run(s, events + [e]) == Step(Run(s, events), e)
  {
    assert (events + [e])[..|events|] == events;
  }

  /** Fetch request r, waiting before each step. */
  function Fetching(s: State, r: nat, user: nat, wait: nat): seq<Event> {
    [] + [Tick(wait)] + [Begin(r, user)] + [Claim(|s.fetches|)] + [Commit(|s.fetches|)]
  }

  lemma FetchingSteps(s: State, r: nat, user: nat, wait: nat)
    ensures var f := |s.fetches|;
      Run(s, Fetching(s, r, user, wait)) == Step(Step(Step(Step(s, Tick(wait)), Begin(r, user)), Claim(f)), Commit(f))
  {
    var f := |s.fetches|;
    var e0: seq<Event> := [];
    RunAppend(s, e0, Tick(wait));
    RunAppend(s, e0 + [Tick(wait)], Begin(r, user));
    RunAppend(s, e0 + [Tick(wait)] + [Begin(r, user)], Claim(f));
    RunAppend(s, e0 + [Tick(wait)] + [Begin(r, user)] + [Claim(f)], Commit(f));
  }

  /** An approved request nobody else is fetching is served to its requester if and only if the fetch comes
      within the configured time after the decision: one copy, and the request is COMPLETED; later, or
      for anybody else, nothing is served and nothing changes. */
  lemma ServedInTime(s: State, e: Event, r: nat, user: nat, wait: nat)
    requires Inv(s) && Approves(s, e, r)
    ensures var a := Step(s, e); var t := Run(a, Fetching(a, r, user, wait));
      r < |a.requests| && t.now == s.now + wait &&
      if user == a.requests[r].user && wait < s.ttl
      then && t.requests == a.requests[r := a.requests[r].(status := COMPLETED)]
           && t.copies == a.copies + [Copy(r, user, s.now + wait, false)]
      else t.requests == a.requests && t.copies == a.copies
  {
    var a := Step(s, e);
    StepKeeps(s, e);
    ApprovalExact(s, e, r);
    FetchingSteps(a, r, user, wait);
    assert RowOk(a, r);
    ApprovedIsFree(s, e, r);
    var x, f := a.requests[r], |a.fetches|;
    assert x.(lock := Some(f)).(status := COMPLETED, lock := None) == x.(status := COMPLETED);
  }

  lemma ApprovedIsFree(s: State, e: Event, r: nat)
    requires Inv(s) && Approves(s, e, r)
    ensures r < |Step(s, e).requests| && Step(s, e).requests[r].lock == None
  {
    if r < |s.requests| {
      assert RowOk(s, r);
    }
  }

  /** The owner downloads without asking: one copy, and a completed request that names it. */
  lemma OwnerCopyExact(s: State, user: nat, modification: bool)
    ensures var t := Step(s, OwnerCopy(user, modification));
      t.copies == s.copies + [Copy(|s.requests|, user, s.now, true)] && |t.requests| == |s.requests| + 1
      && t.requests[|s.requests|].status == COMPLETED && t.requests[|s.requests|].user == user
      && t.requests[|s.requests|].modification == modification && t.requests[..|s.requests|] == s.requests
  {
  }

  /** A fetch that failed, before it claimed or after, is over: it never serves anything. */
  lemma {:induction false} FailedStays(s: State, f: nat, events: seq<Event>)
    requires Running(s, f) && (s.fetches[f].phase.CHECKED? || s.fetches[f].phase.CLAIMED?)
    ensures var t := Run(Step(s, Fail(f)), events); f < |t.fetches| && t.fetches[f] == s.fetches[f].(phase := FAILED)
  {
    if events != [] {
      FailedStays(s, f, events[..|events| - 1]);
    }
  }

  /** And any fetch that has ended, served, refused or failed, stays as it ended. */
  lemma {:induction false} EndedStays(s: State, f: nat, events: seq<Event>)
    requires f < |s.fetches| && !s.fetches[f].phase.CHECKED? && !s.fetches[f].phase.CLAIMED?
    ensures var t := Run(s, events); f < |t.fetches| && t.fetches[f] == s.fetches[f]
  {
    if events != [] {
      EndedStays(s, f, events[..|events| - 1]);
    }
  }

  // ---------------------------------------------------------------- the table, in place

  class Table {
    var now: int
    var requests: seq<Request>
    var fetches: seq<Fetch>
    var copies: seq<Copy>
    var revisions: nat
    var ttl: nat

    function View(): State reads this { State(now, requests, fetches, copies, revisions, ttl) }

    constructor (start: int, ttl: nat)
      ensures Initial(View())
    {
      now, requests, fetches, copies, revisions, this.ttl := start, [], [], [], 0, ttl;
    }

    method DoAsk(user: nat, modification: bool, needsOwner: bool, privileged: bool)
      modifies this
      ensures View() == Step(old(View()), Ask(user, modification, needsOwner, privileged))
    {
      var x := Request(user, modification, needsOwner, None, PENDING, None, None, None);
      if !needsOwner && privileged {
        x := x.(status := APPROVED, expires := Some(now + ttl));
      }
      requests := requests + [x];
    }

    method OwnerDecision(r: nat, owner: nat, approve: bool, privileged: bool)
      modifies this
      ensures View() == Step(old(View()), if approve then Consent(r, owner, privileged) else Refuse(r))
    {
      if r >= |requests| || requests[r].status != PENDING || !requests[r].needsOwner || requests[r].consent.Some? {
        return;
      }
      if approve {
        requests := requests[r := requests[r].(consent := Some(owner))];
        if privileged {
          requests := requests[r := requests[r].(status := APPROVED, expires := Some(now + ttl))];
        }
      } else {
        requests := requests[r := requests[r].(status := REJECTED)];
      }
    }

    method Decide(r: nat, approve: bool, documentApproved: bool)
      modifies this
      ensures View() == Step(old(View()), if approve then Approve(r, documentApproved) else Reject(r))
    {
      if r >= |requests| || requests[r].status != PENDING {
        return;
      }
      if !approve {
        requests := requests[r := requests[r].(status := REJECTED)];
        return;
      }
      if (requests[r].needsOwner && requests[r].consent == None) || !documentApproved {
        return;
      }
      requests := requests[r := requests[r].(status := APPROVED, expires := Some(now + ttl))];
    }

    method Check(r: nat, user: nat) returns (f: Option<nat>)
      modifies this
      ensures View() == Step(old(View()), Begin(r, user))
      ensures f.Some? <==> r < |old(requests)| && Fetchable(old(requests)[r], user, old(now))
      ensures f.Some? ==> f.value == |old(fetches)|
    {
      if r >= |requests| || requests[r].user != user || requests[r].status != APPROVED {
        return None;
      }
      if requests[r].expires.Some? && requests[r].expires.value <= now {
        return None;
      }
      fetches := fetches + [Fetch(r, user, CHECKED(now))];
      return Some(|fetches| - 1);
    }

    /** The conditional UPDATE: None while another transaction holds the row. */
    method TryClaim(f: nat) returns (claimed: Option<bool>)
      requires f < |fetches| && fetches[f].request < |requests| && fetches[f].phase.CHECKED?
      modifies this
      ensures View() == Step(old(View()), Claim(f))
      ensures var x := old(requests[fetches[f].request]); claimed == if x.lock.Some? then None else Some(x.status == APPROVED)
    {
      var r, at := fetches[f].request, fetches[f].phase.at;
      if requests[r].lock.Some? {
        return None;
      }
      if requests[r].status != APPROVED {
        fetches := fetches[f := fetches[f].(phase := REFUSED)];
        return Some(false);
      }
      requests := requests[r := requests[r].(lock := Some(f))];
      fetches := fetches[f := fetches[f].(phase := CLAIMED(at))];
      return Some(true);
    }

    method Finish(f: nat, rendered: bool)
      requires f < |fetches| && fetches[f].request < |requests| && fetches[f].phase.CLAIMED?
      modifies this
      ensures View() == Step(old(View()), if rendered then Commit(f) else Fail(f))
    {
      var r, at := fetches[f].request, fetches[f].phase.at;
      if rendered {
        requests := requests[r := requests[r].(status := COMPLETED, lock := None)];
        fetches := fetches[f := fetches[f].(phase := SERVED)];
        copies := copies + [Copy(r, fetches[f].user, at, false)];
      } else {
        requests := requests[r := requests[r].(lock := None)];
        fetches := fetches[f := fetches[f].(phase := FAILED)];
      }
    }

    method Use(r: nat, user: nat) returns (revision: Option<nat>)
      modifies this
      ensures View() == Step(old(View()), Revise(r, user))
      ensures revision.Some? <==> View() != old(View())
    {
      if r >= |requests| || !requests[r].modification || requests[r].user != user || requests[r].status != COMPLETED
         || requests[r].revision.Some? {
        return None;
      }
      requests := requests[r := requests[r].(revision := Some(revisions))];
      revisions := revisions + 1;
      return Some(revisions - 1);
    }
  }
}
