/** On-chain roles follow the identity registry: one wallet's roles converge transaction by
    transaction, and a periodic sweep clears every wallet that is not registered. */
module ChainRoles {
  import opened Prelude

  datatype IdentityRole = USER | AUDITOR | MANAGER | ADMIN
  datatype OpRole = ANCHOR_ROLE | AUDITOR_ROLE | MANAGER_ROLE | MINTER_ROLE

  /** A registered identity; a wallet's number stands for its address in any spelling. */
  datatype User = User(wallet: Option<nat>, role: IdentityRole, active: bool)

  /** A RoleGranted log; None is a role that is not operational. */
  datatype Log = Log(role: Option<OpRole>, wallet: nat)

  datatype Tx = GRANT(role: OpRole) | REVOKE(role: OpRole)

  /** A transaction is mined, fails without effect, or is mined although the caller gets an error. */
  datatype Fate = MINED | FAILED | LOST

  /** How one wallet's synchronisation ends: it reads the roles, sends the plan, reads them back and
      compares. */
  datatype Outcome = SYNCED | UNREADABLE | UNSENT | UNCHECKED | DIVERGED

  /** What goes wrong: the wallets whose first or second read fails, and the fate of the n-th
      transaction ever sent. */
  datatype Faults = Faults(unreadable: set<nat>, uncheckable: set<nat>, fate: nat -> Fate)

  function Desired(role: IdentityRole, active: bool): set<OpRole> {
    if !active then {} else
    match role
    case ADMIN => {MINTER_ROLE, ANCHOR_ROLE, MANAGER_ROLE}
    case MANAGER => {MINTER_ROLE, ANCHOR_ROLE, MANAGER_ROLE}
    case AUDITOR => {AUDITOR_ROLE}
    case USER => {}
  }

  function Apply(held: set<OpRole>, tx: Tx): set<OpRole> {
    match tx case GRANT(r) => held + {r} case REVOKE(r) => held - {r}
  }

  function After(held: set<OpRole>, txs: seq<Tx>): set<OpRole> {
    if txs == [] then held else Apply(After(held, txs[..|txs| - 1]), txs[|txs| - 1])
  }

  function Those(s: set<OpRole>, r: OpRole): seq<OpRole> { if r in s then [r] else [] }

  /** sorted(s) */
  function Sorted(s: set<OpRole>): seq<OpRole> {
    Those(s, ANCHOR_ROLE) + Those(s, AUDITOR_ROLE) + Those(s, MANAGER_ROLE) + Those(s, MINTER_ROLE)
  }

  function Revokes(rs: seq<OpRole>): seq<Tx> { seq(|rs|, i requires 0 <= i < |rs| => REVOKE(rs[i])) }
  function Grants(rs: seq<OpRole>): seq<Tx> { seq(|rs|, i requires 0 <= i < |rs| => GRANT(rs[i])) }

  /** Revoke first, so a demotion never leaves a moment with extra power; then grant. */
  function Plan(have: set<OpRole>, want: set<OpRole>): seq<Tx> { Revokes(Sorted(have - want)) + Grants(Sorted(want - have)) }

  function Roles(rs: seq<OpRole>): set<OpRole> { set r | r in rs }

  lemma SortedMembers(s: set<OpRole>)
    ensures Roles(Sorted(s)) == s
  {
    forall r: OpRole
      ensures r in Sorted(s) <==> r in s
    {
      match r case ANCHOR_ROLE => case AUDITOR_ROLE => case MANAGER_ROLE => case MINTER_ROLE =>
    }
  }

  lemma {:induction false} AfterRevokes(held: set<OpRole>, rs: seq<OpRole>)
    ensures After(held, Revokes(rs)) == held - Roles(rs)
  {
    if rs != [] {
      var n := |rs| - 1;
      assert Revokes(rs)[..n] == Revokes(rs[..n]);
      AfterRevokes(held, rs[..n]);
      assert Roles(rs) == Roles(rs[..n]) + {rs[n]};
    }
  }

  lemma {:induction false} AfterGrants(held: set<OpRole>, rs: seq<OpRole>)
    ensures After(held, Grants(rs)) == held + Roles(rs)
  {
    if rs != [] {
      var n := |rs| - 1;
      assert Grants(rs)[..n] == Grants(rs[..n]);
      AfterGrants(held, rs[..n]);
      assert Roles(rs) == Roles(rs[..n]) + {rs[n]};
    }
  }

  lemma {:induction false} AfterBoth(held: set<OpRole>, a: seq<Tx>, b: seq<Tx>)
    ensures After(held, a + b) == After(After(held, a), b)
  {
    if b == [] {
      assert a + b == a;
    } else {
      assert (a + b)[..|a + b| - 1] == a + b[..|b| - 1];
      AfterBoth(held, a, b[..|b| - 1]);
    }
  }

  /** The plan leads to the wanted set. */
  lemma PlanConverges(have: set<OpRole>, want: set<OpRole>)
    ensures After(have, Plan(have, want)) == want
  {
    var down, up := Sorted(have - want), Sorted(want - have);
    SortedMembers(have - want);
    SortedMembers(want - have);
    AfterBoth(have, Revokes(down), Grants(up));
    AfterRevokes(have, down);
    AfterGrants(have - (have - want), up);
  }

  /** Wherever it stops, the wallet holds no more than it held before or no more than it should. */
  lemma PlanNeverExceeds(have: set<OpRole>, want: set<OpRole>, j: nat)
    requires j <= |Plan(have, want)|
    ensures After(have, Plan(have, want)[..j]) <= have || After(have, Plan(have, want)[..j]) <= want
  {
    var down, up := Sorted(have - want), Sorted(want - have);
    SortedMembers(have - want);
    SortedMembers(want - have);
    if j <= |down| {
      assert Plan(have, want)[..j] == Revokes(down[..j]);
      AfterRevokes(have, down[..j]);
    } else {
      var k := j - |down|;
      assert Plan(have, want)[..j] == Revokes(down) + Grants(up[..k]);
      AfterBoth(have, Revokes(down), Grants(up[..k]));
      AfterRevokes(have, down);
      AfterGrants(have - (have - want), up[..k]);
      assert Roles(up[..k]) <= Roles(up);
    }
  }

  function RolesOf(roles: map<nat, set<OpRole>>, w: nat): set<OpRole> { if w in roles then roles[w] else {} }

  /** A grant of this role to this wallet is logged in some block from start on. */
  ghost predicate Logged(blocks: seq<seq<Log>>, start: nat, r: OpRole, w: nat) {
    exists b, i :: start <= b < |blocks| && 0 <= i < |blocks[b]| && blocks[b][i] == Log(Some(r), w)
  }

  /** What holds of the contract: nobody has a role that was never granted since deployment. */
  ghost predicate AllLogged(roles: map<nat, set<OpRole>>, blocks: seq<seq<Log>>, start: nat) {
    start <= |blocks| && forall w, r :: w in roles && r in roles[w] ==> Logged(blocks, start, r, w)
  }

  lemma LoggedStays(blocks: seq<seq<Log>>, more: seq<Log>, start: nat, r: OpRole, w: nat)
    requires Logged(blocks, start, r, w)
    ensures Logged(blocks + [more], start, r, w)
  {
    var b, i :| start <= b < |blocks| && 0 <= i < |blocks[b]| && blocks[b][i] == Log(Some(r), w);
    assert (blocks + [more])[b] == blocks[b];
  }

  /** The wallets granted an operational role in blocks lo .. hi - 1. */
  function GrantedTo(logs: seq<Log>): set<nat> { set l | l in logs && l.role.Some? :: l.wallet }

  function Holders(blocks: seq<seq<Log>>, lo: nat, hi: nat): set<nat>
    requires hi <= |blocks|
  {
    if hi <= lo then {} else Holders(blocks, lo, hi - 1) + GrantedTo(blocks[hi - 1])
  }

  /** Every wallet with a logged grant is among the holders. */
  lemma {:induction false} LoggedIsHolder(blocks: seq<seq<Log>>, lo: nat, hi: nat, b: nat, i: nat)
    requires lo <= b < hi <= |blocks| && i < |blocks[b]| && blocks[b][i].role.Some?
    ensures blocks[b][i].wallet in Holders(blocks, lo, hi)
  {
    if b == hi - 1 {
      assert blocks[b][i] in blocks[b];
    } else {
      LoggedIsHolder(blocks, lo, hi - 1, b, i);
    }
  }

  lemma {:induction false} HoldersSplit(blocks: seq<seq<Log>>, lo: nat, mid: nat, hi: nat)
    requires lo <= mid <= hi <= |blocks|
    ensures Holders(blocks, lo, hi) == Holders(blocks, lo, mid) + Holders(blocks, mid, hi)
  {
    if mid < hi {
      HoldersSplit(blocks, lo, mid, hi - 1);
    }
  }

  const WINDOW := 1000

  type Roster = map<nat, set<OpRole>>

  ghost predicate OthersKept(now: Roster, was: Roster, w: nat) {
    forall v :: v != w ==> RolesOf(now, v) == RolesOf(was, v)
  }

  /** now differs from was in wallet w only, which has gone through the first steps of the plan. */
  ghost predicate OnTheWay(now: Roster, was: Roster, w: nat, plan: seq<Tx>, steps: int) {
    && 0 <= steps <= |plan| && RolesOf(now, w) == After(RolesOf(was, w), plan[..steps])
    && OthersKept(now, was, w)
  }

  /** No more than it held before, or no more than its identity entitles it to. */
  ghost predicate Within(now: Roster, was: Roster, users: seq<User>, w: nat) {
    RolesOf(now, w) <= RolesOf(was, w) || RolesOf(now, w) <= Wanted(users, w)
  }

  /** Registered wallets are left alone and the others gain nothing. */
  ghost predicate OnlyLosing(now: Roster, was: Roster, known: set<nat>, w: nat) {
    if w in known then RolesOf(now, w) == RolesOf(was, w) else RolesOf(now, w) <= RolesOf(was, w)
  }

  lemma OneMore(now: Roster, was: Roster, w: nat, plan: seq<Tx>, steps: nat, next: Roster)
    requires OnTheWay(now, was, w, plan, steps) && steps < |plan| && RolesOf(next, w) == Apply(RolesOf(now, w), plan[steps])
    requires OthersKept(next, now, w)
    ensures OnTheWay(next, was, w, plan, steps + 1)
  {
    assert plan[..steps + 1][..steps] == plan[..steps];
  }

  /** The rosters since before: one for each step of the plan that took effect, in order. */
  ghost predicate Traced(past: seq<Roster>, before: seq<Roster>, was: Roster, w: nat, plan: seq<Tx>, steps: nat) {
    && before <= past && |past| == |before| + steps
    && forall b :: |before| <= b < |past| ==> OnTheWay(past[b], was, w, plan, b + 1 - |before|)
  }

  lemma TraceNext(past: seq<Roster>, before: seq<Roster>, was: Roster, w: nat, plan: seq<Tx>, steps: nat, now: Roster)
    requires Traced(past, before, was, w, plan, steps) && OnTheWay(now, was, w, plan, steps + 1)
    ensures Traced(past + [now], before, was, w, plan, steps + 1)
  {
  }

  /** Every point of one user's plan is within the bounds, if the whole was before it. */
  lemma UserWithin(now: Roster, mid: Roster, was: Roster, users: seq<User>, i: nat, steps: int, v: nat)
    requires i < |users| && users[i].wallet.Some? && DistinctWallets(users)
    requires var w := users[i].wallet.value; OnTheWay(now, mid, w, Plan(RolesOf(mid, w), Want(users[i])), steps)
    requires Within(mid, was, users, v)
    ensures Within(now, was, users, v)
  {
    var w := users[i].wallet.value;
    if v == w {
      WantedIs(users, i);
      PlanNeverExceeds(RolesOf(mid, w), Want(users[i]), steps);
    }
  }

  lemma SweptWithin(now: Roster, mid: Roster, was: Roster, known: set<nat>, w: nat, steps: int, v: nat)
    requires w !in known && OnTheWay(now, mid, w, Plan(RolesOf(mid, w), {}), steps) && OnlyLosing(mid, was, known, v)
    ensures OnlyLosing(now, was, known, v)
  {
    PlanNeverExceeds(RolesOf(mid, w), {}, steps);
  }

  lemma SweepKeeps(now: Roster, mid: Roster, was: Roster, users: seq<User>, known: set<nat>, w: nat)
    requires OnlyLosing(now, mid, known, w) && Within(mid, was, users, w)
    requires w !in known ==> RolesOf(mid, w) == RolesOf(was, w)
    ensures Within(now, was, users, w)
  {
  }

  class Contract {
    const start: nat
    var roles: Roster
    var blocks: seq<seq<Log>>
    var sent: nat
    /** The roles after every block there has ever been. */
    ghost var past: seq<Roster>

    function Held(w: nat): set<OpRole> reads this { RolesOf(roles, w) }

    ghost predicate Valid() reads this { AllLogged(roles, blocks, start) }

    /** One transaction: every mined one makes a block. fate decides the n-th transaction ever sent. */
    method Send(w: nat, tx: Tx, fate: nat -> Fate) returns (ok: bool)
      requires Valid()
      modifies this
      ensures Valid() && sent == old(sent) + 1
      ensures ok <==> fate(old(sent)) == MINED
      ensures Held(w) == if fate(old(sent)) == FAILED then old(Held(w)) else Apply(old(Held(w)), tx)
      ensures OthersKept(roles, old(roles), w)
      ensures past == old(past) + if fate(old(sent)) == FAILED then [] else [roles]
    {
      var f := fate(sent);
      sent := sent + 1;
      if f != FAILED {
        ghost var before := blocks;
        blocks := blocks + [if tx.GRANT? then [Log(Some(tx.role), w)] else []];
        forall v, r | v in roles && r in roles[v]
          ensures Logged(blocks, start, r, v)
        {
          LoggedStays(before, blocks[|before|], start, r, v);
        }
        roles := roles[w := Apply(Held(w), tx)];
        past := past + [roles];
        assert tx.GRANT? ==> blocks[|before|][0] == Log(Some(tx.role), w);
      }
      ok := f == MINED;
    }

    /** The next transaction of the plan. */
    method SendNext(w: nat, plan: seq<Tx>, steps: nat, fate: nat -> Fate, ghost was: Roster, ghost before: seq<Roster>)
      returns (ok: bool, steps': nat)
      requires Valid() && steps < |plan| && OnTheWay(roles, was, w, plan, steps) && Traced(past, before, was, w, plan, steps)
      modifies this
      ensures Valid() && steps' <= |plan| && OnTheWay(roles, was, w, plan, steps') && Traced(past, before, was, w, plan, steps')
      ensures ok <==> fate(old(sent)) == MINED
      ensures ok ==> steps' == steps + 1
      ensures sent == old(sent) + 1
    {
      ghost var now, had := roles, past;
      var n := sent;
      ok := Send(w, plan[steps], fate);
      if fate(n) == FAILED {
        assert OnTheWay(roles, was, w, plan, steps);
        steps' := steps;
      } else {
        OneMore(now, was, w, plan, steps, roles);
        TraceNext(had, before, was, w, plan, steps, roles);
        steps' := steps + 1;
      }
    }

    /** Send transactions until one fails or all are through. */
    method SendPlan(w: nat, plan: seq<Tx>, fate: nat -> Fate) returns (ok: bool, steps: nat)
      requires Valid()
      modifies this
      ensures Valid() && steps <= |plan| && OnTheWay(roles, old(roles), w, plan, steps)
      ensures Traced(past, old(past), old(roles), w, plan, steps)
      ensures if ok then steps == |plan| else sent > old(sent) && fate(sent - 1) != MINED
    {
      ok, steps := true, 0;
      while steps < |plan|
        invariant Valid() && steps <= |plan| && OnTheWay(roles, old(roles), w, plan, steps) && sent >= old(sent)
        invariant Traced(past, old(past), old(roles), w, plan, steps)
      {
        ok, steps := SendNext(w, plan, steps, fate, old(roles), old(past));
        if !ok {
          return;
        }
      }
      ok := true;
    }

    /** Read, send the plan, read back. steps counts the transactions that took effect: at every
        block on the way exactly a first part of the plan has been carried out. */
    method Sync(w: nat, want: set<OpRole>, faults: Faults) returns (outcome: Outcome, steps: nat)
      requires Valid()
      modifies this
      ensures Valid() && OnTheWay(roles, old(roles), w, Plan(old(Held(w)), want), steps)
      ensures Traced(past, old(past), old(roles), w, Plan(old(Held(w)), want), steps)
      ensures outcome == UNREADABLE <==> w in faults.unreadable
      ensures outcome == UNREADABLE ==> sent == old(sent)
      ensures outcome == UNSENT ==> sent > old(sent) && faults.fate(sent - 1) != MINED
      ensures outcome in {SYNCED, UNCHECKED} ==> Held(w) == want && (outcome == UNCHECKED <==> w in faults.uncheckable)
      ensures outcome != DIVERGED
    {
      if w in faults.unreadable {
        return UNREADABLE, 0;
      }
      var have := Held(w);
      var plan := Plan(have, want);
      var ok;
      ok, steps := SendPlan(w, plan, faults.fate);
      if !ok {
        return UNSENT, steps;
      }
      assert plan[..|plan|] == plan;
      PlanConverges(have, want);
      outcome := if w in faults.uncheckable then UNCHECKED else if Held(w) != want then DIVERGED else SYNCED;
    }

    /** The scan in windows of 1000 blocks reaches every block from the deployment to the head. */
    method RoleHolders() returns (holders: set<nat>)
      requires Valid()
      ensures holders == Holders(blocks, start, |blocks|)
    {
      holders := {};
      var a := start;
      while a < |blocks|
        invariant start <= a
        invariant holders == Holders(blocks, start, Min(a, |blocks|))
        decreases |blocks| - a
      {
        var top := Min(a + WINDOW - 1, |blocks| - 1);
        var found := Window(a, top);
        HoldersSplit(blocks, start, a, top + 1);
        holders := holders + found;
        a := a + WINDOW;
      }
    }

    /** One get_logs call: blocks from a to b, both included. */
    method Window(a: nat, b: nat) returns (found: set<nat>)
      requires a <= b < |blocks|
      ensures found == Holders(blocks, a, b + 1)
    {
      found := {};
      for k := a to b + 1
        invariant found == Holders(blocks, a, k)
      {
        found := found + GrantedTo(blocks[k]);
      }
    }

    /** Nobody outside the scan holds anything. */
    lemma Covered(w: nat)
      requires Valid() && w !in Holders(blocks, start, |blocks|)
      ensures Held(w) == {}
    {
      if r :| r in Held(w) {
        var b, i :| start <= b < |blocks| && 0 <= i < |blocks[b]| && blocks[b][i] == Log(Some(r), w);
        LoggedIsHolder(blocks, start, |blocks|, b, i);
      }
    }

    /** One registered user. */
    method SyncUser(users: seq<User>, i: nat, faults: Faults, ghost was: Roster) returns (ok: bool)
      requires Valid() && i < |users| && DistinctWallets(users) && users[i].wallet.Some?
      requires forall v :: Within(roles, was, users, v)
      modifies this
      ensures Valid() && old(past) <= past
      ensures ok ==> Held(users[i].wallet.value) == Want(users[i])
      ensures OthersKept(roles, old(roles), users[i].wallet.value)
      ensures forall v :: Within(roles, was, users, v)
      ensures forall b, v :: |old(past)| <= b < |past| ==> Within(past[b], was, users, v)
    {
      ghost var mid := roles;
      var outcome, steps := Sync(users[i].wallet.value, Want(users[i]), faults);
      ok := outcome == SYNCED;
      forall v ensures Within(roles, was, users, v) {
        UserWithin(roles, mid, was, users, i, steps, v);
      }
      forall b, v | |old(past)| <= b < |past| ensures Within(past[b], was, users, v) {
        UserWithin(past[b], mid, was, users, i, b + 1 - |old(past)|, v);
      }
    }

    /** Every registered wallet converges; failures are counted and the loop goes on. */
    method SyncAll(users: seq<User>, faults: Faults) returns (failed: nat, known: set<nat>)
      requires Valid() && DistinctWallets(users)
      modifies this
      ensures Valid() && known == Known(users, |users|)
      ensures old(past) <= past
      ensures failed == 0 ==> forall i :: 0 <= i < |users| && users[i].wallet.Some? ==> Held(users[i].wallet.value) == Want(users[i])
      ensures forall w :: Within(roles, old(roles), users, w)
      ensures forall b, w :: |old(past)| <= b < |past| ==> Within(past[b], old(roles), users, w)
      ensures forall w :: w !in known ==> RolesOf(roles, w) == RolesOf(old(roles), w)
    {
      failed, known := 0, {};
      for i := 0 to |users|
        invariant Valid() && known == Known(users, i)
        invariant old(past) <= past
        invariant failed == 0 ==> forall k :: 0 <= k < i && users[k].wallet.Some? ==> Held(users[k].wallet.value) == Want(users[k])
        invariant forall w :: Within(roles, old(roles), users, w)
        invariant forall b, w :: |old(past)| <= b < |past| ==> Within(past[b], old(roles), users, w)
        invariant forall w :: w !in known ==> RolesOf(roles, w) == RolesOf(old(roles), w)
      {
        if users[i].wallet.Some? {
          NotKnownYet(users, i);
          known := known + {users[i].wallet.value};
          var ok := SyncUser(users, i, faults, old(roles));
          if !ok {
            failed := failed + 1;
          }
        }
      }
    }

    /** One wallet that nobody registered. */
    method SweepOne(w: nat, known: set<nat>, faults: Faults, ghost was: Roster) returns (ok: bool, orphan: bool)
      requires Valid() && w !in known && forall v :: OnlyLosing(roles, was, known, v)
      modifies this
      ensures Valid() && old(past) <= past
      ensures ok ==> Held(w) == {}
      ensures orphan <==> old(Held(w)) != {}
      ensures OthersKept(roles, old(roles), w)
      ensures forall v :: OnlyLosing(roles, was, known, v)
      ensures forall b, v :: |old(past)| <= b < |past| ==> OnlyLosing(past[b], was, known, v)
    {
      ghost var mid := roles;
      orphan := Held(w) != {};
      var outcome, steps := Sync(w, {}, faults);
      ok := outcome == SYNCED;
      forall v ensures OnlyLosing(roles, was, known, v) {
        SweptWithin(roles, mid, was, known, w, steps, v);
      }
      forall b, v | |old(past)| <= b < |past| ensures OnlyLosing(past[b], was, known, v) {
        SweptWithin(past[b], mid, was, known, w, b + 1 - |old(past)|, v);
      }
    }

    /** Every holder that is not known loses its roles; an error ends the sweep. */
    method Sweep(known: set<nat>, faults: Faults) returns (ok: bool, orphans: nat)
      requires Valid()
      modifies this
      ensures Valid() && old(past) <= past
      ensures ok ==> forall w :: w !in known ==> RolesOf(roles, w) == {}
      ensures forall w :: OnlyLosing(roles, old(roles), known, w)
      ensures forall b, w :: |old(past)| <= b < |past| ==> OnlyLosing(past[b], old(roles), known, w)
    {
      var holders := RoleHolders();
      forall w | w !in holders
        ensures Held(w) == {}
      {
        Covered(w);
      }
      var rest := holders - known;
      ok, orphans := true, 0;
      while rest != {}
        invariant Valid() && rest !! known
        invariant old(past) <= past
        invariant forall w :: OnlyLosing(roles, old(roles), known, w)
        invariant forall b, w :: |old(past)| <= b < |past| ==> OnlyLosing(past[b], old(roles), known, w)
        invariant forall w :: w !in known && w !in rest ==> RolesOf(roles, w) == {}
        decreases |rest|
      {
        var w :| w in rest;
        var orphan;
        ok, orphan := SweepOne(w, known, faults, old(roles));
        if !ok {
          return;
        }
        orphans := orphans + if orphan then 1 else 0;
        rest := rest - {w};
      }
    }

    /** The whole reconciliation. With no failure every registered wallet holds exactly its roles and
        every other wallet none; with failures no wallet, at any block on the way, holds more than it
        held before or more than it should. */
    method ReconcileAll(users: seq<User>, scanFails: bool, faults: Faults) returns (failed: nat, orphans: nat)
      requires Valid() && DistinctWallets(users)
      modifies this
      ensures Valid() && old(past) <= past
      ensures failed == 0 ==> forall w :: RolesOf(roles, w) == Wanted(users, w)
      ensures forall w :: Within(roles, old(roles), users, w)
      ensures forall b, w :: |old(past)| <= b < |past| ==> Within(past[b], old(roles), users, w)
    {
      var known;
      failed, known := SyncAll(users, faults);
      ghost var mid, reached := roles, |past|;
      forall w
        ensures w !in known ==> Wanted(users, w) == {}
        ensures failed == 0 && w in known ==> RolesOf(mid, w) == Wanted(users, w)
      {
        KnownWanted(users, |users|, w);
      }
      orphans := 0;
      if scanFails {
        failed := failed + 1;
        return;
      }
      var ok;
      ok, orphans := Sweep(known, faults);
      forall w ensures Within(roles, old(roles), users, w) {
        SweepKeeps(roles, mid, old(roles), users, known, w);
      }
      forall w | failed == 0 && ok ensures RolesOf(roles, w) == Wanted(users, w) {
        assert OnlyLosing(roles, mid, known, w);
      }
      forall b, w | reached <= b < |past| ensures Within(past[b], old(roles), users, w) {
        SweepKeeps(past[b], mid, old(roles), users, known, w);
      }
      if !ok {
        failed := failed + 1;
      }
    }
  }

  ghost predicate DistinctWallets(users: seq<User>) {
    forall i, j :: 0 <= i < j < |users| && users[i].wallet.Some? ==> users[i].wallet != users[j].wallet
  }

  function Want(u: User): set<OpRole> { Desired(u.role, u.active) }

  function Known(users: seq<User>, n: nat): set<nat>
    requires n <= |users|
  {
    if n == 0 then {} else Known(users, n - 1) + if users[n - 1].wallet.Some? then {users[n - 1].wallet.value} else {}
  }

  /** What a wallet should hold: its identity's roles, or nothing. */
  function Wanted(users: seq<User>, w: nat): set<OpRole> {
    if users == [] then {} else
    var u := users[|users| - 1];
    if u.wallet == Some(w) then Want(u) else Wanted(users[..|users| - 1], w)
  }

  lemma {:induction false} WantedIs(users: seq<User>, i: nat)
    requires i < |users| && DistinctWallets(users) && users[i].wallet.Some?
    ensures Wanted(users, users[i].wallet.value) == Want(users[i])
  {
    if i < |users| - 1 {
      WantedIs(users[..|users| - 1], i);
    }
  }

  lemma {:induction false} KnownMembers(users: seq<User>, n: nat, w: nat)
    requires n <= |users|
    ensures w in Known(users, n) <==> exists k :: 0 <= k < n && users[k].wallet == Some(w)
  {
    if n != 0 {
      KnownMembers(users, n - 1, w);
    }
  }

  lemma NotKnownYet(users: seq<User>, i: nat)
    requires i < |users| && DistinctWallets(users) && users[i].wallet.Some?
    ensures users[i].wallet.value !in Known(users, i)
    ensures forall k :: 0 <= k < i ==> users[k].wallet != users[i].wallet
  {
    KnownMembers(users, i, users[i].wallet.value);
  }

  lemma {:induction false} NothingWanted(users: seq<User>, w: nat)
    requires forall k :: 0 <= k < |users| ==> users[k].wallet != Some(w)
    ensures Wanted(users, w) == {}
  {
    if users != [] {
      NothingWanted(users[..|users| - 1], w);
    }
  }

  lemma KnownWanted(users: seq<User>, n: nat, w: nat)
    requires n == |users| && DistinctWallets(users)
    ensures w !in Known(users, n) ==> Wanted(users, w) == {}
    ensures w in Known(users, n) ==> exists i :: 0 <= i < n && users[i].wallet == Some(w) && Wanted(users, w) == Want(users[i])
  {
    KnownMembers(users, n, w);
    if w in Known(users, n) {
      var i :| 0 <= i < n && users[i].wallet == Some(w);
      WantedIs(users, i);
    } else {
      NothingWanted(users, w);
    }
  }

  /** Whoever may hold anything is registered, active and not a plain user; and an auditor's wallet
      never holds a role that changes assets. */
  lemma {:induction false} WantedSeparates(users: seq<User>, w: nat)
    ensures Wanted(users, w) != {} ==> exists i :: 0 <= i < |users| && users[i].wallet == Some(w) && users[i].active && users[i].role != USER
    ensures AUDITOR_ROLE in Wanted(users, w) ==> Wanted(users, w) == {AUDITOR_ROLE}
  {
    if users != [] {
      var n := |users| - 1;
      WantedSeparates(users[..n], w);
      if users[n].wallet != Some(w) && Wanted(users, w) != {} {
        var i :| 0 <= i < n && users[..n][i].wallet == Some(w) && users[..n][i].active && users[..n][i].role != USER;
        assert users[i].wallet == Some(w);
      }
    }
  }

  /** An administrator or a manager for the roles that change assets, an auditor for the one that reads. */
  predicate Entitled(r: OpRole, role: IdentityRole) {
    if r == AUDITOR_ROLE then role == AUDITOR else role == ADMIN || role == MANAGER
  }

  /** A wallet should hold a role exactly if an active identity with that wallet is entitled to it. */
  lemma WantedExact(users: seq<User>, w: nat, r: OpRole)
    requires DistinctWallets(users)
    ensures r in Wanted(users, w) <==> exists i :: 0 <= i < |users| && users[i].wallet == Some(w) && users[i].active && Entitled(r, users[i].role)
  {
    if i :| 0 <= i < |users| && users[i].wallet == Some(w) {
      WantedIs(users, i);
      assert r in Wanted(users, w) <==> users[i].active && Entitled(r, users[i].role);
    } else {
      NothingWanted(users, w);
    }
  }
}
