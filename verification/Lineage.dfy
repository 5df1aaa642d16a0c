/** The revision tree of documents: proposals, revisions of the latest approved version, decisions,
    chain confirmation and the other writers of a row's lifecycle, the modification history of a
    version and the listing of a whole lineage. */
module Lineage {
  import opened Prelude

  datatype Status = PENDING | APPROVED | ACTIVE | REJECTED
  datatype Kind = CREATION | MODIFICATION

  /** The lifecycle text of a row; custody stores whatever text the request gives. */
  datatype Lifecycle = CREATED | PENDING_APPROVAL | OBSOLETE | MINTED | ANCHORED | MAINTENANCE | REVOKED | OTHER(text: string)

  /** Rows are numbered in the order they were inserted. */
  datatype Asset = Asset(
    kind: Kind, status: Status, version: nat, parent: Option<nat>, root: nat, action: nat, lifecycle: Lifecycle)

  /** The action that proposed a version; a revision names the download it was made from. */
  datatype Action = Action(kind: Kind, asset: nat, actor: nat, status: Status, download: Option<nat>)

  /** A download that was fetched or is still to be; usedBy is the revision made from it. */
  datatype Download = Download(asset: nat, user: nat, modification: bool, completed: bool, usedBy: Option<nat>)

  /** shown is the chain: for the token of a lineage's root, the version whose hash it carries. The
      versions of a lineage have different hashes. */
  datatype State = State(assets: seq<Asset>, actions: seq<Action>, downloads: seq<Download>, shown: map<nat, nat>)

  predicate InForce(a: Asset) { a.status == APPROVED || a.status == ACTIVE }

  predicate Draft(a: Asset) { a.status == PENDING && a.version > 1 }

  // ---------------------------------------------------------------- the state of a lineage

  /** max(version) over the first n rows that belong to the lineage and are in force; 0 for none. */
  function MaxVersion(assets: seq<Asset>, root: nat, n: nat): nat
    requires n <= |assets|
  {
    if n == 0 then 0 else
    var a := assets[n - 1];
    Max(MaxVersion(assets, root, n - 1), if a.root == root && InForce(a) then a.version else 0)
  }

  function Latest(assets: seq<Asset>, root: nat): nat {
    if MaxVersion(assets, root, |assets|) == 0 then 1 else MaxVersion(assets, root, |assets|)
  }

  predicate HasDraft(assets: seq<Asset>, root: nat) {
    exists i :: 0 <= i < |assets| && assets[i].root == root && Draft(assets[i])
  }

  // ---------------------------------------------------------------- the handlers

  /** allowed stands for the checks that do not look at the lineage: role, scope, factor, open
      alerts, the uploaded file, the serial number and the root's token; for Confirm also the receipt,
      for IndexBurn that such a log was read. Anchor and Burn are transactions on the chain. */
  datatype Op =
    | Propose(user: nat, allowed: bool)
    | Fetch(asset: nat, user: nat, modification: bool, completed: bool)
    | Revise(parent: nat, user: nat, download: nat, allowed: bool)
    | Approve(action: nat, allowed: bool)
    | Reject(action: nat, allowed: bool)
    | Anchor(asset: nat, allowed: bool)
    | Burn(asset: nat, allowed: bool)
    | Confirm(asset: nat, allowed: bool)
    | Assign(asset: nat, mark: Lifecycle, allowed: bool)
    | Maintain(asset: nat, allowed: bool)
    | IndexBurn(asset: nat, allowed: bool)

  predicate MayRevise(s: State, parent: nat, user: nat, download: nat) {
    && parent < |s.assets| && download < |s.downloads|
    && var d := s.downloads[download]; var a := s.assets[parent];
       && d.modification && d.user == user && d.asset == parent && d.completed && d.usedBy == None
       && a.version == Latest(s.assets, a.root) && InForce(a) && !HasDraft(s.assets, a.root)
  }

  function Draw(assets: seq<Asset>, parent: nat, action: nat): Asset
    requires parent < |assets|
  {
    Asset(MODIFICATION, PENDING, Latest(assets, assets[parent].root) + 1, Some(parent), assets[parent].root, action, PENDING_APPROVAL)
  }

  function Relabel(assets: seq<Asset>, i: nat, l: Lifecycle): seq<Asset> {
    if i < |assets| then assets[i := assets[i].(lifecycle := l)] else assets
  }

  /** An approved revision takes its parent's place. */
  function Supersede(assets: seq<Asset>, i: nat): seq<Asset>
    requires i < |assets|
  {
    var b := Relabel(assets, i, CREATED);
    if assets[i].parent.Some? then Relabel(b, assets[i].parent.value, OBSOLETE) else b
  }

  /** The root row has a token under its serial number. */
  predicate Minted(s: State, i: nat) { i < |s.assets| && s.assets[i].root == i && i in s.shown }

  /** The chain carries exactly this version. */
  predicate Shown(s: State, i: nat) { i < |s.assets| && s.assets[i].root in s.shown && s.shown[s.assets[i].root] == i }

  /** The row an operation labels outside approval, and the label: a confirmation looks at the approval
      and the chain, never at the label that is there. */
  function Written(s: State, op: Op): Option<(nat, Lifecycle)> {
    match op
    case Confirm(i, allowed) =>
      if allowed && Shown(s, i) && s.assets[i].status == APPROVED
      then Some((i, if s.assets[i].version == 1 then MINTED else ANCHORED)) else None
    case Assign(i, mark, allowed) => if allowed && Minted(s, i) then Some((i, mark)) else None
    case Maintain(i, allowed) => if allowed && Minted(s, i) then Some((i, MAINTENANCE)) else None
    case IndexBurn(i, allowed) => if allowed && i < |s.assets| then Some((i, REVOKED)) else None
    case _ => None
  }

  function Decide(assets: seq<Asset>, i: nat, status: Status): seq<Asset>
    requires i < |assets|
  {
    assets[i := assets[i].(status := status)]
  }

  function Step(s: State, op: Op): State {
    match op
    case Propose(user, allowed) =>
      if !allowed then s else
      var id := |s.assets|;
      s.(assets := s.assets + [Asset(CREATION, PENDING, 1, None, id, |s.actions|, CREATED)],
         actions := s.actions + [Action(CREATION, id, user, PENDING, None)])
    case Fetch(asset, user, modification, completed) =>
      s.(downloads := s.downloads + [Download(asset, user, modification, completed, None)])
    case Revise(parent, user, download, allowed) =>
      if !allowed || !MayRevise(s, parent, user, download) then s else
      var id := |s.actions|;
      s.(assets := s.assets + [Draw(s.assets, parent, id)],
         actions := s.actions + [Action(MODIFICATION, |s.assets|, user, PENDING, Some(download))],
         downloads := s.downloads[download := s.downloads[download].(usedBy := Some(id))])
    case Approve(action, allowed) =>
      if !allowed || action >= |s.actions| || s.actions[action].status != PENDING || s.actions[action].asset >= |s.assets| then s else
      var i := s.actions[action].asset;
      var decided := Decide(s.assets, i, APPROVED);
      s.(assets := if s.actions[action].kind == MODIFICATION then Supersede(decided, i) else decided,
         actions := s.actions[action := s.actions[action].(status := APPROVED)])
    case Reject(action, allowed) =>
      if !allowed || action >= |s.actions| || s.actions[action].status != PENDING || s.actions[action].asset >= |s.assets| then s else
      s.(assets := Decide(s.assets, s.actions[action].asset, REJECTED),
         actions := s.actions[action := s.actions[action].(status := REJECTED)])
    case Anchor(i, allowed) =>
      if !allowed || i >= |s.assets| || (s.assets[i].root != i && s.assets[i].root !in s.shown) then s else
      s.(shown := s.shown[s.assets[i].root := i])
    case Burn(i, allowed) => if allowed && Minted(s, i) then s.(shown := s.shown - {i}) else s
    case _ => match Written(s, op) case None => s case Some((i, l)) => s.(assets := Relabel(s.assets, i, l))
  }

  function Run(ops: seq<Op>): State {
    if ops == [] then State([], [], [], map[]) else Step(Run(ops[..|ops| - 1]), ops[|ops| - 1])
  }

  // ---------------------------------------------------------------- what every step keeps

  /** Row i hangs in its tree: a root, or one version above a row in force of the same lineage. */
  predicate Hangs(assets: seq<Asset>, i: nat)
    requires i < |assets|
  {
    var a := assets[i];
    && a.root <= i && (a.root == i <==> a.parent == None) && (a.kind == CREATION <==> a.parent == None)
    && (a.parent == None ==> a.version == 1)
    && (a.parent.Some? ==>
         && a.parent.value < i
         && var p := assets[a.parent.value]; p.root == a.root && a.version == p.version + 1 && InForce(p))
  }

  ghost predicate Trees(assets: seq<Asset>) { forall i :: 0 <= i < |assets| ==> Hangs(assets, i) }

  /** Two rows that may not both exist. */
  predicate Rivals(a: Asset, b: Asset) {
    a.root == b.root && ((InForce(a) && InForce(b) && a.version == b.version) || (Draft(a) && Draft(b)))
  }

  /** A lineage has at most one row in force per version and at most one draft, of the next version. */
  ghost predicate Single(assets: seq<Asset>) {
    && (forall i, j :: 0 <= i < |assets| && 0 <= j < |assets| && Rivals(assets[i], assets[j]) ==> i == j)
    && (forall i :: 0 <= i < |assets| && Draft(assets[i]) ==> assets[i].version == Latest(assets, assets[i].root) + 1)
  }

  /** Each row has its own action, decided together with it. */
  ghost predicate Paired(assets: seq<Asset>, actions: seq<Action>) {
    && |actions| == |assets|
    && forall i :: 0 <= i < |actions| ==>
         actions[i].asset == i && assets[i].action == i && actions[i].kind == assets[i].kind && (actions[i].status == PENDING <==> assets[i].status == PENDING)
  }

  /** A revision and the download it was made from name each other. */
  ghost predicate Backed(assets: seq<Asset>, actions: seq<Action>, downloads: seq<Download>) {
    && |actions| == |assets|
    && forall i :: 0 <= i < |actions| && actions[i].kind == MODIFICATION ==>
         && actions[i].download.Some? && actions[i].download.value < |downloads|
         && var d := downloads[actions[i].download.value];
            d.usedBy == Some(i) && d.modification && d.completed && d.user == actions[i].actor && Some(d.asset) == assets[i].parent
  }

  /** A token carries a version of its own lineage. */
  ghost predicate Mirrored(assets: seq<Asset>, shown: map<nat, nat>) {
    forall r :: r in shown ==> shown[r] < |assets| && assets[shown[r]].root == r
  }

  ghost predicate Inv(s: State) {
    && Trees(s.assets) && Single(s.assets) && Paired(s.assets, s.actions) && Backed(s.assets, s.actions, s.downloads)
    && Mirrored(s.assets, s.shown)
  }

  // ---------------------------------------------------------------- facts about the latest version

  lemma {:induction false} MaxBounds(assets: seq<Asset>, root: nat, n: nat, i: nat)
    requires i < n <= |assets| && assets[i].root == root && InForce(assets[i])
    ensures assets[i].version <= MaxVersion(assets, root, n)
  {
    if i != n - 1 {
      MaxBounds(assets, root, n - 1, i);
    }
  }

  /** Some row of the lineage has the latest version, unless none is in force. */
  lemma {:induction false} MaxAttained(assets: seq<Asset>, root: nat, n: nat)
    requires n <= |assets|
    ensures MaxVersion(assets, root, n) == 0
      || exists i :: 0 <= i < n && assets[i].root == root && InForce(assets[i]) && assets[i].version == MaxVersion(assets, root, n)
  {
    if n != 0 {
      MaxAttained(assets, root, n - 1);
      if MaxVersion(assets, root, n) != MaxVersion(assets, root, n - 1) {
        assert assets[n - 1].version == MaxVersion(assets, root, n);
      }
    }
  }

  /** The maximum depends on lineage, version and being in force only. */
  predicate SameForMax(a: Asset, b: Asset, root: nat) {
    (a.root == root && InForce(a) <==> b.root == root && InForce(b)) && a.version == b.version
  }

  lemma {:induction false} MaxSame(a: seq<Asset>, b: seq<Asset>, root: nat, n: nat)
    requires n <= |a| && n <= |b| && forall i :: 0 <= i < n ==> SameForMax(a[i], b[i], root)
    ensures MaxVersion(a, root, n) == MaxVersion(b, root, n)
  {
    if n != 0 {
      MaxSame(a, b, root, n - 1);
    }
  }

  lemma {:induction false} MaxRaised(a: seq<Asset>, b: seq<Asset>, root: nat, n: nat, k: nat)
    requires k < n <= |a| && n <= |b| && b[k].root == root && InForce(b[k]) && !InForce(a[k])
    requires forall i :: 0 <= i < n && i != k ==> SameForMax(a[i], b[i], root)
    ensures MaxVersion(b, root, n) == Max(MaxVersion(a, root, n), b[k].version)
  {
    if k == n - 1 {
      MaxSame(a, b, root, n - 1);
    } else {
      MaxRaised(a, b, root, n - 1, k);
    }
  }

  lemma LatestBounds(assets: seq<Asset>, i: nat)
    requires i < |assets| && InForce(assets[i])
    ensures assets[i].version <= Latest(assets, assets[i].root)
  {
    MaxBounds(assets, assets[i].root, |assets|, i);
  }

  lemma LatestAppended(assets: seq<Asset>, a: Asset, root: nat)
    requires !InForce(a)
    ensures Latest(assets + [a], root) == Latest(assets, root)
  {
    MaxSame(assets, assets + [a], root, |assets|);
  }

  // ---------------------------------------------------------------- each handler

  lemma AddedHangs(assets: seq<Asset>, a: Asset)
    requires Trees(assets) && Hangs(assets + [a], |assets|)
    ensures Trees(assets + [a])
  {
    forall i | 0 <= i < |assets|
      ensures Hangs(assets + [a], i)
    {
      assert Hangs(assets, i);
    }
  }

  lemma AddedSingle(assets: seq<Asset>, a: Asset)
    requires Single(assets) && a.status == PENDING
    requires a.version > 1 ==> !HasDraft(assets, a.root) && a.version == Latest(assets, a.root) + 1
    ensures Single(assets + [a])
  {
    var b := assets + [a];
    forall i | 0 <= i < |b| && Draft(b[i])
      ensures b[i].version == Latest(b, b[i].root) + 1
    {
      LatestAppended(assets, a, b[i].root);
    }
  }

  lemma ProposeKeeps(s: State, user: nat)
    requires Inv(s)
    ensures Inv(Step(s, Propose(user, true)))
  {
    var a := Asset(CREATION, PENDING, 1, None, |s.assets|, |s.actions|, CREATED);
    AddedHangs(s.assets, a);
    AddedSingle(s.assets, a);
  }

  lemma ReviseKeeps(s: State, parent: nat, user: nat, download: nat)
    requires Inv(s) && MayRevise(s, parent, user, download)
    ensures Inv(Step(s, Revise(parent, user, download, true)))
  {
    var a := Draw(s.assets, parent, |s.actions|);
    assert Hangs(s.assets, parent);
    AddedHangs(s.assets, a);
    AddedSingle(s.assets, a);
    var t := Step(s, Revise(parent, user, download, true));
    forall i | 0 <= i < |t.actions| && t.actions[i].kind == MODIFICATION
      ensures t.actions[i].download.Some? && t.actions[i].download.value < |t.downloads|
      ensures var d := t.downloads[t.actions[i].download.value];
        d.usedBy == Some(i) && d.modification && d.completed && d.user == t.actions[i].actor && Some(d.asset) == t.assets[i].parent
    {
      if i < |s.actions| {
        assert s.actions[i].download.value != download;
      }
    }
  }

  /** The label of a row matters to nothing else. */
  ghost predicate OnlyLabels(a: seq<Asset>, b: seq<Asset>) {
    |a| == |b| && forall i :: 0 <= i < |a| ==> b[i] == a[i].(lifecycle := b[i].lifecycle)
  }

  lemma LabelsKeep(a: seq<Asset>, b: seq<Asset>)
    requires OnlyLabels(a, b) && Trees(a) && Single(a)
    ensures Trees(b) && Single(b)
  {
    forall k | 0 <= k < |b|
      ensures Hangs(b, k)
    {
      assert Hangs(a, k);
    }
    forall k | 0 <= k < |b| && Draft(b[k])
      ensures b[k].version == Latest(b, b[k].root) + 1
    {
      MaxSame(a, b, b[k].root, |b|);
    }
  }

  lemma RelabelKeeps(s: State, i: nat, l: Lifecycle)
    requires Inv(s)
    ensures Inv(s.(assets := Relabel(s.assets, i, l)))
  {
    LabelsKeep(s.assets, Relabel(s.assets, i, l));
  }

  lemma DecidedHangs(assets: seq<Asset>, i: nat, status: Status)
    requires Trees(assets) && i < |assets| && assets[i].status == PENDING
    ensures Trees(Decide(assets, i, status))
  {
    var b := Decide(assets, i, status);
    forall k | 0 <= k < |b|
      ensures Hangs(b, k)
    {
      assert Hangs(assets, k);
    }
  }

  lemma RejectedSingle(assets: seq<Asset>, i: nat)
    requires Single(assets) && i < |assets| && assets[i].status == PENDING
    ensures Single(Decide(assets, i, REJECTED))
  {
    var b := Decide(assets, i, REJECTED);
    forall k | 0 <= k < |b| && Draft(b[k])
      ensures b[k].version == Latest(b, b[k].root) + 1
    {
      MaxSame(assets, b, b[k].root, |b|);
    }
  }

  /** Approving the draft makes its version the latest, the only row with that version. */
  lemma ApprovedSingle(assets: seq<Asset>, i: nat)
    requires Trees(assets) && Single(assets) && i < |assets| && assets[i].status == PENDING
    ensures Single(Decide(assets, i, APPROVED))
  {
    var b := Decide(assets, i, APPROVED);
    var root := assets[i].root;
    assert Hangs(assets, i);
    forall k | 0 <= k < |b| && k != i && InForce(b[k]) && b[k].root == root
      ensures b[k].version != b[i].version
    {
      LatestBounds(assets, k);
      if assets[i].version == 1 {
        OnlyRootIsFirst(assets, k);
        OnlyRootIsFirst(assets, i);
      }
    }
    forall k | 0 <= k < |b| && Draft(b[k])
      ensures b[k].version == Latest(b, b[k].root) + 1
    {
      if b[k].root == root {
        MaxRaised(assets, b, root, |b|, i);
      } else {
        MaxSame(assets, b, b[k].root, |b|);
      }
    }
  }

  /** Version 1 is the root itself. */
  lemma OnlyRootIsFirst(assets: seq<Asset>, i: nat)
    requires Trees(assets) && i < |assets|
    ensures assets[i].version >= 1 && (assets[i].version == 1 ==> assets[i].root == i)
    decreases i
  {
    assert Hangs(assets, i);
    if assets[i].parent.Some? {
      OnlyRootIsFirst(assets, assets[i].parent.value);
    }
  }

  lemma SupersedeLabels(assets: seq<Asset>, i: nat)
    requires i < |assets|
    ensures OnlyLabels(assets, Supersede(assets, i))
  {
  }

  lemma DecidedPaired(s: State, action: nat, status: Status, b: seq<Asset>)
    requires Inv(s) && action < |s.actions| && s.actions[action].status == PENDING && status != PENDING
    requires OnlyLabels(Decide(s.assets, action, status), b)
    ensures var actions := s.actions[action := s.actions[action].(status := status)];
      Paired(b, actions) && Backed(b, actions, s.downloads) && Mirrored(b, s.shown)
  {
  }

  lemma ApproveKeeps(s: State, action: nat, allowed: bool)
    requires Inv(s)
    ensures Inv(Step(s, Approve(action, allowed)))
  {
    if allowed && action < |s.actions| && s.actions[action].status == PENDING {
      var decided, b := Decide(s.assets, action, APPROVED), Step(s, Approve(action, allowed)).assets;
      DecidedHangs(s.assets, action, APPROVED);
      ApprovedSingle(s.assets, action);
      SupersedeLabels(decided, action);
      LabelsKeep(decided, b);
      DecidedPaired(s, action, APPROVED, b);
    }
  }

  lemma RejectKeeps(s: State, action: nat, allowed: bool)
    requires Inv(s)
    ensures Inv(Step(s, Reject(action, allowed)))
  {
    if allowed && action < |s.actions| && s.actions[action].status == PENDING {
      DecidedHangs(s.assets, action, REJECTED);
      RejectedSingle(s.assets, action);
      DecidedPaired(s, action, REJECTED, Decide(s.assets, action, REJECTED));
    }
  }

  lemma StepKeeps(s: State, op: Op)
    requires Inv(s)
    ensures Inv(Step(s, op))
  {
    match op
    case Propose(user, allowed) => if allowed { ProposeKeeps(s, user); }
    case Fetch(_, _, _, _) =>
    case Revise(parent, user, download, allowed) =>
      if allowed && MayRevise(s, parent, user, download) {
        ReviseKeeps(s, parent, user, download);
      }
    case Approve(action, allowed) => ApproveKeeps(s, action, allowed);
    case Reject(action, allowed) => RejectKeeps(s, action, allowed);
    case Anchor(_, _) =>
    case Burn(_, _) =>
    case _ =>
      if Written(s, op).Some? {
        RelabelKeeps(s, Written(s, op).value.0, Written(s, op).value.1);
      }
  }

  lemma {:induction false} RunKeeps(ops: seq<Op>)
    ensures Inv(Run(ops))
  {
    if ops != [] {
      RunKeeps(ops[..|ops| - 1]);
      StepKeeps(Run(ops[..|ops| - 1]), ops[|ops| - 1]);
    }
  }

  // ---------------------------------------------------------------- what follows in every reachable state

  /** From a version in force, its lineage has every lower version in force, down to the root. */
  lemma Descend(assets: seq<Asset>, i: nat, v: nat) returns (j: nat)
    requires Trees(assets) && i < |assets| && InForce(assets[i]) && 1 <= v <= assets[i].version
    ensures j < |assets| && InForce(assets[j]) && assets[j].root == assets[i].root && assets[j].version == v
    decreases i
  {
    assert Hangs(assets, i);
    j := i;
    if v < assets[i].version {
      j := Descend(assets, assets[i].parent.value, v);
    }
  }

  ghost predicate Holds(assets: seq<Asset>, root: nat, v: nat) {
    exists i :: 0 <= i < |assets| && assets[i].root == root && InForce(assets[i]) && assets[i].version == v
  }

  /** The versions in force of a lineage are exactly 1 .. latest, each held by one row; or none is. */
  lemma VersionsExact(ops: seq<Op>, root: nat)
    ensures var s := Run(ops);
      (forall v: nat :: !Holds(s.assets, root, v)) || forall v: nat :: Holds(s.assets, root, v) <==> 1 <= v <= Latest(s.assets, root)
    ensures var a := Run(ops).assets; forall i, j :: 0 <= i < |a| && 0 <= j < |a| && InForce(a[i]) && Rivals(a[i], a[j]) ==> i == j
  {
    RunKeeps(ops);
    var assets := Run(ops).assets;
    if w: nat :| Holds(assets, root, w) {
      var k :| 0 <= k < |assets| && assets[k].root == root && InForce(assets[k]) && assets[k].version == w;
      OnlyRootIsFirst(assets, k);
      MaxBounds(assets, root, |assets|, k);
      MaxAttained(assets, root, |assets|);
      var top :| 0 <= top < |assets| && assets[top].root == root && InForce(assets[top])
                 && assets[top].version == MaxVersion(assets, root, |assets|);
      forall v: nat
        ensures Holds(assets, root, v) <==> 1 <= v <= Latest(assets, root)
      {
        if Holds(assets, root, v) {
          var i :| 0 <= i < |assets| && assets[i].root == root && InForce(assets[i]) && assets[i].version == v;
          OnlyRootIsFirst(assets, i);
          LatestBounds(assets, i);
        } else if 1 <= v <= Latest(assets, root) {
          var j := Descend(assets, top, v);
          assert Holds(assets, root, v);
        }
      }
    }
  }

  /** At most one revision of a lineage is pending, and it is the version after the latest. */
  lemma DraftIsNext(ops: seq<Op>, i: nat, j: nat)
    requires var a := Run(ops).assets; i < |a| && j < |a| && Draft(a[i]) && Draft(a[j]) && a[i].root == a[j].root
    ensures i == j && Run(ops).assets[i].version == Latest(Run(ops).assets, Run(ops).assets[i].root) + 1
  {
    RunKeeps(ops);
    assert Rivals(Run(ops).assets[i], Run(ops).assets[j]);
  }

  /** A modification download backs at most one revision: the same user's, of the version it copied. */
  lemma DownloadBacksOne(ops: seq<Op>, i: nat, j: nat)
    requires var s := Run(ops); i < |s.actions| && j < |s.actions| && s.actions[i].kind == MODIFICATION == s.actions[j].kind
    requires Run(ops).actions[i].download == Run(ops).actions[j].download
    ensures i == j
    ensures var s := Run(ops); var k := s.actions[i].download;
      && k.Some? && k.value < |s.downloads| && i < |s.assets|
      && var d := s.downloads[k.value];
         d.usedBy == Some(i) && d.user == s.actions[i].actor && Some(d.asset) == s.assets[i].parent && d.modification && d.completed
  {
    RunKeeps(ops);
  }

  /** A later version of the row's lineage is in force. */
  predicate Superseded(assets: seq<Asset>, i: nat)
    requires i < |assets|
  {
    InForce(assets[i]) && assets[i].version < Latest(assets, assets[i].root)
  }

  /** The label tells the truth about the row. */
  predicate Told(assets: seq<Asset>, i: nat)
    requires i < |assets|
  {
    assets[i].lifecycle == OBSOLETE <==> Superseded(assets, i)
  }

  lemma SupersededAppended(assets: seq<Asset>, a: Asset, i: nat)
    requires !InForce(a) && i <= |assets|
    ensures Superseded(assets + [a], i) <==> i < |assets| && Superseded(assets, i)
  {
    LatestAppended(assets, a, (assets + [a])[i].root);
  }

  lemma SupersededRejected(assets: seq<Asset>, i: nat, k: nat)
    requires i < |assets| && k < |assets| && assets[i].status == PENDING
    ensures Superseded(Decide(assets, i, REJECTED), k) <==> Superseded(assets, k)
  {
    MaxSame(assets, Decide(assets, i, REJECTED), assets[k].root, |assets|);
  }

  lemma SupersededLabels(a: seq<Asset>, b: seq<Asset>, k: nat)
    requires OnlyLabels(a, b) && k < |a|
    ensures Superseded(b, k) <==> Superseded(a, k)
  {
    MaxSame(a, b, a[k].root, |a|);
  }

  /** Before the root is approved nothing of its lineage is in force. */
  lemma NothingBeforeRoot(assets: seq<Asset>, i: nat, k: nat)
    requires Trees(assets) && i < |assets| && k < |assets| && assets[i].status == PENDING && assets[i].parent == None
    requires assets[k].root == assets[i].root
    ensures !InForce(assets[k])
  {
    assert Hangs(assets, i);
    if InForce(assets[k]) {
      OnlyRootIsFirst(assets, k);
      var j := Descend(assets, k, 1);
      OnlyRootIsFirst(assets, j);
    }
  }

  /** A draft's parent holds the latest version, alone. */
  lemma ParentIsLatest(assets: seq<Asset>, i: nat, k: nat)
    requires Trees(assets) && Single(assets) && i < |assets| && k < |assets|
    requires Draft(assets[i]) && InForce(assets[k]) && assets[k].root == assets[i].root
    ensures assets[i].parent.Some? && assets[k].version <= Latest(assets, assets[i].root) == assets[i].version - 1
    ensures assets[k].version == Latest(assets, assets[i].root) <==> k == assets[i].parent.value
  {
    assert Hangs(assets, i);
    LatestBounds(assets, k);
    if k != assets[i].parent.value {
      assert !Rivals(assets[k], assets[assets[i].parent.value]);
    }
  }

  lemma LatestApproved(assets: seq<Asset>, i: nat)
    requires Trees(assets) && Single(assets) && i < |assets| && assets[i].status == PENDING
    ensures Latest(Decide(assets, i, APPROVED), assets[i].root) == assets[i].version
  {
    var b, root := Decide(assets, i, APPROVED), assets[i].root;
    OnlyRootIsFirst(assets, i);
    MaxRaised(assets, b, root, |b|, i);
    assert Hangs(assets, i);
    if assets[i].parent == None {
      MaxAttained(assets, root, |assets|);
      forall k | 0 <= k < |assets| && assets[k].root == root
        ensures !InForce(assets[k])
      {
        NothingBeforeRoot(assets, i, k);
      }
    }
  }

  /** Approving row i supersedes its parent, and no other row. */
  lemma SupersededApproved(assets: seq<Asset>, i: nat, k: nat)
    requires Trees(assets) && Single(assets) && i < |assets| && k < |assets| && assets[i].status == PENDING
    ensures Superseded(Decide(assets, i, APPROVED), k) <==> Superseded(assets, k) || assets[i].parent == Some(k)
    ensures assets[i].parent == Some(k) ==> !Superseded(assets, k)
    ensures !Superseded(Decide(assets, i, APPROVED), i)
  {
    var b := Decide(assets, i, APPROVED);
    assert Hangs(assets, i);
    LatestApproved(assets, i);
    OnlyRootIsFirst(assets, i);
    if assets[k].root != assets[i].root {
      MaxSame(assets, b, assets[k].root, |b|);
    } else if k != i && InForce(assets[k]) {
      if assets[i].parent == None {
        NothingBeforeRoot(assets, i, k);
      } else {
        ParentIsLatest(assets, i, k);
      }
    }
  }

  /** Whether the operation approves a revision that is row i or is based on it: approval writes both
      their labels afresh. */
  predicate Settles(s: State, op: Op, i: nat) {
    && op.Approve? && op.allowed && op.action < |s.actions| && op.action < |s.assets| && s.actions[op.action].status == PENDING
    && s.actions[op.action].kind == MODIFICATION && (op.action == i || s.assets[op.action].parent == Some(i))
  }

  /** An operation that labels row i does so truthfully: OBSOLETE exactly if it is superseded. */
  predicate Truthful(s: State, op: Op) {
    Written(s, op).Some? ==> var (i, l) := Written(s, op).value; i < |s.assets| ==> (l == OBSOLETE <==> Superseded(s.assets, i))
  }

  /** The last operation to label row i, if it is in the run and no approval has settled the row since,
      was untruthful. */
  predicate Misled(ops: seq<Op>, i: nat) {
    if ops == [] then false else
    var s, op := Run(ops[..|ops| - 1]), ops[|ops| - 1];
    if Written(s, op).Some? && Written(s, op).value.0 == i then !Truthful(s, op)
    else !Settles(s, op, i) && Misled(ops[..|ops| - 1], i)
  }

  lemma ApproveTells(s: State, action: nat, allowed: bool, i: nat)
    requires Inv(s) && i < |s.assets|
    ensures |Step(s, Approve(action, allowed)).assets| == |s.assets|
    ensures Told(Step(s, Approve(action, allowed)).assets, i) <==> Settles(s, Approve(action, allowed), i) || Told(s.assets, i)
  {
    var op := Approve(action, allowed);
    if allowed && action < |s.actions| && s.actions[action].status == PENDING {
      assert Hangs(s.assets, action);
      SupersededApproved(s.assets, action, i);
      SupersededLabels(Decide(s.assets, action, APPROVED), Step(s, op).assets, i);
    }
  }

  lemma WriteTells(s: State, op: Op, i: nat)
    requires Written(s, op).Some? && i < |s.assets|
    ensures |Step(s, op).assets| == |s.assets|
    ensures Told(Step(s, op).assets, i) <==> if Written(s, op).value.0 == i then Truthful(s, op) else Told(s.assets, i)
  {
    SupersededLabels(s.assets, Step(s, op).assets, i);
  }

  /** One step: who told the truth about row i before still does, unless this operation labels the row
      untruthfully; and who did not does so only after a truthful label or an approval. */
  lemma StepTells(s: State, op: Op, i: nat)
    requires Inv(s) && i < |s.assets|
    ensures i < |Step(s, op).assets|
    ensures Told(Step(s, op).assets, i)
      <==> if Written(s, op).Some? && Written(s, op).value.0 == i then Truthful(s, op) else Settles(s, op, i) || Told(s.assets, i)
  {
    match op
    case Propose(_, allowed) =>
      if allowed {
        SupersededAppended(s.assets, Asset(CREATION, PENDING, 1, None, |s.assets|, |s.actions|, CREATED), i);
      }
    case Revise(parent, user, download, allowed) =>
      if allowed && MayRevise(s, parent, user, download) {
        SupersededAppended(s.assets, Draw(s.assets, parent, |s.actions|), i);
      }
    case Approve(action, allowed) => ApproveTells(s, action, allowed, i);
    case Reject(action, allowed) =>
      if allowed && action < |s.actions| && s.actions[action].status == PENDING {
        SupersededRejected(s.assets, action, i);
      }
    case Fetch(_, _, _, _) =>
    case Anchor(_, _) =>
    case Burn(_, _) =>
    case _ =>
      if Written(s, op).Some? {
        WriteTells(s, op, i);
      }
  }

  /** A row that appears tells the truth. */
  lemma NewTells(s: State, op: Op, i: nat)
    requires Inv(s) && |s.assets| <= i < |Step(s, op).assets|
    ensures Told(Step(s, op).assets, i)
    ensures !(Written(s, op).Some? && Written(s, op).value.0 == i)
  {
    match op
    case Propose(_, _) =>
      SupersededAppended(s.assets, Asset(CREATION, PENDING, 1, None, |s.assets|, |s.actions|, CREATED), i);
    case Revise(parent, _, _, _) =>
      SupersededAppended(s.assets, Draw(s.assets, parent, |s.actions|), i);
    case _ =>
  }

  lemma {:induction false} NobodyMisled(ops: seq<Op>, i: nat)
    requires i >= |Run(ops).assets|
    ensures !Misled(ops, i)
  {
    if ops != [] {
      NobodyMisled(ops[..|ops| - 1], i);
    }
  }

  /** In every run whatsoever: a row is labelled OBSOLETE exactly when a later version of its lineage is
      in force, if and only if the last operation that labelled it, unless an approval came after
      it, was truthful. */
  lemma {:induction false} LabelExact(ops: seq<Op>, i: nat)
    requires i < |Run(ops).assets|
    ensures Told(Run(ops).assets, i) <==> !Misled(ops, i)
  {
    var init, op := ops[..|ops| - 1], ops[|ops| - 1];
    RunKeeps(init);
    if i < |Run(init).assets| {
      LabelExact(init, i);
      StepTells(Run(init), op, i);
    } else {
      NobodyMisled(init, i);
      NewTells(Run(init), op, i);
    }
  }

  /** In particular the labels are right in every run in which they are given truthfully. */
  lemma {:induction false} ObsoleteMeansSuperseded(ops: seq<Op>, i: nat)
    requires i < |Run(ops).assets|
    requires forall k :: 0 <= k < |ops| ==> Truthful(Run(ops[..k]), ops[k])
    ensures Told(Run(ops).assets, i)
  {
    AllTruthful(ops, i);
    LabelExact(ops, i);
  }

  lemma {:induction false} AllTruthful(ops: seq<Op>, i: nat)
    requires forall k :: 0 <= k < |ops| ==> Truthful(Run(ops[..k]), ops[k])
    ensures !Misled(ops, i)
  {
    if ops != [] {
      var n := |ops| - 1;
      forall k | 0 <= k < n ensures Truthful(Run(ops[..n][..k]), ops[..n][k]) {
        assert ops[..n][..k] == ops[..k];
      }
      AllTruthful(ops[..n], i);
    }
  }

  /** Confirming can mislabel a version of a lineage exactly while its token still carries a superseded
      one, that is, until the later version is anchored. */
  lemma ConfirmMisleads(s: State, root: nat)
    requires Inv(s)
    ensures (exists i: nat :: i < |s.assets| && s.assets[i].root == root && !Truthful(s, Confirm(i, true)))
      <==> root in s.shown && s.assets[s.shown[root]].status == APPROVED && Superseded(s.assets, s.shown[root])
  {
    if root in s.shown && s.assets[s.shown[root]].status == APPROVED && Superseded(s.assets, s.shown[root]) {
      assert !Truthful(s, Confirm(s.shown[root], true));
    }
  }

  ghost predicate Stale(assets: seq<Asset>, i: nat) { i < |assets| && Superseded(assets, i) && assets[i].lifecycle != OBSOLETE }

  /** A superseded row is in no pending revision's way: its successor is approved already. */
  lemma NoDraftOnSuperseded(s: State, i: nat, j: nat)
    requires Inv(s) && i < |s.assets| && j < |s.assets| && Superseded(s.assets, i) && s.assets[j].status == PENDING
    ensures s.assets[j].parent != Some(i)
  {
    if s.assets[j].parent == Some(i) {
      assert Hangs(s.assets, j);
      OnlyRootIsFirst(s.assets, i);
      ParentIsLatest(s.assets, j, i);
    }
  }

  lemma ApproveSupersedes(s: State, action: nat, allowed: bool, i: nat)
    requires Inv(s) && i < |s.assets| && Superseded(s.assets, i)
    ensures var t := Step(s, Approve(action, allowed)); i < |t.assets| && Superseded(t.assets, i)
  {
    if allowed && action < |s.actions| && s.actions[action].status == PENDING {
      SupersededApproved(s.assets, action, i);
      SupersededLabels(Decide(s.assets, action, APPROVED), Step(s, Approve(action, allowed)).assets, i);
    }
  }

  lemma AppendStays(s: State, op: Op, i: nat)
    requires Inv(s) && i < |s.assets| && Superseded(s.assets, i) && (op.Propose? || op.Revise?)
    ensures i < |Step(s, op).assets| && Superseded(Step(s, op).assets, i)
  {
    var t := Step(s, op);
    if t != s {
      assert t.assets == s.assets + [t.assets[|s.assets|]];
      SupersededAppended(s.assets, t.assets[|s.assets|], i);
    }
  }

  lemma WriteStays(s: State, op: Op, i: nat)
    requires i < |s.assets| && Superseded(s.assets, i) && (op.Confirm? || op.Assign? || op.Maintain? || op.IndexBurn?)
    ensures i < |Step(s, op).assets| && Superseded(Step(s, op).assets, i)
  {
    if Written(s, op).Some? {
      SupersededLabels(s.assets, Step(s, op).assets, i);
    }
  }

  /** Nothing brings a superseded version back. */
  lemma SupersededStays(s: State, op: Op, i: nat)
    requires Inv(s) && i < |s.assets| && Superseded(s.assets, i)
    ensures i < |Step(s, op).assets| && Superseded(Step(s, op).assets, i)
  {
    match op
    case Propose(_, _) => AppendStays(s, op, i);
    case Revise(_, _, _, _) => AppendStays(s, op, i);
    case Approve(action, allowed) => ApproveSupersedes(s, action, allowed, i);
    case Reject(action, allowed) =>
      if allowed && action < |s.actions| && s.actions[action].status == PENDING {
        SupersededRejected(s.assets, action, i);
      }
    case Fetch(_, _, _, _) =>
    case Anchor(_, _) =>
    case Burn(_, _) =>
    case _ => WriteStays(s, op, i);
  }

  lemma NeverSettled(s: State, op: Op, i: nat)
    requires Inv(s) && i < |s.assets| && Superseded(s.assets, i)
    ensures !Settles(s, op, i)
  {
    if Settles(s, op, i) {
      NoDraftOnSuperseded(s, i, op.action);
    }
  }

  lemma StaleStep(s: State, op: Op, i: nat)
    requires Inv(s) && Stale(s.assets, i) && !(op.Assign? && op.asset == i && op.mark == OBSOLETE)
    ensures Stale(Step(s, op).assets, i)
  {
    SupersededStays(s, op, i);
    NeverSettled(s, op, i);
    StepTells(s, op, i);
  }

  lemma RunAppend(ops: seq<Op>, op: Op)
    ensures Run(ops + [op]) == Step(Run(ops), op)
  {
    assert (ops + [op])[..|ops|] == ops;
  }

  lemma StaleStart(ops: seq<Op>, op: Op, i: nat)
    requires Written(Run(ops), op).Some? && Written(Run(ops), op).value.0 == i && Written(Run(ops), op).value.1 != OBSOLETE
    requires i < |Run(ops).assets| && Superseded(Run(ops).assets, i)
    ensures Stale(Run(ops + [op]).assets, i)
  {
    RunAppend(ops, op);
    SupersededLabels(Run(ops).assets, Step(Run(ops), op).assets, i);
  }

  lemma StaleNext(ops: seq<Op>, op: Op, i: nat)
    requires Stale(Run(ops).assets, i) && !(op.Assign? && op.asset == i && op.mark == OBSOLETE)
    ensures Stale(Run(ops + [op]).assets, i)
  {
    RunAppend(ops, op);
    RunKeeps(ops);
    StaleStep(Run(ops), op, i);
  }

  /** One such label on a superseded row is for good: no proposal, revision, decision, anchoring,
      confirmation or maintenance ever marks the row again, only an assignment that says so itself. */
  lemma {:induction false} StaleLabelStays(ops: seq<Op>, op: Op, more: seq<Op>, i: nat)
    requires Written(Run(ops), op).Some? && Written(Run(ops), op).value.0 == i && Written(Run(ops), op).value.1 != OBSOLETE
    requires i < |Run(ops).assets| && Superseded(Run(ops).assets, i)
    requires forall k :: 0 <= k < |more| ==> !(more[k].Assign? && more[k].asset == i && more[k].mark == OBSOLETE)
    ensures Stale(Run(ops + [op] + more).assets, i)
  {
    if more == [] {
      assert ops + [op] + more == ops + [op];
      StaleStart(ops, op, i);
    } else {
      var init, last := more[..|more| - 1], more[|more| - 1];
      StaleLabelStays(ops, op, init, i);
      assert ops + [op] + more == ops + [op] + init + [last];
      StaleNext(ops + [op] + init, last, i);
    }
  }

  /** Version 1 is proposed, approved, minted and confirmed ... */
  const CONFIRMED: seq<Op> := [] + [Propose(1, true)] + [Approve(0, true)] + [Anchor(0, true)] + [Confirm(0, true)]

  /** ... and version 2 is made from a copy of it and approved, but not anchored yet. */
  const REVISED: seq<Op> := CONFIRMED + [Fetch(0, 1, true, true)] + [Revise(0, 1, 0, true)] + [Approve(1, true)]

  function First(mark: Lifecycle): Asset { Asset(CREATION, APPROVED, 1, None, 0, 0, mark) }

  function Second(status: Status, mark: Lifecycle): Asset { Asset(MODIFICATION, status, 2, Some(0), 0, 1, mark) }

  lemma ConfirmedOnce()
    ensures Run(CONFIRMED) == State([First(MINTED)], [Action(CREATION, 0, 1, APPROVED, None)], [], map[0 := 0])
  {
    var ops: seq<Op> := [];
    RunAppend(ops, Propose(1, true));
    ops := ops + [Propose(1, true)];
    assert Run(ops).assets == [Asset(CREATION, PENDING, 1, None, 0, 0, CREATED)];
    RunAppend(ops, Approve(0, true));
    ops := ops + [Approve(0, true)];
    assert Run(ops).assets == [First(CREATED)];
    RunAppend(ops, Anchor(0, true));
    ops := ops + [Anchor(0, true)];
    RunAppend(ops, Confirm(0, true));
  }

  lemma RevisedOnce()
    ensures Run(REVISED).assets == [First(OBSOLETE), Second(APPROVED, CREATED)] && Run(REVISED).shown == map[0 := 0]
  {
    ConfirmedOnce();
    RunAppend(CONFIRMED, Fetch(0, 1, true, true));
    var ops := CONFIRMED + [Fetch(0, 1, true, true)];
    assert Latest(Run(ops).assets, 0) == 1;
    RunAppend(ops, Revise(0, 1, 0, true));
    ops := ops + [Revise(0, 1, 0, true)];
    assert Run(ops).assets == [First(MINTED), Second(PENDING, PENDING_APPROVAL)];
    RunAppend(ops, Approve(1, true));
  }

  /** Now the same confirmation of version 1 succeeds a second time and takes its OBSOLETE mark off. */
  lemma ConfirmedAgain()
    ensures Run(REVISED).assets == [First(OBSOLETE), Second(APPROVED, CREATED)]
    ensures Run(REVISED + [Confirm(0, true)]).assets == [First(MINTED), Second(APPROVED, CREATED)]
    ensures Superseded(Run(REVISED).assets, 0) && !Truthful(Run(REVISED), Confirm(0, true))
  {
    RevisedOnce();
    RunAppend(REVISED, Confirm(0, true));
    var a := [First(OBSOLETE), Second(APPROVED, CREATED)];
    assert MaxVersion(a, 0, 0) == 0 && MaxVersion(a, 0, 1) == 1;
    assert Latest(a, 0) == 2;
  }

  // ---------------------------------------------------------------- what each operation does, exactly

  /** The version in force that no later one of its lineage has replaced. */
  predicate Newest(assets: seq<Asset>, i: nat)
    requires i < |assets|
  {
    InForce(assets[i]) && forall k :: 0 <= k < |assets| && assets[k].root == assets[i].root && InForce(assets[k]) ==> assets[k].version <= assets[i].version
  }

  /** A completed modification download of that version by this user, from which nothing was made yet. */
  predicate Usable(s: State, parent: nat, user: nat, download: nat) {
    && download < |s.downloads| && s.downloads[download].modification && s.downloads[download].completed
    && s.downloads[download].user == user && s.downloads[download].asset == parent && s.downloads[download].usedBy == None
  }

  lemma NewestIsLatest(assets: seq<Asset>, i: nat)
    requires i < |assets| && InForce(assets[i]) && assets[i].version >= 1
    ensures assets[i].version == Latest(assets, assets[i].root) <==> Newest(assets, i)
  {
    LatestBounds(assets, i);
    MaxBounds(assets, assets[i].root, |assets|, i);
    MaxAttained(assets, assets[i].root, |assets|);
    forall k | 0 <= k < |assets| && assets[k].root == assets[i].root && InForce(assets[k])
      ensures assets[k].version <= Latest(assets, assets[i].root)
    {
      LatestBounds(assets, k);
    }
  }

  /** A revision is taken in exactly when the checks hold, the parent is the newest version in force, no
      revision of the lineage is pending and the download is usable; it is the next version, pending, of the
      same lineage, and the download is used by it. */
  lemma ReviseExact(s: State, parent: nat, user: nat, download: nat, allowed: bool)
    requires Inv(s)
    ensures var t := Step(s, Revise(parent, user, download, allowed)); var n := |s.actions|;
      if allowed && parent < |s.assets| && Newest(s.assets, parent) && Usable(s, parent, user, download)
         && (forall k :: 0 <= k < |s.assets| && s.assets[k].root == s.assets[parent].root && s.assets[k].version > 1 ==> s.assets[k].status != PENDING)
      then && t.assets == s.assets + [Asset(MODIFICATION, PENDING, s.assets[parent].version + 1, Some(parent), s.assets[parent].root, n, PENDING_APPROVAL)]
           && t.actions == s.actions + [Action(MODIFICATION, |s.assets|, user, PENDING, Some(download))]
           && t.downloads == s.downloads[download := s.downloads[download].(usedBy := Some(n))]
      else t == s
  {
    if parent < |s.assets| {
      OnlyRootIsFirst(s.assets, parent);
      if InForce(s.assets[parent]) {
        NewestIsLatest(s.assets, parent);
      }
    }
  }

  /** A rejected revision is out of the way: its parent may be revised again, from another download, and the
      new revision has the same version number. */
  lemma RejectedMakesRoom(s: State, i: nat, user: nat, download: nat)
    requires Inv(s) && i < |s.assets| && Draft(s.assets[i])
    requires s.assets[i].parent.Some? && Usable(s, s.assets[i].parent.value, user, download)
    ensures var t := Step(s, Reject(i, true)); var u := Step(t, Revise(s.assets[i].parent.value, user, download, true));
      && t.assets[i].status == REJECTED && t.actions[i].status == REJECTED
      && |u.assets| == |s.assets| + 1 && u.assets[|s.assets|].version == s.assets[i].version && u.assets[|s.assets|].status == PENDING
  {
    var p, t := s.assets[i].parent.value, Step(s, Reject(i, true));
    assert Hangs(s.assets, i);
    RejectKeeps(s, i, true);
    forall k | 0 <= k < |s.assets| && t.assets[k].root == t.assets[p].root && InForce(t.assets[k])
      ensures t.assets[k].version <= t.assets[p].version
    {
      ParentIsLatest(s.assets, i, k);
    }
    forall k | 0 <= k < |t.assets| && t.assets[k].root == t.assets[p].root && t.assets[k].version > 1
      ensures t.assets[k].status != PENDING
    {
      assert k != i ==> !Rivals(s.assets[k], s.assets[i]);
    }
    ReviseExact(t, p, user, download, true);
  }

  /** A row's status and its action's change exactly by a decision on it while it is pending. */
  lemma DecisionExact(s: State, op: Op, i: nat)
    requires Inv(s) && i < |s.assets|
    ensures i < |Step(s, op).assets| && i < |Step(s, op).actions|
    ensures var t := Step(s, op);
      if s.assets[i].status == PENDING && op == Approve(i, true) then t.assets[i].status == APPROVED == t.actions[i].status
      else if s.assets[i].status == PENDING && op == Reject(i, true) then t.assets[i].status == REJECTED == t.actions[i].status
      else t.assets[i].status == s.assets[i].status && t.actions[i] == s.actions[i]
    ensures var t := Step(s, op);
      t.assets[i] == s.assets[i].(status := t.assets[i].status, lifecycle := t.assets[i].lifecycle)
  {
    if (op.Approve? || op.Reject?) && op.action < |s.actions| {
      assert Hangs(s.assets, op.action);
    }
  }

  /** Who labels a row, and how: an approval the revision it approves and its parent, a confirmation an
      approved version the chain shows, custody and maintenance a document with a token, an indexed
      revocation the document it names. */
  lemma LifecycleExact(s: State, op: Op, i: nat)
    requires Inv(s) && i < |s.assets|
    ensures i < |Step(s, op).assets|
    ensures Step(s, op).assets[i].lifecycle == var x := s.assets[i];
      match op
      case Confirm(k, allowed) =>
        if k == i && allowed && x.status == APPROVED && x.root in s.shown && s.shown[x.root] == i
        then (if x.version == 1 then MINTED else ANCHORED) else x.lifecycle
      case Assign(k, mark, allowed) => if k == i && allowed && x.root == i && i in s.shown then mark else x.lifecycle
      case Maintain(k, allowed) => if k == i && allowed && x.root == i && i in s.shown then MAINTENANCE else x.lifecycle
      case IndexBurn(k, allowed) => if k == i && allowed then REVOKED else x.lifecycle
      case Approve(k, allowed) =>
        if allowed && k < |s.assets| && s.assets[k].status == PENDING && s.assets[k].kind == MODIFICATION
        then (if k == i then CREATED else if s.assets[k].parent == Some(i) then OBSOLETE else x.lifecycle) else x.lifecycle
      case _ => x.lifecycle
  {
    if op.Approve? && op.action < |s.actions| {
      assert Hangs(s.assets, op.action);
    }
  }

  /** The chain changes exactly by its own transactions: a root is minted first, then carries whichever
      version was anchored last, until it is burned. */
  lemma ChainExact(s: State, op: Op, root: nat)
    requires Inv(s)
    ensures root in Step(s, op).shown <==>
      if op.Anchor? && op.allowed && op.asset == root && root < |s.assets| && s.assets[root].root == root then true
      else if op.Burn? && op.allowed && op.asset == root then false else root in s.shown
    ensures root in Step(s, op).shown ==>
      (Step(s, op).shown[root] ==
       if op.Anchor? && op.allowed && op.asset < |s.assets| && s.assets[op.asset].root == root && (op.asset == root || root in s.shown)
       then op.asset else if root in s.shown then s.shown[root] else root)
  {
    if root in s.shown {
      RootIsRoot(s.assets, s.shown[root]);
    }
  }

  /** The root of a row is a row of its own lineage's start. */
  lemma RootIsRoot(assets: seq<Asset>, i: nat)
    requires Trees(assets) && i < |assets|
    ensures assets[i].root < |assets| && assets[assets[i].root].root == assets[i].root
    decreases i
  {
    assert Hangs(assets, i);
    if assets[i].parent.Some? {
      RootIsRoot(assets, assets[i].parent.value);
    }
  }

  /** A proposal starts a lineage with a pending version 1; a download is recorded as it was made. */
  lemma StartExact(s: State, user: nat, asset: nat, modification: bool, completed: bool)
    ensures var t, n := Step(s, Propose(user, true)), |s.assets|;
      && t.assets == s.assets + [Asset(CREATION, PENDING, 1, None, n, |s.actions|, CREATED)]
      && t.actions == s.actions + [Action(CREATION, n, user, PENDING, None)] && t.downloads == s.downloads
    ensures Step(s, Propose(user, false)) == s
    ensures Step(s, Fetch(asset, user, modification, completed))
         == s.(downloads := s.downloads + [Download(asset, user, modification, completed, None)])
  {
  }

  // ---------------------------------------------------------------- the modification history of a version

  lemma {:induction false} RangeBound(seen: set<nat>, n: nat)
    requires forall x :: x in seen ==> x < n
    ensures |seen| <= n
  {
    if n > 0 {
      RangeBound(seen - {n - 1}, n - 1);
    } else {
      assert seen == {};
    }
  }

  /** From a row up the parents, stopping at a missing row or one already seen. */
  function Walk(assets: seq<Asset>, node: Option<nat>, seen: set<nat>): seq<nat>
    requires forall x :: x in seen ==> x < |assets|
    decreases |assets| - |seen|
  {
    if node == None || node.value >= |assets| || node.value in seen then [] else
    RangeBound(seen + {node.value}, |assets|);
    [node.value] + Walk(assets, assets[node.value].parent, seen + {node.value})
  }

  datatype Entry = Entry(action: nat, actor: nat, version: nat)

  function EntryOf(s: State, i: nat): seq<Entry> {
    if i < |s.assets| && s.assets[i].kind == MODIFICATION && s.assets[i].action < |s.actions|
    then [Entry(s.assets[i].action, s.actions[s.assets[i].action].actor, s.assets[i].version)] else []
  }

  /** The entries of a chain read from its end, the root, to its start. */
  function Entries(s: State, chain: seq<nat>): seq<Entry> {
    if chain == [] then [] else Entries(s, chain[1..]) + EntryOf(s, chain[0])
  }

  function History(s: State, i: nat): seq<Entry> { Entries(s, Walk(s.assets, Some(i), {})) }

  /** The chain of a row at version v is v rows long, one version lower each, ending at the root. */
  lemma {:induction false} ChainDescends(assets: seq<Asset>, i: nat, seen: set<nat>)
    requires Trees(assets) && i < |assets| && forall x :: x in seen ==> i < x < |assets|
    ensures var c := Walk(assets, Some(i), seen);
      && |c| == assets[i].version && c[0] == i && c[|c| - 1] == assets[i].root
      && forall k :: 0 <= k < |c| ==> c[k] < |assets| && assets[c[k]].root == assets[i].root && assets[c[k]].version == assets[i].version - k
    decreases i
  {
    assert Hangs(assets, i);
    if assets[i].parent.Some? {
      ChainDescends(assets, assets[i].parent.value, seen + {i});
    }
  }

  lemma {:induction false} EntriesInOrder(s: State, chain: seq<nat>, v: nat)
    requires Trees(s.assets) && Paired(s.assets, s.actions) && |chain| == v >= 1
    requires forall k :: 0 <= k < v ==> chain[k] < |s.assets| && s.assets[chain[k]].version == v - k
    ensures var h := Entries(s, chain);
      && |h| == v - 1
      && (forall k :: 0 <= k < v - 1 ==> h[k].action == chain[v - 2 - k] && h[k].version == k + 2)
      && (forall k :: 0 <= k < v - 1 ==> h[k].action < |s.actions| && h[k].actor == s.actions[h[k].action].actor)
  {
    var i := chain[0];
    OnlyRootIsFirst(s.assets, i);
    assert Hangs(s.assets, i);
    if v == 1 {
      assert chain[1..] == [];
    } else {
      EntriesInOrder(s, chain[1..], v - 1);
      assert EntryOf(s, i) == [Entry(i, s.actions[i].actor, v)];
    }
  }

  /** Entry k of the history of row i names a modification of version k + 2 in the same lineage, and who made it. */
  predicate NamesVersion(s: State, i: nat, e: Entry, k: nat)
    requires i < |s.assets|
  {
    && e.version == k + 2 && e.action < |s.assets|
    && e.action < |s.actions| && e.actor == s.actions[e.action].actor
    && var made := s.assets[e.action]; made.version == k + 2 && made.root == s.assets[i].root && made.kind == MODIFICATION
  }

  lemma HistoryOfTree(s: State, i: nat)
    requires Trees(s.assets) && Paired(s.assets, s.actions) && i < |s.assets|
    ensures |History(s, i)| == s.assets[i].version - 1
    ensures forall k :: 0 <= k < |History(s, i)| ==> NamesVersion(s, i, History(s, i)[k], k)
  {
    ChainDescends(s.assets, i, {});
    var chain := Walk(s.assets, Some(i), {});
    EntriesInOrder(s, chain, |chain|);
    var h := History(s, i);
    forall k | 0 <= k < |h|
      ensures NamesVersion(s, i, h[k], k)
    {
      assert h[k].action == chain[|chain| - 2 - k];
      assert Hangs(s.assets, h[k].action);
    }
  }

  /** In every reachable state the history of a version has one entry for each of 2 .. v, in order,
      naming the modification that made that version in the row's own lineage. */
  lemma HistoryInOrder(ops: seq<Op>, i: nat)
    requires i < |Run(ops).assets|
    ensures var s := Run(ops); var h := History(s, i);
      |h| == s.assets[i].version - 1 && forall k :: 0 <= k < |h| ==> NamesVersion(s, i, h[k], k)
  {
    RunKeeps(ops);
    HistoryOfTree(Run(ops), i);
  }

  // ---------------------------------------------------------------- the registry

  class Registry {
    var assets: seq<Asset>
    var actions: seq<Action>
    var downloads: seq<Download>
    /** The chain, as the registry reads it. */
    var shown: map<nat, nat>

    function View(): State reads this { State(assets, actions, downloads, shown) }

    constructor ()
      ensures View() == Run([])
    {
      assets, actions, downloads, shown := [], [], [], map[];
    }

    method LineageState(i: nat) returns (root: nat, latest: nat, pending: bool)
      requires i < |assets|
      ensures root == assets[i].root && latest == Latest(assets, root) && pending == HasDraft(assets, root)
    {
      root := assets[i].root;
      latest, pending := 0, false;
      for k := 0 to |assets|
        invariant latest == MaxVersion(assets, root, k)
        invariant pending <==> exists j :: 0 <= j < k && assets[j].root == root && Draft(assets[j])
      {
        if assets[k].root == root && InForce(assets[k]) && assets[k].version > latest {
          latest := assets[k].version;
        }
        if assets[k].root == root && Draft(assets[k]) {
          pending := true;
        }
      }
      if latest == 0 {
        latest := 1;
      }
    }

    method DoPropose(user: nat, allowed: bool)
      modifies this
      ensures View() == Step(old(View()), Propose(user, allowed))
    {
      if allowed {
        assets := assets + [Asset(CREATION, PENDING, 1, None, |assets|, |actions|, CREATED)];
        actions := actions + [Action(CREATION, |assets| - 1, user, PENDING, None)];
      }
    }

    method DoFetch(asset: nat, user: nat, modification: bool, completed: bool)
      modifies this
      ensures View() == Step(old(View()), Fetch(asset, user, modification, completed))
    {
      downloads := downloads + [Download(asset, user, modification, completed, None)];
    }

    method DoRevise(parent: nat, user: nat, download: nat, allowed: bool) returns (accepted: bool)
      modifies this
      ensures View() == Step(old(View()), Revise(parent, user, download, allowed))
      ensures accepted <==> allowed && MayRevise(old(View()), parent, user, download)
    {
      if parent >= |assets| || download >= |downloads| {
        return false;
      }
      var d := downloads[download];
      if !d.modification || d.user != user || d.asset != parent || !d.completed || d.usedBy.Some? {
        return false;
      }
      var root, latest, pending := LineageState(parent);
      if assets[parent].version != latest || !InForce(assets[parent]) || pending || !allowed {
        return false;
      }
      assets := assets + [Asset(MODIFICATION, PENDING, latest + 1, Some(parent), root, |actions|, PENDING_APPROVAL)];
      actions := actions + [Action(MODIFICATION, |assets| - 1, user, PENDING, Some(download))];
      downloads := downloads[download := d.(usedBy := Some(|actions| - 1))];
      return true;
    }

    method DoApprove(action: nat, allowed: bool)
      modifies this
      ensures View() == Step(old(View()), Approve(action, allowed))
    {
      if !allowed || action >= |actions| || actions[action].status != PENDING || actions[action].asset >= |assets| {
        return;
      }
      var i := actions[action].asset;
      actions := actions[action := actions[action].(status := APPROVED)];
      assets := assets[i := assets[i].(status := APPROVED)];
      if actions[action].kind == MODIFICATION {
        assets := assets[i := assets[i].(lifecycle := CREATED)];
        if assets[i].parent.Some? && assets[i].parent.value < |assets| {
          var p := assets[i].parent.value;
          assets := assets[p := assets[p].(lifecycle := OBSOLETE)];
        }
      }
    }

    method DoReject(action: nat, allowed: bool)
      modifies this
      ensures View() == Step(old(View()), Reject(action, allowed))
    {
      if !allowed || action >= |actions| || actions[action].status != PENDING || actions[action].asset >= |assets| {
        return;
      }
      var i := actions[action].asset;
      actions := actions[action := actions[action].(status := REJECTED)];
      assets := assets[i := assets[i].(status := REJECTED)];
    }

    /** Record what the chain shows of an approved row. */
    method DoConfirm(i: nat, allowed: bool) returns (confirmed: bool)
      modifies `assets
      ensures View() == Step(old(View()), Confirm(i, allowed))
      ensures confirmed <==> allowed && Shown(old(View()), i) && old(View()).assets[i].status == APPROVED
    {
      if i >= |assets| || !allowed || assets[i].status != APPROVED {
        return false;
      }
      var root := assets[i].root;
      if root !in shown || shown[root] != i {
        return false;
      }
      assets := assets[i := assets[i].(lifecycle := if assets[i].version == 1 then MINTED else ANCHORED)];
      return true;
    }

    method DoAssign(i: nat, mark: Lifecycle, allowed: bool)
      modifies `assets
      ensures View() == Step(old(View()), Assign(i, mark, allowed))
    {
      if i < |assets| && assets[i].root == i && i in shown && allowed {
        assets := assets[i := assets[i].(lifecycle := mark)];
      }
    }

    method DoMaintain(i: nat, allowed: bool)
      modifies `assets
      ensures View() == Step(old(View()), Maintain(i, allowed))
    {
      if i < |assets| && assets[i].root == i && i in shown && allowed {
        assets := assets[i := assets[i].(lifecycle := MAINTENANCE)];
      }
    }

    /** Climb with a set of seen rows, then read the chain backwards. */
    method HistoryOf(i: nat) returns (history: seq<Entry>)
      ensures history == History(View(), i)
    {
      var chain: seq<nat> := [];
      var node: Option<nat>, seen: set<nat> := Some(i), {};
      while node.Some? && node.value < |assets| && node.value !in seen
        invariant forall x :: x in seen ==> x < |assets|
        invariant chain + Walk(assets, node, seen) == Walk(assets, Some(i), {})
        decreases |assets| - |seen|
      {
        RangeBound(seen + {node.value}, |assets|);
        ghost var rest := Walk(assets, assets[node.value].parent, seen + {node.value});
        assert chain + ([node.value] + rest) == chain + [node.value] + rest;
        seen := seen + {node.value};
        chain := chain + [node.value];
        node := assets[node.value].parent;
      }
      assert chain + [] == chain;
      history := [];
      var k := |chain|;
      while k > 0
        invariant 0 <= k <= |chain| && history == Entries(View(), chain[k..])
      {
        k := k - 1;
        assert chain[k..][1..] == chain[k + 1..];
        history := history + EntryOf(View(), chain[k]);
      }
      assert chain[0..] == chain;
    }

    /** Climb to the row without a parent. */
    method FindRoot(i: nat) returns (root: nat)
      requires Trees(assets) && i < |assets|
      ensures root < |assets| && root == assets[i].root == assets[root].root && assets[root].parent == None
    {
      root := i;
      var visited: set<nat> := {};
      assert Hangs(assets, i);
      while assets[root].parent.Some? && root !in visited
        invariant root < |assets| && assets[root].root == assets[i].root && root !in visited && forall x :: x in visited ==> root <= x
        decreases root
      {
        assert Hangs(assets, root);
        visited := visited + {root};
        root := assets[root].parent.value;
      }
      assert Hangs(assets, root);
    }

    /** The rows whose parent is p, oldest first. */
    method Children(p: nat) returns (found: seq<nat>)
      ensures AreChildren(assets, p, found) && forall i, j :: 0 <= i < j < |found| ==> found[i] < found[j]
    {
      found := [];
      for c := 0 to |assets|
        invariant forall x: nat :: x in found <==> x < c && assets[x].parent == Some(p)
        invariant forall k :: 0 <= k < |found| ==> found[k] < c
        invariant forall i, j :: 0 <= i < j < |found| ==> found[i] < found[j]
      {
        if assets[c].parent == Some(p) {
          found := found + [c];
        }
      }
    }

    /** Breadth first from the root. Every row of the lineage is listed, once, after its parent. */
    method Listing(i: nat) returns (listed: seq<nat>)
      requires Trees(assets) && i < |assets|
      ensures forall c: nat :: c in listed <==> c < |assets| && assets[c].root == assets[i].root
      ensures Distinct(listed) && |listed| > 0 && listed[0] == assets[i].root
      ensures forall k :: 0 < k < |listed| ==> ParentListed(assets, listed, k, k)
    {
      var root := FindRoot(i);
      listed := [root];
      var queue, done := [root], 0;
      Start(assets, root);
      while queue != []
        invariant done <= |listed| && queue == listed[done..] && Listed(assets, root, listed, done)
        decreases |assets| - done
      {
        ListedFits(assets, root, listed, done);
        var children := Children(queue[0]);
        ListedMore(assets, root, listed, done, children);
        assert (listed + children)[done + 1..] == queue[1..] + children;
        listed, queue, done := listed + children, queue[1..] + children, done + 1;
      }
      assert done == |listed|;
      WholeLineage(assets, root, listed);
    }
  }

  ghost predicate Members(assets: seq<Asset>, root: nat, listed: seq<nat>) {
    forall k :: 0 <= k < |listed| ==> listed[k] < |assets| && assets[listed[k]].root == root
  }

  ghost predicate Distinct(s: seq<nat>) { forall j, k :: 0 <= j < k < |s| ==> s[j] != s[k] }

  /** The parent of the k-th row stands among the first n. */
  ghost predicate ParentListed(assets: seq<Asset>, listed: seq<nat>, k: nat, n: nat)
    requires k < |listed|
  {
    && listed[k] < |assets| && assets[listed[k]].parent.Some?
    && exists j :: 0 <= j < n && j < |listed| && listed[j] == assets[listed[k]].parent.value
  }

  /** Every child of the first done rows is on the list. */
  ghost predicate Expanded(assets: seq<Asset>, listed: seq<nat>, done: nat)
    requires done <= |listed|
  {
    forall c: nat, j :: c < |assets| && 0 <= j < done && assets[c].parent == Some(listed[j]) ==> c in listed
  }

  /** The first done rows of the list have been expanded: exactly their children are on it. */
  ghost predicate Listed(assets: seq<Asset>, root: nat, listed: seq<nat>, done: nat) {
    && done <= |listed| && |listed| > 0 && listed[0] == root
    && Members(assets, root, listed) && Distinct(listed) && Expanded(assets, listed, done)
    && forall k :: 0 < k < |listed| ==> ParentListed(assets, listed, k, Min(k, done))
  }

  lemma Start(assets: seq<Asset>, root: nat)
    requires root < |assets| && assets[root].root == root
    ensures Listed(assets, root, [root], 0)
  {
  }

  /** A list without repetition is no longer than the table. */
  lemma ListedFits(assets: seq<Asset>, root: nat, listed: seq<nat>, done: nat)
    requires Members(assets, root, listed) && Distinct(listed)
    ensures |listed| <= |assets|
  {
    DistinctCount(listed);
    RangeBound(Rows(listed), |assets|);
  }

  function Rows(s: seq<nat>): set<nat> { set k: nat | k in s }

  lemma {:induction false} DistinctCount(s: seq<nat>)
    requires Distinct(s)
    ensures |Rows(s)| == |s|
  {
    if s != [] {
      var init, last := s[..|s| - 1], s[|s| - 1];
      DistinctCount(init);
      assert last !in Rows(init);
      assert s == init + [last];
      assert Rows(s) == Rows(init) + {last};
    }
  }

  /** No listed row is a child of the row being expanded: their parents were expanded before. */
  lemma NotYetListed(assets: seq<Asset>, root: nat, listed: seq<nat>, done: nat, k: nat)
    requires done < |listed| && k < |listed| && Trees(assets) && Listed(assets, root, listed, done)
    ensures listed[k] < |assets| && assets[listed[k]].parent != Some(listed[done])
  {
    assert Hangs(assets, root);
    if k > 0 {
      assert ParentListed(assets, listed, k, Min(k, done));
    }
  }

  ghost predicate AreChildren(assets: seq<Asset>, p: nat, children: seq<nat>) {
    && (forall c: nat :: c in children <==> c < |assets| && assets[c].parent == Some(p))
    && Distinct(children)
  }

  lemma MoreDistinct(assets: seq<Asset>, root: nat, listed: seq<nat>, done: nat, children: seq<nat>)
    requires done < |listed| && Trees(assets) && Listed(assets, root, listed, done) && AreChildren(assets, listed[done], children)
    ensures Members(assets, root, listed + children) && Distinct(listed + children)
  {
    forall k | 0 <= k < |children|
      ensures children[k] < |assets| && assets[children[k]].root == root && children[k] !in listed
    {
      assert children[k] in children;
      assert Hangs(assets, children[k]);
      forall j | 0 <= j < |listed|
        ensures listed[j] != children[k]
      {
        NotYetListed(assets, root, listed, done, j);
      }
    }
  }

  lemma ParentBefore(assets: seq<Asset>, root: nat, listed: seq<nat>, done: nat, children: seq<nat>, k: nat)
    requires done < |listed| && Listed(assets, root, listed, done) && AreChildren(assets, listed[done], children)
    requires 0 < k < |listed + children|
    ensures ParentListed(assets, listed + children, k, Min(k, done + 1))
  {
    var more := listed + children;
    if k < |listed| {
      assert ParentListed(assets, listed, k, Min(k, done));
      var j :| 0 <= j < Min(k, done) && listed[j] == assets[listed[k]].parent.value;
      assert more[j] == listed[j] && more[k] == listed[k];
    } else {
      assert more[k] == children[k - |listed|] && more[k] in children;
      assert more[done] == listed[done];
    }
  }

  lemma MoreExpanded(assets: seq<Asset>, listed: seq<nat>, done: nat, children: seq<nat>)
    requires done < |listed| && Expanded(assets, listed, done) && AreChildren(assets, listed[done], children)
    ensures Expanded(assets, listed + children, done + 1)
  {
    var more := listed + children;
    forall c: nat, j | c < |assets| && 0 <= j < done + 1 && assets[c].parent == Some(more[j])
      ensures c in more
    {
      assert more[j] == listed[j];
      if j == done {
        assert c in children;
      }
    }
  }

  lemma ListedMore(assets: seq<Asset>, root: nat, listed: seq<nat>, done: nat, children: seq<nat>)
    requires done < |listed| && Trees(assets) && Listed(assets, root, listed, done) && AreChildren(assets, listed[done], children)
    ensures Listed(assets, root, listed + children, done + 1)
  {
    MoreDistinct(assets, root, listed, done, children);
    MoreExpanded(assets, listed, done, children);
    var more, n := listed + children, done + 1;
    forall k | 0 < k < |more|
      ensures ParentListed(assets, more, k, Min(k, n))
    {
      ParentBefore(assets, root, listed, done, children, k);
    }
  }

  /** When everything listed has been expanded, the whole lineage is on the list. */
  lemma {:induction false} AllListed(assets: seq<Asset>, root: nat, listed: seq<nat>, c: nat)
    requires Trees(assets) && Listed(assets, root, listed, |listed|) && c < |assets| && assets[c].root == root
    ensures c in listed
    decreases c
  {
    assert Hangs(assets, c);
    if assets[c].parent.Some? {
      var p := assets[c].parent.value;
      AllListed(assets, root, listed, p);
      var j :| 0 <= j < |listed| && listed[j] == p;
      assert assets[c].parent == Some(listed[j]);
    }
  }

  lemma WholeLineage(assets: seq<Asset>, root: nat, listed: seq<nat>)
    requires Trees(assets) && Listed(assets, root, listed, |listed|)
    ensures forall c: nat :: c in listed <==> c < |assets| && assets[c].root == root
    ensures forall k :: 0 < k < |listed| ==> ParentListed(assets, listed, k, k)
  {
    forall c: nat | c < |assets| && assets[c].root == root
      ensures c in listed
    {
      AllListed(assets, root, listed, c);
    }
    forall k | 0 < k < |listed|
      ensures ParentListed(assets, listed, k, k)
    {
      assert ParentListed(assets, listed, k, Min(k, |listed|));
    }
  }
}
