/** The event indexer: a cursor over the chain, windows that may fail half-way, crashes and restarts,
    chains that are replaced, and one audit row per log. */
module Indexer {
  import opened Prelude

  /** A transaction hash and the position of the log among its block's logs. */
  datatype Key = Key(tx: nat, index: nat)

  /** kind numbers the events of the contract; transfer is (token, new owner's wallet). */
  datatype Log = Log(key: Key, contract: nat, kind: nat, transfer: Option<(nat, nat)>)

  datatype Block = Block(logs: seq<Log>, salt: nat)

  const WINDOW := 500

  /** The cursor as saved. The chain up to the block stands for the block's hash. */
  datatype Saved = Saved(contract: nat, block: nat, prefix: seq<Block>)

  /** rows: what the audit trail holds; effects: the logs whose transfer was applied to owners. */
  datatype Db = Db(rows: seq<Key>, effects: seq<Key>, owners: map<nat, nat>)

  /** The indexer reads the events numbered below kinds. Nothing of the contract happened up to genesis. */
  datatype State = State(kinds: nat, chain: seq<Block>, contract: nat, genesis: nat, active: set<nat>, db: Db,
                         saved: Option<Saved>, running: bool, cursor: nat)

  /** What goes wrong in one window: kinds that cannot be fetched, rows that cannot be committed, an
      exception or a crash after so many logs, a cursor that cannot be saved. */
  datatype Faults = Faults(kinds: set<nat>, rows: set<Key>, stop: Option<nat>, save: bool)

  // ---------------------------------------------------------------- one log, one window

  predicate Ours(l: Log, contract: nat, kinds: nat) { l.contract == contract && l.kind < kinds }

  function BlockLogs(logs: seq<Log>, contract: nat, kind: nat): seq<Log> {
    if logs == [] then [] else
    var l := logs[|logs| - 1];
    BlockLogs(logs[..|logs| - 1], contract, kind) + if l.contract == contract && l.kind == kind then [l] else []
  }

  /** get_logs of one kind from block lo up to, not including, block hi; blocks past the head have none. */
  function RangeLogs(chain: seq<Block>, contract: nat, kind: nat, lo: nat, hi: nat): seq<Log> {
    if hi <= lo then [] else
    RangeLogs(chain, contract, kind, lo, hi - 1) + if hi <= |chain| then BlockLogs(chain[hi - 1].logs, contract, kind) else []
  }

  /** The logs the first n kinds bring, in the order they are written. */
  function Batch(chain: seq<Block>, contract: nat, lo: nat, hi: nat, failed: set<nat>, n: nat): seq<Log> {
    if n == 0 then [] else
    Batch(chain, contract, lo, hi, failed, n - 1) + if n - 1 in failed then [] else RangeLogs(chain, contract, n - 1, lo, hi)
  }

  /** A transfer is applied when the new owner is active and the token registered. */
  predicate Applies(db: Db, l: Log, active: set<nat>) {
    l.transfer.Some? && l.transfer.value.1 in active && l.transfer.value.0 in db.owners
  }

  /** Row and side effect are one transaction: both, or neither. */
  function Write(db: Db, l: Log, active: set<nat>, lost: set<Key>): Db {
    if l.key in db.rows || l.key in lost then db else
    if Applies(db, l, active)
    then Db(db.rows + [l.key], db.effects + [l.key], db.owners[l.transfer.value.0 := l.transfer.value.1])
    else db.(rows := db.rows + [l.key])
  }

  function WriteAll(db: Db, logs: seq<Log>, active: set<nat>, lost: set<Key>): Db {
    if logs == [] then db else Write(WriteAll(db, logs[..|logs| - 1], active, lost), logs[|logs| - 1], active, lost)
  }

  predicate AnyFailed(failed: set<nat>, kinds: nat) { exists k: nat :: k < kinds && k in failed }

  function WindowLogs(s: State, from: nat, to: nat, f: Faults): seq<Log> {
    Batch(s.chain, s.contract, from, to + 1, f.kinds, s.kinds)
  }

  predicate Stopped(s: State, from: nat, to: nat, f: Faults) { f.stop.Some? && f.stop.value <= |WindowLogs(s, from, to, f)| }

  function WindowDb(s: State, from: nat, to: nat, f: Faults): Db {
    var logs := WindowLogs(s, from, to, f);
    WriteAll(s.db, if f.stop.Some? && f.stop.value <= |logs| then logs[..f.stop.value] else logs, s.active, f.rows)
  }

  /** Nothing stopped it and every kind was fetched. */
  predicate Completes(s: State, from: nat, to: nat, f: Faults) { !Stopped(s, from, to, f) && !AnyFailed(f.kinds, s.kinds) }

  // ---------------------------------------------------------------- the process

  function Head(s: State): nat { if s.chain == [] then 0 else |s.chain| - 1 }

  function Prefix(chain: seq<Block>, block: nat): seq<Block> { if block < |chain| then chain[..block + 1] else chain }

  /** Resume where the saved cursor still names a block of this chain and contract; else rescan. */
  function ValidatedCursor(s: State): nat {
    match s.saved
    case None => s.genesis
    case Some(v) =>
      if v.contract != s.contract || v.block > Head(s) || (v.block > 0 && Prefix(s.chain, v.block) != v.prefix) then s.genesis else v.block
  }

  datatype Event =
    | Mine(block: Block)
    | Replace(chain: seq<Block>, contract: nat, genesis: nat)
    | Start
    | Crash
    | Poll(faults: Faults)
    | CatchUp(from: nat, to: nat, faults: Faults)

  /** The last block of the next window. */
  function Target(s: State): nat { Min(Head(s), s.cursor + WINDOW) }

  function SavedAt(s: State, block: nat): Option<Saved> { Some(Saved(s.contract, block, Prefix(s.chain, block))) }

  /** After a window up to block to that left these rows: the cursor moves only if it completed. */
  function Advance(s: State, db: Db, done: bool, to: nat, save: bool): State {
    var cursor := if done then Max(s.cursor, to) else s.cursor;
    s.(db := db, cursor := cursor, saved := if done && save then SavedAt(s, cursor) else s.saved)
  }

  function IndexWindow(s: State, from: nat, to: nat, f: Faults, save: bool): State {
    Advance(s, WindowDb(s, from, to, f), Completes(s, from, to, f), to, save)
  }

  function Poll1(s: State, f: Faults): State {
    if !s.running || Head(s) <= s.cursor then s else IndexWindow(s, s.cursor + 1, Target(s), f, !f.save)
  }

  /** An end of 0 means the head. */
  function CatchUpTo(s: State, to: nat): nat { if to == 0 then Head(s) else to }

  function Step(s: State, e: Event): State {
    match e
    case Mine(b) => s.(chain := s.chain + [b])
    case Replace(chain, contract, genesis) => s.(chain := chain, contract := contract, genesis := genesis)
    case Start => s.(running := true, cursor := ValidatedCursor(s))
    case Crash => s.(running := false, cursor := 0)
    case Poll(f) => Poll1(s, f)
    case CatchUp(from, to, f) => IndexWindow(s, from, CatchUpTo(s, to), f, false)
  }

  function Run(s: State, events: seq<Event>): State {
    if events == [] then s else Step(Run(s, events[..|events| - 1]), events[|events| - 1])
  }

  /** A chain begins with a block, and nothing of the contract stands in its blocks up to genesis. */
  ghost predicate Deployed(chain: seq<Block>, contract: nat, genesis: nat) {
    && chain != [] && genesis < |chain|
    && forall b, i :: 0 <= b <= genesis && 0 <= i < |chain[b].logs| ==> chain[b].logs[i].contract != contract
  }

  ghost predicate Initial(s: State) {
    Deployed(s.chain, s.contract, s.genesis) && s.db.rows == [] && s.db.effects == [] && s.saved == None && !s.running
  }

  // ---------------------------------------------------------------- each log at most once

  ghost predicate Distinct(s: seq<Key>) { forall i, j :: 0 <= i < j < |s| ==> s[i] != s[j] }

  ghost predicate OncePerLog(db: Db) {
    Distinct(db.rows) && Distinct(db.effects) && forall i :: 0 <= i < |db.effects| ==> db.effects[i] in db.rows
  }

  lemma {:induction false} WriteAllOnce(db: Db, logs: seq<Log>, active: set<nat>, lost: set<Key>)
    requires OncePerLog(db)
    ensures OncePerLog(WriteAll(db, logs, active, lost))
  {
    if logs != [] {
      WriteAllOnce(db, logs[..|logs| - 1], active, lost);
      WriteOnce(WriteAll(db, logs[..|logs| - 1], active, lost), logs[|logs| - 1], active, lost);
    }
  }

  lemma WriteOnce(db: Db, l: Log, active: set<nat>, lost: set<Key>)
    requires OncePerLog(db)
    ensures OncePerLog(Write(db, l, active, lost))
  {
    var t := Write(db, l, active, lost);
    forall i | 0 <= i < |t.effects|
      ensures t.effects[i] in t.rows
    {
      if i < |db.effects| {
        assert db.effects[i] in db.rows;
      } else {
        assert t.rows[|db.rows|] == l.key;
      }
    }
  }

  lemma StepOnce(s: State, e: Event)
    requires OncePerLog(s.db)
    ensures OncePerLog(Step(s, e).db)
  {
    match e
    case Poll(f) => WindowOnce(s, s.cursor + 1, Target(s), f);
    case CatchUp(from, to, f) => WindowOnce(s, from, CatchUpTo(s, to), f);
    case _ =>
  }

  lemma WindowOnce(s: State, from: nat, to: nat, f: Faults)
    requires OncePerLog(s.db)
    ensures OncePerLog(WindowDb(s, from, to, f))
  {
    var logs := WindowLogs(s, from, to, f);
    WriteAllOnce(s.db, if Stopped(s, from, to, f) then logs[..f.stop.value] else logs, s.active, f.rows);
  }

  /** Whatever fails, crashes, restarts or is replaced: each log has at most one row, and its side
      effect is applied at most once, never without the row. */
  lemma {:induction false} EachLogOnce(s: State, events: seq<Event>)
    requires Initial(s)
    ensures OncePerLog(Run(s, events).db)
  {
    if events != [] {
      EachLogOnce(s, events[..|events| - 1]);
      StepOnce(Run(s, events[..|events| - 1]), events[|events| - 1]);
    }
  }

  // ---------------------------------------------------------------- a complete window records every log

  lemma {:induction false} RowsGrow(db: Db, logs: seq<Log>, active: set<nat>, lost: set<Key>, k: Key)
    requires k in db.rows
    ensures k in WriteAll(db, logs, active, lost).rows
  {
    if logs != [] {
      RowsGrow(db, logs[..|logs| - 1], active, lost, k);
    }
  }

  lemma {:induction false} Written(db: Db, logs: seq<Log>, active: set<nat>, lost: set<Key>, i: nat)
    requires i < |logs| && logs[i].key !in lost
    ensures logs[i].key in WriteAll(db, logs, active, lost).rows
  {
    var n := |logs| - 1;
    var before := WriteAll(db, logs[..n], active, lost);
    if i < n {
      Written(db, logs[..n], active, lost, i);
      assert logs[..n][i] == logs[i];
    } else {
      var after := Write(before, logs[n], active, lost);
      if logs[n].key !in before.rows {
        assert after.rows[|before.rows|] == logs[n].key;
      }
    }
  }

  lemma {:induction false} InBlockLogs(logs: seq<Log>, contract: nat, i: nat)
    requires i < |logs| && logs[i].contract == contract
    ensures logs[i] in BlockLogs(logs, contract, logs[i].kind)
  {
    if i < |logs| - 1 {
      InBlockLogs(logs[..|logs| - 1], contract, i);
    }
  }

  lemma {:induction false} InRangeLogs(chain: seq<Block>, contract: nat, lo: nat, hi: nat, b: nat, i: nat)
    requires lo <= b < hi && b < |chain| && i < |chain[b].logs| && chain[b].logs[i].contract == contract
    ensures chain[b].logs[i] in RangeLogs(chain, contract, chain[b].logs[i].kind, lo, hi)
  {
    if b == hi - 1 {
      InBlockLogs(chain[b].logs, contract, i);
    } else {
      InRangeLogs(chain, contract, lo, hi - 1, b, i);
    }
  }

  lemma {:induction false} InBatch(chain: seq<Block>, contract: nat, lo: nat, hi: nat, failed: set<nat>, n: nat, l: Log)
    requires l.kind < n && l.kind !in failed && l in RangeLogs(chain, contract, l.kind, lo, hi)
    ensures l in Batch(chain, contract, lo, hi, failed, n)
  {
    var before := Batch(chain, contract, lo, hi, failed, n - 1);
    if l.kind < n - 1 {
      InBatch(chain, contract, lo, hi, failed, n - 1, l);
      assert l in before;
    } else {
      assert Batch(chain, contract, lo, hi, failed, n) == before + RangeLogs(chain, contract, n - 1, lo, hi);
    }
  }

  /** Every log of the contract in the blocks below n has its row. */
  ghost predicate Covered(rows: seq<Key>, chain: seq<Block>, contract: nat, kinds: nat, n: nat) {
    forall b, i :: 0 <= b < n && b < |chain| && 0 <= i < |chain[b].logs| && Ours(chain[b].logs[i], contract, kinds) ==>
      chain[b].logs[i].key in rows
  }

  lemma WindowCovers(s: State, from: nat, to: nat, f: Faults, b: nat, i: nat)
    requires Completes(s, from, to, f) && from <= b <= to && b < |s.chain| && i < |s.chain[b].logs|
    requires Ours(s.chain[b].logs[i], s.contract, s.kinds) && s.chain[b].logs[i].key !in f.rows
    ensures s.chain[b].logs[i].key in WindowDb(s, from, to, f).rows
  {
    var l := s.chain[b].logs[i];
    var logs := WindowLogs(s, from, to, f);
    InRangeLogs(s.chain, s.contract, from, to + 1, b, i);
    assert !AnyFailed(f.kinds, s.kinds);
    InBatch(s.chain, s.contract, from, to + 1, f.kinds, s.kinds, l);
    var j :| 0 <= j < |logs| && logs[j] == l;
    Written(s.db, logs, s.active, f.rows, j);
  }

  lemma WindowGrows(s: State, from: nat, to: nat, f: Faults, k: Key)
    requires k in s.db.rows
    ensures k in WindowDb(s, from, to, f).rows
  {
    var logs := WindowLogs(s, from, to, f);
    RowsGrow(s.db, if Stopped(s, from, to, f) then logs[..f.stop.value] else logs, s.active, f.rows, k);
  }

  // ---------------------------------------------------------------- coverage over whole runs

  /** A catch-up that can leave no hole: it starts by the block after the cursor, or does not reach
      past the cursor, and it does not claim blocks that do not exist yet. */
  predicate SafeRange(cursor: nat, from: nat, to: nat, head: nat) { to <= cursor || (from <= cursor + 1 && to <= head) }

  predicate Loses(s: State, l: Log, f: Faults) { Ours(l, s.contract, s.kinds) && l.key in f.rows }

  /** The rows a window cannot commit cost nothing: those of our logs in it are recorded already. */
  ghost predicate Harmless(s: State, from: nat, to: nat, f: Faults) {
    forall b, i :: from <= b <= to && b < |s.chain| && 0 <= i < |s.chain[b].logs| && Loses(s, s.chain[b].logs[i], f) ==>
      s.chain[b].logs[i].key in s.db.rows
  }

  /** A window that moves the cursor is in a safe range and loses nothing. */
  ghost predicate SoundWindow(s: State, from: nat, to: nat, f: Faults) {
    Completes(s, from, to, f) ==> SafeRange(s.cursor, from, to, Head(s)) && Harmless(s, from, to, f)
  }

  /** The other chain is the same up to the cursor, and so is the contract. */
  predicate Agrees(s: State, chain: seq<Block>, contract: nat) {
    contract == s.contract && s.cursor < |chain| && s.cursor < |s.chain| && chain[..s.cursor + 1] == s.chain[..s.cursor + 1]
  }

  /** A faultless catch-up from the deployment through the cursor. */
  predicate Repairs(s: State, from: nat, to: nat, f: Faults) {
    from <= s.genesis + 1 && s.cursor <= to <= Head(s) && Completes(s, from, to, f) && f.rows == {}
  }

  /** Is the running indexer on a chain that was replaced at or below its cursor? A restart ends that,
      and so does a catch-up over everything. */
  predicate Drifts(s: State, e: Event, adrift: bool) {
    match e
    case Replace(chain, contract, _) => s.running && (adrift || !Agrees(s, chain, contract))
    case Start => false
    case Crash => false
    case CatchUp(from, to, f) => adrift && !Repairs(s, from, CatchUpTo(s, to), f)
    case _ => adrift
  }

  predicate Adrift(s: State, events: seq<Event>) {
    if events == [] then false else Drifts(Run(s, events[..|events| - 1]), events[|events| - 1], Adrift(s, events[..|events| - 1]))
  }

  /** What NoGaps needs of an event: the contract is deployed on every chain; a window that moves the
      cursor is sound; and while the indexer is adrift no cursor is saved. */
  ghost predicate Careful(s: State, e: Event, adrift: bool) {
    match e
    case Poll(f) => s.running && Head(s) > s.cursor ==>
      if adrift then f.save || !Completes(s, s.cursor + 1, Target(s), f) else SoundWindow(s, s.cursor + 1, Target(s), f)
    case CatchUp(from, to, f) => s.running && !adrift ==> SoundWindow(s, from, CatchUpTo(s, to), f)
    case Replace(chain, contract, genesis) => Deployed(chain, contract, genesis)
    case _ => true
  }

  ghost predicate AllCareful(s: State, events: seq<Event>) {
    forall k :: 0 <= k < |events| ==> Careful(Run(s, events[..k]), events[k], Adrift(s, events[..k]))
  }

  ghost predicate SavedOk(v: Saved, rows: seq<Key>, kinds: nat) {
    |v.prefix| == v.block + 1 && Covered(rows, v.prefix, v.contract, kinds, v.block + 1)
  }

  ghost predicate CursorCovered(s: State) { Covered(s.db.rows, s.chain, s.contract, s.kinds, s.cursor + 1) }

  ghost predicate Inv(s: State, adrift: bool) {
    && Deployed(s.chain, s.contract, s.genesis)
    && (s.saved.Some? ==> SavedOk(s.saved.value, s.db.rows, s.kinds))
    && (s.running && !adrift ==> s.cursor <= Head(s) && CursorCovered(s))
  }

  /** The saved cursor still names a block of this chain and contract. */
  predicate Resumes(s: State) {
    s.saved.Some? && s.saved.value.contract == s.contract && s.saved.value.block <= Head(s)
    && (s.saved.value.block == 0 || Prefix(s.chain, s.saved.value.block) == s.saved.value.prefix)
  }

  /** A restart resumes at the saved block exactly when that block is still the same one of the same
      contract, and rescans from the deployment otherwise; it is covered if and only if it rescans, or
      everything up to the saved block is recorded. */
  lemma RestartExact(s: State)
    requires Deployed(s.chain, s.contract, s.genesis)
    ensures Step(s, Start) == s.(running := true, cursor := if Resumes(s) then s.saved.value.block else s.genesis)
    ensures CursorCovered(Step(s, Start))
      <==> !Resumes(s) || Covered(s.db.rows, s.chain, s.contract, s.kinds, s.saved.value.block + 1)
  {
    BeforeDeployment(s);
  }

  lemma StartKeeps(s: State, adrift: bool)
    requires Inv(s, adrift)
    ensures Inv(Step(s, Start), false)
  {
    RestartExact(s);
    if Resumes(s) && s.saved.value.block > 0 {
      var p := s.saved.value.prefix;
      assert forall b :: 0 <= b <= s.saved.value.block ==> s.chain[b] == p[b];
    } else if Resumes(s) {
      assert forall i :: 0 <= i < |s.chain[0].logs| ==> s.chain[0].logs[i].contract != s.contract;
    }
  }

  /** Up to genesis there is nothing to record. */
  lemma BeforeDeployment(s: State)
    requires Deployed(s.chain, s.contract, s.genesis)
    ensures Covered(s.db.rows, s.chain, s.contract, s.kinds, s.genesis + 1)
  {
  }

  lemma MineKeeps(s: State, b: Block, adrift: bool)
    requires Inv(s, adrift)
    ensures Inv(Step(s, Mine(b)), adrift)
  {
    var t := Step(s, Mine(b));
    assert forall k :: 0 <= k < |s.chain| ==> t.chain[k] == s.chain[k];
  }

  lemma ReplaceKeeps(s: State, chain: seq<Block>, contract: nat, genesis: nat, adrift: bool)
    requires Inv(s, adrift) && Deployed(chain, contract, genesis)
    ensures Inv(Step(s, Replace(chain, contract, genesis)), Drifts(s, Replace(chain, contract, genesis), adrift))
  {
    if s.running && !adrift && Agrees(s, chain, contract) {
      assert forall b :: 0 <= b <= s.cursor ==> chain[b] == chain[..s.cursor + 1][b] == s.chain[..s.cursor + 1][b] == s.chain[b];
    }
  }

  /** What a completed window leaves up to the new cursor is covered if and only if the rows it lost
      were harmless. */
  lemma WindowExact(s: State, from: nat, to: nat, f: Faults)
    requires CursorCovered(s) && Completes(s, from, to, f) && (to <= s.cursor || from <= s.cursor + 1)
    ensures Covered(WindowDb(s, from, to, f).rows, s.chain, s.contract, s.kinds, Max(s.cursor, to) + 1) <==> Harmless(s, from, to, f)
  {
    var rows := WindowDb(s, from, to, f).rows;
    if Harmless(s, from, to, f) {
      forall b, i | 0 <= b < Max(s.cursor, to) + 1 && b < |s.chain| && 0 <= i < |s.chain[b].logs| && Ours(s.chain[b].logs[i], s.contract, s.kinds)
        ensures s.chain[b].logs[i].key in rows
      {
        if s.chain[b].logs[i].key in s.db.rows {
          WindowGrows(s, from, to, f, s.chain[b].logs[i].key);
        } else {
          WindowCovers(s, from, to, f, b, i);
        }
      }
    } else {
      var b, i :| from <= b <= to && b < |s.chain| && 0 <= i < |s.chain[b].logs| && Loses(s, s.chain[b].logs[i], f)
        && s.chain[b].logs[i].key !in s.db.rows;
      LostInWindow(s, from, to, f, s.chain[b].logs[i].key);
      NotCovered(rows, s.chain, s.contract, s.kinds, Max(s.cursor, to) + 1, b, i);
    }
  }

  lemma PrefixCovered(rows: seq<Key>, chain: seq<Block>, contract: nat, kinds: nat, block: nat)
    requires block < |chain| && Covered(rows, chain, contract, kinds, block + 1)
    ensures |Prefix(chain, block)| == block + 1 && Covered(rows, Prefix(chain, block), contract, kinds, block + 1)
  {
    var p := Prefix(chain, block);
    assert forall b :: 0 <= b < |p| ==> p[b] == chain[b];
  }

  lemma CoveredGrows(a: seq<Key>, b: seq<Key>, chain: seq<Block>, contract: nat, kinds: nat, n: nat)
    requires Covered(a, chain, contract, kinds, n) && forall k :: k in a ==> k in b
    ensures Covered(b, chain, contract, kinds, n)
  {
  }

  /** Rows only grow and, unless adrift, the cursor stays within what they cover: then advancing is
      sound, and so is saving the cursor. */
  lemma AdvanceKeeps(s: State, db: Db, done: bool, to: nat, save: bool, adrift: bool)
    requires Inv(s, adrift) && (forall k :: k in s.db.rows ==> k in db.rows) && (save && done ==> s.running && !adrift)
    requires s.running && !adrift && done ==>
      Max(s.cursor, to) <= Head(s) && Covered(db.rows, s.chain, s.contract, s.kinds, Max(s.cursor, to) + 1)
    ensures Inv(Advance(s, db, done, to, save), adrift)
  {
    if s.saved.Some? {
      CoveredGrows(s.db.rows, db.rows, s.saved.value.prefix, s.saved.value.contract, s.kinds, s.saved.value.block + 1);
    }
    if s.running && !adrift {
      CoveredGrows(s.db.rows, db.rows, s.chain, s.contract, s.kinds, s.cursor + 1);
      if done {
        PrefixCovered(db.rows, s.chain, s.contract, s.kinds, Max(s.cursor, to));
      }
    }
  }

  lemma AllGrow(s: State, from: nat, to: nat, f: Faults)
    ensures forall k :: k in s.db.rows ==> k in WindowDb(s, from, to, f).rows
  {
    forall k | k in s.db.rows
      ensures k in WindowDb(s, from, to, f).rows
    {
      WindowGrows(s, from, to, f, k);
    }
  }

  lemma WindowKeeps(s: State, from: nat, to: nat, f: Faults, save: bool, adrift: bool)
    requires Inv(s, adrift) && (s.running && !adrift ==> SoundWindow(s, from, to, f))
    requires save && Completes(s, from, to, f) ==> s.running && !adrift
    ensures Inv(IndexWindow(s, from, to, f, save), adrift)
  {
    AllGrow(s, from, to, f);
    if s.running && !adrift && Completes(s, from, to, f) {
      WindowExact(s, from, to, f);
    }
    AdvanceKeeps(s, WindowDb(s, from, to, f), Completes(s, from, to, f), to, save, adrift);
  }

  lemma PollKeeps(s: State, f: Faults, adrift: bool)
    requires Inv(s, adrift) && Careful(s, Poll(f), adrift)
    ensures Inv(Step(s, Poll(f)), adrift)
  {
    if s.running && Head(s) > s.cursor {
      var from, to := s.cursor + 1, Target(s);
      WindowKeeps(s, from, to, f, !f.save, adrift);
      PollIs(s, f, from, to);
    }
  }

  /** After a catch-up over everything the indexer is no longer adrift. */
  lemma RepairCovers(s: State, from: nat, to: nat, f: Faults)
    requires Deployed(s.chain, s.contract, s.genesis) && Repairs(s, from, to, f)
    ensures Covered(WindowDb(s, from, to, f).rows, s.chain, s.contract, s.kinds, to + 1)
  {
    forall b, i | 0 <= b < to + 1 && b < |s.chain| && 0 <= i < |s.chain[b].logs| && Ours(s.chain[b].logs[i], s.contract, s.kinds)
      ensures s.chain[b].logs[i].key in WindowDb(s, from, to, f).rows
    {
      assert b > s.genesis;
      WindowCovers(s, from, to, f, b, i);
    }
  }

  lemma CatchUpKeeps(s: State, from: nat, to: nat, f: Faults, adrift: bool)
    requires Inv(s, adrift) && (s.running && !adrift ==> SoundWindow(s, from, to, f))
    ensures Inv(IndexWindow(s, from, to, f, false), adrift && !Repairs(s, from, to, f))
  {
    WindowKeeps(s, from, to, f, false, adrift);
    if adrift && Repairs(s, from, to, f) {
      RepairCovers(s, from, to, f);
    }
  }

  lemma StepKeeps(s: State, e: Event, adrift: bool)
    requires Inv(s, adrift) && Careful(s, e, adrift)
    ensures Inv(Step(s, e), Drifts(s, e, adrift))
  {
    match e
    case Mine(b) => MineKeeps(s, b, adrift);
    case Replace(chain, contract, genesis) => ReplaceKeeps(s, chain, contract, genesis, adrift);
    case Start => StartKeeps(s, adrift);
    case Crash =>
    case Poll(f) => PollKeeps(s, f, adrift);
    case CatchUp(from, to, f) => CatchUpKeeps(s, from, CatchUpTo(s, to), f, adrift);
  }

  lemma {:induction false} RunKeeps(s: State, events: seq<Event>)
    requires Initial(s) && AllCareful(s, events)
    ensures Inv(Run(s, events), Adrift(s, events))
  {
    if events != [] {
      var init := events[..|events| - 1];
      forall k | 0 <= k < |init|
        ensures Careful(Run(s, init[..k]), init[k], Adrift(s, init[..k]))
      {
        assert init[..k] == events[..k];
      }
      RunKeeps(s, init);
      StepKeeps(Run(s, init), events[|events| - 1], Adrift(s, init));
    }
  }

  /** Whatever windows fail, rows are lost harmlessly, and wherever the process crashes and restarts, on
      whichever chain it resumes: up to the cursor every log of the contract is recorded, except
      while the indexer runs on a chain replaced below its cursor. */
  lemma NoGaps(s: State, events: seq<Event>)
    requires Initial(s) && AllCareful(s, events) && Run(s, events).running && !Adrift(s, events)
    ensures CursorCovered(Run(s, events))
  {
    RunKeeps(s, events);
  }

  /** In particular a restart always recovers, also from a chain replaced under the running process, as
      long as no cursor was saved on the new chain before. */
  lemma RestartRecovers(s: State, events: seq<Event>)
    requires Initial(s) && AllCareful(s, events)
    ensures CursorCovered(Step(Run(s, events), Start))
  {
    RunKeeps(s, events);
    StartKeeps(Run(s, events), Adrift(s, events));
  }

  /** For a poll whose window completes: covered afterwards if and only if no log of ours in the window
      lost a row it did not have. */
  lemma PollExact(s: State, f: Faults)
    requires s.running && Head(s) > s.cursor && CursorCovered(s) && Completes(s, s.cursor + 1, Target(s), f)
    ensures CursorCovered(Step(s, Poll(f))) <==> Harmless(s, s.cursor + 1, Target(s), f)
  {
    var from, to := s.cursor + 1, Target(s);
    CompletedWindow(s, from, to, f, !f.save);
    PollIs(s, f, from, to);
  }

  lemma PollIs(s: State, f: Faults, from: nat, to: nat)
    requires s.running && Head(s) > s.cursor && from == s.cursor + 1 && to == Target(s)
    ensures Step(s, Poll(f)) == IndexWindow(s, from, to, f, !f.save)
  {
    PollNow(s, f);
  }

  lemma PollNow(s: State, f: Faults)
    requires s.running && Head(s) > s.cursor
    ensures Step(s, Poll(f)) == IndexWindow(s, s.cursor + 1, Target(s), f, !f.save)
  {
  }

  lemma CatchUpIs(s: State, from: nat, to: nat, f: Faults)
    ensures Step(s, CatchUp(from, to, f)) == IndexWindow(s, from, CatchUpTo(s, to), f, false)
  {
  }

  lemma CompletedWindow(s: State, from: nat, to: nat, f: Faults, save: bool)
    requires CursorCovered(s) && Completes(s, from, to, f) && (to <= s.cursor || from <= s.cursor + 1)
    ensures CursorCovered(IndexWindow(s, from, to, f, save)) <==> Harmless(s, from, to, f)
  {
    WindowExact(s, from, to, f);
    AdvanceCovers(s, WindowDb(s, from, to, f), to, save);
  }

  lemma AdvanceCovers(s: State, db: Db, to: nat, save: bool)
    ensures CursorCovered(Advance(s, db, true, to, save)) <==> Covered(db.rows, s.chain, s.contract, s.kinds, Max(s.cursor, to) + 1)
  {
  }

  /** Blocks are mined, and every window polled is cut short or misses a kind of log. */
  predicate Fruitless(s: State, e: Event) {
    match e
    case Mine(_) => true
    case Poll(f) => !Completes(s, s.cursor + 1, Target(s), f)
    case _ => false
  }

  /** However often windows fail, nothing is skipped: the cursor and what is saved stay where they are,
      and no row is lost. */
  ghost predicate Waiting(s: State, t: State) {
    && t.running && t.cursor == s.cursor < |t.chain| && t.saved == s.saved && t.kinds == s.kinds && CursorCovered(t)
    && forall k :: k in s.db.rows ==> k in t.db.rows
  }

  lemma MinedCovered(s: State, block: Block)
    requires CursorCovered(s) && s.cursor < |s.chain|
    ensures CursorCovered(Step(s, Mine(block)))
  {
    var t := Step(s, Mine(block));
    assert forall k :: 0 <= k < |s.chain| ==> t.chain[k] == s.chain[k];
  }

  lemma FruitlessWindow(s: State, from: nat, to: nat, f: Faults, save: bool)
    requires Waiting(s, s) && !Completes(s, from, to, f)
    ensures Waiting(s, IndexWindow(s, from, to, f, save))
  {
    AllGrow(s, from, to, f);
    CoveredGrows(s.db.rows, WindowDb(s, from, to, f).rows, s.chain, s.contract, s.kinds, s.cursor + 1);
  }

  lemma FruitlessStep(s: State, e: Event)
    requires Waiting(s, s) && Fruitless(s, e)
    ensures Waiting(s, Step(s, e))
  {
    if e.Mine? {
      MinedCovered(s, e.block);
    } else if Head(s) > s.cursor {
      var from, to := s.cursor + 1, Target(s);
      FruitlessWindow(s, from, to, e.faults, !e.faults.save);
      PollIs(s, e.faults, from, to);
    }
  }

  lemma {:induction false} FruitlessRun(s: State, events: seq<Event>)
    requires Waiting(s, s)
    requires forall k :: 0 <= k < |events| ==> Fruitless(Run(s, events[..k]), events[k])
    ensures Waiting(s, Run(s, events))
  {
    if events != [] {
      var n := |events| - 1;
      forall k | 0 <= k < n ensures Fruitless(Run(s, events[..n][..k]), events[..n][k]) {
        assert events[..n][..k] == events[..k];
      }
      FruitlessRun(s, events[..n]);
      FruitlessStep(Run(s, events[..n]), events[n]);
    }
  }

  lemma AdvanceMoves(s: State, db: Db, done: bool, to: nat, save: bool)
    requires done && to > s.cursor
    ensures Advance(s, db, done, to, save).cursor == to
  {
  }

  lemma PollMoves(s: State, f: Faults, from: nat, to: nat)
    requires s.running && Head(s) > s.cursor && from == s.cursor + 1 && to == Target(s) && Completes(s, from, to, f)
    ensures Step(s, Poll(f)).cursor == to > s.cursor
  {
    PollIs(s, f, from, to);
    AdvanceMoves(s, WindowDb(s, from, to, f), Completes(s, from, to, f), to, !f.save);
  }

  /** A poll that completes covers every block after the cursor up to its target, if it loses no log. */
  ghost predicate CatchesUp(t: State, f: Faults) {
    Head(t) > t.cursor && Completes(t, t.cursor + 1, Target(t), f) ==>
      Step(t, Poll(f)).cursor == Target(t) > t.cursor && (CursorCovered(Step(t, Poll(f))) <==> Harmless(t, t.cursor + 1, Target(t), f))
  }

  lemma CompletedPoll(t: State, f: Faults)
    requires t.running && CursorCovered(t)
    ensures CatchesUp(t, f)
  {
    var from, to := t.cursor + 1, Target(t);
    if Head(t) > t.cursor && Completes(t, from, to, f) {
      PollMoves(t, f, from, to);
      PollExact(t, f);
    }
  }

  /** ... and the next poll that completes takes up just there. */
  lemma {:induction false} FailedWindowRetries(s: State, events: seq<Event>, f: Faults)
    requires s.running && CursorCovered(s) && s.cursor < |s.chain|
    requires forall k :: 0 <= k < |events| ==> Fruitless(Run(s, events[..k]), events[k])
    ensures Waiting(s, Run(s, events)) && CatchesUp(Run(s, events), f)
  {
    FruitlessRun(s, events);
    CompletedPoll(Run(s, events), f);
  }

  // ---------------------------------------------------------------- what a window writes

  lemma {:induction false} BlockLogsExact(logs: seq<Log>, contract: nat, kind: nat, l: Log)
    ensures l in BlockLogs(logs, contract, kind) <==> l in logs && l.contract == contract && l.kind == kind
  {
    if logs != [] {
      BlockLogsExact(logs[..|logs| - 1], contract, kind, l);
      assert logs == logs[..|logs| - 1] + [logs[|logs| - 1]];
    }
  }

  /** The log stands in one of the blocks lo .. hi - 1. */
  ghost predicate OnChain(chain: seq<Block>, lo: nat, hi: nat, l: Log) { exists b :: lo <= b < hi && b < |chain| && l in chain[b].logs }

  lemma OnChainNext(chain: seq<Block>, lo: nat, hi: nat, l: Log)
    requires lo < hi
    ensures OnChain(chain, lo, hi, l) <==> OnChain(chain, lo, hi - 1, l) || (hi <= |chain| && l in chain[hi - 1].logs)
  {
    if OnChain(chain, lo, hi, l) {
      var b :| lo <= b < hi && b < |chain| && l in chain[b].logs;
      assert b < hi - 1 ==> OnChain(chain, lo, hi - 1, l);
    }
    if hi <= |chain| && l in chain[hi - 1].logs {
      assert OnChain(chain, lo, hi, l);
    }
  }

  lemma RangeLogsNext(chain: seq<Block>, contract: nat, kind: nat, lo: nat, hi: nat, l: Log)
    requires lo < hi
    ensures l in RangeLogs(chain, contract, kind, lo, hi) <==>
      || l in RangeLogs(chain, contract, kind, lo, hi - 1)
      || (hi <= |chain| && l in chain[hi - 1].logs && l.contract == contract && l.kind == kind)
  {
    if hi <= |chain| {
      BlockLogsExact(chain[hi - 1].logs, contract, kind, l);
    }
  }

  lemma {:induction false} RangeLogsExact(chain: seq<Block>, contract: nat, kind: nat, lo: nat, hi: nat, l: Log)
    ensures l in RangeLogs(chain, contract, kind, lo, hi) <==> OnChain(chain, lo, hi, l) && l.contract == contract && l.kind == kind
  {
    if lo < hi {
      RangeLogsExact(chain, contract, kind, lo, hi - 1, l);
      RangeLogsNext(chain, contract, kind, lo, hi, l);
      OnChainNext(chain, lo, hi, l);
    }
  }

  lemma BatchNext(chain: seq<Block>, contract: nat, lo: nat, hi: nat, failed: set<nat>, n: nat, l: Log)
    ensures l in Batch(chain, contract, lo, hi, failed, n + 1)
      <==> l in Batch(chain, contract, lo, hi, failed, n) || (OnChain(chain, lo, hi, l) && l.contract == contract && l.kind == n && n !in failed)
  {
    RangeLogsExact(chain, contract, n, lo, hi, l);
  }

  /** Of our contract, of one of the first n kinds, which could be fetched, and in those blocks. */
  ghost predicate Fetched(chain: seq<Block>, contract: nat, lo: nat, hi: nat, failed: set<nat>, n: nat, l: Log) {
    OnChain(chain, lo, hi, l) && l.contract == contract && l.kind < n && l.kind !in failed
  }

  ghost predicate BatchTells(chain: seq<Block>, contract: nat, lo: nat, hi: nat, failed: set<nat>, n: nat, l: Log) {
    l in Batch(chain, contract, lo, hi, failed, n) <==> Fetched(chain, contract, lo, hi, failed, n, l)
  }

  lemma BatchTellsNext(chain: seq<Block>, contract: nat, lo: nat, hi: nat, failed: set<nat>, n: nat, l: Log)
    requires BatchTells(chain, contract, lo, hi, failed, n, l)
    ensures BatchTells(chain, contract, lo, hi, failed, n + 1, l)
  {
    BatchNext(chain, contract, lo, hi, failed, n, l);
  }

  lemma BatchTellsNone(chain: seq<Block>, contract: nat, lo: nat, hi: nat, failed: set<nat>, l: Log)
    ensures BatchTells(chain, contract, lo, hi, failed, 0, l)
  {
  }

  lemma {:induction false} BatchExact(chain: seq<Block>, contract: nat, lo: nat, hi: nat, failed: set<nat>, n: nat, l: Log)
    ensures BatchTells(chain, contract, lo, hi, failed, n, l)
    decreases n
  {
    if n == 0 {
      BatchTellsNone(chain, contract, lo, hi, failed, l);
    } else {
      BatchExact(chain, contract, lo, hi, failed, n - 1, l);
      BatchTellsNext(chain, contract, lo, hi, failed, n - 1, l);
    }
  }

  lemma {:induction false} WriteAllExact(db: Db, logs: seq<Log>, active: set<nat>, lost: set<Key>, k: Key)
    ensures k in WriteAll(db, logs, active, lost).rows <==> k in db.rows || (k !in lost && HasKey(logs, k))
  {
    if logs != [] {
      var init, l := logs[..|logs| - 1], logs[|logs| - 1];
      WriteAllExact(db, init, active, lost, k);
      assert logs == init + [l];
      assert HasKey(logs, k) <==> HasKey(init, k) || l.key == k by {
        if l.key == k {
          assert logs[|init|].key == k;
        }
        if HasKey(init, k) {
          var i :| 0 <= i < |init| && init[i].key == k;
          assert logs[i].key == k;
        }
      }
    }
  }

  /** A window that nothing stops records exactly the logs of the contract in its blocks, of the kinds that
      could be fetched, whose row could be committed; one that is stopped records no others. Nothing of
      another contract or of an unknown kind is ever recorded. */
  lemma WindowRowsExact(s: State, from: nat, to: nat, f: Faults, k: Key)
    ensures var recorded := k in WindowDb(s, from, to, f).rows;
      var found := exists l: Log :: OnChain(s.chain, from, to + 1, l) && l.key == k && l.contract == s.contract && l.kind < s.kinds && l.kind !in f.kinds;
      if f.stop.Some? && f.stop.value <= |WindowLogs(s, from, to, f)| then recorded ==> k in s.db.rows || (k !in f.rows && found)
      else recorded <==> k in s.db.rows || (k !in f.rows && found)
  {
    var logs := WindowLogs(s, from, to, f);
    var part := if f.stop.Some? && f.stop.value <= |logs| then logs[..f.stop.value] else logs;
    WriteAllExact(s.db, part, s.active, f.rows, k);
    forall l: Log
      ensures l in logs <==> OnChain(s.chain, from, to + 1, l) && l.contract == s.contract && l.kind < s.kinds && l.kind !in f.kinds
    {
      BatchExact(s.chain, s.contract, from, to + 1, f.kinds, s.kinds, l);
    }
    if HasKey(part, k) {
      var i :| 0 <= i < |part| && part[i].key == k;
      assert part[i] in logs;
    }
    if l: Log :| l in logs && l.key == k {
      var i :| 0 <= i < |logs| && logs[i] == l;
      assert HasKey(logs, k);
    }
  }

  /** The log hands asset a to an active owner, and its row is new. */
  predicate Hands(l: Log, db: Db, active: set<nat>, lost: set<Key>, a: nat, owner: nat) {
    l.transfer == Some((a, owner)) && owner in active && l.key !in db.rows && l.key !in lost
  }

  /** Each registered document belongs to whoever the last new transfer to an active owner names; without
      one the owner stays. Documents that are not registered stay so. */
  lemma {:induction false} OwnersExact(db: Db, logs: seq<Log>, active: set<nat>, lost: set<Key>, a: nat)
    requires a in db.owners && forall i, j :: 0 <= i < j < |logs| ==> logs[i].key != logs[j].key
    ensures var after := WriteAll(db, logs, active, lost);
      && after.owners.Keys == db.owners.Keys
      && ((after.owners[a] == db.owners[a] && forall i, o :: 0 <= i < |logs| ==> !Hands(logs[i], db, active, lost, a, o))
          || exists i :: (0 <= i < |logs| && Hands(logs[i], db, active, lost, a, after.owners[a])
                          && forall j, o :: i < j < |logs| ==> !Hands(logs[j], db, active, lost, a, o)))
  {
    if logs != [] {
      var n := |logs| - 1;
      var init, l := logs[..n], logs[n];
      OwnersExact(db, init, active, lost, a);
      WriteAllExact(db, init, active, lost, l.key);
      assert logs == init + [l] && !HasKey(init, l.key);
      var before, after := WriteAll(db, init, active, lost), WriteAll(db, logs, active, lost);
      if Hands(l, db, active, lost, a, after.owners[a]) && after.owners[a] == l.transfer.value.1 {
        assert Hands(logs[n], db, active, lost, a, after.owners[a]);
      } else if i :| 0 <= i < |init| && Hands(init[i], db, active, lost, a, before.owners[a])
                     && forall j, o :: i < j < |init| ==> !Hands(init[j], db, active, lost, a, o) {
        assert Hands(logs[i], db, active, lost, a, after.owners[a]);
        assert forall j, o :: i < j < |logs| ==> !Hands(logs[j], db, active, lost, a, o);
      }
    }
  }

  /** Row and change of owner go together: a log recorded already, or whose row cannot be committed, changes
      nothing; any other adds its row, and the change of owner exactly when it hands a registered document to
      an active owner. */
  lemma WriteExact(db: Db, l: Log, active: set<nat>, lost: set<Key>)
    ensures var after := Write(db, l, active, lost);
      if l.key in db.rows || l.key in lost then after == db
      else if l.transfer.Some? && l.transfer.value.1 in active && l.transfer.value.0 in db.owners
      then after == Db(db.rows + [l.key], db.effects + [l.key], db.owners[l.transfer.value.0 := l.transfer.value.1])
      else after == db.(rows := db.rows + [l.key])
  {
  }

  /** A catch-up to block 0 is one to the head. */
  lemma CatchUpToHead(s: State, from: nat, f: Faults)
    requires Head(s) > 0
    ensures Step(s, CatchUp(from, 0, f)) == Step(s, CatchUp(from, Head(s), f))
  {
  }

  /** Without faults the cursor reaches the head, 500 blocks a poll. */
  function Polled(s: State, n: nat): State { if n == 0 then s else Step(Polled(s, n - 1), Poll(Faults({}, {}, None, false))) }

  lemma CleanCompletes(s: State, from: nat, to: nat)
    ensures Completes(s, from, to, Faults({}, {}, None, false))
  {
  }

  lemma CleanPoll(s: State)
    requires s.running
    ensures var t := Step(s, Poll(Faults({}, {}, None, false)));
      t.running && t.chain == s.chain && t.cursor == if Head(s) <= s.cursor then s.cursor else Min(Head(s), s.cursor + 500)
  {
    if Head(s) > s.cursor {
      var from, to, f := s.cursor + 1, Target(s), Faults({}, {}, None, false);
      CleanCompletes(s, from, to);
      PollMoves(s, f, from, to);
      PollIs(s, f, from, to);
    }
  }

  predicate Reached(s: State, t: State, cursor: int) {
    t.running && t.chain == s.chain && t.cursor == if Head(s) <= cursor then Head(s) else cursor
  }

  lemma ReachedNext(s: State, t: State, cursor: int)
    requires Reached(s, t, cursor)
    ensures Reached(s, Step(t, Poll(Faults({}, {}, None, false))), cursor + 500)
  {
    CleanPoll(t);
  }

  lemma {:induction false} ReachesHead(s: State, n: nat)
    requires s.running && s.cursor <= Head(s)
    ensures Reached(s, Polled(s, n), s.cursor + 500 * n)
  {
    if n > 0 {
      ReachesHead(s, n - 1);
      ReachedNext(s, Polled(s, n - 1), s.cursor + 500 * (n - 1));
    }
  }

  // ---------------------------------------------------------------- where coverage is lost

  function Quiet(n: nat): seq<Block> { seq(n, _ => Block([], 0)) }

  const CLEAN := Faults({}, {}, None, false)

  /** A quiet chain with one log of contract 7, in block b. */
  function OneLog(n: nat, b: nat): seq<Block>
    requires b < n
  {
    Quiet(n)[b := Block([Log(Key(1, 0), 7, 0, None)], 0)]
  }

  /** A faultless catch-up that finds no logs only moves the cursor. */
  lemma EmptyCatchUp(s: State, from: nat, to: nat)
    requires to > 0 && WindowLogs(s, from, to, CLEAN) == []
    ensures Step(s, CatchUp(from, to, CLEAN)) == s.(cursor := Max(s.cursor, to))
  {
    assert WindowDb(s, from, to, CLEAN) == s.db;
    assert Completes(s, from, to, CLEAN);
  }

  lemma SkippedBlock(kinds: nat, cursor: nat, from: nat, to: nat, head: nat) returns (s: State)
    requires kinds > 0 && cursor < head && to > cursor && from > cursor + 1
    ensures Inv(s, false) && s.kinds == kinds && s.running && s.cursor == cursor && Head(s) == head
    ensures var t := Step(s, CatchUp(from, to, CLEAN)); t.running && !Covered(t.db.rows, t.chain, t.contract, t.kinds, t.cursor + 1)
  {
    s := State(kinds, OneLog(head + 1, cursor + 1), 7, 0, {}, Db([], [], map[]), None, true, cursor);
    NothingFound(s.chain, 7, from, to + 1, {}, kinds);
    EmptyCatchUp(s, from, to);
    NotCovered([], s.chain, 7, kinds, Max(cursor, to) + 1, cursor + 1, 0);
  }

  const LATE := Block([Log(Key(1, 0), 7, 0, None)], 0)

  lemma ClaimedBlock(kinds: nat, cursor: nat, from: nat, to: nat, head: nat) returns (s: State)
    requires kinds > 0 && cursor <= head < to
    ensures Inv(s, false) && s.kinds == kinds && s.running && s.cursor == cursor && Head(s) == head
    ensures var t := Step(Step(s, CatchUp(from, to, CLEAN)), Mine(LATE)); t.running && !Covered(t.db.rows, t.chain, t.contract, t.kinds, t.cursor + 1)
  {
    s := State(kinds, Quiet(head + 1), 7, 0, {}, Db([], [], map[]), None, true, cursor);
    NothingFound(s.chain, 7, from, to + 1, {}, kinds);
    EmptyCatchUp(s, from, to);
    var longer := Quiet(head + 1) + [LATE];
    assert longer[head + 1] == LATE;
    NotCovered([], longer, 7, kinds, Max(cursor, to) + 1, head + 1, 0);
  }

  /** The condition on a catch-up is exact: outside it there is a covered state, with this cursor and
      head, that a faultless catch-up, or that and one more block, leaves with an unrecorded log. */
  lemma UnsafeCatchUpLoses(kinds: nat, cursor: nat, from: nat, to: nat, head: nat) returns (s: State)
    requires kinds > 0 && cursor <= head && to > 0 && !SafeRange(cursor, from, to, head)
    ensures Inv(s, false) && s.kinds == kinds && s.running && s.cursor == cursor && Head(s) == head
    ensures var t := Step(s, CatchUp(from, to, CLEAN)); var u := Step(t, Mine(LATE));
      t.running && (!Covered(t.db.rows, t.chain, t.contract, t.kinds, t.cursor + 1) || !Covered(u.db.rows, u.chain, u.contract, u.kinds, u.cursor + 1))
  {
    if from > cursor + 1 && cursor < head {
      s := SkippedBlock(kinds, cursor, from, to, head);
    } else {
      s := ClaimedBlock(kinds, cursor, from, to, head);
    }
  }

  lemma {:induction false} NothingFound(chain: seq<Block>, contract: nat, lo: nat, hi: nat, failed: set<nat>, kinds: nat)
    requires forall k :: lo <= k < |chain| ==> chain[k].logs == []
    ensures Batch(chain, contract, lo, hi, failed, kinds) == []
  {
    if kinds != 0 {
      NothingFound(chain, contract, lo, hi, failed, kinds - 1);
      NoneInRange(chain, contract, kinds - 1, lo, hi);
      var before, here := Batch(chain, contract, lo, hi, failed, kinds - 1), RangeLogs(chain, contract, kinds - 1, lo, hi);
      assert before == [] && here == [];
    }
  }

  lemma {:induction false} NoneInRange(chain: seq<Block>, contract: nat, kind: nat, lo: nat, hi: nat)
    requires forall k :: lo <= k < |chain| ==> chain[k].logs == []
    ensures RangeLogs(chain, contract, kind, lo, hi) == []
  {
    if lo < hi {
      NoneInRange(chain, contract, kind, lo, hi - 1);
    }
  }

  lemma LostInWindow(s: State, from: nat, to: nat, f: Faults, k: Key)
    requires k in f.rows && k !in s.db.rows
    ensures k !in WindowDb(s, from, to, f).rows
  {
    var logs := WindowLogs(s, from, to, f);
    StaysLost(s.db, if Stopped(s, from, to, f) then logs[..f.stop.value] else logs, s.active, f.rows, k);
  }

  lemma NotCovered(rows: seq<Key>, chain: seq<Block>, contract: nat, kinds: nat, n: nat, b: nat, i: nat)
    requires b < n && b < |chain| && i < |chain[b].logs| && Ours(chain[b].logs[i], contract, kinds) && chain[b].logs[i].key !in rows
    ensures !Covered(rows, chain, contract, kinds, n)
  {
  }

  lemma {:induction false} StaysLost(db: Db, logs: seq<Log>, active: set<nat>, lost: set<Key>, k: Key)
    requires k in lost && k !in db.rows
    ensures k !in WriteAll(db, logs, active, lost).rows
  {
    if logs != [] {
      StaysLost(db, logs[..|logs| - 1], active, lost, k);
    }
  }

  // A chain replaced under the running indexer.

  predicate HasKey(logs: seq<Log>, k: Key) { exists i :: 0 <= i < |logs| && logs[i].key == k }

  /** A log of ours in block b has no row, and no later block repeats its key. */
  ghost predicate Missing(s: State, k: Key, b: nat) {
    && b < |s.chain| && k !in s.db.rows
    && (exists i :: 0 <= i < |s.chain[b].logs| && s.chain[b].logs[i].key == k && Ours(s.chain[b].logs[i], s.contract, s.kinds))
    && forall c :: b < c < |s.chain| ==> !HasKey(s.chain[c].logs, k)
  }

  ghost predicate Behind(s: State, k: Key, b: nat) { Missing(s, k, b) && (s.running ==> b <= s.cursor) }

  /** The saved cursor is a block of this very chain, at or past b. */
  ghost predicate Pinned(s: State, b: nat) {
    && s.saved.Some? && s.saved.value.contract == s.contract && b <= s.saved.value.block < |s.chain|
    && s.saved.value.prefix == Prefix(s.chain, s.saved.value.block)
  }

  /** Time passes: blocks without that key, polls with any faults, catch-ups that start past block b. */
  predicate Ordinary(e: Event, k: Key, b: nat) {
    match e
    case Mine(block) => !HasKey(block.logs, k)
    case Poll(_) => true
    case CatchUp(from, _, _) => from > b
    case _ => false
  }

  lemma {:induction false} NotInBlockLogs(logs: seq<Log>, contract: nat, kind: nat, k: Key)
    requires !HasKey(logs, k)
    ensures !HasKey(BlockLogs(logs, contract, kind), k)
  {
    if logs != [] {
      assert forall i :: 0 <= i < |logs| - 1 ==> logs[..|logs| - 1][i] == logs[i];
      NotInBlockLogs(logs[..|logs| - 1], contract, kind, k);
    }
  }

  lemma {:induction false} NotInRange(chain: seq<Block>, contract: nat, kind: nat, lo: nat, hi: nat, k: Key)
    requires forall c :: lo <= c < |chain| ==> !HasKey(chain[c].logs, k)
    ensures !HasKey(RangeLogs(chain, contract, kind, lo, hi), k)
  {
    if lo < hi {
      NotInRange(chain, contract, kind, lo, hi - 1, k);
      if hi <= |chain| {
        NotInBlockLogs(chain[hi - 1].logs, contract, kind, k);
      }
    }
  }

  lemma {:induction false} NotInBatch(chain: seq<Block>, contract: nat, lo: nat, hi: nat, failed: set<nat>, n: nat, k: Key)
    requires forall c :: lo <= c < |chain| ==> !HasKey(chain[c].logs, k)
    ensures !HasKey(Batch(chain, contract, lo, hi, failed, n), k)
  {
    if n != 0 {
      NotInBatch(chain, contract, lo, hi, failed, n - 1, k);
      NotInRange(chain, contract, n - 1, lo, hi, k);
    }
  }

  lemma {:induction false} NotWritten(db: Db, logs: seq<Log>, active: set<nat>, lost: set<Key>, k: Key)
    requires k !in db.rows && !HasKey(logs, k)
    ensures k !in WriteAll(db, logs, active, lost).rows
  {
    if logs != [] {
      var n := |logs| - 1;
      assert forall i :: 0 <= i < n ==> logs[..n][i] == logs[i];
      NotWritten(db, logs[..n], active, lost, k);
    }
  }

  /** A window past block b does not find the missing log. */
  lemma WindowMisses(s: State, k: Key, b: nat, from: nat, to: nat, f: Faults)
    requires Missing(s, k, b) && from > b
    ensures k !in WindowDb(s, from, to, f).rows
  {
    var logs := WindowLogs(s, from, to, f);
    NotInBatch(s.chain, s.contract, from, to + 1, f.kinds, s.kinds, k);
    var part := if Stopped(s, from, to, f) then logs[..f.stop.value] else logs;
    assert forall i :: 0 <= i < |part| ==> part[i] == logs[i];
    NotWritten(s.db, part, s.active, f.rows, k);
  }

  lemma WindowBehind(s: State, k: Key, b: nat, from: nat, to: nat, f: Faults, save: bool)
    requires Behind(s, k, b) && from > b
    ensures Behind(IndexWindow(s, from, to, f, save), k, b)
  {
    WindowMisses(s, k, b, from, to, f);
  }

  lemma MineBehind(s: State, k: Key, b: nat, block: Block)
    requires Behind(s, k, b) && !HasKey(block.logs, k)
    ensures Behind(Step(s, Mine(block)), k, b)
  {
    var t := Step(s, Mine(block));
    assert forall c :: 0 <= c < |s.chain| ==> t.chain[c] == s.chain[c];
    assert t.chain[|s.chain|] == block;
  }

  lemma PollBehind(s: State, f: Faults, k: Key, b: nat)
    requires Behind(s, k, b)
    ensures Behind(Step(s, Poll(f)), k, b) && Step(s, Poll(f)).running == s.running
  {
    if s.running && Head(s) > s.cursor {
      var from, to := s.cursor + 1, Target(s);
      WindowBehind(s, k, b, from, to, f, !f.save);
      PollIs(s, f, from, to);
    }
  }

  lemma OrdinaryBehind(s: State, e: Event, k: Key, b: nat)
    requires Behind(s, k, b) && Ordinary(e, k, b)
    ensures Behind(Step(s, e), k, b) && Step(s, e).running == s.running
  {
    match e
    case Mine(block) => MineBehind(s, k, b, block);
    case Poll(f) => PollBehind(s, f, k, b);
    case CatchUp(from, to, f) => WindowBehind(s, k, b, from, CatchUpTo(s, to), f, false);
    case _ =>
  }

  lemma BehindNotCovered(s: State, k: Key, b: nat)
    requires Behind(s, k, b) && s.running
    ensures !CursorCovered(s)
  {
    var i :| 0 <= i < |s.chain[b].logs| && s.chain[b].logs[i].key == k && Ours(s.chain[b].logs[i], s.contract, s.kinds);
    NotCovered(s.db.rows, s.chain, s.contract, s.kinds, s.cursor + 1, b, i);
  }

  /** Replace the chain under the running indexer by one with an unrecorded log at or below the cursor.
      However many blocks are mined and polls succeed, the log stays unrecorded behind the cursor. */
  lemma {:induction false} LiveReplacementLeavesGap(s: State, chain: seq<Block>, contract: nat, genesis: nat, k: Key, b: nat, more: seq<Event>)
    requires s.running && b <= s.cursor && Missing(Step(s, Replace(chain, contract, genesis)), k, b)
    requires forall n :: 0 <= n < |more| ==> Ordinary(more[n], k, b)
    ensures var t := Run(Step(s, Replace(chain, contract, genesis)), more);
      t.running && Behind(t, k, b) && !CursorCovered(t)
  {
    var r := Step(s, Replace(chain, contract, genesis));
    if more != [] {
      LiveReplacementLeavesGap(s, chain, contract, genesis, k, b, more[..|more| - 1]);
      OrdinaryBehind(Run(r, more[..|more| - 1]), more[|more| - 1], k, b);
    }
    BehindNotCovered(Run(r, more), k, b);
  }

  lemma PollPins(s: State, k: Key, b: nat, f: Faults)
    requires Behind(s, k, b) && s.running && Head(s) > s.cursor && (Pinned(s, b) || (Completes(s, s.cursor + 1, Target(s), f) && !f.save))
    ensures Pinned(Step(s, Poll(f)), b)
  {
  }

  lemma MinePins(s: State, b: nat, block: Block)
    requires Pinned(s, b)
    ensures Pinned(Step(s, Mine(block)), b)
  {
    var n := s.saved.value.block;
    assert Prefix(s.chain + [block], n) == Prefix(s.chain, n);
  }

  lemma RestartBehind(s: State, k: Key, b: nat)
    requires Behind(s, k, b) && Pinned(s, b)
    ensures Behind(Step(s, Start), k, b) && Pinned(Step(s, Start), b)
  {
  }

  lemma PinnedStep(s: State, e: Event, k: Key, b: nat)
    requires Behind(s, k, b) && Pinned(s, b) && (Ordinary(e, k, b) || e.Crash? || e.Start?)
    ensures Behind(Step(s, e), k, b) && Pinned(Step(s, e), b)
  {
    match e
    case Crash =>
    case Start => RestartBehind(s, k, b);
    case Mine(block) => MineBehind(s, k, b, block); MinePins(s, b, block);
    case Poll(f) =>
      OrdinaryBehind(s, e, k, b);
      if s.running && Head(s) > s.cursor {
        PollPins(s, k, b, f);
      }
    case CatchUp(_, _, _) => OrdinaryBehind(s, e, k, b);
  }

  /** And once one poll has saved its cursor on the new chain, the gap is permanent: no crash and no
      restart brings the log back. */
  lemma {:induction false} SavedCursorKeepsGap(s: State, f: Faults, k: Key, b: nat, more: seq<Event>)
    requires Behind(s, k, b) && s.running && Head(s) > s.cursor && Completes(s, s.cursor + 1, Target(s), f) && !f.save
    requires forall n :: 0 <= n < |more| ==> Ordinary(more[n], k, b) || more[n].Crash? || more[n].Start?
    ensures var t := Run(Step(s, Poll(f)), more);
      Behind(t, k, b) && Pinned(t, b) && (t.running ==> !CursorCovered(t))
  {
    var p := Step(s, Poll(f));
    if more == [] {
      OrdinaryBehind(s, Poll(f), k, b);
      PollPins(s, k, b, f);
    } else {
      SavedCursorKeepsGap(s, f, k, b, more[..|more| - 1]);
      PinnedStep(Run(p, more[..|more| - 1]), more[|more| - 1], k, b);
    }
    if Run(p, more).running {
      BehindNotCovered(Run(p, more), k, b);
    }
  }

  // ---------------------------------------------------------------- the indexer, in place

  class EventIndexer {
    var kinds: nat
    var chain: seq<Block>
    var contract: nat
    var genesis: nat
    var active: set<nat>
    var db: Db
    var saved: Option<Saved>
    var running: bool
    var cursor: nat

    function View(): State reads this { State(kinds, chain, contract, genesis, active, db, saved, running, cursor) }

    /** One log: skip it if it is indexed, else row and side effect in one transaction. */
    method WriteEvent(l: Log, lost: set<Key>) returns (written: bool)
      modifies `db
      ensures db == Write(old(db), l, active, lost)
      ensures written <==> l.key !in old(db).rows && l.key !in lost
    {
      if l.key in db.rows {
        return false;
      }
      var before := db;
      if l.transfer.Some? && l.transfer.value.1 in active && l.transfer.value.0 in db.owners {
        db := db.(owners := db.owners[l.transfer.value.0 := l.transfer.value.1], effects := db.effects + [l.key]);
      }
      db := db.(rows := db.rows + [l.key]);
      if l.key in lost {
        db := before;
        return false;
      }
      return true;
    }

    /** The loop over the kinds collects what could be fetched; failed says whether all could. */
    method FetchLogs(from: nat, to: nat, broken: set<nat>) returns (logs: seq<Log>, failed: bool)
      ensures logs == Batch(chain, contract, from, to + 1, broken, kinds)
      ensures failed <==> AnyFailed(broken, kinds)
    {
      logs, failed := [], false;
      for k := 0 to kinds
        invariant logs == Batch(chain, contract, from, to + 1, broken, k)
        invariant failed <==> exists j: nat :: j < k && j in broken
      {
        if k in broken {
          failed := true;
        } else {
          logs := logs + RangeLogs(chain, contract, k, from, to + 1);
        }
      }
    }

    method WriteLogs(logs: seq<Log>, lost: set<Key>)
      modifies `db
      ensures db == WriteAll(old(db), logs, active, lost)
    {
      for i := 0 to |logs|
        invariant db == WriteAll(old(db), logs[..i], active, lost)
      {
        var written := WriteEvent(logs[i], lost);
        assert logs[..i + 1][..i] == logs[..i];
      }
      assert logs[..|logs|] == logs;
    }

    method IndexBlocks(from: nat, to: nat, f: Faults) returns (done: bool)
      modifies `db, `cursor
      ensures db == WindowDb(old(View()), from, to, f) && done == Completes(old(View()), from, to, f)
      ensures cursor == if done then Max(old(cursor), to) else old(cursor)
    {
      var logs, failed := FetchLogs(from, to, f.kinds);
      var stopped := f.stop.Some? && f.stop.value <= |logs|;
      WriteLogs(if stopped then logs[..f.stop.value] else logs, f.rows);
      done := !stopped && !failed;
      if done && to > cursor {
        cursor := to;
      }
    }

    /** One window after the cursor, and the cursor saved if it completed. */
    method PollWindow(to: nat, f: Faults)
      modifies `db, `cursor, `saved
      ensures View() == IndexWindow(old(View()), old(cursor) + 1, to, f, !f.save)
    {
      var done := IndexBlocks(cursor + 1, to, f);
      if done && !f.save {
        saved := Some(Saved(contract, cursor, Prefix(chain, cursor)));
      }
    }

    method DoPoll(f: Faults)
      modifies `db, `cursor, `saved
      ensures View() == Step(old(View()), Poll(f))
    {
      var head := if chain == [] then 0 else |chain| - 1;
      if !running || head <= cursor {
        return;
      }
      PollIs(View(), f, cursor + 1, Target(View()));
      PollWindow(Target(View()), f);
    }

    method CatchUpWindow(from: nat, to: nat, f: Faults)
      modifies `db, `cursor
      ensures View() == IndexWindow(old(View()), from, to, f, false)
    {
      var done := IndexBlocks(from, to, f);
    }

    method DoCatchUp(from: nat, to: nat, f: Faults)
      modifies `db, `cursor
      ensures View() == Step(old(View()), CatchUp(from, to, f))
    {
      var head := if chain == [] then 0 else |chain| - 1;
      var last := if to == 0 then head else to;
      CatchUpIs(View(), from, to, f);
      CatchUpWindow(from, last, f);
    }

    method DoStart()
      modifies `running, `cursor
      ensures View() == Step(old(View()), Start)
    {
      var head := if chain == [] then 0 else |chain| - 1;
      cursor := genesis;
      if saved.Some? && saved.value.contract == contract && saved.value.block <= head
         && (saved.value.block == 0 || Prefix(chain, saved.value.block) == saved.value.prefix) {
        cursor := saved.value.block;
      }
      running := true;
    }
  }
}
