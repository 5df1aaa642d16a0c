/** Re-encryption of stored secrets: one transaction that either moves every secret to the first new
    key or changes nothing. A ciphertext is the key it was made with and the text it holds. */
module KeyRotation {
  import opened Prelude

  /** What a column holds: nothing, a legacy plain text, or a text encrypted under a key. */
  datatype Stored = Empty | Plain(text: string) | Cipher(key: nat, text: string)

  /** Which record could not be read, never its value. */
  datatype Where = Where(user: nat, field: nat)

  datatype Report = Report(checked: nat, reencrypted: nat, migrated: nat, unreadable: seq<Where>)

  /** The first key encrypts; every key can decrypt. */
  function Encrypt(text: string, ring: seq<nat>): Stored
    requires ring != []
  {
    Cipher(ring[0], text)
  }

  /** Plain and empty values are refused. */
  function Decrypt(v: Stored, ring: seq<nat>): Option<string> {
    if v.Cipher? && v.key in ring then Some(v.text) else None
  }

  /** The secret a value stands for, whatever protects it. */
  function Meaning(v: Stored): Option<string> { match v case Empty => None case Plain(t) => Some(t) case Cipher(_, t) => Some(t) }

  /** The ring that reads: the new keys, then the old ones that are not among them. */
  function ReadRing(news: seq<nat>, olds: seq<nat>): (r: seq<nat>)
    ensures forall k :: k in r <==> k in news || k in olds
  {
    if olds == [] then news else
    var k := olds[|olds| - 1];
    ReadRing(news, olds[..|olds| - 1]) + if k in news then [] else [k]
  }

  predicate Readable(v: Stored, ring: seq<nat>, migrate: bool) {
    match v case Empty => true case Plain(_) => migrate case Cipher(k, _) => k in ring
  }

  /** The value a readable field gets. */
  function Rotated(v: Stored, news: seq<nat>): Stored
    requires news != []
  {
    match v case Empty => Empty case Plain(t) => Encrypt(t, news) case Cipher(_, t) => Encrypt(t, news)
  }

  function Kept(v: Stored, news: seq<nat>, ring: seq<nat>, migrate: bool): Stored
    requires news != []
  {
    if Readable(v, ring, migrate) then Rotated(v, news) else v
  }

  // ---------------------------------------------------------------- the report

  /** One more field looked at. */
  function Note(r: Report, v: Stored, ring: seq<nat>, migrate: bool, at: Where): Report {
    if v.Empty? then r
    else if !Readable(v, ring, migrate) then r.(checked := r.checked + 1, unreadable := r.unreadable + [at])
    else if v.Cipher? then r.(checked := r.checked + 1, reencrypted := r.reencrypted + 1)
    else r.(checked := r.checked + 1, migrated := r.migrated + 1)
  }

  function Fields(r: Report, fields: seq<Stored>, ring: seq<nat>, migrate: bool, user: nat): Report {
    if fields == [] then r else
    Note(Fields(r, fields[..|fields| - 1], ring, migrate, user), fields[|fields| - 1], ring, migrate, Where(user, |fields| - 1))
  }

  function Rows(rows: seq<seq<Stored>>, ring: seq<nat>, migrate: bool): Report {
    if rows == [] then Report(0, 0, 0, []) else
    Fields(Rows(rows[..|rows| - 1], ring, migrate), rows[|rows| - 1], ring, migrate, |rows| - 1)
  }

  predicate Balanced(r: Report) { r.checked == r.reencrypted + r.migrated + |r.unreadable| }

  lemma {:induction false} FieldsFacts(r: Report, fields: seq<Stored>, ring: seq<nat>, migrate: bool, user: nat)
    requires Balanced(r)
    ensures var t := Fields(r, fields, ring, migrate, user); Balanced(t) && |r.unreadable| <= |t.unreadable|
    ensures var t := Fields(r, fields, ring, migrate, user);
      t.unreadable == [] <==> r.unreadable == [] && forall j :: 0 <= j < |fields| ==> Readable(fields[j], ring, migrate)
  {
    if fields != [] {
      FieldsFacts(r, fields[..|fields| - 1], ring, migrate, user);
    }
  }

  /** Nothing is unreadable exactly when every field can be read, and every non-empty record is counted
      once: re-encrypted, migrated or unreadable. */
  lemma {:induction false} RowsFacts(rows: seq<seq<Stored>>, ring: seq<nat>, migrate: bool)
    ensures Balanced(Rows(rows, ring, migrate))
    ensures Rows(rows, ring, migrate).unreadable == []
      <==> forall i, j :: 0 <= i < |rows| && 0 <= j < |rows[i]| ==> Readable(rows[i][j], ring, migrate)
  {
    if rows != [] {
      var n := |rows| - 1;
      RowsFacts(rows[..n], ring, migrate);
      FieldsFacts(Rows(rows[..n], ring, migrate), rows[n], ring, migrate, n);
      assert forall i :: 0 <= i < n ==> rows[..n][i] == rows[i];
    }
  }

  /** The value can be moved: there is nothing, a text encrypted under one of the keys, or a plain text that
      may be migrated. */
  predicate Movable(v: Stored, ring: seq<nat>, migrate: bool) { v.Empty? || (v.Cipher? && v.key in ring) || (v.Plain? && migrate) }

  function CountIn(fields: seq<Stored>, test: Stored -> bool): nat {
    if fields == [] then 0 else CountIn(fields[..|fields| - 1], test) + if test(fields[|fields| - 1]) then 1 else 0
  }

  function CountAll(rows: seq<seq<Stored>>, test: Stored -> bool): nat {
    if rows == [] then 0 else CountAll(rows[..|rows| - 1], test) + CountIn(rows[|rows| - 1], test)
  }

  predicate Filled(v: Stored) { !v.Empty? }

  function Held(ring: seq<nat>): Stored -> bool { (v: Stored) => v.Cipher? && v.key in ring }

  function Migrating(migrate: bool): Stored -> bool { (v: Stored) => v.Plain? && migrate }

  lemma {:induction false} FieldsCounted(r: Report, fields: seq<Stored>, ring: seq<nat>, migrate: bool, user: nat)
    ensures var t := Fields(r, fields, ring, migrate, user);
      && t.checked == r.checked + CountIn(fields, Filled) && t.reencrypted == r.reencrypted + CountIn(fields, Held(ring))
      && t.migrated == r.migrated + CountIn(fields, Migrating(migrate))
  {
    if fields != [] {
      FieldsCounted(r, fields[..|fields| - 1], ring, migrate, user);
    }
  }

  lemma {:induction false} FieldsNamed(r: Report, fields: seq<Stored>, ring: seq<nat>, migrate: bool, user: nat, at: Where)
    ensures at in Fields(r, fields, ring, migrate, user).unreadable
      <==> at in r.unreadable || (at.user == user && at.field < |fields| && !Movable(fields[at.field], ring, migrate))
  {
    if fields != [] {
      FieldsNamed(r, fields[..|fields| - 1], ring, migrate, user, at);
    }
  }

  /** What the report of a run says: how many secrets there are, how many were re-encrypted and how many
      migrated, and exactly which ones could not be read, by user and field. */
  lemma {:induction false} ReportExact(rows: seq<seq<Stored>>, ring: seq<nat>, migrate: bool, at: Where)
    ensures var r := Rows(rows, ring, migrate);
      && r.checked == CountAll(rows, Filled) && r.reencrypted == CountAll(rows, Held(ring)) && r.migrated == CountAll(rows, Migrating(migrate))
      && (at in r.unreadable <==> at.user < |rows| && at.field < |rows[at.user]| && !Movable(rows[at.user][at.field], ring, migrate))
  {
    if rows != [] {
      var n := |rows| - 1;
      ReportExact(rows[..n], ring, migrate, at);
      FieldsCounted(Rows(rows[..n], ring, migrate), rows[n], ring, migrate, n);
      FieldsNamed(Rows(rows[..n], ring, migrate), rows[n], ring, migrate, n, at);
    }
  }

  // ---------------------------------------------------------------- the rotation, on the rows themselves

  class User {
    var secrets: seq<Stored>

    constructor (secrets: seq<Stored>)
      ensures this.secrets == secrets
    {
      this.secrets := secrets;
    }

    /** Rewrite the fields that can be read, one after the other. */
    method RotateFields(report: Report, id: nat, news: seq<nat>, ring: seq<nat>, migrate: bool) returns (r: Report)
      requires news != []
      modifies this
      ensures |secrets| == |old(secrets)|
      ensures forall j :: 0 <= j < |secrets| ==> secrets[j] == Kept(old(secrets)[j], news, ring, migrate)
      ensures r == Fields(report, old(secrets), ring, migrate, id)
    {
      r := report;
      ghost var was := secrets;
      for j := 0 to |secrets|
        invariant |secrets| == |was|
        invariant forall k :: 0 <= k < j ==> secrets[k] == Kept(was[k], news, ring, migrate)
        invariant forall k :: j <= k < |was| ==> secrets[k] == was[k]
        invariant r == Fields(report, was[..j], ring, migrate, id)
      {
        assert was[..j + 1][..j] == was[..j];
        var v := secrets[j];
        if !v.Empty? {
          r := r.(checked := r.checked + 1);
          var plain := if v.Cipher? then Decrypt(v, ring) else if migrate then Some(v.text) else None;
          if plain == None || Decrypt(Encrypt(plain.value, news), news) != plain {
            r := r.(unreadable := r.unreadable + [Where(id, j)]);
          } else {
            r := if v.Cipher? then r.(reencrypted := r.reencrypted + 1) else r.(migrated := r.migrated + 1);
            secrets := secrets[j := Encrypt(plain.value, news)];
          }
        }
      }
      assert was[..|was|] == was;
    }
  }

  function Snapshot(users: seq<User>): seq<seq<Stored>> reads users { seq(|users|, i requires 0 <= i < |users| reads users => users[i].secrets) }

  ghost predicate Distinct(users: seq<User>) { forall i, j :: 0 <= i < j < |users| ==> users[i] != users[j] }

  /** What a rollback does. */
  method Rollback(users: seq<User>, before: seq<seq<Stored>>)
    requires Distinct(users) && |before| == |users|
    modifies users
    ensures Snapshot(users) == before
  {
    for i := 0 to |users|
      invariant forall k :: 0 <= k < i ==> users[k].secrets == before[k]
    {
      users[i].secrets := before[i];
    }
  }

  /** A committed value decrypts with the first new key alone, to the secret it stood for. */
  lemma MeaningKept(v: Stored, news: seq<nat>)
    requires news != []
    ensures Meaning(Rotated(v, news)) == Meaning(v)
    ensures !v.Empty? ==> Decrypt(Rotated(v, news), [news[0]]) == Meaning(v)
  {
  }

  function RotatedRows(rows: seq<seq<Stored>>, news: seq<nat>): seq<seq<Stored>>
    requires news != []
  {
    seq(|rows|, i requires 0 <= i < |rows| => seq(|rows[i]|, j requires 0 <= j < |rows[i]| => Rotated(rows[i][j], news)))
  }

  /** Commit only when every record was read and this is not a dry run; else roll back. After a commit
      the first new key alone decrypts every secret to what it was. */
  method RotateEncryption(users: seq<User>, news: seq<nat>, olds: seq<nat>, migrate: bool, dryRun: bool) returns (report: Report)
    requires news != [] && Distinct(users)
    modifies users
    ensures report == Rows(old(Snapshot(users)), ReadRing(news, olds), migrate)
    ensures var was := old(Snapshot(users));
      Snapshot(users) == if report.unreadable == [] && !dryRun then RotatedRows(was, news) else was
    ensures var was := old(Snapshot(users));
      report.unreadable == [] && !dryRun ==>
        forall i, j :: 0 <= i < |users| && 0 <= j < |was[i]| && !was[i][j].Empty? ==>
          j < |users[i].secrets| && Decrypt(users[i].secrets[j], [news[0]]) == Meaning(was[i][j])
  {
    var ring := ReadRing(news, olds);
    var before := Snapshot(users);
    report := Report(0, 0, 0, []);
    for i := 0 to |users|
      invariant forall k :: i <= k < |users| ==> users[k].secrets == before[k]
      invariant forall k :: 0 <= k < i ==> |users[k].secrets| == |before[k]|
      invariant forall k, j :: 0 <= k < i && 0 <= j < |before[k]| ==> users[k].secrets[j] == Kept(before[k][j], news, ring, migrate)
      invariant report == Rows(before[..i], ring, migrate)
    {
      assert before[..i + 1][..i] == before[..i];
      report := users[i].RotateFields(report, i, news, ring, migrate);
    }
    assert before[..|users|] == before;
    RowsFacts(before, ring, migrate);
    if dryRun || report.unreadable != [] {
      Rollback(users, before);
    } else {
      forall i | 0 <= i < |users|
        ensures users[i].secrets == RotatedRows(before, news)[i]
      {
      }
      forall i, j | 0 <= i < |users| && 0 <= j < |before[i]|
        ensures !before[i][j].Empty? ==> Decrypt(users[i].secrets[j], [news[0]]) == Meaning(before[i][j])
      {
        MeaningKept(before[i][j], news);
      }
    }
  }

  // ---------------------------------------------------------------- what a rotation means

  /** After a committed rotation the old keys can be dropped: a further run with the new keys alone
      finds everything readable, migrates nothing and changes nothing. */
  lemma OldKeysDropped(rows: seq<seq<Stored>>, news: seq<nat>, migrate: bool)
    requires news != []
    ensures var t := RotatedRows(rows, news);
      Rows(t, news, migrate).unreadable == [] && Rows(t, news, migrate).migrated == 0 && RotatedRows(t, news) == t
  {
    var t := RotatedRows(rows, news);
    RowsFacts(t, news, migrate);
    NoneMigrated(t, news, migrate);
    forall i | 0 <= i < |t|
      ensures RotatedRows(t, news)[i] == t[i]
    {
      assert forall j :: 0 <= j < |t[i]| ==> RotatedRows(t, news)[i][j] == t[i][j];
    }
  }

  lemma {:induction false} NoneMigratedInRow(r: Report, fields: seq<Stored>, ring: seq<nat>, migrate: bool, user: nat)
    requires forall j :: 0 <= j < |fields| ==> !fields[j].Plain?
    ensures Fields(r, fields, ring, migrate, user).migrated == r.migrated
  {
    if fields != [] {
      NoneMigratedInRow(r, fields[..|fields| - 1], ring, migrate, user);
    }
  }

  lemma {:induction false} NoneMigrated(rows: seq<seq<Stored>>, ring: seq<nat>, migrate: bool)
    requires forall i, j :: 0 <= i < |rows| && 0 <= j < |rows[i]| ==> !rows[i][j].Plain?
    ensures Rows(rows, ring, migrate).migrated == 0
  {
    if rows != [] {
      var n := |rows| - 1;
      assert forall i :: 0 <= i < n ==> rows[..n][i] == rows[i];
      NoneMigrated(rows[..n], ring, migrate);
      NoneMigratedInRow(Rows(rows[..n], ring, migrate), rows[n], ring, migrate, n);
    }
  }
}
