/** The visible watermark as text: what a copy prints, how the record of it is read back, and the
    comparison a returned copy must pass (backend/app/services/watermark.py:80-159,
    backend/app/services/copy_integrity.py:96-191). */
module WatermarkText {
  import opened Prelude
  import opened TextLines

  const TITLE := "LexCorp Document Control"
  const LABELS: set<string> := {"Viewed by", "Downloaded by", "Wallet", "IP", "Date", "View ID", "Download ID", "Owner"}
  const REQUIRED: set<string> := {"Downloaded by", "Wallet", "Download ID"}

  datatype Kind = VIEW | DOWNLOAD

  /** One modification in the history; dates arrive already formatted. */
  datatype HistoryEntry = HistoryEntry(modificationId: string, modifierWallet: string, date: string)

  datatype Context = Context(
    kind: Kind, actorName: Option<string>, actorWallet: string, clientIp: string, actionId: string,
    date: string, ownerName: Option<string>, ownerWallet: string, history: seq<HistoryEntry>)

  type Formats = char -> bool

  // ---------------------------------------------------------------- printing

  function Clean(s: string, fmt: Formats): string { CleanLine(s, 120, fmt) }

  function NameOr(name: Option<string>, fmt: Formats): string {
    if name.Some? && Clean(name.value, fmt) != "" then Clean(name.value, fmt) else "Unnamed"
  }

  /** 0xb8b8cf5...c7b5df is printed as 0xb8b8...b5df. */
  function ShortWallet(address: string): string {
    if address == "" then "unknown" else
    var a := Strip(address);
    if |a| > 12 then a[..6] + "..." + a[|a| - 4..] else a
  }

  function Verb(k: Kind): string { if k == VIEW then "Viewed by" else "Downloaded by" }

  function IdLabel(k: Kind): string { if k == VIEW then "View ID" else "Download ID" }

  function HasOwner(c: Context): bool { c.kind == DOWNLOAD && c.ownerWallet != "" }

  function OwnerText(c: Context, fmt: Formats): string {
    NameOr(c.ownerName, fmt) + " (" + ShortWallet(c.ownerWallet) + ")"
  }

  function Line(tag: string, value: string): string { tag + ": " + value }

  function PrimaryLines(c: Context, fmt: Formats): seq<string> {
    ["CONFIDENTIAL",
     Line(Verb(c.kind), NameOr(c.actorName, fmt)),
     Line("Wallet", ShortWallet(c.actorWallet)),
     Line("IP", CleanLine(c.clientIp, 64, fmt)),
     Line("Date", c.date),
     Line(IdLabel(c.kind), Clean(c.actionId, fmt))]
    + (if HasOwner(c) then [Line("Owner", OwnerText(c, fmt))] else [])
  }

  function HistoryBlock(e: HistoryEntry, fmt: Formats): seq<string> {
    [Line("Modification ID", Clean(e.modificationId, fmt)),
     Line("Modified by wallet", ShortWallet(e.modifierWallet)),
     Line("Date", e.date)]
  }

  /** Each block is set off by an empty line. */
  function HistoryLines(h: seq<HistoryEntry>, fmt: Formats): seq<string> {
    if h == [] then [] else HistoryLines(h[..|h| - 1], fmt) + ([""] + HistoryBlock(h[|h| - 1], fmt))
  }

  function AllLines(c: Context, fmt: Formats): seq<string> { PrimaryLines(c, fmt) + HistoryLines(c.history, fmt) }

  method AppendHistory(primary: seq<string>, history: seq<HistoryEntry>, fmt: Formats) returns (lines: seq<string>)
    ensures lines == primary + HistoryLines(history, fmt)
  {
    lines := primary;
    for i := 0 to |history|
      invariant lines == primary + HistoryLines(history[..i], fmt)
    {
      var block := HistoryBlock(history[i], fmt);
      assert history[..i + 1][..i] == history[..i];
      lines := lines + [""];
      lines := lines + block;
      AppendBlock(primary, HistoryLines(history[..i], fmt), block);
    }
    assert history[..|history|] == history;
  }

  method PrintLines(c: Context, fmt: Formats) returns (lines: seq<string>)
    ensures lines == AllLines(c, fmt)
  {
    lines := AppendHistory(PrimaryLines(c, fmt), c.history, fmt);
  }

  lemma AppendBlock(primary: seq<string>, earlier: seq<string>, block: seq<string>)
    ensures primary + earlier + [""] + block == primary + (earlier + ([""] + block))
  {
  }

  // ---------------------------------------------------------------- reading

  /** line.split(": ", 1) */
  function Field(line: string): Option<(string, string)> {
    match IndexOf(line, ": ")
    case None => None
    case Some(i) => Some((line[..i], line[i + 2..]))
  }

  type Fields = map<string, string>

  /** The label a line records, when it records one. */
  function LabelOf(line: string, trim: bool): Option<string> {
    match Field(line)
    case None => None
    case Some((tag, _)) =>
      var l := if trim then Strip(tag) else tag;
      if l in LABELS then Some(l) else None
  }

  function AddLine(fields: Fields, line: string, trim: bool): Fields {
    var l := LabelOf(line, trim);
    if l.Some? && l.value !in fields then fields[l.value := Strip(Field(line).value.1)] else fields
  }

  /** First occurrences win. */
  function FieldsOf(lines: seq<string>, trim: bool): Fields {
    if lines == [] then map[] else AddLine(FieldsOf(lines[..|lines| - 1], trim), lines[|lines| - 1], trim)
  }

  method ReadFields(lines: seq<string>, trim: bool) returns (fields: Fields)
    ensures fields == FieldsOf(lines, trim)
  {
    fields := map[];
    for i := 0 to |lines|
      invariant fields == FieldsOf(lines[..i], trim)
    {
      assert lines[..i + 1][..i] == lines[..i];
      var line := lines[i];
      var f := Field(line);
      if f.Some? {
        var tag := if trim then Strip(f.value.0) else f.value.0;
        if tag in LABELS && tag !in fields {
          fields := fields[tag := Strip(f.value.1)];
        }
      }
    }
    assert lines[..|lines|] == lines;
  }

  method RecordedFields(text: string) returns (fields: Fields)
    ensures fields == FieldsOf(SplitLines(text), false)
  {
    fields := ReadFields(SplitLines(text), false);
  }

  function BlockOf(chunk: string): Fields { FieldsOf(SplitLines(chunk), true) }

  function BlocksOf(chunks: seq<string>): (bs: seq<Fields>)
    ensures |bs| == |chunks|
    ensures forall i :: 0 <= i < |bs| ==> bs[i] == BlockOf(chunks[i])
  {
    seq(|chunks|, i requires 0 <= i < |chunks| => BlockOf(chunks[i]))
  }

  method ControlBlocks(text: string) returns (blocks: seq<Fields>)
    ensures blocks == BlocksOf(SplitOn(text, TITLE)[1..])
  {
    var chunks := SplitOn(text, TITLE)[1..];
    blocks := [];
    for i := 0 to |chunks|
      invariant |blocks| == i && forall k :: 0 <= k < i ==> blocks[k] == BlockOf(chunks[k])
    {
      var fields := ReadFields(SplitLines(chunks[i]), true);
      blocks := blocks + [fields];
    }
  }

  // ---------------------------------------------------------------- the comparison

  datatype CopyCheck = CopyCheck(ok: bool, qrFound: bool, blockFound: bool, mismatches: set<string>)

  function Get(f: Fields, tag: string): Option<string> { if tag in f then Some(f[tag]) else None }

  function FindBlock(blocks: seq<Fields>, id: string): Option<Fields> {
    if blocks == [] then None
    else if Get(blocks[0], "Download ID") == Some(id) then Some(blocks[0])
    else FindBlock(blocks[1..], id)
  }

  /** text is None for an image, which has no readable block. */
  function CheckCopy(refs: set<string>, text: Option<string>, id: string, recordedText: string): CopyCheck {
    if id !in refs then CopyCheck(false, false, false, {})
    else if text == None then CopyCheck(true, true, false, {})
    else
      match FindBlock(BlocksOf(SplitOn(text.value, TITLE)[1..]), id)
      case None => CopyCheck(false, true, false, {})
      case Some(block) =>
        var recorded := FieldsOf(SplitLines(recordedText), false);
        var mismatches := (set l | l in LABELS && l in block && Get(recorded, l) != Some(block[l]))
                        + (set l | l in REQUIRED && l !in block);
        CopyCheck(mismatches == {}, true, true, mismatches)
  }

  // ---------------------------------------------------------------- what was printed

  /** The labels a copy prints, and the value each stands for. */
  function Tags(c: Context): seq<string> {
    [Verb(c.kind), "Wallet", "IP", "Date", IdLabel(c.kind)] + (if HasOwner(c) then ["Owner"] else [])
  }

  function ValueOf(c: Context, fmt: Formats, tag: string): string {
    if tag == "Wallet" then ShortWallet(c.actorWallet)
    else if tag == "IP" then CleanLine(c.clientIp, 64, fmt)
    else if tag == "Date" then c.date
    else if tag == "Owner" then OwnerText(c, fmt)
    else if tag == IdLabel(c.kind) then Clean(c.actionId, fmt)
    else NameOr(c.actorName, fmt)
  }

  /** Written from the context alone, this is what reading must give back. */
  function Printed(c: Context, fmt: Formats): Fields { map t | t in Tags(c) :: Strip(ValueOf(c, fmt, t)) }

  /** Names, ids and addresses may be any text at all; only wallets and the formatted dates are
      assumed to be single lines (a wallet is a validated address, a date is built from digits). */
  ghost predicate Printing(c: Context) {
    && OneLine(c.actorWallet) && OneLine(c.ownerWallet) && OneLine(c.date)
    && forall h :: h in c.history ==> OneLine(h.modifierWallet) && OneLine(h.date)
  }

  lemma StripSub(s: string)
    ensures OneLine(s) ==> OneLine(Strip(s))
  {
    StripLeftSub(s);
    StripRightSub(StripLeft(s));
  }

  lemma StripLeftSub(s: string)
    ensures OneLine(s) ==> OneLine(StripLeft(s))
  {
    if s != [] && IsSpace(s[0]) {
      StripLeftSub(s[1..]);
    }
  }

  lemma StripRightSub(s: string)
    ensures OneLine(s) ==> OneLine(StripRight(s))
  {
    if s != [] && IsSpace(s[|s| - 1]) {
      StripRightSub(s[..|s| - 1]);
    }
  }

  lemma ShortWalletOneLine(a: string)
    requires OneLine(a)
    ensures OneLine(ShortWallet(a))
  {
    StripSub(a);
    assert OneLine("...") && OneLine("unknown");
  }

  lemma NameOneLine(n: Option<string>, fmt: Formats)
    ensures OneLine(NameOr(n, fmt))
  {
    if n.Some? {
      CleanLineIsOneLine(n.value, 120, fmt);
    }
    assert OneLine("Unnamed");
  }

  lemma LineOneLine(tag: string, value: string)
    requires OneLine(tag) && OneLine(value)
    ensures OneLine(Line(tag, value))
  {
    assert OneLine(": ");
  }

  lemma TagsOneLine(c: Context, i: nat)
    requires i < |Tags(c)|
    ensures OneLine(Tags(c)[i])
  {
    assert OneLine("Viewed by") && OneLine("Downloaded by") && OneLine("View ID") && OneLine("Download ID");
    assert OneLine("Wallet") && OneLine("IP") && OneLine("Date") && OneLine("Owner");
  }

  lemma ValueOneLine(c: Context, fmt: Formats, tag: string)
    requires Printing(c)
    ensures OneLine(ValueOf(c, fmt, tag))
  {
    NameOneLine(c.actorName, fmt);
    ShortWalletOneLine(c.actorWallet);
    CleanLineIsOneLine(c.clientIp, 64, fmt);
    CleanLineIsOneLine(c.actionId, 120, fmt);
    OwnerOneLine(c, fmt);
  }

  lemma PrimaryOneLine(c: Context, fmt: Formats)
    requires Printing(c)
    ensures forall l :: l in PrimaryLines(c, fmt) ==> OneLine(l)
  {
    assert OneLine("CONFIDENTIAL");
    var ls := PrimaryLines(c, fmt);
    forall i | 0 <= i < |ls| ensures OneLine(ls[i]) {
      if i > 0 {
        PrimaryAt(c, fmt, i - 1);
        TagsOneLine(c, i - 1);
        ValueOneLine(c, fmt, Tags(c)[i - 1]);
        LineOneLine(Tags(c)[i - 1], ValueOf(c, fmt, Tags(c)[i - 1]));
      }
    }
  }

  lemma PrimaryAt(c: Context, fmt: Formats, i: nat)
    requires i < |PrimaryLines(c, fmt)| - 1
    ensures |PrimaryLines(c, fmt)| == |Tags(c)| + 1
    ensures PrimaryLines(c, fmt)[i + 1] == Line(Tags(c)[i], ValueOf(c, fmt, Tags(c)[i]))
  {
  }

  lemma OwnerOneLine(c: Context, fmt: Formats)
    requires OneLine(c.ownerWallet)
    ensures OneLine(OwnerText(c, fmt))
  {
    NameOneLine(c.ownerName, fmt);
    ShortWalletOneLine(c.ownerWallet);
    assert OneLine(" (") && OneLine(")");
  }

  lemma BlockOneLine(e: HistoryEntry, fmt: Formats)
    requires OneLine(e.modifierWallet) && OneLine(e.date)
    ensures forall l :: l in HistoryBlock(e, fmt) ==> OneLine(l)
  {
    assert OneLine("Modification ID") && OneLine("Modified by wallet") && OneLine("Date");
    CleanLineIsOneLine(e.modificationId, 120, fmt);
    LineOneLine("Modification ID", Clean(e.modificationId, fmt));
    ShortWalletOneLine(e.modifierWallet);
    LineOneLine("Modified by wallet", ShortWallet(e.modifierWallet));
    LineOneLine("Date", e.date);
  }

  lemma {:induction false} HistoryOneLine(h: seq<HistoryEntry>, fmt: Formats)
    requires forall e :: e in h ==> OneLine(e.modifierWallet) && OneLine(e.date)
    ensures forall l :: l in HistoryLines(h, fmt) ==> OneLine(l)
  {
    if h != [] {
      var init, e := h[..|h| - 1], h[|h| - 1];
      assert e in h;
      HistoryOneLine(init, fmt);
      BlockOneLine(e, fmt);
      var earlier, block := HistoryLines(init, fmt), HistoryBlock(e, fmt);
      assert HistoryLines(h, fmt) == earlier + ([""] + block);
      assert OneLine("");
      forall l | l in earlier + ([""] + block) ensures OneLine(l) {
      }
    }
  }

  lemma LinesOneLine(c: Context, fmt: Formats)
    requires Printing(c)
    ensures forall l :: l in AllLines(c, fmt) ==> OneLine(l)
    ensures AllLines(c, fmt) != [] && AllLines(c, fmt)[|AllLines(c, fmt)| - 1] != ""
  {
    PrimaryOneLine(c, fmt);
    HistoryOneLine(c.history, fmt);
  }

  // ---------------------------------------------------------------- reading what was printed

  lemma FieldOfLine(tag: string, value: string)
    requires forall i :: 0 <= i < |tag| ==> tag[i] != ':'
    ensures Field(Line(tag, value)) == Some((tag, value))
  {
    var line := Line(tag, value);
    assert line[|tag|] == ':' && line[|tag| + 1] == ' ';
    assert Occurs(line, ": ", |tag|);
    forall p | 0 <= p < |tag| ensures !Occurs(line, ": ", p) {
      assert line[p + 0] == tag[p] != ": "[0];
    }
    IndexOfIs(line, ": ", |tag|);
    assert line[..|tag|] == tag && line[|tag| + 2..] == value;
  }

  lemma NoField(line: string)
    requires forall i :: 0 <= i < |line| ==> line[i] != ':'
    ensures Field(line) == None
  {
    forall p ensures !Occurs(line, ": ", p) {
      if 0 <= p && p + 2 <= |line| {
        assert line[p + 0] != ": "[0];
      }
    }
  }

  ghost predicate Bare(tag: string) {
    && tag != "" && !IsSpace(tag[0]) && !IsSpace(tag[|tag| - 1])
    && forall i :: 0 <= i < |tag| ==> tag[i] != ':'
  }

  /** Reading one more printed line: the label is kept as it is, trimmed or not. */
  lemma ReadLine(fields: Fields, tag: string, value: string, trim: bool)
    requires Bare(tag)
    ensures LabelOf(Line(tag, value), trim) == if tag in LABELS then Some(tag) else None
    ensures AddLine(fields, Line(tag, value), trim)
         == if tag in LABELS && tag !in fields then fields[tag := Strip(value)] else fields
  {
    FieldOfLine(tag, value);
    StripTrimmed(tag);
  }

  lemma {:induction false} FieldsConcat(a: seq<string>, line: string, trim: bool)
    ensures FieldsOf(a + [line], trim) == AddLine(FieldsOf(a, trim), line, trim)
  {
    assert (a + [line])[..|a|] == a;
  }

  /** The line records the value under the tag, unless the tag is already there or no label. */
  ghost predicate Records(line: string, tag: string, value: string, trim: bool) {
    forall f :: AddLine(f, line, trim) == if tag in LABELS && tag !in f then f[tag := Strip(value)] else f
  }

  lemma ReadNext(lines: seq<string>, tag: string, value: string, trim: bool)
    requires Bare(tag)
    ensures var f := FieldsOf(lines, trim);
      FieldsOf(lines + [Line(tag, value)], trim) == if tag in LABELS && tag !in f then f[tag := Strip(value)] else f
  {
    FieldsConcat(lines, Line(tag, value), trim);
    ReadLine(FieldsOf(lines, trim), tag, value, trim);
  }

  lemma LineRecords(tag: string, value: string, trim: bool)
    requires Bare(tag)
    ensures Records(Line(tag, value), tag, value, trim)
  {
    forall f ensures AddLine(f, Line(tag, value), trim) == if tag in LABELS && tag !in f then f[tag := Strip(value)] else f {
      ReadLine(f, tag, value, trim);
    }
  }

  lemma SkipNext(lines: seq<string>, line: string, trim: bool)
    requires forall i :: 0 <= i < |line| ==> line[i] != ':'
    ensures FieldsOf(lines + [line], trim) == FieldsOf(lines, trim)
  {
    FieldsConcat(lines, line, trim);
    NoField(line);
  }

  /** f holds exactly the first n tags with their trimmed values. */
  ghost predicate Holds(f: Fields, tags: seq<string>, value: string -> string, n: nat)
    requires n <= |tags|
  {
    (forall t :: t in f <==> t in tags[..n]) && forall i :: 0 <= i < n ==> f[tags[i]] == Strip(value(tags[i]))
  }

  lemma HoldsNext(f: Fields, tags: seq<string>, value: string -> string, n: nat)
    requires n < |tags| && Holds(f, tags, value, n) && forall i :: 0 <= i < n ==> tags[i] != tags[n]
    ensures tags[n] !in f && Holds(f[tags[n] := Strip(value(tags[n]))], tags, value, n + 1)
  {
    assert tags[..n + 1] == tags[..n] + [tags[n]];
  }

  ghost predicate RecordsAt(ls: seq<string>, tags: seq<string>, value: string -> string, i: nat, trim: bool)
    requires i < |tags| < |ls|
  {
    Records(ls[i + 1], tags[i], value(tags[i]), trim) && tags[i] in LABELS
  }

  lemma RecordedNext(ls: seq<string>, n: nat, tag: string, value: string, trim: bool)
    requires 0 < n < |ls| && Records(ls[n], tag, value, trim) && tag in LABELS && tag !in FieldsOf(ls[..n], trim)
    ensures FieldsOf(ls[..n + 1], trim) == FieldsOf(ls[..n], trim)[tag := Strip(value)]
  {
    FieldsConcat(ls[..n], ls[n], trim);
    assert ls[..n] + [ls[n]] == ls[..n + 1];
  }

  /** Read from the first line and n more. */
  function ReadUpTo(ls: seq<string>, n: nat, trim: bool): Fields
    requires n < |ls|
  {
    FieldsOf(ls[..n + 1], trim)
  }

  /** After a line without fields, lines with different labels record one label each. */
  lemma {:induction false} PairsRead(ls: seq<string>, tags: seq<string>, value: string -> string, n: nat, trim: bool)
    requires n <= |tags| < |ls| && ReadUpTo(ls, 0, trim) == map[]
    requires forall i :: 0 <= i < |tags| ==> RecordsAt(ls, tags, value, i, trim)
    requires forall i, j :: 0 <= i < j < |tags| ==> tags[i] != tags[j]
    ensures Holds(ReadUpTo(ls, n, trim), tags, value, n)
  {
    if n > 0 {
      PairsRead(ls, tags, value, n - 1, trim);
      PairsStep(ls, tags, value, n - 1, trim);
    }
  }

  lemma PairsStep(ls: seq<string>, tags: seq<string>, value: string -> string, n: nat, trim: bool)
    requires n < |tags| < |ls| && RecordsAt(ls, tags, value, n, trim)
    requires forall i, j :: 0 <= i < j < |tags| ==> tags[i] != tags[j]
    requires Holds(ReadUpTo(ls, n, trim), tags, value, n)
    ensures Holds(ReadUpTo(ls, n + 1, trim), tags, value, n + 1)
  {
    HoldsNext(FieldsOf(ls[..n + 1], trim), tags, value, n);
    RecordedNext(ls, n + 1, tags[n], value(tags[n]), trim);
  }

  lemma LabelFacts()
    ensures Bare("Viewed by") && Bare("Downloaded by") && Bare("Wallet") && Bare("IP") && Bare("Date")
    ensures Bare("View ID") && Bare("Download ID") && Bare("Owner")
    ensures Bare("Modification ID") && Bare("Modified by wallet")
    ensures "Modification ID" !in LABELS && "Modified by wallet" !in LABELS
  {
  }

  lemma PrimaryRecords(c: Context, fmt: Formats, i: nat, trim: bool)
    requires i < |Tags(c)|
    ensures |PrimaryLines(c, fmt)| == |Tags(c)| + 1
    ensures PrimaryLines(c, fmt)[i + 1] == Line(Tags(c)[i], ValueOf(c, fmt, Tags(c)[i]))
    ensures Tags(c)[i] in LABELS
    ensures Records(PrimaryLines(c, fmt)[i + 1], Tags(c)[i], ValueOf(c, fmt, Tags(c)[i]), trim)
  {
    LabelFacts();
    LineRecords(Tags(c)[i], ValueOf(c, fmt, Tags(c)[i]), trim);
  }

  lemma TagsDistinct(c: Context, i: nat, j: nat)
    requires i < j < |Tags(c)|
    ensures Tags(c)[i] != Tags(c)[j]
  {
  }

  lemma AllPairsRead(ls: seq<string>, tags: seq<string>, value: string -> string, trim: bool)
    requires |ls| == |tags| + 1 && ReadUpTo(ls, 0, trim) == map[]
    requires forall i :: 0 <= i < |tags| ==> RecordsAt(ls, tags, value, i, trim)
    requires forall i, j :: 0 <= i < j < |tags| ==> tags[i] != tags[j]
    ensures FieldsOf(ls, trim) == map t | t in tags :: Strip(value(t))
  {
    PairsRead(ls, tags, value, |tags|, trim);
    assert ls[..|tags| + 1] == ls && tags[..|tags|] == tags;
    SameMap(FieldsOf(ls, trim), tags, value);
  }

  lemma PrimaryRead(c: Context, fmt: Formats, trim: bool)
    ensures FieldsOf(PrimaryLines(c, fmt), trim) == Printed(c, fmt)
  {
    var ls, tags, value := PrimaryLines(c, fmt), Tags(c), t => ValueOf(c, fmt, t);
    PrimaryRecords(c, fmt, 0, trim);
    forall i | 0 <= i < |tags| ensures RecordsAt(ls, tags, value, i, trim) {
      PrimaryRecords(c, fmt, i, trim);
    }
    forall i, j | 0 <= i < j < |tags| ensures tags[i] != tags[j] {
      TagsDistinct(c, i, j);
    }
    SkipNext([], "CONFIDENTIAL", trim);
    assert [] + ["CONFIDENTIAL"] == ls[..1];
    AllPairsRead(ls, tags, value, trim);
  }

  lemma SameMap(f: Fields, tags: seq<string>, value: string -> string)
    requires forall t :: t in f <==> t in tags
    requires forall i :: 0 <= i < |tags| ==> f[tags[i]] == Strip(value(tags[i]))
    ensures f == map t | t in tags :: Strip(value(t))
  {
    forall t | t in f ensures f[t] == Strip(value(t)) {
      var i :| 0 <= i < |tags| && tags[i] == t;
    }
  }

  lemma EntryRead(before: seq<string>, e: HistoryEntry, fmt: Formats, trim: bool)
    requires "Date" in FieldsOf(before, trim)
    ensures FieldsOf(before + ([""] + HistoryBlock(e, fmt)), trim) == FieldsOf(before, trim)
  {
    LabelFacts();
    var block := HistoryBlock(e, fmt);
    SkipNext(before, "", trim);
    var b1 := before + [""];
    ReadNext(b1, "Modification ID", Clean(e.modificationId, fmt), trim);
    var b2 := b1 + [block[0]];
    ReadNext(b2, "Modified by wallet", ShortWallet(e.modifierWallet), trim);
    var b3 := b2 + [block[1]];
    ReadNext(b3, "Date", e.date, trim);
    FourAppended(before, "", block);
  }

  lemma FourAppended(before: seq<string>, l: string, block: seq<string>)
    requires |block| == 3
    ensures before + ([l] + block) == before + [l] + [block[0]] + [block[1]] + [block[2]]
  {
  }

  /** The history repeats only the label Date, which the first block already holds. */
  lemma {:induction false} HistoryRead(first: seq<string>, h: seq<HistoryEntry>, fmt: Formats, trim: bool)
    requires "Date" in FieldsOf(first, trim)
    ensures FieldsOf(first + HistoryLines(h, fmt), trim) == FieldsOf(first, trim)
  {
    if h == [] {
      assert first + HistoryLines(h, fmt) == first;
    } else {
      var earlier, entry := HistoryLines(h[..|h| - 1], fmt), [""] + HistoryBlock(h[|h| - 1], fmt);
      HistoryRead(first, h[..|h| - 1], fmt, trim);
      EntryRead(first + earlier, h[|h| - 1], fmt, trim);
      Regroup(first, earlier, entry);
    }
  }

  lemma Regroup(a: seq<string>, b: seq<string>, c: seq<string>)
    ensures a + (b + c) == (a + b) + c
  {
  }

  lemma AllRead(c: Context, fmt: Formats, trim: bool)
    ensures FieldsOf(AllLines(c, fmt), trim) == Printed(c, fmt)
  {
    PrimaryRead(c, fmt, trim);
    HistoryRead(PrimaryLines(c, fmt), c.history, fmt, trim);
  }

  /** Round trip: the stored watermark text parses back to exactly the printed labels, whatever
      the names are and in whatever order the history comes. */
  lemma RecordRoundTrip(c: Context, fmt: Formats)
    requires Printing(c)
    ensures FieldsOf(SplitLines(Join(AllLines(c, fmt))), false) == Printed(c, fmt)
  {
    LinesOneLine(c, fmt);
    SplitJoinedAll(AllLines(c, fmt));
    AllRead(c, fmt, false);
  }

  // ---------------------------------------------------------------- accepting a copy

  /** Lines between the title and the block (the PDF page prints one) that record nothing. */
  ghost predicate Preface(pre: seq<string>) {
    forall l :: l in pre ==> OneLine(l) && !Contains(l, TITLE) && LabelOf(l, true) == None
  }

  /** Text after the block starts on a new line. */
  ghost predicate Tail(tail: string) { tail == "" || tail[0] == '\n' }

  function AfterBlock(tail: string): seq<string> {
    if tail == "" then [] else
    var piece := SplitOn(tail, TITLE)[0];
    if piece == "" then [] else SplitLines(piece[1..])
  }

  /** Some line after the block, before any further title, records a label the block lacks. */
  ghost predicate AddsLabel(tail: string, block: Fields) {
    exists l :: l in AfterBlock(tail) && !AddsNothing(l, block)
  }

  lemma {:induction false} PrefaceReadsNothing(pre: seq<string>)
    requires Preface(pre)
    ensures FieldsOf(pre, true) == map[]
  {
    if pre != [] {
      assert pre[|pre| - 1] in pre;
      PrefaceReadsNothing(pre[..|pre| - 1]);
    }
  }

  lemma {:induction false} ReadAfterPreface(pre: seq<string>, lines: seq<string>)
    requires FieldsOf(pre, true) == map[]
    ensures FieldsOf(pre + lines, true) == FieldsOf(lines, true)
  {
    if lines == [] {
      assert pre + lines == pre;
    } else {
      ReadAfterPreface(pre, lines[..|lines| - 1]);
      assert (pre + lines)[..|pre + lines| - 1] == pre + lines[..|lines| - 1];
    }
  }

  ghost predicate Extends(f: Fields, g: Fields) { f.Keys <= g.Keys && forall l :: l in f ==> g[l] == f[l] }

  /** The line records no label that f lacks. */
  predicate AddsNothing(line: string, f: Fields) { LabelOf(line, true).None? || LabelOf(line, true).value in f }

  /** A line adds at most its own label, and does so exactly when the label is new. */
  lemma OneLater(f: Fields, g: Fields, last: string)
    requires Extends(f, g)
    ensures var h := AddLine(g, last, true); Extends(f, h) && (h == f <==> g == f && AddsNothing(last, f))
  {
    var h := AddLine(g, last, true);
    assert g.Keys <= h.Keys;
    if h == f {
      assert g.Keys == f.Keys;
    }
  }

  ghost predicate AddNothing(lines: seq<string>, f: Fields) { forall l :: l in lines ==> AddsNothing(l, f) }

  lemma LaterNext(lines: seq<string>, more: seq<string>, last: string)
    requires var f, g := FieldsOf(lines, true), FieldsOf(lines + more, true); Extends(f, g) && (g == f <==> AddNothing(more, f))
    ensures var f, g := FieldsOf(lines, true), FieldsOf(lines + (more + [last]), true);
      Extends(f, g) && (g == f <==> AddNothing(more + [last], f))
  {
    assert lines + (more + [last]) == (lines + more) + [last];
    FieldsConcat(lines + more, last, true);
    OneLater(FieldsOf(lines, true), FieldsOf(lines + more, true), last);
    assert forall l :: l in more + [last] <==> l in more || l == last;
  }

  /** Later lines can only add labels, and add one exactly when they record a new one. */
  lemma {:induction false} LaterLines(lines: seq<string>, more: seq<string>)
    ensures var f, g := FieldsOf(lines, true), FieldsOf(lines + more, true);
      Extends(f, g) && (g == f <==> AddNothing(more, f))
  {
    if more == [] {
      assert lines + more == lines;
    } else {
      var init, last := more[..|more| - 1], more[|more| - 1];
      assert more == init + [last];
      LaterLines(lines, init);
      LaterNext(lines, init, last);
    }
  }

  lemma FieldsWithinLabels(lines: seq<string>)
    ensures FieldsOf(lines, true).Keys <= LABELS
  {
  }

  lemma TitleFacts()
    ensures OneLine(TITLE)
    ensures forall d :: 0 < d < |TITLE| ==> TITLE[d] != TITLE[0]
  {
  }

  /** No title starts inside the block's own text. */
  lemma NoTitleInside(lines: seq<string>, tail: string, p: nat)
    requires lines != [] && Tail(tail)
    requires forall l :: l in lines ==> !Contains(l, TITLE)
    requires p < |"\n" + Join(lines)|
    ensures !Occurs("\n" + Join(lines) + tail, TITLE, p)
  {
    TitleFacts();
    var a := "\n" + Join(lines);
    var t := a + tail;
    if p == 0 {
      assert t[0 + 0] == '\n' != TITLE[0];
    } else if p + |TITLE| <= |a| {
      OccursPrefix(a, tail, TITLE, p);
      OccursShift("\n", Join(lines), TITLE, p - 1);
      if Occurs(Join(lines), TITLE, p - 1) {
        OccursInLine(lines, TITLE, p - 1);
      }
    } else if tail != "" {
      assert t[|a|] == tail[0];
      if p + |TITLE| <= |t| {
        BreakInside(t, TITLE, p, |a|);
      }
    }
  }

  ghost predicate Lines(lines: seq<string>) {
    lines != [] && lines[|lines| - 1] != "" && forall l :: l in lines ==> OneLine(l) && !Contains(l, TITLE)
  }

  lemma LinesAfterPreface(pre: seq<string>, lines: seq<string>)
    requires Lines(lines) && Preface(pre)
    ensures Lines(pre + lines)
  {
  }

  lemma FirstPiece(lines: seq<string>, tail: string)
    requires Lines(lines) && Tail(tail)
    ensures SplitOn("\n" + Join(lines) + tail, TITLE)[0] == "\n" + Join(lines) + SplitOn(tail, TITLE)[0]
  {
    var a := "\n" + Join(lines);
    forall p | 0 <= p < |a| ensures !Occurs(a + tail, TITLE, p) {
      NoTitleInside(lines, tail, p);
    }
    SplitAfterPlain(a, tail, TITLE);
  }

  /** The block of a copy, with the labels that text after it may add. */
  lemma CopyBlock(pre: seq<string>, lines: seq<string>, tail: string)
    requires Lines(lines) && Preface(pre) && Tail(tail)
    ensures BlockOf(SplitOn("\n" + Join(pre + lines) + tail, TITLE)[0]) == FieldsOf(lines + AfterBlock(tail), true)
  {
    LinesAfterPreface(pre, lines);
    FirstPieceLines(pre + lines, tail);
    SkipPreface(pre, lines, AfterBlock(tail));
  }

  lemma SkipPreface(pre: seq<string>, lines: seq<string>, later: seq<string>)
    requires Preface(pre)
    ensures FieldsOf([""] + (pre + lines) + later, true) == FieldsOf(lines + later, true)
  {
    BlankReads(pre);
    assert [""] + (pre + lines) + later == ([""] + pre) + (lines + later);
    ReadAfterPreface([""] + pre, lines + later);
  }

  lemma FirstPieceLines(lines: seq<string>, tail: string)
    requires Lines(lines) && Tail(tail)
    ensures SplitLines(SplitOn("\n" + Join(lines) + tail, TITLE)[0]) == [""] + lines + AfterBlock(tail)
  {
    FirstPiece(lines, tail);
    FirstPieceOfTail(tail);
    BlockLines(lines, SplitOn(tail, TITLE)[0]);
  }

  lemma BlankReads(pre: seq<string>)
    requires Preface(pre)
    ensures FieldsOf([""] + pre, true) == map[]
  {
    NoField("");
    assert OneLine("") && !Contains("", TITLE);
    PrefaceReadsNothing([""] + pre);
  }

  lemma FirstPieceOfTail(tail: string)
    requires Tail(tail)
    ensures SplitOn(tail, TITLE)[0] == "" <==> tail == ""
    ensures tail != "" ==> SplitOn(tail, TITLE)[0][0] == '\n'
  {
    if tail != "" {
      assert tail[0 + 0] == '\n' != TITLE[0];
      assert !Occurs(tail, TITLE, 0);
    }
  }

  lemma BlockLines(lines: seq<string>, piece: string)
    requires Lines(lines)
    requires piece == "" || piece[0] == '\n'
    ensures SplitLines("\n" + Join(lines) + piece) == [""] + lines + (if piece == "" then [] else SplitLines(piece[1..]))
  {
    var head := "\n" + Join(lines);
    if piece == "" {
      SplitBlockEnd(lines);
      assert head + piece == head;
      assert [""] + lines + [] == [""] + lines;
    } else {
      SplitBlock(lines, piece[1..]);
      assert piece == "\n" + piece[1..];
    }
  }

  predicate Solid(line: string) { line != "" }

  /** Extraction may drop the empty lines that separate the history, or bring some of its own. */
  ghost predicate SameButBlank(seen: seq<string>, lines: seq<string>) {
    seen != [] && Solid(seen[|seen| - 1]) && Filter(seen, Solid) == Filter(lines, Solid)
  }

  lemma {:induction false} BlanksReadNothing(lines: seq<string>, trim: bool)
    ensures FieldsOf(Filter(lines, Solid), trim) == FieldsOf(lines, trim)
  {
    if lines != [] {
      var init, last := lines[..|lines| - 1], lines[|lines| - 1];
      BlanksReadNothing(init, trim);
      assert lines == init + [last];
      if Solid(last) {
        FieldsConcat(Filter(init, Solid), last, trim);
      } else {
        SkipNext(init, last, trim);
        assert Filter(lines, Solid) == Filter(init, Solid);
      }
    }
  }

  lemma SeenReads(seen: seq<string>, lines: seq<string>, trim: bool)
    requires SameButBlank(seen, lines)
    ensures FieldsOf(seen, trim) == FieldsOf(lines, trim)
  {
    BlanksReadNothing(seen, trim);
    BlanksReadNothing(lines, trim);
  }

  lemma SeenLines(seen: seq<string>, lines: seq<string>)
    requires SameButBlank(seen, lines) && forall l :: l in lines ==> OneLine(l) && !Contains(l, TITLE)
    ensures Lines(seen)
  {
    FilterMembers(seen, Solid);
    FilterMembers(lines, Solid);
    forall l | l in seen ensures OneLine(l) && !Contains(l, TITLE) {
      if Solid(l) {
        assert l in Filter(seen, Solid);
      }
    }
  }

  /** The text of an issued copy: anything that claims no such download before the title, the
      title, the block, and whatever follows. */
  ghost predicate CopyText(text: string, body: string, pre: seq<string>, seen: seq<string>, lines: seq<string>, tail: string, id: string) {
    && text == body + TITLE + ("\n" + Join(pre + seen) + tail)
    && SameButBlank(seen, lines) && Preface(pre) && Tail(tail)
    && FindBlock(BlocksOf(SplitOn(body, TITLE)[1..]), id) == None
  }

  lemma {:induction false} FindPast(a: seq<Fields>, b: seq<Fields>, id: string)
    requires FindBlock(a, id) == None
    ensures FindBlock(a + b, id) == FindBlock(b, id)
  {
    if a == [] {
      assert a + b == b;
    } else {
      FindPast(a[1..], b, id);
      assert (a + b)[1..] == a[1..] + b;
    }
  }

  /** The first block that claims the download is the copy's own. */
  lemma BlockFound(body: string, pre: seq<string>, lines: seq<string>, tail: string, id: string)
    requires Lines(lines) && Preface(pre) && Tail(tail)
    requires FindBlock(BlocksOf(SplitOn(body, TITLE)[1..]), id) == None
    requires Get(FieldsOf(lines, true), "Download ID") == Some(id)
    ensures FindBlock(BlocksOf(SplitOn(body + TITLE + ("\n" + Join(pre + lines) + tail), TITLE)[1..]), id)
         == Some(FieldsOf(lines + AfterBlock(tail), true))
  {
    var own := "\n" + Join(pre + lines) + tail;
    TitleFacts();
    SplitAround(body, own, TITLE);
    CopyBlock(pre, lines, tail);
    LaterLines(lines, AfterBlock(tail));
    PickBlock(SplitOn(body, TITLE), SplitOn(own, TITLE), id);
  }

  lemma PickBlock(a: seq<string>, b: seq<string>, id: string)
    requires a != [] && b != []
    requires FindBlock(BlocksOf(a[1..]), id) == None
    requires Get(BlockOf(b[0]), "Download ID") == Some(id)
    ensures FindBlock(BlocksOf((a + b)[1..]), id) == Some(BlockOf(b[0]))
  {
    assert (a + b)[1..] == a[1..] + b;
    BlocksConcat(a[1..], b);
    FindPast(BlocksOf(a[1..]), BlocksOf(b), id);
    FindHead(BlocksOf(b), id);
  }

  lemma BlocksConcat(a: seq<string>, b: seq<string>)
    ensures BlocksOf(a + b) == BlocksOf(a) + BlocksOf(b)
  {
  }

  lemma FindHead(bs: seq<Fields>, id: string)
    requires bs != [] && Get(bs[0], "Download ID") == Some(id)
    ensures FindBlock(bs, id) == Some(bs[0])
  {
  }

  // ---------------------------------------------------------------- the verdict on any file

  /** The first ": " of the line is at i. */
  ghost predicate CutAt(line: string, i: int) {
    Occurs(line, ": ", i) && forall h :: 0 <= h < i ==> !Occurs(line, ": ", h)
  }

  lemma FieldCut(line: string, i: int)
    ensures CutAt(line, i) <==> Field(line).Some? && IndexOf(line, ": ") == Some(i) && Field(line) == Some((line[..i], line[i + 2..]))
  {
    if CutAt(line, i) {
      IndexOfIs(line, ": ", i);
    }
  }

  /** A line records a label exactly if that is one of the labels and stands before the first ": ". Only a returned
      copy is read with the spaces around it taken off. */
  lemma LineExact(line: string, trim: bool, tag: string)
    ensures LabelOf(line, trim) == Some(tag) <==>
      tag in LABELS && exists i :: CutAt(line, i) && tag == if trim then Strip(line[..i]) else line[..i]
  {
    match IndexOf(line, ": ")
    case Some(i) => FieldCut(line, i);
    case None =>
      if i :| CutAt(line, i) {
        FieldCut(line, i);
      }
  }

  /** The value a line records is what stands after the first ": ", without the spaces around it. */
  lemma ValueExact(line: string, i: nat)
    requires CutAt(line, i)
    ensures Field(line).Some? && Strip(Field(line).value.1) == Strip(line[i + 2..])
  {
    FieldCut(line, i);
  }

  /** Line k is the first to record the label, and records this value. */
  ghost predicate ReadsAt(lines: seq<string>, trim: bool, tag: string, value: string, k: int) {
    && 0 <= k < |lines| && LabelOf(lines[k], trim) == Some(tag) && value == Strip(Field(lines[k]).value.1)
    && forall h :: 0 <= h < k ==> LabelOf(lines[h], trim) != Some(tag)
  }

  ghost predicate Reads(lines: seq<string>, trim: bool, tag: string, value: string) {
    exists k :: ReadsAt(lines, trim, tag, value, k)
  }

  lemma ReadsNext(lines: seq<string>, last: string, trim: bool, tag: string, value: string)
    ensures Reads(lines + [last], trim, tag, value) <==>
      || Reads(lines, trim, tag, value)
      || (LabelOf(last, trim) == Some(tag) && value == Strip(Field(last).value.1)
          && forall h :: 0 <= h < |lines| ==> LabelOf(lines[h], trim) != Some(tag))
  {
    var more := lines + [last];
    if k :| ReadsAt(lines, trim, tag, value, k) {
      assert ReadsAt(more, trim, tag, value, k);
    }
    if k :| ReadsAt(more, trim, tag, value, k) {
      if k < |lines| {
        assert forall h :: 0 <= h < k ==> lines[h] == more[h];
        assert ReadsAt(lines, trim, tag, value, k);
      } else {
        assert forall h :: 0 <= h < |lines| ==> lines[h] == more[h];
      }
    }
    if LabelOf(last, trim) == Some(tag) && value == Strip(Field(last).value.1)
       && forall h :: 0 <= h < |lines| ==> LabelOf(lines[h], trim) != Some(tag) {
      assert ReadsAt(more, trim, tag, value, |lines|);
    }
  }

  lemma {:induction false} NoneReads(lines: seq<string>, trim: bool, tag: string)
    ensures tag in FieldsOf(lines, trim) <==> exists h :: 0 <= h < |lines| && LabelOf(lines[h], trim) == Some(tag)
  {
    if lines != [] {
      var init, last := lines[..|lines| - 1], lines[|lines| - 1];
      NoneReads(init, trim, tag);
      assert forall h :: 0 <= h < |init| ==> lines[h] == init[h];
      assert lines[|init|] == last;
    }
  }

  /** The dictionary has a value exactly when the first line with that label records it. */
  lemma {:induction false} FieldsExact(lines: seq<string>, trim: bool, tag: string, value: string)
    ensures Get(FieldsOf(lines, trim), tag) == Some(value) <==> Reads(lines, trim, tag, value)
  {
    if lines != [] {
      var init, last := lines[..|lines| - 1], lines[|lines| - 1];
      FieldsExact(init, trim, tag, value);
      NoneReads(init, trim, tag);
      ReadsNext(init, last, trim, tag, value);
      assert lines == init + [last];
    }
  }

  /** The text after each title. */
  function Chunks(text: string): seq<string> { SplitOn(text, TITLE)[1..] }

  ghost predicate Claims(chunk: string, id: string) { Reads(SplitLines(chunk), true, "Download ID", id) }

  /** The first chunk that records this Download ID. */
  ghost predicate OwnChunk(text: string, id: string, i: int) {
    0 <= i < |Chunks(text)| && Claims(Chunks(text)[i], id) && forall h :: 0 <= h < i ==> !Claims(Chunks(text)[h], id)
  }

  ghost predicate Labelled(chunk: string, tag: string) { exists v :: Reads(SplitLines(chunk), true, tag, v) }

  /** Whatever the chunk has under the label is what the record has. */
  ghost predicate AsRecorded(chunk: string, record: string, tag: string) {
    forall v :: Reads(SplitLines(chunk), true, tag, v) ==> Reads(SplitLines(record), false, tag, v)
  }

  /** All required labels are there, and every label of the chunk has the recorded value. */
  ghost predicate Agrees(chunk: string, record: string) {
    (forall tag :: tag in REQUIRED ==> Labelled(chunk, tag)) && forall tag :: AsRecorded(chunk, record, tag)
  }

  lemma {:induction false} FindExact(chunks: seq<string>, id: string)
    ensures FindBlock(BlocksOf(chunks), id) == None <==> forall h :: 0 <= h < |chunks| ==> !Claims(chunks[h], id)
    ensures forall i :: 0 <= i < |chunks| && Claims(chunks[i], id) && (forall h :: 0 <= h < i ==> !Claims(chunks[h], id)) ==>
      FindBlock(BlocksOf(chunks), id) == Some(BlockOf(chunks[i]))
  {
    if chunks != [] {
      FieldsExact(SplitLines(chunks[0]), true, "Download ID", id);
      assert BlocksOf(chunks)[1..] == BlocksOf(chunks[1..]);
      FindExact(chunks[1..], id);
      assert forall h :: 1 <= h < |chunks| ==> chunks[h] == chunks[1..][h - 1];
      forall i | 0 <= i < |chunks| && Claims(chunks[i], id) && (forall h :: 0 <= h < i ==> !Claims(chunks[h], id))
        ensures FindBlock(BlocksOf(chunks), id) == Some(BlockOf(chunks[i]))
      {
        if i > 0 {
          assert forall h :: 0 <= h < i - 1 ==> chunks[1..][h] == chunks[h + 1];
        }
      }
    }
  }

  lemma HasLabel(chunk: string, tag: string)
    ensures Labelled(chunk, tag) <==> tag in BlockOf(chunk)
  {
    if tag in BlockOf(chunk) {
      FieldsExact(SplitLines(chunk), true, tag, BlockOf(chunk)[tag]);
    }
    if v :| Reads(SplitLines(chunk), true, tag, v) {
      FieldsExact(SplitLines(chunk), true, tag, v);
      assert Get(BlockOf(chunk), tag) == Some(v);
    }
  }

  predicate SameValue(block: Fields, recorded: Fields, tag: string) { tag in block ==> Get(recorded, tag) == Some(block[tag]) }

  lemma HasValue(chunk: string, record: string, tag: string)
    ensures AsRecorded(chunk, record, tag) <==> SameValue(BlockOf(chunk), FieldsOf(SplitLines(record), false), tag)
  {
    forall v
      ensures Reads(SplitLines(chunk), true, tag, v) <==> Get(BlockOf(chunk), tag) == Some(v)
      ensures Reads(SplitLines(record), false, tag, v) <==> Get(FieldsOf(SplitLines(record), false), tag) == Some(v)
    {
      FieldsExact(SplitLines(chunk), true, tag, v);
      FieldsExact(SplitLines(record), false, tag, v);
    }
    if tag in BlockOf(chunk) {
      assert Get(BlockOf(chunk), tag) == Some(BlockOf(chunk)[tag]);
    }
  }

  /** The block has all required labels, and nothing that differs from the record. */
  ghost predicate Matching(block: Fields, recorded: Fields) {
    REQUIRED <= block.Keys && forall l :: l in block ==> Get(recorded, l) == Some(block[l])
  }

  lemma AgreeingMatches(chunk: string, record: string)
    requires Agrees(chunk, record)
    ensures Matching(BlockOf(chunk), FieldsOf(SplitLines(record), false))
  {
    var block, recorded := BlockOf(chunk), FieldsOf(SplitLines(record), false);
    forall tag | tag in REQUIRED
      ensures tag in block
    {
      assert Labelled(chunk, tag);
      HasLabel(chunk, tag);
    }
    forall l | l in block
      ensures Get(recorded, l) == Some(block[l])
    {
      assert AsRecorded(chunk, record, l);
      HasValue(chunk, record, l);
      assert SameValue(block, recorded, l);
    }
  }

  lemma MatchingAgrees(chunk: string, record: string)
    requires Matching(BlockOf(chunk), FieldsOf(SplitLines(record), false))
    ensures Agrees(chunk, record)
  {
    var block, recorded := BlockOf(chunk), FieldsOf(SplitLines(record), false);
    forall tag | tag in REQUIRED
      ensures Labelled(chunk, tag)
    {
      HasLabel(chunk, tag);
    }
    forall tag
      ensures AsRecorded(chunk, record, tag)
    {
      assert SameValue(block, recorded, tag);
      HasValue(chunk, record, tag);
    }
  }

  /** The verdict on any returned file: it passes if and only if its QR reference was read and, where it
      has text, the first chunk after a title that records this download agrees with the record. */
  lemma CheckExact(refs: set<string>, text: Option<string>, id: string, record: string)
    ensures CheckCopy(refs, text, id, record).ok <==>
      && id in refs
      && (text == None || exists i :: OwnChunk(text.value, id, i) && Agrees(Chunks(text.value)[i], record))
  {
    if id in refs && text.Some? {
      FindExact(Chunks(text.value), id);
      if FindBlock(BlocksOf(Chunks(text.value)), id).Some? {
        var i := FirstClaim(Chunks(text.value), id);
        var chunk := Chunks(text.value)[i];
        assert OwnChunk(text.value, id, i) && forall k :: OwnChunk(text.value, id, k) ==> k == i;
        FieldsWithinLabels(SplitLines(chunk));
        Compared(refs, text.value, id, record, BlockOf(chunk));
        if Agrees(chunk, record) {
          AgreeingMatches(chunk, record);
        } else if Matching(BlockOf(chunk), FieldsOf(SplitLines(record), false)) {
          MatchingAgrees(chunk, record);
        }
      }
    }
  }

  lemma {:induction false} FirstClaim(chunks: seq<string>, id: string) returns (i: nat)
    requires exists h :: 0 <= h < |chunks| && Claims(chunks[h], id)
    ensures i < |chunks| && Claims(chunks[i], id) && forall h :: 0 <= h < i ==> !Claims(chunks[h], id)
  {
    i := 0;
    while !Claims(chunks[i], id)
      invariant i < |chunks| && forall h :: 0 <= h < i ==> !Claims(chunks[h], id)
      decreases |chunks| - i
    {
      i := i + 1;
    }
  }

  /** So a file without its QR reference is refused, and so is one with no block for this download, in
      particular one from which the title was taken out, whatever the record says. */
  lemma RemovedRefused(refs: set<string>, text: string, id: string, record: string)
    ensures id !in refs ==> !CheckCopy(refs, Some(text), id, record).ok
    ensures (forall i :: 0 <= i < |Chunks(text)| ==> !Claims(Chunks(text)[i], id)) ==> !CheckCopy(refs, Some(text), id, record).ok
    ensures !Contains(text, TITLE) ==> !CheckCopy(refs, Some(text), id, record).ok
  {
    CheckExact(refs, Some(text), id, record);
    if !Contains(text, TITLE) {
      IndexNone(text, TITLE);
      SplitNone(text, TITLE);
    }
  }

  /** The comparison of the found block with the record. */
  lemma Compared(refs: set<string>, text: string, id: string, recordedText: string, block: Fields)
    requires id in refs && FindBlock(BlocksOf(SplitOn(text, TITLE)[1..]), id) == Some(block)
    requires block.Keys <= LABELS
    ensures var recorded := FieldsOf(SplitLines(recordedText), false);
      CheckCopy(refs, Some(text), id, recordedText).ok <==>
        (REQUIRED <= block.Keys && forall l :: l in block ==> Get(recorded, l) == Some(block[l]))
  {
    var recorded := FieldsOf(SplitLines(recordedText), false);
    var differing := set l | l in LABELS && l in block && Get(recorded, l) != Some(block[l]);
    var missing := set l | l in REQUIRED && l !in block;
    if differing + missing == {} {
      forall l | l in block ensures Get(recorded, l) == Some(block[l]) {
        assert l !in differing;
      }
      forall l | l in REQUIRED ensures l in block {
        assert l !in missing;
      }
    }
  }

  /** What a DOWNLOAD copy prints: single lines, none with the title in it, and the id as it is
      recorded. */
  ghost predicate Issuable(c: Context, fmt: Formats, id: string) {
    && Printing(c) && c.kind == DOWNLOAD && c.actionId == id && Strip(Clean(id, fmt)) == id
    && forall l :: l in AllLines(c, fmt) ==> !Contains(l, TITLE)
  }

  lemma SeenBlock(c: Context, fmt: Formats, seen: seq<string>, id: string)
    requires Issuable(c, fmt, id) && SameButBlank(seen, AllLines(c, fmt))
    ensures Lines(seen) && FieldsOf(seen, true) == Printed(c, fmt)
    ensures Get(FieldsOf(seen, true), "Download ID") == Some(id)
  {
    LinesOneLine(c, fmt);
    SeenLines(seen, AllLines(c, fmt));
    SeenReads(seen, AllLines(c, fmt), true);
    AllRead(c, fmt, true);
    assert IdLabel(c.kind) == Tags(c)[4] == "Download ID";
  }

  /** An unmodified DOWNLOAD copy whose QR code was read is accepted if and only if no line after
      its block (up to a further title) records a label that the block does not have. Whatever the
      names and the rest of the document say, and whether or not the extraction kept the empty
      lines, nothing else can refuse it. */
  lemma UnmodifiedCopyAccepted(refs: set<string>, text: string, body: string, pre: seq<string>, seen: seq<string>,
                               c: Context, fmt: Formats, tail: string, id: string)
    requires Issuable(c, fmt, id) && id in refs
    requires CopyText(text, body, pre, seen, AllLines(c, fmt), tail, id)
    ensures CheckCopy(refs, Some(text), id, Join(AllLines(c, fmt))).ok <==> !AddsLabel(tail, Printed(c, fmt))
  {
    SeenBlock(c, fmt, seen, id);
    RecordRoundTrip(c, fmt);
    BlockFound(body, pre, seen, tail, id);
    LaterLines(seen, AfterBlock(tail));
    FieldsWithinLabels(seen + AfterBlock(tail));
    var recorded, block := Printed(c, fmt), FieldsOf(seen + AfterBlock(tail), true);
    Compared(refs, text, id, Join(AllLines(c, fmt)), block);
    RequiredPrinted(c, fmt);
    SameFields(recorded, block);
  }

  lemma RequiredPrinted(c: Context, fmt: Formats)
    requires c.kind == DOWNLOAD
    ensures REQUIRED <= Printed(c, fmt).Keys
  {
    assert Tags(c)[0] == "Downloaded by" && Tags(c)[1] == "Wallet" && Tags(c)[4] == "Download ID";
  }

  /** So an unmodified copy can be refused: one line "Viewed by: ..." below the block (an inline
      text cell of a later worksheet, say) is enough, whatever the copy is. */
  lemma LaterLabelRefuses(refs: set<string>, c: Context, fmt: Formats, name: string, id: string)
    requires Issuable(c, fmt, id) && id in refs
    requires OneLine(name) && !Contains("\n" + Line("Viewed by", name), TITLE)
    ensures var text := TITLE + ("\n" + Join(AllLines(c, fmt)) + ("\n" + Line("Viewed by", name)));
      !CheckCopy(refs, Some(text), id, Join(AllLines(c, fmt))).ok
  {
    var lines, tail := AllLines(c, fmt), "\n" + Line("Viewed by", name);
    var text := TITLE + ("\n" + Join(lines) + tail);
    LinesOneLine(c, fmt);
    assert [] + lines == lines;
    assert "" + TITLE + ("\n" + Join([] + lines) + tail) == text;
    NothingBefore(id);
    assert CopyText(text, "", [], lines, lines, tail, id);
    LabelAdded(c, fmt, name);
    UnmodifiedCopyAccepted(refs, text, "", [], lines, c, fmt, tail, id);
  }

  lemma NothingBefore(id: string)
    ensures FindBlock(BlocksOf(SplitOn("", TITLE)[1..]), id) == None
  {
    IndexNone("", TITLE);
    SplitNone("", TITLE);
  }

  lemma LabelAdded(c: Context, fmt: Formats, name: string)
    requires c.kind == DOWNLOAD && OneLine(name) && !Contains("\n" + Line("Viewed by", name), TITLE)
    ensures AddsLabel("\n" + Line("Viewed by", name), Printed(c, fmt))
  {
    NotViewed(c);
    ViewedLine(name);
    LineAdds(Line("Viewed by", name), Printed(c, fmt));
  }

  lemma ViewedLine(name: string)
    requires OneLine(name)
    ensures OneLine(Line("Viewed by", name)) && LabelOf(Line("Viewed by", name), true) == Some("Viewed by")
  {
    assert Bare("Viewed by") && OneLine("Viewed by");
    ReadLine(map[], "Viewed by", name, true);
    LineOneLine("Viewed by", name);
  }

  lemma NotViewed(c: Context)
    requires c.kind == DOWNLOAD
    ensures "Viewed by" !in Tags(c)
  {
  }

  lemma LineAdds(line: string, block: Fields)
    requires line != "" && OneLine(line) && !Contains("\n" + line, TITLE)
    requires !AddsNothing(line, block)
    ensures AddsLabel("\n" + line, block)
  {
    var tail := "\n" + line;
    IndexNone(tail, TITLE);
    SplitNone(tail, TITLE);
    assert tail[1..] == line;
    SplitLast(line);
    assert line in AfterBlock(tail);
  }

  /** Download 7 of an unnamed user, and the one name that gives the copy away. */
  const SAMPLE := Context(DOWNLOAD, None, "0x1", "::1", "7", "today", None, "", [])
  const PLAIN: Formats := c => false

  lemma SampleValues()
    ensures Clean("7", PLAIN) == "7" && CleanLine("::1", 64, PLAIN) == "::1" && ShortWallet("0x1") == "0x1"
  {
    CleanWord("7", 120, PLAIN);
    CleanWord("::1", 64, PLAIN);
    StripTrimmed("0x1");
  }

  lemma SampleLines(i: nat)
    requires i < |AllLines(SAMPLE, PLAIN)|
    ensures |AllLines(SAMPLE, PLAIN)[i]| < |TITLE|
  {
    SampleValues();
    assert HistoryLines(SAMPLE.history, PLAIN) == [];
    if i > 0 {
      PrimaryAt(SAMPLE, PLAIN, i - 1);
    }
  }

  lemma SampleIssuable()
    ensures Issuable(SAMPLE, PLAIN, "7")
  {
    SampleValues();
    StripTrimmed("7");
    var lines := AllLines(SAMPLE, PLAIN);
    forall i | 0 <= i < |lines| ensures !Contains(lines[i], TITLE) {
      SampleLines(i);
    }
  }

  /** One such copy in full: its own block, then a line "Viewed by: me". */
  lemma RefusedCopy()
    ensures var recorded := Join(AllLines(SAMPLE, PLAIN));
      !CheckCopy({"7"}, Some(TITLE + ("\n" + recorded + ("\n" + Line("Viewed by", "me")))), "7", recorded).ok
  {
    SampleIssuable();
    LaterLabelRefuses({"7"}, SAMPLE, PLAIN, "me", "7");
  }

  lemma SameFields(recorded: Fields, block: Fields)
    requires Extends(recorded, block)
    ensures (forall l :: l in block ==> Get(recorded, l) == Some(block[l])) <==> block == recorded
  {
    if forall l :: l in block ==> Get(recorded, l) == Some(block[l]) {
      assert forall l :: l in block ==> l in recorded;
    }
  }

  // ---------------------------------------------------------------- what a copy says

  /** A name is printed cleaned; a name of which nothing is left, or none, as Unnamed. */
  lemma NamePrinted(name: Option<string>, fmt: Formats)
    ensures name.Some? && CleanLine(name.value, 120, fmt) != "" ==> NameOr(name, fmt) == CleanLine(name.value, 120, fmt)
    ensures name.None? || CleanLine(name.value, 120, fmt) == "" ==> NameOr(name, fmt) == "Unnamed"
  {
  }

  predicate Shortens(t: string, r: string)
    requires |t| > 12
  {
    |r| == 13 && r[..6] == t[..6] && r[6..9] == "..." && r[9..] == t[|t| - 4..]
  }

  /** A short wallet is printed as it is; of a long one the first six and the last four characters, so two long
      ones look alike exactly if they agree in those. */
  lemma WalletPrinted(a: string, b: string)
    ensures a != "" && |Strip(a)| <= 12 ==> ShortWallet(a) == Strip(a)
    ensures |Strip(a)| > 12 ==> Shortens(Strip(a), ShortWallet(a))
    ensures |Strip(a)| > 12 && |Strip(b)| > 12 ==>
      (ShortWallet(a) == ShortWallet(b) <==>
        Strip(a)[..6] == Strip(b)[..6] && Strip(a)[|Strip(a)| - 4..] == Strip(b)[|Strip(b)| - 4..])
    ensures a == "" ==> ShortWallet(a) == "unknown"
  {
    ShortCut(a);
    ShortCut(b);
  }

  lemma ShortCut(a: string)
    ensures |Strip(a)| > 12 ==> a != "" && Shortens(Strip(a), ShortWallet(a))
    ensures |Strip(a)| > 12 ==> ShortWallet(a) == ShortWallet(a)[..6] + "..." + ShortWallet(a)[9..]
  {
    if |Strip(a)| > 12 {
      var t := Strip(a);
      assert ShortWallet(a) == t[..6] + "..." + t[|t| - 4..];
    }
  }

  /** The record of a view names the viewer and the view; that of a download names who downloaded, the download, and
      the owner where there is one. Nothing else is recorded. */
  lemma KindsPrinted(c: Context, fmt: Formats)
    requires Printing(c)
    ensures var f := FieldsOf(SplitLines(Join(AllLines(c, fmt))), false);
      && f.Keys == {"Wallet", "IP", "Date"}
           + (if c.kind == VIEW then {"Viewed by", "View ID"} else {"Downloaded by", "Download ID"})
           + (if c.kind == DOWNLOAD && c.ownerWallet != "" then {"Owner"} else {})
  {
    RecordRoundTrip(c, fmt);
    TagsAre(c);
  }

  lemma TagsAre(c: Context)
    ensures (set t | t in Tags(c)) == {"Wallet", "IP", "Date"}
           + (if c.kind == VIEW then {"Viewed by", "View ID"} else {"Downloaded by", "Download ID"})
           + (if c.kind == DOWNLOAD && c.ownerWallet != "" then {"Owner"} else {})
  {
  }
}
