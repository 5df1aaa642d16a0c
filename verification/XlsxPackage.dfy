/** The removable layers of an XLSX copy: a header and footer on every sheet, a control sheet with
    its drawing and QR image, and a hidden custom property. A part name is the list of its
    segments; an XML part is the list of the elements the code looks at. */
module XlsxPackage {
  import opened Prelude
  import PdfLayers

  // ---------------------------------------------------------------- part names

  /** One segment of a part name. RELS_FILE(s) is s followed by ".rels"; CONTROL_XML(n) and QR_PNG(n)
      are the file names the watermark numbers; TEXT is any other text. */
  datatype Segment =
    | XL | WORKSHEETS | DRAWINGS | MEDIA | DOC_PROPS | RELS_DIR | UP | HERE
    | CONTENT_TYPES | WORKBOOK_XML | SHARED_STRINGS_XML | CUSTOM_XML
    | CONTROL_XML(n: nat) | QR_PNG(n: nat) | RELS_FILE(of: Segment) | TEXT(text: string)

  type Path = seq<Segment>

  const TYPES: Path := [CONTENT_TYPES]
  const WORKBOOK: Path := [XL, WORKBOOK_XML]
  const WORKBOOK_RELS: Path := [XL, RELS_DIR, RELS_FILE(WORKBOOK_XML)]
  const SHARED: Path := [XL, SHARED_STRINGS_XML]
  const CUSTOM: Path := [DOC_PROPS, CUSTOM_XML]
  const ROOT_RELS: Path := [RELS_DIR, RELS_FILE(TEXT(""))]

  function Control(n: nat): Path { [XL, WORKSHEETS, CONTROL_XML(n)] }
  function ControlRels(n: nat): Path { [XL, WORKSHEETS, RELS_DIR, RELS_FILE(CONTROL_XML(n))] }
  function Drawing(n: nat): Path { [XL, DRAWINGS, CONTROL_XML(n)] }
  function DrawingRels(n: nat): Path { [XL, DRAWINGS, RELS_DIR, RELS_FILE(CONTROL_XML(n))] }
  function Qr(n: nat): Path { [XL, MEDIA, QR_PNG(n)] }

  /** The five parts a watermark adds. */
  function Added(n: nat): set<Path> { {Control(n), ControlRels(n), Drawing(n), DrawingRels(n), Qr(n)} }

  /** The spelling of a numbered file name: different numbers never share one. */
  lemma ControlNamesDiffer(i: nat, j: nat, stem: string, extension: string)
    requires stem + PdfLayers.Decimal(i) + extension == stem + PdfLayers.Decimal(j) + extension
    ensures i == j
  {
    var a, b := PdfLayers.Decimal(i), PdfLayers.Decimal(j);
    assert (stem + a + extension)[|stem|..|stem| + |a|] == a;
    assert (stem + b + extension)[|stem|..|stem| + |b|] == b;
    PdfLayers.DecimalInjective(i, j);
  }

  datatype Target = Target(absolute: bool, path: Path)

  function RelsPath(part: Path): Path {
    if part == [] then part else part[..|part| - 1] + [RELS_DIR, RELS_FILE(part[|part| - 1])]
  }

  /** Follow a relative target from a directory: ".." climbs, but not above the root. */
  function Walk(dir: Path, steps: Path): Path
    decreases |steps|
  {
    if steps == [] then dir else
    Walk(if steps[0] == UP then (if dir == [] then [] else dir[..|dir| - 1])
         else if steps[0] == HERE then dir else dir + [steps[0]], steps[1..])
  }

  function Resolve(base: Path, target: Target): Path {
    if target.absolute || base == [] then target.path else Walk(base[..|base| - 1], target.path)
  }

  // ---------------------------------------------------------------- parts

  datatype Tag =
    | ROW_BREAKS | COL_BREAKS | CUSTOM_PROPERTIES | CELL_WATCHES | IGNORED_ERRORS | SMART_TAGS | DRAWING
    | LEGACY_DRAWING | LEGACY_DRAWING_HF | DRAWING_HF | PICTURE | OLE_OBJECTS | CONTROLS | WEB_PUBLISH_ITEMS
    | TABLE_PARTS | EXT_LST | OtherTag(name: string)

  datatype Cell = Inline(text: string) | SharedText(index: Option<nat>)

  /** A child of a worksheet's root. */
  datatype Node =
    | HeaderFooter(head: Option<string>, foot: Option<string>, raw: string)
    | Child(tag: Tag, cells: seq<Cell>, raw: string)
    | Comment(raw: string)

  datatype RelType = WORKSHEET_REL | DRAWING_REL | IMAGE_REL | CUSTOM_REL | OtherRel(name: string)

  /** An element of the workbook, of a relationship part, of the content types or of the custom
      properties; slashes counts those a PartName starts with. */
  datatype Entry =
    | SheetEntry(name: string, sheetId: nat, rid: string)
    | DefinedName(name: string, local: Option<nat>)
    | Rel(id: string, kind: RelType, target: Target)
    | Default(extension: string, isPng: bool)
    | Override(slashes: nat, part: Path, contentType: string)
    | Property(name: string, pid: nat, value: string)

  datatype Part =
    | Sheet(kids: seq<Node>)
    | Book(sheets: seq<Entry>, defined: Option<seq<Entry>>)
    | Xml(entries: seq<Entry>)
    | Strings(items: seq<string>)
    | Blob(bytes: string)

  datatype Package = Package(names: seq<Path>, parts: map<Path, Part>)

  ghost predicate Valid(p: Package) {
    && (forall q :: q in p.names <==> q in p.parts)
    && (forall i, j :: 0 <= i < j < |p.names| ==> p.names[i] != p.names[j])
  }

  // ---------------------------------------------------------------- removing elements

  datatype Test =
    | SheetNamed(name: string) | RelWithId(id: string) | OverrideOf(gone: set<Path>)
    | PropertyNamed(name: string) | CustomOverride | CustomRelation

  predicate Hits(t: Test, e: Entry) {
    match t
    case SheetNamed(name) => e.SheetEntry? && e.name == name
    case RelWithId(id) => e.Rel? && e.id == id
    case OverrideOf(gone) => e.Override? && e.part in gone
    case PropertyNamed(name) => e.Property? && e.name == name
    case CustomOverride => e.Override? && e.slashes == 1 && e.part == CUSTOM
    case CustomRelation => e.Rel? && e.kind == CUSTOM_REL && e.target.path == CUSTOM
  }

  function Without(s: seq<Entry>, t: Test): seq<Entry> {
    if s == [] then [] else
    Without(s[..|s| - 1], t) + if Hits(t, s[|s| - 1]) then [] else [s[|s| - 1]]
  }

  predicate NoHit(s: seq<Entry>, t: Test) { forall i :: 0 <= i < |s| ==> !Hits(t, s[i]) }

  lemma {:induction false} WithoutNone(s: seq<Entry>, t: Test)
    requires NoHit(s, t)
    ensures Without(s, t) == s
  {
    if s != [] {
      WithoutNone(s[..|s| - 1], t);
    }
  }

  /** Elements appended for the copy come off again and leave the rest as it was. */
  lemma {:induction false} WithoutAppended(s: seq<Entry>, extra: seq<Entry>, t: Test)
    requires NoHit(s, t) && forall i :: 0 <= i < |extra| ==> Hits(t, extra[i])
    ensures Without(s + extra, t) == s
  {
    if extra == [] {
      assert s + extra == s;
      WithoutNone(s, t);
    } else {
      assert (s + extra)[..|s + extra| - 1] == s + extra[..|extra| - 1];
      WithoutAppended(s, extra[..|extra| - 1], t);
    }
  }

  // ---------------------------------------------------------------- headers and footers

  /** Worksheet children that section 18.3.1.99 of ECMA-376 Part 1 places after headerFooter. */
  predicate AfterHf(c: Node) { c.Child? && !c.tag.OtherTag? }

  function InsertAt(kids: seq<Node>): (i: nat)
    ensures i <= |kids| && (i < |kids| ==> AfterHf(kids[i])) && forall j :: 0 <= j < i ==> !AfterHf(kids[j])
  {
    if kids == [] || AfterHf(kids[0]) then 0 else 1 + InsertAt(kids[1..])
  }

  function Insert(kids: seq<Node>, hf: Node): seq<Node> {
    kids[..InsertAt(kids)] + [hf] + kids[InsertAt(kids)..]
  }

  function FirstHfAt(kids: seq<Node>): (i: nat)
    ensures i <= |kids| && (i < |kids| ==> kids[i].HeaderFooter?) && forall j :: 0 <= j < i ==> !kids[j].HeaderFooter?
  {
    if kids == [] || kids[0].HeaderFooter? then 0 else 1 + FirstHfAt(kids[1..])
  }

  function FirstHf(kids: seq<Node>): Option<Node> {
    if FirstHfAt(kids) < |kids| then Some(kids[FirstHfAt(kids)]) else None
  }

  ghost predicate NoHf(kids: seq<Node>) { forall i :: 0 <= i < |kids| ==> !kids[i].HeaderFooter? }

  function WithoutHf(kids: seq<Node>): (r: seq<Node>)
    ensures NoHf(r)
  {
    if kids == [] then [] else
    WithoutHf(kids[..|kids| - 1]) + if kids[|kids| - 1].HeaderFooter? then [] else [kids[|kids| - 1]]
  }

  function WithoutFirstHf(kids: seq<Node>): seq<Node> {
    var i := FirstHfAt(kids);
    if i < |kids| then kids[..i] + kids[i + 1..] else kids
  }

  function SetHf(kids: seq<Node>, header: string, footer: string): seq<Node> {
    Insert(WithoutHf(kids), HeaderFooter(Some(header), Some(footer), ""))
  }

  /** Take the first headerFooter off, and put back what the sheet had. */
  function RestoreHf(kids: seq<Node>, original: Option<Node>): seq<Node> {
    match original case None => WithoutFirstHf(kids) case Some(hf) => Insert(WithoutFirstHf(kids), hf)
  }

  predicate HfIs(kids: seq<Node>, header: string, footer: string) {
    var hf := FirstHf(kids);
    hf.Some? && hf.value.HeaderFooter? && hf.value.head == Some(header) && hf.value.foot == Some(footer)
  }

  /** The sheet after one round: its first headerFooter, alone and where the schema wants it. */
  function Normal(kids: seq<Node>): seq<Node> {
    match FirstHf(kids) case None => kids case Some(hf) => Insert(WithoutHf(kids), hf)
  }

  /** At most one headerFooter, right before the first child that must follow it. */
  ghost predicate HfInPlace(kids: seq<Node>) {
    forall i :: 0 <= i < |kids| && kids[i].HeaderFooter? ==>
      && (forall j :: 0 <= j < |kids| && kids[j].HeaderFooter? ==> j == i)
      && (forall j :: 0 <= j < i ==> !AfterHf(kids[j]))
      && (i + 1 < |kids| ==> AfterHf(kids[i + 1]))
  }

  lemma {:induction false} WithoutHfNone(kids: seq<Node>)
    requires NoHf(kids)
    ensures WithoutHf(kids) == kids
  {
    if kids != [] {
      WithoutHfNone(kids[..|kids| - 1]);
    }
  }

  /** With a single headerFooter at i, removing it leaves the children around it. */
  lemma {:induction false} WithoutHfOne(kids: seq<Node>, i: nat)
    requires i < |kids| && forall j :: 0 <= j < |kids| ==> (kids[j].HeaderFooter? <==> j == i)
    ensures WithoutHf(kids) == kids[..i] + kids[i + 1..]
  {
    var n := |kids| - 1;
    if i == n {
      WithoutHfNone(kids[..n]);
    } else {
      WithoutHfOne(kids[..n], i);
      assert kids[i + 1..] == kids[..n][i + 1..] + [kids[n]];
    }
  }

  lemma SplicedAt(bare: seq<Node>, hf: Node, k: nat, r: seq<Node>, j: nat)
    requires k <= |bare| && r == bare[..k] + [hf] + bare[k..] && j <= |bare|
    ensures r[j] == if j < k then bare[j] else if j == k then hf else bare[j - 1]
  {
  }

  lemma Spliced(bare: seq<Node>, hf: Node, k: nat, r: seq<Node>)
    requires k <= |bare| && r == bare[..k] + [hf] + bare[k..]
    ensures r[..k] == bare[..k] && r[k + 1..] == bare[k..]
  {
  }

  /** Where everything is after the insertion. */
  lemma Inserted(bare: seq<Node>, hf: Node)
    ensures var k, r := InsertAt(bare), Insert(bare, hf);
      && |r| == |bare| + 1 && r[k] == hf && r[..k] == bare[..k] && r[k + 1..] == bare[k..]
      && (forall j :: 0 <= j < k ==> r[j] == bare[j]) && forall j :: k < j < |r| ==> r[j] == bare[j - 1]
  {
    var k, r := InsertAt(bare), Insert(bare, hf);
    Spliced(bare, hf, k, r);
    forall j: nat | j < |r| ensures r[j] == if j < k then bare[j] else if j == k then hf else bare[j - 1] {
      SplicedAt(bare, hf, k, r, j);
    }
  }

  lemma InsertedFirst(bare: seq<Node>, hf: Node)
    requires NoHf(bare) && hf.HeaderFooter?
    ensures FirstHf(Insert(bare, hf)) == Some(hf) && WithoutFirstHf(Insert(bare, hf)) == bare
  {
    var k, r := InsertAt(bare), Insert(bare, hf);
    Inserted(bare, hf);
    assert FirstHfAt(r) == k;
    assert bare[..k] + bare[k..] == bare;
  }

  /** The inserted headerFooter is the only one, and in place. */
  lemma InsertedInPlace(bare: seq<Node>, hf: Node)
    requires NoHf(bare) && hf.HeaderFooter?
    ensures HfInPlace(Insert(bare, hf))
  {
    var k, r := InsertAt(bare), Insert(bare, hf);
    Inserted(bare, hf);
    forall j | 0 <= j < |r| && j != k
      ensures !r[j].HeaderFooter?
    {
      assert r[j] == bare[if j < k then j else j - 1];
    }
  }

  lemma Reinserted(kids: seq<Node>, i: nat)
    requires i < |kids| && (forall j :: 0 <= j < i ==> !AfterHf(kids[j])) && (i + 1 < |kids| ==> AfterHf(kids[i + 1]))
    ensures Insert(kids[..i] + kids[i + 1..], kids[i]) == kids
  {
    var bare := kids[..i] + kids[i + 1..];
    assert forall j :: 0 <= j < i ==> bare[j] == kids[j];
    assert i < |bare| ==> bare[i] == kids[i + 1];
    assert InsertAt(bare) == i;
  }

  /** Put our headerFooter on a sheet and take it off: the sheet is back to its normal form, and in
      between the check finds exactly ours. */
  lemma SheetRoundTrip(kids: seq<Node>, header: string, footer: string)
    ensures RestoreHf(SetHf(kids, header, footer), FirstHf(kids)) == Normal(kids)
    ensures HfIs(SetHf(kids, header, footer), header, footer)
  {
    InsertedFirst(WithoutHf(kids), HeaderFooter(Some(header), Some(footer), ""));
    if FirstHf(kids) == None {
      WithoutHfNone(kids);
    }
  }

  lemma InPlaceNormal(kids: seq<Node>, i: nat)
    requires HfInPlace(kids) && i < |kids| && kids[i].HeaderFooter?
    ensures Insert(WithoutHf(kids), kids[i]) == kids
  {
    WithoutHfOne(kids, i);
    Reinserted(kids, i);
  }

  /** The round leaves a sheet exactly as it was if, and only if, its headerFooter was in place. */
  lemma NormalIffInPlace(kids: seq<Node>)
    ensures Normal(kids) == kids <==> HfInPlace(kids)
  {
    var i := FirstHfAt(kids);
    if i < |kids| {
      if HfInPlace(kids) {
        InPlaceNormal(kids, i);
      } else {
        InsertedInPlace(WithoutHf(kids), kids[i]);
      }
    }
  }

  // ---------------------------------------------------------------- sheets by name

  /** A dictionary in insertion order. */
  datatype Dict<V> = Dict(keys: seq<string>, at: map<string, V>)

  function Put<V>(d: Dict<V>, k: string, v: V): Dict<V> {
    Dict(if k in d.at then d.keys else d.keys + [k], d.at[k := v])
  }

  function DropKey(keys: seq<string>, k: string): seq<string> {
    if keys == [] then [] else
    DropKey(keys[..|keys| - 1], k) + if keys[|keys| - 1] == k then [] else [keys[|keys| - 1]]
  }

  /** pop(k, None) */
  function Pop<V>(d: Dict<V>, k: string): Dict<V> { Dict(DropKey(d.keys, k), d.at - {k}) }

  lemma {:induction false} DropKeyNone(keys: seq<string>, k: string)
    requires k !in keys
    ensures DropKey(keys, k) == keys
  {
    if keys != [] {
      DropKeyNone(keys[..|keys| - 1], k);
    }
  }

  /** The target of the last relationship with this id; an absent one reads as "". */
  function TargetOf(rels: seq<Entry>, rid: string): Target {
    if rels == [] then Target(false, [TEXT("")]) else
    var r := rels[|rels| - 1];
    if r.Rel? && r.id == rid then r.target else TargetOf(rels[..|rels| - 1], rid)
  }

  function SheetPath(rels: seq<Entry>, rid: string): Path {
    var t := TargetOf(rels, rid);
    if t.absolute then t.path else [XL] + t.path
  }

  function SheetParts(sheets: seq<Entry>, rels: seq<Entry>): Dict<Path> {
    if sheets == [] then Dict([], map[]) else
    var d := SheetParts(sheets[..|sheets| - 1], rels);
    var sh := sheets[|sheets| - 1];
    if sh.SheetEntry? then Put(d, sh.name, SheetPath(rels, sh.rid)) else d
  }

  function SheetsOf(p: map<Path, Part>): seq<Entry> { if WORKBOOK in p && p[WORKBOOK].Book? then p[WORKBOOK].sheets else [] }

  function EntriesAt(p: map<Path, Part>, q: Path): seq<Entry> { if q in p && p[q].Xml? then p[q].entries else [] }

  function SheetDict(p: map<Path, Part>): Dict<Path> { SheetParts(SheetsOf(p), EntriesAt(p, WORKBOOK_RELS)) }

  ghost predicate DictValid<V>(d: Dict<V>) {
    && (forall k :: k in d.keys <==> k in d.at)
    && (forall i, j :: 0 <= i < j < |d.keys| ==> d.keys[i] != d.keys[j])
  }

  lemma {:induction false} SheetPartsValid(sheets: seq<Entry>, rels: seq<Entry>)
    ensures DictValid(SheetParts(sheets, rels))
    ensures forall k :: k in SheetParts(sheets, rels).at <==>
      exists i :: 0 <= i < |sheets| && sheets[i].SheetEntry? && sheets[i].name == k
  {
    if sheets != [] {
      var n := |sheets| - 1;
      SheetPartsValid(sheets[..n], rels);
      assert sheets == sheets[..n] + [sheets[n]];
    }
  }

  /** A relationship nobody refers to yet changes no sheet's part. */
  lemma {:induction false} SheetPartsIgnore(sheets: seq<Entry>, rels: seq<Entry>, r: Entry)
    requires r.Rel? && forall i :: 0 <= i < |sheets| && sheets[i].SheetEntry? ==> sheets[i].rid != r.id
    ensures SheetParts(sheets, rels + [r]) == SheetParts(sheets, rels)
  {
    if sheets != [] {
      SheetPartsIgnore(sheets[..|sheets| - 1], rels, r);
      assert (rels + [r])[..|rels|] == rels;
    }
  }

  // ---------------------------------------------------------------- fresh names

  function Longer(taken: set<string>, n: nat): set<string> { set t | t in taken && |t| >= n }

  lemma LongerShrinks(taken: set<string>, name: string, m: nat)
    requires name in taken && |name| < m
    ensures |Longer(taken, m)| < |Longer(taken, |name|)|
  {
    assert name in Longer(taken, |name|) && name !in Longer(taken, m);
    SubsetSmaller(Longer(taken, m), Longer(taken, |name|), name);
  }

  lemma {:induction false} SubsetSmaller<T>(a: set<T>, b: set<T>, x: T)
    requires a <= b && x in b && x !in a
    ensures |a| < |b|
  {
    if a != {} {
      var y :| y in a;
      SubsetSmaller(a - {y}, b - {y}, x);
    }
  }

  /** Pad the name until nothing taken is called so. */
  function Fresh(taken: set<string>, name: string, pad: char): (r: string)
    ensures r !in taken && |r| >= |name| && r[..|name|] == name
    ensures forall i :: |name| <= i < |r| ==> r[i] == pad && r[..i] in taken
    decreases |Longer(taken, |name|)|
  {
    if name !in taken then name else
    LongerShrinks(taken, name, |name| + 1);
    Fresh(taken, name + [pad], pad)
  }

  function Numbered(parts: set<Path>, n: nat): set<Path> {
    set q: Path | q in parts && |q| == 3 && q[2].CONTROL_XML? && q[2].n >= n
  }

  /** The first number from n on whose control sheet part does not exist. */
  function FreshIndex(parts: set<Path>, n: nat): (r: nat)
    ensures r >= n && Control(r) !in parts && forall k :: n <= k < r ==> Control(k) in parts
    decreases |Numbered(parts, n)|
  {
    if Control(n) !in parts then n else
    SubsetSmaller(Numbered(parts, n + 1), Numbered(parts, n), Control(n));
    FreshIndex(parts, n + 1)
  }

  function SheetNames(sheets: seq<Entry>): set<string> { set sh | sh in sheets && sh.SheetEntry? :: sh.name }

  function RelIds(rels: seq<Entry>): set<string> { set r | r in rels && r.Rel? :: r.id }

  function MaxId(sheets: seq<Entry>): nat {
    if sheets == [] then 0 else
    var sh := sheets[|sheets| - 1];
    Max(MaxId(sheets[..|sheets| - 1]), if sh.SheetEntry? then sh.sheetId else 0)
  }

  /** The new sheet's id is no other sheet's. */
  lemma {:induction false} SheetIdFresh(sheets: seq<Entry>, i: nat)
    requires i < |sheets| && sheets[i].SheetEntry?
    ensures sheets[i].sheetId < MaxId(sheets) + 1
  {
    if i < |sheets| - 1 {
      SheetIdFresh(sheets[..|sheets| - 1], i);
    }
  }

  // ---------------------------------------------------------------- issuing a copy

  /** What the request contributes: the header and footer texts, the control lines and the QR image. */
  datatype Ctx = Ctx(header: string, footer: string, lines: seq<string>, qr: string)

  /** Contents stand for their hashes. */
  datatype Manifest = Manifest(header: string, footer: string, originals: Dict<Option<Node>>,
                               control: string, lines: seq<string>, qr: Part)

  /** The parts the code reads exist and have the kind it parses them as. */
  ghost predicate WellFormed(parts: map<Path, Part>) {
    && WORKBOOK in parts && parts[WORKBOOK].Book?
    && WORKBOOK_RELS in parts && parts[WORKBOOK_RELS].Xml?
    && TYPES in parts && parts[TYPES].Xml?
    && ROOT_RELS in parts && parts[ROOT_RELS].Xml?
    && (CUSTOM in parts ==> parts[CUSTOM].Xml?)
    && (SHARED in parts ==> parts[SHARED].Strings?)
    && var d := SheetDict(parts); forall k :: k in d.at && d.at[k] in parts ==> parts[d.at[k]].Sheet?
  }

  function PartAt(d: Dict<Path>, i: nat): Path
    requires i < |d.keys|
  {
    if d.keys[i] in d.at then d.at[d.keys[i]] else []
  }

  predicate SheetAt(parts: map<Path, Part>, q: Path) { q in parts && parts[q].Sheet? }

  function MarkPart(parts: map<Path, Part>, q: Path, header: string, footer: string): map<Path, Part> {
    if SheetAt(parts, q) then parts[q := Sheet(SetHf(parts[q].kids, header, footer))] else parts
  }

  /** The parts after the first k sheets got the header and footer. */
  function MarkSheets(parts: map<Path, Part>, d: Dict<Path>, k: nat, header: string, footer: string): (r: map<Path, Part>)
    requires k <= |d.keys|
    ensures r.Keys == parts.Keys
    ensures forall q :: q in parts ==> (if parts[q].Sheet? then r[q].Sheet? else r[q] == parts[q])
  {
    if k == 0 then parts else MarkPart(MarkSheets(parts, d, k - 1, header, footer), PartAt(d, k - 1), header, footer)
  }

  function Record(so: Dict<Option<Node>>, parts: map<Path, Part>, name: string, q: Path): Dict<Option<Node>> {
    if SheetAt(parts, q) then Put(so, name, FirstHf(parts[q].kids)) else so
  }

  /** What those sheets had before, by name. */
  function Originals(parts: map<Path, Part>, d: Dict<Path>, k: nat, header: string, footer: string): Dict<Option<Node>>
    requires k <= |d.keys|
  {
    if k == 0 then Dict([], map[]) else
    Record(Originals(parts, d, k - 1, header, footer), MarkSheets(parts, d, k - 1, header, footer), d.keys[k - 1], PartAt(d, k - 1))
  }

  const TITLE := "LexCorp Control"
  const CONTROL_RID := "rIdLexCorpControl"
  const QR_DRAWING := "LexCorp verification QR"
  const PROPERTY := "_LxRef"

  function NonEmpty(lines: seq<string>): seq<string> {
    if lines == [] then [] else
    NonEmpty(lines[..|lines| - 1]) + if lines[|lines| - 1] == "" then [] else [lines[|lines| - 1]]
  }

  function Inlines(lines: seq<string>): seq<Cell> { seq(|lines|, i requires 0 <= i < |lines| => Inline(lines[i])) }

  function ControlKids(c: Ctx): seq<Node> {
    [Child(OtherTag("cols"), [], ""), Child(OtherTag("sheetData"), Inlines(NonEmpty(c.lines)), ""),
     HeaderFooter(Some(c.header), None, ""), Child(Tag.DRAWING, [], "rIdLexCorpQr")]
  }

  predicate HasPng(types: seq<Entry>) { exists i :: 0 <= i < |types| && types[i].Default? && types[i].isPng }

  function WithPng(types: seq<Entry>): seq<Entry> { if HasPng(types) then types else types + [Default("png", true)] }

  function SheetType(n: nat): Entry { Override(1, Control(n), "worksheet+xml") }
  function DrawingType(n: nat): Entry { Override(1, Drawing(n), "drawing+xml") }
  function ControlRel(rid: string, n: nat): Entry { Rel(rid, WORKSHEET_REL, Target(false, [WORKSHEETS, CONTROL_XML(n)])) }
  function ToDrawing(n: nat): Entry { Rel("rIdLexCorpQr", DRAWING_REL, Target(false, [UP, DRAWINGS, CONTROL_XML(n)])) }
  function ToQr(n: nat): Entry { Rel("rIdQr", IMAGE_REL, Target(false, [UP, MEDIA, QR_PNG(n)])) }

  /** The sheet list, its relationship and the two content types. */
  function Registered(parts: map<Path, Part>, title: string, rid: string, n: nat): map<Path, Part>
    requires WORKBOOK in parts && parts[WORKBOOK].Book?
  {
    var wb := parts[WORKBOOK];
    parts[WORKBOOK := Book(wb.sheets + [SheetEntry(title, MaxId(wb.sheets) + 1, rid)], wb.defined)]
         [WORKBOOK_RELS := Xml(EntriesAt(parts, WORKBOOK_RELS) + [ControlRel(rid, n)])]
         [TYPES := Xml(WithPng(EntriesAt(parts, TYPES)) + [SheetType(n), DrawingType(n)])]
  }

  /** The control sheet, its drawing, the QR image and the relationships between them. */
  function WithFiles(parts: map<Path, Part>, c: Ctx, n: nat): map<Path, Part> {
    parts[Control(n) := Sheet(ControlKids(c))]
         [Qr(n) := Blob(c.qr)]
         [ControlRels(n) := Xml([ToDrawing(n)])]
         [DrawingRels(n) := Xml([ToQr(n)])]
         [Drawing(n) := Blob(QR_DRAWING)]
  }

  function WithControl(parts: map<Path, Part>, c: Ctx, title: string, rid: string, n: nat): map<Path, Part>
    requires WORKBOOK in parts && parts[WORKBOOK].Book?
  {
    WithFiles(Registered(parts, title, rid, n), c, n)
  }

  function Skip(names: seq<Path>, gone: set<Path>): seq<Path> {
    if names == [] then [] else
    Skip(names[..|names| - 1], gone) + if names[|names| - 1] in gone then [] else [names[|names| - 1]]
  }

  /** The order every rewritten archive has: content types first, the rest as it was. */
  function TypesFirst(names: seq<Path>): seq<Path> { [TYPES] + Skip(names, {TYPES}) }

  function Title(parts: map<Path, Part>): string { Fresh(SheetNames(SheetsOf(parts)), TITLE, '_') }
  function ControlRid(parts: map<Path, Part>): string { Fresh(RelIds(EntriesAt(parts, WORKBOOK_RELS)), CONTROL_RID, 'x') }
  function ControlIndex(parts: map<Path, Part>): nat { FreshIndex(parts.Keys, 1) }

  /** The parts of parts that names lacks, in the order the copy added them. */
  function NewNames(names: seq<Path>, n: nat): seq<Path> {
    Skip([Control(n), Qr(n), ControlRels(n), DrawingRels(n), Drawing(n)], set q | q in names)
  }

  function Watermark(p: Package, c: Ctx): (Package, Manifest)
    requires WORKBOOK in p.parts && p.parts[WORKBOOK].Book?
  {
    var d := SheetDict(p.parts);
    var marked := MarkSheets(p.parts, d, |d.keys|, c.header, c.footer);
    var title, rid, n := Title(marked), ControlRid(marked), ControlIndex(marked);
    (Package(TypesFirst(p.names) + NewNames(p.names, n), WithControl(marked, c, title, rid, n)),
     Manifest(c.header, c.footer, Originals(p.parts, d, |d.keys|, c.header, c.footer), title, NonEmpty(c.lines), Blob(c.qr)))
  }

  // ---------------------------------------------------------------- the hidden mark

  function LxRid(n: nat): string { "rIdLx" + PdfLayers.Decimal(n) }

  /** The first of rIdLx1 .. rIdLx999 that is free. */
  function FreeNumber(used: set<string>, n: nat): (r: Option<nat>)
    ensures r.Some? ==> n <= r.value < 1000 && LxRid(r.value) !in used && forall k :: n <= k < r.value ==> LxRid(k) in used
    ensures r.None? ==> forall k :: n <= k < 1000 ==> LxRid(k) in used
    decreases 1000 - n
  {
    if n >= 1000 then None else if LxRid(n) !in used then Some(n) else FreeNumber(used, n + 1)
  }

  function MaxPid(props: seq<Entry>): nat {
    if props == [] then 1 else
    var x := props[|props| - 1];
    Max(MaxPid(props[..|props| - 1]), if x.Property? then x.pid else 0)
  }

  /** The new property's number is no other's, and not below 2, where numbering starts. */
  lemma {:induction false} PidFresh(props: seq<Entry>)
    ensures MaxPid(props) + 1 >= 2
    ensures forall i :: 0 <= i < |props| && props[i].Property? ==> props[i].pid < MaxPid(props) + 1
  {
    if props != [] {
      PidFresh(props[..|props| - 1]);
    }
  }

  function WithMark(props: seq<Entry>, mark: string): seq<Entry> { props + [Property(PROPERTY, MaxPid(props) + 1, mark)] }

  function CustomType(): Entry { Override(1, CUSTOM, "custom-properties+xml") }
  function ToCustom(id: string): Entry { Rel(id, CUSTOM_REL, Target(false, CUSTOM)) }

  /** (marked package, whether the custom part was created); None when every rIdLx number is taken. */
  function Embed(p: Package, mark: string): Option<(Package, bool)> {
    var parts := p.parts;
    if CUSTOM in parts then
      Some((Package(TypesFirst(p.names), parts[CUSTOM := Xml(WithMark(EntriesAt(parts, CUSTOM), mark))]), false))
    else
      match FreeNumber(RelIds(EntriesAt(parts, ROOT_RELS)), 1)
      case None => None
      case Some(k) =>
        Some((Package(TypesFirst(p.names + [CUSTOM]),
                      parts[TYPES := Xml(EntriesAt(parts, TYPES) + [CustomType()])]
                           [ROOT_RELS := Xml(EntriesAt(parts, ROOT_RELS) + [ToCustom(LxRid(k))])]
                           [CUSTOM := Xml(WithMark([], mark))]), true))
  }

  /** Take the property out again, and the part with it if the copy added it and nothing else is left. */
  function RemoveMark(p: Package, created: bool): Package {
    var parts := p.parts;
    if CUSTOM !in parts then p else
    var props := Without(EntriesAt(parts, CUSTOM), PropertyNamed(PROPERTY));
    if created && props == [] then
      Package(TypesFirst(Skip(p.names, {CUSTOM})),
              parts[TYPES := Xml(Without(EntriesAt(parts, TYPES), CustomOverride))]
                   [ROOT_RELS := Xml(Without(EntriesAt(parts, ROOT_RELS), CustomRelation))] - {CUSTOM})
    else
      Package(TypesFirst(p.names), parts[CUSTOM := Xml(props)])
  }

  // ---------------------------------------------------------------- checking and stripping a returned copy

  datatype Finding = ControlRemoved | ControlChanged | HeaderChanged(sheet: string) | SheetGone(sheet: string) | Unprocessed

  function CellText(cell: Cell, shared: seq<string>): string {
    match cell
    case Inline(t) => t
    case SharedText(i) => if i.Some? && i.value < |shared| then shared[i.value] else ""
  }

  function CellTexts(cells: seq<Cell>, shared: seq<string>): seq<string> {
    if cells == [] then [] else CellTexts(cells[..|cells| - 1], shared) + [CellText(cells[|cells| - 1], shared)]
  }

  function SheetTexts(kids: seq<Node>, shared: seq<string>): seq<string> {
    if kids == [] then [] else
    var c := kids[|kids| - 1];
    SheetTexts(kids[..|kids| - 1], shared) + if c.Child? then CellTexts(c.cells, shared) else []
  }

  function SharedOf(parts: map<Path, Part>): seq<string> {
    if SHARED in parts && parts[SHARED].Strings? then parts[SHARED].items else []
  }

  function KidsAt(parts: map<Path, Part>, q: Path): seq<Node> { if SheetAt(parts, q) then parts[q].kids else [] }

  /** The images a drawing's relationships lead to, of those that exist. */
  function Images(parts: map<Path, Part>, drawing: Path, rels: seq<Entry>): (r: seq<Path>)
    ensures forall q :: q in r ==> q in parts
  {
    if rels == [] then [] else
    var r := rels[|rels| - 1];
    Images(parts, drawing, rels[..|rels| - 1])
    + if r.Rel? && r.kind == IMAGE_REL && Resolve(drawing, r.target) in parts then [Resolve(drawing, r.target)] else []
  }

  function DrawingFiles(parts: map<Path, Part>, drawing: Path): seq<Path> {
    if RelsPath(drawing) !in parts then [drawing] else
    [drawing, RelsPath(drawing)] + Images(parts, drawing, EntriesAt(parts, RelsPath(drawing)))
  }

  function DrawingImages(parts: map<Path, Part>, drawing: Path): (r: seq<Path>)
    ensures forall q :: q in r ==> q in parts
  {
    if RelsPath(drawing) !in parts then [] else Images(parts, drawing, EntriesAt(parts, RelsPath(drawing)))
  }

  /** (parts to remove, QR images) that a control sheet's relationships lead to. */
  function Reached(parts: map<Path, Part>, control: Path, rels: seq<Entry>): (r: (seq<Path>, seq<Path>))
    ensures forall q :: q in r.1 ==> q in parts
  {
    if rels == [] then ([], []) else
    var (files, images) := Reached(parts, control, rels[..|rels| - 1]);
    var r := rels[|rels| - 1];
    if r.Rel? && r.kind == DRAWING_REL then
      var drawing := Resolve(control, r.target);
      (files + DrawingFiles(parts, drawing), images + DrawingImages(parts, drawing))
    else (files, images)
  }

  function ControlReach(parts: map<Path, Part>, control: Path): (r: (seq<Path>, seq<Path>))
    ensures forall q :: q in r.1 ==> q in parts
  {
    if RelsPath(control) !in parts then ([control], []) else
    var (files, images) := Reached(parts, control, EntriesAt(parts, RelsPath(control)));
    ([control, RelsPath(control)] + files, images)
  }

  function Contents(parts: map<Path, Part>, qs: seq<Path>): seq<Part>
    requires forall q :: q in qs ==> q in parts
  {
    seq(|qs|, i requires 0 <= i < |qs| => parts[qs[i]])
  }

  predicate ControlIntact(parts: map<Path, Part>, control: Path, m: Manifest) {
    && NonEmpty(SheetTexts(KidsAt(parts, control), SharedOf(parts))) == m.lines
    && Contents(parts, ControlReach(parts, control).1) == [m.qr]
  }

  function Gone(parts: map<Path, Part>, control: Path): set<Path> {
    set q: Path | q in ControlReach(parts, control).0 && q in parts
  }

  /** The last sheet entry of that name. */
  function LastSheet(sheets: seq<Entry>, name: string): (r: Option<nat>)
    ensures r.Some? ==> r.value < |sheets| && Hits(SheetNamed(name), sheets[r.value])
    ensures r.None? ==> NoHit(sheets, SheetNamed(name))
  {
    if sheets == [] then None else
    if Hits(SheetNamed(name), sheets[|sheets| - 1]) then Some(|sheets| - 1) else LastSheet(sheets[..|sheets| - 1], name)
  }

  /** Names local to the removed sheet go; those of later sheets move one position up. */
  function Shift(names: seq<Entry>, position: nat): seq<Entry> {
    if names == [] then [] else
    var x := names[|names| - 1];
    Shift(names[..|names| - 1], position)
    + if !x.DefinedName? || x.local.None? || x.local.value < position then [x]
      else if x.local.value == position then []
      else [x.(local := Some((x.local.value - 1) as nat))]
  }

  function ShiftDefined(defined: Option<seq<Entry>>, position: Option<nat>): Option<seq<Entry>> {
    if defined.Some? && position.Some? then Some(Shift(defined.value, position.value)) else defined
  }

  /** The workbook, its relationships and the content types without the control sheet. */
  function DropControl(parts: map<Path, Part>, name: string, gone: set<Path>): map<Path, Part>
    requires WORKBOOK in parts && parts[WORKBOOK].Book?
  {
    var wb := parts[WORKBOOK];
    var at := LastSheet(wb.sheets, name);
    var rels := EntriesAt(parts, WORKBOOK_RELS);
    parts[WORKBOOK := Book(Without(wb.sheets, SheetNamed(name)), ShiftDefined(wb.defined, at))]
         [WORKBOOK_RELS := Xml(if at.Some? then Without(rels, RelWithId(wb.sheets[at.value].rid)) else rels)]
         [TYPES := Xml(Without(EntriesAt(parts, TYPES), OverrideOf(gone)))]
  }

  function RestorePart(parts: map<Path, Part>, d: Dict<Path>, i: nat, m: Manifest): map<Path, Part>
    requires i < |d.keys|
  {
    var q, name := PartAt(d, i), d.keys[i];
    if SheetAt(parts, q) && name in m.originals.at
    then parts[q := Sheet(RestoreHf(parts[q].kids, m.originals.at[name]))] else parts
  }

  /** The first k sheets checked and given back what they had. */
  function RestoreSheets(parts: map<Path, Part>, d: Dict<Path>, k: nat, m: Manifest): (r: map<Path, Part>)
    requires k <= |d.keys|
    ensures r.Keys == parts.Keys
  {
    if k == 0 then parts else RestorePart(RestoreSheets(parts, d, k - 1, m), d, k - 1, m)
  }

  function HeaderFinding(parts: map<Path, Part>, d: Dict<Path>, i: nat, m: Manifest): seq<Finding>
    requires i < |d.keys|
  {
    var q, name := PartAt(d, i), d.keys[i];
    if SheetAt(parts, q) && name in m.originals.at && !HfIs(KidsAt(parts, q), m.header, m.footer) then [HeaderChanged(name)] else []
  }

  /** What the loop reports when it comes to the i-th sheet. */
  function Turn(parts: map<Path, Part>, d: Dict<Path>, i: nat, m: Manifest): seq<Finding>
    requires i < |d.keys|
  {
    HeaderFinding(RestoreSheets(parts, d, i, m), d, i, m)
  }

  function Turns(parts: map<Path, Part>, d: Dict<Path>, k: nat, m: Manifest): seq<seq<Finding>>
    requires k <= |d.keys|
  {
    seq(k, i requires 0 <= i < k => Turn(parts, d, i, m))
  }

  function Flatten<T>(s: seq<seq<T>>): seq<T> {
    if s == [] then [] else Flatten(s[..|s| - 1]) + s[|s| - 1]
  }

  function HeaderFindings(parts: map<Path, Part>, d: Dict<Path>, k: nat, m: Manifest): seq<Finding>
    requires k <= |d.keys|
  {
    Flatten(Turns(parts, d, k, m))
  }

  lemma {:induction false} FlattenEmpty<T>(s: seq<seq<T>>)
    ensures Flatten(s) == [] <==> forall i :: 0 <= i < |s| ==> s[i] == []
  {
    if s != [] {
      FlattenEmpty(s[..|s| - 1]);
      assert |Flatten(s)| == |Flatten(s[..|s| - 1])| + |s[|s| - 1]|;
    }
  }

  function GoneFindings(names: seq<string>, d: Dict<Path>, control: string): seq<Finding> {
    if names == [] then [] else
    var name := names[|names| - 1];
    GoneFindings(names[..|names| - 1], d, control) + if name != control && name !in d.at then [SheetGone(name)] else []
  }

  /** The control sheet's part, when the name leads to one. */
  function ControlPart(parts: map<Path, Part>, m: Manifest): Option<Path> {
    var d := SheetDict(parts);
    if m.control in d.at && d.at[m.control] in parts then Some(d.at[m.control]) else None
  }

  function RemovedParts(parts: map<Path, Part>, control: Option<Path>): set<Path> {
    if control.Some? then Gone(parts, control.value) else {}
  }

  function ControlFindings(parts: map<Path, Part>, control: Option<Path>, m: Manifest): seq<Finding> {
    if control.None? then [ControlRemoved] else if ControlIntact(parts, control.value, m) then [] else [ControlChanged]
  }

  /** (stripped package, findings). */
  function Strip(p: Package, m: Manifest): (Package, seq<Finding>)
    requires WORKBOOK in p.parts && p.parts[WORKBOOK].Book?
  {
    var d := Pop(SheetDict(p.parts), m.control);
    var control := ControlPart(p.parts, m);
    var parts := if control.Some? then DropControl(p.parts, m.control, Gone(p.parts, control.value)) else p.parts;
    (Package(Skip(TypesFirst(p.names), RemovedParts(p.parts, control)), RestoreSheets(parts, d, |d.keys|, m) - RemovedParts(p.parts, control)),
     ControlFindings(p.parts, control, m) + HeaderFindings(parts, d, |d.keys|, m) + GoneFindings(m.originals.keys, d, m.control))
  }

  // ---------------------------------------------------------------- the copy as issued

  ghost predicate IsSheetPart(d: Dict<Path>, k: nat, q: Path)
    requires k <= |d.keys|
  {
    exists i :: 0 <= i < k && PartAt(d, i) == q
  }

  ghost predicate DistinctSheets(parts: map<Path, Part>, d: Dict<Path>) {
    forall i, j :: 0 <= i < j < |d.keys| && PartAt(d, i) in parts ==> PartAt(d, i) != PartAt(d, j)
  }

  /** Every sheet part is marked once; nothing else changes. */
  lemma {:induction false} Marked(base: map<Path, Part>, d: Dict<Path>, k: nat, header: string, footer: string, q: Path)
    requires k <= |d.keys| && DistinctSheets(base, d) && q in base
    ensures MarkSheets(base, d, k, header, footer)[q]
         == if IsSheetPart(d, k, q) && base[q].Sheet? then Sheet(SetHf(base[q].kids, header, footer)) else base[q]
  {
    if k != 0 {
      Marked(base, d, k - 1, header, footer, q);
      if PartAt(d, k - 1) == q {
        assert !IsSheetPart(d, k - 1, q);
      }
    }
  }

  lemma {:induction false} OriginalsKeys(base: map<Path, Part>, d: Dict<Path>, k: nat, header: string, footer: string)
    requires k <= |d.keys|
    ensures forall x :: x in Originals(base, d, k, header, footer).keys ==> x in d.keys
  {
    if k != 0 {
      OriginalsKeys(base, d, k - 1, header, footer);
    }
  }

  /** When its turn comes, a sheet part is as it was in the original. */
  lemma NotYetMarked(base: map<Path, Part>, d: Dict<Path>, k: nat, header: string, footer: string)
    requires k < |d.keys| && DistinctSheets(base, d) && PartAt(d, k) in base
    ensures MarkSheets(base, d, k, header, footer)[PartAt(d, k)] == base[PartAt(d, k)]
  {
    Marked(base, d, k, header, footer, PartAt(d, k));
    assert !IsSheetPart(d, k, PartAt(d, k));
  }

  ghost predicate OriginalAt(base: map<Path, Part>, d: Dict<Path>, so: Dict<Option<Node>>, k: nat, i: nat)
    requires i < |d.keys|
  {
    && (d.keys[i] in so.at <==> i < k && SheetAt(base, PartAt(d, i)))
    && (d.keys[i] in so.at ==> SheetAt(base, PartAt(d, i)) && so.at[d.keys[i]] == FirstHf(base[PartAt(d, i)].kids))
  }

  lemma OriginalStep(base: map<Path, Part>, d: Dict<Path>, so: Dict<Option<Node>>, parts: map<Path, Part>, k: nat, i: nat)
    requires i < |d.keys| && k < |d.keys| && DictValid(d) && OriginalAt(base, d, so, k, i) && parts.Keys == base.Keys
    requires PartAt(d, k) in base ==> parts[PartAt(d, k)] == base[PartAt(d, k)]
    ensures OriginalAt(base, d, Record(so, parts, d.keys[k], PartAt(d, k)), k + 1, i)
  {
  }

  lemma {:induction false} OriginalsAt(base: map<Path, Part>, d: Dict<Path>, k: nat, header: string, footer: string, i: nat)
    requires k <= |d.keys| && i < |d.keys| && DistinctSheets(base, d) && DictValid(d)
    ensures OriginalAt(base, d, Originals(base, d, k, header, footer), k, i)
  {
    if k != 0 {
      OriginalsAt(base, d, k - 1, header, footer, i);
      if PartAt(d, k - 1) in base {
        NotYetMarked(base, d, k - 1, header, footer);
      }
      OriginalStep(base, d, Originals(base, d, k - 1, header, footer), MarkSheets(base, d, k - 1, header, footer), k - 1, i);
    }
  }

  /** The manifest remembers, for every sheet, the headerFooter it had. */
  ghost predicate Remembers(m: Manifest, base: map<Path, Part>, d: Dict<Path>) {
    && (forall i :: 0 <= i < |d.keys| ==> (d.keys[i] in m.originals.at <==> SheetAt(base, PartAt(d, i))))
    && (forall i :: 0 <= i < |d.keys| && SheetAt(base, PartAt(d, i)) ==>
          m.originals.at[d.keys[i]] == FirstHf(base[PartAt(d, i)].kids))
  }

  function NormalPart(base: map<Path, Part>, q: Path): Part
    requires q in base
  {
    if base[q].Sheet? then Sheet(Normal(base[q].kids)) else base[q]
  }

  /** Every sheet of base arrives with our header and footer on it. */
  ghost predicate Arrived(base: map<Path, Part>, parts: map<Path, Part>, d: Dict<Path>, m: Manifest) {
    forall i :: 0 <= i < |d.keys| && SheetAt(base, PartAt(d, i)) ==>
      PartAt(d, i) in parts && parts[PartAt(d, i)] == Sheet(SetHf(base[PartAt(d, i)].kids, m.header, m.footer))
  }

  lemma SheetPartStep(d: Dict<Path>, k: nat, q: Path)
    requires k < |d.keys|
    ensures IsSheetPart(d, k + 1, q) <==> IsSheetPart(d, k, q) || PartAt(d, k) == q
  {
  }

  function GivenBack(base: map<Path, Part>, parts: map<Path, Part>, q: Path, done: bool): Part
    requires q in parts
  {
    if done && SheetAt(base, q) then NormalPart(base, q) else parts[q]
  }

  lemma RestoreStep(base: map<Path, Part>, parts: map<Path, Part>, before: map<Path, Part>, d: Dict<Path>, k: nat, m: Manifest, q: Path)
    requires k < |d.keys| && DistinctSheets(base, d) && Remembers(m, base, d) && q in parts && Arrived(base, parts, d, m)
    requires before.Keys == parts.Keys && before[q] == GivenBack(base, parts, q, IsSheetPart(d, k, q))
    ensures RestorePart(before, d, k, m)[q] == GivenBack(base, parts, q, IsSheetPart(d, k + 1, q))
  {
    SheetPartStep(d, k, q);
    if PartAt(d, k) == q && SheetAt(base, q) {
      assert !IsSheetPart(d, k, q);
      SheetRoundTrip(base[q].kids, m.header, m.footer);
    }
  }

  /** Restoring undoes marking on every sheet. */
  lemma {:induction false} Restored(base: map<Path, Part>, parts: map<Path, Part>, d: Dict<Path>, k: nat, m: Manifest, q: Path)
    requires k <= |d.keys| && DistinctSheets(base, d) && Remembers(m, base, d) && q in parts && Arrived(base, parts, d, m)
    ensures RestoreSheets(parts, d, k, m)[q] == GivenBack(base, parts, q, IsSheetPart(d, k, q))
  {
    if k != 0 {
      Restored(base, parts, d, k - 1, m, q);
      RestoreStep(base, parts, RestoreSheets(parts, d, k - 1, m), d, k - 1, m, q);
    }
  }

  /** When its turn comes, a sheet still carries what the copy was issued with. */
  lemma StillMarked(base: map<Path, Part>, parts: map<Path, Part>, d: Dict<Path>, k: nat, m: Manifest)
    requires k < |d.keys| && DistinctSheets(base, d) && Remembers(m, base, d) && Arrived(base, parts, d, m)
    ensures Turn(parts, d, k, m) == []
  {
    var x := PartAt(d, k);
    if SheetAt(base, x) {
      Restored(base, parts, d, k, m, x);
      assert !IsSheetPart(d, k, x);
      SheetRoundTrip(base[x].kids, m.header, m.footer);
    }
  }

  /** And there is nothing to report. */
  lemma NothingChanged(base: map<Path, Part>, parts: map<Path, Part>, d: Dict<Path>, m: Manifest)
    requires DistinctSheets(base, d) && Remembers(m, base, d) && Arrived(base, parts, d, m)
    ensures HeaderFindings(parts, d, |d.keys|, m) == []
  {
    FlattenEmpty(Turns(parts, d, |d.keys|, m));
    forall i | 0 <= i < |d.keys|
      ensures Turn(parts, d, i, m) == []
    {
      StillMarked(base, parts, d, i, m);
    }
  }

  // ---------------------------------------------------------------- the control sheet, found and removed

  lemma {:induction false} NonEmptyMembers(lines: seq<string>)
    ensures forall i :: 0 <= i < |NonEmpty(lines)| ==> NonEmpty(lines)[i] != ""
  {
    if lines != [] {
      NonEmptyMembers(lines[..|lines| - 1]);
    }
  }

  lemma {:induction false} NonEmptyAgain(lines: seq<string>)
    requires forall i :: 0 <= i < |lines| ==> lines[i] != ""
    ensures NonEmpty(lines) == lines
  {
    if lines != [] {
      NonEmptyAgain(lines[..|lines| - 1]);
      assert lines == lines[..|lines| - 1] + [lines[|lines| - 1]];
    }
  }

  lemma {:induction false} InlineTexts(lines: seq<string>, shared: seq<string>)
    ensures CellTexts(Inlines(lines), shared) == lines
  {
    if lines != [] {
      assert Inlines(lines)[..|lines| - 1] == Inlines(lines[..|lines| - 1]);
      InlineTexts(lines[..|lines| - 1], shared);
    }
  }

  lemma TextsAppended(kids: seq<Node>, c: Node, shared: seq<string>)
    ensures SheetTexts(kids + [c], shared) == SheetTexts(kids, shared) + if c.Child? then CellTexts(c.cells, shared) else []
  {
    assert (kids + [c])[..|kids|] == kids;
  }

  lemma TextsOfFour(a: Node, b: Node, c: Node, d: Node, shared: seq<string>)
    requires a.Child? && b.Child? && c.HeaderFooter? && d.Child? && a.cells == [] && d.cells == []
    ensures SheetTexts([a, b, c, d], shared) == CellTexts(b.cells, shared)
  {
    TextsAppended([], a, shared);
    TextsAppended([a], b, shared);
    TextsAppended([a, b], c, shared);
    TextsAppended([a, b, c], d, shared);
    assert [] + [a] == [a] && [a] + [b] == [a, b] && [a, b] + [c] == [a, b, c] && [a, b, c] + [d] == [a, b, c, d];
  }

  /** The lines read back from the control sheet are those written, whatever the shared strings. */
  lemma ControlReadsBack(c: Ctx, shared: seq<string>)
    ensures NonEmpty(SheetTexts(ControlKids(c), shared)) == NonEmpty(c.lines)
  {
    var kids, lines := ControlKids(c), NonEmpty(c.lines);
    TextsOfFour(kids[0], kids[1], kids[2], kids[3], shared);
    InlineTexts(lines, shared);
    NonEmptyMembers(c.lines);
    NonEmptyAgain(lines);
  }

  lemma WalkUp(a: Segment, b: Segment, folder: Segment, file: Segment)
    requires folder != UP && folder != HERE && file != UP && file != HERE
    ensures Walk([a, b], [UP, folder, file]) == [a, folder, file]
  {
    assert [UP, folder, file][1..] == [folder, file] && [folder, file][1..] == [file] && [file][1..] == [];
    assert [a, b][..1] == [a] && [a] + [folder] == [a, folder] && [a, folder] + [file] == [a, folder, file];
    assert Walk([a, folder, file], []) == [a, folder, file];
    assert Walk([a, folder], [file]) == [a, folder, file];
    assert Walk([a], [folder, file]) == [a, folder, file];
  }

  /** From the control sheet the relationships lead to exactly the parts the copy added. */
  lemma ControlReached(parts: map<Path, Part>, n: nat)
    requires Added(n) <= parts.Keys
    requires parts[ControlRels(n)] == Xml([ToDrawing(n)]) && parts[DrawingRels(n)] == Xml([ToQr(n)])
    ensures ControlReach(parts, Control(n)) == ([Control(n), ControlRels(n), Drawing(n), DrawingRels(n), Qr(n)], [Qr(n)])
  {
    var control, drawing := Control(n), Drawing(n);
    assert RelsPath(control) == ControlRels(n) && RelsPath(drawing) == DrawingRels(n);
    assert control[..2] == [XL, WORKSHEETS] && drawing[..2] == [XL, DRAWINGS];
    WalkUp(XL, WORKSHEETS, DRAWINGS, CONTROL_XML(n));
    WalkUp(XL, DRAWINGS, MEDIA, QR_PNG(n));
    var toQr, toDrawing := [ToQr(n)], [ToDrawing(n)];
    assert toQr[..0] == [] && toDrawing[..0] == [];
    assert Images(parts, drawing, toQr) == [Qr(n)];
    assert Reached(parts, control, toDrawing).0 == DrawingFiles(parts, drawing);
    assert Reached(parts, control, toDrawing).1 == DrawingImages(parts, drawing);
    assert ControlReach(parts, control).0 == [control, ControlRels(n), drawing, DrawingRels(n), Qr(n)];
  }

  lemma ControlGone(parts: map<Path, Part>, n: nat)
    requires Added(n) <= parts.Keys
    requires ControlReach(parts, Control(n)).0 == [Control(n), ControlRels(n), Drawing(n), DrawingRels(n), Qr(n)]
    ensures Gone(parts, Control(n)) == Added(n)
  {
    var files := ControlReach(parts, Control(n)).0;
    assert files[0] in files && files[1] in files && files[2] in files && files[3] in files && files[4] in files;
  }

  lemma {:induction false} ShiftNone(names: seq<Entry>, position: nat)
    requires forall i :: 0 <= i < |names| && names[i].DefinedName? && names[i].local.Some? ==> names[i].local.value < position
    ensures Shift(names, position) == names
  {
    if names != [] {
      ShiftNone(names[..|names| - 1], position);
    }
  }

  // ---------------------------------------------------------------- names local to sheets

  predicate LocalTo(x: Entry, position: nat) { x.DefinedName? && x.local == Some(position) }

  /** The names that are not local to that position, in order. */
  function Others(names: seq<Entry>, position: nat): seq<Entry> {
    Filter(names, (x: Entry) => !LocalTo(x, position))
  }

  /** The same name, at one position less when its sheet stood behind the removed one. */
  predicate Follows(x: Entry, y: Entry, position: nat) {
    if x.DefinedName? && x.local.Some? && x.local.value > position
    then y == DefinedName(x.name, Some((x.local.value - 1) as nat)) else y == x
  }

  ghost predicate AllFollow(xs: seq<Entry>, ys: seq<Entry>, position: nat) {
    |xs| == |ys| && forall i :: 0 <= i < |xs| ==> Follows(xs[i], ys[i], position)
  }

  lemma {:induction false} ShiftFollows(names: seq<Entry>, position: nat)
    ensures AllFollow(Others(names, position), Shift(names, position), position)
  {
    if names != [] {
      var init, x := names[..|names| - 1], names[|names| - 1];
      ShiftFollows(init, position);
      assert Others(names, position) == Others(init, position) + if LocalTo(x, position) then [] else [x];
    }
  }

  /** The one sheet of that name is at this position. */
  ghost predicate OnlyAt(sheets: seq<Entry>, name: string, position: nat) {
    position < |sheets| && forall i :: 0 <= i < |sheets| ==> (sheets[i].SheetEntry? && sheets[i].name == name <==> i == position)
  }

  lemma {:induction false} LastSheetOnly(sheets: seq<Entry>, name: string, position: nat)
    requires OnlyAt(sheets, name, position)
    ensures LastSheet(sheets, name) == Some(position)
    ensures Without(sheets, SheetNamed(name)) == sheets[..position] + sheets[position + 1..]
  {
    var n := |sheets| - 1;
    if position < n {
      LastSheetOnly(sheets[..n], name, position);
      assert sheets[position + 1..] == sheets[..n][position + 1..] + [sheets[n]];
    } else {
      WithoutNone(sheets[..n], SheetNamed(name));
      assert sheets[position + 1..] == [];
    }
  }

  /** A position that follows its sheet: where it was still names the same sheet. */
  lemma SheetFollows(sheets: seq<Entry>, position: nat, k: nat)
    requires position < |sheets| && k < |sheets| && k != position
    ensures var left := sheets[..position] + sheets[position + 1..]; var k' := if k > position then k - 1 else k;
      k' < |left| && left[k'] == sheets[k]
  {
  }

  lemma {:induction false} RestoreKeepsOthers(parts: map<Path, Part>, d: Dict<Path>, k: nat, m: Manifest, q: Path)
    requires k <= |d.keys| && q in parts && !parts[q].Sheet?
    ensures RestoreSheets(parts, d, k, m)[q] == parts[q]
  {
    if k != 0 {
      RestoreKeepsOthers(parts, d, k - 1, m, q);
    }
  }

  /** Stripping any returned workbook in which one sheet bears the control name: that sheet's entry goes,
      the others keep their order; names local to it go, all others stay in order under their names; one
      without a position keeps having none, and one local to another sheet is local to that same sheet. */
  lemma NamesFollowSheets(p: Package, m: Manifest, position: nat)
    requires WORKBOOK in p.parts && p.parts[WORKBOOK].Book? && OnlyAt(p.parts[WORKBOOK].sheets, m.control, position)
    requires ControlPart(p.parts, m).Some? && WORKBOOK in Strip(p, m).0.parts
    ensures var was, wb := p.parts[WORKBOOK], Strip(p, m).0.parts[WORKBOOK];
      && wb.Book? && wb.sheets == was.sheets[..position] + was.sheets[position + 1..]
      && (wb.defined.Some? <==> was.defined.Some?)
      && (wb.defined.Some? ==>
            var kept := Others(was.defined.value, position);
            && |wb.defined.value| == |kept|
            && forall i :: 0 <= i < |kept| ==> KeepsSheet(kept[i], wb.defined.value[i], was.sheets, wb.sheets))
  {
    var d := Pop(SheetDict(p.parts), m.control);
    var was := p.parts[WORKBOOK];
    var parts := DropControl(p.parts, m.control, Gone(p.parts, ControlPart(p.parts, m).value));
    PathsApart(0);
    LastSheetOnly(was.sheets, m.control, position);
    RestoreKeepsOthers(parts, d, |d.keys|, m, WORKBOOK);
    if was.defined.Some? {
      ShiftFollows(was.defined.value, position);
      NamesKeepSheets(was.defined.value, was.sheets, position);
    }
  }

  /** The name is what it was and, when it was local to one of the sheets, is local to that very sheet. */
  predicate KeepsSheet(x: Entry, y: Entry, before: seq<Entry>, after: seq<Entry>) {
    if x.DefinedName? && x.local.Some? then
      && y.DefinedName? && y.name == x.name && y.local.Some?
      && (x.local.value < |before| ==> y.local.value < |after| && after[y.local.value] == before[x.local.value])
    else y == x
  }

  lemma NamesKeepSheets(names: seq<Entry>, sheets: seq<Entry>, position: nat)
    requires position < |sheets|
    ensures var kept, shifted := Others(names, position), Shift(names, position);
      && |shifted| == |kept|
      && forall i :: 0 <= i < |kept| ==> KeepsSheet(kept[i], shifted[i], sheets, sheets[..position] + sheets[position + 1..])
  {
    var kept, shifted := Others(names, position), Shift(names, position);
    ShiftFollows(names, position);
    FilterMembers(names, (x: Entry) => !LocalTo(x, position));
    forall i | 0 <= i < |kept|
      ensures KeepsSheet(kept[i], shifted[i], sheets, sheets[..position] + sheets[position + 1..])
    {
      assert kept[i] in kept && Follows(kept[i], shifted[i], position);
      if kept[i].DefinedName? && kept[i].local.Some? && kept[i].local.value < |sheets| {
        SheetFollows(sheets, position, kept[i].local.value);
      }
    }
  }

  // ---------------------------------------------------------------- the round trip

  /** What a workbook needs for its copy to come off cleanly, besides headers in place: one sheet per
      part, sheets that have a relationship, names local to existing sheets, and nothing that
      looks like this copy's own additions. */
  ghost predicate Tidy(p: Package) {
    var parts := p.parts;
    && Valid(p) && WellFormed(parts) && DistinctSheets(parts, SheetDict(parts))
    && Linked(SheetsOf(parts), EntriesAt(parts, WORKBOOK_RELS)) && NamesLocal(parts[WORKBOOK].defined, |SheetsOf(parts)|)
    && Untouched(parts, ControlIndex(parts))
  }

  ghost predicate Linked(sheets: seq<Entry>, rels: seq<Entry>) {
    forall i :: 0 <= i < |sheets| && sheets[i].SheetEntry? ==> sheets[i].rid in RelIds(rels)
  }

  ghost predicate NamesLocal(defined: Option<seq<Entry>>, n: nat) {
    defined.Some? ==> forall i :: 0 <= i < |defined.value| && defined.value[i].DefinedName? && defined.value[i].local.Some? ==>
      defined.value[i].local.value < n
  }

  ghost predicate Untouched(parts: map<Path, Part>, n: nat) {
    && Added(n) !! parts.Keys && NoHit(EntriesAt(parts, TYPES), OverrideOf(Added(n)))
    && if CUSTOM in parts then NoHit(EntriesAt(parts, CUSTOM), PropertyNamed(PROPERTY))
       else NoHit(EntriesAt(parts, TYPES), CustomOverride) && NoHit(EntriesAt(parts, ROOT_RELS), CustomRelation)
  }

  /** Tells the part names the code handles apart. */
  function Rank(q: Path): nat {
    if |q| == 1 then 1
    else if |q| == 2 then (match q[1] case WORKBOOK_XML => 2 case SHARED_STRINGS_XML => 3 case CUSTOM_XML => 4 case _ => 5)
    else if |q| == 3 then (match q[1] case RELS_DIR => 6 case WORKSHEETS => 7 case DRAWINGS => 8 case _ => 9)
    else if |q| == 4 then (match q[1] case WORKSHEETS => 10 case _ => 11)
    else 0
  }

  lemma PathsApart(n: nat)
    ensures Rank(TYPES) == 1 && Rank(WORKBOOK) == 2 && Rank(SHARED) == 3 && Rank(CUSTOM) == 4 && Rank(ROOT_RELS) == 5
    ensures Rank(WORKBOOK_RELS) == 6 && Rank(Control(n)) == 7 && Rank(Drawing(n)) == 8 && Rank(Qr(n)) == 9
    ensures Rank(ControlRels(n)) == 10 && Rank(DrawingRels(n)) == 11
  {
  }

  /** What the watermarked package holds: the marked sheets, the registrations and the five parts. */
  ghost predicate Carries(e: map<Path, Part>, base: map<Path, Part>, marked: map<Path, Part>, c: Ctx, m: Manifest, rid: string, n: nat)
    requires WORKBOOK in base && base[WORKBOOK].Book?
  {
    var wb := base[WORKBOOK];
    && Added(n) <= e.Keys && {WORKBOOK, WORKBOOK_RELS} <= e.Keys
    && e[WORKBOOK] == Book(wb.sheets + [SheetEntry(m.control, MaxId(wb.sheets) + 1, rid)], wb.defined)
    && e[WORKBOOK_RELS] == Xml(EntriesAt(base, WORKBOOK_RELS) + [ControlRel(rid, n)])
    && e[Control(n)] == Sheet(ControlKids(c)) && e[Qr(n)] == Blob(c.qr)
    && e[ControlRels(n)] == Xml([ToDrawing(n)]) && e[DrawingRels(n)] == Xml([ToQr(n)])
    && forall q :: q in marked && q !in {WORKBOOK, WORKBOOK_RELS, TYPES, CUSTOM, ROOT_RELS} ==> q in e && e[q] == marked[q]
  }

  lemma RegisteredAt(parts: map<Path, Part>, title: string, rid: string, n: nat)
    requires WORKBOOK in parts && parts[WORKBOOK].Book?
    ensures var r := Registered(parts, title, rid, n); var wb := parts[WORKBOOK];
      && r.Keys == parts.Keys + {WORKBOOK_RELS, TYPES}
      && r[WORKBOOK] == Book(wb.sheets + [SheetEntry(title, MaxId(wb.sheets) + 1, rid)], wb.defined)
      && r[WORKBOOK_RELS] == Xml(EntriesAt(parts, WORKBOOK_RELS) + [ControlRel(rid, n)])
      && r[TYPES] == Xml(WithPng(EntriesAt(parts, TYPES)) + [SheetType(n), DrawingType(n)])
      && forall q :: q in parts && q !in {WORKBOOK, WORKBOOK_RELS, TYPES} ==> r[q] == parts[q]
  {
    PathsApart(n);
  }

  lemma FilesAt(parts: map<Path, Part>, c: Ctx, n: nat)
    ensures var r := WithFiles(parts, c, n);
      && r.Keys == parts.Keys + Added(n)
      && r[Control(n)] == Sheet(ControlKids(c)) && r[Qr(n)] == Blob(c.qr)
      && r[ControlRels(n)] == Xml([ToDrawing(n)]) && r[DrawingRels(n)] == Xml([ToQr(n)])
      && forall q :: q in parts && q !in Added(n) ==> r[q] == parts[q]
  {
    PathsApart(n);
  }

  lemma ControlAdded(parts: map<Path, Part>, c: Ctx, title: string, rid: string, n: nat)
    requires WORKBOOK in parts && parts[WORKBOOK].Book?
    ensures var r := WithControl(parts, c, title, rid, n); var wb := parts[WORKBOOK];
      && r.Keys == parts.Keys + Added(n) + {WORKBOOK_RELS, TYPES}
      && r[WORKBOOK] == Book(wb.sheets + [SheetEntry(title, MaxId(wb.sheets) + 1, rid)], wb.defined)
      && r[WORKBOOK_RELS] == Xml(EntriesAt(parts, WORKBOOK_RELS) + [ControlRel(rid, n)])
      && r[Control(n)] == Sheet(ControlKids(c)) && r[Qr(n)] == Blob(c.qr)
      && r[ControlRels(n)] == Xml([ToDrawing(n)]) && r[DrawingRels(n)] == Xml([ToQr(n)])
      && r[TYPES] == Xml(WithPng(EntriesAt(parts, TYPES)) + [SheetType(n), DrawingType(n)])
      && forall q :: q in parts && q !in Added(n) && q !in {WORKBOOK, WORKBOOK_RELS, TYPES} ==> r[q] == parts[q]
  {
    PathsApart(n);
    RegisteredAt(parts, title, rid, n);
    FilesAt(Registered(parts, title, rid, n), c, n);
  }

  lemma MarkedNames(parts: map<Path, Part>, d: Dict<Path>, header: string, footer: string)
    requires WellFormed(parts)
    ensures var r := MarkSheets(parts, d, |d.keys|, header, footer);
      && r[WORKBOOK] == parts[WORKBOOK] && r[WORKBOOK_RELS] == parts[WORKBOOK_RELS]
      && r[TYPES] == parts[TYPES] && r[ROOT_RELS] == parts[ROOT_RELS] && (CUSTOM in parts ==> r[CUSTOM] == parts[CUSTOM])
      && Title(r) == Title(parts) && ControlRid(r) == ControlRid(parts) && ControlIndex(r) == ControlIndex(parts)
  {
  }

  lemma WatermarkedIs(p: Package, c: Ctx)
    requires WellFormed(p.parts)
    ensures var d := SheetDict(p.parts);
      Watermark(p, c).0.parts
      == WithControl(MarkSheets(p.parts, d, |d.keys|, c.header, c.footer), c, Title(p.parts), ControlRid(p.parts), ControlIndex(p.parts))
    ensures Watermark(p, c).1.control == Title(p.parts)
  {
    MarkedNames(p.parts, SheetDict(p.parts), c.header, c.footer);
  }

  lemma SameRegistered(base: map<Path, Part>, marked: map<Path, Part>)
    requires WellFormed(base) && marked.Keys == base.Keys
    requires marked[WORKBOOK_RELS] == base[WORKBOOK_RELS] && marked[TYPES] == base[TYPES]
    ensures EntriesAt(marked, WORKBOOK_RELS) == EntriesAt(base, WORKBOOK_RELS) && EntriesAt(marked, TYPES) == EntriesAt(base, TYPES)
  {
  }

  lemma CarriesControl(base: map<Path, Part>, marked: map<Path, Part>, c: Ctx, m: Manifest, rid: string, n: nat)
    requires WellFormed(base) && marked.Keys == base.Keys && Added(n) !! base.Keys
    requires marked[WORKBOOK] == base[WORKBOOK] && marked[WORKBOOK_RELS] == base[WORKBOOK_RELS] && marked[TYPES] == base[TYPES]
    ensures var r := WithControl(marked, c, m.control, rid, n);
      && Carries(r, base, marked, c, m, rid, n) && r.Keys == base.Keys + Added(n)
      && r[TYPES] == Xml(WithPng(EntriesAt(base, TYPES)) + [SheetType(n), DrawingType(n)])
      && forall q :: q in base && q !in {WORKBOOK, WORKBOOK_RELS, TYPES} ==> r[q] == marked[q]
  {
    SameRegistered(base, marked);
    ControlAdded(marked, c, m.control, rid, n);
  }

  lemma WatermarkedParts(p: Package, c: Ctx, marked: map<Path, Part>, n: nat)
    requires WellFormed(p.parts) && Added(n) !! p.parts.Keys && n == ControlIndex(p.parts)
    requires var d := SheetDict(p.parts); marked == MarkSheets(p.parts, d, |d.keys|, c.header, c.footer)
    ensures var (q, m) := Watermark(p, c);
      && Carries(q.parts, p.parts, marked, c, m, ControlRid(p.parts), n)
      && m.control == Title(p.parts)
      && q.parts.Keys == p.parts.Keys + Added(n)
      && q.parts[TYPES] == Xml(WithPng(EntriesAt(p.parts, TYPES)) + [SheetType(n), DrawingType(n)])
      && q.parts[ROOT_RELS] == p.parts[ROOT_RELS] && (CUSTOM in p.parts ==> q.parts[CUSTOM] == p.parts[CUSTOM])
  {
    WatermarkedIs(p, c);
    MarkedNames(p.parts, SheetDict(p.parts), c.header, c.footer);
    CarriesControl(p.parts, marked, c, Watermark(p, c).1, ControlRid(p.parts), n);
    PathsApart(n);
  }

  /** The content types of an issued copy. */
  function IssuedTypes(types: seq<Entry>, n: nat, created: bool): seq<Entry> {
    WithPng(types) + [SheetType(n), DrawingType(n)] + if created then [CustomType()] else []
  }

  /** Embedding touches the content types, the package relationships and the custom part only. */
  lemma EmbedAt(q: Package, mark: string)
    requires {TYPES, ROOT_RELS} <= q.parts.Keys && q.parts[TYPES].Xml? && q.parts[ROOT_RELS].Xml? && Embed(q, mark).Some?
    ensures var (e, created) := Embed(q, mark).value; var types, rels := q.parts[TYPES].entries, q.parts[ROOT_RELS].entries;
      && e.parts.Keys == q.parts.Keys + {CUSTOM} && (created <==> CUSTOM !in q.parts)
      && (forall x :: x in q.parts && x !in {TYPES, CUSTOM, ROOT_RELS} ==> e.parts[x] == q.parts[x])
      && e.parts[CUSTOM] == Xml(WithMark(EntriesAt(q.parts, CUSTOM), mark))
      && e.parts[TYPES] == Xml(types + if created then [CustomType()] else [])
      && e.parts[ROOT_RELS].Xml?
      && (!created ==> e.parts[ROOT_RELS] == q.parts[ROOT_RELS])
      && (created ==> exists id :: e.parts[ROOT_RELS].entries == rels + [ToCustom(id)])
  {
    PathsApart(0);
    var types, rels := q.parts[TYPES].entries, q.parts[ROOT_RELS].entries;
    assert types + [] == types;
    if CUSTOM !in q.parts {
      var k := FreeNumber(RelIds(rels), 1).value;
      assert Embed(q, mark).value.0.parts[ROOT_RELS].entries == rels + [ToCustom(LxRid(k))];
    }
  }

  lemma CarriesKept(q: map<Path, Part>, e: map<Path, Part>, base: map<Path, Part>, marked: map<Path, Part>, c: Ctx, m: Manifest,
                    rid: string, n: nat)
    requires WellFormed(base) && Carries(q, base, marked, c, m, rid, n) && q.Keys <= e.Keys
    requires forall x :: x in q && x !in {TYPES, CUSTOM, ROOT_RELS} ==> e[x] == q[x]
    ensures Carries(e, base, marked, c, m, rid, n)
  {
    PathsApart(n);
  }

  lemma CustomApart(n: nat)
    ensures CUSTOM !in Added(n) && TYPES !in Added(n) && ROOT_RELS !in Added(n)
  {
    PathsApart(n);
  }

  lemma EmbeddedParts(q: Package, base: map<Path, Part>, marked: map<Path, Part>, c: Ctx, m: Manifest, rid: string, n: nat,
                      mark: string)
    requires WellFormed(base) && Carries(q.parts, base, marked, c, m, rid, n) && q.parts.Keys == base.Keys + Added(n)
    requires q.parts[TYPES] == Xml(WithPng(EntriesAt(base, TYPES)) + [SheetType(n), DrawingType(n)])
    requires q.parts[ROOT_RELS] == base[ROOT_RELS] && (CUSTOM in base ==> q.parts[CUSTOM] == base[CUSTOM])
    requires Embed(q, mark).Some?
    ensures var (e, created) := Embed(q, mark).value;
      && Carries(e.parts, base, marked, c, m, rid, n) && e.parts.Keys == base.Keys + Added(n) + {CUSTOM}
      && (created <==> CUSTOM !in base)
      && e.parts[TYPES] == Xml(IssuedTypes(EntriesAt(base, TYPES), n, created))
      && CarriesMark(e.parts, base, mark, created)
  {
    EmbedAt(q, mark);
    CarriesKept(q.parts, Embed(q, mark).value.0.parts, base, marked, c, m, rid, n);
    CustomApart(n);
    assert CUSTOM in q.parts <==> CUSTOM in base;
    assert EntriesAt(q.parts, CUSTOM) == EntriesAt(base, CUSTOM);
  }

  lemma TitleFresh(parts: map<Path, Part>)
    requires WellFormed(parts)
    ensures NoHit(SheetsOf(parts), SheetNamed(Title(parts))) && Title(parts) !in SheetDict(parts).at
    ensures NoHit(EntriesAt(parts, WORKBOOK_RELS), RelWithId(ControlRid(parts)))
  {
    var sheets, rels := SheetsOf(parts), EntriesAt(parts, WORKBOOK_RELS);
    SheetPartsValid(sheets, rels);
    forall i | 0 <= i < |sheets| && sheets[i].SheetEntry?
      ensures sheets[i].name != Title(parts)
    {
      assert sheets[i] in sheets && sheets[i].name in SheetNames(sheets);
    }
    forall i | 0 <= i < |rels| && rels[i].Rel?
      ensures rels[i].id != ControlRid(parts)
    {
      assert rels[i] in rels && rels[i].id in RelIds(rels);
    }
  }

  lemma PopPut(d: Dict<Path>, k: string, v: Path)
    requires DictValid(d) && k !in d.at
    ensures Pop(Put(d, k, v), k) == d
  {
    DropKeyNone(d.keys, k);
    assert (d.keys + [k])[..|d.keys|] == d.keys;
    assert d.at[k := v] - {k} == d.at;
  }

  /** One more sheet, with a relationship of its own, is one more entry of the dictionary. */
  lemma DictGrows(sheets: seq<Entry>, rels: seq<Entry>, sh: Entry, r: Entry)
    requires sh.SheetEntry? && r.Rel? && sh.rid == r.id
    requires forall i :: 0 <= i < |sheets| && sheets[i].SheetEntry? ==> sheets[i].rid != r.id
    ensures SheetParts(sheets + [sh], rels + [r])
         == Put(SheetParts(sheets, rels), sh.name, if r.target.absolute then r.target.path else [XL] + r.target.path)
  {
    SheetPartsIgnore(sheets, rels, r);
    assert (sheets + [sh])[..|sheets|] == sheets;
    assert (rels + [r])[|rels|] == r;
  }

  /** The copy's sheets are the original's, and the control sheet after them. */
  lemma IssuedDict(e: map<Path, Part>, base: map<Path, Part>, marked: map<Path, Part>, c: Ctx, m: Manifest, n: nat)
    requires WellFormed(base) && Linked(SheetsOf(base), EntriesAt(base, WORKBOOK_RELS))
    requires Carries(e, base, marked, c, m, ControlRid(base), n) && m.control == Title(base)
    ensures SheetDict(e) == Put(SheetDict(base), m.control, Control(n))
    ensures Pop(SheetDict(e), m.control) == SheetDict(base)
  {
    var sheets, rels, rid := SheetsOf(base), EntriesAt(base, WORKBOOK_RELS), ControlRid(base);
    TitleFresh(base);
    forall i | 0 <= i < |sheets| && sheets[i].SheetEntry?
      ensures sheets[i].rid != rid
    {
      assert sheets[i].rid in RelIds(rels);
    }
    DictGrows(sheets, rels, SheetEntry(m.control, MaxId(sheets) + 1, rid), ControlRel(rid, n));
    assert [XL] + [WORKSHEETS, CONTROL_XML(n)] == Control(n);
    SheetPartsValid(sheets, rels);
    PopPut(SheetDict(base), m.control, Control(n));
  }

  lemma TypesRestored(types: seq<Entry>, n: nat, created: bool)
    requires NoHit(types, OverrideOf(Added(n)))
    ensures Without(IssuedTypes(types, n, created), OverrideOf(Added(n))) == WithPng(types) + if created then [CustomType()] else []
  {
    var ours := WithPng(types) + [SheetType(n), DrawingType(n)];
    WithoutAppended(WithPng(types), [SheetType(n), DrawingType(n)], OverrideOf(Added(n)));
    PathsApart(n);
    assert Without(ours, OverrideOf(Added(n))) == WithPng(types);
    if created {
      assert IssuedTypes(types, n, created)[..|ours|] == ours;
      assert !Hits(OverrideOf(Added(n)), CustomType());
    } else {
      assert IssuedTypes(types, n, created) == ours;
    }
  }

  lemma BookRestored(sheets: seq<Entry>, defined: Option<seq<Entry>>, sh: Entry)
    requires sh.SheetEntry? && NoHit(sheets, SheetNamed(sh.name)) && NamesLocal(defined, |sheets|)
    ensures LastSheet(sheets + [sh], sh.name) == Some(|sheets|)
    ensures Without(sheets + [sh], SheetNamed(sh.name)) == sheets && ShiftDefined(defined, Some(|sheets|)) == defined
  {
    WithoutAppended(sheets, [sh], SheetNamed(sh.name));
    assert (sheets + [sh])[|sheets|] == sh;
    if defined.Some? {
      ShiftNone(defined.value, |sheets|);
    }
  }

  lemma DropControlAt(parts: map<Path, Part>, name: string, gone: set<Path>)
    requires WORKBOOK in parts && parts[WORKBOOK].Book?
    ensures var r := DropControl(parts, name, gone); var wb := parts[WORKBOOK]; var at := LastSheet(wb.sheets, name);
      && r.Keys == parts.Keys + {WORKBOOK_RELS, TYPES}
      && r[WORKBOOK] == Book(Without(wb.sheets, SheetNamed(name)), ShiftDefined(wb.defined, at))
      && (at.Some? ==> r[WORKBOOK_RELS] == Xml(Without(EntriesAt(parts, WORKBOOK_RELS), RelWithId(wb.sheets[at.value].rid))))
      && r[TYPES] == Xml(Without(EntriesAt(parts, TYPES), OverrideOf(gone)))
      && forall q :: q in parts && q !in {WORKBOOK, WORKBOOK_RELS, TYPES} ==> r[q] == parts[q]
  {
    PathsApart(0);
  }

  /** What taking the control sheet's name, relationship and content types out leaves. */
  lemma RegistrationRemoved(base: map<Path, Part>, sh: Entry, n: nat)
    requires WellFormed(base) && NamesLocal(base[WORKBOOK].defined, |SheetsOf(base)|)
    requires sh.SheetEntry? && sh.name == Title(base) && sh.rid == ControlRid(base)
    ensures var sheets, rels := SheetsOf(base), EntriesAt(base, WORKBOOK_RELS);
      && LastSheet(sheets + [sh], sh.name) == Some(|sheets|)
      && Without(sheets + [sh], SheetNamed(sh.name)) == sheets
      && ShiftDefined(base[WORKBOOK].defined, Some(|sheets|)) == base[WORKBOOK].defined
      && Without(rels + [ControlRel(sh.rid, n)], RelWithId(sh.rid)) == rels
  {
    TitleFresh(base);
    BookRestored(SheetsOf(base), base[WORKBOOK].defined, sh);
    WithoutAppended(EntriesAt(base, WORKBOOK_RELS), [ControlRel(sh.rid, n)], RelWithId(sh.rid));
  }

  /** The control sheet is registered in e: in the workbook, its relationships and the content types. */
  ghost predicate HasControl(e: map<Path, Part>, base: map<Path, Part>, m: Manifest, n: nat, created: bool) {
    && WellFormed(base) && NamesLocal(base[WORKBOOK].defined, |SheetsOf(base)|)
    && NoHit(EntriesAt(base, TYPES), OverrideOf(Added(n)))
    && m.control == Title(base) && {WORKBOOK, WORKBOOK_RELS, TYPES} <= e.Keys
    && (var wb := base[WORKBOOK];
        e[WORKBOOK] == Book(wb.sheets + [SheetEntry(m.control, MaxId(wb.sheets) + 1, ControlRid(base))], wb.defined))
    && e[WORKBOOK_RELS] == Xml(EntriesAt(base, WORKBOOK_RELS) + [ControlRel(ControlRid(base), n)])
    && e[TYPES] == Xml(IssuedTypes(EntriesAt(base, TYPES), n, created))
  }

  lemma BookDropped(e: map<Path, Part>, base: map<Path, Part>, m: Manifest, n: nat, created: bool)
    requires HasControl(e, base, m, n, created)
    ensures var wb := e[WORKBOOK]; var at := LastSheet(wb.sheets, m.control);
      && at.Some? && Book(Without(wb.sheets, SheetNamed(m.control)), ShiftDefined(wb.defined, at)) == base[WORKBOOK]
      && Xml(Without(EntriesAt(e, WORKBOOK_RELS), RelWithId(wb.sheets[at.value].rid))) == base[WORKBOOK_RELS]
  {
    var sh := SheetEntry(m.control, MaxId(SheetsOf(base)) + 1, ControlRid(base));
    RegistrationRemoved(base, sh, n);
    assert (SheetsOf(base) + [sh])[|SheetsOf(base)|] == sh;
  }

  /** Without the control sheet the workbook and its relationships are the original's. */
  lemma ControlDropped(e: map<Path, Part>, base: map<Path, Part>, m: Manifest, n: nat, created: bool)
    requires HasControl(e, base, m, n, created)
    ensures var r := DropControl(e, m.control, Added(n));
      && r.Keys == e.Keys && r[WORKBOOK] == base[WORKBOOK] && r[WORKBOOK_RELS] == base[WORKBOOK_RELS]
      && r[TYPES] == Xml(WithPng(EntriesAt(base, TYPES)) + if created then [CustomType()] else [])
      && forall q :: q in e && q !in {WORKBOOK, WORKBOOK_RELS, TYPES} ==> r[q] == e[q]
  {
    BookDropped(e, base, m, n, created);
    TypesRestored(EntriesAt(base, TYPES), n, created);
    DropControlAt(e, m.control, Added(n));
  }

  /** The parts after one round: sheets in normal form, everything else as it was. */
  ghost function Normalised(base: map<Path, Part>): map<Path, Part> {
    var d := SheetDict(base);
    map q | q in base :: if IsSheetPart(d, |d.keys|, q) then NormalPart(base, q) else base[q]
  }

  lemma {:induction false} GoneNone(names: seq<string>, d: Dict<Path>, control: string)
    requires forall i :: 0 <= i < |names| ==> names[i] in d.at
    ensures GoneFindings(names, d, control) == []
  {
    if names != [] {
      GoneNone(names[..|names| - 1], d, control);
    }
  }

  lemma ManifestRemembers(p: Package, c: Ctx)
    requires WellFormed(p.parts) && DistinctSheets(p.parts, SheetDict(p.parts))
    ensures var m := Watermark(p, c).1; var d := SheetDict(p.parts);
      Remembers(m, p.parts, d) && forall control :: GoneFindings(m.originals.keys, d, control) == []
  {
    var d := SheetDict(p.parts);
    var m := Watermark(p, c).1;
    SheetPartsValid(SheetsOf(p.parts), EntriesAt(p.parts, WORKBOOK_RELS));
    OriginalsKeys(p.parts, d, |d.keys|, c.header, c.footer);
    forall i | 0 <= i < |d.keys|
      ensures d.keys[i] in m.originals.at <==> SheetAt(p.parts, PartAt(d, i))
      ensures d.keys[i] in m.originals.at ==> m.originals.at[d.keys[i]] == FirstHf(p.parts[PartAt(d, i)].kids)
    {
      OriginalsAt(p.parts, d, |d.keys|, c.header, c.footer, i);
    }
    forall control
      ensures GoneFindings(m.originals.keys, d, control) == []
    {
      GoneNone(m.originals.keys, d, control);
    }
  }

  /** The checks on the control sheet of an untouched copy find nothing. */
  lemma ControlUntouched(e: map<Path, Part>, c: Ctx, m: Manifest, n: nat)
    requires Added(n) <= e.Keys && e[Control(n)] == Sheet(ControlKids(c)) && e[Qr(n)] == Blob(c.qr)
    requires e[ControlRels(n)] == Xml([ToDrawing(n)]) && e[DrawingRels(n)] == Xml([ToQr(n)])
    requires m.lines == NonEmpty(c.lines) && m.qr == Blob(c.qr)
    ensures ControlIntact(e, Control(n), m)
  {
    ControlReadsBack(c, SharedOf(e));
    assert KidsAt(e, Control(n)) == ControlKids(c);
    assert NonEmpty(SheetTexts(KidsAt(e, Control(n)), SharedOf(e))) == m.lines;
    ControlReached(e, n);
    QrRead(e, ControlReach(e, Control(n)).1, Qr(n));
  }

  lemma QrRead(e: map<Path, Part>, images: seq<Path>, q: Path)
    requires images == [q] && q in e
    ensures Contents(e, images) == [e[q]]
  {
  }

  lemma StrippedAt(r: map<Path, Part>, base: map<Path, Part>, m: Manifest, q: Path)
    requires WellFormed(base) && DistinctSheets(base, SheetDict(base)) && Remembers(m, base, SheetDict(base)) && q in r
    requires var d := SheetDict(base); forall x :: SheetAt(base, x) && IsSheetPart(d, |d.keys|, x) ==>
      x in r && r[x] == Sheet(SetHf(base[x].kids, m.header, m.footer))
    ensures var d := SheetDict(base);
      && RestoreSheets(r, d, |d.keys|, m)[q] == (if q in base && IsSheetPart(d, |d.keys|, q) then NormalPart(base, q) else r[q])
      && HeaderFindings(r, d, |d.keys|, m) == []
  {
    var d := SheetDict(base);
    forall i | 0 <= i < |d.keys| && SheetAt(base, PartAt(d, i))
      ensures PartAt(d, i) in r && r[PartAt(d, i)] == Sheet(SetHf(base[PartAt(d, i)].kids, m.header, m.footer))
    {
      assert IsSheetPart(d, |d.keys|, PartAt(d, i));
    }
    Restored(base, r, d, |d.keys|, m, q);
    NothingChanged(base, r, d, m);
    SheetPartsValid(SheetsOf(base), EntriesAt(base, WORKBOOK_RELS));
    if q in base && IsSheetPart(d, |d.keys|, q) {
      var i :| 0 <= i < |d.keys| && PartAt(d, i) == q;
      assert d.keys[i] in d.at && base[d.at[d.keys[i]]].Sheet?;
    }
  }

  /** e is the copy of base issued for c and recorded in m. */
  ghost predicate Issued(e: map<Path, Part>, base: map<Path, Part>, c: Ctx, m: Manifest, n: nat, created: bool) {
    && WellFormed(base) && DistinctSheets(base, SheetDict(base)) && Remembers(m, base, SheetDict(base))
    && Linked(SheetsOf(base), EntriesAt(base, WORKBOOK_RELS)) && NamesLocal(base[WORKBOOK].defined, |SheetsOf(base)|)
    && NoHit(EntriesAt(base, TYPES), OverrideOf(Added(n))) && Added(n) !! base.Keys
    && m.header == c.header && m.footer == c.footer && m.lines == NonEmpty(c.lines) && m.qr == Blob(c.qr)
    && m.control == Title(base) && GoneFindings(m.originals.keys, SheetDict(base), m.control) == []
    && (var d := SheetDict(base);
        Carries(e, base, MarkSheets(base, d, |d.keys|, c.header, c.footer), c, m, ControlRid(base), n))
    && e.Keys == base.Keys + Added(n) + {CUSTOM}
    && e[TYPES] == Xml(IssuedTypes(EntriesAt(base, TYPES), n, created))
  }

  lemma ControlPartIs(e: map<Path, Part>, d: Dict<Path>, m: Manifest, q: Path)
    requires SheetDict(e) == Put(d, m.control, q) && q in e
    ensures ControlPart(e, m) == Some(q)
  {
  }

  lemma StripIs(ep: Package, m: Manifest, d: Dict<Path>, control: Path, gone: set<Path>)
    requires WORKBOOK in ep.parts && ep.parts[WORKBOOK].Book?
    requires ControlPart(ep.parts, m) == Some(control) && Gone(ep.parts, control) == gone
    requires ControlIntact(ep.parts, control, m) && Pop(SheetDict(ep.parts), m.control) == d
    requires GoneFindings(m.originals.keys, d, m.control) == []
    ensures var r := DropControl(ep.parts, m.control, gone);
      Strip(ep, m) == (Package(Skip(TypesFirst(ep.names), gone), RestoreSheets(r, d, |d.keys|, m) - gone),
                       HeaderFindings(r, d, |d.keys|, m))
  {
    var r := DropControl(ep.parts, m.control, gone);
    assert RemovedParts(ep.parts, Some(control)) == gone && ControlFindings(ep.parts, Some(control), m) == [];
    var h := HeaderFindings(r, d, |d.keys|, m);
    assert [] + h + [] == h;
  }

  lemma IssuedStrip(ep: Package, base: map<Path, Part>, c: Ctx, m: Manifest, n: nat, created: bool)
    requires Issued(ep.parts, base, c, m, n, created)
    ensures var d := SheetDict(base); var r := DropControl(ep.parts, m.control, Added(n));
      Strip(ep, m) == (Package(Skip(TypesFirst(ep.names), Added(n)), RestoreSheets(r, d, |d.keys|, m) - Added(n)),
                       HeaderFindings(r, d, |d.keys|, m))
  {
    var e, d := ep.parts, SheetDict(base);
    IssuedDict(e, base, MarkSheets(base, d, |d.keys|, c.header, c.footer), c, m, n);
    ControlPartIs(e, d, m, Control(n));
    ControlReached(e, n);
    ControlGone(e, n);
    ControlUntouched(e, c, m, n);
    StripIs(ep, m, d, Control(n), Added(n));
  }

  ghost function WithHf(base: map<Path, Part>, header: string, footer: string, q: Path): Part
    requires q in base
  {
    var d := SheetDict(base);
    if IsSheetPart(d, |d.keys|, q) && base[q].Sheet? then Sheet(SetHf(base[q].kids, header, footer)) else base[q]
  }

  /** Without the control sheet, the copy is the original with our header and footer on each sheet. */
  lemma Unwrapped(e: map<Path, Part>, base: map<Path, Part>, c: Ctx, m: Manifest, n: nat, created: bool, q: Path)
    requires Issued(e, base, c, m, n, created) && q in base && q !in {TYPES, CUSTOM, ROOT_RELS}
    ensures var r := DropControl(e, m.control, Added(n)); q in r && r[q] == WithHf(base, m.header, m.footer, q)
  {
    var d := SheetDict(base);
    var marked := MarkSheets(base, d, |d.keys|, c.header, c.footer);
    ControlDropped(e, base, m, n, created);
    Marked(base, d, |d.keys|, c.header, c.footer, q);
  }

  lemma RestoredPart(r: map<Path, Part>, base: map<Path, Part>, m: Manifest, q: Path)
    requires WellFormed(base) && DistinctSheets(base, SheetDict(base)) && Remembers(m, base, SheetDict(base)) && q in r
    requires forall x :: x in base && x !in {TYPES, CUSTOM, ROOT_RELS} ==> x in r && r[x] == WithHf(base, m.header, m.footer, x)
    ensures var d := SheetDict(base);
      && HeaderFindings(r, d, |d.keys|, m) == []
      && (q in {TYPES, CUSTOM, ROOT_RELS} ==> RestoreSheets(r, d, |d.keys|, m)[q] == r[q])
      && (q in base && q !in {TYPES, CUSTOM, ROOT_RELS} ==> RestoreSheets(r, d, |d.keys|, m)[q] == Normalised(base)[q])
  {
    var d := SheetDict(base);
    forall x | SheetAt(base, x) && IsSheetPart(d, |d.keys|, x)
      ensures x in r && r[x] == Sheet(SetHf(base[x].kids, m.header, m.footer))
    {
      assert x !in {TYPES, CUSTOM, ROOT_RELS};
    }
    StrippedAt(r, base, m, q);
  }

  lemma RestoredParts(r: map<Path, Part>, base: map<Path, Part>, m: Manifest, gone: set<Path>)
    requires WellFormed(base) && DistinctSheets(base, SheetDict(base)) && Remembers(m, base, SheetDict(base))
    requires r.Keys == base.Keys + gone + {CUSTOM} && gone !! base.Keys + {CUSTOM}
    requires forall x :: x in base && x !in {TYPES, CUSTOM, ROOT_RELS} ==> x in r && r[x] == WithHf(base, m.header, m.footer, x)
    ensures var d := SheetDict(base); var left := RestoreSheets(r, d, |d.keys|, m) - gone;
      && HeaderFindings(r, d, |d.keys|, m) == [] && left.Keys == base.Keys + {CUSTOM}
      && left[TYPES] == r[TYPES] && left[CUSTOM] == r[CUSTOM] && left[ROOT_RELS] == r[ROOT_RELS]
      && forall q :: q in base && q !in {TYPES, CUSTOM, ROOT_RELS} ==> left[q] == Normalised(base)[q]
  {
    var d := SheetDict(base);
    RestoredPart(r, base, m, TYPES);
    RestoredPart(r, base, m, CUSTOM);
    RestoredPart(r, base, m, ROOT_RELS);
    forall q | q in base && q !in {TYPES, CUSTOM, ROOT_RELS}
      ensures RestoreSheets(r, d, |d.keys|, m)[q] == Normalised(base)[q]
    {
      RestoredPart(r, base, m, q);
    }
  }

  /** Stripping an issued copy: no findings, and every part of the original in normal form. */
  lemma StripIssued(ep: Package, base: map<Path, Part>, c: Ctx, m: Manifest, n: nat, created: bool)
    requires Issued(ep.parts, base, c, m, n, created)
    ensures var (sp, findings) := Strip(ep, m);
      && findings == [] && sp.names == Skip(TypesFirst(ep.names), Added(n)) && sp.parts.Keys == base.Keys + {CUSTOM}
      && sp.parts[TYPES] == Xml(WithPng(EntriesAt(base, TYPES)) + if created then [CustomType()] else [])
      && sp.parts[CUSTOM] == ep.parts[CUSTOM] && sp.parts[ROOT_RELS] == ep.parts[ROOT_RELS]
      && forall q :: q in base && q !in {TYPES, CUSTOM, ROOT_RELS} ==> sp.parts[q] == Normalised(base)[q]
  {
    var e, d := ep.parts, SheetDict(base);
    var r := DropControl(e, m.control, Added(n));
    IssuedStrip(ep, base, c, m, n, created);
    PathsApart(n);
    forall q | q in base && q !in {TYPES, CUSTOM, ROOT_RELS}
      ensures q in r && r[q] == WithHf(base, m.header, m.footer, q)
    {
      Unwrapped(e, base, c, m, n, created, q);
    }
    DroppedKeys(e, base, c, m, n, created);
    RestoredParts(r, base, m, Added(n));
  }

  lemma NamesApart(n: nat)
    ensures CUSTOM !in Added(n) && CUSTOM !in {WORKBOOK, WORKBOOK_RELS, TYPES} && ROOT_RELS !in {WORKBOOK, WORKBOOK_RELS, TYPES}
  {
    PathsApart(n);
  }

  lemma DroppedParts(e: map<Path, Part>, base: map<Path, Part>, m: Manifest, n: nat, created: bool)
    requires HasControl(e, base, m, n, created) && e.Keys == base.Keys + Added(n) + {CUSTOM} && ROOT_RELS in base
    ensures var r := DropControl(e, m.control, Added(n));
      && r.Keys == e.Keys && r[CUSTOM] == e[CUSTOM] && r[ROOT_RELS] == e[ROOT_RELS]
      && r[TYPES] == Xml(WithPng(EntriesAt(base, TYPES)) + if created then [CustomType()] else [])
  {
    ControlDropped(e, base, m, n, created);
    NamesApart(n);
  }

  lemma DroppedKeys(e: map<Path, Part>, base: map<Path, Part>, c: Ctx, m: Manifest, n: nat, created: bool)
    requires Issued(e, base, c, m, n, created)
    ensures var r := DropControl(e, m.control, Added(n));
      && r.Keys == base.Keys + Added(n) + {CUSTOM} && Added(n) !! base.Keys + {CUSTOM}
      && r[TYPES] == Xml(WithPng(EntriesAt(base, TYPES)) + if created then [CustomType()] else [])
      && r[CUSTOM] == e[CUSTOM] && r[ROOT_RELS] == e[ROOT_RELS]
  {
    DroppedParts(e, base, m, n, created);
    CustomApart(n);
  }

  lemma {:induction false} SkipConcat(a: seq<Path>, b: seq<Path>, gone: set<Path>)
    ensures Skip(a + b, gone) == Skip(a, gone) + Skip(b, gone)
  {
    if b == [] {
      assert a + b == a;
    } else {
      assert (a + b)[..|a + b| - 1] == a + b[..|b| - 1];
      SkipConcat(a, b[..|b| - 1], gone);
    }
  }

  lemma {:induction false} SkipNone(a: seq<Path>, gone: set<Path>)
    requires forall i :: 0 <= i < |a| ==> a[i] !in gone
    ensures Skip(a, gone) == a
  {
    if a != [] {
      SkipNone(a[..|a| - 1], gone);
    }
  }

  lemma {:induction false} SkipAll(a: seq<Path>, gone: set<Path>)
    requires forall i :: 0 <= i < |a| ==> a[i] in gone
    ensures Skip(a, gone) == []
  {
    if a != [] {
      SkipAll(a[..|a| - 1], gone);
    }
  }

  lemma {:induction false} SkipMembers(a: seq<Path>, gone: set<Path>)
    ensures forall i :: 0 <= i < |Skip(a, gone)| ==> Skip(a, gone)[i] in a && Skip(a, gone)[i] !in gone
  {
    if a != [] {
      SkipMembers(a[..|a| - 1], gone);
    }
  }

  /** Names in front that stay, names behind that go. */
  lemma SkipBehind(a: seq<Path>, b: seq<Path>, gone: set<Path>)
    requires (forall i :: 0 <= i < |a| ==> a[i] !in gone) && forall i :: 0 <= i < |b| ==> b[i] in gone
    ensures Skip(a + b, gone) == a
  {
    SkipConcat(a, b, gone);
    SkipNone(a, gone);
    SkipAll(b, gone);
  }

  lemma TypesFirstOnce(rest: seq<Path>)
    requires forall i :: 0 <= i < |rest| ==> rest[i] != TYPES
    ensures TypesFirst([TYPES] + rest) == [TYPES] + rest
  {
    SkipConcat([TYPES], rest, {TYPES});
    SkipAll([TYPES], {TYPES});
    SkipNone(rest, {TYPES});
  }

  lemma IssuedNames(names: seq<Path>, n: nat, tail: seq<Path>)
    requires (forall q :: q in Added(n) ==> q !in names) && tail in {[], [CUSTOM]}
    ensures TypesFirst(TypesFirst(names) + NewNames(names, n) + tail)
         == TypesFirst(names) + [Control(n), Qr(n), ControlRels(n), DrawingRels(n), Drawing(n)] + tail
  {
    PathsApart(n);
    var kept, five := Skip(names, {TYPES}), [Control(n), Qr(n), ControlRels(n), DrawingRels(n), Drawing(n)];
    SkipMembers(names, {TYPES});
    SkipNone(five, set q | q in names);
    assert TypesFirst(names) + five + tail == [TYPES] + (kept + five + tail);
    TypesFirstOnce(kept + five + tail);
  }

  lemma StrippedNames(names: seq<Path>, n: nat, tail: seq<Path>)
    requires (forall q :: q in Added(n) ==> q !in names) && tail in {[], [CUSTOM]}
    ensures var e := TypesFirst(names) + [Control(n), Qr(n), ControlRels(n), DrawingRels(n), Drawing(n)] + tail;
      Skip(TypesFirst(e), Added(n)) == TypesFirst(names) + tail
  {
    PathsApart(n);
    var kept, five := Skip(names, {TYPES}), [Control(n), Qr(n), ControlRels(n), DrawingRels(n), Drawing(n)];
    var e := TypesFirst(names) + five + tail;
    SkipMembers(names, {TYPES});
    assert e == [TYPES] + (kept + five + tail);
    TypesFirstOnce(kept + five + tail);
    SkipConcat(TypesFirst(names) + five, tail, Added(n));
    SkipBehind(TypesFirst(names), five, Added(n));
    SkipNone(tail, Added(n));
  }

  /** The archive lists what it listed, content types first. */
  lemma NamesRoundTrip(names: seq<Path>, n: nat, created: bool)
    requires (forall q :: q in Added(n) ==> q !in names) && (created ==> CUSTOM !in names)
    ensures var e := TypesFirst(TypesFirst(names) + NewNames(names, n) + if created then [CUSTOM] else []);
      var s := Skip(TypesFirst(e), Added(n));
      TypesFirst(if created then Skip(s, {CUSTOM}) else s) == TypesFirst(names)
  {
    var tail := if created then [CUSTOM] else [];
    IssuedNames(names, n, tail);
    StrippedNames(names, n, tail);
    SkipMembers(names, {TYPES});
    TypesFirstOnce(Skip(names, {TYPES}));
    if created {
      PathsApart(n);
      SkipBehind(TypesFirst(names), tail, {CUSTOM});
    } else {
      assert TypesFirst(names) + tail == TypesFirst(names);
    }
  }

  /** What embedding the mark did to the custom part and the package relationships. */
  ghost predicate CarriesMark(e: map<Path, Part>, base: map<Path, Part>, mark: string, created: bool) {
    && {CUSTOM, ROOT_RELS} <= e.Keys && e[CUSTOM] == Xml(WithMark(EntriesAt(base, CUSTOM), mark)) && e[ROOT_RELS].Xml?
    && if created then exists id :: e[ROOT_RELS].entries == EntriesAt(base, ROOT_RELS) + [ToCustom(id)]
       else ROOT_RELS in base && e[ROOT_RELS] == base[ROOT_RELS]
  }

  lemma Recorded(p: Package, c: Ctx)
    requires WellFormed(p.parts)
    ensures var m := Watermark(p, c).1;
      m.header == c.header && m.footer == c.footer && m.lines == NonEmpty(c.lines) && m.qr == Blob(c.qr) && m.control == Title(p.parts)
  {
    WatermarkedIs(p, c);
  }

  lemma IssuedCopy(p: Package, c: Ctx, mark: string)
    requires Tidy(p) && Embed(Watermark(p, c).0, mark).Some?
    ensures var (q, m) := Watermark(p, c); var (e, created) := Embed(q, mark).value;
      && Issued(e.parts, p.parts, c, m, ControlIndex(p.parts), created) && (created <==> CUSTOM !in p.parts)
      && CarriesMark(e.parts, p.parts, mark, created)
  {
    var base, d, n := p.parts, SheetDict(p.parts), ControlIndex(p.parts);
    var marked := MarkSheets(base, d, |d.keys|, c.header, c.footer);
    var (q, m) := Watermark(p, c);
    WatermarkedParts(p, c, marked, n);
    Recorded(p, c);
    ManifestRemembers(p, c);
    IssuedEmbedded(q, base, marked, c, m, n, mark);
  }

  lemma IssuedEmbedded(q: Package, base: map<Path, Part>, marked: map<Path, Part>, c: Ctx, m: Manifest, n: nat, mark: string)
    requires WellFormed(base) && DistinctSheets(base, SheetDict(base)) && Remembers(m, base, SheetDict(base))
    requires Linked(SheetsOf(base), EntriesAt(base, WORKBOOK_RELS)) && NamesLocal(base[WORKBOOK].defined, |SheetsOf(base)|)
    requires NoHit(EntriesAt(base, TYPES), OverrideOf(Added(n))) && Added(n) !! base.Keys
    requires m.header == c.header && m.footer == c.footer && m.lines == NonEmpty(c.lines) && m.qr == Blob(c.qr)
    requires m.control == Title(base) && GoneFindings(m.originals.keys, SheetDict(base), m.control) == []
    requires var d := SheetDict(base); marked == MarkSheets(base, d, |d.keys|, c.header, c.footer)
    requires Carries(q.parts, base, marked, c, m, ControlRid(base), n) && q.parts.Keys == base.Keys + Added(n)
    requires q.parts[TYPES] == Xml(WithPng(EntriesAt(base, TYPES)) + [SheetType(n), DrawingType(n)])
    requires q.parts[ROOT_RELS] == base[ROOT_RELS] && (CUSTOM in base ==> q.parts[CUSTOM] == base[CUSTOM])
    requires Embed(q, mark).Some?
    ensures var (e, created) := Embed(q, mark).value;
      Issued(e.parts, base, c, m, n, created) && (created <==> CUSTOM !in base) && CarriesMark(e.parts, base, mark, created)
  {
    EmbeddedParts(q, base, marked, c, m, ControlRid(base), n, mark);
  }

  lemma CreatedMarkRemoved(s: Package, base: map<Path, Part>, mark: string)
    requires WellFormed(base) && CUSTOM !in base && TYPES in s.parts && CarriesMark(s.parts, base, mark, true)
    requires NoHit(EntriesAt(base, TYPES), CustomOverride) && NoHit(EntriesAt(base, ROOT_RELS), CustomRelation)
    requires s.parts[TYPES] == Xml(WithPng(EntriesAt(base, TYPES)) + [CustomType()])
    ensures RemoveMark(s, true) == Package(TypesFirst(Skip(s.names, {CUSTOM})),
      s.parts[TYPES := Xml(WithPng(EntriesAt(base, TYPES)))][ROOT_RELS := base[ROOT_RELS]] - {CUSTOM})
  {
    var types, rels := EntriesAt(base, TYPES), EntriesAt(base, ROOT_RELS);
    WithoutAppended([], [Property(PROPERTY, MaxPid([]) + 1, mark)], PropertyNamed(PROPERTY));
    var id :| s.parts[ROOT_RELS].entries == rels + [ToCustom(id)];
    WithoutAppended(rels, [ToCustom(id)], CustomRelation);
    WithoutAppended(WithPng(types), [CustomType()], CustomOverride);
    assert EntriesAt(s.parts, TYPES) == WithPng(types) + [CustomType()];
  }

  lemma KeptMarkRemoved(s: Package, base: map<Path, Part>, mark: string)
    requires WellFormed(base) && CUSTOM in base && CarriesMark(s.parts, base, mark, false)
    requires NoHit(EntriesAt(base, CUSTOM), PropertyNamed(PROPERTY))
    ensures RemoveMark(s, false) == Package(TypesFirst(s.names), s.parts[CUSTOM := base[CUSTOM]])
  {
    var props := EntriesAt(base, CUSTOM);
    WithoutAppended(props, [Property(PROPERTY, MaxPid(props) + 1, mark)], PropertyNamed(PROPERTY));
  }

  /** The hidden property comes off, with its part, type and relationship if the copy added them. */
  lemma MarkRemoved(s: Package, base: map<Path, Part>, mark: string, created: bool)
    requires WellFormed(base) && Untouched(base, ControlIndex(base)) && (created <==> CUSTOM !in base)
    requires CarriesMark(s.parts, base, mark, created) && s.parts.Keys == base.Keys + {CUSTOM}
    requires s.parts[TYPES] == Xml(WithPng(EntriesAt(base, TYPES)) + if created then [CustomType()] else [])
    requires forall q :: q in base && q !in {TYPES, CUSTOM, ROOT_RELS} ==> s.parts[q] == Normalised(base)[q]
    ensures RemoveMark(s, created).names == TypesFirst(if created then Skip(s.names, {CUSTOM}) else s.names)
    ensures RemoveMark(s, created).parts == Normalised(base)[TYPES := Xml(WithPng(EntriesAt(base, TYPES)))]
  {
    PathsApart(0);
    NormalNames(base);
    if created {
      CreatedMarkRemoved(s, base, mark);
    } else {
      assert WithPng(EntriesAt(base, TYPES)) + [] == WithPng(EntriesAt(base, TYPES));
      KeptMarkRemoved(s, base, mark);
    }
  }

  lemma NormalNames(base: map<Path, Part>)
    requires WellFormed(base)
    ensures Normalised(base).Keys == base.Keys && forall q :: q in base && !base[q].Sheet? ==> Normalised(base)[q] == base[q]
  {
  }

  lemma IssuedArchiveNames(p: Package, c: Ctx, mark: string)
    requires WellFormed(p.parts) && Embed(Watermark(p, c).0, mark).Some?
    ensures var (e, created) := Embed(Watermark(p, c).0, mark).value;
      e.names == TypesFirst(TypesFirst(p.names) + NewNames(p.names, ControlIndex(p.parts)) + if created then [CUSTOM] else [])
  {
    var q := Watermark(p, c).0;
    MarkedNames(p.parts, SheetDict(p.parts), c.header, c.footer);
    assert q.names == TypesFirst(p.names) + NewNames(p.names, ControlIndex(p.parts));
    assert q.names + [] == q.names;
  }

  lemma StrippedAndUnmarked(e: Package, base: map<Path, Part>, c: Ctx, m: Manifest, n: nat, mark: string, created: bool)
    requires Issued(e.parts, base, c, m, n, created) && Untouched(base, ControlIndex(base))
    requires (created <==> CUSTOM !in base) && CarriesMark(e.parts, base, mark, created)
    ensures var (s, findings) := Strip(e, m); var sn := Skip(TypesFirst(e.names), Added(n));
      && findings == []
      && RemoveMark(s, created).names == TypesFirst(if created then Skip(sn, {CUSTOM}) else sn)
      && RemoveMark(s, created).parts == Normalised(base)[TYPES := Xml(WithPng(EntriesAt(base, TYPES)))]
  {
    StripIssued(e, base, c, m, n, created);
    MarkRemoved(Strip(e, m).0, base, mark, created);
  }

  /** The whole round. Issue a copy, return it untouched, strip it: no findings; the same parts in the
      same order, content types first; every sheet in normal form; every relationship, defined name,
      custom property and other part as it was; and at most a png default added to the content types. */
  lemma RoundTrip(p: Package, c: Ctx, mark: string)
    requires Tidy(p) && Embed(Watermark(p, c).0, mark).Some?
    ensures var (q, m) := Watermark(p, c); var (e, created) := Embed(q, mark).value; var (s, findings) := Strip(e, m);
      && findings == []
      && RemoveMark(s, created).names == TypesFirst(p.names)
      && RemoveMark(s, created).parts == Normalised(p.parts)[TYPES := Xml(WithPng(EntriesAt(p.parts, TYPES)))]
  {
    var n := ControlIndex(p.parts);
    var m := Watermark(p, c).1;
    var (e, created) := Embed(Watermark(p, c).0, mark).value;
    IssuedCopy(p, c, mark);
    IssuedArchiveNames(p, c, mark);
    StrippedAndUnmarked(e, p.parts, c, m, n, mark, created);
    assert forall q :: q in Added(n) ==> q !in p.parts.Keys;
    NamesRoundTrip(p.names, n, created);
  }

  /** Every sheet's headerFooter was in place: in normal form already. */
  ghost predicate SheetsInPlace(parts: map<Path, Part>)
    requires WellFormed(parts)
  {
    forall q :: q in parts && parts[q].Sheet? && q in SheetDict(parts).at.Values ==> HfInPlace(parts[q].kids)
  }

  lemma NormalAlready(base: map<Path, Part>, q: Path)
    requires WellFormed(base) && q in base && base[q].Sheet?
    ensures Normalised(base)[q] == base[q] <==> (q in SheetDict(base).at.Values ==> HfInPlace(base[q].kids))
  {
    var d := SheetDict(base);
    SheetPartsValid(SheetsOf(base), EntriesAt(base, WORKBOOK_RELS));
    NormalIffInPlace(base[q].kids);
    if q in d.at.Values {
      var k :| k in d.at && d.at[k] == q;
      var i :| 0 <= i < |d.keys| && d.keys[i] == k;
      assert PartAt(d, i) == q;
    }
  }

  lemma NormalisedExactly(base: map<Path, Part>)
    requires WellFormed(base)
    ensures (forall q :: q in base ==> Normalised(base)[q] == base[q]) <==> SheetsInPlace(base)
  {
    forall q | q in base && base[q].Sheet?
      ensures Normalised(base)[q] == base[q] <==> (q in SheetDict(base).at.Values ==> HfInPlace(base[q].kids))
    {
      NormalAlready(base, q);
    }
  }

  /** After the whole round (watermark, embed, strip, take the mark off) every part but the content
      types is exactly what it was if, and only if, the headerFooters were in place; and the
      content types are too if, and only if, images were already declared in them. */
  lemma RestoredExactly(p: Package, c: Ctx, mark: string)
    requires Tidy(p) && Embed(Watermark(p, c).0, mark).Some?
    ensures var (q, m) := Watermark(p, c); var (e, created) := Embed(q, mark).value; var s := Strip(e, m).0;
      var back := RemoveMark(s, created).parts;
      && ((back.Keys == p.parts.Keys && forall x :: x in p.parts && x != TYPES ==> back[x] == p.parts[x]) <==> SheetsInPlace(p.parts))
      && (back == p.parts <==> SheetsInPlace(p.parts) && HasPng(EntriesAt(p.parts, TYPES)))
  {
    RoundTrip(p, c, mark);
    NormalisedExactly(p.parts);
    TypesBack(p.parts);
  }

  lemma TypesBack(base: map<Path, Part>)
    requires WellFormed(base)
    ensures var types := EntriesAt(base, TYPES); var back := Normalised(base)[TYPES := Xml(WithPng(types))];
      && back.Keys == base.Keys && Normalised(base)[TYPES] == base[TYPES]
      && (back[TYPES] == base[TYPES] <==> HasPng(types))
      && (back == base <==> forall x :: x in base ==> back[x] == base[x])
      && forall x :: x in base && x != TYPES ==> back[x] == Normalised(base)[x]
  {
    var types := EntriesAt(base, TYPES);
    if !HasPng(types) {
      assert |WithPng(types)| != |types|;
    }
  }

  // An ordinary workbook: one sheet with its own header, nothing of ours.

  const ONE_SHEET: Path := [XL, WORKSHEETS, TEXT("sheet1.xml")]

  function OrdinaryParts(kids: seq<Node>): map<Path, Part> {
    map[WORKBOOK := Book([SheetEntry("Sheet1", 1, "rId1")], None),
        WORKBOOK_RELS := Xml([Rel("rId1", WORKSHEET_REL, Target(false, [WORKSHEETS, TEXT("sheet1.xml")]))]),
        TYPES := Xml([]), ROOT_RELS := Xml([]), ONE_SHEET := Sheet(kids)]
  }

  lemma OrdinaryDict(kids: seq<Node>)
    ensures SheetDict(OrdinaryParts(kids)) == Dict(["Sheet1"], map["Sheet1" := ONE_SHEET])
  {
    var sh := SheetEntry("Sheet1", 1, "rId1");
    var r := Rel("rId1", WORKSHEET_REL, Target(false, [WORKSHEETS, TEXT("sheet1.xml")]));
    assert OrdinaryParts(kids)[WORKBOOK] == Book([sh], None) && OrdinaryParts(kids)[WORKBOOK_RELS] == Xml([r]);
    assert SheetPath([r], "rId1") == ONE_SHEET;
    assert SheetParts([sh][..0], [r]) == Dict([], map[]);
  }

  lemma OrdinaryPaths(n: nat)
    ensures ONE_SHEET !in {WORKBOOK, WORKBOOK_RELS, TYPES, ROOT_RELS, CUSTOM, SHARED} && ONE_SHEET !in Added(n)
  {
    PathsApart(n);
    assert Rank(ONE_SHEET) == 7 && ONE_SHEET[2] != Control(n)[2];
  }

  lemma OrdinaryWellFormed(kids: seq<Node>)
    ensures WellFormed(OrdinaryParts(kids)) && DistinctSheets(OrdinaryParts(kids), SheetDict(OrdinaryParts(kids)))
  {
    OrdinaryDict(kids);
    OrdinaryPaths(0);
    PathsApart(0);
  }

  lemma OrdinaryUntouched(kids: seq<Node>, n: nat)
    ensures Untouched(OrdinaryParts(kids), n)
  {
    OrdinaryPaths(n);
    PathsApart(n);
  }

  lemma OrdinaryLinked(kids: seq<Node>)
    ensures Linked(SheetsOf(OrdinaryParts(kids)), EntriesAt(OrdinaryParts(kids), WORKBOOK_RELS))
  {
    PathsApart(0);
    OrdinaryPaths(0);
    var rels := EntriesAt(OrdinaryParts(kids), WORKBOOK_RELS);
    assert rels[0] in rels && rels[0].id in RelIds(rels);
  }

  lemma OrdinaryValid(kids: seq<Node>)
    ensures Valid(Package([TYPES, ROOT_RELS, WORKBOOK, WORKBOOK_RELS, ONE_SHEET], OrdinaryParts(kids)))
  {
    PathsApart(0);
    OrdinaryPaths(0);
    var names := [TYPES, ROOT_RELS, WORKBOOK, WORKBOOK_RELS, ONE_SHEET];
    assert names[0] in names && names[1] in names && names[2] in names && names[3] in names && names[4] in names;
  }

  /** Such a workbook is tidy, whatever is on its sheet. */
  lemma OrdinaryIsTidy(kids: seq<Node>)
    ensures Tidy(Package([TYPES, ROOT_RELS, WORKBOOK, WORKBOOK_RELS, ONE_SHEET], OrdinaryParts(kids)))
  {
    OrdinaryValid(kids);
    OrdinaryWellFormed(kids);
    OrdinaryLinked(kids);
    OrdinaryUntouched(kids, ControlIndex(OrdinaryParts(kids)));
    assert OrdinaryParts(kids)[WORKBOOK].defined == None;
  }

  // ---------------------------------------------------------------- what an empty report means

  lemma {:induction false} RestoreMisses(parts: map<Path, Part>, d: Dict<Path>, k: nat, m: Manifest, q: Path)
    requires k <= |d.keys| && q in parts && !IsSheetPart(d, k, q)
    ensures RestoreSheets(parts, d, k, m)[q] == parts[q]
  {
    if k != 0 {
      assert PartAt(d, k - 1) != q;
      assert !IsSheetPart(d, k - 1, q);
      RestoreMisses(parts, d, k - 1, m, q);
    }
  }

  /** When its turn comes, a sheet is still as it was returned. */
  lemma TurnUntouched(parts: map<Path, Part>, d: Dict<Path>, k: nat, m: Manifest)
    requires k < |d.keys| && DistinctSheets(parts, d)
    ensures Turn(parts, d, k, m) == HeaderFinding(parts, d, k, m)
  {
    var x := PartAt(d, k);
    if x in parts {
      assert !IsSheetPart(d, k, x);
      RestoreMisses(parts, d, k, m, x);
    }
  }

  lemma {:induction false} GoneExact(names: seq<string>, d: Dict<Path>, control: string)
    ensures GoneFindings(names, d, control) == [] <==> forall i :: 0 <= i < |names| ==> names[i] == control || names[i] in d.at
  {
    if names != [] {
      GoneExact(names[..|names| - 1], d, control);
    }
  }

  /** The i-th sheet, if it was issued with a header and footer, came back with exactly those. */
  predicate HeaderOk(parts: map<Path, Part>, d: Dict<Path>, m: Manifest, i: nat)
    requires i < |d.keys|
  {
    SheetAt(parts, PartAt(d, i)) && d.keys[i] in m.originals.at ==> HfIs(KidsAt(parts, PartAt(d, i)), m.header, m.footer)
  }

  lemma HeadersExact(base: map<Path, Part>, parts: map<Path, Part>, d: Dict<Path>, m: Manifest)
    requires WellFormed(base) && DistinctSheets(base, d) && SheetsKept(base, parts)
    ensures HeaderFindings(parts, d, |d.keys|, m) == [] <==> forall i :: 0 <= i < |d.keys| ==> HeaderOk(base, d, m, i)
  {
    var turns := Turns(parts, d, |d.keys|, m);
    forall i | 0 <= i < |d.keys|
      ensures turns[i] == [] <==> HeaderOk(base, d, m, i)
    {
      TurnExact(base, parts, d, i, m);
    }
    FlattenEmpty(turns);
    if HeaderFindings(parts, d, |d.keys|, m) == [] {
      assert forall i :: 0 <= i < |turns| ==> turns[i] == [];
    }
  }

  lemma TurnExact(base: map<Path, Part>, parts: map<Path, Part>, d: Dict<Path>, i: nat, m: Manifest)
    requires i < |d.keys| && WellFormed(base) && DistinctSheets(base, d) && SheetsKept(base, parts)
    ensures Turns(parts, d, |d.keys|, m)[i] == [] <==> HeaderOk(base, d, m, i)
  {
    SameSheet(base, parts, PartAt(d, i));
    TurnUntouched(parts, d, i, m);
  }

  lemma ThreeEmpty<T>(a: seq<T>, b: seq<T>, c: seq<T>)
    ensures a + b + c == [] <==> a == [] && b == [] && c == []
  {
    assert |a + b + c| == |a| + |b| + |c|;
  }

  /** For any returned package: an empty report means, and only means, that the control sheet came back
      with its lines and QR image, every sheet issued with a header is still there, and each of
      those carries exactly that header and footer. */
  lemma ReportExact(p: Package, m: Manifest)
    requires WellFormed(p.parts) && DistinctSheets(p.parts, Pop(SheetDict(p.parts), m.control))
    ensures var d := Pop(SheetDict(p.parts), m.control); var control := ControlPart(p.parts, m);
      Strip(p, m).1 == [] <==>
        && control.Some? && ControlIntact(p.parts, control.value, m)
        && (forall i :: 0 <= i < |d.keys| ==> HeaderOk(p.parts, d, m, i))
        && (forall i :: 0 <= i < |m.originals.keys| ==> m.originals.keys[i] == m.control || m.originals.keys[i] in d.at)
  {
    var d, control := Pop(SheetDict(p.parts), m.control), ControlPart(p.parts, m);
    var parts := if control.Some? then DropControl(p.parts, m.control, Gone(p.parts, control.value)) else p.parts;
    if control.Some? {
      DropControlAt(p.parts, m.control, Gone(p.parts, control.value));
    }
    HeadersExact(p.parts, parts, d, m);
    GoneExact(m.originals.keys, d, m.control);
    ThreeEmpty(ControlFindings(p.parts, control, m), HeaderFindings(parts, d, |d.keys|, m), GoneFindings(m.originals.keys, d, m.control));
  }

  /** Removing the control sheet's registrations leaves every worksheet alone. */
  ghost predicate SheetsKept(a: map<Path, Part>, b: map<Path, Part>) {
    && a.Keys == b.Keys && (forall x :: x in {WORKBOOK, WORKBOOK_RELS, TYPES} && x in b ==> !b[x].Sheet?)
    && forall x :: x in a && x !in {WORKBOOK, WORKBOOK_RELS, TYPES} ==> b[x] == a[x]
  }

  lemma SameSheet(a: map<Path, Part>, b: map<Path, Part>, q: Path)
    requires WellFormed(a) && SheetsKept(a, b)
    ensures SheetAt(a, q) == SheetAt(b, q) && KidsAt(a, q) == KidsAt(b, q)
  {
  }

  // ---------------------------------------------------------------- the archive, rewritten in place

  class Archive {
    var names: seq<Path>
    var parts: map<Path, Part>

    function View(): Package reads this { Package(names, parts) }

    constructor (p: Package)
      ensures View() == p
    {
      names, parts := p.names, p.parts;
    }

    static method FindAnchor(kids: seq<Node>) returns (i: nat)
      ensures i == InsertAt(kids)
    {
      i := 0;
      while i < |kids| && !AfterHf(kids[i])
        invariant i <= |kids| && InsertAt(kids) == i + InsertAt(kids[i..])
      {
        assert kids[i..][1..] == kids[i + 1..];
        i := i + 1;
      }
    }

    /** Remove every headerFooter, then put the new one before the first child that must follow it. */
    static method SetHeaderFooter(kids: seq<Node>, header: string, footer: string) returns (r: seq<Node>)
      ensures r == SetHf(kids, header, footer)
    {
      r := [];
      for i := 0 to |kids|
        invariant r == WithoutHf(kids[..i])
      {
        assert kids[..i + 1][..i] == kids[..i];
        if !kids[i].HeaderFooter? {
          r := r + [kids[i]];
        }
      }
      assert kids[..|kids|] == kids;
      var at := FindAnchor(r);
      r := r[..at] + [HeaderFooter(Some(header), Some(footer), "")] + r[at..];
    }

    static method RemoveFirst(kids: seq<Node>) returns (r: seq<Node>)
      ensures r == WithoutFirstHf(kids)
    {
      var i := 0;
      while i < |kids| && !kids[i].HeaderFooter?
        invariant i <= |kids| && FirstHfAt(kids) == i + FirstHfAt(kids[i..])
      {
        assert kids[i..][1..] == kids[i + 1..];
        i := i + 1;
      }
      r := if i < |kids| then kids[..i] + kids[i + 1..] else kids;
    }

    static method RestoreHeaderFooter(kids: seq<Node>, original: Option<Node>) returns (r: seq<Node>)
      ensures r == RestoreHf(kids, original)
    {
      r := RemoveFirst(kids);
      if original.Some? {
        var at := FindAnchor(r);
        r := r[..at] + [original.value] + r[at..];
      }
    }

    static method FreshName(taken: set<string>, base: string, pad: char) returns (r: string)
      ensures r == Fresh(taken, base, pad)
    {
      r := base;
      while r in taken
        invariant Fresh(taken, r, pad) == Fresh(taken, base, pad)
        decreases |Longer(taken, |r|)|
      {
        LongerShrinks(taken, r, |r| + 1);
        r := r + [pad];
      }
    }

    method FreshNumber() returns (n: nat)
      ensures n == ControlIndex(parts)
    {
      n := 1;
      while Control(n) in parts
        invariant FreshIndex(parts.Keys, n) == ControlIndex(parts)
        decreases |Numbered(parts.Keys, n)|
      {
        SubsetSmaller(Numbered(parts.Keys, n + 1), Numbered(parts.Keys, n), Control(n));
        n := n + 1;
      }
    }

    /** Elements that hit the test are removed while the list is walked. */
    static method Remove(s: seq<Entry>, t: Test) returns (r: seq<Entry>)
      ensures r == Without(s, t)
    {
      r := [];
      for i := 0 to |s|
        invariant r == Without(s[..i], t)
      {
        assert s[..i + 1][..i] == s[..i];
        if !Hits(t, s[i]) {
          r := r + [s[i]];
        }
      }
      assert s[..|s|] == s;
    }

    static method SheetsByName(sheets: seq<Entry>, rels: seq<Entry>) returns (d: Dict<Path>)
      ensures d == SheetParts(sheets, rels)
    {
      d := Dict([], map[]);
      for i := 0 to |sheets|
        invariant d == SheetParts(sheets[..i], rels)
      {
        assert sheets[..i + 1][..i] == sheets[..i];
        if sheets[i].SheetEntry? {
          d := Put(d, sheets[i].name, SheetPath(rels, sheets[i].rid));
        }
      }
      assert sheets[..|sheets|] == sheets;
    }

    method MarkOne(q: Path, header: string, footer: string)
      modifies `parts
      ensures parts == MarkPart(old(parts), q, header, footer)
    {
      if SheetAt(parts, q) {
        var kids := SetHeaderFooter(parts[q].kids, header, footer);
        parts := parts[q := Sheet(kids)];
      }
    }

    method MarkAll(d: Dict<Path>, header: string, footer: string) returns (originals: Dict<Option<Node>>)
      modifies `parts
      ensures parts == MarkSheets(old(parts), d, |d.keys|, header, footer)
      ensures originals == Originals(old(parts), d, |d.keys|, header, footer)
    {
      originals := Dict([], map[]);
      for i := 0 to |d.keys|
        invariant parts == MarkSheets(old(parts), d, i, header, footer)
        invariant originals == Originals(old(parts), d, i, header, footer)
      {
        originals := Record(originals, parts, d.keys[i], PartAt(d, i));
        MarkOne(PartAt(d, i), header, footer);
      }
    }

    method Issue(c: Ctx) returns (m: Manifest)
      requires WellFormed(parts)
      modifies this
      ensures (View(), m) == Watermark(old(View()), c)
    {
      var d := SheetsByName(SheetsOf(parts), EntriesAt(parts, WORKBOOK_RELS));
      var originals := MarkAll(d, c.header, c.footer);
      var title := FreshName(SheetNames(SheetsOf(parts)), TITLE, '_');
      var rid := FreshName(RelIds(EntriesAt(parts, WORKBOOK_RELS)), CONTROL_RID, 'x');
      var n := FreshNumber();
      names := TypesFirst(names) + NewNames(names, n);
      parts := WithControl(parts, c, title, rid, n);
      m := Manifest(c.header, c.footer, originals, title, NonEmpty(c.lines), Blob(c.qr));
    }

    static method FreeRid(used: set<string>) returns (k: Option<nat>)
      ensures k == FreeNumber(used, 1)
    {
      var n := 1;
      while n < 1000 && LxRid(n) in used
        invariant 1 <= n <= 1000 && FreeNumber(used, n) == FreeNumber(used, 1)
      {
        n := n + 1;
      }
      k := if n < 1000 then Some(n) else None;
    }

    /** (done, whether the custom part was created). */
    method EmbedMark(mark: string) returns (done: bool, created: bool)
      requires WellFormed(parts)
      modifies this
      ensures done <==> Embed(old(View()), mark).Some?
      ensures if done then (View(), created) == Embed(old(View()), mark).value else View() == old(View())
    {
      created := CUSTOM !in parts;
      done := true;
      if created {
        var k := FreeRid(RelIds(EntriesAt(parts, ROOT_RELS)));
        if k == None {
          return false, created;
        }
        parts := parts[TYPES := Xml(EntriesAt(parts, TYPES) + [CustomType()])]
                      [ROOT_RELS := Xml(EntriesAt(parts, ROOT_RELS) + [ToCustom(LxRid(k.value))])]
                      [CUSTOM := Xml(WithMark([], mark))];
        names := TypesFirst(names + [CUSTOM]);
      } else {
        parts := parts[CUSTOM := Xml(WithMark(EntriesAt(parts, CUSTOM), mark))];
        names := TypesFirst(names);
      }
    }

    method TakeMark(created: bool)
      modifies this
      ensures View() == RemoveMark(old(View()), created)
    {
      if CUSTOM !in parts {
        return;
      }
      var props := Remove(EntriesAt(parts, CUSTOM), PropertyNamed(PROPERTY));
      if created && props == [] {
        var types := Remove(EntriesAt(parts, TYPES), CustomOverride);
        var rels := Remove(EntriesAt(parts, ROOT_RELS), CustomRelation);
        parts := parts[TYPES := Xml(types)][ROOT_RELS := Xml(rels)] - {CUSTOM};
        names := TypesFirst(Skip(names, {CUSTOM}));
      } else {
        parts := parts[CUSTOM := Xml(props)];
        names := TypesFirst(names);
      }
    }

    method FollowDrawing(drawing: Path) returns (files: seq<Path>, images: seq<Path>)
      ensures files == DrawingFiles(parts, drawing) && images == DrawingImages(parts, drawing)
    {
      files, images := [drawing], [];
      if RelsPath(drawing) in parts {
        files := files + [RelsPath(drawing)];
        var rels := EntriesAt(parts, RelsPath(drawing));
        for i := 0 to |rels|
          invariant images == Images(parts, drawing, rels[..i]) && files == [drawing, RelsPath(drawing)] + images
        {
          assert rels[..i + 1][..i] == rels[..i];
          if rels[i].Rel? && rels[i].kind == IMAGE_REL && Resolve(drawing, rels[i].target) in parts {
            images := images + [Resolve(drawing, rels[i].target)];
            files := files + [Resolve(drawing, rels[i].target)];
          }
        }
        assert rels[..|rels|] == rels;
      }
    }

    method FollowControl(control: Path) returns (files: seq<Path>, images: seq<Path>)
      ensures (files, images) == ControlReach(parts, control)
    {
      files, images := [control], [];
      if RelsPath(control) in parts {
        var rels := EntriesAt(parts, RelsPath(control));
        var reached: seq<Path> := [];
        for i := 0 to |rels|
          invariant (reached, images) == Reached(parts, control, rels[..i])
        {
          assert rels[..i + 1][..i] == rels[..i];
          if rels[i].Rel? && rels[i].kind == DRAWING_REL {
            var more, found := FollowDrawing(Resolve(control, rels[i].target));
            reached, images := reached + more, images + found;
          }
        }
        assert rels[..|rels|] == rels;
        files := [control, RelsPath(control)] + reached;
      }
    }

    static method ShiftNames(s: seq<Entry>, position: nat) returns (r: seq<Entry>)
      ensures r == Shift(s, position)
    {
      r := [];
      for i := 0 to |s|
        invariant r == Shift(s[..i], position)
      {
        assert s[..i + 1][..i] == s[..i];
        if !s[i].DefinedName? || s[i].local.None? || s[i].local.value < position {
          r := r + [s[i]];
        } else if s[i].local.value > position {
          r := r + [s[i].(local := Some((s[i].local.value - 1) as nat))];
        }
      }
      assert s[..|s|] == s;
    }

    method TakeControl(name: string, gone: set<Path>)
      requires WORKBOOK in parts && parts[WORKBOOK].Book?
      modifies `parts
      ensures parts == DropControl(old(parts), name, gone)
    {
      var wb := parts[WORKBOOK];
      var at := LastSheet(wb.sheets, name);
      var left := Remove(wb.sheets, SheetNamed(name));
      var defined := wb.defined;
      if defined.Some? && at.Some? {
        var shifted := ShiftNames(defined.value, at.value);
        defined := Some(shifted);
      }
      var rels := EntriesAt(parts, WORKBOOK_RELS);
      if at.Some? {
        rels := Remove(rels, RelWithId(wb.sheets[at.value].rid));
      }
      var types := Remove(EntriesAt(parts, TYPES), OverrideOf(gone));
      parts := parts[WORKBOOK := Book(left, defined)][WORKBOOK_RELS := Xml(rels)][TYPES := Xml(types)];
    }

    method RestoreOne(d: Dict<Path>, i: nat, m: Manifest) returns (findings: seq<Finding>)
      requires i < |d.keys|
      modifies `parts
      ensures parts == RestorePart(old(parts), d, i, m) && findings == HeaderFinding(old(parts), d, i, m)
    {
      var q, name := PartAt(d, i), d.keys[i];
      findings := [];
      if SheetAt(parts, q) && name in m.originals.at {
        if !HfIs(KidsAt(parts, q), m.header, m.footer) {
          findings := [HeaderChanged(name)];
        }
        var kids := RestoreHeaderFooter(parts[q].kids, m.originals.at[name]);
        parts := parts[q := Sheet(kids)];
      }
    }

    method RestoreAll(d: Dict<Path>, m: Manifest) returns (findings: seq<Finding>)
      modifies `parts
      ensures parts == RestoreSheets(old(parts), d, |d.keys|, m)
      ensures findings == HeaderFindings(old(parts), d, |d.keys|, m)
    {
      findings := [];
      for i := 0 to |d.keys|
        invariant parts == RestoreSheets(old(parts), d, i, m)
        invariant findings == HeaderFindings(old(parts), d, i, m)
      {
        var changed := RestoreOne(d, i, m);
        findings := findings + changed;
        assert Turns(old(parts), d, i + 1, m)[..i] == Turns(old(parts), d, i, m);
      }
    }

    static method MissingSheets(keys: seq<string>, d: Dict<Path>, control: string) returns (findings: seq<Finding>)
      ensures findings == GoneFindings(keys, d, control)
    {
      findings := [];
      for i := 0 to |keys|
        invariant findings == GoneFindings(keys[..i], d, control)
      {
        assert keys[..i + 1][..i] == keys[..i];
        if keys[i] != control && keys[i] !in d.at {
          findings := findings + [SheetGone(keys[i])];
        }
      }
      assert keys[..|keys|] == keys;
    }

    method StripCopy(m: Manifest) returns (findings: seq<Finding>)
      requires WellFormed(parts)
      modifies this
      ensures (View(), findings) == Strip(old(View()), m)
    {
      var all := SheetsByName(SheetsOf(parts), EntriesAt(parts, WORKBOOK_RELS));
      var d := Pop(all, m.control);
      var gone: set<Path> := {};
      findings := [];
      if m.control !in all.at || all.at[m.control] !in parts {
        findings := [ControlRemoved];
      } else {
        var control := all.at[m.control];
        var files, images := FollowControl(control);
        var lines := NonEmpty(SheetTexts(KidsAt(parts, control), SharedOf(parts)));
        if lines != m.lines || Contents(parts, images) != [m.qr] {
          findings := [ControlChanged];
        }
        gone := set q | q in files && q in parts;
        TakeControl(m.control, gone);
      }
      var changed := RestoreAll(d, m);
      var missing := MissingSheets(m.originals.keys, d, m.control);
      findings := findings + changed + missing;
      names := Skip(TypesFirst(names), gone);
      parts := parts - gone;
    }
  }
}
