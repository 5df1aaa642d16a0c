/** What checking, stripping and marking do to any workbook that comes back, whatever was done to it
    meanwhile, said in terms of its parts and elements only. */
module XlsxReturned {
  import opened Prelude
  import opened XlsxPackage

  // ---------------------------------------------------------------- following targets

  lemma {:induction false} WalkOn(dir: Path, steps: Path, x: Segment)
    ensures Walk(dir, steps + [x]) == Walk(Walk(dir, steps), [x])
    decreases |steps|
  {
    if steps == [] {
      assert steps + [x] == [x];
    } else {
      assert (steps + [x])[1..] == steps[1..] + [x];
      WalkOn(if steps[0] == UP then (if dir == [] then [] else dir[..|dir| - 1])
             else if steps[0] == HERE then dir else dir + [steps[0]], steps[1..], x);
    }
  }

  /** A relative target starts from the directory of the part that names it: "." stays, ".." climbs but not
      above the root, anything else descends; an absolute one starts from the root. */
  lemma ResolveExact(base: Path, steps: Path, x: Segment)
    requires base != []
    ensures Resolve(base, Target(true, steps)) == steps
    ensures Resolve(base, Target(false, [])) == base[..|base| - 1]
    ensures var at := Resolve(base, Target(false, steps));
      Resolve(base, Target(false, steps + [x])) ==
        if x == UP then (if at == [] then [] else at[..|at| - 1]) else if x == HERE then at else at + [x]
  {
    WalkOn(base[..|base| - 1], steps, x);
  }

  // ---------------------------------------------------------------- a sheet's children

  /** The children that the schema puts after headerFooter. */
  predicate MustFollow(c: Node) {
    c.Child? && match c.tag
      case ROW_BREAKS => true case COL_BREAKS => true case CUSTOM_PROPERTIES => true case CELL_WATCHES => true
      case IGNORED_ERRORS => true case SMART_TAGS => true case DRAWING => true case LEGACY_DRAWING => true
      case LEGACY_DRAWING_HF => true case DRAWING_HF => true case PICTURE => true case OLE_OBJECTS => true
      case CONTROLS => true case WEB_PUBLISH_ITEMS => true case TABLE_PARTS => true case EXT_LST => true
      case OtherTag(_) => false
  }

  predicate OtherKid(c: Node) { !c.HeaderFooter? }

  /** hf stands in r right before the first child that must follow it, at the end without one; the others
      are bare, in order. */
  ghost predicate Placed(bare: seq<Node>, hf: Node, r: seq<Node>) {
    exists k :: 0 <= k <= |bare| && r == bare[..k] + [hf] + bare[k..]
      && (forall j :: 0 <= j < k ==> !MustFollow(bare[j])) && (k < |bare| ==> MustFollow(bare[k]))
  }

  lemma PlaceExact(bare: seq<Node>, hf: Node)
    ensures Placed(bare, hf, Insert(bare, hf))
  {
    var k := InsertAt(bare);
    assert forall c: Node :: AfterHf(c) <==> MustFollow(c);
  }

  lemma {:induction false} BareExact(kids: seq<Node>)
    ensures WithoutHf(kids) == Filter(kids, OtherKid)
  {
    if kids != [] {
      BareExact(kids[..|kids| - 1]);
    }
  }

  /** Setting replaces every headerFooter of a sheet by one with these texts, in its place. */
  lemma SetExact(kids: seq<Node>, header: string, footer: string)
    ensures Placed(Filter(kids, OtherKid), HeaderFooter(Some(header), Some(footer), ""), SetHf(kids, header, footer))
  {
    BareExact(kids);
    PlaceExact(WithoutHf(kids), HeaderFooter(Some(header), Some(footer), ""));
  }

  /** Child f is the first headerFooter. */
  ghost predicate FirstAt(kids: seq<Node>, f: int) { 0 <= f < |kids| && kids[f].HeaderFooter? && forall j :: 0 <= j < f ==> !kids[j].HeaderFooter? }

  ghost predicate HasNone(kids: seq<Node>) { forall j :: 0 <= j < |kids| ==> !kids[j].HeaderFooter? }

  lemma FirstIs(kids: seq<Node>, f: nat)
    requires FirstAt(kids, f)
    ensures FirstHfAt(kids) == f
  {
  }

  /** The sheet carries this header and footer: its first headerFooter has exactly these two texts. */
  ghost predicate Bears(kids: seq<Node>, header: string, footer: string) {
    exists f :: FirstAt(kids, f) && kids[f].head == Some(header) && kids[f].foot == Some(footer)
  }

  lemma BearsExact(kids: seq<Node>, header: string, footer: string)
    ensures HfIs(kids, header, footer) <==> Bears(kids, header, footer)
  {
    var i := FirstHfAt(kids);
    if i < |kids| {
      assert FirstAt(kids, i);
      forall f | FirstAt(kids, f) ensures f == i {
        FirstIs(kids, f);
      }
    }
  }

  /** The children without the first headerFooter. */
  ghost predicate LessFirst(kids: seq<Node>, bare: seq<Node>) {
    if HasNone(kids) then bare == kids else exists f :: FirstAt(kids, f) && bare == kids[..f] + kids[f + 1..]
  }

  /** Giving a sheet back: its first headerFooter goes, and what it had, if it had one, is put in its place. */
  ghost predicate GivenBackAs(kids: seq<Node>, original: Option<Node>, r: seq<Node>) {
    exists bare :: LessFirst(kids, bare) && if original == None then r == bare else Placed(bare, original.value, r)
  }

  lemma RestoreExact(kids: seq<Node>, original: Option<Node>)
    ensures GivenBackAs(kids, original, RestoreHf(kids, original))
  {
    var i := FirstHfAt(kids);
    if i < |kids| {
      assert FirstAt(kids, i);
    }
    assert LessFirst(kids, WithoutFirstHf(kids));
    if original.Some? {
      PlaceExact(WithoutFirstHf(kids), original.value);
    }
  }

  /** Every sheet that is there under its issued name is given back what was recorded for that name. */
  lemma SheetsGivenBack(p: Package, m: Manifest, i: nat)
    requires WellFormed(p.parts)
    requires DistinctSheets(p.parts, Pop(SheetDict(p.parts), m.control)) && i < |Pop(SheetDict(p.parts), m.control).keys|
    requires var d := Pop(SheetDict(p.parts), m.control);
      SheetAt(p.parts, PartAt(d, i)) && PartAt(d, i) in Strip(p, m).0.parts && d.keys[i] in m.originals.at
    ensures var d := Pop(SheetDict(p.parts), m.control); var q := PartAt(d, i); var r := Strip(p, m).0.parts[q];
      r.Sheet? && GivenBackAs(p.parts[q].kids, m.originals.at[d.keys[i]], r.kids)
  {
    var d, control := Pop(SheetDict(p.parts), m.control), ControlPart(p.parts, m);
    var parts := if control.Some? then DropControl(p.parts, m.control, Gone(p.parts, control.value)) else p.parts;
    if control.Some? {
      DropControlAt(p.parts, m.control, Gone(p.parts, control.value));
    }
    SameSheet(p.parts, parts, PartAt(d, i));
    TurnRestores(p.parts, parts, d, |d.keys|, m, i);
    RestoreExact(p.parts[PartAt(d, i)].kids, m.originals.at[d.keys[i]]);
  }

  lemma {:induction false} TurnRestores(base: map<Path, Part>, parts: map<Path, Part>, d: Dict<Path>, k: nat, m: Manifest, i: nat)
    requires DistinctSheets(base, d) && i < |d.keys| && k <= |d.keys| && parts.Keys == base.Keys
    requires SheetAt(parts, PartAt(d, i)) && SheetAt(base, PartAt(d, i)) && parts[PartAt(d, i)] == base[PartAt(d, i)] && d.keys[i] in m.originals.at
    ensures var q := PartAt(d, i);
      RestoreSheets(parts, d, k, m)[q] == if i < k then Sheet(RestoreHf(base[q].kids, m.originals.at[d.keys[i]])) else base[q]
  {
    if k != 0 {
      TurnRestores(base, parts, d, k - 1, m, i);
    }
  }

  // ---------------------------------------------------------------- the control sheet of a returned workbook

  lemma FlattenOn<T>(s: seq<seq<T>>, x: seq<T>)
    ensures Flatten(s + [x]) == Flatten(s) + x
  {
    assert (s + [x])[..|s|] == s;
  }

  /** An inline text, or the shared string of that number; "" where there is none. */
  function Reading(cell: Cell, shared: seq<string>): string {
    match cell
    case Inline(t) => t
    case SharedText(None) => ""
    case SharedText(Some(k)) => if k < |shared| then shared[k] else ""
  }

  function KidReadings(c: Node, shared: seq<string>): seq<string> {
    if c.Child? then seq(|c.cells|, j requires 0 <= j < |c.cells| => Reading(c.cells[j], shared)) else []
  }

  /** The texts of all cells, child by child. */
  function Readings(kids: seq<Node>, shared: seq<string>): seq<string> {
    Flatten(seq(|kids|, i requires 0 <= i < |kids| => KidReadings(kids[i], shared)))
  }

  lemma {:induction false} CellTextsAre(cells: seq<Cell>, shared: seq<string>)
    ensures CellTexts(cells, shared) == seq(|cells|, j requires 0 <= j < |cells| => Reading(cells[j], shared))
  {
    if cells != [] {
      CellTextsAre(cells[..|cells| - 1], shared);
    }
  }

  lemma {:induction false} SheetTextsAre(kids: seq<Node>, shared: seq<string>)
    ensures SheetTexts(kids, shared) == Readings(kids, shared)
  {
    if kids != [] {
      var init, c := kids[..|kids| - 1], kids[|kids| - 1];
      SheetTextsAre(init, shared);
      if c.Child? {
        CellTextsAre(c.cells, shared);
      }
      var rows := seq(|init|, i requires 0 <= i < |init| => KidReadings(init[i], shared));
      FlattenOn(rows, KidReadings(c, shared));
      assert seq(|kids|, i requires 0 <= i < |kids| => KidReadings(kids[i], shared)) == rows + [KidReadings(c, shared)];
    }
  }

  predicate Solid(line: string) { line != "" }

  lemma {:induction false} NonEmptyIs(lines: seq<string>)
    ensures NonEmpty(lines) == Filter(lines, Solid)
  {
    if lines != [] {
      NonEmptyIs(lines[..|lines| - 1]);
    }
  }

  /** The images that a drawing's relationships name and that exist, in order. */
  function ImagesOf(parts: map<Path, Part>, drawing: Path): seq<Path> {
    var rels := EntriesAt(parts, RelsPath(drawing));
    Flatten(seq(|rels|, j requires 0 <= j < |rels| =>
      if RelsPath(drawing) in parts && rels[j].Rel? && rels[j].kind == IMAGE_REL && Resolve(drawing, rels[j].target) in parts
      then [Resolve(drawing, rels[j].target)] else []))
  }

  /** The drawings that the control sheet's relationships name, in order. */
  function DrawingsOf(parts: map<Path, Part>, control: Path): seq<Path> {
    var rels := EntriesAt(parts, RelsPath(control));
    Flatten(seq(|rels|, j requires 0 <= j < |rels| =>
      if RelsPath(control) in parts && rels[j].Rel? && rels[j].kind == DRAWING_REL then [Resolve(control, rels[j].target)] else []))
  }

  function ImagesOfAll(parts: map<Path, Part>, drawings: seq<Path>): seq<Path> {
    Flatten(seq(|drawings|, k requires 0 <= k < |drawings| => ImagesOf(parts, drawings[k])))
  }

  function FilesOf(parts: map<Path, Part>, drawing: Path): seq<Path> {
    if RelsPath(drawing) in parts then [drawing, RelsPath(drawing)] + ImagesOf(parts, drawing) else [drawing]
  }

  function FilesOfAll(parts: map<Path, Part>, drawings: seq<Path>): seq<Path> {
    Flatten(seq(|drawings|, k requires 0 <= k < |drawings| => FilesOf(parts, drawings[k])))
  }

  lemma {:induction false} ImagesAre(parts: map<Path, Part>, drawing: Path, rels: seq<Entry>)
    ensures Images(parts, drawing, rels) == Flatten(seq(|rels|, j requires 0 <= j < |rels| =>
      if rels[j].Rel? && rels[j].kind == IMAGE_REL && Resolve(drawing, rels[j].target) in parts then [Resolve(drawing, rels[j].target)] else []))
  {
    if rels != [] {
      var init, r := rels[..|rels| - 1], rels[|rels| - 1];
      ImagesAre(parts, drawing, init);
      var found := seq(|init|, j requires 0 <= j < |init| =>
        if init[j].Rel? && init[j].kind == IMAGE_REL && Resolve(drawing, init[j].target) in parts then [Resolve(drawing, init[j].target)] else []);
      var last := if r.Rel? && r.kind == IMAGE_REL && Resolve(drawing, r.target) in parts then [Resolve(drawing, r.target)] else [];
      FlattenOn(found, last);
      assert seq(|rels|, j requires 0 <= j < |rels| =>
        if rels[j].Rel? && rels[j].kind == IMAGE_REL && Resolve(drawing, rels[j].target) in parts then [Resolve(drawing, rels[j].target)] else [])
        == found + [last];
    }
  }

  lemma DrawingImagesAre(parts: map<Path, Part>, drawing: Path)
    ensures DrawingImages(parts, drawing) == ImagesOf(parts, drawing)
    ensures DrawingFiles(parts, drawing) == FilesOf(parts, drawing)
  {
    ImagesAre(parts, drawing, EntriesAt(parts, RelsPath(drawing)));
    if RelsPath(drawing) in parts {
      var rels := EntriesAt(parts, RelsPath(drawing));
      assert seq(|rels|, j requires 0 <= j < |rels| =>
          if rels[j].Rel? && rels[j].kind == IMAGE_REL && Resolve(drawing, rels[j].target) in parts then [Resolve(drawing, rels[j].target)] else [])
        == seq(|rels|, j requires 0 <= j < |rels| =>
          if RelsPath(drawing) in parts && rels[j].Rel? && rels[j].kind == IMAGE_REL && Resolve(drawing, rels[j].target) in parts
          then [Resolve(drawing, rels[j].target)] else []);
    }
  }

  /** The drawings these relationships name, in order. */
  function DrawingsIn(control: Path, rels: seq<Entry>): seq<Path> {
    Flatten(seq(|rels|, j requires 0 <= j < |rels| =>
      if rels[j].Rel? && rels[j].kind == DRAWING_REL then [Resolve(control, rels[j].target)] else []))
  }

  lemma DrawingsInNext(control: Path, init: seq<Entry>, r: Entry)
    ensures DrawingsIn(control, init + [r])
         == DrawingsIn(control, init) + if r.Rel? && r.kind == DRAWING_REL then [Resolve(control, r.target)] else []
  {
    var found := seq(|init|, j requires 0 <= j < |init| =>
      if init[j].Rel? && init[j].kind == DRAWING_REL then [Resolve(control, init[j].target)] else []);
    var last := if r.Rel? && r.kind == DRAWING_REL then [Resolve(control, r.target)] else [];
    var rels := init + [r];
    FlattenOn(found, last);
    assert seq(|rels|, j requires 0 <= j < |rels| =>
      if rels[j].Rel? && rels[j].kind == DRAWING_REL then [Resolve(control, rels[j].target)] else []) == found + [last];
  }

  lemma ReachedNext(parts: map<Path, Part>, control: Path, init: seq<Entry>, r: Entry)
    requires Reached(parts, control, init) == (FilesOfAll(parts, DrawingsIn(control, init)), ImagesOfAll(parts, DrawingsIn(control, init)))
    ensures var drawings := DrawingsIn(control, init + [r]);
      Reached(parts, control, init + [r]) == (FilesOfAll(parts, drawings), ImagesOfAll(parts, drawings))
  {
    var rels, before := init + [r], DrawingsIn(control, init);
    assert rels[..|rels| - 1] == init && rels[|rels| - 1] == r && rels != [];
    DrawingsInNext(control, init, r);
    if r.Rel? && r.kind == DRAWING_REL {
      var drawing := Resolve(control, r.target);
      DrawingImagesAre(parts, drawing);
      MoreFiles(parts, before, drawing);
      MoreImages(parts, before, drawing);
    } else {
      assert before + [] == before;
    }
  }

  lemma {:induction false} ReachedAre(parts: map<Path, Part>, control: Path, rels: seq<Entry>)
    ensures Reached(parts, control, rels) == (FilesOfAll(parts, DrawingsIn(control, rels)), ImagesOfAll(parts, DrawingsIn(control, rels)))
  {
    if rels != [] {
      var init, r := rels[..|rels| - 1], rels[|rels| - 1];
      ReachedAre(parts, control, init);
      ReachedNext(parts, control, init, r);
      assert rels == init + [r];
    }
  }

  lemma MoreFiles(parts: map<Path, Part>, drawings: seq<Path>, last: Path)
    ensures FilesOfAll(parts, drawings + [last]) == FilesOfAll(parts, drawings) + FilesOf(parts, last)
  {
    var files := seq(|drawings|, k requires 0 <= k < |drawings| => FilesOf(parts, drawings[k]));
    var more := drawings + [last];
    FlattenOn(files, FilesOf(parts, last));
    assert seq(|more|, k requires 0 <= k < |more| => FilesOf(parts, more[k])) == files + [FilesOf(parts, last)];
  }

  lemma MoreImages(parts: map<Path, Part>, drawings: seq<Path>, last: Path)
    ensures ImagesOfAll(parts, drawings + [last]) == ImagesOfAll(parts, drawings) + ImagesOf(parts, last)
  {
    var images := seq(|drawings|, k requires 0 <= k < |drawings| => ImagesOf(parts, drawings[k]));
    var more := drawings + [last];
    FlattenOn(images, ImagesOf(parts, last));
    assert seq(|more|, k requires 0 <= k < |more| => ImagesOf(parts, more[k])) == images + [ImagesOf(parts, last)];
  }

  /** What the control sheet of any workbook reaches: its relationships, the drawings they name with theirs,
      and the images those name, as far as they exist; in order. */
  lemma ReachExact(parts: map<Path, Part>, control: Path)
    ensures ControlReach(parts, control).1 == ImagesOfAll(parts, DrawingsOf(parts, control))
    ensures ControlReach(parts, control).0
         == if RelsPath(control) in parts then [control, RelsPath(control)] + FilesOfAll(parts, DrawingsOf(parts, control)) else [control]
  {
    var rels := EntriesAt(parts, RelsPath(control));
    ReachedAre(parts, control, rels);
    if RelsPath(control) in parts {
      assert seq(|rels|, j requires 0 <= j < |rels| =>
          if rels[j].Rel? && rels[j].kind == DRAWING_REL then [Resolve(control, rels[j].target)] else [])
        == seq(|rels|, j requires 0 <= j < |rels| =>
          if RelsPath(control) in parts && rels[j].Rel? && rels[j].kind == DRAWING_REL then [Resolve(control, rels[j].target)] else []);
    } else {
      assert rels == [];
    }
  }

  /** The control sheet came back as issued: its cells that are not empty read the issued lines in order, and
      its drawings lead to exactly one image, the issued one. */
  ghost predicate AsIssued(parts: map<Path, Part>, control: Path, m: Manifest) {
    var images := ImagesOfAll(parts, DrawingsOf(parts, control));
    var kids := if control in parts && parts[control].Sheet? then parts[control].kids else [];
    var shared := if SHARED in parts && parts[SHARED].Strings? then parts[SHARED].items else [];
    && Filter(Readings(kids, shared), Solid) == m.lines
    && |images| == 1 && images[0] in parts && parts[images[0]] == m.qr
  }

  lemma IntactExact(parts: map<Path, Part>, control: Path, m: Manifest)
    ensures ControlIntact(parts, control, m) <==> AsIssued(parts, control, m)
  {
    ReachExact(parts, control);
    SheetTextsAre(KidsAt(parts, control), SharedOf(parts));
    NonEmptyIs(SheetTexts(KidsAt(parts, control), SharedOf(parts)));
    var images := ControlReach(parts, control).1;
    if |images| == 1 {
      assert images[0] in images;
      assert Contents(parts, images) == [parts[images[0]]];
    } else {
      assert |Contents(parts, images)| != 1;
    }
  }

  // ---------------------------------------------------------------- what is reported

  ghost predicate IsIn<T>(s: seq<seq<T>>, x: T) { exists i :: 0 <= i < |s| && x in s[i] }

  lemma {:induction false} FlattenMembers<T>(s: seq<seq<T>>, x: T)
    ensures x in Flatten(s) <==> IsIn(s, x)
  {
    if s != [] {
      FlattenMembers(s[..|s| - 1], x);
      assert forall i :: 0 <= i < |s| - 1 ==> s[..|s| - 1][i] == s[i];
    }
  }

  lemma {:induction false} GoneMembers(names: seq<string>, d: Dict<Path>, control: string, f: Finding)
    ensures f in GoneFindings(names, d, control) <==> f.SheetGone? && f.sheet in names && f.sheet != control && f.sheet !in d.at
  {
    if names != [] {
      GoneMembers(names[..|names| - 1], d, control, f);
      assert names == names[..|names| - 1] + [names[|names| - 1]];
    }
  }

  /** Sheet i was issued with a header and footer and came back without exactly those. */
  ghost predicate HeaderLost(parts: map<Path, Part>, d: Dict<Path>, m: Manifest, i: int) {
    && 0 <= i < |d.keys| && d.keys[i] in m.originals.at && d.keys[i] in d.at
    && d.at[d.keys[i]] in parts && parts[d.at[d.keys[i]]].Sheet? && !Bears(parts[d.at[d.keys[i]]].kids, m.header, m.footer)
  }

  /** What the findings about any returned workbook are: the control sheet is missing, or not as issued; a
      sheet is there under its issued name without the issued header and footer; a sheet's issued name is
      gone. Nothing else is reported. */
  ghost predicate Justified(p: Package, m: Manifest, f: Finding) {
    var all := SheetDict(p.parts);
    var found := m.control in all.at && all.at[m.control] in p.parts;
    match f
    case ControlRemoved => !found
    case ControlChanged => found && !AsIssued(p.parts, all.at[m.control], m)
    case HeaderChanged(name) => exists i :: HeaderLost(p.parts, Pop(all, m.control), m, i) && Pop(all, m.control).keys[i] == name
    case SheetGone(name) => name in m.originals.keys && name != m.control && name !in all.at
    case Unprocessed => false
  }

  lemma HeadersReported(base: map<Path, Part>, parts: map<Path, Part>, d: Dict<Path>, m: Manifest, f: Finding)
    requires WellFormed(base) && DistinctSheets(base, d) && SheetsKept(base, parts) && (forall k :: k in d.keys ==> k in d.at)
    ensures f in HeaderFindings(parts, d, |d.keys|, m) <==> f.HeaderChanged? && exists i :: HeaderLost(base, d, m, i) && d.keys[i] == f.sheet
  {
    var turns := Turns(parts, d, |d.keys|, m);
    FlattenMembers(turns, f);
    forall i | 0 <= i < |d.keys|
      ensures f in turns[i] <==> f == HeaderChanged(d.keys[i]) && HeaderLost(base, d, m, i)
    {
      SameSheet(base, parts, PartAt(d, i));
      TurnUntouched(parts, d, i, m);
      BearsExact(KidsAt(base, PartAt(d, i)), m.header, m.footer);
      assert d.keys[i] in d.keys;
    }
    if i :| HeaderLost(base, d, m, i) && f == HeaderChanged(d.keys[i]) {
      assert f in turns[i];
    }
  }

  lemma {:induction false} PopKeys(keys: seq<string>, k: string, x: string)
    ensures x in DropKey(keys, k) <==> x in keys && x != k
  {
    if keys != [] {
      PopKeys(keys[..|keys| - 1], k, x);
      assert keys == keys[..|keys| - 1] + [keys[|keys| - 1]];
    }
  }

  lemma ControlReported(p: Package, m: Manifest, f: Finding)
    ensures f in ControlFindings(p.parts, ControlPart(p.parts, m), m) <==> (f.ControlRemoved? || f.ControlChanged?) && Justified(p, m, f)
  {
    var control := ControlPart(p.parts, m);
    if control.Some? {
      IntactExact(p.parts, control.value, m);
    }
  }

  lemma PopExact(p: Package, m: Manifest, k: string)
    ensures var all := SheetDict(p.parts);
      && (k in Pop(all, m.control).keys ==> k in Pop(all, m.control).at)
      && (k in Pop(all, m.control).at <==> k in all.at && k != m.control)
  {
    SheetPartsValid(SheetsOf(p.parts), EntriesAt(p.parts, WORKBOOK_RELS));
    PopKeys(SheetDict(p.parts).keys, m.control, k);
  }

  lemma OthersReported(p: Package, parts: map<Path, Part>, m: Manifest, f: Finding)
    requires WellFormed(p.parts) && DistinctSheets(p.parts, Pop(SheetDict(p.parts), m.control)) && SheetsKept(p.parts, parts)
    ensures var d := Pop(SheetDict(p.parts), m.control);
      && (f in HeaderFindings(parts, d, |d.keys|, m) <==> f.HeaderChanged? && Justified(p, m, f))
      && (f in GoneFindings(m.originals.keys, d, m.control) <==> f.SheetGone? && Justified(p, m, f))
  {
    var d := Pop(SheetDict(p.parts), m.control);
    forall k ensures (k in d.keys ==> k in d.at) && (k in d.at <==> k in SheetDict(p.parts).at && k != m.control) {
      PopExact(p, m, k);
    }
    HeadersReported(p.parts, parts, d, m, f);
    GoneMembers(m.originals.keys, d, m.control, f);
  }

  lemma FindingsExact(p: Package, m: Manifest, f: Finding)
    requires WellFormed(p.parts) && DistinctSheets(p.parts, Pop(SheetDict(p.parts), m.control))
    ensures f in Strip(p, m).1 <==> Justified(p, m, f)
  {
    var control := ControlPart(p.parts, m);
    var parts := if control.Some? then DropControl(p.parts, m.control, Gone(p.parts, control.value)) else p.parts;
    if control.Some? {
      DropControlAt(p.parts, m.control, Gone(p.parts, control.value));
    }
    ControlReported(p, m, f);
    OthersReported(p, parts, m, f);
  }

  // ---------------------------------------------------------------- what is left

  lemma {:induction false} SkipMembers(names: seq<Path>, gone: set<Path>, q: Path)
    ensures q in Skip(names, gone) <==> q in names && q !in gone
  {
    if names != [] {
      SkipMembers(names[..|names| - 1], gone, q);
      assert names == names[..|names| - 1] + [names[|names| - 1]];
    }
  }

  /** The parts that go with the control sheet: what it reaches, as far as it is there. */
  ghost function GoneWith(p: Package, m: Manifest): set<Path> {
    var all := SheetDict(p.parts);
    if m.control in all.at && all.at[m.control] in p.parts then
      var control := all.at[m.control];
      set q: Path | q in ([control, RelsPath(control)] + FilesOfAll(p.parts, DrawingsOf(p.parts, control))) && q in p.parts
    else {}
  }

  lemma GoneExactly(p: Package, m: Manifest)
    ensures RemovedParts(p.parts, ControlPart(p.parts, m)) == GoneWith(p, m)
  {
    var control := ControlPart(p.parts, m);
    if control.Some? {
      ReachExact(p.parts, control.value);
      if RelsPath(control.value) !in p.parts {
        assert EntriesAt(p.parts, RelsPath(control.value)) == [];
        assert DrawingsOf(p.parts, control.value) == [];
      }
    }
  }

  /** Stripping any returned workbook removes exactly the parts its control sheet reaches; every part that is
      neither a sheet nor one of the three that register the control sheet stays as it is; the archive
      lists the rest in order, content types first. */
  lemma LeftExact(p: Package, m: Manifest, q: Path)
    requires WellFormed(p.parts)
    ensures var r := Strip(p, m).0;
      && (q in r.parts <==> q in p.parts && q !in GoneWith(p, m))
      && (q in r.parts && !p.parts[q].Sheet? && q !in {WORKBOOK, WORKBOOK_RELS, TYPES} ==> r.parts[q] == p.parts[q])
      && r.names == Skip(TypesFirst(p.names), GoneWith(p, m))
  {
    GoneExactly(p, m);
    var d, control := Pop(SheetDict(p.parts), m.control), ControlPart(p.parts, m);
    var parts := if control.Some? then DropControl(p.parts, m.control, Gone(p.parts, control.value)) else p.parts;
    if control.Some? {
      DropControlAt(p.parts, m.control, Gone(p.parts, control.value));
    }
    if q in p.parts && !parts[q].Sheet? {
      RestoreKeepsOthers(parts, d, |d.keys|, m, q);
    }
  }

  predicate Registers(e: Entry, gone: set<Path>) { e.Override? && e.part in gone }

  lemma {:induction false} WithoutIs(s: seq<Entry>, t: Test, keep: Entry -> bool)
    requires forall e :: keep(e) <==> !Hits(t, e)
    ensures Without(s, t) == Filter(s, keep)
  {
    if s != [] {
      WithoutIs(s[..|s| - 1], t, keep);
    }
  }

  /** The content types lose exactly the overrides of the parts that go. */
  lemma TypesLeft(p: Package, m: Manifest)
    requires WellFormed(p.parts) && TYPES in Strip(p, m).0.parts && ControlPart(p.parts, m).Some?
    ensures Strip(p, m).0.parts[TYPES] == Xml(Filter(EntriesAt(p.parts, TYPES), (e: Entry) => !Registers(e, GoneWith(p, m))))
  {
    GoneExactly(p, m);
    var d, gone := Pop(SheetDict(p.parts), m.control), Gone(p.parts, ControlPart(p.parts, m).value);
    DropControlAt(p.parts, m.control, gone);
    WithoutIs(EntriesAt(p.parts, TYPES), OverrideOf(gone), (e: Entry) => !Registers(e, GoneWith(p, m)));
    RestoreKeepsOthers(DropControl(p.parts, m.control, gone), d, |d.keys|, m, TYPES);
  }

  // ---------------------------------------------------------------- the hidden property

  /** The largest number in use, at least 1. */
  ghost predicate Largest(props: seq<Entry>, n: nat) {
    && (forall i :: 0 <= i < |props| && props[i].Property? ==> props[i].pid <= n)
    && n >= 1 && (n == 1 || exists i :: 0 <= i < |props| && props[i].Property? && props[i].pid == n)
  }

  lemma {:induction false} MaxPidExact(props: seq<Entry>)
    ensures Largest(props, MaxPid(props))
  {
    if props != [] {
      MaxPidExact(props[..|props| - 1]);
      assert forall i :: 0 <= i < |props| - 1 ==> props[..|props| - 1][i] == props[i];
      if MaxPid(props) != MaxPid(props[..|props| - 1]) {
        assert props[|props| - 1].Property? && props[|props| - 1].pid == MaxPid(props);
      }
    }
  }

  ghost predicate Marked(before: seq<Entry>, mark: string, after: seq<Entry>) {
    exists n: nat :: Largest(before, n) && after == before + [Property("_LxRef", n + 1, mark)]
  }

  /** The first of rIdLx1 to rIdLx999 that is not in use. */
  ghost predicate FirstFree(used: set<string>, k: nat) { 1 <= k <= 999 && LxRid(k) !in used && forall j :: 1 <= j < k ==> LxRid(j) in used }

  /** The custom part, its content type and its relationship are new. */
  ghost predicate CreatedUnder(p: Package, mark: string, k: nat, e: Package) {
    && e.names == TypesFirst(p.names + [CUSTOM])
    && e.parts == p.parts[TYPES := Xml(EntriesAt(p.parts, TYPES) + [Override(1, CUSTOM, "custom-properties+xml")])]
                         [ROOT_RELS := Xml(EntriesAt(p.parts, ROOT_RELS) + [Rel(LxRid(k), CUSTOM_REL, Target(false, CUSTOM))])]
                         [CUSTOM := Xml([Property("_LxRef", 2, mark)])]
  }

  /** Embedding the mark into a package with custom properties adds one after those there are, numbered one
      above the largest, and changes nothing else. */
  lemma EmbedExact(p: Package, mark: string)
    requires CUSTOM in p.parts
    ensures Embed(p, mark).Some?
    ensures var (e, created) := Embed(p, mark).value;
      && !created && e.names == TypesFirst(p.names) && e.parts == p.parts[CUSTOM := e.parts[CUSTOM]] && e.parts[CUSTOM].Xml?
      && Marked(EntriesAt(p.parts, CUSTOM), mark, e.parts[CUSTOM].entries)
  {
    MaxPidExact(EntriesAt(p.parts, CUSTOM));
  }

  /** A package without them gets the part, its content type and its relationship, under the first free of
      the names rIdLx1 to rIdLx999; it fails only when all are taken. */
  lemma EmbedCreates(p: Package, mark: string)
    requires CUSTOM !in p.parts
    ensures var used := RelIds(EntriesAt(p.parts, ROOT_RELS));
      match Embed(p, mark)
      case None => forall k :: 1 <= k <= 999 ==> LxRid(k) in used
      case Some((e, created)) => created && exists k: nat :: FirstFree(used, k) && CreatedUnder(p, mark, k, e)
  {
    var free := FreeNumber(RelIds(EntriesAt(p.parts, ROOT_RELS)), 1);
    if free.Some? {
      assert FirstFree(RelIds(EntriesAt(p.parts, ROOT_RELS)), free.value);
      assert MaxPid([]) == 1 && WithMark([], mark) == [Property("_LxRef", 2, mark)];
    }
  }

  predicate OtherProperty(e: Entry) { !(e.Property? && e.name == "_LxRef") }
  predicate OtherType(e: Entry) { !(e.Override? && e.slashes == 1 && e.part == CUSTOM) }
  predicate OtherRelation(e: Entry) { !(e.Rel? && e.kind == CUSTOM_REL && e.target.path == CUSTOM) }

  /** Taking the mark out of any package removes the properties of that name and no others. The part itself
      goes only when the copy had created it and nothing is left in it, and then with its content type and
      its relationship, and with no others. */
  lemma RemoveExact(p: Package, created: bool)
    ensures CUSTOM !in p.parts ==> RemoveMark(p, created) == p
    ensures CUSTOM in p.parts ==>
      var left := Filter(EntriesAt(p.parts, CUSTOM), OtherProperty); var r := RemoveMark(p, created);
      if created && left == [] then
        && r.names == TypesFirst(Skip(p.names, {CUSTOM}))
        && r.parts == p.parts[TYPES := Xml(Filter(EntriesAt(p.parts, TYPES), OtherType))]
                             [ROOT_RELS := Xml(Filter(EntriesAt(p.parts, ROOT_RELS), OtherRelation))] - {CUSTOM}
      else r == Package(TypesFirst(p.names), p.parts[CUSTOM := Xml(left)])
  {
    WithoutIs(EntriesAt(p.parts, CUSTOM), PropertyNamed(PROPERTY), OtherProperty);
    WithoutIs(EntriesAt(p.parts, TYPES), CustomOverride, OtherType);
    WithoutIs(EntriesAt(p.parts, ROOT_RELS), CustomRelation, OtherRelation);
  }

  // ---------------------------------------------------------------- what a copy adds

  /** The largest sheet number; 0 where there is no sheet. */
  ghost predicate LargestSheet(sheets: seq<Entry>, n: nat) {
    && (forall i :: 0 <= i < |sheets| && sheets[i].SheetEntry? ==> sheets[i].sheetId <= n)
    && (n == 0 || exists i :: 0 <= i < |sheets| && sheets[i].SheetEntry? && sheets[i].sheetId == n)
  }

  lemma {:induction false} MaxIdExact(sheets: seq<Entry>)
    ensures LargestSheet(sheets, MaxId(sheets))
  {
    if sheets != [] {
      MaxIdExact(sheets[..|sheets| - 1]);
      assert forall i :: 0 <= i < |sheets| - 1 ==> sheets[..|sheets| - 1][i] == sheets[i];
      if MaxId(sheets) != MaxId(sheets[..|sheets| - 1]) {
        assert sheets[|sheets| - 1].SheetEntry? && sheets[|sheets| - 1].sheetId == MaxId(sheets);
      }
    }
  }

  /** The content types of a copy: those of the original, a default for png images where none was declared,
      and one override each for the control sheet and its drawing. */
  predicate CopyTypes(types: seq<Entry>, n: nat, copy: seq<Entry>) {
    var png := exists i :: 0 <= i < |types| && types[i].Default? && types[i].isPng;
    copy == types + (if png then [] else [Default("png", true)])
      + [Override(1, [XL, WORKSHEETS, CONTROL_XML(n)], "worksheet+xml"), Override(1, [XL, DRAWINGS, CONTROL_XML(n)], "drawing+xml")]
  }

  /** Registered as the last sheet, under the next sheet number. */
  ghost predicate Listed(base: map<Path, Part>, title: string, rid: string, book: Part) {
    exists id: nat :: LargestSheet(SheetsOf(base), id)
      && book == Book(SheetsOf(base) + [SheetEntry(title, id + 1, rid)], if WORKBOOK in base && base[WORKBOOK].Book? then base[WORKBOOK].defined else None)
  }

  /** What issuing adds to any workbook, under the first number n that is free: a sheet listed last with the
      next sheet number, its relationship and its content types; ... */
  lemma CopyRegisters(p: Package, c: Ctx)
    requires WellFormed(p.parts) && Added(ControlIndex(p.parts)) !! p.parts.Keys
    ensures var (q, m) := Watermark(p, c); var n := ControlIndex(p.parts);
      && {WORKBOOK, WORKBOOK_RELS, TYPES} <= q.parts.Keys
      && q.parts[TYPES].Xml? && CopyTypes(EntriesAt(p.parts, TYPES), n, q.parts[TYPES].entries)
      && Listed(p.parts, m.control, ControlRid(p.parts), q.parts[WORKBOOK])
      && q.parts[WORKBOOK_RELS] == Xml(EntriesAt(p.parts, WORKBOOK_RELS)
           + [Rel(ControlRid(p.parts), WORKSHEET_REL, Target(false, [WORKSHEETS, CONTROL_XML(n)]))])
  {
    var n, d := ControlIndex(p.parts), SheetDict(p.parts);
    WatermarkedParts(p, c, MarkSheets(p.parts, d, |d.keys|, c.header, c.footer), n);
    MaxIdExact(SheetsOf(p.parts));
    TypesWritten(EntriesAt(p.parts, TYPES), n);
  }

  /** The control sheet's number is the smallest one that is free. */
  lemma LeastNumber(parts: map<Path, Part>)
    ensures var n := ControlIndex(parts);
      n >= 1 && [XL, WORKSHEETS, CONTROL_XML(n)] !in parts && forall k :: 1 <= k < n ==> [XL, WORKSHEETS, CONTROL_XML(k)] in parts
  {
    var n := ControlIndex(parts);
    forall k | 1 <= k < n ensures [XL, WORKSHEETS, CONTROL_XML(k)] in parts {
      assert Control(k) in parts.Keys;
    }
  }

  lemma TypesWritten(types: seq<Entry>, n: nat)
    ensures CopyTypes(types, n, WithPng(types) + [SheetType(n), DrawingType(n)])
  {
    assert types + [] == types;
  }

  /** ... the sheet itself with the lines, and from it, step by step, its drawing and the QR image. */
  lemma CopyAdds(p: Package, c: Ctx)
    requires WellFormed(p.parts) && Added(ControlIndex(p.parts)) !! p.parts.Keys
    ensures var parts := Watermark(p, c).0.parts; var n := ControlIndex(p.parts); var sheet := [XL, WORKSHEETS, CONTROL_XML(n)];
      && parts.Keys == p.parts.Keys + {sheet, [XL, WORKSHEETS, RELS_DIR, RELS_FILE(CONTROL_XML(n))], [XL, DRAWINGS, CONTROL_XML(n)],
                                       [XL, DRAWINGS, RELS_DIR, RELS_FILE(CONTROL_XML(n))], [XL, MEDIA, QR_PNG(n)]}
      && parts[sheet].Sheet? && Filter(Readings(parts[sheet].kids, []), Solid) == Filter(c.lines, Solid)
      && ImagesOfAll(parts, DrawingsOf(parts, sheet)) == [[XL, MEDIA, QR_PNG(n)]] && parts[[XL, MEDIA, QR_PNG(n)]] == Blob(c.qr)
  {
    var parts, n, d := Watermark(p, c).0.parts, ControlIndex(p.parts), SheetDict(p.parts);
    WatermarkedParts(p, c, MarkSheets(p.parts, d, |d.keys|, c.header, c.footer), n);
    LinesWritten(c);
    ControlReached(parts, n);
    ReachExact(parts, Control(n));
  }

  lemma LinesWritten(c: Ctx)
    ensures Filter(Readings(ControlKids(c), []), Solid) == Filter(c.lines, Solid)
  {
    NonEmptyIs(c.lines);
    SheetTextsAre(ControlKids(c), []);
    NonEmptyIs(SheetTexts(ControlKids(c), []));
    ControlTexts(c);
  }

  lemma ControlTexts(c: Ctx)
    ensures NonEmpty(SheetTexts(ControlKids(c), [])) == NonEmpty(c.lines)
  {
    ControlReadsBack(c, []);
  }
}
