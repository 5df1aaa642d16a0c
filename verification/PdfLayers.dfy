/** Removable watermark layers of a PDF (backend/app/services/watermark.py:281-331) and their
    verification and removal (backend/app/services/watermark_strip.py:63-134). Pages refer to
    resource dictionaries, and those to XObject dictionaries, by object id: any number of pages
    may share either. Byte-level work is left to the library: hashing is injective, so a
    fingerprint is modelled by what it was taken of. */
module PdfLayers {
  import opened Prelude

  const PREFIX := "LCWM"

  /** A Form XObject; layer is the action id our own carry. */
  datatype XObject = XObject(layer: Option<string>, form: string, images: seq<string>)
  type Entry = (string, XObject)
  /** An XObject dictionary, in insertion order. */
  type Dict = seq<Entry>

  datatype Stream = Stream(layer: Option<string>, data: string)
  datatype Contents = NoContents | Single(stream: Stream) | Streams(streams: seq<Stream>)
  datatype Page = Page(resources: Option<nat>, contents: Contents, control: Option<string>)

  /** All pages, the XObject dictionary (if any) of every resource dictionary, and the XObject
      dictionaries; ids from next on are free. */
  datatype Doc = Doc(pages: seq<Page>, resources: map<nat, Option<nat>>, dicts: map<nat, Dict>, next: nat)

  /** How the library joins content streams, and the removal of drawing commands that invoke one
      of our layers by name. */
  datatype Library = Library(raw: seq<Stream> -> string, dropInvokes: string -> string)

  datatype Info = Info(page: nat, form: string, images: seq<string>)
  datatype Manifest = Manifest(action: string, pageCount: nat, overlays: seq<(string, Info)>, controlPages: seq<string>)

  datatype Layer = Layer(form: string, images: seq<string>, closer: string)

  datatype Finding =
    | LayerChanged(page: nat) | LayerRemoved(originalPage: nat) | PageDeleted(originalPage: nat)
    | ControlRemoved | ControlChanged(page: nat)

  ghost predicate Valid(doc: Doc) {
    && (forall i :: 0 <= i < |doc.pages| ==> ValidPage(doc, doc.pages[i]))
    && (forall r :: r in doc.resources ==> r < doc.next && (doc.resources[r].Some? ==> doc.resources[r].value in doc.dicts))
    && (forall d :: d in doc.dicts ==> d < doc.next && UniqueKeys(doc.dicts[d]))
  }

  ghost predicate ValidPage(doc: Doc, p: Page) { p.resources.Some? ==> p.resources.value in doc.resources }

  ghost predicate UniqueKeys(d: Dict) { forall i, j :: 0 <= i < j < |d| ==> d[i].0 != d[j].0 }

  function DictOf(resources: map<nat, Option<nat>>, p: Page): Option<nat> {
    if p.resources.Some? && p.resources.value in resources then resources[p.resources.value] else None
  }

  function Flat(c: Contents): seq<Stream> {
    match c case NoContents => [] case Single(s) => [s] case Streams(ss) => ss
  }

  // ---------------------------------------------------------------- names

  function Decimal(n: nat): string {
    if n < 10 then ["0123456789"[n]] else Decimal(n / 10) + ["0123456789"[n % 10]]
  }

  function LayerName(n: nat): string { PREFIX + Decimal(n) }

  lemma DigitInjective(a: nat, b: nat)
    requires a < 10 && b < 10 && "0123456789"[a] == "0123456789"[b]
    ensures a == b
  {
  }

  lemma {:induction false} DecimalInjective(m: nat, n: nat)
    requires Decimal(m) == Decimal(n)
    ensures m == n
    decreases m
  {
    var a, b := Decimal(m), Decimal(n);
    assert a[|a| - 1] == "0123456789"[m % 10] && b[|b| - 1] == "0123456789"[n % 10];
    DigitInjective(m % 10, n % 10);
    DecimalLength(m);
    DecimalLength(n);
    if m >= 10 {
      assert a[..|a| - 1] == Decimal(m / 10) && b[..|b| - 1] == Decimal(n / 10);
      DecimalInjective(m / 10, n / 10);
    }
  }

  lemma DecimalLength(n: nat)
    ensures |Decimal(n)| >= 1 && (|Decimal(n)| == 1 <==> n < 10)
  {
  }

  lemma LayerNames(m: nat, n: nat)
    ensures PREFIX <= LayerName(m)
    ensures LayerName(m) == LayerName(n) ==> m == n
  {
    assert LayerName(m)[|PREFIX|..] == Decimal(m) && LayerName(n)[|PREFIX|..] == Decimal(n);
    if LayerName(m) == LayerName(n) {
      DecimalInjective(m, n);
    }
  }

  // ---------------------------------------------------------------- dictionaries

  predicate HasKey(d: Dict, key: string) { exists i :: 0 <= i < |d| && d[i].0 == key }

  function Replace(d: Dict, key: string, x: XObject): (r: Dict)
    ensures |r| == |d|
    ensures forall i :: 0 <= i < |d| ==> r[i] == if d[i].0 == key then (key, x) else d[i]
  {
    if d == [] then [] else
    Replace(d[..|d| - 1], key, x) + [if d[|d| - 1].0 == key then (key, x) else d[|d| - 1]]
  }

  /** d[key] = x: a present key keeps its place. */
  function Put(d: Dict, key: string, x: XObject): Dict {
    if HasKey(d, key) then Replace(d, key, x) else d + [(key, x)]
  }

  predicate Kept(e: Entry) { e.1.layer == None && !(PREFIX <= e.0) }

  function CleanDict(d: Dict): Dict {
    if d == [] then [] else CleanDict(d[..|d| - 1]) + (if Kept(d[|d| - 1]) then [d[|d| - 1]] else [])
  }

  lemma CleanAppend(d: Dict, e: Entry)
    ensures CleanDict(d + [e]) == CleanDict(d) + (if Kept(e) then [e] else [])
  {
    assert (d + [e])[..|d|] == d;
  }

  lemma {:induction false} CleanMembers(d: Dict)
    ensures forall e :: e in CleanDict(d) <==> e in d && Kept(e)
  {
    if d != [] {
      CleanMembers(d[..|d| - 1]);
      assert d == d[..|d| - 1] + [d[|d| - 1]];
    }
  }

  lemma {:induction false} CleanAll(d: Dict)
    requires forall i :: 0 <= i < |d| ==> Kept(d[i])
    ensures CleanDict(d) == d
  {
    if d != [] {
      CleanAll(d[..|d| - 1]);
      assert d == d[..|d| - 1] + [d[|d| - 1]];
    }
  }

  /** Cleaning changes nothing exactly when no entry is ours. */
  lemma CleanIdentity(d: Dict)
    ensures CleanDict(d) == d <==> forall e :: e in d ==> Kept(e)
  {
    CleanMembers(d);
    if forall e :: e in d ==> Kept(e) {
      CleanAll(d);
    }
  }

  lemma {:induction false} ReplaceDropped(d: Dict, key: string, x: XObject)
    requires PREFIX <= key
    ensures CleanDict(Replace(d, key, x)) == CleanDict(d)
  {
    if d != [] {
      ReplaceDropped(d[..|d| - 1], key, x);
      assert Replace(d, key, x)[..|d| - 1] == Replace(d[..|d| - 1], key, x);
    }
  }

  /** Adding one of our names, even over an existing entry, leaves no trace after cleaning. */
  lemma PutDropped(d: Dict, key: string, x: XObject)
    requires PREFIX <= key
    ensures CleanDict(Put(d, key, x)) == CleanDict(d)
  {
    if HasKey(d, key) {
      ReplaceDropped(d, key, x);
    } else {
      CleanAppend(d, (key, x));
    }
  }

  lemma PutFacts(d: Dict, key: string, x: XObject)
    requires UniqueKeys(d)
    ensures UniqueKeys(Put(d, key, x)) && (key, x) in Put(d, key, x)
    ensures forall e :: e in Put(d, key, x) ==> e == (key, x) || e in d
    ensures forall e :: e in d && e.0 != key ==> e in Put(d, key, x)
  {
    var r := Put(d, key, x);
    if HasKey(d, key) {
      var i :| 0 <= i < |d| && d[i].0 == key;
      assert r[i] == (key, x);
      forall e | e in d && e.0 != key ensures e in r {
        var j :| 0 <= j < |d| && d[j] == e;
        assert r[j] == e;
      }
    } else {
      assert r[|d|] == (key, x);
    }
  }

  // ---------------------------------------------------------------- watermarking

  /** The page's XObject dictionary, made (with its resource dictionary) when it has none. */
  function WithDict(doc: Doc, k: nat): Doc
    requires k < |doc.pages|
  {
    var p := doc.pages[k];
    var doc1 := if p.resources.Some? && p.resources.value in doc.resources then doc
                else doc.(pages := doc.pages[k := p.(resources := Some(doc.next))],
                          resources := doc.resources[doc.next := None], next := doc.next + 1);
    var r := doc1.pages[k].resources.value;
    if doc1.resources[r].Some? then doc1
    else doc1.(resources := doc1.resources[r := Some(doc1.next)], dicts := doc1.dicts[doc1.next := []], next := doc1.next + 1)
  }

  function Overlay(action: string, l: Layer): XObject { XObject(Some(action), l.form, l.images) }

  function Wrapped(action: string, c: Contents, closer: string): Contents {
    Streams([Stream(Some(action), "q\n")] + Flat(c) + [Stream(Some(action), closer)])
  }

  function MarkPage(doc: Doc, k: nat, action: string, l: Layer): Doc
    requires k < |doc.pages|
  {
    var doc1 := WithDict(doc, k);
    var p := doc1.pages[k];
    match DictOf(doc1.resources, p)
    case None => doc1
    case Some(d) =>
      if d !in doc1.dicts then doc1 else
      doc1.(dicts := doc1.dicts[d := Put(doc1.dicts[d], LayerName(k + 1), Overlay(action, l))],
            pages := doc1.pages[k := p.(contents := Wrapped(action, p.contents, l.closer))])
  }

  function MarkUpTo(doc: Doc, action: string, layers: seq<Layer>, k: nat): (r: Doc)
    requires k <= |layers| == |doc.pages|
    ensures |r.pages| == |doc.pages|
  {
    if k == 0 then doc else MarkPage(MarkUpTo(doc, action, layers, k - 1), k - 1, action, layers[k - 1])
  }

  function ControlPage(action: string, data: string): Page { Page(None, Single(Stream(None, data)), Some(action)) }

  function ControlPages(action: string, controls: seq<string>): (ps: seq<Page>)
    ensures |ps| == |controls|
    ensures forall i :: 0 <= i < |ps| ==> ps[i] == ControlPage(action, controls[i])
  {
    seq(|controls|, i requires 0 <= i < |controls| => ControlPage(action, controls[i]))
  }

  function Watermarked(doc: Doc, action: string, layers: seq<Layer>, controls: seq<string>): Doc
    requires |layers| == |doc.pages|
  {
    var w := MarkUpTo(doc, action, layers, |layers|);
    w.(pages := w.pages + ControlPages(action, controls))
  }

  /** The manifest entry of page k + 1. */
  function OverlayInfo(layers: seq<Layer>, k: nat): (string, Info)
    requires k < |layers|
  {
    (LayerName(k + 1), Info(k + 1, layers[k].form, layers[k].images))
  }

  /** The records of the first k overlays. */
  function Infos(layers: seq<Layer>, k: nat): seq<(string, Info)>
    requires k <= |layers|
  {
    seq(k, i requires 0 <= i < k => OverlayInfo(layers, i))
  }

  function Issued(lib: Library, action: string, layers: seq<Layer>, controls: seq<string>): Manifest {
    Manifest(action, |layers|,
             Infos(layers, |layers|),
             seq(|controls|, i requires 0 <= i < |controls| => lib.raw([Stream(None, controls[i])])))
  }

  // ---------------------------------------------------------------- stripping

  function Lookup(overlays: seq<(string, Info)>, name: string): Option<Info> {
    if overlays == [] then None
    else if overlays[0].0 == name then Some(overlays[0].1)
    else Lookup(overlays[1..], name)
  }

  /** An entry that claims to be one of the overlays this action issued. */
  predicate Claims(m: Manifest, e: Entry) { e.1.layer == Some(m.action) && Lookup(m.overlays, e.0).Some? }

  predicate Intact(m: Manifest, e: Entry)
    requires Claims(m, e)
  {
    var info := Lookup(m.overlays, e.0).value;
    e.1.form == info.form && e.1.images == info.images
  }

  function SeenIn(m: Manifest, d: Dict): set<string> {
    if d == [] then {} else
    SeenIn(m, d[..|d| - 1]) + (if Claims(m, d[|d| - 1]) then {d[|d| - 1].0} else {})
  }

  function ChangedIn(m: Manifest, d: Dict, page: nat): seq<Finding> {
    if d == [] then [] else
    var e := d[|d| - 1];
    ChangedIn(m, d[..|d| - 1], page) + (if Claims(m, e) && !Intact(m, e) then [LayerChanged(page)] else [])
  }

  predicate Untagged(s: Stream) { s.layer == None }

  predicate BodyPage(p: Page) { p.control == None }

  function CleanFlat(lib: Library, ss: seq<Stream>): seq<Stream> {
    var rest := Filter(ss, Untagged);
    if lib.dropInvokes(lib.raw(rest)) == lib.raw(rest) then rest else [Stream(None, lib.dropInvokes(lib.raw(rest)))]
  }

  function CleanContents(lib: Library, c: Contents): Contents {
    match c
    case NoContents => NoContents
    case Single(s) =>
      if lib.dropInvokes(lib.raw([s])) == lib.raw([s]) then c else Single(Stream(None, lib.dropInvokes(lib.raw([s]))))
    case Streams(ss) =>
      var rest := Filter(ss, Untagged);
      if lib.dropInvokes(lib.raw(rest)) == lib.raw(rest) then Streams(rest)
      else Single(Stream(None, lib.dropInvokes(lib.raw(rest))))
  }

  function ControlData(lib: Library, p: Page): string { if p.contents.NoContents? then "" else lib.raw(Flat(p.contents)) }

  predicate Body(doc: Doc, j: int) { 0 <= j < |doc.pages| && doc.pages[j].control == None }

  /** The XObject dictionary of a body page. */
  function BodyDict(doc: Doc, k: nat): Option<nat>
    requires k < |doc.pages|
  {
    if Body(doc, k) then DictOf(doc.resources, doc.pages[k]) else None
  }

  // The state of the loop after k pages, component by component.

  function DictsAt(doc: Doc, k: nat): map<nat, Dict>
    requires k <= |doc.pages|
  {
    if k == 0 then doc.dicts else
    var dicts, d := DictsAt(doc, k - 1), BodyDict(doc, k - 1);
    if d.Some? && d.value in dicts then dicts[d.value := CleanDict(dicts[d.value])] else dicts
  }

  /** The entries the loop finds on page k: other pages may have emptied the dictionary already. */
  function FoundOn(doc: Doc, k: nat): Dict
    requires k < |doc.pages|
  {
    var dicts, d := DictsAt(doc, k), BodyDict(doc, k);
    if d.Some? && d.value in dicts then dicts[d.value] else []
  }

  function SeenAt(doc: Doc, m: Manifest, k: nat): set<string>
    requires k <= |doc.pages|
  {
    if k == 0 then {} else SeenAt(doc, m, k - 1) + SeenIn(m, FoundOn(doc, k - 1))
  }

  /** Pages are counted from 1 in findings. */
  function ChangedAt(doc: Doc, m: Manifest, k: nat): seq<Finding>
    requires k <= |doc.pages|
  {
    if k == 0 then [] else ChangedAt(doc, m, k - 1) + ChangedIn(m, FoundOn(doc, k - 1), k)
  }

  function CleanPage(lib: Library, p: Page): Page {
    if p.control == None then p.(contents := CleanContents(lib, p.contents)) else p
  }

  function PagesAt(doc: Doc, lib: Library, k: nat): (ps: seq<Page>)
    requires k <= |doc.pages|
    ensures |ps| == |doc.pages|
  {
    seq(|doc.pages|, j requires 0 <= j < |doc.pages| => if j < k then CleanPage(lib, doc.pages[j]) else doc.pages[j])
  }

  function ControlAt(doc: Doc, k: nat): seq<nat>
    requires k <= |doc.pages|
  {
    if k == 0 then [] else ControlAt(doc, k - 1) + (if Body(doc, k - 1) then [] else [k - 1])
  }

  /** This action's control pages with their text. */
  function ControlFound(doc: Doc, action: string, lib: Library, k: nat): seq<(nat, string)>
    requires k <= |doc.pages|
  {
    if k == 0 then [] else
    ControlFound(doc, action, lib, k - 1)
    + (if doc.pages[k - 1].control == Some(action) then [(k, ControlData(lib, doc.pages[k - 1]))] else [])
  }

  /** One finding for every issued overlay that did not come back. */
  function MissingFindings(overlays: seq<(string, Info)>, seen: set<string>, deleted: bool): seq<Finding> {
    if overlays == [] then [] else
    var (name, info) := overlays[|overlays| - 1];
    MissingFindings(overlays[..|overlays| - 1], seen, deleted)
    + (if name in seen then [] else [if deleted then PageDeleted(info.page) else LayerRemoved(info.page)])
  }

  function Hashes(found: seq<(nat, string)>): seq<string> { seq(|found|, i requires 0 <= i < |found| => found[i].1) }

  function ControlFindings(m: Manifest, found: seq<(nat, string)>): seq<Finding> {
    if found == [] then [ControlRemoved]
    else if Hashes(found) != m.controlPages then [ControlChanged(found[0].0)]
    else []
  }

  /** Fewer body pages came back than were issued. */
  predicate PagesMissing(doc: Doc, m: Manifest) { |doc.pages| - |ControlAt(doc, |doc.pages|)| < m.pageCount }

  function Findings(doc: Doc, m: Manifest, lib: Library): seq<Finding> {
    var n := |doc.pages|;
    ChangedAt(doc, m, n)
    + MissingFindings(m.overlays, SeenAt(doc, m, n), PagesMissing(doc, m))
    + ControlFindings(m, ControlFound(doc, m.action, lib, n))
  }

  function Stripped(doc: Doc, lib: Library): Doc {
    doc.(pages := Filter(PagesAt(doc, lib, |doc.pages|), BodyPage), dicts := DictsAt(doc, |doc.pages|))
  }

  // ---------------------------------------------------------------- the writer, in place

  /** del d[key] */
  function Without(d: Dict, key: string): Dict {
    if d == [] then [] else Without(d[..|d| - 1], key) + (if d[|d| - 1].0 != key then [d[|d| - 1]] else [])
  }

  lemma {:induction false} WithoutAbsent(d: Dict, key: string)
    requires forall i :: 0 <= i < |d| ==> d[i].0 != key
    ensures Without(d, key) == d
  {
    if d != [] {
      WithoutAbsent(d[..|d| - 1], key);
      assert d == d[..|d| - 1] + [d[|d| - 1]];
    }
  }

  lemma {:induction false} WithoutMiddle(a: Dict, e: Entry, b: Dict)
    requires forall i :: 0 <= i < |a| ==> a[i].0 != e.0
    requires forall x :: x in b ==> x.0 != e.0
    ensures Without(a + [e] + b, e.0) == a + b
  {
    var d := a + [e] + b;
    if b == [] {
      assert d[..|d| - 1] == a && a + b == a;
      WithoutAbsent(a, e.0);
    } else {
      assert d[..|d| - 1] == a + [e] + b[..|b| - 1];
      WithoutMiddle(a, e, b[..|b| - 1]);
      assert b[|b| - 1] in b;
      assert a + b == a + b[..|b| - 1] + [b[|b| - 1]];
    }
  }

  lemma OtherKeys(d: Dict, i: nat)
    requires UniqueKeys(d) && i < |d|
    ensures forall j :: 0 <= j < |CleanDict(d[..i])| ==> CleanDict(d[..i])[j].0 != d[i].0
    ensures forall e :: e in d[i + 1..] ==> e.0 != d[i].0
  {
    CleanMembers(d[..i]);
    forall j | 0 <= j < |CleanDict(d[..i])| ensures CleanDict(d[..i])[j].0 != d[i].0 {
      var e := CleanDict(d[..i])[j];
      assert e in CleanDict(d[..i]);
      var h :| 0 <= h < |d[..i]| && d[..i][h] == e;
    }
  }

  /** Deleting the key at hand when it is one of ours is one more step of cleaning. */
  function HalfClean(d: Dict, i: nat): Dict
    requires i <= |d|
  {
    CleanDict(d[..i]) + d[i..]
  }

  lemma HalfCleanEnds(d: Dict)
    ensures HalfClean(d, 0) == d && HalfClean(d, |d|) == CleanDict(d)
  {
    assert d[..0] == [] && d[..|d|] == d && d[|d|..] == [];
  }

  lemma CleanNext(d: Dict, i: nat)
    requires UniqueKeys(d) && i < |d|
    ensures HalfClean(d, i + 1) == if Kept(d[i]) then HalfClean(d, i) else Without(HalfClean(d, i), d[i].0)
  {
    assert d[..i + 1][..i] == d[..i];
    var a, b := CleanDict(d[..i]), d[i + 1..];
    assert d[i..] == [d[i]] + b;
    assert a + d[i..] == a + [d[i]] + b;
    OtherKeys(d, i);
    WithoutMiddle(a, d[i], b);
  }

  ghost predicate KeysDone(m: Manifest, d: Dict, page: nat, i: nat, xo: Dict, seen: set<string>, changed: seq<Finding>)
    requires i <= |d|
  {
    xo == HalfClean(d, i) && seen == SeenIn(m, d[..i]) && changed == ChangedIn(m, d[..i], page)
  }

  lemma AllKeysDone(m: Manifest, d: Dict, page: nat)
    ensures KeysDone(m, d, page, 0, d, {}, [])
    ensures forall xo, seen, changed :: KeysDone(m, d, page, |d|, xo, seen, changed) ==>
      xo == CleanDict(d) && seen == SeenIn(m, d) && changed == ChangedIn(m, d, page)
  {
    HalfCleanEnds(d);
    assert d[..|d|] == d;
  }

  lemma FindNext(m: Manifest, d: Dict, i: nat, page: nat)
    requires i < |d|
    ensures SeenIn(m, d[..i + 1]) == SeenIn(m, d[..i]) + (if Claims(m, d[i]) then {d[i].0} else {})
    ensures ChangedIn(m, d[..i + 1], page)
         == ChangedIn(m, d[..i], page) + (if Claims(m, d[i]) && !Intact(m, d[i]) then [LayerChanged(page)] else [])
  {
    assert d[..i + 1][..i] == d[..i];
  }

  lemma InfosNext(layers: seq<Layer>, k: nat)
    requires k < |layers|
    ensures Infos(layers, k + 1) == Infos(layers, k) + [OverlayInfo(layers, k)]
  {
  }

  /** What the strip has collected after k pages. */
  ghost predicate Gathered(doc: Doc, m: Manifest, lib: Library, k: nat, seen: set<string>, findings: seq<Finding>, control: seq<nat>,
                           found: seq<(nat, string)>)
    requires k <= |doc.pages|
  {
    && seen == SeenAt(doc, m, k) && findings == ChangedAt(doc, m, k)
    && control == ControlAt(doc, k) && found == ControlFound(doc, m.action, lib, k)
  }

  lemma GatherNext(doc: Doc, m: Manifest, lib: Library, k: nat, seen: set<string>, findings: seq<Finding>, control: seq<nat>,
                   found: seq<(nat, string)>)
    requires k < |doc.pages| && Gathered(doc, m, lib, k, seen, findings, control, found)
    ensures Gathered(doc, m, lib, k + 1, seen + SeenIn(m, FoundOn(doc, k)), findings + ChangedIn(m, FoundOn(doc, k), k + 1),
                     control + (if Body(doc, k) then [] else [k]),
                     found + if doc.pages[k].control == Some(m.action) then [(k + 1, ControlData(lib, doc.pages[k]))] else [])
  {
  }

  class PdfWriter {
    var pages: seq<Page>
    var resources: map<nat, Option<nat>>
    var dicts: map<nat, Dict>
    var next: nat

    ghost function View(): Doc reads this { Doc(pages, resources, dicts, next) }

    /** See that the page has a resource dictionary, and that one an XObject dictionary. */
    method EnsureDict(k: nat) returns (d: nat)
      requires k < |pages| && Valid(View())
      modifies this
      ensures View() == WithDict(old(View()), k) && DictOf(resources, pages[k]) == Some(d) && d in dicts
    {
      if pages[k].resources == None {
        pages := pages[k := pages[k].(resources := Some(next))];
        resources := resources[next := None];
        next := next + 1;
      }
      var r := pages[k].resources.value;
      if resources[r] == None {
        resources := resources[r := Some(next)];
        dicts := dicts[next := []];
        next := next + 1;
      }
      d := resources[r].value;
    }

    /** Draw one page's layer as its own form, invoked by its own content stream. */
    method MarkOne(k: nat, action: string, l: Layer)
      requires k < |pages| && Valid(View())
      modifies this
      ensures View() == MarkPage(old(View()), k, action, l)
    {
      var d := EnsureDict(k);
      dicts := dicts[d := Put(dicts[d], LayerName(k + 1), Overlay(action, l))];
      pages := pages[k := pages[k].(contents := Wrapped(action, pages[k].contents, l.closer))];
    }

    method AddControls(action: string, controls: seq<string>, lib: Library) returns (hashes: seq<string>)
      modifies this`pages
      ensures pages == old(pages) + ControlPages(action, controls)
      ensures hashes == seq(|controls|, i requires 0 <= i < |controls| => lib.raw([Stream(None, controls[i])]))
    {
      hashes := [];
      for i := 0 to |controls|
        invariant pages == old(pages) + ControlPages(action, controls)[..i]
        invariant |hashes| == i && forall j :: 0 <= j < i ==> hashes[j] == lib.raw([Stream(None, controls[j])])
      {
        pages := pages + [ControlPage(action, controls[i])];
        hashes := hashes + [lib.raw([Stream(None, controls[i])])];
      }
      assert ControlPages(action, controls)[..|controls|] == ControlPages(action, controls);
    }

    method AddLayers(action: string, layers: seq<Layer>) returns (overlays: seq<(string, Info)>)
      requires Valid(View()) && |layers| == |pages|
      modifies this
      ensures View() == MarkUpTo(old(View()), action, layers, |layers|)
      ensures overlays == Infos(layers, |layers|)
    {
      overlays := [];
      ghost var doc := View();
      for k := 0 to |layers|
        invariant View() == MarkUpTo(doc, action, layers, k)
        invariant overlays == Infos(layers, k)
      {
        AddLayer(k, action, layers, doc);
        overlays := overlays + [OverlayInfo(layers, k)];
        InfosNext(layers, k);
      }
    }

    method AddLayer(k: nat, action: string, layers: seq<Layer>, ghost doc: Doc)
      requires Valid(doc) && k < |layers| == |doc.pages| && View() == MarkUpTo(doc, action, layers, k)
      modifies this
      ensures View() == MarkUpTo(doc, action, layers, k + 1)
    {
      MarkValid(doc, action, layers, k);
      MarkOne(k, action, layers[k]);
    }

    method Watermark(action: string, layers: seq<Layer>, controls: seq<string>, lib: Library) returns (m: Manifest)
      requires Valid(View()) && |layers| == |pages|
      modifies this
      ensures View() == Watermarked(old(View()), action, layers, controls)
      ensures m == Issued(lib, action, layers, controls)
    {
      var overlays := AddLayers(action, layers);
      var hashes := AddControls(action, controls, lib);
      m := Manifest(action, |layers|, overlays, hashes);
    }

    /** Compare an entry with the manifest: is it an issued overlay, and is it no longer as issued? */
    method CheckEntry(e: Entry, m: Manifest) returns (known: bool, altered: bool)
      ensures known <==> Claims(m, e)
      ensures altered <==> Claims(m, e) && !Intact(m, e)
    {
      known, altered := false, false;
      var info := Lookup(m.overlays, e.0);
      if e.1.layer == Some(m.action) && info.Some? {
        altered := e.1.form != info.value.form || e.1.images != info.value.images;
        known := true;
      }
    }

    /** One key of the loop over a copy of the key list: leave it, or check and delete it. */
    method StripKey(xo: Dict, entries: Dict, i: nat, m: Manifest) returns (after: Dict, known: bool, altered: bool)
      requires i < |entries| && UniqueKeys(entries) && xo == HalfClean(entries, i)
      ensures after == HalfClean(entries, i + 1)
      ensures known <==> Claims(m, entries[i])
      ensures altered <==> Claims(m, entries[i]) && !Intact(m, entries[i])
    {
      var e := entries[i];
      CleanNext(entries, i);
      after, known, altered := xo, false, false;
      if !Kept(e) {
        known, altered := CheckEntry(e, m);
        after := Without(xo, e.0);
      }
    }

    method NextKey(entries: Dict, i: nat, page: nat, m: Manifest, xo: Dict, seen: set<string>, changed: seq<Finding>)
      returns (xo': Dict, seen': set<string>, changed': seq<Finding>)
      requires i < |entries| && UniqueKeys(entries) && KeysDone(m, entries, page, i, xo, seen, changed)
      ensures KeysDone(m, entries, page, i + 1, xo', seen', changed')
    {
      var known, altered: bool;
      xo', known, altered := StripKey(xo, entries, i, m);
      changed' := if altered then changed + [LayerChanged(page)] else changed;
      seen' := if known then seen + {entries[i].0} else seen;
      FindNext(m, entries, i, page);
    }

    /** Check and delete the layer entries of one dictionary, key by key. */
    method StripEntries(entries: Dict, page: nat, m: Manifest) returns (xo: Dict, seen: set<string>, changed: seq<Finding>)
      requires UniqueKeys(entries)
      ensures xo == CleanDict(entries)
      ensures seen == SeenIn(m, entries) && changed == ChangedIn(m, entries, page)
    {
      xo, seen, changed := entries, {}, [];
      AllKeysDone(m, entries, page);
      for i := 0 to |entries|
        invariant KeysDone(m, entries, page, i, xo, seen, changed)
      {
        xo, seen, changed := NextKey(entries, i, page, m, xo, seen, changed);
      }
    }

    ghost predicate Reached(doc: Doc, lib: Library, k: nat)
      requires k <= |doc.pages|
      reads this
    {
      View() == doc.(pages := PagesAt(doc, lib, k), dicts := DictsAt(doc, k))
    }

    /** One body page: its dictionary (which other pages may share), then its contents. */
    method StripBody(k: nat, m: Manifest, lib: Library, ghost doc: Doc) returns (seen: set<string>, changed: seq<Finding>)
      requires Valid(doc) && Body(doc, k) && Reached(doc, lib, k)
      modifies this
      ensures Reached(doc, lib, k + 1)
      ensures seen == SeenIn(m, FoundOn(doc, k)) && changed == ChangedIn(m, FoundOn(doc, k), k + 1)
    {
      DictsValid(doc, k);
      var p := pages[k];
      seen, changed := {}, [];
      var d := if p.resources.Some? && p.resources.value in resources then resources[p.resources.value] else None;
      if d.Some? && d.value in dicts {
        var xo: Dict;
        xo, seen, changed := StripEntries(dicts[d.value], k + 1, m);
        dicts := dicts[d.value := xo];
      }
      pages := pages[k := p.(contents := CleanContents(lib, p.contents))];
    }

    /** One page of the loop: a control page is collected, any other stripped. */
    method StripOne(k: nat, m: Manifest, lib: Library, ghost doc: Doc)
      returns (seen: set<string>, changed: seq<Finding>, control: seq<nat>, found: seq<(nat, string)>)
      requires Valid(doc) && k < |doc.pages| && Reached(doc, lib, k)
      modifies this
      ensures Reached(doc, lib, k + 1)
      ensures seen == SeenIn(m, FoundOn(doc, k)) && changed == ChangedIn(m, FoundOn(doc, k), k + 1)
      ensures control == (if Body(doc, k) then [] else [k])
      ensures found == if doc.pages[k].control == Some(m.action) then [(k + 1, ControlData(lib, doc.pages[k]))] else []
    {
      var tag := pages[k].control;
      seen, changed, control, found := {}, [], [], [];
      if tag.Some? {
        control := [k];
        if tag.value == m.action {
          found := [(k + 1, ControlData(lib, pages[k]))];
        }
        assert FoundOn(doc, k) == [];
      } else {
        seen, changed := StripBody(k, m, lib, doc);
      }
    }

    method StripPages(m: Manifest, lib: Library)
      returns (seen: set<string>, findings: seq<Finding>, control: seq<nat>, found: seq<(nat, string)>)
      requires Valid(View())
      modifies this
      ensures View() == old(View()).(pages := PagesAt(old(View()), lib, |old(pages)|), dicts := DictsAt(old(View()), |old(pages)|))
      ensures seen == SeenAt(old(View()), m, |old(pages)|) && findings == ChangedAt(old(View()), m, |old(pages)|)
      ensures control == ControlAt(old(View()), |old(pages)|) && found == ControlFound(old(View()), m.action, lib, |old(pages)|)
    {
      seen, findings, control, found := {}, [], [], [];
      ghost var doc := View();
      for k := 0 to |pages|
        invariant |pages| == |doc.pages| && Reached(doc, lib, k)
        invariant Gathered(doc, m, lib, k, seen, findings, control, found)
      {
        var s, c, own, texts := StripOne(k, m, lib, doc);
        GatherNext(doc, m, lib, k, seen, findings, control, found);
        seen, findings, control, found := seen + s, findings + c, control + own, found + texts;
      }
    }

    method StripWatermark(m: Manifest, lib: Library) returns (findings: seq<Finding>)
      requires Valid(View())
      modifies this
      ensures View() == Stripped(old(View()), lib)
      ensures findings == Findings(old(View()), m, lib)
    {
      var seen, changed, control, found := StripPages(m, lib);
      var missing := MissingLoop(m.overlays, seen, |pages| - |control| < m.pageCount);
      findings := changed + missing;
      if |found| == 0 {
        findings := findings + [ControlRemoved];
      } else if Hashes(found) != m.controlPages {
        findings := findings + [ControlChanged(found[0].0)];
      }
      pages := Filter(pages, BodyPage);
    }

    method MissingLoop(overlays: seq<(string, Info)>, seen: set<string>, deleted: bool) returns (findings: seq<Finding>)
      ensures findings == MissingFindings(overlays, seen, deleted)
    {
      findings := [];
      for i := 0 to |overlays|
        invariant findings == MissingFindings(overlays[..i], seen, deleted)
      {
        assert overlays[..i + 1][..i] == overlays[..i];
        if overlays[i].0 !in seen {
          findings := findings + [if deleted then PageDeleted(overlays[i].1.page) else LayerRemoved(overlays[i].1.page)];
        }
      }
      assert overlays[..|overlays|] == overlays;
    }
  }

  lemma {:induction false} SeenFacts(m: Manifest, d: Dict)
    ensures forall e :: e in d && Claims(m, e) ==> e.0 in SeenIn(m, d)
    ensures forall n :: n in SeenIn(m, d) ==> exists e :: e in d && Claims(m, e) && e.0 == n
  {
    if d != [] {
      var init, last := d[..|d| - 1], d[|d| - 1];
      SeenFacts(m, init);
      assert d == init + [last];
      forall n | n in SeenIn(m, d) ensures exists e :: e in d && Claims(m, e) && e.0 == n {
        if n in SeenIn(m, init) {
          var e :| e in init && Claims(m, e) && e.0 == n;
          assert e in d;
        } else {
          assert last in d && Claims(m, last);
        }
      }
    }
  }

  // ---------------------------------------------------------------- what marking does

  /** The XObject entries a page sees. */
  function Entries(doc: Doc, j: nat): Dict
    requires j < |doc.pages|
  {
    match DictOf(doc.resources, doc.pages[j])
    case None => []
    case Some(d) => if d in doc.dicts then doc.dicts[d] else []
  }

  lemma MarkEntries(doc: Doc, k: nat, action: string, l: Layer, j: nat)
    requires Valid(doc) && k < |doc.pages| && j < |doc.pages|
    ensures var r := MarkPage(doc, k, action, l);
      || Entries(r, j) == Put(Entries(doc, j), LayerName(k + 1), Overlay(action, l))
      || (j != k && Entries(r, j) == Entries(doc, j))
  {
    WithDictFacts(doc, k);
    var doc1, r := WithDict(doc, k), MarkPage(doc, k, action, l);
    assert r.pages[j].resources == doc1.pages[j].resources;
    assert Entries(doc1, j) == Entries(doc, j);
  }

  lemma MarkedValid(doc: Doc, k: nat, action: string, l: Layer)
    requires Valid(doc) && k < |doc.pages|
    ensures Valid(MarkPage(doc, k, action, l))
  {
    WithDictFacts(doc, k);
    var doc1, r := WithDict(doc, k), MarkPage(doc, k, action, l);
    var d := DictOf(doc1.resources, doc1.pages[k]).value;
    PutFacts(doc1.dicts[d], LayerName(k + 1), Overlay(action, l));
    forall i | 0 <= i < |r.pages| ensures ValidPage(r, r.pages[i]) {
      assert ValidPage(doc1, doc1.pages[i]);
    }
  }

  lemma MarkStep(doc: Doc, k: nat, action: string, l: Layer)
    requires Valid(doc) && k < |doc.pages|
    ensures var r := MarkPage(doc, k, action, l);
      && Valid(r) && |r.pages| == |doc.pages|
      && (forall j :: 0 <= j < |doc.pages| ==> r.pages[j].control == doc.pages[j].control)
      && (forall j :: 0 <= j < |doc.pages| && j != k ==> r.pages[j].contents == doc.pages[j].contents)
      && r.pages[k].contents == Wrapped(action, doc.pages[k].contents, l.closer)
  {
    MarkedValid(doc, k, action, l);
    WithDictFacts(doc, k);
  }

  /** Making the dictionaries shows no page anything new. */
  lemma WithDictFacts(doc: Doc, k: nat)
    requires Valid(doc) && k < |doc.pages|
    ensures var r := WithDict(doc, k);
      && Valid(r) && |r.pages| == |doc.pages|
      && (forall j :: 0 <= j < |doc.pages| ==> r.pages[j].(resources := None) == doc.pages[j].(resources := None))
      && (forall j :: 0 <= j < |doc.pages| ==> Entries(r, j) == Entries(doc, j))
      && DictOf(r.resources, r.pages[k]).Some? && DictOf(r.resources, r.pages[k]).value in r.dicts
  {
    forall j | 0 <= j < |doc.pages| ensures ValidPage(doc, doc.pages[j]) {
    }
  }

  // ---------------------------------------------------------------- what stripping does

  /** Some body page before k uses dictionary d. */
  ghost predicate Touched(doc: Doc, d: nat, k: nat)
    requires k <= |doc.pages|
  {
    exists j :: 0 <= j < k && BodyDict(doc, j) == Some(d)
  }

  lemma TouchedNext(doc: Doc, k: nat, d: nat)
    requires k < |doc.pages|
    ensures Touched(doc, d, k + 1) <==> Touched(doc, d, k) || BodyDict(doc, k) == Some(d)
  {
    if BodyDict(doc, k) == Some(d) {
      assert Touched(doc, d, k + 1);
    }
  }

  lemma CleanTwice(d: Dict)
    ensures CleanDict(CleanDict(d)) == CleanDict(d)
  {
    CleanMembers(d);
    CleanIdentity(CleanDict(d));
  }

  /** Every dictionary some body page uses is cleaned, once; the others are left alone. */
  lemma {:induction false} DictsClosed(doc: Doc, k: nat, d: nat)
    requires k <= |doc.pages|
    ensures DictsAt(doc, k).Keys == doc.dicts.Keys
    ensures d in doc.dicts ==>
      DictsAt(doc, k)[d] == if Touched(doc, d, k) then CleanDict(doc.dicts[d]) else doc.dicts[d]
  {
    if k > 0 {
      DictsClosed(doc, k - 1, d);
      TouchedNext(doc, k - 1, d);
      if d in doc.dicts {
        CleanTwice(doc.dicts[d]);
      }
    }
  }

  lemma {:induction false} CleanUnique(d: Dict)
    requires UniqueKeys(d)
    ensures UniqueKeys(CleanDict(d))
  {
    if d != [] {
      var init := d[..|d| - 1];
      CleanUnique(init);
      CleanMembers(init);
      forall e | e in CleanDict(init) ensures e.0 != d[|d| - 1].0 {
        var i :| 0 <= i < |init| && init[i] == e;
      }
    }
  }

  lemma DictsValid(doc: Doc, k: nat)
    requires Valid(doc) && k <= |doc.pages|
    ensures forall d :: d in DictsAt(doc, k) ==> UniqueKeys(DictsAt(doc, k)[d])
  {
    DictsClosed(doc, k, 0);
    forall d | d in DictsAt(doc, k) ensures UniqueKeys(DictsAt(doc, k)[d]) {
      DictsClosed(doc, k, d);
      CleanUnique(doc.dicts[d]);
    }
  }

  /** Body page j was returned with entry e, which claims to be an issued overlay. */
  ghost predicate Returned(doc: Doc, m: Manifest, j: int, e: Entry) {
    Body(doc, j) && e in Entries(doc, j) && Claims(m, e)
  }

  /** A body page before k returned an overlay of this action under this name. */
  ghost predicate CameBack(doc: Doc, m: Manifest, n: string, k: nat) {
    exists j, e :: 0 <= j < k && Returned(doc, m, j, e) && e.0 == n
  }

  ghost predicate AllIntact(doc: Doc, m: Manifest, k: nat) {
    forall j, e :: 0 <= j < k && Returned(doc, m, j, e) ==> Intact(m, e)
  }

  lemma {:induction false} ChangedEmpty(m: Manifest, d: Dict, page: nat)
    ensures ChangedIn(m, d, page) == [] <==> forall e :: e in d && Claims(m, e) ==> Intact(m, e)
  {
    if d != [] {
      var init, last := d[..|d| - 1], d[|d| - 1];
      ChangedEmpty(m, init, page);
      assert d == init + [last];
    }
  }

  /** What the loop finds on a page is what was returned there, unless an earlier page shares the
      dictionary: then everything was found there already. */
  lemma FoundIs(doc: Doc, m: Manifest, k: nat)
    requires k < |doc.pages|
    ensures forall e :: e in FoundOn(doc, k) && Claims(m, e) ==> Returned(doc, m, k, e)
    ensures forall e :: Returned(doc, m, k, e) ==>
      e in FoundOn(doc, k) || exists j :: 0 <= j < k && Returned(doc, m, j, e)
  {
    var d := BodyDict(doc, k);
    if d.Some? {
      DictsClosed(doc, k, d.value);
      if d.value in doc.dicts {
        CleanMembers(doc.dicts[d.value]);
        if Touched(doc, d.value, k) {
          var j :| 0 <= j < k && BodyDict(doc, j) == d;
          forall e | Returned(doc, m, k, e) ensures exists j :: 0 <= j < k && Returned(doc, m, j, e) {
            assert Returned(doc, m, j, e);
          }
        }
      }
    }
  }

  /** The loop sees exactly the overlays that body pages returned, each under its own name. */
  lemma {:induction false} SeenClosed(doc: Doc, m: Manifest, k: nat, n: string)
    requires k <= |doc.pages|
    ensures n in SeenAt(doc, m, k) <==> CameBack(doc, m, n, k)
  {
    if k > 0 {
      SeenClosed(doc, m, k - 1, n);
      FoundIs(doc, m, k - 1);
      SeenFacts(m, FoundOn(doc, k - 1));
      if n in SeenIn(m, FoundOn(doc, k - 1)) {
        var e :| e in FoundOn(doc, k - 1) && Claims(m, e) && e.0 == n;
        assert Returned(doc, m, k - 1, e);
      }
      if CameBack(doc, m, n, k) && !CameBack(doc, m, n, k - 1) {
        var j, e :| 0 <= j < k && Returned(doc, m, j, e) && e.0 == n;
        assert j == k - 1;
      }
    }
  }

  /** The loop finds every returned overlay on the first page that shows it. */
  lemma FirstFound(doc: Doc, m: Manifest, j: nat, e: Entry) returns (i: nat)
    requires Returned(doc, m, j, e)
    ensures i <= j && e in FoundOn(doc, i)
  {
    FoundIs(doc, m, j);
    if e in FoundOn(doc, j) {
      i := j;
    } else {
      var h :| 0 <= h < j && Returned(doc, m, h, e);
      i := FirstFound(doc, m, h, e);
    }
  }

  ghost predicate FoundIntact(doc: Doc, m: Manifest, k: nat)
    requires k < |doc.pages|
  {
    forall e :: e in FoundOn(doc, k) && Claims(m, e) ==> Intact(m, e)
  }

  lemma {:induction false} SumEmpty<T>(parts: seq<seq<T>>, sums: seq<seq<T>>, n: nat)
    requires n <= |parts| == |sums| - 1 && sums[0] == []
    requires forall k :: 0 <= k < |parts| ==> sums[k + 1] == sums[k] + parts[k]
    ensures sums[n] == [] <==> forall k :: 0 <= k < n ==> parts[k] == []
  {
    if n > 0 {
      SumEmpty(parts, sums, n - 1);
      assert sums[n - 1 + 1] == sums[n - 1] + parts[n - 1];
    }
  }

  function ChangesOn(doc: Doc, m: Manifest, n: nat): (parts: seq<seq<Finding>>)
    requires n <= |doc.pages|
    ensures |parts| == n
  {
    seq(n, i requires 0 <= i < n => ChangedIn(m, FoundOn(doc, i), i + 1))
  }

  function ChangedUpTo(doc: Doc, m: Manifest, n: nat): (sums: seq<seq<Finding>>)
    requires n <= |doc.pages|
    ensures |sums| == n + 1
  {
    seq(n + 1, k requires 0 <= k < n + 1 => ChangedAt(doc, m, k))
  }

  lemma ChangedUpToNext(doc: Doc, m: Manifest, n: nat, k: nat)
    requires k < n <= |doc.pages|
    ensures ChangedUpTo(doc, m, n)[k + 1] == ChangedUpTo(doc, m, n)[k] + ChangesOn(doc, m, n)[k]
  {
  }

  lemma ChangedWhere(doc: Doc, m: Manifest, n: nat)
    requires n <= |doc.pages|
    ensures ChangedAt(doc, m, n) == [] <==> forall i :: 0 <= i < n ==> ChangesOn(doc, m, n)[i] == []
  {
    var parts, sums := ChangesOn(doc, m, n), ChangedUpTo(doc, m, n);
    forall k | 0 <= k < n ensures sums[k + 1] == sums[k] + parts[k] {
      ChangedUpToNext(doc, m, n, k);
    }
    SumEmpty(parts, sums, n);
  }

  lemma FoundOrReturned(doc: Doc, m: Manifest, k: nat)
    requires k <= |doc.pages|
    ensures AllIntact(doc, m, k) <==> forall i :: 0 <= i < k ==> FoundIntact(doc, m, i)
  {
    if forall i :: 0 <= i < k ==> FoundIntact(doc, m, i) {
      forall j, e | 0 <= j < k && Returned(doc, m, j, e) ensures Intact(m, e) {
        var i := FirstFound(doc, m, j, e);
        assert FoundIntact(doc, m, i);
      }
    }
    if AllIntact(doc, m, k) {
      forall i | 0 <= i < k ensures FoundIntact(doc, m, i) {
        FoundIs(doc, m, i);
      }
    }
  }

  lemma ChangesTell(doc: Doc, m: Manifest, n: nat, i: nat)
    requires i < n <= |doc.pages|
    ensures ChangesOn(doc, m, n)[i] == [] <==> FoundIntact(doc, m, i)
  {
    ChangedEmpty(m, FoundOn(doc, i), i + 1);
  }

  /** ... and reports a change unless every one of them is as it was issued. */
  lemma ChangedClosed(doc: Doc, m: Manifest, k: nat)
    requires k <= |doc.pages|
    ensures ChangedAt(doc, m, k) == [] <==> AllIntact(doc, m, k)
  {
    ChangedWhere(doc, m, k);
    FoundOrReturned(doc, m, k);
    forall i | 0 <= i < k ensures ChangesOn(doc, m, k)[i] == [] <==> FoundIntact(doc, m, i) {
      ChangesTell(doc, m, k, i);
    }
  }

  // ---------------------------------------------------------------- verification is sound and complete

  function ControlTexts(lib: Library, pages: seq<Page>): seq<string> {
    seq(|pages|, i requires 0 <= i < |pages| => ControlData(lib, pages[i]))
  }

  /** The control pages of an action, in page order. */
  function OwnPages(pages: seq<Page>, action: string): seq<Page> {
    Filter(pages, (p: Page) => p.control == Some(action))
  }

  lemma {:induction false} ControlClosed(doc: Doc, action: string, lib: Library, k: nat)
    requires k <= |doc.pages|
    ensures Hashes(ControlFound(doc, action, lib, k)) == ControlTexts(lib, OwnPages(doc.pages[..k], action))
  {
    if k > 0 {
      ControlClosed(doc, action, lib, k - 1);
      var p, init := doc.pages[k - 1], doc.pages[..k - 1];
      assert doc.pages[..k][..k - 1] == init;
      var own := if p.control == Some(action) then [p] else [];
      assert OwnPages(doc.pages[..k], action) == OwnPages(init, action) + own;
      assert ControlTexts(lib, OwnPages(init, action) + own) == ControlTexts(lib, OwnPages(init, action)) + ControlTexts(lib, own);
      var found, more := ControlFound(doc, action, lib, k - 1), if p.control == Some(action) then [(k, ControlData(lib, p))] else [];
      assert Hashes(found + more) == Hashes(found) + Hashes(more);
      assert Hashes(more) == ControlTexts(lib, own);
    }
  }

  /** An issued overlay came back: some body page carries it under its own name, tagged with this
      action, with the issued form and images. */
  ghost predicate BackAsIssued(doc: Doc, m: Manifest, i: nat)
    requires i < |m.overlays|
  {
    exists j, e ::
      && Body(doc, j) && e in Entries(doc, j)
      && e == (m.overlays[i].0, XObject(Some(m.action), m.overlays[i].1.form, m.overlays[i].1.images))
  }

  ghost predicate DistinctNames(m: Manifest) {
    forall i, j :: 0 <= i < j < |m.overlays| ==> m.overlays[i].0 != m.overlays[j].0
  }

  lemma {:induction false} LookupIs(overlays: seq<(string, Info)>, i: nat)
    requires i < |overlays| && forall h, j :: 0 <= h < j < |overlays| ==> overlays[h].0 != overlays[j].0
    ensures Lookup(overlays, overlays[i].0) == Some(overlays[i].1)
  {
    if i > 0 {
      LookupIs(overlays[1..], i - 1);
    }
  }

  lemma {:induction false} MissingEmpty(overlays: seq<(string, Info)>, seen: set<string>, deleted: bool)
    ensures MissingFindings(overlays, seen, deleted) == [] <==> forall i :: 0 <= i < |overlays| ==> overlays[i].0 in seen
  {
    if overlays != [] {
      MissingEmpty(overlays[..|overlays| - 1], seen, deleted);
      assert forall i :: 0 <= i < |overlays| - 1 ==> overlays[..|overlays| - 1][i] == overlays[i];
    }
  }

  function MissingOf(page: nat, deleted: bool): Finding { if deleted then PageDeleted(page) else LayerRemoved(page) }

  function Occurrences(fs: seq<Finding>, f: Finding): nat {
    if fs == [] then 0 else Occurrences(fs[..|fs| - 1], f) + if fs[|fs| - 1] == f then 1 else 0
  }

  lemma OccurrencesAppend(fs: seq<Finding>, x: Finding, f: Finding)
    ensures Occurrences(fs + [x], f) == Occurrences(fs, f) + if x == f then 1 else 0
  {
    assert (fs + [x])[..|fs|] == fs;
  }

  lemma MissingAppend(overlays: seq<(string, Info)>, seen: set<string>, deleted: bool, f: Finding)
    requires overlays != []
    ensures var last := overlays[|overlays| - 1];
      Occurrences(MissingFindings(overlays, seen, deleted), f)
      == Occurrences(MissingFindings(overlays[..|overlays| - 1], seen, deleted), f)
         + (if last.0 !in seen && MissingOf(last.1.page, deleted) == f then 1 else 0)
  {
    var before, last := MissingFindings(overlays[..|overlays| - 1], seen, deleted), overlays[|overlays| - 1];
    if last.0 in seen {
      assert before + [] == before;
    } else {
      OccurrencesAppend(before, MissingOf(last.1.page, deleted), f);
    }
  }

  lemma {:induction false} OneMissingEach(overlays: seq<(string, Info)>, seen: set<string>, deleted: bool, i: nat)
    requires i < |overlays| && forall h, j :: 0 <= h < j < |overlays| ==> overlays[h].1.page != overlays[j].1.page
    ensures Occurrences(MissingFindings(overlays, seen, deleted), MissingOf(overlays[i].1.page, deleted))
         == if overlays[i].0 in seen then 0 else 1
  {
    var init, last := overlays[..|overlays| - 1], overlays[|overlays| - 1];
    MissingAppend(overlays, seen, deleted, MissingOf(overlays[i].1.page, deleted));
    if i < |init| {
      OneMissingEach(init, seen, deleted, i);
    } else {
      NoFinding(init, seen, deleted, last.1.page);
    }
  }

  lemma {:induction false} NoFinding(overlays: seq<(string, Info)>, seen: set<string>, deleted: bool, page: nat)
    requires forall i :: 0 <= i < |overlays| ==> overlays[i].1.page != page
    ensures Occurrences(MissingFindings(overlays, seen, deleted), MissingOf(page, deleted)) == 0
  {
    if overlays != [] {
      MissingAppend(overlays, seen, deleted, MissingOf(page, deleted));
      NoFinding(overlays[..|overlays| - 1], seen, deleted, page);
    }
  }

  lemma {:induction false} OccurrencesConcat(a: seq<Finding>, b: seq<Finding>, f: Finding)
    ensures Occurrences(a + b, f) == Occurrences(a, f) + Occurrences(b, f)
  {
    if b == [] {
      assert a + b == a;
    } else {
      OccurrencesConcat(a, b[..|b| - 1], f);
      assert (a + b)[..|a + b| - 1] == a + b[..|b| - 1];
    }
  }

  lemma {:induction false} ChangedOnly(m: Manifest, d: Dict, page: nat, f: Finding)
    requires !f.LayerChanged?
    ensures Occurrences(ChangedIn(m, d, page), f) == 0
  {
    if d != [] {
      ChangedOnly(m, d[..|d| - 1], page, f);
      var e := d[|d| - 1];
      OccurrencesConcat(ChangedIn(m, d[..|d| - 1], page), if Claims(m, e) && !Intact(m, e) then [LayerChanged(page)] else [], f);
    }
  }

  lemma ChangesOnlyNext(before: seq<Finding>, m: Manifest, d: Dict, page: nat, f: Finding)
    requires !f.LayerChanged? && Occurrences(before, f) == 0
    ensures Occurrences(before + ChangedIn(m, d, page), f) == 0
  {
    ChangedOnly(m, d, page, f);
    OccurrencesConcat(before, ChangedIn(m, d, page), f);
  }

  ghost predicate Unreported(doc: Doc, m: Manifest, k: nat, f: Finding)
    requires k <= |doc.pages|
  {
    Occurrences(ChangedAt(doc, m, k), f) == 0
  }

  lemma UnreportedNext(doc: Doc, m: Manifest, k: nat, f: Finding)
    requires k < |doc.pages| && !f.LayerChanged? && Unreported(doc, m, k, f)
    ensures Unreported(doc, m, k + 1, f)
  {
    ChangesOnlyNext(ChangedAt(doc, m, k), m, FoundOn(doc, k), k + 1, f);
  }

  lemma ChangesOnly(doc: Doc, m: Manifest, n: nat, f: Finding)
    requires n <= |doc.pages| && !f.LayerChanged?
    ensures Unreported(doc, m, n, f)
  {
    assert Unreported(doc, m, 0, f);
    for k := 0 to n
      invariant Unreported(doc, m, k, f)
    {
      UnreportedNext(doc, m, k, f);
    }
  }

  lemma OccurrencesThree(a: seq<Finding>, b: seq<Finding>, c: seq<Finding>, f: Finding)
    ensures Occurrences(a + b + c, f) == Occurrences(a, f) + Occurrences(b, f) + Occurrences(c, f)
  {
    OccurrencesConcat(a + b, c, f);
    OccurrencesConcat(a, b, f);
  }

  lemma ControlOnly(m: Manifest, found: seq<(nat, string)>, f: Finding)
    requires !f.ControlRemoved? && !f.ControlChanged?
    ensures Occurrences(ControlFindings(m, found), f) == 0
  {
    var fs := ControlFindings(m, found);
    assert fs != [] ==> fs[..|fs| - 1] == [];
  }

  /** Among all the findings about a returned file, every issued overlay that no body page returned
      has exactly one, of the kind the page count asks for; an overlay that was returned has none. */
  lemma OneFindingEach(doc: Doc, m: Manifest, lib: Library, i: nat)
    requires i < |m.overlays| && forall h, j :: 0 <= h < j < |m.overlays| ==> m.overlays[h].1.page != m.overlays[j].1.page
    ensures Occurrences(Findings(doc, m, lib), MissingOf(m.overlays[i].1.page, PagesMissing(doc, m)))
         == if CameBack(doc, m, m.overlays[i].0, |doc.pages|) then 0 else 1
  {
    var n, deleted := |doc.pages|, PagesMissing(doc, m);
    var f, seen := MissingOf(m.overlays[i].1.page, deleted), SeenAt(doc, m, n);
    var changed, missing := ChangedAt(doc, m, n), MissingFindings(m.overlays, seen, deleted);
    var control := ControlFindings(m, ControlFound(doc, m.action, lib, n));
    OccurrencesThree(changed, missing, control, f);
    ControlOnly(m, ControlFound(doc, m.action, lib, n), f);
    ChangesOnly(doc, m, n, f);
    OneMissingEach(m.overlays, seen, deleted, i);
    SeenClosed(doc, m, n, m.overlays[i].0);
  }

  lemma BackMeansCame(doc: Doc, m: Manifest, i: nat)
    requires DistinctNames(m) && i < |m.overlays|
    ensures BackAsIssued(doc, m, i) ==> CameBack(doc, m, m.overlays[i].0, |doc.pages|)
    ensures CameBack(doc, m, m.overlays[i].0, |doc.pages|) && AllIntact(doc, m, |doc.pages|) ==> BackAsIssued(doc, m, i)
  {
    LookupIs(m.overlays, i);
    var issued: Entry := (m.overlays[i].0, XObject(Some(m.action), m.overlays[i].1.form, m.overlays[i].1.images));
    if BackAsIssued(doc, m, i) {
      var j, e :| Body(doc, j) && e in Entries(doc, j) && e == issued;
      assert Returned(doc, m, j, e);
    }
    if CameBack(doc, m, m.overlays[i].0, |doc.pages|) && AllIntact(doc, m, |doc.pages|) {
      var j, e :| 0 <= j < |doc.pages| && Returned(doc, m, j, e) && e.0 == m.overlays[i].0;
      assert e == issued && e in Entries(doc, j);
    }
  }

  /** No findings, for any returned file, exactly when every issued overlay is back as issued, none
      that claims to be one differs, and this action's control pages are the issued ones in order. */
  lemma VerificationExact(doc: Doc, m: Manifest, lib: Library)
    requires DistinctNames(m)
    ensures Findings(doc, m, lib) == [] <==>
      && (forall i :: 0 <= i < |m.overlays| ==> BackAsIssued(doc, m, i))
      && AllIntact(doc, m, |doc.pages|)
      && OwnPages(doc.pages, m.action) != []
      && ControlTexts(lib, OwnPages(doc.pages, m.action)) == m.controlPages
  {
    var n := |doc.pages|;
    ChangedClosed(doc, m, n);
    MissingEmpty(m.overlays, SeenAt(doc, m, n), PagesMissing(doc, m));
    ControlClosed(doc, m.action, lib, n);
    assert doc.pages[..n] == doc.pages;
    forall i | 0 <= i < |m.overlays|
      ensures m.overlays[i].0 in SeenAt(doc, m, n) <==> CameBack(doc, m, m.overlays[i].0, n)
      ensures AllIntact(doc, m, n) ==> (BackAsIssued(doc, m, i) <==> CameBack(doc, m, m.overlays[i].0, n))
    {
      SeenClosed(doc, m, n, m.overlays[i].0);
      BackMeansCame(doc, m, i);
    }
    assert |Hashes(ControlFound(doc, m.action, lib, n))| == |OwnPages(doc.pages, m.action)|;
  }

  // ---------------------------------------------------------------- every finding, and every page, of any returned file

  lemma {:induction false} BodyCount(doc: Doc, k: nat)
    requires k <= |doc.pages|
    ensures k - |ControlAt(doc, k)| == |Filter(doc.pages[..k], BodyPage)|
  {
    if k > 0 {
      BodyCount(doc, k - 1);
      assert doc.pages[..k][..k - 1] == doc.pages[..k - 1];
    }
  }

  lemma {:induction false} ChangedInExact(m: Manifest, d: Dict, page: nat, f: Finding)
    ensures f in ChangedIn(m, d, page) <==> f == LayerChanged(page) && exists e :: e in d && Claims(m, e) && !Intact(m, e)
  {
    if d != [] {
      var init, last := d[..|d| - 1], d[|d| - 1];
      ChangedInExact(m, init, page, f);
      assert d == init + [last];
    }
  }

  /** Body page k is the first to show its dictionary. */
  ghost predicate FirstToShow(doc: Doc, k: nat) {
    k < |doc.pages| && BodyDict(doc, k).Some? && forall j :: 0 <= j < k ==> BodyDict(doc, j) != BodyDict(doc, k)
  }

  /** A dictionary is looked through on the first page that shows it, as it was returned; later pages find
      nothing of ours there. */
  lemma FoundFirst(doc: Doc, m: Manifest, k: nat)
    requires k < |doc.pages|
    ensures (exists e :: e in FoundOn(doc, k) && Claims(m, e) && !Intact(m, e))
      <==> FirstToShow(doc, k) && exists e :: Returned(doc, m, k, e) && !Intact(m, e)
  {
    var d := BodyDict(doc, k);
    if d.Some? && d.value in doc.dicts {
      DictsClosed(doc, k, d.value);
      CleanMembers(doc.dicts[d.value]);
      assert FirstToShow(doc, k) <==> !Touched(doc, d.value, k);
      assert Entries(doc, k) == doc.dicts[d.value];
      if FirstToShow(doc, k) {
        assert FoundOn(doc, k) == Entries(doc, k);
      }
    } else if d.Some? {
      DictsClosed(doc, k, d.value);
    }
  }

  lemma ChangedAtNext(doc: Doc, m: Manifest, k: nat, f: Finding)
    requires k < |doc.pages|
    ensures f in ChangedAt(doc, m, k + 1) <==> f in ChangedAt(doc, m, k) || ChangedOn(doc, m, k, f)
  {
    ChangedInExact(m, FoundOn(doc, k), k + 1, f);
    FoundFirst(doc, m, k);
  }

  ghost predicate ChangedBefore(doc: Doc, m: Manifest, k: nat, f: Finding) { exists j: nat :: j < k && ChangedOn(doc, m, j, f) }

  lemma ChangedBeforeNext(doc: Doc, m: Manifest, k: nat, f: Finding)
    ensures ChangedBefore(doc, m, k + 1, f) <==> ChangedBefore(doc, m, k, f) || ChangedOn(doc, m, k, f)
  {
  }

  ghost predicate ReportedBefore(doc: Doc, m: Manifest, k: nat, f: Finding)
    requires k <= |doc.pages|
  {
    f in ChangedAt(doc, m, k) <==> ChangedBefore(doc, m, k, f)
  }

  lemma ReportedNext(doc: Doc, m: Manifest, k: nat, f: Finding)
    requires k < |doc.pages| && ReportedBefore(doc, m, k, f)
    ensures ReportedBefore(doc, m, k + 1, f)
  {
    ChangedAtNext(doc, m, k, f);
    ChangedBeforeNext(doc, m, k, f);
  }

  lemma {:induction false} ChangedAtExact(doc: Doc, m: Manifest, k: nat, f: Finding)
    requires k <= |doc.pages|
    ensures ReportedBefore(doc, m, k, f)
  {
    if k > 0 {
      ChangedAtExact(doc, m, k - 1, f);
      ReportedNext(doc, m, k - 1, f);
    }
  }

  /** Page j shows an issued overlay that is no longer as issued, and no earlier page shows the same
      dictionary. */
  ghost predicate ChangedOn(doc: Doc, m: Manifest, j: nat, f: Finding) {
    f == LayerChanged(j + 1) && FirstToShow(doc, j) && exists e :: Returned(doc, m, j, e) && !Intact(m, e)
  }

  lemma {:induction false} MissingExact(overlays: seq<(string, Info)>, seen: set<string>, deleted: bool, f: Finding)
    ensures f in MissingFindings(overlays, seen, deleted)
      <==> exists i :: 0 <= i < |overlays| && overlays[i].0 !in seen && f == MissingOf(overlays[i].1.page, deleted)
  {
    if overlays != [] {
      var init := overlays[..|overlays| - 1];
      MissingExact(init, seen, deleted, f);
      assert forall i :: 0 <= i < |init| ==> init[i] == overlays[i];
    }
  }

  /** Page p, counted from 1, is the first control page of this action. */
  ghost predicate FirstOwn(doc: Doc, action: string, p: int, k: nat)
    requires k <= |doc.pages|
  {
    1 <= p <= k && doc.pages[p - 1].control == Some(action) && forall j :: 0 <= j < p - 1 ==> doc.pages[j].control != Some(action)
  }

  lemma {:induction false} FirstFoundOwn(doc: Doc, action: string, lib: Library, k: nat)
    requires k <= |doc.pages|
    ensures ControlFound(doc, action, lib, k) == [] <==> forall j :: 0 <= j < k ==> doc.pages[j].control != Some(action)
    ensures ControlFound(doc, action, lib, k) != [] ==> FirstOwn(doc, action, ControlFound(doc, action, lib, k)[0].0, k)
  {
    if k > 0 {
      FirstFoundOwn(doc, action, lib, k - 1);
    }
  }

  /** The texts of this action's control pages, in page order; a page without contents counts as empty. */
  function OwnTexts(doc: Doc, action: string, lib: Library, k: nat): seq<string>
    requires k <= |doc.pages|
  {
    if k == 0 then [] else
    var p := doc.pages[k - 1];
    OwnTexts(doc, action, lib, k - 1)
    + if p.control != Some(action) then [] else if p.contents == NoContents then [""] else [lib.raw(Flat(p.contents))]
  }

  lemma {:induction false} OwnTextsFound(doc: Doc, action: string, lib: Library, k: nat)
    requires k <= |doc.pages|
    ensures Hashes(ControlFound(doc, action, lib, k)) == OwnTexts(doc, action, lib, k)
  {
    if k > 0 {
      OwnTextsFound(doc, action, lib, k - 1);
      var found, p := ControlFound(doc, action, lib, k - 1), doc.pages[k - 1];
      if p.control == Some(action) {
        assert Hashes(found + [(k, ControlData(lib, p))]) == Hashes(found) + [ControlData(lib, p)];
      } else {
        assert found + [] == found;
      }
    }
  }

  /** Fewer body pages are in the file than were issued. */
  predicate FewerPages(doc: Doc, m: Manifest) { |Filter(doc.pages, BodyPage)| < m.pageCount }

  /** What the findings about any returned file are, and where: a layer is reported as changed on the first
      page that shows its dictionary; one that no body page returned as removed, or as lost with its page
      when pages are missing; the control page as removed when the action has none, as changed, on the
      first of them, when their texts are not the issued ones in order. Nothing else is reported. */
  ghost predicate Justified(doc: Doc, m: Manifest, lib: Library, f: Finding) {
    match f
    case LayerChanged(p) => exists j: nat :: ChangedOn(doc, m, j, f)
    case PageDeleted(p) => FewerPages(doc, m) && NotReturned(doc, m, p)
    case LayerRemoved(p) => !FewerPages(doc, m) && NotReturned(doc, m, p)
    case ControlRemoved => forall j :: 0 <= j < |doc.pages| ==> doc.pages[j].control != Some(m.action)
    case ControlChanged(p) => FirstOwn(doc, m.action, p, |doc.pages|) && OwnTexts(doc, m.action, lib, |doc.pages|) != m.controlPages
  }

  /** An overlay issued for that page came back on no body page. */
  ghost predicate NotReturned(doc: Doc, m: Manifest, p: nat) {
    exists i :: 0 <= i < |m.overlays| && m.overlays[i].1.page == p && !CameBack(doc, m, m.overlays[i].0, |doc.pages|)
  }

  lemma MissingJustified(doc: Doc, m: Manifest, lib: Library, f: Finding)
    ensures f in MissingFindings(m.overlays, SeenAt(doc, m, |doc.pages|), PagesMissing(doc, m))
      <==> (f.PageDeleted? || f.LayerRemoved?) && Justified(doc, m, lib, f)
  {
    var n := |doc.pages|;
    MissingExact(m.overlays, SeenAt(doc, m, n), PagesMissing(doc, m), f);
    BodyCount(doc, n);
    assert doc.pages[..n] == doc.pages;
    forall i | 0 <= i < |m.overlays|
      ensures m.overlays[i].0 in SeenAt(doc, m, n) <==> CameBack(doc, m, m.overlays[i].0, n)
    {
      SeenClosed(doc, m, n, m.overlays[i].0);
    }
  }

  lemma ControlJustified(doc: Doc, m: Manifest, lib: Library, f: Finding)
    ensures f in ControlFindings(m, ControlFound(doc, m.action, lib, |doc.pages|))
      <==> (f.ControlRemoved? || f.ControlChanged?) && Justified(doc, m, lib, f)
  {
    FirstFoundOwn(doc, m.action, lib, |doc.pages|);
    OwnTextsFound(doc, m.action, lib, |doc.pages|);
  }

  lemma FindingsExact(doc: Doc, m: Manifest, lib: Library, f: Finding)
    ensures f in Findings(doc, m, lib) <==> Justified(doc, m, lib, f)
  {
    ChangedAtExact(doc, m, |doc.pages|, f);
    MissingJustified(doc, m, lib, f);
    ControlJustified(doc, m, lib, f);
  }

  /** What becomes of a page's streams: tagged ones go from a list, the invocations of our layers from the
      text of what is left; untagged streams without any stay as they are. */
  ghost predicate StreamsCleaned(lib: Library, before: Contents, after: Contents) {
    var left := if before.Streams? then Filter(before.streams, Untagged) else Flat(before);
    && (lib.dropInvokes(lib.raw(left)) == lib.raw(left) || before == NoContents ==> Flat(after) == left)
    && (lib.dropInvokes(lib.raw(left)) != lib.raw(left) && before != NoContents ==> Flat(after) == [Stream(None, lib.dropInvokes(lib.raw(left)))])
    && (after == NoContents <==> before == NoContents)
  }

  /** No layer tag and no name of ours. */
  predicate Foreign(e: Entry) { e.1.layer == None && !("LCWM" <= e.0) }

  ghost predicate Unshown(doc: Doc, d: nat) { forall j :: 0 <= j < |doc.pages| ==> BodyDict(doc, j) != Some(d) }

  /** Stripping any returned file keeps exactly the pages without a control tag, in order, with cleaned
      streams; of every dictionary that one of them shows exactly the entries that carry no layer tag and
      no LCWM name; and every other dictionary whole. */
  lemma StrippedExact(doc: Doc, lib: Library)
    ensures var t, kept := Stripped(doc, lib), Filter(doc.pages, BodyPage);
      && |t.pages| == |kept|
      && forall j :: 0 <= j < |kept| ==>
           t.pages[j].resources == kept[j].resources && t.pages[j].control == None && StreamsCleaned(lib, kept[j].contents, t.pages[j].contents)
    ensures Stripped(doc, lib).dicts.Keys == doc.dicts.Keys
    ensures forall d, e :: d in doc.dicts ==>
      (e in Stripped(doc, lib).dicts[d] <==> e in doc.dicts[d] && (Foreign(e) || Unshown(doc, d)))
  {
    StrippedBody(doc, lib, |doc.pages|);
    assert doc.pages[..|doc.pages|] == doc.pages && PagesAt(doc, lib, |doc.pages|)[..|doc.pages|] == PagesAt(doc, lib, |doc.pages|);
    DictsClosed(doc, |doc.pages|, 0);
    forall d, e | d in doc.dicts
      ensures e in Stripped(doc, lib).dicts[d] <==> e in doc.dicts[d] && (Foreign(e) || Unshown(doc, d))
    {
      DictsClosed(doc, |doc.pages|, d);
      CleanMembers(doc.dicts[d]);
      assert Touched(doc, d, |doc.pages|) <==> !Unshown(doc, d);
    }
  }

  lemma {:induction false} StrippedBody(doc: Doc, lib: Library, k: nat)
    requires k <= |doc.pages|
    ensures var t, kept := Filter(PagesAt(doc, lib, |doc.pages|)[..k], BodyPage), Filter(doc.pages[..k], BodyPage);
      && |t| == |kept|
      && forall j :: 0 <= j < |kept| ==>
           t[j].resources == kept[j].resources && t[j].control == None && StreamsCleaned(lib, kept[j].contents, t[j].contents)
  {
    if k > 0 {
      var all, p := PagesAt(doc, lib, |doc.pages|), doc.pages[k - 1];
      StrippedBody(doc, lib, k - 1);
      assert all[..k][..k - 1] == all[..k - 1] && doc.pages[..k][..k - 1] == doc.pages[..k - 1];
      assert all[..k][k - 1] == CleanPage(lib, p) && doc.pages[..k][k - 1] == p;
      ContentsCleaned(lib, p.contents);
    }
  }

  lemma ContentsCleaned(lib: Library, c: Contents)
    ensures StreamsCleaned(lib, c, CleanContents(lib, c))
  {
  }

  // ---------------------------------------------------------------- the round trip

  /** Page j after marking the first k pages: nothing but our entries has changed in its dictionary,
      and it carries its own once it is marked. */
  ghost predicate MarkedAt(doc: Doc, w: Doc, action: string, layers: seq<Layer>, k: nat, j: nat)
    requires k <= |layers| == |doc.pages| == |w.pages| && j < |doc.pages|
  {
    && w.pages[j].control == doc.pages[j].control
    && w.pages[j].contents == (if j < k then Wrapped(action, doc.pages[j].contents, layers[j].closer) else doc.pages[j].contents)
    && CleanDict(Entries(w, j)) == CleanDict(Entries(doc, j))
    && (j < k ==> (LayerName(j + 1), Overlay(action, layers[j])) in Entries(w, j))
  }

  /** One of the first k overlays, under its own name. */
  ghost predicate AmongFirst(e: Entry, action: string, layers: seq<Layer>, k: nat)
    requires k <= |layers|
  {
    exists i :: 0 <= i < k && e == (LayerName(i + 1), Overlay(action, layers[i]))
  }

  /** Every entry tagged with the action is one of the first k overlays, under its own name. */
  ghost predicate OnlyOurs(w: Doc, action: string, layers: seq<Layer>, k: nat)
    requires k <= |layers|
  {
    forall j, e :: 0 <= j < |w.pages| && e in Entries(w, j) && e.1.layer == Some(action) ==> AmongFirst(e, action, layers, k)
  }

  lemma PutStep(d: Dict, key: string, x: XObject)
    requires PREFIX <= key && UniqueKeys(d)
    ensures CleanDict(Put(d, key, x)) == CleanDict(d) && (key, x) in Put(d, key, x)
    ensures forall e :: e in Put(d, key, x) ==> e == (key, x) || e in d
    ensures forall e :: e in d && e.0 != key ==> e in Put(d, key, x)
  {
    PutDropped(d, key, x);
    PutFacts(d, key, x);
  }

  lemma EntriesUnique(doc: Doc, j: nat)
    requires Valid(doc) && j < |doc.pages|
    ensures UniqueKeys(Entries(doc, j))
  {
  }

  lemma ValidNext(doc: Doc, action: string, layers: seq<Layer>, k: nat)
    requires k < |layers| == |doc.pages| && Valid(MarkUpTo(doc, action, layers, k))
    ensures Valid(MarkUpTo(doc, action, layers, k + 1))
  {
    MarkStep(MarkUpTo(doc, action, layers, k), k, action, layers[k]);
  }

  lemma {:induction false} MarkValid(doc: Doc, action: string, layers: seq<Layer>, k: nat)
    requires Valid(doc) && k <= |layers| == |doc.pages|
    ensures Valid(MarkUpTo(doc, action, layers, k))
  {
    if k > 0 {
      MarkValid(doc, action, layers, k - 1);
      ValidNext(doc, action, layers, k - 1);
    }
  }

  /** What marking page k does to page j. */
  ghost predicate StepAt(w: Doc, r: Doc, k: nat, action: string, l: Layer, j: nat) {
    var own := (LayerName(k + 1), Overlay(action, l));
    && |r.pages| == |w.pages| && j < |w.pages|
    && r.pages[j].control == w.pages[j].control
    && r.pages[j].contents == (if j == k then Wrapped(action, w.pages[j].contents, l.closer) else w.pages[j].contents)
    && CleanDict(Entries(r, j)) == CleanDict(Entries(w, j))
    && (j == k ==> own in Entries(r, j))
    && (forall e :: e in Entries(r, j) ==> e == own || e in Entries(w, j))
    && (forall e :: e in Entries(w, j) && e.0 != own.0 ==> e in Entries(r, j))
  }

  lemma MarkStepAt(w: Doc, k: nat, action: string, l: Layer, j: nat)
    requires Valid(w) && k < |w.pages| && j < |w.pages|
    ensures StepAt(w, MarkPage(w, k, action, l), k, action, l, j)
  {
    MarkStep(w, k, action, l);
    MarkEntries(w, k, action, l, j);
    LayerNames(k + 1, k + 1);
    EntriesUnique(w, j);
    PutStep(Entries(w, j), LayerName(k + 1), Overlay(action, l));
  }

  lemma {:induction false} MarkClosed(doc: Doc, action: string, layers: seq<Layer>, k: nat, j: nat)
    requires Valid(doc) && k <= |layers| == |doc.pages| && j < |doc.pages|
    ensures MarkedAt(doc, MarkUpTo(doc, action, layers, k), action, layers, k, j)
  {
    if k > 0 {
      MarkClosed(doc, action, layers, k - 1, j);
      MarkValid(doc, action, layers, k - 1);
      MarkNext(doc, MarkUpTo(doc, action, layers, k - 1), action, layers, k - 1, j);
    }
  }

  lemma MarkNext(doc: Doc, w: Doc, action: string, layers: seq<Layer>, k: nat, j: nat)
    requires k < |layers| == |doc.pages| == |w.pages| && j < |doc.pages| && Valid(w)
    requires MarkedAt(doc, w, action, layers, k, j)
    ensures |MarkPage(w, k, action, layers[k]).pages| == |w.pages|
    ensures MarkedAt(doc, MarkPage(w, k, action, layers[k]), action, layers, k + 1, j)
  {
    MarkStepAt(w, k, action, layers[k], j);
    MarkedNext(doc, w, MarkPage(w, k, action, layers[k]), action, layers, k, j);
  }

  lemma MarkedNext(doc: Doc, w: Doc, r: Doc, action: string, layers: seq<Layer>, k: nat, j: nat)
    requires k < |layers| == |doc.pages| == |w.pages| == |r.pages| && j < |doc.pages|
    requires MarkedAt(doc, w, action, layers, k, j) && StepAt(w, r, k, action, layers[k], j)
    ensures MarkedAt(doc, r, action, layers, k + 1, j)
  {
    LayerNames(j + 1, k + 1);
  }

  lemma OnlyOursStep(doc: Doc, action: string, layers: seq<Layer>, k: nat)
    requires Valid(doc) && k < |layers| == |doc.pages| && OnlyOurs(MarkUpTo(doc, action, layers, k), action, layers, k)
    ensures OnlyOurs(MarkUpTo(doc, action, layers, k + 1), action, layers, k + 1)
  {
    var w := MarkUpTo(doc, action, layers, k);
    MarkValid(doc, action, layers, k);
    MarkSteps(w, k, action, layers[k]);
    OnlyOursNext(w, MarkPage(w, k, action, layers[k]), action, layers, k);
  }

  lemma {:induction false} OnlyOursClosed(doc: Doc, action: string, layers: seq<Layer>, k: nat)
    requires Valid(doc) && k <= |layers| == |doc.pages| && OnlyOurs(doc, action, layers, 0)
    ensures OnlyOurs(MarkUpTo(doc, action, layers, k), action, layers, k)
  {
    if k > 0 {
      OnlyOursClosed(doc, action, layers, k - 1);
      OnlyOursStep(doc, action, layers, k - 1);
    }
  }

  ghost predicate AllSteps(w: Doc, r: Doc, k: nat, action: string, l: Layer) {
    |r.pages| == |w.pages| && forall j :: 0 <= j < |w.pages| ==> StepAt(w, r, k, action, l, j)
  }

  lemma MarkSteps(w: Doc, k: nat, action: string, l: Layer)
    requires Valid(w) && k < |w.pages|
    ensures AllSteps(w, MarkPage(w, k, action, l), k, action, l)
  {
    forall j | 0 <= j < |w.pages| ensures StepAt(w, MarkPage(w, k, action, l), k, action, l, j) {
      MarkStepAt(w, k, action, l, j);
    }
    MarkStep(w, k, action, l);
  }

  lemma OnlyOursNext(w: Doc, r: Doc, action: string, layers: seq<Layer>, k: nat)
    requires k < |layers| == |w.pages| && OnlyOurs(w, action, layers, k)
    requires AllSteps(w, r, k, action, layers[k])
    ensures OnlyOurs(r, action, layers, k + 1)
  {
    forall j, e | 0 <= j < |r.pages| && e in Entries(r, j) && e.1.layer == Some(action)
      ensures exists i :: 0 <= i < k + 1 && e == (LayerName(i + 1), Overlay(action, layers[i]))
    {
      assert StepAt(w, r, k, action, layers[k], j);
      if e in Entries(w, j) {
        var i :| 0 <= i < k && e == (LayerName(i + 1), Overlay(action, layers[i]));
      } else {
        assert e == (LayerName(k + 1), Overlay(action, layers[k]));
      }
    }
  }

  lemma Unwrapped(q: Stream, ss: seq<Stream>, z: Stream)
    requires !Untagged(q) && !Untagged(z)
    ensures Filter([q] + ss + [z], Untagged) == Filter(ss, Untagged)
  {
    FilterConcat([q] + ss, [z], Untagged);
    FilterConcat([q], ss, Untagged);
    FilterNone([q], Untagged);
    FilterNone([z], Untagged);
  }

  lemma WrappedClean(lib: Library, action: string, c: Contents, closer: string)
    ensures Flat(CleanContents(lib, Wrapped(action, c, closer))) == CleanFlat(lib, Flat(c))
  {
    Unwrapped(Stream(Some(action), "q\n"), Flat(c), Stream(Some(action), closer));
  }

  ghost predicate NoControl(doc: Doc) { forall j :: 0 <= j < |doc.pages| ==> doc.pages[j].control == None }

  lemma FilterPrefix(ps: seq<Page>, n: nat, p: Page -> bool)
    requires n <= |ps|
    requires forall j :: 0 <= j < n ==> p(ps[j])
    requires forall j :: n <= j < |ps| ==> !p(ps[j])
    ensures Filter(ps, p) == ps[..n]
  {
    var head, rest := ps[..n], ps[n..];
    assert ps == head + rest;
    FilterConcat(head, rest, p);
    FilterAll(head, p);
    FilterNone(rest, p);
    assert head + [] == head;
  }

  /** The pages of a watermarked file: the marked ones, then this action's control pages. */
  lemma WatermarkedPages(doc: Doc, action: string, layers: seq<Layer>, controls: seq<string>, j: nat)
    requires Valid(doc) && |layers| == |doc.pages| && NoControl(doc)
    ensures var w := Watermarked(doc, action, layers, controls);
      && |w.pages| == |doc.pages| + |controls|
      && (j < |doc.pages| ==> w.pages[j] == MarkUpTo(doc, action, layers, |layers|).pages[j] && w.pages[j].control == None)
      && (|doc.pages| <= j < |w.pages| ==> w.pages[j] == ControlPage(action, controls[j - |doc.pages|]))
  {
    if j < |doc.pages| {
      MarkClosed(doc, action, layers, |layers|, j);
    }
  }

  lemma BodyPagesKept(doc: Doc, action: string, layers: seq<Layer>, controls: seq<string>, lib: Library)
    requires Valid(doc) && |layers| == |doc.pages| && NoControl(doc)
    ensures var w := Watermarked(doc, action, layers, controls);
      |w.pages| >= |doc.pages|
      && Stripped(w, lib).pages == PagesAt(w, lib, |w.pages|)[..|doc.pages|]
  {
    var w := Watermarked(doc, action, layers, controls);
    var all := PagesAt(w, lib, |w.pages|);
    WatermarkedPages(doc, action, layers, controls, 0);
    forall j | 0 <= j < |doc.pages| ensures BodyPage(all[j]) {
      WatermarkedPages(doc, action, layers, controls, j);
    }
    forall j | |doc.pages| <= j < |all| ensures !BodyPage(all[j]) {
      WatermarkedPages(doc, action, layers, controls, j);
    }
    FilterPrefix(all, |doc.pages|, BodyPage);
  }

  /** The page's dictionary after the strip is the cleaned one, whoever shares it. */
  lemma StrippedEntries(w: Doc, lib: Library, j: nat)
    requires Valid(w) && j < |w.pages| && Body(w, j)
    requires Stripped(w, lib).pages != [] && j < |Stripped(w, lib).pages| && Stripped(w, lib).pages[j].resources == w.pages[j].resources
    ensures Entries(Stripped(w, lib), j) == CleanDict(Entries(w, j))
  {
    var d := BodyDict(w, j);
    if d.Some? {
      DictsClosed(w, |w.pages|, d.value);
      assert Touched(w, d.value, |w.pages|);
    }
  }

  lemma StrippedPage(doc: Doc, action: string, layers: seq<Layer>, controls: seq<string>, lib: Library, j: nat)
    requires Valid(doc) && |layers| == |doc.pages| && NoControl(doc) && j < |doc.pages|
    ensures var s := Stripped(Watermarked(doc, action, layers, controls), lib);
      && |s.pages| == |doc.pages| && s.pages[j].control == None
      && Entries(s, j) == CleanDict(Entries(doc, j))
      && Flat(s.pages[j].contents) == CleanFlat(lib, Flat(doc.pages[j].contents))
  {
    var w1, w := MarkUpTo(doc, action, layers, |layers|), Watermarked(doc, action, layers, controls);
    MarkClosed(doc, action, layers, |layers|, j);
    BodyPagesKept(doc, action, layers, controls, lib);
    WatermarkedPages(doc, action, layers, controls, j);
    WatermarkedValid(doc, action, layers, controls);
    assert Entries(w, j) == Entries(w1, j);
    StrippedEntries(w, lib, j);
    WrappedClean(lib, action, doc.pages[j].contents, layers[j].closer);
  }

  /** What strip-after-watermark gives, for any pages sharing any dictionaries: each page's own
      dictionary and streams, less only what was ours (or looked like ours) beforehand. */
  lemma StripUndoesMark(doc: Doc, action: string, layers: seq<Layer>, controls: seq<string>, lib: Library)
    requires Valid(doc) && |layers| == |doc.pages| && NoControl(doc)
    ensures var s := Stripped(Watermarked(doc, action, layers, controls), lib);
      && |s.pages| == |doc.pages| && NoControl(s)
      && forall j :: 0 <= j < |doc.pages| ==>
        && Entries(s, j) == CleanDict(Entries(doc, j))
        && Flat(s.pages[j].contents) == CleanFlat(lib, Flat(doc.pages[j].contents))
  {
    BodyPagesKept(doc, action, layers, controls, lib);
    forall j | 0 <= j < |doc.pages|
      ensures var s := Stripped(Watermarked(doc, action, layers, controls), lib);
        && s.pages[j].control == None
        && Entries(s, j) == CleanDict(Entries(doc, j))
        && Flat(s.pages[j].contents) == CleanFlat(lib, Flat(doc.pages[j].contents))
    {
      StrippedPage(doc, action, layers, controls, lib, j);
    }
  }

  lemma WatermarkedValid(doc: Doc, action: string, layers: seq<Layer>, controls: seq<string>)
    requires Valid(doc) && |layers| == |doc.pages|
    ensures Valid(Watermarked(doc, action, layers, controls))
  {
    MarkValid(doc, action, layers, |layers|);
    var w1, w := MarkUpTo(doc, action, layers, |layers|), Watermarked(doc, action, layers, controls);
    forall i | 0 <= i < |w.pages| ensures ValidPage(w, w.pages[i]) {
      if i < |doc.pages| {
        assert ValidPage(w1, w1.pages[i]);
      }
    }
  }

  /** The dictionaries come back unchanged if and only if no page showed an entry of ours before:
      an LCWM name, or a layer tag. */
  lemma DictionariesRestored(doc: Doc, action: string, layers: seq<Layer>, controls: seq<string>, lib: Library)
    requires Valid(doc) && |layers| == |doc.pages| && NoControl(doc)
    ensures var s := Stripped(Watermarked(doc, action, layers, controls), lib);
      |s.pages| == |doc.pages| &&
      ((forall j :: 0 <= j < |doc.pages| ==> Entries(s, j) == Entries(doc, j))
        <==> (forall j, e :: 0 <= j < |doc.pages| && e in Entries(doc, j) ==> Kept(e)))
  {
    StripUndoesMark(doc, action, layers, controls, lib);
    forall j | 0 <= j < |doc.pages|
      ensures CleanDict(Entries(doc, j)) == Entries(doc, j) <==> forall e :: e in Entries(doc, j) ==> Kept(e)
    {
      CleanIdentity(Entries(doc, j));
    }
  }

  /** ... and so do the stream sequences of pages without tagged streams or our invocations. */
  lemma StreamsRestored(doc: Doc, action: string, layers: seq<Layer>, controls: seq<string>, lib: Library, j: nat)
    requires Valid(doc) && |layers| == |doc.pages| && NoControl(doc) && j < |doc.pages|
    requires forall st :: st in Flat(doc.pages[j].contents) ==> Untagged(st)
    requires lib.dropInvokes(lib.raw(Flat(doc.pages[j].contents))) == lib.raw(Flat(doc.pages[j].contents))
    ensures var s := Stripped(Watermarked(doc, action, layers, controls), lib);
      |s.pages| == |doc.pages| && Flat(s.pages[j].contents) == Flat(doc.pages[j].contents)
  {
    StripUndoesMark(doc, action, layers, controls, lib);
    FilterAll(Flat(doc.pages[j].contents), Untagged);
  }

  function KeyOf(i: nat): string { LayerName(i + 1) }

  /** The name of one of the first k layers. */
  ghost predicate NamedFirst(key: string, k: nat) { exists i: nat :: i < k && key == KeyOf(i) }

  /** Page j after the first k pages are marked: every entry it had before, unless under one of those
      layers' names, is still there, and every new one is one of those layers. */
  ghost predicate OnlyAdded(doc: Doc, w: Doc, action: string, layers: seq<Layer>, k: nat, j: nat)
    requires k <= |layers| == |doc.pages| == |w.pages| && j < |doc.pages|
  {
    && (forall e :: e in Entries(w, j) ==> e in Entries(doc, j) || AmongFirst(e, action, layers, k))
    && (forall e :: e in Entries(doc, j) && !NamedFirst(e.0, k) ==> e in Entries(w, j))
  }

  lemma OnlyAddedNext(doc: Doc, w: Doc, r: Doc, action: string, layers: seq<Layer>, k: nat, j: nat)
    requires k < |layers| == |doc.pages| == |w.pages| == |r.pages| && j < |doc.pages|
    requires OnlyAdded(doc, w, action, layers, k, j) && StepAt(w, r, k, action, layers[k], j)
    ensures OnlyAdded(doc, r, action, layers, k + 1, j)
  {
    forall e | e in Entries(r, j)
      ensures e in Entries(doc, j) || AmongFirst(e, action, layers, k + 1)
    {
      if e in Entries(w, j) && e !in Entries(doc, j) {
        var i :| 0 <= i < k && e == (LayerName(i + 1), Overlay(action, layers[i]));
      } else if e !in Entries(w, j) {
        assert e == (LayerName(k + 1), Overlay(action, layers[k]));
      }
    }
    forall e | e in Entries(doc, j) && !NamedFirst(e.0, k + 1)
      ensures e in Entries(r, j)
    {
      assert e.0 != KeyOf(k);
      assert NamedFirst(e.0, k) ==> NamedFirst(e.0, k + 1);
    }
  }

  lemma AddedStep(doc: Doc, action: string, layers: seq<Layer>, k: nat, j: nat)
    requires Valid(doc) && k < |layers| == |doc.pages| && j < |doc.pages|
    requires OnlyAdded(doc, MarkUpTo(doc, action, layers, k), action, layers, k, j)
    ensures OnlyAdded(doc, MarkUpTo(doc, action, layers, k + 1), action, layers, k + 1, j)
  {
    var w := MarkUpTo(doc, action, layers, k);
    MarkValid(doc, action, layers, k);
    MarkStepAt(w, k, action, layers[k], j);
    OnlyAddedNext(doc, w, MarkPage(w, k, action, layers[k]), action, layers, k, j);
  }

  lemma {:induction false} AddedClosed(doc: Doc, action: string, layers: seq<Layer>, k: nat, j: nat)
    requires Valid(doc) && k <= |layers| == |doc.pages| && j < |doc.pages|
    ensures OnlyAdded(doc, MarkUpTo(doc, action, layers, k), action, layers, k, j)
  {
    if k > 0 {
      AddedClosed(doc, action, layers, k - 1, j);
      AddedStep(doc, action, layers, k - 1, j);
    }
  }

  lemma MarkedEntries(doc: Doc, action: string, layers: seq<Layer>, controls: seq<string>, j: nat)
    requires Valid(doc) && |layers| == |doc.pages| && NoControl(doc) && j < |doc.pages|
    ensures |Watermarked(doc, action, layers, controls).pages| == |doc.pages| + |controls|
    ensures Entries(Watermarked(doc, action, layers, controls), j) == Entries(MarkUpTo(doc, action, layers, |layers|), j)
  {
    WatermarkedPages(doc, action, layers, controls, j);
  }

  /** What an issued file shows on page j: the page as before, between the tagged opener that saves the
      graphics state and the tagged stream that restores it and draws the page's layer. */
  lemma IssuedStreams(doc: Doc, action: string, layers: seq<Layer>, controls: seq<string>, j: nat)
    requires Valid(doc) && |layers| == |doc.pages| && NoControl(doc) && j < |doc.pages|
    ensures var w := Watermarked(doc, action, layers, controls);
      && |w.pages| == |doc.pages| + |controls| && w.pages[j].control == None
      && Flat(w.pages[j].contents)
         == [Stream(Some(action), "q\n")] + Flat(doc.pages[j].contents) + [Stream(Some(action), layers[j].closer)]
  {
    MarkClosed(doc, action, layers, |layers|, j);
    WatermarkedPages(doc, action, layers, controls, j);
  }

  /** What its dictionary has: under the layer's own name that form and those images, tagged with the
      action; otherwise what it had before, but for the layers of pages that share the dictionary. */
  lemma IssuedEntries(doc: Doc, action: string, layers: seq<Layer>, controls: seq<string>, j: nat)
    requires Valid(doc) && |layers| == |doc.pages| && NoControl(doc) && j < |doc.pages|
    ensures var w := Watermarked(doc, action, layers, controls);
      && |w.pages| == |doc.pages| + |controls| && UniqueKeys(Entries(w, j))
      && ("LCWM" + Decimal(j + 1), XObject(Some(action), layers[j].form, layers[j].images)) in Entries(w, j)
      && (forall e :: e in Entries(w, j) ==> e in Entries(doc, j) || AmongFirst(e, action, layers, |layers|))
      && (forall e :: e in Entries(doc, j) && !NamedFirst(e.0, |layers|) ==> e in Entries(w, j))
  {
    MarkClosed(doc, action, layers, |layers|, j);
    AddedClosed(doc, action, layers, |layers|, j);
    MarkedEntries(doc, action, layers, controls, j);
    MarkValid(doc, action, layers, |layers|);
    EntriesUnique(MarkUpTo(doc, action, layers, |layers|), j);
  }

  /** After the pages come the control pages, in order, tagged with the action. */
  lemma IssuedControls(doc: Doc, action: string, layers: seq<Layer>, controls: seq<string>, i: nat)
    requires Valid(doc) && |layers| == |doc.pages| && NoControl(doc) && i < |controls|
    ensures var w := Watermarked(doc, action, layers, controls);
      && |w.pages| == |doc.pages| + |controls|
      && var p := w.pages[|doc.pages| + i]; p.control == Some(action) && Flat(p.contents) == [Stream(None, controls[i])]
  {
    WatermarkedPages(doc, action, layers, controls, |doc.pages| + i);
  }

  lemma IssuedBack(doc: Doc, action: string, layers: seq<Layer>, controls: seq<string>, lib: Library, i: nat)
    requires Valid(doc) && |layers| == |doc.pages| && NoControl(doc) && i < |layers|
    ensures BackAsIssued(Watermarked(doc, action, layers, controls), Issued(lib, action, layers, controls), i)
  {
    var w1, w := MarkUpTo(doc, action, layers, |layers|), Watermarked(doc, action, layers, controls);
    MarkClosed(doc, action, layers, |layers|, i);
    WatermarkedPages(doc, action, layers, controls, i);
    assert Entries(w, i) == Entries(w1, i);
    assert Body(w, i) && (LayerName(i + 1), Overlay(action, layers[i])) in Entries(w, i);
  }

  lemma IssuedIntact(doc: Doc, action: string, layers: seq<Layer>, controls: seq<string>, lib: Library, j: nat, e: Entry)
    requires Valid(doc) && |layers| == |doc.pages| && NoControl(doc) && OnlyOurs(doc, action, layers, 0)
    requires Returned(Watermarked(doc, action, layers, controls), Issued(lib, action, layers, controls), j, e)
    ensures Intact(Issued(lib, action, layers, controls), e)
  {
    var i := TaggedEntry(doc, action, layers, controls, j, e);
    IssuedLookup(lib, action, layers, controls, i);
  }

  lemma BodyEntries(doc: Doc, action: string, layers: seq<Layer>, controls: seq<string>, j: nat)
    requires Valid(doc) && |layers| == |doc.pages| && NoControl(doc)
    requires Body(Watermarked(doc, action, layers, controls), j)
    ensures j < |doc.pages|
    ensures Entries(Watermarked(doc, action, layers, controls), j) == Entries(MarkUpTo(doc, action, layers, |layers|), j)
  {
    WatermarkedPages(doc, action, layers, controls, j);
  }

  lemma TaggedEntry(doc: Doc, action: string, layers: seq<Layer>, controls: seq<string>, j: nat, e: Entry) returns (i: nat)
    requires Valid(doc) && |layers| == |doc.pages| && NoControl(doc) && OnlyOurs(doc, action, layers, 0)
    requires Body(Watermarked(doc, action, layers, controls), j) && e in Entries(Watermarked(doc, action, layers, controls), j)
    requires e.1.layer == Some(action)
    ensures i < |layers| && e == (LayerName(i + 1), Overlay(action, layers[i]))
  {
    BodyEntries(doc, action, layers, controls, j);
    OnlyOursClosed(doc, action, layers, |layers|);
    i := WhichOverlay(MarkUpTo(doc, action, layers, |layers|), action, layers, j, e);
  }

  lemma WhichOverlay(w: Doc, action: string, layers: seq<Layer>, j: nat, e: Entry) returns (i: nat)
    requires OnlyOurs(w, action, layers, |layers|)
    requires j < |w.pages| && e in Entries(w, j) && e.1.layer == Some(action)
    ensures i < |layers| && e == (LayerName(i + 1), Overlay(action, layers[i]))
  {
    assert AmongFirst(e, action, layers, |layers|);
    i :| 0 <= i < |layers| && e == (LayerName(i + 1), Overlay(action, layers[i]));
  }

  lemma IssuedLookup(lib: Library, action: string, layers: seq<Layer>, controls: seq<string>, i: nat)
    requires i < |layers|
    ensures Lookup(Issued(lib, action, layers, controls).overlays, LayerName(i + 1)) == Some(Info(i + 1, layers[i].form, layers[i].images))
  {
    IssuedNames(lib, action, layers, controls);
    LookupIs(Issued(lib, action, layers, controls).overlays, i);
  }

  /** An unmodified copy is never accused, even where stripping one page removes the layers of
      others from a dictionary they share. */
  lemma UnmodifiedCopyClean(doc: Doc, action: string, layers: seq<Layer>, controls: seq<string>, lib: Library)
    requires Valid(doc) && |layers| == |doc.pages| && NoControl(doc) && controls != []
    requires OnlyOurs(doc, action, layers, 0)
    ensures Findings(Watermarked(doc, action, layers, controls), Issued(lib, action, layers, controls), lib) == []
  {
    var w, m := Watermarked(doc, action, layers, controls), Issued(lib, action, layers, controls);
    forall i | 0 <= i < |m.overlays| ensures BackAsIssued(w, m, i) {
      IssuedBack(doc, action, layers, controls, lib, i);
    }
    forall j, e | 0 <= j < |w.pages| && Returned(w, m, j, e) ensures Intact(m, e) {
      IssuedIntact(doc, action, layers, controls, lib, j, e);
    }
    IssuedNames(lib, action, layers, controls);
    ControlsBack(doc, action, layers, controls, lib);
    VerificationExact(w, m, lib);
  }

  lemma IssuedNames(lib: Library, action: string, layers: seq<Layer>, controls: seq<string>)
    ensures DistinctNames(Issued(lib, action, layers, controls))
  {
    var m := Issued(lib, action, layers, controls);
    forall i, j | 0 <= i < j < |m.overlays| ensures m.overlays[i].0 != m.overlays[j].0 {
      LayerNames(i + 1, j + 1);
    }
  }

  lemma OwnSuffix(body: seq<Page>, own: seq<Page>, action: string)
    requires forall p :: p in body ==> p.control != Some(action)
    requires forall p :: p in own ==> p.control == Some(action)
    ensures OwnPages(body + own, action) == own
  {
    var tagged := (p: Page) => p.control == Some(action);
    FilterConcat(body, own, tagged);
    FilterNone(body, tagged);
    FilterAll(own, tagged);
    assert [] + own == own;
  }

  lemma ControlsBack(doc: Doc, action: string, layers: seq<Layer>, controls: seq<string>, lib: Library)
    requires Valid(doc) && |layers| == |doc.pages| && NoControl(doc)
    ensures OwnPages(Watermarked(doc, action, layers, controls).pages, action) == ControlPages(action, controls)
    ensures ControlTexts(lib, ControlPages(action, controls)) == Issued(lib, action, layers, controls).controlPages
  {
    var w := MarkUpTo(doc, action, layers, |layers|);
    forall j | 0 <= j < |w.pages| ensures w.pages[j].control == None {
      MarkClosed(doc, action, layers, |layers|, j);
    }
    OwnSuffix(w.pages, ControlPages(action, controls), action);
  }
}
