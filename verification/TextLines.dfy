/** Python's line and substring handling, as the watermark record relies on it: splitlines,
    split on a separator, strip, and the one-line cleaner of backend/app/core/text.py. */
module TextLines {
  import opened Prelude

  /** The characters at which str.splitlines breaks. */
  predicate IsBreak(c: char) {
    c in {'\n', '\r', '\U{0B}', '\U{0C}', '\U{1C}', '\U{1D}', '\U{1E}', '\U{85}', '\U{2028}', '\U{2029}'}
  }

  /** str.isspace: what split() and strip() treat as blank. */
  predicate IsSpace(c: char) {
    || '\U{09}' <= c <= '\U{0D}' || '\U{1C}' <= c <= '\U{20}' || c == '\U{85}' || c == '\U{A0}' || c == '\U{1680}'
    || '\U{2000}' <= c <= '\U{200A}' || c == '\U{2028}' || c == '\U{2029}' || c == '\U{202F}' || c == '\U{205F}' || c == '\U{3000}'
  }

  predicate IsControl(c: char) { c <= '\U{1F}' || '\U{7F}' <= c <= '\U{9F}' }

  /** Categories Cc, Cf, Zl and Zp; which characters are Cf is left to the Unicode tables. */
  predicate Blanked(c: char, isFormat: char -> bool) {
    IsControl(c) || c == '\U{2028}' || c == '\U{2029}' || isFormat(c)
  }

  ghost predicate OneLine(s: string) { forall i :: 0 <= i < |s| ==> !IsBreak(s[i]) }

  // ---------------------------------------------------------------- cleaning

  /** split() without arguments: the maximal runs of non-blank characters. */
  function Words(s: string, word: string): (ws: seq<string>)
    decreases |s|
  {
    if s == [] then (if word == [] then [] else [word])
    else if IsSpace(s[0]) then (if word == [] then Words(s[1..], []) else [word] + Words(s[1..], []))
    else Words(s[1..], word + [s[0]])
  }

  function Spaced(ws: seq<string>): string {
    if ws == [] then "" else if |ws| == 1 then ws[0] else ws[0] + " " + Spaced(ws[1..])
  }

  function Blank(s: string, isFormat: char -> bool): (r: string)
    ensures |r| == |s|
  {
    seq(|s|, i requires 0 <= i < |s| => if Blanked(s[i], isFormat) then ' ' else s[i])
  }

  function Take<T>(s: seq<T>, n: nat): seq<T> { if n <= |s| then s[..n] else s }

  /** One printable line of at most limit characters. */
  function CleanLine(s: string, limit: nat, isFormat: char -> bool): string {
    Take(Spaced(Words(Blank(s, isFormat), [])), limit)
  }

  ghost predicate Printable(w: string, isFormat: char -> bool) {
    forall i :: 0 <= i < |w| ==> !IsSpace(w[i]) && !Blanked(w[i], isFormat)
  }

  lemma {:induction false} WordsPrintable(s: string, word: string, isFormat: char -> bool)
    requires forall i :: 0 <= i < |s| ==> IsSpace(s[i]) || !Blanked(s[i], isFormat)
    requires Printable(word, isFormat)
    ensures forall w :: w in Words(s, word) ==> w != [] && Printable(w, isFormat)
    decreases |s|
  {
    if s != [] {
      if IsSpace(s[0]) {
        WordsPrintable(s[1..], [], isFormat);
      } else {
        WordsPrintable(s[1..], word + [s[0]], isFormat);
      }
    }
  }

  /** Printable characters with single spaces between them, none in front. */
  ghost predicate SingleSpaced(s: string, isFormat: char -> bool) {
    && (forall i :: 0 <= i < |s| ==> s[i] == ' ' || (!IsSpace(s[i]) && !Blanked(s[i], isFormat)))
    && (s != [] ==> s[0] != ' ')
    && (forall i :: 0 < i < |s| && s[i] == ' ' ==> s[i - 1] != ' ')
  }

  lemma {:induction false} SpacedSingle(ws: seq<string>, isFormat: char -> bool)
    requires forall w :: w in ws ==> w != [] && Printable(w, isFormat)
    ensures SingleSpaced(Spaced(ws), isFormat)
    ensures ws != [] ==> Spaced(ws) != []
  {
    if |ws| > 1 {
      var rest := Spaced(ws[1..]);
      assert forall w :: w in ws[1..] ==> w in ws;
      SpacedSingle(ws[1..], isFormat);
      assert ws[0] in ws;
      var s := ws[0] + " " + rest;
      forall i | 0 < i < |s| && s[i] == ' ' ensures s[i - 1] != ' ' {
        if i > |ws[0]| {
          assert s[i] == rest[i - |ws[0]| - 1];
        }
      }
    } else if |ws| == 1 {
      assert ws[0] in ws;
    }
  }

  /** A cleaned value is one line: it holds no break of any kind, no blanked character, and only
      single plain spaces, whatever was put in. */
  lemma CleanLineIsOneLine(s: string, limit: nat, isFormat: char -> bool)
    ensures SingleSpaced(CleanLine(s, limit, isFormat), isFormat)
    ensures OneLine(CleanLine(s, limit, isFormat))
    ensures |CleanLine(s, limit, isFormat)| <= limit
  {
    WordsPrintable(Blank(s, isFormat), [], isFormat);
    SpacedSingle(Words(Blank(s, isFormat), []), isFormat);
    assert forall c :: IsBreak(c) ==> IsControl(c) || c == '\U{2028}' || c == '\U{2029}';
  }

  lemma {:induction false} OneWord(s: string, word: string)
    requires word + s != "" && forall i :: 0 <= i < |s| ==> !IsSpace(s[i])
    ensures Words(s, word) == [word + s]
    decreases |s|
  {
    if s != [] {
      OneWord(s[1..], word + [s[0]]);
      assert word + [s[0]] + s[1..] == word + s;
    } else {
      assert word + s == word;
    }
  }

  /** A printable word is printed as it is. */
  lemma CleanWord(w: string, limit: nat, isFormat: char -> bool)
    requires w != "" && |w| <= limit && Printable(w, isFormat)
    ensures CleanLine(w, limit, isFormat) == w
  {
    assert Blank(w, isFormat) == w;
    OneWord(w, []);
    assert [] + w == w;
  }

  lemma {:induction false} WordsSplit(a: string, c: char, b: string, word: string)
    requires IsSpace(c)
    ensures Words(a + [c] + b, word) == Words(a, word) + Words(b, [])
    decreases |a|
  {
    var s := a + [c] + b;
    if a == [] {
      assert s[1..] == b;
    } else {
      assert s[0] == a[0] && s[1..] == a[1..] + [c] + b;
      WordsSplit(a[1..], c, b, if IsSpace(a[0]) then [] else word + [a[0]]);
    }
  }

  lemma {:induction false} SpacedBoth(ws: seq<string>, vs: seq<string>)
    requires ws != [] && vs != []
    ensures Spaced(ws + vs) == Spaced(ws) + " " + Spaced(vs)
  {
    if |ws| == 1 {
      assert (ws + vs)[1..] == vs;
    } else {
      SpacedBoth(ws[1..], vs);
      assert (ws + vs)[1..] == ws[1..] + vs;
      assert ws[0] + " " + (Spaced(ws[1..]) + " " + Spaced(vs)) == (ws[0] + " " + Spaced(ws[1..])) + " " + Spaced(vs);
    }
  }

  lemma {:induction false} SpacedShort(s: string, word: string)
    ensures |Spaced(Words(s, word))| <= |s| + |word|
    decreases |s|
  {
    if s != [] {
      if IsSpace(s[0]) {
        SpacedShort(s[1..], []);
        var rest := Words(s[1..], []);
        assert ([word] + rest)[1..] == rest;
      } else {
        SpacedShort(s[1..], word + [s[0]]);
      }
    }
  }

  lemma {:induction false} WordsSolid(s: string, word: string)
    ensures forall w :: w in Words(s, word) ==> w != []
    decreases |s|
  {
    if s != [] {
      WordsSolid(s[1..], if IsSpace(s[0]) then [] else word + [s[0]]);
    }
  }

  lemma SpacedEmpty(s: string)
    ensures Spaced(Words(s, [])) == "" <==> Words(s, []) == []
  {
    WordsSolid(s, []);
    var ws := Words(s, []);
    if ws != [] {
      assert ws[0] in ws;
    }
  }

  /** Cleaning at any blank, of whatever kind: both sides are cleaned for themselves, and one space is put
      between them where both have something left. With CleanWord, nothing else about it is open. */
  lemma CleanAtBlank(a: string, c: char, b: string, limit: nat, isFormat: char -> bool)
    requires (IsSpace(c) || Blanked(c, isFormat)) && limit > |a| + |b|
    ensures var l, r := CleanLine(a, limit, isFormat), CleanLine(b, limit, isFormat);
      CleanLine(a + [c] + b, limit, isFormat) == if l == "" then r else if r == "" then l else l + " " + r
  {
    var d := if Blanked(c, isFormat) then ' ' else c;
    var x, y := Blank(a, isFormat), Blank(b, isFormat);
    assert Blank(a + [c] + b, isFormat) == x + [d] + y;
    WordsSplit(x, d, y, []);
    SpacedShort(x, []);
    SpacedShort(y, []);
    SpacedShort(x + [d] + y, []);
    SpacedEmpty(x);
    SpacedEmpty(y);
    if Words(x, []) == [] {
      assert Words(x, []) + Words(y, []) == Words(y, []);
    } else if Words(y, []) == [] {
      assert Words(x, []) + Words(y, []) == Words(x, []);
    } else {
      SpacedBoth(Words(x, []), Words(y, []));
    }
  }

  /** A shorter limit cuts the end off, nothing else. */
  lemma CleanCut(s: string, limit: nat, more: nat, isFormat: char -> bool)
    requires limit <= more
    ensures CleanLine(s, limit, isFormat) <= CleanLine(s, more, isFormat)
    ensures |CleanLine(s, limit, isFormat)| < limit ==> CleanLine(s, limit, isFormat) == CleanLine(s, more, isFormat)
    ensures CleanLine("", limit, isFormat) == ""
  {
  }

  // ---------------------------------------------------------------- strip

  function StripLeft(s: string): string { if s != [] && IsSpace(s[0]) then StripLeft(s[1..]) else s }

  function StripRight(s: string): string {
    if s != [] && IsSpace(s[|s| - 1]) then StripRight(s[..|s| - 1]) else s
  }

  function Strip(s: string): string { StripRight(StripLeft(s)) }

  lemma StripTrimmed(s: string)
    requires s != [] ==> !IsSpace(s[0]) && !IsSpace(s[|s| - 1])
    ensures Strip(s) == s
  {
  }

  ghost predicate AllSpace(s: string) { forall i :: 0 <= i < |s| ==> IsSpace(s[i]) }

  lemma {:induction false} StripLeftOf(l: string, s: string)
    requires AllSpace(l) && (s != [] ==> !IsSpace(s[0]))
    ensures StripLeft(l + s) == s
  {
    if l != [] {
      assert (l + s)[1..] == l[1..] + s;
      StripLeftOf(l[1..], s);
    } else {
      assert l + s == s;
    }
  }

  lemma {:induction false} StripRightOf(s: string, r: string)
    requires AllSpace(r) && (s != [] ==> !IsSpace(s[|s| - 1]))
    ensures StripRight(s + r) == s
  {
    if r != [] {
      assert (s + r)[..|s + r| - 1] == s + r[..|r| - 1];
      StripRightOf(s, r[..|r| - 1]);
    } else {
      assert s + r == s;
    }
  }

  /** Whatever is between spaces, and neither starts nor ends with one, is what is left. */
  lemma StripExact(l: string, s: string, r: string)
    requires AllSpace(l) && AllSpace(r) && (s != [] ==> !IsSpace(s[0]) && !IsSpace(s[|s| - 1]))
    ensures Strip(l + s + r) == s
  {
    if s == [] {
      assert l + s + r == (l + r) + s;
      StripLeftOf(l + r, s);
    } else {
      assert l + s + r == l + (s + r);
      StripLeftOf(l, s + r);
      StripRightOf(s, r);
    }
  }

  // ---------------------------------------------------------------- lines

  function FirstBreak(s: string): (i: nat)
    ensures i <= |s|
    ensures forall k :: 0 <= k < i ==> !IsBreak(s[k])
    ensures i < |s| ==> IsBreak(s[i])
  {
    if s == [] || IsBreak(s[0]) then 0 else
    var r := FirstBreak(s[1..]);
    assert forall k :: 1 <= k < r + 1 ==> s[k] == s[1..][k - 1];
    r + 1
  }

  /** str.splitlines: "\r\n" is one break, and a final break adds no empty line. */
  function SplitLines(s: string): seq<string>
    decreases |s|
  {
    if s == [] then [] else
    var i := FirstBreak(s);
    if i == |s| then [s] else
    var next := if s[i] == '\r' && i + 1 < |s| && s[i + 1] == '\n' then i + 2 else i + 1;
    [s[..i]] + SplitLines(s[next..])
  }

  function Join(lines: seq<string>): string {
    if lines == [] then "" else if |lines| == 1 then lines[0] else lines[0] + "\n" + Join(lines[1..])
  }

  lemma FirstBreakIs(s: string, i: nat)
    requires i < |s| && IsBreak(s[i]) && forall k :: 0 <= k < i ==> !IsBreak(s[k])
    ensures FirstBreak(s) == i
  {
    if FirstBreak(s) < i {
      assert false;
    } else if i < FirstBreak(s) {
      assert false;
    }
  }

  /** One line break of any kind; "\r\n" counts as one. */
  ghost predicate Breaks(br: string, rest: string) {
    br == "\r\n" || (|br| == 1 && IsBreak(br[0]) && (br[0] == '\r' && rest != "" ==> rest[0] != '\n'))
  }

  /** Splitting takes one line after the other, at breaks of any kind. */
  lemma SplitAtBreak(line: string, br: string, rest: string)
    requires OneLine(line) && Breaks(br, rest)
    ensures SplitLines(line + br + rest) == [line] + SplitLines(rest)
  {
    var s := line + br + rest;
    assert s[|line|] == br[0];
    FirstBreakIs(s, |line|);
    assert s[..|line|] == line && s[|line| + |br|..] == rest;
    if br != "\r\n" && |line| + 1 < |s| {
      assert s[|line| + 1] == rest[0];
    }
  }

  lemma SplitFirstLine(line: string, rest: string)
    requires OneLine(line)
    ensures SplitLines(line + "\n" + rest) == [line] + SplitLines(rest)
  {
    SplitAtBreak(line, "\n", rest);
  }

  lemma JoinStep(lines: seq<string>, rest: string)
    requires |lines| > 1
    ensures Join(lines) + "\n" + rest == lines[0] + "\n" + (Join(lines[1..]) + "\n" + rest)
  {
    var l, j := lines[0], Join(lines[1..]);
    assert (l + "\n" + j) + "\n" + rest == l + "\n" + (j + "\n" + rest);
  }

  /** Joined lines split into the same lines again, whatever follows the next break. */
  lemma {:induction false} SplitJoined(lines: seq<string>, rest: string)
    requires lines != [] && forall l :: l in lines ==> OneLine(l)
    ensures SplitLines(Join(lines) + "\n" + rest) == lines + SplitLines(rest)
  {
    var line := lines[0];
    assert line in lines;
    if |lines| == 1 {
      SplitFirstLine(line, rest);
      assert lines == [line];
    } else {
      var more := lines[1..];
      JoinStep(lines, rest);
      SplitFirstLine(line, Join(more) + "\n" + rest);
      SplitJoined(more, rest);
      Assoc(line, more, SplitLines(rest));
      assert [line] + more == lines;
    }
  }

  lemma SplitLast(line: string)
    requires line != "" && OneLine(line)
    ensures SplitLines(line) == [line]
  {
    assert FirstBreak(line) == |line|;
  }

  lemma SplitOneMore(line: string, more: seq<string>)
    requires more != [] && OneLine(line) && SplitLines(Join(more)) == more
    ensures SplitLines(Join([line] + more)) == [line] + more
  {
    assert ([line] + more)[1..] == more;
    SplitFirstLine(line, Join(more));
  }

  lemma {:induction false} SplitJoinedAll(lines: seq<string>)
    requires lines != [] && lines[|lines| - 1] != "" && forall l :: l in lines ==> OneLine(l)
    ensures SplitLines(Join(lines)) == lines
  {
    var line, more := lines[0], lines[1..];
    assert line in lines && lines == [line] + more;
    if more == [] {
      SplitLast(line);
    } else {
      SplitJoinedAll(more);
      SplitOneMore(line, more);
    }
  }

  lemma JoinBlank(lines: seq<string>)
    requires lines != []
    ensures Join([""] + lines) == "\n" + Join(lines)
  {
    assert ([""] + lines)[1..] == lines;
    assert "" + "\n" + Join(lines) == "\n" + Join(lines);
  }

  /** A block that starts on its own line, followed by more lines or by nothing. */
  lemma SplitBlock(lines: seq<string>, rest: string)
    requires lines != [] && forall l :: l in lines ==> OneLine(l)
    ensures SplitLines("\n" + Join(lines) + ("\n" + rest)) == [""] + lines + SplitLines(rest)
  {
    JoinBlank(lines);
    SplitJoined([""] + lines, rest);
    assert "\n" + Join(lines) + ("\n" + rest) == "\n" + Join(lines) + "\n" + rest;
  }

  lemma SplitBlockEnd(lines: seq<string>)
    requires lines != [] && lines[|lines| - 1] != "" && forall l :: l in lines ==> OneLine(l)
    ensures SplitLines("\n" + Join(lines)) == [""] + lines
  {
    JoinBlank(lines);
    SplitJoinedAll([""] + lines);
  }

  // ---------------------------------------------------------------- substrings

  predicate Occurs(text: string, pat: string, p: int) {
    0 <= p && p + |pat| <= |text| && forall k :: 0 <= k < |pat| ==> text[p + k] == pat[k]
  }

  ghost predicate Contains(text: string, pat: string) { exists p :: Occurs(text, pat, p) }

  lemma OccursShift(a: string, b: string, pat: string, p: int)
    requires p >= 0
    ensures Occurs(a + b, pat, |a| + p) <==> Occurs(b, pat, p)
  {
    if p + |pat| <= |b| {
      assert forall i :: 0 <= i < |b| ==> (a + b)[|a| + i] == b[i];
    }
  }

  lemma OccursPrefix(a: string, b: string, pat: string, p: int)
    requires 0 <= p && p + |pat| <= |a|
    ensures Occurs(a + b, pat, p) <==> Occurs(a, pat, p)
  {
    assert forall i :: 0 <= i < |a| ==> (a + b)[i] == a[i];
  }

  function IndexFrom(text: string, pat: string, from: nat): (r: Option<nat>)
    ensures r.Some? ==> Occurs(text, pat, r.value) && forall p :: from <= p < r.value ==> !Occurs(text, pat, p)
    ensures r.None? ==> forall p :: from <= p ==> !Occurs(text, pat, p)
    decreases |text| - from
  {
    if from + |pat| > |text| then None
    else if Occurs(text, pat, from) then Some(from)
    else if from == |text| then None
    else IndexFrom(text, pat, from + 1)
  }

  /** text.find(pat) */
  function IndexOf(text: string, pat: string): (r: Option<nat>)
    ensures r.Some? ==> Occurs(text, pat, r.value) && forall p :: 0 <= p < r.value ==> !Occurs(text, pat, p)
    ensures r.None? ==> forall p :: !Occurs(text, pat, p)
  {
    IndexFrom(text, pat, 0)
  }

  lemma IndexOfIs(text: string, pat: string, i: nat)
    requires Occurs(text, pat, i) && forall p :: 0 <= p < i ==> !Occurs(text, pat, p)
    ensures IndexOf(text, pat) == Some(i)
  {
  }

  /** text.split(pat) */
  function SplitOn(text: string, pat: string): (pieces: seq<string>)
    requires pat != []
    ensures pieces != []
    decreases |text|
  {
    match IndexOf(text, pat)
    case None => [text]
    case Some(i) => [text[..i]] + SplitOn(text[i + |pat|..], pat)
  }

  lemma NoMatchBefore(a: string, b: string, pat: string, i: nat)
    requires forall p :: 0 <= p < |a| ==> !Occurs(a + b, pat, p)
    requires forall p :: 0 <= p < i ==> !Occurs(b, pat, p)
    ensures forall p :: 0 <= p < |a| + i ==> !Occurs(a + b, pat, p)
  {
    forall p | 0 <= p < |a| + i ensures !Occurs(a + b, pat, p) {
      if p >= |a| {
        OccursShift(a, b, pat, p - |a|);
      }
    }
  }

  lemma SplitNone(text: string, pat: string)
    requires pat != [] && IndexOf(text, pat) == None
    ensures SplitOn(text, pat) == [text]
  {
  }

  lemma IndexNone(text: string, pat: string)
    requires forall p :: 0 <= p <= |text| ==> !Occurs(text, pat, p)
    ensures IndexOf(text, pat) == None
  {
  }

  lemma CutAfter(a: string, b: string, i: nat, n: nat)
    requires i + n <= |b|
    ensures (a + b)[..|a| + i] == a + b[..i] && (a + b)[|a| + i + n..] == b[i + n..]
  {
  }

  lemma PlainBefore(a: string, b: string, pat: string, i: nat)
    requires pat != [] && forall p :: 0 <= p < |a| ==> !Occurs(a + b, pat, p)
    requires IndexOf(b, pat) == Some(i)
    ensures SplitOn(a + b, pat) == [a + b[..i]] + SplitOn(b[i + |pat|..], pat)
  {
    NoMatchBefore(a, b, pat, i);
    OccursShift(a, b, pat, i);
    IndexOfIs(a + b, pat, |a| + i);
    SplitSome(a + b, pat, |a| + i);
    CutAfter(a, b, i, |pat|);
  }

  lemma PlainAlone(a: string, b: string, pat: string)
    requires pat != [] && forall p :: 0 <= p < |a| ==> !Occurs(a + b, pat, p)
    requires IndexOf(b, pat) == None
    ensures SplitOn(a + b, pat) == [a + b]
  {
    NoMatchBefore(a, b, pat, |b| + 1);
    IndexNone(a + b, pat);
    SplitNone(a + b, pat);
  }

  lemma OntoFirst(a: string, pieces: seq<string>, first: string, rest: seq<string>)
    requires pieces == [first] + rest
    ensures [a + pieces[0]] + pieces[1..] == [a + first] + rest
  {
  }

  /** Text in which no match starts goes in front of the first piece. */
  lemma SplitAfterPlain(a: string, b: string, pat: string)
    requires pat != [] && forall p :: 0 <= p < |a| ==> !Occurs(a + b, pat, p)
    ensures SplitOn(a + b, pat) == [a + SplitOn(b, pat)[0]] + SplitOn(b, pat)[1..]
  {
    match IndexOf(b, pat) {
      case None =>
        PlainAlone(a, b, pat);
        SplitNone(b, pat);
        OntoFirst(a, SplitOn(b, pat), b, []);
      case Some(i) =>
        PlainBefore(a, b, pat, i);
        SplitSome(b, pat, i);
        OntoFirst(a, SplitOn(b, pat), b[..i], SplitOn(b[i + |pat|..], pat));
    }
  }

  lemma NoStraddle(a: string, b: string, pat: string, p: nat)
    requires pat != [] && forall d :: 0 < d < |pat| ==> pat[d] != pat[0]
    requires p < |a|
    ensures Occurs(a + pat + b, pat, p) <==> Occurs(a, pat, p)
  {
    var t := a + pat + b;
    if p + |pat| <= |a| {
      OccursPrefix(a, pat + b, pat, p);
      assert a + (pat + b) == t;
    } else {
      assert t[p + (|a| - p)] == pat[0] != pat[|a| - p];
    }
  }

  /** Splitting a text whose first match, if any, lies at i or is the given one after a. */
  lemma FirstMatch(a: string, b: string, pat: string)
    requires pat != [] && forall d :: 0 < d < |pat| ==> pat[d] != pat[0]
    ensures IndexOf(a + pat + b, pat) == if IndexOf(a, pat).Some? then IndexOf(a, pat) else Some(|a|)
  {
    var t := a + pat + b;
    assert Occurs(pat, pat, 0);
    OccursPrefix(pat, b, pat, 0);
    OccursShift(a, pat + b, pat, 0);
    assert a + (pat + b) == t;
    forall p | 0 <= p < |a| ensures Occurs(t, pat, p) <==> Occurs(a, pat, p) {
      NoStraddle(a, b, pat, p);
    }
    IndexOfIs(t, pat, if IndexOf(a, pat).Some? then IndexOf(a, pat).value else |a|);
  }

  /** A pattern whose first character never reappears in it cannot overlap itself, so splitting
      around one occurrence is splitting both sides. */
  lemma {:induction false} SplitAround(a: string, b: string, pat: string)
    requires pat != [] && forall d :: 0 < d < |pat| ==> pat[d] != pat[0]
    ensures SplitOn(a + pat + b, pat) == SplitOn(a, pat) + SplitOn(b, pat)
    decreases |a|
  {
    var t := a + pat + b;
    FirstMatch(a, b, pat);
    if IndexOf(a, pat) == None {
      assert t[..|a|] == a && t[|a| + |pat|..] == b;
      SplitSome(t, pat, |a|);
    } else {
      var i := IndexOf(a, pat).value;
      var rest := a[i + |pat|..];
      CutAround(a, b, pat, i);
      SplitSome(t, pat, i);
      SplitSome(a, pat, i);
      SplitAround(rest, b, pat);
      Assoc(a[..i], SplitOn(rest, pat), SplitOn(b, pat));
    }
  }

  lemma SplitSome(text: string, pat: string, i: nat)
    requires pat != [] && IndexOf(text, pat) == Some(i)
    ensures SplitOn(text, pat) == [text[..i]] + SplitOn(text[i + |pat|..], pat)
  {
  }

  lemma Assoc(x: string, ys: seq<string>, zs: seq<string>)
    ensures [x] + (ys + zs) == [x] + ys + zs
  {
  }

  lemma CutAround(a: string, b: string, pat: string, i: nat)
    requires i + |pat| <= |a|
    ensures (a + pat + b)[..i] == a[..i]
    ensures (a + pat + b)[i + |pat|..] == a[i + |pat|..] + pat + b
  {
  }

  /** A one-line pattern occurs in joined lines only inside one of them. */
  lemma {:induction false} OccursInLine(lines: seq<string>, pat: string, p: int)
    requires pat != [] && OneLine(pat)
    requires Occurs(Join(lines), pat, p)
    ensures exists l :: l in lines && Contains(l, pat)
  {
    if |lines| <= 1 {
      if |lines| == 1 {
        assert lines[0] in lines;
      }
    } else {
      var first, rest := lines[0], Join(lines[1..]);
      assert Join(lines) == first + "\n" + rest == (first + "\n") + rest;
      if p + |pat| <= |first| {
        OccursPrefix(first, "\n" + rest, pat, p);
        assert first + ("\n" + rest) == Join(lines);
        assert Occurs(first, pat, p) && first in lines;
      } else if p > |first| {
        OccursShift(first + "\n", rest, pat, p - |first| - 1);
        OccursInLine(lines[1..], pat, p - |first| - 1);
      } else {
        BreakInside(Join(lines), pat, p, |first|);
      }
    }
  }

  lemma BreakInside(t: string, pat: string, p: int, i: int)
    requires 0 <= p <= i < |t| && i < p + |pat| && t[i] == '\n'
    requires OneLine(pat)
    ensures !Occurs(t, pat, p)
  {
    assert t[p + (i - p)] == '\n' != pat[i - p];
  }
}
