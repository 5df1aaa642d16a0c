/** The invisible copy mark of an image: a row of faintly darkened blocks along the bottom of
    the footer band (backend/app/services/hidden_mark.py). A 64-bit mark is coded as an 8-bit
    sync word, the eight mark bytes and their XOR checksum, one bit a block. */
module PixelMark {
  import opened Prelude

  const SYNC: seq<bool> := [true, false, true, true, false, false, true, true]
  const BITS: nat := 80
  const DELTA: nat := 7
  const STRIP_H: nat := 6

  datatype Pixel = Pixel(r: nat, g: nat, b: nat, a: nat)

  /** A raster is a sequence of columns: px[x][y]. */
  type Raster<T> = seq<seq<T>>

  predicate Rectangular<T>(px: Raster<T>, h: nat) {
    forall x :: 0 <= x < |px| ==> |px[x]| == h
  }

  // ---------------------------------------------------------------- the code word

  function Checksum(raw: seq<bv8>): bv8 {
    if raw == [] then 0 else Checksum(raw[..|raw| - 1]) ^ raw[|raw| - 1]
  }

  /** The bits of a byte, the highest first. */
  function Place(i: nat): bv8
    requires i < 8
  {
    match i
    case 0 => 0x80 case 1 => 0x40 case 2 => 0x20 case 3 => 0x10
    case 4 => 0x08 case 5 => 0x04 case 6 => 0x02 case _ => 0x01
  }

  function ByteBits(b: bv8): (bits: seq<bool>)
    ensures |bits| == 8
  {
    seq(8, i requires 0 <= i < 8 => b & Place(i) != 0)
  }

  function BitsOf(raw: seq<bv8>): (bits: seq<bool>)
    ensures |bits| == 8 * |raw|
  {
    if raw == [] then [] else BitsOf(raw[..|raw| - 1]) + ByteBits(raw[|raw| - 1])
  }

  /** sync word, mark, checksum */
  function PayloadBits(mark: seq<bv8>): (bits: seq<bool>)
    ensures |bits| == 8 + 8 * (|mark| + 1)
    ensures bits[..8] == SYNC
  {
    SYNC + BitsOf(mark + [Checksum(mark)])
  }

  function Bit(b: bool, place: bv8): bv8 { if b then place else 0 }

  function ByteOf(bits: seq<bool>): bv8
    requires |bits| == 8
  {
    Bit(bits[0], 0x80) | Bit(bits[1], 0x40) | Bit(bits[2], 0x20) | Bit(bits[3], 0x10) |
    Bit(bits[4], 0x08) | Bit(bits[5], 0x04) | Bit(bits[6], 0x02) | Bit(bits[7], 0x01)
  }

  function BytesOf(bits: seq<bool>): (raw: seq<bv8>)
    ensures 8 * |raw| <= |bits| < 8 * |raw| + 8
  {
    if |bits| < 8 then [] else BytesOf(bits[..|bits| - 8]) + [ByteOf(bits[|bits| - 8..])]
  }

  lemma ByteRoundTrip(b: bv8)
    ensures ByteOf(ByteBits(b)) == b
  {
    var bits := ByteBits(b);
    assert Bit(bits[0], 0x80) == b & 0x80;
    assert Bit(bits[1], 0x40) == b & 0x40;
    assert Bit(bits[2], 0x20) == b & 0x20;
    assert Bit(bits[3], 0x10) == b & 0x10;
    assert Bit(bits[4], 0x08) == b & 0x08;
    assert Bit(bits[5], 0x04) == b & 0x04;
    assert Bit(bits[6], 0x02) == b & 0x02;
    assert Bit(bits[7], 0x01) == b & 0x01;
  }

  lemma PlacesApart(a: bv8, b: bv8, c: bv8, d: bv8, e: bv8, f: bv8, g: bv8, h: bv8)
    requires a & 0x7f == 0 && b & 0xbf == 0 && c & 0xdf == 0 && d & 0xef == 0
    requires e & 0xf7 == 0 && f & 0xfb == 0 && g & 0xfd == 0 && h & 0xfe == 0
    ensures var all := a | b | c | d | e | f | g | h;
            && all & 0x80 == a && all & 0x40 == b && all & 0x20 == c && all & 0x10 == d
            && all & 0x08 == e && all & 0x04 == f && all & 0x02 == g && all & 0x01 == h
  {
  }

  lemma PlacesOf(bits: seq<bool>)
    requires |bits| == 8
    ensures var b := ByteOf(bits);
            && b & 0x80 == Bit(bits[0], 0x80) && b & 0x40 == Bit(bits[1], 0x40)
            && b & 0x20 == Bit(bits[2], 0x20) && b & 0x10 == Bit(bits[3], 0x10)
            && b & 0x08 == Bit(bits[4], 0x08) && b & 0x04 == Bit(bits[5], 0x04)
            && b & 0x02 == Bit(bits[6], 0x02) && b & 0x01 == Bit(bits[7], 0x01)
  {
    PlacesApart(Bit(bits[0], 0x80), Bit(bits[1], 0x40), Bit(bits[2], 0x20), Bit(bits[3], 0x10),
                Bit(bits[4], 0x08), Bit(bits[5], 0x04), Bit(bits[6], 0x02), Bit(bits[7], 0x01));
  }

  lemma BitsRoundTrip(bits: seq<bool>)
    requires |bits| == 8
    ensures ByteBits(ByteOf(bits)) == bits
  {
    PlacesOf(bits);
  }

  lemma BitsAppend(raw: seq<bv8>, b: bv8)
    ensures BitsOf(raw + [b]) == BitsOf(raw) + ByteBits(b)
  {
    assert (raw + [b])[..|raw|] == raw;
  }

  lemma BytesAppend(bits: seq<bool>, more: seq<bool>)
    requires |more| == 8
    ensures BytesOf(bits + more) == BytesOf(bits) + [ByteOf(more)]
  {
    assert (bits + more)[..|bits|] == bits && (bits + more)[|bits|..] == more;
  }

  lemma ReadByte(bits: seq<bool>, b: bv8)
    ensures BytesOf(bits + ByteBits(b)) == BytesOf(bits) + [b]
  {
    ByteRoundTrip(b);
    BytesAppend(bits, ByteBits(b));
  }

  lemma ReadNext(raw: seq<bv8>, b: bv8)
    requires BytesOf(BitsOf(raw)) == raw
    ensures BytesOf(BitsOf(raw + [b])) == raw + [b]
  {
    BitsAppend(raw, b);
    ReadByte(BitsOf(raw), b);
  }

  lemma {:induction false} BytesRoundTrip(raw: seq<bv8>)
    ensures BytesOf(BitsOf(raw)) == raw
  {
    if raw != [] {
      var init, last := raw[..|raw| - 1], raw[|raw| - 1];
      assert raw == init + [last];
      BytesRoundTrip(init);
      ReadNext(init, last);
    }
  }

  lemma CodedAgain(bits: seq<bool>, more: seq<bool>)
    requires |bits| % 8 == 0 && |more| == 8
    requires BitsOf(BytesOf(bits)) == bits
    ensures BitsOf(BytesOf(bits + more)) == bits + more
  {
    BitsRoundTrip(more);
    BytesAppend(bits, more);
    BitsAppend(BytesOf(bits), ByteOf(more));
  }

  lemma {:induction false} AllBitsRoundTrip(bits: seq<bool>)
    requires |bits| % 8 == 0
    ensures BitsOf(BytesOf(bits)) == bits
  {
    if bits != [] {
      AllBitsRoundTrip(bits[..|bits| - 8]);
      CodedAgain(bits[..|bits| - 8], bits[|bits| - 8..]);
      assert bits[..|bits| - 8] + bits[|bits| - 8..] == bits;
    }
  }

  // ---------------------------------------------------------------- decoding

  /** Sync word, then nine bytes of which the last must be the XOR of the others. */
  function DecodeBits(bits: seq<bool>): Option<seq<bv8>>
    requires |bits| == BITS
  {
    if bits[..8] != SYNC then None else
    var raw := BytesOf(bits[8..]);
    if Checksum(raw[..8]) == raw[8] then Some(raw[..8]) else None
  }

  lemma DecodeInvertsPayload(mark: seq<bv8>)
    requires |mark| == 8
    ensures DecodeBits(PayloadBits(mark)) == Some(mark)
  {
    var raw := mark + [Checksum(mark)];
    assert PayloadBits(mark)[8..] == BitsOf(raw);
    BytesRoundTrip(raw);
    assert raw[..8] == mark;
  }

  /** Whatever is decoded, the whole code word of that mark was read. */
  lemma DecodeSound(bits: seq<bool>)
    requires |bits| == BITS
    requires DecodeBits(bits).Some?
    ensures |DecodeBits(bits).value| == 8
    ensures bits == PayloadBits(DecodeBits(bits).value)
  {
    var raw := BytesOf(bits[8..]);
    AllBitsRoundTrip(bits[8..]);
    assert raw == raw[..8] + [Checksum(raw[..8])];
    assert bits == SYNC + bits[8..];
  }

  function SetCount(raw: seq<bv8>, i: nat): nat
    requires i < 8
  {
    if raw == [] then 0 else SetCount(raw[..|raw| - 1], i) + if raw[|raw| - 1] & Place(i) != 0 then 1 else 0
  }

  /** A bit of the checksum is set exactly if it is set in an odd number of the bytes. */
  lemma {:induction false} ChecksumParity(raw: seq<bv8>, i: nat)
    requires i < 8
    ensures Checksum(raw) & Place(i) != 0 <==> SetCount(raw, i) % 2 == 1
  {
    if raw != [] {
      ChecksumParity(raw[..|raw| - 1], i);
      XorBit(Checksum(raw[..|raw| - 1]), raw[|raw| - 1], i);
    }
  }

  lemma XorBit(a: bv8, b: bv8, i: nat)
    requires i < 8
    ensures (a ^ b) & Place(i) != 0 <==> ((a & Place(i) != 0) != (b & Place(i) != 0))
  {
  }

  lemma {:induction false} ChecksumUpdate(raw: seq<bv8>, k: nat, b: bv8)
    requires k < |raw|
    ensures Checksum(raw[k := b]) == Checksum(raw) ^ raw[k] ^ b
  {
    var n := |raw| - 1;
    if k == n {
      assert raw[k := b][..n] == raw[..n];
      XorCancel(Checksum(raw[..n]), raw[n], b);
    } else {
      assert raw[k := b][..n] == raw[..n][k := b];
      ChecksumUpdate(raw[..n], k, b);
      XorSwap(Checksum(raw[..n]), raw[k], b, raw[n]);
    }
  }

  lemma XorCancel(c: bv8, x: bv8, b: bv8)
    ensures c ^ b == c ^ x ^ x ^ b
  {
  }

  lemma XorSwap(c: bv8, x: bv8, b: bv8, y: bv8)
    ensures c ^ x ^ b ^ y == c ^ y ^ x ^ b
  {
  }

  lemma XorChanges(c: bv8, x: bv8, b: bv8)
    requires x != b
    ensures c ^ x ^ b != c
  {
  }

  /** Replacing any one of the nine coded bytes of a code word makes it undecodable. */
  lemma OneByteChangeRejected(mark: seq<bv8>, k: nat, b: bv8)
    requires |mark| == 8 && k < 9
    requires (mark + [Checksum(mark)])[k] != b
    ensures DecodeBits(SYNC + BitsOf((mark + [Checksum(mark)])[k := b])) == None
  {
    var raw := (mark + [Checksum(mark)])[k := b];
    var bits := SYNC + BitsOf(raw);
    assert bits[8..] == BitsOf(raw);
    BytesRoundTrip(raw);
    if k < 8 {
      assert raw[..8] == mark[k := b];
      ChecksumUpdate(mark, k, b);
      XorChanges(Checksum(mark), mark[k], b);
    } else {
      assert raw[..8] == mark;
    }
  }

  // ---------------------------------------------------------------- from block means to bits

  function MaxOf(m: seq<real>): (hi: real)
    requires m != []
    ensures hi in m && forall i :: 0 <= i < |m| ==> m[i] <= hi
  {
    if |m| == 1 then m[0] else
    var rest := MaxOf(m[1..]);
    assert forall i :: 1 <= i < |m| ==> m[i] == m[1..][i - 1];
    if m[0] >= rest then m[0] else rest
  }

  function MinOf(m: seq<real>): (lo: real)
    requires m != []
    ensures lo in m && forall i :: 0 <= i < |m| ==> lo <= m[i]
  {
    if |m| == 1 then m[0] else
    var rest := MinOf(m[1..]);
    assert forall i :: 1 <= i < |m| ==> m[i] == m[1..][i - 1];
    if m[0] <= rest then m[0] else rest
  }

  function Thresholded(means: seq<real>): (bits: seq<bool>)
    requires means != []
    ensures |bits| == |means|
  {
    var mid := (MaxOf(means) + MinOf(means)) / 2.0;
    seq(|means|, i requires 0 <= i < |means| => means[i] < mid)
  }

  function Classify(means: seq<real>): Option<seq<bv8>>
    requires |means| == BITS
  {
    if MaxOf(means) - MinOf(means) < DELTA as real / 2.0 then None else DecodeBits(Thresholded(means))
  }

  /** What is read of any 80 means: this mark exactly if they span at least 7/2 and those below the middle
      between the highest and the lowest are those of its 1-bits. */
  lemma ClassifyExact(means: seq<real>, mark: seq<bv8>, hi: real, lo: real)
    requires |means| == BITS && |mark| == 8
    requires hi in means && lo in means && forall i :: 0 <= i < BITS ==> lo <= means[i] <= hi
    ensures Classify(means) == Some(mark) <==>
      hi - lo >= 3.5 && forall i :: 0 <= i < BITS ==> (PayloadBits(mark)[i] <==> means[i] < (hi + lo) / 2.0)
  {
    assert MaxOf(means) == hi && MinOf(means) == lo;
    var bits := Thresholded(means);
    if Classify(means) == Some(mark) {
      DecodeSound(bits);
    } else if hi - lo >= 3.5 && forall i :: 0 <= i < BITS ==> (PayloadBits(mark)[i] <==> means[i] < (hi + lo) / 2.0) {
      assert bits == PayloadBits(mark);
      DecodeInvertsPayload(mark);
    }
  }

  /** The mean a block has before any disturbance: 7 lower where the bit is set. */
  function CleanMean(level: real, bit: bool): real { if bit then level - DELTA as real else level }

  ghost predicate Near(means: seq<real>, level: real, bits: seq<bool>, noise: real)
    requires |means| == |bits|
  {
    forall i :: 0 <= i < |means| ==>
      CleanMean(level, bits[i]) - noise < means[i] < CleanMean(level, bits[i]) + noise
  }

  /** The noise bound: every block mean may move by anything less than a quarter of the drop. */
  lemma NoiseTolerated(means: seq<real>, level: real, mark: seq<bv8>)
    requires |means| == BITS && |mark| == 8
    requires Near(means, level, PayloadBits(mark), 7.0 / 4.0)
    ensures Classify(means) == Some(mark)
  {
    var bits := PayloadBits(mark);
    assert bits[0] == SYNC[0] && bits[1] == SYNC[1];
    var hi, lo := MaxOf(means), MinOf(means);
    var ih :| 0 <= ih < |means| && means[ih] == hi;
    var il :| 0 <= il < |means| && means[il] == lo;
    assert means[0] < level - 7.0 + 7.0 / 4.0 && means[1] > level - 7.0 / 4.0;
    assert !bits[ih] && bits[il];
    var mid := (hi + lo) / 2.0;
    assert level - 21.0 / 4.0 < mid < level - 7.0 / 4.0;
    assert Thresholded(means) == bits;
    DecodeInvertsPayload(mark);
  }

  /** ... and an unmarked strip under the same noise is never mistaken for a marked one. */
  lemma UnmarkedNotRead(means: seq<real>, level: real)
    requires |means| == BITS
    requires Near(means, level, seq(BITS, i => false), 7.0 / 4.0)
    ensures Classify(means) == None
  {
    var hi, lo := MaxOf(means), MinOf(means);
    var ih :| 0 <= ih < |means| && means[ih] == hi;
    var il :| 0 <= il < |means| && means[il] == lo;
    assert CleanMean(level, seq(BITS, i => false)[ih]) == level;
    assert CleanMean(level, seq(BITS, i => false)[il]) == level;
  }

  /** The bound is sharp: at a disturbance of exactly 7/4 some reading goes wrong. */
  function WorstMeans(level: real, bits: seq<bool>): (means: seq<real>)
    requires |bits| == BITS
    ensures |means| == BITS
  {
    seq(BITS, i requires 0 <= i < BITS =>
      if i == 0 then level - 7.0 + 7.0 / 4.0 else CleanMean(level, bits[i]) - 7.0 / 4.0)
  }

  lemma NoiseBoundSharp(level: real, mark: seq<bv8>)
    requires |mark| == 8
    ensures var means := WorstMeans(level, PayloadBits(mark));
            && (forall i :: 0 <= i < BITS ==>
                 CleanMean(level, PayloadBits(mark)[i]) - 7.0 / 4.0 <= means[i] <= CleanMean(level, PayloadBits(mark)[i]) + 7.0 / 4.0)
            && Classify(means) == None
  {
    var bits := PayloadBits(mark);
    assert bits[0] == SYNC[0] && bits[1] == SYNC[1] && bits[2] == SYNC[2];
    var means := WorstMeans(level, bits);
    var hi, lo := MaxOf(means), MinOf(means);
    assert means[1] == level - 7.0 / 4.0 && means[2] == level - 7.0 - 7.0 / 4.0;
    assert hi == level - 7.0 / 4.0 && lo == level - 35.0 / 4.0;
    assert means[0] == (hi + lo) / 2.0;
    assert !Thresholded(means)[0];
    assert Thresholded(means)[..8][0] == Thresholded(means)[0];
  }

  // ---------------------------------------------------------------- pixels

  function BlockWidth(w: nat): int { if w < 16 then -1 else (w - 16) / BITS }

  /** Marks need a band of at least 176 pixels. */
  lemma WideEnough(w: nat)
    ensures BlockWidth(w) >= 2 <==> w >= 176
    ensures BlockWidth(w) >= 2 ==> 8 + BITS * BlockWidth(w) <= w
  {
  }

  function Darker(c: nat): nat { if c < DELTA then 0 else c - DELTA }

  function Darken(p: Pixel): Pixel { Pixel(Darker(p.r), Darker(p.g), Darker(p.b), p.a) }

  /** Luma as the imaging library computes it, in 16-bit fixed point with rounding. */
  function Luma(p: Pixel): nat { (p.r * 19595 + p.g * 38470 + p.b * 7471 + 32768) / 65536 }

  /** The three weights add up to exactly one, so darkening drops the luma by exactly 7. */
  lemma DarkenDropsLuma(p: Pixel)
    requires p.r >= DELTA && p.g >= DELTA && p.b >= DELTA
    ensures Luma(p) >= DELTA && Luma(Darken(p)) == Luma(p) - DELTA
  {
    var n := p.r * 19595 + p.g * 38470 + p.b * 7471 + 32768;
    assert (p.r - 7) * 19595 + (p.g - 7) * 38470 + (p.b - 7) * 7471 + 32768 == n - 7 * 65536;
  }

  predicate InBlock(bw: nat, i: nat, x: int) { 8 + i * bw <= x < 8 + (i + 1) * bw }

  ghost predicate InDarkBlock(bw: nat, bits: seq<bool>, x: int) {
    exists i :: 0 <= i < |bits| && bits[i] && InBlock(bw, i, x)
  }

  lemma BlocksDisjoint(bw: nat, i: nat, j: nat, x: int)
    requires InBlock(bw, i, x) && InBlock(bw, j, x)
    ensures i == j
  {
    MulMonotone(i + 1, j, bw);
    MulMonotone(j + 1, i, bw);
  }

  lemma MulMonotone(a: nat, b: nat, c: nat)
    ensures a <= b ==> a * c <= b * c
  {
    if a <= b {
      assert b * c == a * c + (b - a) * c;
    }
  }

  predicate InStrip(h: nat, y: int) { h - STRIP_H - 1 <= y < h - 1 }

  /** What drawing leaves at (x, y). */
  ghost function DrawnPixel(w: nat, h: nat, mark: Option<seq<bv8>>, x: int, y: int, p: Pixel): Pixel {
    if mark.Some? && BlockWidth(w) >= 2 && InStrip(h, y) && InDarkBlock(BlockWidth(w), PayloadBits(mark.value), x)
    then Darken(p) else p
  }

  /** The picture a mark leaves, column by column: the column at distance d from the left margin of 8 pixels is
      darkened, in the six rows above the last, exactly if bit d / width of the code word is set; each channel
      then loses 7, or what it has. */
  lemma DrawnExact(w: nat, h: nat, mark: seq<bv8>, x: int, y: int, p: Pixel)
    requires |mark| == 8
    ensures var q := DrawnPixel(w, h, Some(mark), x, y, p); var bw := (w - 16) / 80;
      if w >= 176 && h - 7 <= y < h - 1 && 8 <= x < 8 + 80 * bw && PayloadBits(mark)[(x - 8) / bw]
      then q.a == p.a && Loses(p.r, q.r) && Loses(p.g, q.g) && Loses(p.b, q.b)
      else q == p
  {
    WideEnough(w);
    if w >= 176 {
      ColumnBlock((w - 16) / 80, PayloadBits(mark), x);
    }
  }

  predicate Loses(before: nat, after: nat) { after == if before < 7 then 0 else before - 7 }

  lemma ColumnBlock(bw: nat, bits: seq<bool>, x: int)
    requires bw > 0
    ensures InDarkBlock(bw, bits, x) <==> 8 <= x < 8 + |bits| * bw && bits[(x - 8) / bw]
  {
    if i :| 0 <= i < |bits| && bits[i] && InBlock(bw, i, x) {
      BlockOfColumn(bw, i, |bits|, x);
    }
    if 8 <= x < 8 + |bits| * bw && bits[(x - 8) / bw] {
      InOwnBlock(bw, x);
      assert InBlock(bw, (x - 8) / bw, x);
    }
  }

  lemma InOwnBlock(bw: nat, x: int)
    requires bw > 0 && x >= 8
    ensures InBlock(bw, (x - 8) / bw, x)
  {
    var i := (x - 8) / bw;
    assert (i + 1) * bw == i * bw + bw;
  }

  lemma BlockOfColumn(bw: nat, i: nat, n: nat, x: int)
    requires bw > 0 && i < n && InBlock(bw, i, x)
    ensures 8 <= x < 8 + n * bw && (x - 8) / bw == i
  {
    MulMonotone(i + 1, n, bw);
    InOwnBlock(bw, x);
    BlocksDisjoint(bw, i, (x - 8) / bw, x);
  }

  method Payload(mark: seq<bv8>) returns (bits: seq<bool>)
    ensures bits == PayloadBits(mark)
  {
    var check: bv8 := 0;
    for k := 0 to |mark|
      invariant check == Checksum(mark[..k])
    {
      assert mark[..k + 1][..k] == mark[..k];
      check := check ^ mark[k];
    }
    assert mark[..|mark|] == mark;
    var raw := mark + [check];
    bits := [];
    for k := 0 to |raw|
      invariant bits == BitsOf(raw[..k])
    {
      assert raw[..k + 1][..k] == raw[..k];
      bits := bits + ByteBits(raw[k]);
    }
    assert raw[..|raw|] == raw;
    bits := SYNC + bits;
  }

  /** Darken one block, in place. The footer band is never lower than 99 pixels
      (backend/app/services/watermark.py:401), so the strip lies inside it. */
  method DarkenBlock(band: array2<Pixel>, x0: nat, x1: nat, y0: nat)
    requires x0 <= x1 <= band.Length0 && y0 + STRIP_H <= band.Length1
    modifies band
    ensures forall x, y :: 0 <= x < band.Length0 && 0 <= y < band.Length1 ==>
      band[x, y] == if x0 <= x < x1 && y0 <= y < y0 + STRIP_H then Darken(old(band[x, y])) else old(band[x, y])
  {
    for i := x0 to x1
      invariant forall x, y :: 0 <= x < band.Length0 && 0 <= y < band.Length1 ==>
        band[x, y] == if x0 <= x < i && y0 <= y < y0 + STRIP_H then Darken(old(band[x, y])) else old(band[x, y])
    {
      for j := y0 to y0 + STRIP_H
        invariant forall x, y :: 0 <= x < band.Length0 && 0 <= y < band.Length1 ==>
          band[x, y] == if (x0 <= x < i && y0 <= y < y0 + STRIP_H) || (x == i && y0 <= y < j)
                        then Darken(old(band[x, y])) else old(band[x, y])
      {
        band[i, j] := Darken(band[i, j]);
      }
    }
  }

  method DrawBandMark(band: array2<Pixel>, mark: Option<seq<bv8>>)
    requires band.Length1 > STRIP_H
    requires mark.Some? ==> |mark.value| == 8
    modifies band
    ensures forall x, y :: 0 <= x < band.Length0 && 0 <= y < band.Length1 ==>
      band[x, y] == DrawnPixel(band.Length0, band.Length1, mark, x, y, old(band[x, y]))
  {
    if mark == None {
      return;
    }
    var bw := BlockWidth(band.Length0);
    if bw < 2 {
      return;
    }
    WideEnough(band.Length0);
    var y0 := band.Length1 - STRIP_H - 1;
    var bits := Payload(mark.value);
    for i := 0 to BITS
      invariant forall x, y :: 0 <= x < band.Length0 && 0 <= y < band.Length1 ==>
        band[x, y] == if InStrip(band.Length1, y) && InDarkBlock(bw, bits[..i], x) then Darken(old(band[x, y])) else old(band[x, y])
    {
      ghost var before := seq(band.Length0, x requires 0 <= x < band.Length0 reads band =>
        seq(band.Length1, y requires 0 <= y < band.Length1 reads band => band[x, y]));
      if bits[i] {
        BlockFits(bw, i, band.Length0);
        DarkenBlock(band, 8 + i * bw, 8 + (i + 1) * bw, y0);
      }
      forall x: int, y: int | 0 <= x < band.Length0 && 0 <= y < band.Length1
        ensures band[x, y] == if InStrip(band.Length1, y) && InDarkBlock(bw, bits[..i + 1], x) then Darken(old(band[x, y])) else old(band[x, y])
      {
        DarkBlockStep(bw, bits, i, x);
        assert before[x][y] == if InStrip(band.Length1, y) && InDarkBlock(bw, bits[..i], x) then Darken(old(band[x, y])) else old(band[x, y]);
      }
    }
    assert bits[..BITS] == bits;
  }

  lemma BlockFits(bw: nat, i: nat, w: nat)
    requires i < BITS && 8 + BITS * bw <= w
    ensures 8 + i * bw <= 8 + (i + 1) * bw <= w
  {
    assert (i + 1) * bw <= BITS * bw;
  }

  lemma DarkBlockStep(bw: nat, bits: seq<bool>, i: nat, x: int)
    requires i < |bits|
    ensures InDarkBlock(bw, bits[..i + 1], x) <==> InDarkBlock(bw, bits[..i], x) || (bits[i] && InBlock(bw, i, x))
    ensures InDarkBlock(bw, bits[..i], x) ==> !InBlock(bw, i, x)
  {
    if InDarkBlock(bw, bits[..i], x) {
      var j :| 0 <= j < i && bits[..i][j] && InBlock(bw, j, x);
      assert bits[..i + 1][j];
      if InBlock(bw, i, x) {
        BlocksDisjoint(bw, i, j, x);
      }
    }
    if bits[i] && InBlock(bw, i, x) {
      assert bits[..i + 1][i];
    }
    if InDarkBlock(bw, bits[..i + 1], x) {
      var j :| 0 <= j < i + 1 && bits[..i + 1][j] && InBlock(bw, j, x);
      if j < i {
        assert bits[..i][j];
      }
    }
  }

  // ---------------------------------------------------------------- reading

  function Sum(vals: seq<int>): int { if vals == [] then 0 else Sum(vals[..|vals| - 1]) + vals[|vals| - 1] }

  lemma {:induction false} SumConstant(vals: seq<int>, c: int)
    requires forall k :: 0 <= k < |vals| ==> vals[k] == c
    ensures Sum(vals) == c * |vals|
  {
    if vals != [] {
      SumConstant(vals[..|vals| - 1], c);
    }
  }

  /** The inner pixels of columns x0..x1, rows y0..y1, column by column. */
  function Samples(img: Raster<int>, h: nat, x0: nat, x1: nat, y0: nat, y1: nat): (vals: seq<int>)
    requires Rectangular(img, h) && x0 <= x1 <= |img| && y0 <= y1 <= h
    ensures |vals| == (x1 - x0) * (y1 - y0)
    ensures forall v :: v in vals ==> exists x, y :: x0 <= x < x1 && y0 <= y < y1 && v == img[x][y]
    decreases x1
  {
    if x0 == x1 then [] else
    assert (x1 - x0) * (y1 - y0) == (x1 - 1 - x0) * (y1 - y0) + (y1 - y0);
    Samples(img, h, x0, x1 - 1, y0, y1) + img[x1 - 1][y0..y1]
  }

  /** Blocks wider than 3 pixels are read without their outer columns. */
  function Margin(bw: nat): nat { if bw > 3 then 1 else 0 }

  function BlockMean(img: Raster<int>, h: nat, bw: nat, i: nat): real
    requires Rectangular(img, h) && h >= STRIP_H + 2 && bw >= 2
    requires i < BITS && 8 + BITS * bw <= |img|
  {
    BlockFits(bw, i, |img|);
    assert (i + 1) * bw == i * bw + bw;
    var vals := Samples(img, h, 8 + i * bw + Margin(bw), 8 + (i + 1) * bw - Margin(bw), h - STRIP_H, h - 2);
    assert |vals| > 0 by { assert (bw - 2 * Margin(bw)) * 4 > 0; }
    Sum(vals) as real / |vals| as real
  }

  lemma UniformBlockMean(img: Raster<int>, h: nat, bw: nat, i: nat, c: int)
    requires Rectangular(img, h) && h >= STRIP_H + 2 && bw >= 2
    requires i < BITS && 8 + BITS * bw <= |img|
    requires forall x, y :: 0 <= x < |img| && InBlock(bw, i, x) && h - STRIP_H <= y < h - 2 ==> img[x][y] == c
    ensures BlockMean(img, h, bw, i) == c as real
  {
    BlockFits(bw, i, |img|);
    assert (i + 1) * bw == i * bw + bw;
    var vals := Samples(img, h, 8 + i * bw + Margin(bw), 8 + (i + 1) * bw - Margin(bw), h - STRIP_H, h - 2);
    forall k | 0 <= k < |vals| ensures vals[k] == c {
      assert vals[k] in vals;
    }
    SumConstant(vals, c);
    assert |vals| > 0 by { assert (bw - 2 * Margin(bw)) * 4 > 0; }
    MeanOfConstant(c, |vals|);
  }

  lemma MeanOfConstant(c: int, n: nat)
    requires n > 0
    ensures (c * n) as real / n as real == c as real
  {
    assert (c * n) as real == c as real * n as real;
  }

  /** The sum over rows y0 .. y1 of one column, and over columns x0 .. x1 of those. */
  function ColumnTotal(column: seq<int>, y0: nat, y1: nat): int
    requires y0 <= y1 <= |column|
  {
    if y0 == y1 then 0 else ColumnTotal(column, y0, y1 - 1) + column[y1 - 1]
  }

  function AreaTotal(img: Raster<int>, h: nat, x0: nat, x1: nat, y0: nat, y1: nat): int
    requires Rectangular(img, h) && x0 <= x1 <= |img| && y0 <= y1 <= h
  {
    if x0 == x1 then 0 else AreaTotal(img, h, x0, x1 - 1, y0, y1) + ColumnTotal(img[x1 - 1], y0, y1)
  }

  lemma {:induction false} SumConcat(a: seq<int>, b: seq<int>)
    ensures Sum(a + b) == Sum(a) + Sum(b)
  {
    if b == [] {
      assert a + b == a;
    } else {
      assert (a + b)[..|a + b| - 1] == a + b[..|b| - 1];
      SumConcat(a, b[..|b| - 1]);
    }
  }

  lemma {:induction false} ColumnSum(column: seq<int>, y0: nat, y1: nat)
    requires y0 <= y1 <= |column|
    ensures Sum(column[y0..y1]) == ColumnTotal(column, y0, y1)
  {
    if y0 < y1 {
      ColumnSum(column, y0, y1 - 1);
      assert column[y0..y1][..y1 - y0 - 1] == column[y0..y1 - 1];
    }
  }

  lemma {:induction false} SamplesSum(img: Raster<int>, h: nat, x0: nat, x1: nat, y0: nat, y1: nat)
    requires Rectangular(img, h) && x0 <= x1 <= |img| && y0 <= y1 <= h
    ensures Sum(Samples(img, h, x0, x1, y0, y1)) == AreaTotal(img, h, x0, x1, y0, y1)
    decreases x1
  {
    if x0 < x1 {
      SamplesSum(img, h, x0, x1 - 1, y0, y1);
      ColumnSum(img[x1 - 1], y0, y1);
      SumConcat(Samples(img, h, x0, x1 - 1, y0, y1), img[x1 - 1][y0..y1]);
    }
  }

  /** What the reader takes of a block: the average, to the last pixel, of its four middle rows, without
      the outer columns when the block is wider than 3 pixels. */
  lemma BlockMeanExact(img: Raster<int>, h: nat, bw: nat, i: nat)
    requires Rectangular(img, h) && h >= 8 && bw >= 2
    requires i < BITS && 8 + BITS * bw <= |img|
    ensures var m := if bw > 3 then 1 else 0; var x0, x1 := 8 + i * bw + m, 8 + i * bw + bw - m;
      && 0 <= x0 < x1 <= |img|
      && BlockMean(img, h, bw, i) * ((x1 - x0) * 4) as real == AreaTotal(img, h, x0, x1, h - 6, h - 2) as real
  {
    BlockFits(bw, i, |img|);
    assert (i + 1) * bw == i * bw + bw;
    var m := Margin(bw);
    var x0, x1 := 8 + i * bw + m, 8 + (i + 1) * bw - m;
    SamplesSum(img, h, x0, x1, h - 6, h - 2);
    var vals := Samples(img, h, x0, x1, h - 6, h - 2);
    DividedBack(Sum(vals), |vals|);
  }

  lemma DividedBack(sum: int, n: nat)
    requires n > 0
    ensures sum as real / n as real * n as real == sum as real
  {
  }

  function Means(img: Raster<int>, h: nat): (means: seq<real>)
    requires Rectangular(img, h) && h >= STRIP_H + 2 && |img| >= 176
    ensures |means| == BITS
  {
    WideEnough(|img|);
    seq(BITS, i requires 0 <= i < BITS => BlockMean(img, h, BlockWidth(|img|), i))
  }

  function ReadMark(img: Raster<int>, h: nat): Option<seq<bv8>>
    requires Rectangular(img, h)
  {
    if BlockWidth(|img|) < 2 || h < STRIP_H + 2 then None else
    WideEnough(|img|);
    Classify(Means(img, h))
  }

  method ReadMeans(img: Raster<int>, h: nat) returns (means: seq<real>)
    requires Rectangular(img, h) && h >= STRIP_H + 2 && |img| >= 176
    ensures means == Means(img, h)
  {
    WideEnough(|img|);
    var bw := BlockWidth(|img|);
    means := [];
    for i := 0 to BITS
      invariant |means| == i && forall k :: 0 <= k < i ==> means[k] == Means(img, h)[k]
    {
      means := means + [BlockMean(img, h, bw, i)];
    }
  }

  method CheckBits(bits: seq<bool>) returns (mark: Option<seq<bv8>>)
    requires |bits| == BITS
    ensures mark == DecodeBits(bits)
  {
    if bits[..8] != SYNC {
      return None;
    }
    var raw := BytesOf(bits[8..]);
    var check: bv8 := 0;
    for k := 0 to 8
      invariant check == Checksum(raw[..k])
    {
      assert raw[..k + 1][..k] == raw[..k];
      check := check ^ raw[k];
    }
    return if check == raw[8] then Some(raw[..8]) else None;
  }

  method ReadBandMark(img: Raster<int>, h: nat) returns (mark: Option<seq<bv8>>)
    requires Rectangular(img, h)
    ensures mark == ReadMark(img, h)
  {
    var bw := BlockWidth(|img|);
    if bw < 2 || h < STRIP_H + 2 {
      return None;
    }
    WideEnough(|img|);
    var means := ReadMeans(img, h);
    var hi, lo := MaxOf(means), MinOf(means);
    if hi - lo < DELTA as real / 2.0 {
      return None;
    }
    mark := CheckBits(Thresholded(means));
  }

  // ---------------------------------------------------------------- the whole journey

  /** img is the luma of an issued image whose last rows are the drawn band: in the strip of
      marked blocks every pixel had the one colour c before drawing. */
  ghost predicate Issued(img: Raster<int>, h: nat, c: Pixel, mark: Option<seq<bv8>>)
    requires Rectangular(img, h)
  {
    forall x, y :: 0 <= x < |img| && 0 <= y < h && InStrip(h, y) ==>
      img[x][y] == Luma(DrawnPixel(|img|, h, mark, x, y, c))
  }

  /** The band is pasted under an image of any height: its rows keep their distance to the last
      row, which is what the reader counts from. */
  lemma PastedBandIsIssued(img: Raster<int>, h: nat, band: Raster<Pixel>, bandH: nat, c: Pixel, mark: Option<seq<bv8>>)
    requires Rectangular(img, h) && Rectangular(band, bandH) && |band| == |img|
    requires STRIP_H < bandH <= h
    requires forall x, y :: 0 <= x < |band| && 0 <= y < bandH && InStrip(bandH, y) ==>
      band[x][y] == DrawnPixel(|band|, bandH, mark, x, y, c)
    requires forall x, y :: 0 <= x < |img| && h - bandH <= y < h ==> img[x][y] == Luma(band[x][y - (h - bandH)])
    ensures Issued(img, h, c, mark)
  {
    forall x, y | 0 <= x < |img| && 0 <= y < h && InStrip(h, y)
      ensures img[x][y] == Luma(DrawnPixel(|img|, h, mark, x, y, c))
    {
      assert InStrip(bandH, y - (h - bandH));
    }
  }

  lemma IssuedMeans(img: Raster<int>, h: nat, c: Pixel, mark: seq<bv8>, i: nat)
    requires Rectangular(img, h) && h >= STRIP_H + 2 && |img| >= 176 && |mark| == 8 && i < BITS
    requires c.r >= DELTA && c.g >= DELTA && c.b >= DELTA
    requires Issued(img, h, c, Some(mark))
    ensures Means(img, h)[i] == CleanMean(Luma(c) as real, PayloadBits(mark)[i])
  {
    WideEnough(|img|);
    var bw, bits := BlockWidth(|img|), PayloadBits(mark);
    DarkenDropsLuma(c);
    var v := if bits[i] then Luma(c) - DELTA else Luma(c);
    forall x, y | 0 <= x < |img| && InBlock(bw, i, x) && h - STRIP_H <= y < h - 2 ensures img[x][y] == v {
      if InDarkBlock(bw, bits, x) {
        var j :| 0 <= j < |bits| && bits[j] && InBlock(bw, j, x);
        BlocksDisjoint(bw, i, j, x);
      }
      assert InStrip(h, y);
    }
    UniformBlockMean(img, h, bw, i, v);
  }

  ghost predicate Disturbed(seen: Raster<int>, issued: Raster<int>, h: nat)
    requires Rectangular(seen, h) && Rectangular(issued, h) && |seen| == |issued| >= 176 && h >= STRIP_H + 2
  {
    forall i :: 0 <= i < BITS ==> -7.0 / 4.0 < Means(seen, h)[i] - Means(issued, h)[i] < 7.0 / 4.0
  }

  /** Draw, issue, disturb every block mean by less than 7/4, read: the mark comes back. */
  lemma MarkSurvives(seen: Raster<int>, issued: Raster<int>, h: nat, c: Pixel, mark: seq<bv8>)
    requires |seen| == |issued| >= 176 && h >= STRIP_H + 2 && |mark| == 8
    requires Rectangular(seen, h) && Rectangular(issued, h)
    requires c.r >= DELTA && c.g >= DELTA && c.b >= DELTA
    requires Issued(issued, h, c, Some(mark)) && Disturbed(seen, issued, h)
    ensures ReadMark(seen, h) == Some(mark)
  {
    WideEnough(|seen|);
    var means, bits := Means(seen, h), PayloadBits(mark);
    forall i | 0 <= i < BITS
      ensures CleanMean(Luma(c) as real, bits[i]) - 7.0 / 4.0 < means[i] < CleanMean(Luma(c) as real, bits[i]) + 7.0 / 4.0
    {
      IssuedMeans(issued, h, c, mark, i);
    }
    NoiseTolerated(means, Luma(c) as real, mark);
  }
}
