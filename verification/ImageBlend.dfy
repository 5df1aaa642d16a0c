/** The semi-transparent marking over an image and its removal
    (backend/app/services/watermark.py:378-391, backend/app/services/watermark_strip.py:417-422).
    Arithmetic is over the reals, as the double-precision formula intends; the marked value is
    any integer nearest to the exact blend. */
module ImageBlend {

  datatype Overlay = Overlay(r: nat, g: nat, b: nat, a: nat)
  datatype Rgb = Rgb(r: nat, g: nat, b: nat)

  predicate Channel(c: int) { 0 <= c <= 255 }

  predicate Close(x: int, o: int) { -1 <= x - o <= 1 && Channel(x) }

  predicate ValidRgb(p: Rgb) { Channel(p.r) && Channel(p.g) && Channel(p.b) }

  predicate ValidOverlay(o: Overlay) { Channel(o.r) && Channel(o.g) && Channel(o.b) && Channel(o.a) }

  function Alpha(a: nat): real { a as real / 255.0 }

  function Blend(original: nat, over: nat, a: nat): real {
    (1.0 - Alpha(a)) * original as real + Alpha(a) * over as real
  }

  /** m is an integer nearest to x. */
  predicate Nearest(m: int, x: real) { -0.5 <= m as real - x <= 0.5 }

  /** Round half to even, as numpy does. */
  function Round(x: real): int {
    var f := x.Floor;
    var d := x - f as real;
    if d < 0.5 then f else if d > 0.5 then f + 1 else if f % 2 == 0 then f else f + 1
  }

  function Clip(x: real, lo: real, hi: real): real { if x < lo then lo else if x > hi then hi else x }

  /** original = (marked - a*C) / (1 - a), the divisor kept away from zero, clipped and rounded. */
  function Unblend(marked: nat, over: nat, a: nat): int {
    var d := if 1.0 - Alpha(a) < 0.000001 then 0.000001 else 1.0 - Alpha(a);
    Round(Clip((marked as real - Alpha(a) * over as real) / d, 0.0, 255.0))
  }

  /** The nearest integer; between two, the even one. */
  ghost predicate Rounds(x: real, n: int) {
    var d := n as real - x;
    -0.5 < d < 0.5 || ((d == 0.5 || d == -0.5) && n % 2 == 0)
  }

  lemma RoundExact(x: real, n: int)
    ensures Round(x) == n <==> Rounds(x, n)
  {
    var f := x.Floor;
    assert f as real <= x < f as real + 1.0;
  }

  /** What any marked channel turns into, short of full cover: the solution of the blending equation,
      brought into range and rounded half to even. */
  lemma UnblendExact(marked: nat, over: nat, a: nat, n: int)
    requires a < 255
    ensures var x := (255 * marked - a * over) as real / (255 - a) as real;
      Unblend(marked, over, a) == n <==> Rounds(if x < 0.0 then 0.0 else if x > 255.0 then 255.0 else x, n)
  {
    var x := (255 * marked - a * over) as real / (255 - a) as real;
    SameQuotient(marked, over, a);
    RoundExact(Clip(x, 0.0, 255.0), n);
  }

  lemma SameQuotient(marked: nat, over: nat, a: nat)
    requires a < 255
    ensures 1.0 - Alpha(a) >= 0.000001
    ensures (marked as real - Alpha(a) * over as real) / (1.0 - Alpha(a)) == (255 * marked - a * over) as real / (255 - a) as real
  {
    var d, e := 1.0 - Alpha(a), (255 - a) as real;
    assert d * 255.0 == e;
    var u, v := marked as real - Alpha(a) * over as real, (255 * marked - a * over) as real;
    assert Alpha(a) * 255.0 == a as real;
    assert (Alpha(a) * over as real) * 255.0 == (Alpha(a) * 255.0) * over as real;
    assert u * 255.0 == v;
    assert u / d == (u * 255.0) / (d * 255.0);
  }

  lemma RoundNear(x: real, o: int, e: real)
    requires 0.0 <= e <= 1.5 && -e <= x - o as real <= e
    ensures -2 <= Round(x) - o <= 2
    ensures e < 1.5 ==> -1 <= Round(x) - o <= 1
  {
  }

  /** The error of the inverse is the rounding error of the blend, magnified by 1/(1-a). */
  lemma UnblendError(marked: nat, original: nat, over: nat, a: nat)
    requires a < 255
    ensures (marked as real - Alpha(a) * over as real) / (1.0 - Alpha(a)) - original as real
         == (marked as real - Blend(original, over, a)) / (1.0 - Alpha(a))
  {
    var k, o := 1.0 - Alpha(a), original as real;
    assert (k * o) / k == o;
  }

  lemma DivideBound(e: real, k: real, bound: real)
    requires k > 0.0 && bound >= 0.0 && -bound * k <= e <= bound * k
    ensures -bound <= e / k <= bound
  {
    var q := e / k;
    assert q * k == e;
  }

  /** Recovered before clipping and rounding. */
  function Exact(marked: nat, over: nat, a: nat): real
    requires a < 255
  {
    (marked as real - Alpha(a) * over as real) / (1.0 - Alpha(a))
  }

  lemma ExactNear(original: nat, over: nat, a: nat, marked: nat)
    requires a <= 170 && Nearest(marked, Blend(original, over, a))
    ensures -1.4827 <= Exact(marked, over, a) - original as real <= 1.4827
  {
    UnblendError(marked, original, over, a);
    var k, e := 1.0 - Alpha(a), marked as real - Blend(original, over, a);
    if a == 170 {
      ThirdsBlend(original, over, marked);
    }
    assert -1.4827 * k <= e <= 1.4827 * k;
    DivideBound(e, k, 1.4827);
  }

  lemma RoundedClose(x: real, original: nat)
    requires Channel(original) && -1.4827 <= x - original as real <= 1.4827
    ensures Close(Round(Clip(x, 0.0, 255.0)), original)
  {
    RoundNear(Clip(x, 0.0, 255.0), original, 1.4827);
  }

  /** Where nothing was drawn nothing is lost. */
  lemma UnblendClear(original: nat, over: nat, marked: nat)
    requires Channel(original) && Nearest(marked, Blend(original, over, 0))
    ensures Unblend(marked, over, 0) == original
  {
  }

  /** While the marking lets at least a third of the image through (alpha up to 170, the code
      uses 64), the recovered channel is within one step of the original. */
  lemma UnblendWithinOne(original: nat, over: nat, a: nat, marked: nat)
    requires Channel(original) && Channel(over) && a <= 170
    requires Nearest(marked, Blend(original, over, a))
    ensures Close(Unblend(marked, over, a), original)
    ensures a == 0 ==> Unblend(marked, over, a) == original
  {
    ExactNear(original, over, a, marked);
    RoundedClose(Exact(marked, over, a), original);
    if a == 0 {
      UnblendClear(original, over, marked);
    }
  }

  /** At alpha 170 the exact blend is a multiple of one third, so it is never half way. */
  lemma ThirdsBlend(original: nat, over: nat, marked: nat)
    requires Nearest(marked, Blend(original, over, 170))
    ensures -1.0 / 3.0 <= marked as real - Blend(original, over, 170) <= 1.0 / 3.0
  {
    var n := original + 2 * over;
    assert Blend(original, over, 170) * 3.0 == n as real;
    assert -1.5 <= (3 * marked - n) as real <= 1.5;
  }

  /** ... and 170 is the last such alpha: at 171 a channel can come back two steps away. */
  lemma UnblendOffByTwo()
    ensures Nearest(30, Blend(0, 44, 171)) && Unblend(30, 44, 171) == 2
  {
    assert Blend(0, 44, 171) == 29.5 + 0.5 / 85.0; // 57 * 44 / 85
    assert (30.0 - Alpha(171) * 44.0) / (1.0 - Alpha(171)) == 1.5;
  }

  // ---------------------------------------------------------------- whole images

  type Image<T> = seq<T>

  ghost predicate Marked(marked: Image<Rgb>, original: Image<Rgb>, layer: Image<Overlay>) {
    && |marked| == |original| == |layer|
    && forall i :: 0 <= i < |marked| ==>
      && Nearest(marked[i].r, Blend(original[i].r, layer[i].r, layer[i].a))
      && Nearest(marked[i].g, Blend(original[i].g, layer[i].g, layer[i].a))
      && Nearest(marked[i].b, Blend(original[i].b, layer[i].b, layer[i].a))
  }

  function StripOverlay(marked: Image<Rgb>, layer: Image<Overlay>): (clean: seq<(int, int, int)>)
    requires |marked| == |layer|
    ensures |clean| == |marked|
  {
    seq(|marked|, i requires 0 <= i < |marked| =>
      (Unblend(marked[i].r, layer[i].r, layer[i].a),
       Unblend(marked[i].g, layer[i].g, layer[i].a),
       Unblend(marked[i].b, layer[i].b, layer[i].a)))
  }

  /** Every pixel of a stripped image, of any size, is within one step a channel. */
  lemma StripWithinOne(marked: Image<Rgb>, original: Image<Rgb>, layer: Image<Overlay>)
    requires Marked(marked, original, layer)
    requires forall p :: p in original ==> ValidRgb(p)
    requires forall o :: o in layer ==> ValidOverlay(o) && o.a <= 170
    ensures forall i :: 0 <= i < |original| ==>
      var (r, g, b) := StripOverlay(marked, layer)[i];
      && Close(r, original[i].r) && Close(g, original[i].g) && Close(b, original[i].b)
      && (layer[i].a == 0 ==> (r, g, b) == (original[i].r, original[i].g, original[i].b))
  {
    forall i | 0 <= i < |original|
      ensures var (r, g, b) := StripOverlay(marked, layer)[i];
        && Close(r, original[i].r) && Close(g, original[i].g) && Close(b, original[i].b)
        && (layer[i].a == 0 ==> (r, g, b) == (original[i].r, original[i].g, original[i].b))
    {
      assert original[i] in original && layer[i] in layer;
      UnblendWithinOne(original[i].r, layer[i].r, layer[i].a, marked[i].r);
      UnblendWithinOne(original[i].g, layer[i].g, layer[i].a, marked[i].g);
      UnblendWithinOne(original[i].b, layer[i].b, layer[i].a, marked[i].b);
    }
  }
}
