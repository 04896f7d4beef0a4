/** Copying of float arrays (the `Copy` extension of the source). */
module ArrayUtils {

  /** A new array of the same length holding the same elements as `src`. */
  method Copy(src: array<real>) returns (target: array<real>)
    ensures fresh(target)
    ensures target.Length == src.Length && target[..] == src[..]
  {
    target := new real[src.Length];
    forall i | 0 <= i < src.Length {
      target[i] := src[i];
    }
  }
}

/**
  The preprocessing transforms of MobileSAM: the resize that brings the
  longest image side to the encoder's input size, and the matching scaling
  of prompt coordinates from original pixels into the resized image.
  Float arithmetic is modelled exactly, over integers and reals.
*/
module Transforms {
  import opened Sentis
  import ArrayUtils

  /** The input image size of the image encoder. */
  const IMG_SIZE: int := 1024

  /**
    What `GetPreprocessShape` returns, under the element names of its
    declared return type `(int width, int height)`. The tuple is built
    positionally as `(newH, newW)`, so the element named `width` holds the
    new HEIGHT and the one named `height` the new WIDTH; callers deconstruct
    it by position, which undoes the mix-up.
  */
  datatype PreprocessShape = PreprocessShape(width: int, height: int)

  /** The (height, width) pair a caller passes as the original image size. */
  datatype Size = Size(height: int, width: int)

  function Max(a: int, b: int): int
  {
    if a >= b then a else b
  }

  /**
    The floor of `a / d` for a non-negative `a`, by repeated subtraction
    (`QuotientBounds` states that it is the floor).
  */
  function Quotient(a: int, d: int): int
    requires a >= 0 && d > 0
    decreases a
  {
    if a < d then 0 else 1 + Quotient(a - d, d)
  }

  /** `Quotient(a, d)` is the unique non-negative `q` with `d * q <= a < d * q + d`. */
  lemma {:induction false} QuotientBounds(a: int, d: int)
    requires a >= 0 && d > 0
    ensures 0 <= Quotient(a, d)
    ensures d * Quotient(a, d) <= a < d * Quotient(a, d) + d
    decreases a
  {
    if a >= d {
      QuotientBounds(a - d, d);
      var q := Quotient(a - d, d);
      assert d * (q + 1) == d * q + d;
    }
  }

  /**
    One side after the resize: `(int)(side * scale + 0.5)` with
    `scale = longSideLength / longest`, written exactly in integers as the
    floor of `(2 * side * longSideLength + longest) / (2 * longest)`.
  */
  function ResizedSide(side: int, longest: int, longSideLength: int): int
    requires side >= 0 && longest > 0 && longSideLength >= 0
  {
    Quotient(2 * side * longSideLength + longest, 2 * longest)
  }

  /** The new (height, width) for an image whose longest side is resized to `longSideLength`. */
  function GetPreprocessShape(oldH: int, oldW: int, longSideLength: int): PreprocessShape
    requires oldH >= 0 && oldW >= 0 && Max(oldW, oldH) > 0 && longSideLength >= 0
  {
    var longest := Max(oldW, oldH);
    var newW := ResizedSide(oldW, longest, longSideLength);
    var newH := ResizedSide(oldH, longest, longSideLength);
    PreprocessShape(newH, newW)
  }

  /** An integer `q` with `d * q <= a < d * q + d` is the floor of the real quotient. */
  lemma FloorOfRealQuotient(a: int, d: int, q: int)
    requires d > 0 && d * q <= a < d * q + d
    ensures q as real <= a as real / d as real < q as real + 1.0
  {
    var r := a - d * q;
    var qr, rr, dr := q as real, r as real, d as real;
    assert a as real == qr * dr + rr;
    assert a as real / dr == qr + rr / dr;
    assert 0.0 <= rr / dr < 1.0;
  }

  /** `side * (L / longest) + 1/2` is the real quotient the integer formula divides. */
  lemma HalfUpQuotient(side: int, longest: int, longSideLength: int)
    requires longest > 0
    ensures side as real * (longSideLength as real / longest as real) + 0.5
         == (2 * side * longSideLength + longest) as real / (2 * longest) as real
  {
    var s, m, l := side as real, longest as real, longSideLength as real;
    assert (2 * side * longSideLength + longest) as real == 2.0 * s * l + m;
    assert (2 * longest) as real == 2.0 * m;
    assert m / (2.0 * m) == 0.5;
    assert (s * l) / m == s * (l / m);
    calc {
      (2.0 * s * l + m) / (2.0 * m);
      (2.0 * (s * l)) / (2.0 * m) + m / (2.0 * m);
      (s * l) / m + m / (2.0 * m);
    }
  }

  /** One resized side is the floor of `side * scale + 1/2`. */
  lemma ResizedSideRoundsHalfUp(side: int, longest: int, longSideLength: int)
    requires side >= 0 && longest > 0 && longSideLength >= 0
    ensures var x := side as real * (longSideLength as real / longest as real) + 0.5;
            ResizedSide(side, longest, longSideLength) as real <= x < ResizedSide(side, longest, longSideLength) as real + 1.0
  {
    var a, d := 2 * side * longSideLength + longest, 2 * longest;
    QuotientBounds(a, d);
    FloorOfRealQuotient(a, d, Quotient(a, d));
    HalfUpQuotient(side, longest, longSideLength);
  }

  /**
    Each side is rounded half-up: it is the floor of
    `oldSide * (longSideLength / max(oldW, oldH)) + 1/2`. The element named
    `width` carries the rounded HEIGHT and the one named `height` the
    rounded WIDTH.
  */
  lemma GetPreprocessShapeRoundsHalfUp(oldH: int, oldW: int, longSideLength: int)
    requires oldH >= 0 && oldW >= 0 && Max(oldW, oldH) > 0 && longSideLength >= 0
    ensures var r := GetPreprocessShape(oldH, oldW, longSideLength);
            var scale := longSideLength as real / Max(oldW, oldH) as real;
            && r.height as real <= oldW as real * scale + 0.5 < r.height as real + 1.0
            && r.width as real <= oldH as real * scale + 0.5 < r.width as real + 1.0
  {
    var m := Max(oldW, oldH);
    ResizedSideRoundsHalfUp(oldW, m, longSideLength);
    ResizedSideRoundsHalfUp(oldH, m, longSideLength);
  }

  lemma MulMonotone(d: int, x: int, y: int)
    requires d >= 0 && x <= y
    ensures d * x <= d * y
  {
  }

  /** A quotient `q` of `a` by `d` is at most `n` when `a < d * (n + 1)`. */
  lemma QuotientAtMost(a: int, d: int, q: int, n: int)
    requires d > 0 && d * q <= a && a < d * (n + 1)
    ensures q <= n
  {
    if q > n {
      MulMonotone(d, n + 1, q);
    }
  }

  /** A quotient `q` of `a` by `d` is at least `n` when `d * n <= a`. */
  lemma QuotientAtLeast(a: int, d: int, q: int, n: int)
    requires d > 0 && a < d * q + d && d * n <= a
    ensures n <= q
  {
    if q < n {
      MulMonotone(d, q + 1, n);
    }
  }

  /** The longest side resizes to exactly `longSideLength`, any shorter side to at most that. */
  lemma ResizedSideBounds(side: int, longest: int, longSideLength: int)
    requires 0 <= side <= longest && longest > 0 && longSideLength >= 0
    ensures 0 <= ResizedSide(side, longest, longSideLength) <= longSideLength
    ensures side == longest ==> ResizedSide(side, longest, longSideLength) == longSideLength
  {
    var d := 2 * longest;
    var a := 2 * side * longSideLength + longest;
    QuotientBounds(a, d);
    var q := Quotient(a, d);
    MulMonotone(2 * longSideLength, side, longest);
    assert 2 * side * longSideLength <= 2 * longest * longSideLength;
    assert d * (longSideLength + 1) == 2 * longest * longSideLength + 2 * longest;
    QuotientAtMost(a, d, q, longSideLength);
    if side == longest {
      assert d * longSideLength <= a;
      QuotientAtLeast(a, d, q, longSideLength);
    }
  }

  /**
    For any image with a non-zero side, the longer side becomes exactly
    `longSideLength` and the shorter one lies between 0 and it; a square
    image becomes `longSideLength` on both sides.
  */
  lemma LongestSideBecomesLongSideLength(oldH: int, oldW: int, longSideLength: int)
    requires oldH >= 0 && oldW >= 0 && Max(oldW, oldH) > 0 && longSideLength >= 0
    ensures var r := GetPreprocessShape(oldH, oldW, longSideLength);
            var newH, newW := r.width, r.height;
            && Max(newH, newW) == longSideLength
            && 0 <= newH <= longSideLength && 0 <= newW <= longSideLength
            && (oldW >= oldH ==> newW == longSideLength)
            && (oldH >= oldW ==> newH == longSideLength)
            && (oldH == oldW ==> newH == newW == longSideLength)
  {
    var m := Max(oldW, oldH);
    ResizedSideBounds(oldW, m, longSideLength);
    ResizedSideBounds(oldH, m, longSideLength);
  }

  /**
    The dimensions `ApplyImage` hands to `SetDimensions`: the resized width
    first, then the resized height. The longer of the two is `IMG_SIZE`.
  */
  function ApplyImageDimensions(image: Texture): (d: Texture)
    requires image.width >= 0 && image.height >= 0 && Max(image.width, image.height) > 0
    ensures Max(d.width, d.height) == IMG_SIZE
    ensures d.width == ResizedSide(image.width, Max(image.width, image.height), IMG_SIZE)
    ensures d.height == ResizedSide(image.height, Max(image.width, image.height), IMG_SIZE)
  {
    LongestSideBecomesLongSideLength(image.height, image.width, IMG_SIZE);
    var PreprocessShape(newH, newW) := GetPreprocessShape(image.height, image.width, IMG_SIZE);
    Texture(newW, newH)
  }

  /** The resized width of an image of size `origSize` (the second element, by position). */
  function NewWidth(origSize: Size): int
    requires origSize.height > 0 && origSize.width > 0
  {
    GetPreprocessShape(origSize.height, origSize.width, IMG_SIZE).height
  }

  /** The resized height of an image of size `origSize` (the first element, by position). */
  function NewHeight(origSize: Size): int
    requires origSize.height > 0 && origSize.width > 0
  {
    GetPreprocessShape(origSize.height, origSize.width, IMG_SIZE).width
  }

  /** The factor `ApplyCoords` applies to x coordinates: `newW / origW`. */
  function XScale(origSize: Size): real
    requires origSize.height > 0 && origSize.width > 0
  {
    NewWidth(origSize) as real / origSize.width as real
  }

  /** The factor `ApplyCoords` applies to y coordinates: `newH / origH`. */
  function YScale(origSize: Size): real
    requires origSize.height > 0 && origSize.width > 0
  {
    NewHeight(origSize) as real / origSize.height as real
  }

  /** Every x (even index) multiplied by `sx`, every y (odd index) by `sy`. */
  function ScaleAxes(coords: seq<real>, sx: real, sy: real): (r: seq<real>)
    ensures |r| == |coords|
  {
    seq(|coords|, i requires 0 <= i < |coords| => if i % 2 == 0 then coords[i] * sx else coords[i] * sy)
  }

  /** Pair `p` of `ScaleAxes`: its x at index 2p scaled by `sx`, its y at 2p+1 by `sy`. */
  lemma ScaleAxesPair(coords: seq<real>, sx: real, sy: real, p: int)
    requires 0 <= p && 2 * p + 1 < |coords|
    ensures ScaleAxes(coords, sx, sy)[2 * p] == coords[2 * p] * sx
    ensures ScaleAxes(coords, sx, sy)[2 * p + 1] == coords[2 * p + 1] * sy
  {
    assert (2 * p) % 2 == 0 && (2 * p + 1) % 2 == 1;
  }

  /**
    The coordinates after `ApplyCoords`: every x multiplied by
    `newW / origW`, every y by `newH / origH`, in real division.
  */
  function ScaleCoords(coords: seq<real>, origSize: Size): (r: seq<real>)
    requires origSize.height > 0 && origSize.width > 0
    ensures |r| == |coords|
  {
    ScaleAxes(coords, XScale(origSize), YScale(origSize))
  }

  /**
    Maps prompt points from original pixels into the resized image. Works
    on a copy; the caller's array is left as it was.
  */
  method ApplyCoords(pointCoords: array<real>, origSize: Size) returns (r: array<real>)
    requires pointCoords.Length % 2 == 0
    requires origSize.height > 0 && origSize.width > 0
    ensures fresh(r)
    ensures r[..] == ScaleCoords(pointCoords[..], origSize)
  {
    r := ArrayUtils.Copy(pointCoords);
    var PreprocessShape(newHi, newWi) := GetPreprocessShape(origSize.height, origSize.width, IMG_SIZE);
    var newH, newW := newHi as real, newWi as real;
    ScaleInPlace(r, newW / origSize.width as real, newH / origSize.height as real);
  }

  /** The stride-2 loop of `ApplyCoords`: each x multiplied by `sx`, each y by `sy`, in place. */
  method ScaleInPlace(r: array<real>, sx: real, sy: real)
    requires r.Length % 2 == 0
    modifies r
    ensures r[..] == ScaleAxes(old(r[..]), sx, sy)
  {
    ghost var want := ScaleAxes(r[..], sx, sy);
    ghost var original := r[..];
    ghost var pairs := r.Length / 2;
    assert r.Length == 2 * pairs;
    ghost var p := 0;
    var i := 0;
    while i < r.Length
      invariant 0 <= p <= pairs && i == 2 * p
      invariant forall k :: 0 <= k < i ==> r[k] == want[k]
      invariant forall k :: i <= k < r.Length ==> r[k] == original[k]
    {
      ScaleAxesPair(original, sx, sy, p);
      r[i] := r[i] * sx;
      r[i + 1] := r[i + 1] * sy;
      i := i + 2;
      p := p + 1;
    }
    assert r[..] == want;
  }

  /** An empty coordinate array maps to an empty one. */
  lemma ScaleCoordsEmpty(origSize: Size)
    requires origSize.height > 0 && origSize.width > 0
    ensures ScaleCoords([], origSize) == []
  {
  }

  /** Scaling the far edge `w` by `n / w` gives `n`. */
  lemma AxisScaleEdge(w: int, n: int)
    requires w > 0
    ensures w as real * (n as real / w as real) == n as real
  {
  }

  /** `x * (n / w)` lies in [0, n] for `x` in [0, w]. */
  lemma AxisScaleWithin(x: real, w: int, n: int)
    requires w > 0 && n >= 0 && 0.0 <= x <= w as real
    ensures 0.0 <= x * (n as real / w as real) <= n as real
  {
    var f := n as real / w as real;
    assert f >= 0.0;
    assert x * f <= w as real * f;
    AxisScaleEdge(w, n);
  }

  /** The corner points, scaled per axis by `sx` and `sy`. */
  lemma ScaleAxesCorners(w: real, h: real, sx: real, sy: real)
    ensures ScaleAxes([0.0, 0.0, w, 0.0, 0.0, h, w, h], sx, sy)
         == [0.0, 0.0, w * sx, 0.0, 0.0, h * sy, w * sx, h * sy]
  {
    var r := ScaleAxes([0.0, 0.0, w, 0.0, 0.0, h, w, h], sx, sy);
    var e := [0.0, 0.0, w * sx, 0.0, 0.0, h * sy, w * sx, h * sy];
    assert r[0] == e[0] && r[1] == e[1] && r[2] == e[2] && r[3] == e[3];
    assert r[4] == e[4] && r[5] == e[5] && r[6] == e[6] && r[7] == e[7];
  }

  /**
    The four corners of the original image map to the four corners of the
    resized image: (0,0), (w,0), (0,h) and (w,h) go to (0,0), (newW,0),
    (0,newH) and (newW,newH).
  */
  lemma ScaleCoordsMapsCorners(origSize: Size)
    requires origSize.height > 0 && origSize.width > 0
    ensures var w, h := origSize.width as real, origSize.height as real;
            var nw, nh := NewWidth(origSize) as real, NewHeight(origSize) as real;
            ScaleCoords([0.0, 0.0, w, 0.0, 0.0, h, w, h], origSize) == [0.0, 0.0, nw, 0.0, 0.0, nh, nw, nh]
  {
    var w, h := origSize.width as real, origSize.height as real;
    var c := [0.0, 0.0, w, 0.0, 0.0, h, w, h];
    var sx, sy := XScale(origSize), YScale(origSize);
    assert ScaleCoords(c, origSize) == ScaleAxes(c, sx, sy);
    AxisScaleEdge(origSize.width, NewWidth(origSize));
    AxisScaleEdge(origSize.height, NewHeight(origSize));
    ScaleAxesCorners(w, h, sx, sy);
    var nw, nh := NewWidth(origSize) as real, NewHeight(origSize) as real;
    assert w * sx == nw && h * sy == nh;
    assert [0.0, 0.0, w * sx, 0.0, 0.0, h * sy, w * sx, h * sy] == [0.0, 0.0, nw, 0.0, 0.0, nh, nw, nh];
  }

  /** The resized sides are never negative. */
  lemma NewSidesNonNegative(origSize: Size)
    requires origSize.height > 0 && origSize.width > 0
    ensures NewWidth(origSize) >= 0 && NewHeight(origSize) >= 0
  {
    var m := Max(origSize.width, origSize.height);
    QuotientBounds(2 * origSize.width * IMG_SIZE + m, 2 * m);
    QuotientBounds(2 * origSize.height * IMG_SIZE + m, 2 * m);
  }

  /** A point inside the original image maps to a point inside the resized image. */
  lemma ScaleCoordsStaysInside(coords: seq<real>, origSize: Size, p: int)
    requires origSize.height > 0 && origSize.width > 0
    requires 0 <= p
    ensures (2 * p < |coords| && 0.0 <= coords[2 * p] <= origSize.width as real) ==>
              0.0 <= ScaleCoords(coords, origSize)[2 * p] <= NewWidth(origSize) as real
    ensures (2 * p + 1 < |coords| && 0.0 <= coords[2 * p + 1] <= origSize.height as real) ==>
              0.0 <= ScaleCoords(coords, origSize)[2 * p + 1] <= NewHeight(origSize) as real
  {
    NewSidesNonNegative(origSize);
    ScaleAxesStaysInside(coords, origSize.width, origSize.height, NewWidth(origSize), NewHeight(origSize), p);
  }

  /** `ScaleAxes` with factors `nw / w` and `nh / h` maps [0, w] x [0, h] into [0, nw] x [0, nh]. */
  lemma ScaleAxesStaysInside(coords: seq<real>, w: int, h: int, nw: int, nh: int, p: int)
    requires w > 0 && h > 0 && nw >= 0 && nh >= 0 && 0 <= p
    ensures (2 * p < |coords| && 0.0 <= coords[2 * p] <= w as real) ==>
              0.0 <= ScaleAxes(coords, nw as real / w as real, nh as real / h as real)[2 * p] <= nw as real
    ensures (2 * p + 1 < |coords| && 0.0 <= coords[2 * p + 1] <= h as real) ==>
              0.0 <= ScaleAxes(coords, nw as real / w as real, nh as real / h as real)[2 * p + 1] <= nh as real
  {
    assert (2 * p) % 2 == 0 && (2 * p + 1) % 2 == 1;
    if 2 * p < |coords| && 0.0 <= coords[2 * p] <= w as real {
      AxisScaleWithin(coords[2 * p], w, nw);
    }
    if 2 * p + 1 < |coords| && 0.0 <= coords[2 * p + 1] <= h as real {
      AxisScaleWithin(coords[2 * p + 1], h, nh);
    }
  }
}
