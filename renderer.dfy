/**
  The software renderer (render/WinAPIRenderer.h): each frame copies the working triangles,
  scales them by 150 and moves them to the window centre, sorts them far to near by their
  largest z (the painter's algorithm), drops those facing away and fills the rest with a
  grey whose level is the Lambert intensity for a light along +z. The model produces the
  list of fills instead of pixels.
*/
module SoftwareRenderer {
  import opened Wrappers
  import opened Vectors3D
  import opened VecMathCommon
  import opened Triangles

  /** `render`'s scale factor. */
  const ScaleFactor: real := 150.0

  /** The light of `render`: `lightDirection(0, 0, 1)`. */
  function LightDirection(): Vec3 {
    Vec3(0.0, 0.0, 1.0)
  }

  /** C++ `n / 2` on `int`: the quotient truncated toward zero. */
  function HalfTruncated(n: int): (h: int)
    ensures n >= 0 ==> 0 <= h && (2 * h == n || 2 * h + 1 == n)
    ensures n < 0 ==> h <= 0 && (2 * h == n || 2 * h - 1 == n)
  {
    if n >= 0 then n / 2 else -((-n) / 2)
  }

  /** A triangle the frame can shade: its light intensity times 255 fits the colour byte. */
  predicate Shadeable(t: Triangle) {
    t.averageNormal.z <= 1.0
  }

  predicate AllShadeable(s: seq<Triangle>) {
    forall i :: 0 <= i < |s| ==> Shadeable(s[i])
  }

  /** Triangles from the constructor are shadeable: their averaged normal lies in [-1, 1]. */
  lemma ConstructedShadeable(v0: Vertex, v1: Vertex, v2: Vertex, n0: Vec3, n1: Vec3, n2: Vec3)
    requires MakeTriangle(v0, v1, v2, n0, n1, n2).Ok?
    ensures Shadeable(MakeTriangle(v0, v1, v2, n0, n1, n2).value)
  {
    AverageNormalFollowsSum(v0, v1, v2, n0, n1, n2);
  }

  /** One pass of the copy loop: `Triangle t(triangle); t.scale(150); t.translate(width / 2, height / 2)`. */
  function Placed(t: Triangle, windowWidth: int, windowHeight: int): Triangle {
    Translated(Scaled(t, ScaleFactor), HalfTruncated(windowWidth), HalfTruncated(windowHeight))
  }

  /** `processedTriangles` before the sort: one placed copy per input triangle, in input order. */
  function Processed(triangles: seq<Triangle>, windowWidth: int, windowHeight: int): (r: seq<Triangle>)
    ensures |r| == |triangles|
    ensures forall i :: 0 <= i < |r| ==> r[i] == Placed(triangles[i], windowWidth, windowHeight)
  {
    seq(|triangles|, i requires 0 <= i < |triangles| => Placed(triangles[i], windowWidth, windowHeight))
  }

  /** Placing keeps the averaged normal, the depth key and the visibility of every triangle. */
  lemma ProcessedKeepsKeys(triangles: seq<Triangle>, windowWidth: int, windowHeight: int)
    ensures var p := Processed(triangles, windowWidth, windowHeight);
      forall i :: 0 <= i < |p| ==>
        p[i].averageNormal == triangles[i].averageNormal && MaxZ(p[i]) == MaxZ(triangles[i]) &&
        IsVisible(p[i]) == IsVisible(triangles[i])
  {
    forall i | 0 <= i < |triangles|
      ensures MaxZ(Placed(triangles[i], windowWidth, windowHeight)) == MaxZ(triangles[i])
    {
      ScreenPlacementKeepsKeys(triangles[i], ScaleFactor, HalfTruncated(windowWidth), HalfTruncated(windowHeight), LightDirection());
    }
  }

  /**
    What `std::sort` with `operator<` leaves: no triangle is `<` a triangle before it.
    Equal depths may come in either order.
  */
  predicate DepthOrdered(s: seq<Triangle>) {
    forall i, j :: 0 <= i < j < |s| ==> !Less(s[j], s[i])
  }

  /** Sorted by `<` means far to near: the largest z never increases along the list. */
  lemma DepthOrderedNonIncreasing(s: seq<Triangle>)
    ensures DepthOrdered(s) <==> forall i, j :: 0 <= i < j < |s| ==> MaxZ(s[i]) >= MaxZ(s[j])
  {
  }

  /** The depth keys of `s[..n]` never increase. */
  predicate KeysNonIncreasing(s: seq<Triangle>, n: int)
    requires 0 <= n <= |s|
  {
    forall k, l :: 0 <= k < l < n ==> MaxZ(s[k]) >= MaxZ(s[l])
  }

  /** Swapping two neighbours permutes a list. */
  lemma SwapPermutes(s: seq<Triangle>, j: int)
    requires 0 < j < |s|
    ensures multiset(s[j - 1 := s[j]][j := s[j - 1]]) == multiset(s)
  {
    var t := s[j - 1 := s[j]][j := s[j - 1]];
    var front, back := s[..j - 1], s[j + 1..];
    assert s == front + [s[j - 1]] + [s[j]] + back;
    assert t == front + [s[j]] + [s[j - 1]] + back;
  }

  /**
    The state of one insertion pass: the first `i + 1` triangles would be ordered far to
    near if the one at `j` were left out, and that one is nearer than all after it.
  */
  predicate Sinking(s: seq<Triangle>, i: int, j: int)
    requires 0 <= j <= i < |s|
  {
    (forall k, l :: 0 <= k < l <= i && k != j && l != j ==> MaxZ(s[k]) >= MaxZ(s[l])) &&
    (forall l :: j < l <= i ==> MaxZ(s[j]) > MaxZ(s[l]))
  }

  lemma SinkStart(s: seq<Triangle>, i: int)
    requires 0 <= i < |s| && KeysNonIncreasing(s, i)
    ensures Sinking(s, i, i)
  {
  }

  /** Swapping the sinking triangle with a farther one before it keeps the pass's state. */
  lemma SinkStep(s: seq<Triangle>, i: int, j: int)
    requires 0 < j <= i < |s| && Sinking(s, i, j) && MaxZ(s[j - 1]) < MaxZ(s[j])
    ensures Sinking(s[j - 1 := s[j]][j := s[j - 1]], i, j - 1)
  {
    var t := s[j - 1 := s[j]][j := s[j - 1]];
    forall k, l | 0 <= k < l <= i && k != j - 1 && l != j - 1
      ensures MaxZ(t[k]) >= MaxZ(t[l])
    {
      if l == j {
        assert t[l] == s[j - 1];
      }
    }
  }

  lemma SinkDone(s: seq<Triangle>, i: int, j: int)
    requires 0 <= j <= i < |s| && Sinking(s, i, j)
    requires j == 0 || MaxZ(s[j - 1]) >= MaxZ(s[j])
    ensures KeysNonIncreasing(s, i + 1)
  {
  }

  /**
    One pass of the insertion sort: the triangle at `i` moves towards the front past every
    farther one, so that the first `i + 1` triangles are ordered far to near.
  */
  method SinkNearer(a: array<Triangle>, i: int)
    requires 0 <= i < a.Length && KeysNonIncreasing(a[..], i)
    modifies a
    ensures KeysNonIncreasing(a[..], i + 1)
    ensures multiset(a[..]) == multiset(old(a[..]))
  {
    var j := i;
    SinkStart(a[..], i);
    while j > 0 && MaxZ(a[j - 1]) < MaxZ(a[j])
      invariant 0 <= j <= i
      invariant Sinking(a[..], i, j)
      invariant multiset(a[..]) == multiset(old(a[..]))
    {
      ghost var s := a[..];
      SinkStep(s, i, j);
      SwapPermutes(s, j);
      a[j - 1], a[j] := a[j], a[j - 1];
      assert a[..] == s[j - 1 := s[j]][j := s[j - 1]];
      j := j - 1;
    }
    SinkDone(a[..], i, j);
  }

  /** `std::sort(processedTriangles.begin(), processedTriangles.end())`, as an insertion sort in place. */
  method SortByDepth(a: array<Triangle>)
    modifies a
    ensures DepthOrdered(a[..])
    ensures multiset(a[..]) == multiset(old(a[..]))
  {
    var i := 0;
    while i < a.Length
      invariant 0 <= i <= a.Length
      invariant KeysNonIncreasing(a[..], i)
      invariant multiset(a[..]) == multiset(old(a[..]))
    {
      SinkNearer(a, i);
      i := i + 1;
    }
  }

  datatype Point = Point(x: real, y: real)

  /** `Gdiplus::Color(r, g, b)`. */
  datatype Color = Color(r: int, g: int, b: int)

  /** One `drawFilledTriangle`: the polygon of the three screen points and its brush colour. */
  datatype Fill = Fill(points: seq<Point>, color: Color)

  /** `255 * intensity` converted to a colour byte: truncated toward zero. */
  function ColorByte(intensity: real): (b: int)
    requires 0.0 <= intensity <= 1.0
    ensures 0 <= b <= 255
    ensures b as real <= 255.0 * intensity < b as real + 1.0
  {
    (255.0 * intensity).Floor
  }

  /** The fill of one visible triangle: its x and y as the polygon, a grey from its light intensity. */
  function FillOf(t: Triangle): (f: Fill)
    requires Shadeable(t)
    ensures |f.points| == 3
  {
    var intensity := LightIntensity(t, LightDirection());
    assert intensity == Max(0.0, t.averageNormal.z);
    var level := ColorByte(intensity);
    Fill([Point(t.v0.x, t.v0.y), Point(t.v1.x, t.v1.y), Point(t.v2.x, t.v2.y)], Color(level, level, level))
  }

  /**
    The brush is grey: all three channels are `255 * max(0, averageNormal.z)` truncated, so
    a triangle facing the light straight on is white and one edge-on is black.
  */
  lemma FillIsGrey(t: Triangle)
    requires Shadeable(t)
    ensures var c := FillOf(t).color;
      c.r == c.g == c.b == ColorByte(Max(0.0, t.averageNormal.z))
    ensures t.averageNormal.z == 1.0 ==> FillOf(t).color == Color(255, 255, 255)
    ensures t.averageNormal.z <= 0.0 ==> FillOf(t).color == Color(0, 0, 0)
  {
  }

  /** The visible triangles of a list, in list order. */
  function VisibleOnes(s: seq<Triangle>): (r: seq<Triangle>)
    ensures |r| <= |s|
    ensures forall k :: 0 <= k < |r| ==> IsVisible(r[k]) && r[k] in s
  {
    if s == [] then []
    else
      var n := |s| - 1;
      VisibleOnes(s[..n]) + (if IsVisible(s[n]) then [s[n]] else [])
  }

  /** Culling keeps each visible triangle exactly as often as the list holds it, and no other. */
  lemma {:induction false} VisibleOnesCount(s: seq<Triangle>)
    ensures forall t :: multiset(VisibleOnes(s))[t] == if IsVisible(t) then multiset(s)[t] else 0
  {
    if s != [] {
      var n := |s| - 1;
      VisibleOnesCount(s[..n]);
      assert s == s[..n] + [s[n]];
    }
  }

  /**
    Culling distributes over concatenation: the survivors of `a + b` are those of `a`
    followed by those of `b`, so culling never reorders triangles.
  */
  lemma {:induction false} VisibleOnesAppend(a: seq<Triangle>, b: seq<Triangle>)
    ensures VisibleOnes(a + b) == VisibleOnes(a) + VisibleOnes(b)
    decreases |b|
  {
    if b == [] {
      assert a + b == a;
    } else {
      var n := |b| - 1;
      assert (a + b)[..|a + b| - 1] == a + b[..n];
      VisibleOnesAppend(a, b[..n]);
      assert (a + b)[|a + b| - 1] == b[n];
    }
  }

  /** Culling keeps every visible triangle. */
  lemma {:induction false} VisibleOnesComplete(s: seq<Triangle>)
    ensures forall i :: 0 <= i < |s| && IsVisible(s[i]) ==> s[i] in VisibleOnes(s)
  {
    if s != [] {
      var n := |s| - 1;
      VisibleOnesComplete(s[..n]);
      assert forall i :: 0 <= i < n ==> s[..n][i] == s[i];
    }
  }

  /** Culling keeps the depth order: what survives of a far-to-near list is far to near. */
  lemma {:induction false} VisibleOnesOrdered(s: seq<Triangle>)
    requires DepthOrdered(s)
    ensures DepthOrdered(VisibleOnes(s))
  {
    if s != [] {
      var n := |s| - 1;
      assert DepthOrdered(s[..n]);
      VisibleOnesOrdered(s[..n]);
      var v := VisibleOnes(s[..n]);
      forall k | 0 <= k < |v| ensures !Less(s[n], v[k]) {
        var i :| 0 <= i < n && s[..n][i] == v[k];
        assert s[i] == v[k];
      }
    }
  }

  /** The draw loop: one fill per visible triangle, in list order. */
  function Fills(s: seq<Triangle>): (r: seq<Fill>)
    requires AllShadeable(s)
    ensures |r| == |VisibleOnes(s)|
    ensures forall k :: 0 <= k < |r| ==> Shadeable(VisibleOnes(s)[k]) && r[k] == FillOf(VisibleOnes(s)[k])
  {
    if s == [] then []
    else
      var n := |s| - 1;
      assert forall i :: 0 <= i < n ==> s[..n][i] == s[i];
      Fills(s[..n]) + (if IsVisible(s[n]) then [FillOf(s[n])] else [])
  }

  /** The copy loop of `render`: each triangle copied, scaled and translated, into `processedTriangles`. */
  method PlaceAll(triangles: seq<Triangle>, windowWidth: int, windowHeight: int) returns (processed: array<Triangle>)
    ensures fresh(processed)
    ensures processed[..] == Processed(triangles, windowWidth, windowHeight)
  {
    processed := new Triangle[|triangles|];
    var i := 0;
    while i < |triangles|
      invariant 0 <= i <= |triangles|
      invariant processed[..i] == Processed(triangles, windowWidth, windowHeight)[..i]
    {
      var t := new WorkingTriangle.Copy(triangles[i]);
      t.Scale(ScaleFactor);
      t.Translate(HalfTruncated(windowWidth), HalfTruncated(windowHeight));
      processed[i] := t.Value();
      i := i + 1;
    }
    assert processed[..] == Processed(triangles, windowWidth, windowHeight)[..i];
  }

  /** The draw loop of `render`: back faces skipped, every other triangle filled in list order. */
  method DrawAll(order: seq<Triangle>) returns (fills: seq<Fill>)
    requires AllShadeable(order)
    ensures fills == Fills(order)
  {
    fills := [];
    var i := 0;
    while i < |order|
      invariant 0 <= i <= |order|
      invariant fills == Fills(order[..i])
    {
      assert order[..i + 1][..i] == order[..i];
      if IsVisible(order[i]) {
        fills := fills + [FillOf(order[i])];
      }
      i := i + 1;
    }
    assert order[..i] == order;
  }

  /** Shadeable triangles stay shadeable when placed and when reordered. */
  lemma ShadeableKept(triangles: seq<Triangle>, windowWidth: int, windowHeight: int, order: seq<Triangle>)
    requires AllShadeable(triangles)
    requires multiset(order) == multiset(Processed(triangles, windowWidth, windowHeight))
    ensures AllShadeable(order)
  {
    var p := Processed(triangles, windowWidth, windowHeight);
    forall k | 0 <= k < |order| ensures Shadeable(order[k]) {
      assert order[k] in multiset(p);
      var i :| 0 <= i < |p| && p[i] == order[k];
    }
  }

  /**
    `render(triangles)` for a client area of `windowWidth` by `windowHeight`: the depth order
    it paints in and the fills it issues. The input list is a value and is left as it was.
  */
  method Render(triangles: seq<Triangle>, windowWidth: int, windowHeight: int) returns (order: seq<Triangle>, fills: seq<Fill>)
    requires AllShadeable(triangles)
    ensures multiset(order) == multiset(Processed(triangles, windowWidth, windowHeight))
    ensures DepthOrdered(order)
    ensures AllShadeable(order) && fills == Fills(order)
  {
    var processed := PlaceAll(triangles, windowWidth, windowHeight);
    SortByDepth(processed);
    order := processed[..];
    ShadeableKept(triangles, windowWidth, windowHeight, order);
    fills := DrawAll(order);
  }

  /**
    The renderer's state: the working triangles of the last `updateModel`, how many error
    boxes it has shown and how many repaints it has requested.
  */
  class WinAPIRenderer {
    var model: seq<Triangle>
    var errorBoxes: nat
    var repaintRequests: nat

    ghost predicate Valid()
      reads this
    {
      AllShadeable(model)
    }

    constructor ()
      ensures Valid() && model == [] && errorBoxes == 0 && repaintRequests == 0
    {
      model, errorBoxes, repaintRequests := [], 0, 0;
    }

    /**
      `updateModel(md)`: the list is replaced even when it is empty; an empty list shows the
      "Failed to load OBJ model" box, any other requests a repaint.
    */
    method UpdateModel(md: seq<Triangle>)
      requires AllShadeable(md)
      modifies this
      ensures Valid() && model == md
      ensures md == [] ==> errorBoxes == old(errorBoxes) + 1 && repaintRequests == old(repaintRequests)
      ensures md != [] ==> repaintRequests == old(repaintRequests) + 1 && errorBoxes == old(errorBoxes)
    {
      model := md;
      if model != [] {
        repaintRequests := repaintRequests + 1;
      } else {
        errorBoxes := errorBoxes + 1;
      }
    }

    /** `WM_PAINT`: the frame is rendered only when the stored list is non-empty. */
    method Paint(windowWidth: int, windowHeight: int) returns (fills: Option<seq<Fill>>)
      requires Valid()
      ensures fills.Some? <==> model != []
      ensures fills.Some? ==> |fills.value| == |VisibleOnes(model)|
      ensures fills.Some? ==> exists order ::
        multiset(order) == multiset(Processed(model, windowWidth, windowHeight)) &&
        DepthOrdered(order) && AllShadeable(order) && fills.value == Fills(order)
    {
      if model == [] {
        return None;
      }
      var order, f := Render(model, windowWidth, windowHeight);
      PaintedCount(model, windowWidth, windowHeight, order);
      return Some(f);
    }
  }

  /** A frame fills exactly as many triangles as face the viewer. */
  lemma PaintedCount(triangles: seq<Triangle>, windowWidth: int, windowHeight: int, order: seq<Triangle>)
    requires multiset(order) == multiset(Processed(triangles, windowWidth, windowHeight))
    ensures |VisibleOnes(order)| == |VisibleOnes(triangles)|
  {
    VisibleCountPermutation(order, Processed(triangles, windowWidth, windowHeight));
    ProcessedKeepsKeys(triangles, windowWidth, windowHeight);
    VisibleCountPointwise(Processed(triangles, windowWidth, windowHeight), triangles);
  }

  /** The number of visible triangles depends only on the multiset of triangles. */
  lemma {:induction false} VisibleCountPermutation(a: seq<Triangle>, b: seq<Triangle>)
    requires multiset(a) == multiset(b)
    ensures |VisibleOnes(a)| == |VisibleOnes(b)|
    decreases |a|
  {
    if a == [] {
      assert |b| == |multiset(b)| == 0;
    } else {
      var n := |a| - 1;
      var x := a[n];
      assert a == a[..n] + [x];
      assert multiset(a) == multiset(a[..n]) + multiset{x};
      assert x in multiset(b);
      var j :| 0 <= j < |b| && b[j] == x;
      var rest := b[..j] + b[j + 1..];
      assert b == b[..j] + [x] + b[j + 1..];
      assert multiset(b) == multiset(b[..j]) + multiset{x} + multiset(b[j + 1..]);
      assert multiset(rest) == multiset(b[..j]) + multiset(b[j + 1..]);
      assert multiset(rest) == multiset(b) - multiset{x};
      assert multiset(a[..n]) == multiset(a) - multiset{x};
      VisibleCountPermutation(a[..n], rest);
      VisibleCountRemove(b, j);
    }
  }

  /** Taking one triangle out of a list takes it out of the visible count too. */
  lemma {:induction false} VisibleCountRemove(b: seq<Triangle>, j: int)
    requires 0 <= j < |b|
    ensures |VisibleOnes(b)| == |VisibleOnes(b[..j] + b[j + 1..])| + (if IsVisible(b[j]) then 1 else 0)
    decreases |b|
  {
    var n := |b| - 1;
    var c := b[..j] + b[j + 1..];
    if j == n {
      assert c == b[..n];
    } else {
      var b0 := b[..n];
      var c0 := b0[..j] + b0[j + 1..];
      VisibleCountRemove(b0, j);
      assert b0[j] == b[j];
      assert c == c0 + [b[n]];
      assert c[..|c| - 1] == c0;
      assert |VisibleOnes(c)| == |VisibleOnes(c0)| + (if IsVisible(b[n]) then 1 else 0);
    }
  }

  /** Two lists of the same length whose triangles agree on visibility have as many visible triangles. */
  lemma {:induction false} VisibleCountPointwise(a: seq<Triangle>, b: seq<Triangle>)
    requires |a| == |b| && forall i :: 0 <= i < |a| ==> IsVisible(a[i]) == IsVisible(b[i])
    ensures |VisibleOnes(a)| == |VisibleOnes(b)|
    decreases |a|
  {
    if a != [] {
      var n := |a| - 1;
      VisibleCountPointwise(a[..n], b[..n]);
    }
  }
}
