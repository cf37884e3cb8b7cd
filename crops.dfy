/** The crop loop: one image region per detection box, in detection order. */
module Crops {
  import opened Types

  /** n is x truncated toward zero: the integer nearest x on the side of 0. */
  predicate TruncatedFrom(n: int, x: real)
  {
    && (0.0 <= x ==> n as real <= x < n as real + 1.0)
    && (x < 0.0 ==> n as real - 1.0 < x <= n as real)
  }

  /** numpy's astype(int) on a float: truncation toward zero (not the floor). */
  function Trunc(x: real): (n: int)
    ensures TruncatedFrom(n, x)
  {
    if 0.0 <= x then x.Floor else -((-x).Floor)
  }

  /** `xy.astype(int)` for one box: each corner coordinate truncated toward zero. */
  function ToRegion(b: Box): (r: Region)
    ensures TruncatedFrom(r.x1, b.x1) && TruncatedFrom(r.y1, b.y1)
    ensures TruncatedFrom(r.x2, b.x2) && TruncatedFrom(r.y2, b.y2)
  {
    Region(Trunc(b.x1), Trunc(b.y1), Trunc(b.x2), Trunc(b.y2))
  }

  /** The list `crops` after the loop has seen the boxes `xy`. */
  function Regions(xy: seq<Box>): (crops: seq<Region>)
    ensures |crops| == |xy|
  {
    if xy == [] then [] else Regions(xy[..|xy| - 1]) + [ToRegion(xy[|xy| - 1])]
  }

  /** The i-th crop is the i-th box with its coordinates truncated. */
  lemma {:induction false} RegionsAt(xy: seq<Box>, i: int)
    requires 0 <= i < |xy|
    ensures Regions(xy)[i] == ToRegion(xy[i])
  {
    if i < |xy| - 1 {
      RegionsAt(xy[..|xy| - 1], i);
    }
  }

  /** The crop loop of the script. */
  method CropAll(xy: seq<Box>) returns (crops: seq<Region>)
    ensures crops == Regions(xy)
  {
    crops := [];
    for i := 0 to |xy|
      invariant crops == Regions(xy[..i])
    {
      var b := xy[i];
      crops := crops + [ToRegion(b)];
      assert xy[..i + 1][..i] == xy[..i];
    }
    assert xy[..|xy|] == xy;
  }
}
