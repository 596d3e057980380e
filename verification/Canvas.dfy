// The backdrop regions left by cutting holes out of a canvas.
module Canvas {

  datatype Rect = Rect(left: real, top: real, right: real, bottom: real)

  function Max(a: real, b: real): real {
    if a < b then b else a
  }

  function Min(a: real, b: real): real {
    if a < b then a else b
  }

  predicate Proper(r: Rect) {
    r.left < r.right && r.top < r.bottom
  }

  // The rectangle is half open: its right and bottom edges belong to its neighbours.
  predicate Covers(r: Rect, x: real, y: real) {
    r.left <= x < r.right && r.top <= y < r.bottom
  }

  function Kept(rects: seq<Rect>): seq<Rect> {
    if rects == [] then []
    else (if Proper(rects[0]) then [rects[0]] else []) + Kept(rects[1..])
  }

  // Four strips around the overlap; only those with an area are kept.
  function Subtract(r: Rect, hole: Rect): seq<Rect> {
    var left, top := Max(r.left, hole.left), Max(r.top, hole.top);
    var right, bottom := Min(r.right, hole.right), Min(r.bottom, hole.bottom);
    if left >= right || top >= bottom then [r]
    else
      Kept([r.(bottom := top), r.(top := bottom), Rect(r.left, top, left, bottom), Rect(right, top, r.right, bottom)])
  }

  // How many of the rectangles cover the point.
  function Count(rects: seq<Rect>, x: real, y: real): nat {
    if rects == [] then 0 else Count(rects[..|rects| - 1], x, y) + (if Covers(rects[|rects| - 1], x, y) then 1 else 0)
  }

  function One(b: bool): nat {
    if b then 1 else 0
  }

  lemma {:induction false} CountConcat(a: seq<Rect>, b: seq<Rect>, x: real, y: real)
    ensures Count(a + b, x, y) == Count(a, x, y) + Count(b, x, y)
  {
    if b == [] {
      assert a + b == a;
    } else {
      assert (a + b)[..|a + b| - 1] == a + b[..|b| - 1];
      CountConcat(a, b[..|b| - 1], x, y);
    }
  }

  lemma CountOne(r: Rect, x: real, y: real)
    ensures Count([r], x, y) == One(Covers(r, x, y))
  {
    assert [r][..0] == [];
  }

  // Dropping rectangles without an area changes no count.
  lemma {:induction false} KeptCount(rects: seq<Rect>, x: real, y: real)
    ensures Count(Kept(rects), x, y) == Count(rects, x, y)
    ensures forall r | r in Kept(rects) :: Proper(r)
  {
    if rects != [] {
      KeptCount(rects[1..], x, y);
      assert rects == [rects[0]] + rects[1..];
      CountConcat([rects[0]], rects[1..], x, y);
      CountOne(rects[0], x, y);
      if Proper(rects[0]) {
        CountConcat([rects[0]], Kept(rects[1..]), x, y);
      } else {
        assert [] + Kept(rects[1..]) == Kept(rects[1..]);
      }
    }
  }

  /** A point outside the hole is covered as often as before, a point inside it never. */
  lemma SubtractCount(r: Rect, hole: Rect, x: real, y: real)
    ensures Count(Subtract(r, hole), x, y) == One(Covers(r, x, y) && !Covers(hole, x, y))
  {
    var left, top := Max(r.left, hole.left), Max(r.top, hole.top);
    var right, bottom := Min(r.right, hole.right), Min(r.bottom, hole.bottom);
    if left >= right || top >= bottom {
      CountOne(r, x, y);
    } else {
      var a, b := r.(bottom := top), r.(top := bottom);
      var c, d := Rect(r.left, top, left, bottom), Rect(right, top, r.right, bottom);
      KeptCount([a, b, c, d], x, y);
      assert [a, b, c, d] == [a] + ([b] + ([c] + [d]));
      CountConcat([a], [b] + ([c] + [d]), x, y);
      CountConcat([b], [c] + [d], x, y);
      CountConcat([c], [d], x, y);
      CountOne(a, x, y);
      CountOne(b, x, y);
      CountOne(c, x, y);
      CountOne(d, x, y);
    }
  }

  lemma SubtractProper(r: Rect, hole: Rect)
    requires Proper(r)
    ensures forall s | s in Subtract(r, hole) :: Proper(s)
  {
    var left, top := Max(r.left, hole.left), Max(r.top, hole.top);
    var right, bottom := Min(r.right, hole.right), Min(r.bottom, hole.bottom);
    if left < right && top < bottom {
      KeptCount([r.(bottom := top), r.(top := bottom), Rect(r.left, top, left, bottom),
                 Rect(right, top, r.right, bottom)], 0.0, 0.0);
    }
  }

  // The point is in one of the holes.
  predicate InHole(holes: seq<Rect>, x: real, y: real) {
    exists h | h in holes :: Covers(h, x, y)
  }

  // Each point of the canvas outside the holes is in exactly one region, every other point in none.
  ghost predicate Tiles(regions: seq<Rect>, canvas: Rect, holes: seq<Rect>) {
    forall x, y :: Count(regions, x, y) == One(Covers(canvas, x, y) && !InHole(holes, x, y))
  }

  /** The step of the loop: the hole is subtracted from every region. */
  method CutHole(regions: seq<Rect>, hole: Rect) returns (cut: seq<Rect>)
    requires forall r | r in regions :: Proper(r)
    ensures forall r | r in cut :: Proper(r)
    ensures forall x, y :: Count(cut, x, y) == if Covers(hole, x, y) then 0 else Count(regions, x, y)
  {
    cut := [];
    for i := 0 to |regions|
      invariant forall r | r in cut :: Proper(r)
      invariant forall x, y :: Count(cut, x, y) == if Covers(hole, x, y) then 0 else Count(regions[..i], x, y)
    {
      var pieces := Subtract(regions[i], hole);
      SubtractProper(regions[i], hole);
      assert regions[..i + 1] == regions[..i] + [regions[i]];
      forall x, y
        ensures Count(cut + pieces, x, y) == if Covers(hole, x, y) then 0 else Count(regions[..i + 1], x, y)
      {
        CountConcat(cut, pieces, x, y);
        SubtractCount(regions[i], hole, x, y);
        CountConcat(regions[..i], [regions[i]], x, y);
        CountOne(regions[i], x, y);
      }
      cut := cut + pieces;
    }
    assert regions[..|regions|] == regions;
  }

  /** The regions of `background`: whatever the holes, they tile the canvas without them. */
  method Background(canvas: Rect, holes: seq<Rect>) returns (regions: seq<Rect>)
    requires Proper(canvas)
    ensures Tiles(regions, canvas, holes)
    ensures forall r | r in regions :: Proper(r)
  {
    regions := [canvas];
    forall x, y ensures Count(regions, x, y) == One(Covers(canvas, x, y) && !InHole([], x, y)) {
      CountOne(canvas, x, y);
    }
    for i := 0 to |holes|
      invariant Tiles(regions, canvas, holes[..i])
      invariant forall r | r in regions :: Proper(r)
    {
      assert holes[..i + 1] == holes[..i] + [holes[i]];
      forall x, y
        ensures InHole(holes[..i + 1], x, y) <==> InHole(holes[..i], x, y) || Covers(holes[i], x, y)
      {}
      regions := CutHole(regions, holes[i]);
    }
    assert holes[..|holes|] == holes;
  }

  /** Regions that tile overlap nowhere. */
  lemma {:induction false} TilesAreDisjoint(regions: seq<Rect>, canvas: Rect, holes: seq<Rect>, i: nat, j: nat,
                                            x: real, y: real)
    requires Tiles(regions, canvas, holes) && i < j < |regions|
    ensures !(Covers(regions[i], x, y) && Covers(regions[j], x, y))
  {
    var last := regions[j + 1..];
    assert regions == (regions[..i] + [regions[i]]) + (regions[i + 1..j] + [regions[j]]) + last;
    CountConcat((regions[..i] + [regions[i]]) + (regions[i + 1..j] + [regions[j]]), last, x, y);
    CountConcat(regions[..i] + [regions[i]], regions[i + 1..j] + [regions[j]], x, y);
    CountConcat(regions[..i], [regions[i]], x, y);
    CountConcat(regions[i + 1..j], [regions[j]], x, y);
    CountOne(regions[i], x, y);
    CountOne(regions[j], x, y);
  }
}
