/** The integer geometry of the bright-star stamp task: the size and centre
    of the model stamp, and, in `extractStamps`, the brightness cut, the test
    that skips a star whose box misses the exposure, the clipping of a box
    that overlaps the exposure only in part, and the four parallel lists of
    results. Sky-to-pixel conversion, the rounding of a pixel position to an
    integer point, the cutout itself and the flux-to-magnitude conversion
    belong to the image and units libraries and are parameters. */
module BrightStars {
  import opened Common

  datatype Pair = Pair(x: int, y: int)

  type Positive = n: int | n > 0 witness 1

  /** `modelStampBuffer`, as the exact ratio `num / den`. */
  datatype Ratio = Ratio(num: int, den: Positive)

  /** `int(n / d)`: the quotient truncated toward zero. */
  function Trunc(n: int, d: Positive): (r: int)
    ensures 0 <= n ==> 0 <= r && r * d <= n < (r + 1) * d
    ensures n < 0 ==> r <= 0 && (r - 1) * d < n <= r * d
  {
    if n >= 0 then n / d else -((-n) / d)
  }

  /** `int(stampSize[i] * modelStampBuffer)` on one axis. */
  function ModelSize(size: int, buffer: Ratio): (r: int)
    ensures 0 <= size * buffer.num ==> 0 <= r && r * buffer.den <= size * buffer.num < (r + 1) * buffer.den
    ensures 0 <= size && buffer.den <= buffer.num ==> size <= r
  {
    Trunc(size * buffer.num, buffer.den)
  }

  /** `ProcessBrightStarsTask.__init__`: the model stamp size and its
      central pixel. An even size would be bumped to the next odd one, but
      the size is a tuple, so the item assignment raises `TypeError`
      instead. */
  function ModelStamp(stampSize: Pair, buffer: Ratio): (r: Result<(Pair, Pair)>)
    ensures r.Err? <==> ModelSize(stampSize.x, buffer) % 2 == 0 || ModelSize(stampSize.y, buffer) % 2 == 0
    ensures r.Err? ==> r.error == TupleItemAssignment && ClassOf(r.error) == TypeError
    ensures r.Ok? ==> r.value.0 == Pair(ModelSize(stampSize.x, buffer), ModelSize(stampSize.y, buffer))
    ensures r.Ok? ==> 2 * r.value.1.x + 1 == r.value.0.x && 2 * r.value.1.y + 1 == r.value.0.y
  {
    var size := Pair(ModelSize(stampSize.x, buffer), ModelSize(stampSize.y, buffer));
    if size.x % 2 == 0 || size.y % 2 == 0 then Err(TupleItemAssignment)
    else Ok((size, Pair(size.x / 2, size.y / 2)))
  }

  /** The evident intent of the bump: an even size becomes the next odd
      one, an odd size is kept. */
  function OddSize(n: int): (r: int)
    ensures r % 2 == 1
    ensures n % 2 == 1 ==> r == n
    ensures n % 2 == 0 ==> r == n + 1
  {
    if n % 2 == 0 then n + 1 else n
  }

  /** The model stamp size and centre as `__init__` evidently intends them:
      always odd, so that there is a central pixel, at most one pixel
      larger than the scaled stamp, and the same as `ModelStamp` wherever
      that one does not raise. */
  function OddModelStamp(stampSize: Pair, buffer: Ratio): (r: (Pair, Pair))
    ensures r.0.x % 2 == 1 && r.0.y % 2 == 1
    ensures 2 * r.1.x + 1 == r.0.x && 2 * r.1.y + 1 == r.0.y
    ensures ModelSize(stampSize.x, buffer) <= r.0.x <= ModelSize(stampSize.x, buffer) + 1
    ensures ModelSize(stampSize.y, buffer) <= r.0.y <= ModelSize(stampSize.y, buffer) + 1
    ensures ModelStamp(stampSize, buffer).Ok? ==> r == ModelStamp(stampSize, buffer).value
  {
    var size := Pair(OddSize(ModelSize(stampSize.x, buffer)), OddSize(ModelSize(stampSize.y, buffer)));
    (size, Pair(size.x / 2, size.y / 2))
  }

  /** The defaults, 250 pixels and a buffer of 1.1, give a 275-pixel model
      stamp centred on pixel 137. */
  lemma DefaultModelStamp()
    ensures ModelStamp(Pair(250, 250), Ratio(11, 10)) == Ok((Pair(275, 275), Pair(137, 137)))
  {
    assert ModelSize(250, Ratio(11, 10)) == 275;
  }

  /** With no buffer, an even stamp size reaches the bump and raises. */
  lemma EvenStampWithoutBufferRaises(stampSize: Pair)
    requires stampSize.x % 2 == 0
    ensures ModelStamp(stampSize, Ratio(1, 1)) == Err(TupleItemAssignment)
  {
    assert ModelSize(stampSize.x, Ratio(1, 1)) == stampSize.x;
  }

  lemma MulLeftMonotone(a: int, b: int, d: int)
    requires a <= b && 0 <= d
    ensures a * d <= b * d
  {
    assert b * d - a * d == (b - a) * d;
  }

  /** A buffer of at least one gives a model stamp at least as large as the
      stamp, and never larger than the buffer allows. */
  lemma ModelStampCoversStamp(stampSize: Pair, buffer: Ratio)
    requires 0 <= stampSize.x && 0 <= stampSize.y && buffer.den <= buffer.num
    requires ModelStamp(stampSize, buffer).Ok?
    ensures stampSize.x <= ModelStamp(stampSize, buffer).value.0.x
    ensures stampSize.y <= ModelStamp(stampSize, buffer).value.0.y
    ensures ModelStamp(stampSize, buffer).value.0.x * buffer.den <= stampSize.x * buffer.num
    ensures ModelStamp(stampSize, buffer).value.0.y * buffer.den <= stampSize.y * buffer.num
  {
    BufferCovers(stampSize.x, buffer);
    BufferCovers(stampSize.y, buffer);
  }

  lemma BufferCovers(size: int, buffer: Ratio)
    requires 0 <= size && buffer.den <= buffer.num
    ensures size <= ModelSize(size, buffer)
    ensures ModelSize(size, buffer) * buffer.den <= size * buffer.num
  {
    var n := size * buffer.num;
    MulLeftMonotone(buffer.den, buffer.num, size);
    assert size * buffer.den <= n by {
      assert buffer.den * size == size * buffer.den && buffer.num * size == n;
    }
    assert 0 <= n;
    var m := ModelSize(size, buffer);
    assert m * buffer.den <= n < (m + 1) * buffer.den;
    if m + 1 <= size {
      MulLeftMonotone(m + 1, size, buffer.den);
    }
  }

  /** `Box2I(corner, extent)`. */
  datatype Box = Box(corner: Pair, extent: Pair) {
    /** `getEnd()`: one past the last pixel on each axis. */
    function End(): Pair
    {
      Pair(corner.x + extent.x, corner.y + extent.y)
    }
  }

  /** A row of the reference catalogue: its id, its G-band flux and its sky
      position. */
  datatype RefStar = RefStar(id: int, flux: real, ra: real, dec: real)

  /** The image-library operations `extractStamps` relies on. */
  datatype Imaging = Imaging(
    skyToPixel: ((real, real)) -> (real, real),  // `wcs.skyToPixel`
    cutoutFits: ((real, real)) -> bool,         // `getCutout` of a full stamp succeeds
    toPoint2I: ((real, real)) -> Pair,          // `geom.Point2I` of a pixel position
    toABmag: real -> real)                     // nJy to AB magnitude

  /** A stamp: a plain cutout around the star, or a full-sized stamp over
      the ideal box that holds pixels only in the overlap. */
  datatype Stamp = Cutout(ra: real, dec: real) | Padded(ideal: Box, overlap: Box)

  /** One entry of the four result lists. */
  datatype Extracted = Extracted(stamp: Stamp, center: (real, real), gMag: real, id: int)

  /** `GFluxes > fluxLimit`: strictly brighter than the limit. */
  predicate Bright(star: RefStar, fluxLimit: real)
  {
    star.flux > fluxLimit
  }

  function Above(fluxLimit: real): RefStar -> bool
  {
    star => Bright(star, fluxLimit)
  }

  /** The box a full stamp would have: its corner is the star's pixel
      position minus half the stamp size, made an integer point. */
  function IdealBox(cpix: (real, real), stampSize: Pair, im: Imaging): (r: Box)
    ensures r.extent == stampSize
    ensures r.corner == im.toPoint2I((cpix.0 - stampSize.x as real / 2.0, cpix.1 - stampSize.y as real / 2.0))
  {
    Box(im.toPoint2I((cpix.0 - stampSize.x as real / 2.0, cpix.1 - stampSize.y as real / 2.0)), stampSize)
  }

  /** The skip test: on some axis the box starts beyond the exposure or ends
      before it. Both comparisons are strict. */
  predicate Missed(box: Box, dims: Pair)
    ensures 0 <= box.extent.x && 0 <= box.extent.y && 0 <= dims.x && 0 <= dims.y ==>
              (Missed(box, dims) <==> !(Touches(box.corner.x, box.End().x, dims.x) && Touches(box.corner.y, box.End().y, dims.y)))
  {
    box.corner.x > dims.x || box.corner.y > dims.y || box.End().x < 0 || box.End().y < 0
  }

  /** The closed span from `begin` to `end` shares a point with the closed
      span from 0 to `dim`: their intersection is not empty. */
  predicate Touches(begin: int, end: int, dim: int)
  {
    Max(begin, 0) <= Min(end, dim)
  }

  function Max(a: int, b: int): int
  {
    if a < b then b else a
  }

  function Min(a: int, b: int): int
  {
    if a < b then a else b
  }

  function Abs(n: int): int
  {
    if n < 0 then -n else n
  }

  /** The clipping of one axis: a box that starts before the exposure is
      moved to 0, keeping its end; otherwise a box that ends beyond the
      exposure is shortened to end at its edge. Only one of the two is ever
      applied. */
  function ClipAxis(begin: int, extent: int, dim: int): (r: (int, int))
    ensures begin < 0 ==> r.0 == 0 && r.0 + r.1 == begin + extent
    ensures 0 <= begin ==> r.0 == begin && r.0 + r.1 == (if begin + extent > dim then dim else begin + extent)
  {
    var beyond := begin + extent - dim;
    if begin < 0 then (0, extent - Abs(begin))
    else if beyond > 0 then (begin, extent - beyond)
    else (begin, extent)
  }

  /** The overlap box of a partially covered star. */
  function Overlap(ideal: Box, dims: Pair): (r: Box)
    ensures 0 <= ideal.extent.x && 0 <= dims.x && !(ideal.corner.x < 0 && ideal.End().x > dims.x) &&
            Touches(ideal.corner.x, ideal.End().x, dims.x) ==>
              r.corner.x == Max(ideal.corner.x, 0) && r.End().x == Min(ideal.End().x, dims.x)
    ensures 0 <= ideal.extent.y && 0 <= dims.y && !(ideal.corner.y < 0 && ideal.End().y > dims.y) &&
            Touches(ideal.corner.y, ideal.End().y, dims.y) ==>
              r.corner.y == Max(ideal.corner.y, 0) && r.End().y == Min(ideal.End().y, dims.y)
    ensures ideal.corner.x < 0 ==> r.corner.x == 0 && r.End().x == ideal.End().x
    ensures ideal.corner.y < 0 ==> r.corner.y == 0 && r.End().y == ideal.End().y
  {
    var cx := ClipAxis(ideal.corner.x, ideal.extent.x, dims.x);
    var cy := ClipAxis(ideal.corner.y, ideal.extent.y, dims.y);
    Box(Pair(cx.0, cy.0), Pair(cx.1, cy.1))
  }

  /** A box that is not wider than the exposure on an axis, and that the
      skip test lets through, clips to exactly its intersection with the
      exposure on that axis. */
  lemma ClipIsIntersection(begin: int, extent: int, dim: int)
    requires 0 <= extent && 0 <= dim
    requires !(begin > dim) && !(begin + extent < 0)
    requires !(begin < 0 && begin + extent > dim)
    ensures 0 <= ClipAxis(begin, extent, dim).0 && 0 <= ClipAxis(begin, extent, dim).1
    ensures ClipAxis(begin, extent, dim).0 == (if begin < 0 then 0 else begin)
    ensures ClipAxis(begin, extent, dim).0 + ClipAxis(begin, extent, dim).1 ==
            (if begin + extent > dim then dim else begin + extent)
    ensures ClipAxis(begin, extent, dim).0 + ClipAxis(begin, extent, dim).1 <= dim
  {
  }

  /** A box that overruns the exposure on both sides of an axis is clipped
      only at its start: its end stays beyond the exposure. */
  lemma ClipAtMostOnce(begin: int, extent: int, dim: int)
    requires begin < 0 && begin + extent > dim
    ensures ClipAxis(begin, extent, dim).0 + ClipAxis(begin, extent, dim).1 > dim
  {
  }

  /** A box that starts exactly at the far edge, or ends exactly at 0,
      passes the skip test, with an empty overlap on that axis. */
  lemma TouchingBoxIsKept(ideal: Box, dims: Pair)
    requires 0 <= ideal.extent.x && 0 <= ideal.extent.y && 0 <= dims.x
    requires 0 <= ideal.corner.y <= dims.y
    requires ideal.corner.x == dims.x || ideal.End().x == 0
    ensures !Missed(ideal, dims)
    ensures Overlap(ideal, dims).extent.x == 0
  {
  }

  /** What happens to one bright star: a plain cutout, a padded stamp, or
      nothing when the skip test fires. */
  function StampFor(star: RefStar, stampSize: Pair, dims: Pair, im: Imaging): (r: Option<Stamp>)
    ensures im.cutoutFits((star.ra, star.dec)) ==> r == Some(Cutout(star.ra, star.dec))
    ensures !im.cutoutFits((star.ra, star.dec)) ==>
              (r.None? <==> Missed(IdealBox(im.skyToPixel((star.ra, star.dec)), stampSize, im), dims))
    ensures r.Some? && r.value.Padded? ==>
              r.value.ideal.extent == stampSize &&
              r.value.overlap == Overlap(r.value.ideal, dims)
  {
    if im.cutoutFits((star.ra, star.dec)) then Some(Cutout(star.ra, star.dec))
    else
      var ideal := IdealBox(im.skyToPixel((star.ra, star.dec)), stampSize, im);
      if Missed(ideal, dims) then None else Some(Padded(ideal, Overlap(ideal, dims)))
  }

  /** The star's entry in the result lists, when it has one. */
  function EntryFor(star: RefStar, stampSize: Pair, dims: Pair, im: Imaging): (r: Option<Extracted>)
    ensures r.Some? <==> StampFor(star, stampSize, dims, im).Some?
    ensures r.Some? ==> r.value == Extracted(StampFor(star, stampSize, dims, im).value,
                                             im.skyToPixel((star.ra, star.dec)), im.toABmag(star.flux), star.id)
  {
    match StampFor(star, stampSize, dims, im)
    case None => None
    case Some(s) => Some(Extracted(s, im.skyToPixel((star.ra, star.dec)), im.toABmag(star.flux), star.id))
  }

  /** A star that ends up in the result lists: bright, and not skipped. */
  predicate Selected(star: RefStar, fluxLimit: real, stampSize: Pair, dims: Pair, im: Imaging)
  {
    Bright(star, fluxLimit) && EntryFor(star, stampSize, dims, im).Some?
  }

  /** The entries of the bright stars of `stars` that are not skipped, in
      catalogue order. */
  function Extraction(stars: seq<RefStar>, fluxLimit: real, stampSize: Pair, dims: Pair, im: Imaging): (r: seq<Extracted>)
    ensures |r| <= |stars|
    decreases |stars|
  {
    if stars == [] then []
    else
      var last := stars[|stars| - 1];
      Extraction(stars[..|stars| - 1], fluxLimit, stampSize, dims, im) +
      (if Selected(last, fluxLimit, stampSize, dims, im) then [EntryFor(last, stampSize, dims, im).value] else [])
  }

  /** The catalogue positions of the selected stars, in order. */
  function SelectedPositions(stars: seq<RefStar>, fluxLimit: real, stampSize: Pair, dims: Pair, im: Imaging): (r: seq<nat>)
    ensures forall j :: 0 <= j < |r| ==> r[j] < |stars|
    decreases |stars|
  {
    if stars == [] then []
    else
      var k := |stars| - 1;
      SelectedPositions(stars[..k], fluxLimit, stampSize, dims, im) +
      (if Selected(stars[k], fluxLimit, stampSize, dims, im) then [k] else [])
  }

  /** The result lists hold exactly the selected stars, each once, in
      catalogue order: entry `j` is the entry of star `SelectedPositions[j]`,
      the positions increase, and a position is listed iff its star is
      bright and not skipped. */
  lemma ExtractionIsSelectedStars(stars: seq<RefStar>, fluxLimit: real, stampSize: Pair, dims: Pair, im: Imaging)
    ensures var pos := SelectedPositions(stars, fluxLimit, stampSize, dims, im);
            var e := Extraction(stars, fluxLimit, stampSize, dims, im);
            && |e| == |pos|
            && Increasing(pos)
            && (forall i :: i in pos <==> 0 <= i < |stars| && Selected(stars[i], fluxLimit, stampSize, dims, im))
            && (forall j :: 0 <= j < |e| ==> Some(e[j]) == EntryFor(stars[pos[j]], stampSize, dims, im))
  {
    SelectedPositionsAreSelected(stars, fluxLimit, stampSize, dims, im);
    ExtractionFollowsPositions(stars, fluxLimit, stampSize, dims, im);
  }

  /** The positions increase, and a position is listed iff its star is
      selected. */
  lemma {:induction false} SelectedPositionsAreSelected(stars: seq<RefStar>, fluxLimit: real, stampSize: Pair, dims: Pair, im: Imaging)
    ensures var pos := SelectedPositions(stars, fluxLimit, stampSize, dims, im);
            && Increasing(pos)
            && (forall i :: i in pos <==> 0 <= i < |stars| && Selected(stars[i], fluxLimit, stampSize, dims, im))
    decreases |stars|
  {
    if stars != [] {
      var k := |stars| - 1;
      var init := stars[..k];
      SelectedPositionsAreSelected(init, fluxLimit, stampSize, dims, im);
      var pos0 := SelectedPositions(init, fluxLimit, stampSize, dims, im);
      var pos := SelectedPositions(stars, fluxLimit, stampSize, dims, im);
      assert forall i :: 0 <= i < k ==> init[i] == stars[i];
      assert forall j :: 0 <= j < |pos0| ==> pos[j] == pos0[j];
      assert Increasing(pos) by {
        forall i, j | 0 <= i < j < |pos| ensures pos[i] < pos[j] {
          if j == |pos0| {
            assert pos[i] == pos0[i] < k;
          }
        }
      }
      forall i ensures i in pos <==> 0 <= i < |stars| && Selected(stars[i], fluxLimit, stampSize, dims, im) {
        if i in pos0 {
          assert i < k;
        }
      }
    }
  }

  /** Entry `j` of the result is the entry of the star at position `j` of
      `SelectedPositions`. */
  lemma {:induction false} ExtractionFollowsPositions(stars: seq<RefStar>, fluxLimit: real, stampSize: Pair, dims: Pair, im: Imaging)
    ensures var pos := SelectedPositions(stars, fluxLimit, stampSize, dims, im);
            var e := Extraction(stars, fluxLimit, stampSize, dims, im);
            && |e| == |pos|
            && (forall j :: 0 <= j < |e| ==> Some(e[j]) == EntryFor(stars[pos[j]], stampSize, dims, im))
    decreases |stars|
  {
    if stars != [] {
      var k := |stars| - 1;
      var init := stars[..k];
      ExtractionFollowsPositions(init, fluxLimit, stampSize, dims, im);
      var pos0 := SelectedPositions(init, fluxLimit, stampSize, dims, im);
      var pos := SelectedPositions(stars, fluxLimit, stampSize, dims, im);
      var e0 := Extraction(init, fluxLimit, stampSize, dims, im);
      var e := Extraction(stars, fluxLimit, stampSize, dims, im);
      assert forall i :: 0 <= i < k ==> init[i] == stars[i];
      assert forall j :: 0 <= j < |pos0| ==> pos[j] == pos0[j] && e[j] == e0[j];
    }
  }

  /** Stars at or below the flux limit contribute nothing, so dropping them
      first, as `extractStamps` does, changes no result. */
  lemma {:induction false} BrightCutChangesNothing(stars: seq<RefStar>, fluxLimit: real, stampSize: Pair, dims: Pair, im: Imaging)
    ensures Extraction(Filter(stars, Above(fluxLimit)), fluxLimit, stampSize, dims, im) ==
            Extraction(stars, fluxLimit, stampSize, dims, im)
    decreases |stars|
  {
    if stars != [] {
      var k := |stars| - 1;
      BrightCutChangesNothing(stars[..k], fluxLimit, stampSize, dims, im);
      assert stars == stars[..k] + [stars[k]];
      FilterSnoc(stars[..k], stars[k], Above(fluxLimit));
      var kept := Filter(stars[..k], Above(fluxLimit));
      if Bright(stars[k], fluxLimit) {
        assert (kept + [stars[k]])[..|kept|] == kept;
      } else {
        assert Filter(stars, Above(fluxLimit)) == kept;
      }
    }
  }

  function Stamps(e: seq<Extracted>): (r: seq<Stamp>)
    ensures |r| == |e| && forall j :: 0 <= j < |e| ==> r[j] == e[j].stamp
  {
    seq(|e|, j requires 0 <= j < |e| => e[j].stamp)
  }

  function Centers(e: seq<Extracted>): (r: seq<(real, real)>)
    ensures |r| == |e| && forall j :: 0 <= j < |e| ==> r[j] == e[j].center
  {
    seq(|e|, j requires 0 <= j < |e| => e[j].center)
  }

  function Mags(e: seq<Extracted>): (r: seq<real>)
    ensures |r| == |e| && forall j :: 0 <= j < |e| ==> r[j] == e[j].gMag
  {
    seq(|e|, j requires 0 <= j < |e| => e[j].gMag)
  }

  function Ids(e: seq<Extracted>): (r: seq<int>)
    ensures |r| == |e| && forall j :: 0 <= j < |e| ==> r[j] == e[j].id
  {
    seq(|e|, j requires 0 <= j < |e| => e[j].id)
  }

  class ProcessBrightStarsTask {
    const stampSize: Pair
    const modelStampBuffer: Ratio
    var modelStampSize: Pair
    var modelCenter: Pair

    /** `__init__` as evidently intended: an even model stamp size is
        bumped to the next odd one. */
    constructor (stampSize: Pair, modelStampBuffer: Ratio)
      ensures this.stampSize == stampSize && this.modelStampBuffer == modelStampBuffer
      ensures (modelStampSize, modelCenter) == OddModelStamp(stampSize, modelStampBuffer)
    {
      this.stampSize := stampSize;
      this.modelStampBuffer := modelStampBuffer;
      var size := Pair(ModelSize(stampSize.x, modelStampBuffer), ModelSize(stampSize.y, modelStampBuffer));
      if size.x % 2 == 0 {
        size := size.(x := size.x + 1);
      }
      if size.y % 2 == 0 {
        size := size.(y := size.y + 1);
      }
      modelStampSize := size;
      modelCenter := Pair(size.x / 2, size.y / 2);
    }

    /** Building the task through `__init__` as written: the size
        computation raises on an even size before the task exists. */
    static method Create(stampSize: Pair, modelStampBuffer: Ratio) returns (r: Result<ProcessBrightStarsTask>)
      ensures ModelStamp(stampSize, modelStampBuffer).Err? ==> r == Err(TupleItemAssignment)
      ensures ModelStamp(stampSize, modelStampBuffer).Ok? ==>
                r.Ok? && fresh(r.value) && r.value.stampSize == stampSize &&
                (r.value.modelStampSize, r.value.modelCenter) == ModelStamp(stampSize, modelStampBuffer).value
    {
      var sx := ModelSize(stampSize.x, modelStampBuffer);
      var sy := ModelSize(stampSize.y, modelStampBuffer);
      if sx % 2 == 0 || sy % 2 == 0 {
        return Err(TupleItemAssignment);
      }
      var task := new ProcessBrightStarsTask(stampSize, modelStampBuffer);
      return Ok(task);
    }

    /** `extractStamps` on an exposure of size `dims` and the loaded
        reference catalogue: the four lists of stamps, pixel centres, G
        magnitudes and ids of the selected stars, on the assumption that
        the cutout of every overlap box succeeds (the model does not raise
        there). */
    method ExtractStamps(dims: Pair, refCat: seq<RefStar>, fluxLimit: real, im: Imaging)
      returns (starIms: seq<Stamp>, pixCenters: seq<(real, real)>, gMags: seq<real>, ids: seq<int>)
      ensures |starIms| == |pixCenters| == |gMags| == |ids|
      ensures var e := Extraction(refCat, fluxLimit, stampSize, dims, im);
              starIms == Stamps(e) && pixCenters == Centers(e) && gMags == Mags(e) && ids == Ids(e)
    {
      var bright := Filter(refCat, Above(fluxLimit));
      var allGMags := seq(|bright|, j requires 0 <= j < |bright| => im.toABmag(bright[j].flux));
      var allIds := seq(|bright|, j requires 0 <= j < |bright| => bright[j].id);
      starIms, pixCenters, gMags, ids := [], [], [], [];
      ghost var e: seq<Extracted> := [];
      for j := 0 to |bright|
        invariant e == Extraction(bright[..j], fluxLimit, stampSize, dims, im)
        invariant starIms == Stamps(e) && pixCenters == Centers(e) && gMags == Mags(e) && ids == Ids(e)
      {
        var star := bright[j];
        assert star in bright;
        ExtractionStep(bright, j, fluxLimit, stampSize, dims, im);
        var cpix := im.skyToPixel((star.ra, star.dec));
        var starIm := StarStamp(star, stampSize, dims, im);
        if starIm.None? {
          continue;
        }
        var entry := Extracted(starIm.value, cpix, allGMags[j], allIds[j]);
        AppendEntry(e, entry);
        starIms := starIms + [starIm.value];
        pixCenters := pixCenters + [cpix];
        gMags := gMags + [allGMags[j]];
        ids := ids + [allIds[j]];
        e := e + [entry];
      }
      assert bright[..|bright|] == bright;
      BrightCutChangesNothing(refCat, fluxLimit, stampSize, dims, im);
    }
  }

  /** The body of the loop of `extractStamps` up to the appends: a plain
      cutout when it fits, otherwise the skip test and the padded stamp. */
  method StarStamp(star: RefStar, stampSize: Pair, dims: Pair, im: Imaging) returns (starIm: Option<Stamp>)
    ensures starIm == StampFor(star, stampSize, dims, im)
  {
    var sky := (star.ra, star.dec);
    var cpix := im.skyToPixel(sky);
    if im.cutoutFits(sky) {
      return Some(Cutout(star.ra, star.dec));
    }
    var idealBBox := IdealBox(cpix, stampSize, im);
    var bottomLeft := idealBBox.corner;
    var topRight := idealBBox.End();
    if bottomLeft.x > dims.x || bottomLeft.y > dims.y || topRight.x < 0 || topRight.y < 0 {
      return None;
    }
    var subBBox := ClipBox(idealBBox, dims);
    return Some(Padded(idealBBox, subBBox));
  }

  lemma ExtractionSnoc(stars: seq<RefStar>, star: RefStar, fluxLimit: real, stampSize: Pair, dims: Pair, im: Imaging)
    ensures Extraction(stars + [star], fluxLimit, stampSize, dims, im) ==
            Extraction(stars, fluxLimit, stampSize, dims, im) +
            (if Selected(star, fluxLimit, stampSize, dims, im) then [EntryFor(star, stampSize, dims, im).value] else [])
  {
    assert (stars + [star])[..|stars|] == stars;
  }

  /** One more bright star: its entry is appended unless it is skipped. */
  lemma ExtractionStep(stars: seq<RefStar>, j: int, fluxLimit: real, stampSize: Pair, dims: Pair, im: Imaging)
    requires 0 <= j < |stars| && Bright(stars[j], fluxLimit)
    ensures var star := stars[j];
            var stamp := StampFor(star, stampSize, dims, im);
            Extraction(stars[..j + 1], fluxLimit, stampSize, dims, im) ==
            Extraction(stars[..j], fluxLimit, stampSize, dims, im) +
            (if stamp.Some? then [Extracted(stamp.value, im.skyToPixel((star.ra, star.dec)), im.toABmag(star.flux), star.id)] else [])
  {
    assert stars[..j + 1] == stars[..j] + [stars[j]];
    ExtractionSnoc(stars[..j], stars[j], fluxLimit, stampSize, dims, im);
  }

  lemma AppendEntry(e: seq<Extracted>, x: Extracted)
    ensures Stamps(e + [x]) == Stamps(e) + [x.stamp] && Centers(e + [x]) == Centers(e) + [x.center]
    ensures Mags(e + [x]) == Mags(e) + [x.gMag] && Ids(e + [x]) == Ids(e) + [x.id]
  {
  }

  /** The clipping statements of `extractStamps`, axis by axis. */
  method ClipBox(idealBBox: Box, dims: Pair) returns (subBBox: Box)
    ensures subBBox == Overlap(idealBBox, dims)
  {
    var bottomLeft := idealBBox.corner;
    var topRight := idealBBox.End();
    var subBBoxCorner := bottomLeft;
    var subBBoxExtent := idealBBox.extent;
    var beyondX := topRight.x - dims.x;
    var beyondY := topRight.y - dims.y;
    if bottomLeft.x < 0 {
      subBBoxCorner := subBBoxCorner.(x := 0);
      subBBoxExtent := subBBoxExtent.(x := subBBoxExtent.x - Abs(bottomLeft.x));
    } else if beyondX > 0 {
      subBBoxExtent := subBBoxExtent.(x := subBBoxExtent.x - beyondX);
    }
    if bottomLeft.y < 0 {
      subBBoxCorner := subBBoxCorner.(y := 0);
      subBBoxExtent := subBBoxExtent.(y := subBBoxExtent.y - Abs(bottomLeft.y));
    } else if beyondY > 0 {
      subBBoxExtent := subBBoxExtent.(y := subBBoxExtent.y - beyondY);
    }
    subBBox := Box(subBBoxCorner, subBBoxExtent);
  }
}
