/** The image page (app/image-mode/page.tsx): the ratios each model
    supports and the effect that keeps the chosen ratio supported, the
    price table, the binarisation of a drawn inpainting mask done in place
    on the canvas pixels, the crop handles and the crop selection, and the
    cache-busting URL of a new image. Canvas drawing, zoom and pan, and the
    calls to the image routes are left out. */
module ImageMode {
  import opened Wrappers
  import opened Strings
  import opened Numbers

  // ---------------------------------------------------------------------
  // Ratios and prices

  const OpenAIRatios: seq<string> := ["1024:1024", "1024:1792", "1792:1024"]
  const RunwayRatios: seq<string> :=
    ["1024:1024", "1280:720", "720:1280", "1104:832", "832:1104", "960:960", "1584:672"]

  /** `getSupportedRatios`: the two OpenAI models have three sizes, the
      other listed models seven; an unknown model gets gen4_image's list. */
  function SupportedRatios(model: string): (r: seq<string>)
    ensures r != [] && r[0] == "1024:1024"
    ensures model in {"dalle_image", "gpt-image-1"} ==> r == OpenAIRatios
    ensures model !in {"dalle_image", "gpt-image-1"} ==> r == RunwayRatios
  {
    if model in {"dalle_image", "gpt-image-1"} then OpenAIRatios
    else if model in {"gen4_image", "gen4_image_turbo", "gemini_2.5_flash", "runway_image"} then RunwayRatios
    else RunwayRatios
  }

  /** The page state the ratio effect works on. */
  class ImageModePage {
    var model: string
    var ratio: string

    /** The effect run when the model or the ratio changes: an unsupported
        ratio becomes the model's first (square) ratio. */
    method KeepRatioSupported()
      modifies this
      ensures model == old(model)
      ensures ratio == (if old(ratio) in SupportedRatios(model) then old(ratio) else SupportedRatios(model)[0])
    {
      var supported := SupportedRatios(model);
      if ratio !in supported && |supported| > 0 {
        ratio := supported[0];
      }
    }
  }

  /** The ratio the effect settles on. */
  function SettledRatio(model: string, ratio: string): (r: string)
    ensures r in SupportedRatios(model)
    ensures ratio in SupportedRatios(model) ==> r == ratio
    ensures ratio !in SupportedRatios(model) ==> r == "1024:1024"
  {
    if ratio in SupportedRatios(model) then ratio else SupportedRatios(model)[0]
  }

  /** After one run the effect finds nothing to change. */
  lemma {:induction false} RatioSettles(model: string, ratio: string)
    ensures SettledRatio(model, SettledRatio(model, ratio)) == SettledRatio(model, ratio)
  {
  }

  /** Switching between any two models keeps the square ratio. */
  lemma {:induction false} SquareAlwaysSupported(model: string)
    ensures SettledRatio(model, "1024:1024") == "1024:1024"
  {
    assert SupportedRatios(model)[0] == "1024:1024";
  }

  const ImageCredits: map<string, nat> :=
    map["dalle_image" := 40, "gpt-image-1" := 40, "gen4_image" := 8, "gen4_image_turbo" := 3,
        "gemini_2.5_flash" := 8, "runway_image" := 8, "blip" := 0, "llava" := 0]

  /** `imageCredits[model] || 8`: a zero price counts as missing, so the
      free models blip and llava cost 8 too. */
  function RequiredCredits(model: string): (r: nat)
    ensures r > 0
    ensures model in ImageCredits && ImageCredits[model] != 0 ==> r == ImageCredits[model]
    ensures model !in ImageCredits || ImageCredits[model] == 0 ==> r == 8
  {
    if model in ImageCredits && ImageCredits[model] != 0 then ImageCredits[model] else 8
  }

  // ---------------------------------------------------------------------
  // Mask binarisation

  /** A canvas channel value. */
  newtype Byte = x: int | 0 <= x < 256

  /** Pixel `k` of RGBA data is drawn when the average of its colour
      channels is below 50. */
  predicate Dark(px: seq<Byte>, k: nat)
    requires 4 * k + 3 < |px|
  {
    (px[4 * k] as int) + (px[4 * k + 1] as int) + (px[4 * k + 2] as int) < 150
  }

  /** The mask byte at index `j`: a drawn pixel becomes opaque black, any
      other pixel opaque white. */
  function MaskByte(px: seq<Byte>, j: nat): Byte
    requires |px| % 4 == 0 && j < |px|
  {
    if j % 4 == 3 then 255 else if Dark(px, j / 4) then 0 else 255
  }

  /** The binarised pixel data. */
  function Binarised(px: seq<Byte>): (r: seq<Byte>)
    requires |px| % 4 == 0
    ensures |r| == |px|
  {
    seq(|px|, j requires 0 <= j < |px| => MaskByte(px, j))
  }

  /** The number of drawn pixels among the first `n`. */
  function DarkCount(px: seq<Byte>, n: nat): (c: nat)
    requires 4 * n <= |px|
    ensures c <= n
  {
    if n == 0 then 0 else DarkCount(px, n - 1) + (if Dark(px, n - 1) then 1 else 0)
  }

  /** Byte `4 * k + c` is channel `c` of pixel `k`. */
  lemma {:induction false} Channel(k: nat, c: nat)
    requires c < 4
    ensures (4 * k + c) / 4 == k && (4 * k + c) % 4 == c
  {
  }

  /** Channel `c` of pixel `k` in the mask. */
  lemma {:induction false} MaskByteAt(px: seq<Byte>, k: nat, c: nat)
    requires |px| % 4 == 0 && c < 4 && 4 * k + c < |px|
    ensures MaskByte(px, 4 * k + c) == if c == 3 then 255 else if Dark(px, k) then 0 else 255
  {
    Channel(k, c);
  }

  /** The pixels of a binarised mask are all opaque black or opaque white,
      black exactly where the original was drawn. */
  lemma {:induction false} MaskIsTwoColour(px: seq<Byte>, k: nat)
    requires |px| % 4 == 0 && 4 * k + 3 < |px|
    ensures var m := Binarised(px);
      m[4 * k + 3] == 255 &&
      (Dark(px, k) ==> m[4 * k] == m[4 * k + 1] == m[4 * k + 2] == 0) &&
      (!Dark(px, k) ==> m[4 * k] == m[4 * k + 1] == m[4 * k + 2] == 255)
  {
    Channel(k, 0);
    Channel(k, 1);
    Channel(k, 2);
    Channel(k, 3);
  }

  /** Binarising a mask again changes nothing and finds the same drawn
      pixels. */
  lemma {:induction false} MaskSettles(px: seq<Byte>, n: nat)
    requires |px| % 4 == 0 && 4 * n <= |px|
    ensures DarkCount(Binarised(px), n) == DarkCount(px, n)
    ensures Binarised(Binarised(px)) == Binarised(px)
  {
    var m := Binarised(px);
    forall k | 0 <= k < |px| / 4
      ensures Dark(m, k) == Dark(px, k)
    {
      MaskIsTwoColour(px, k);
    }
    DarkCountAgree(m, px, n);
    forall j | 0 <= j < |px|
      ensures Binarised(m)[j] == m[j]
    {
      assert MaskByte(m, j) == MaskByte(px, j);
    }
  }

  lemma {:induction false} DarkCountAgree(a: seq<Byte>, b: seq<Byte>, n: nat)
    requires |a| == |b| && 4 * n <= |a|
    requires forall k :: 0 <= k < |a| / 4 ==> Dark(a, k) == Dark(b, k)
    ensures DarkCount(a, n) == DarkCount(b, n)
  {
    if n > 0 {
      DarkCountAgree(a, b, n - 1);
      assert Dark(a, n - 1) == Dark(b, n - 1);
    }
  }

  /** The mask loop: rewrites the RGBA data in place, four bytes at a
      time, and counts the pixels it makes black and all pixels. */
  method BinariseMask(px: array<Byte>) returns (darkPixels: nat, totalPixels: nat)
    requires px.Length % 4 == 0
    modifies px
    ensures px[..] == Binarised(old(px[..]))
    ensures darkPixels == DarkCount(old(px[..]), px.Length / 4)
    ensures totalPixels == px.Length / 4
  {
    ghost var original := px[..];
    darkPixels := 0;
    totalPixels := 0;
    var i := 0;
    while i < px.Length
      invariant i == 4 * totalPixels && i <= px.Length
      invariant darkPixels == DarkCount(original, totalPixels)
      invariant forall k :: 0 <= k < totalPixels ==> PixelDone(px[..], original, k)
      invariant px[i..] == original[i..]
    {
      PixelInside(totalPixels, px.Length);
      assert px[i..][..3] == original[i..][..3];
      var avgTimes3 := (px[i] as int) + (px[i + 1] as int) + (px[i + 2] as int);
      assert avgTimes3 < 150 <==> Dark(original, totalPixels);
      var grey: Byte := 255;
      if avgTimes3 < 150 {
        darkPixels := darkPixels + 1;
        grey := 0;
      }
      ghost var before := px[..];
      SetPixel(px, i, grey);
      Painted(before, px[..], original, totalPixels, grey);
      totalPixels := totalPixels + 1;
      i := i + 4;
    }
    Channel(totalPixels, 0);
    BinarisedFrom(px[..], original);
  }

  /** Pixel `k` of `m` is the mask pixel of `px`. */
  predicate PixelDone(m: seq<Byte>, px: seq<Byte>, k: nat)
    requires 4 * k + 3 < |m| == |px|
  {
    var v: Byte := if Dark(px, k) then 0 else 255;
    m[4 * k] == v && m[4 * k + 1] == v && m[4 * k + 2] == v && m[4 * k + 3] == 255
  }

  /** Painting pixel `n` with its mask colour finishes it, keeps the
      pixels before it and leaves the data after it untouched. */
  lemma {:induction false} Painted(before: seq<Byte>, after: seq<Byte>, px: seq<Byte>, n: nat, v: Byte)
    requires |before| == |px| && 4 * n + 3 < |px|
    requires before[4 * n..] == px[4 * n..]
    requires forall k :: 0 <= k < n ==> PixelDone(before, px, k)
    requires v == if Dark(px, n) then 0 else 255
    requires after == before[4 * n := v][4 * n + 1 := v][4 * n + 2 := v][4 * n + 3 := 255]
    ensures forall k :: 0 <= k < n + 1 ==> PixelDone(after, px, k)
    ensures after[4 * n + 4..] == px[4 * n + 4..]
  {
    forall k | 0 <= k < n + 1
      ensures PixelDone(after, px, k)
    {
      if k < n {
        assert PixelDone(before, px, k);
      }
    }
    assert after[4 * n + 4..] == before[4 * n + 4..];
    assert before[4 * n + 4..] == before[4 * n..][4..];
  }

  /** The four bytes of a pixel that starts inside the data are inside it. */
  lemma {:induction false} PixelInside(k: nat, n: nat)
    requires n % 4 == 0 && 4 * k < n
    ensures 4 * k + 3 < n
  {
  }

  /** Data whose every pixel is the mask pixel is the binarised data. */
  lemma {:induction false} BinarisedFrom(m: seq<Byte>, px: seq<Byte>)
    requires |m| == |px| && |px| % 4 == 0
    requires forall k :: 0 <= k < |px| / 4 ==> PixelDone(m, px, k)
    ensures m == Binarised(px)
  {
    forall j | 0 <= j < |m|
      ensures m[j] == MaskByte(px, j)
    {
      var k, c := j / 4, j % 4;
      assert j == 4 * k + c;
      assert PixelDone(m, px, k);
    }
  }

  /** Paints the pixel at byte `i` grey level `v`, fully opaque. */
  method SetPixel(px: array<Byte>, i: nat, v: Byte)
    requires i + 4 <= px.Length
    modifies px
    ensures px[..] == old(px[..])[i := v][i + 1 := v][i + 2 := v][i + 3 := 255]
  {
    px[i], px[i + 1], px[i + 2], px[i + 3] := v, v, v, 255;
  }

  /** Why a mask is refused, if it is: nothing drawn, or more than 95% of
      the pixels drawn (the percentage compared exactly, without floating
      point). */
  function MaskProblem(darkPixels: nat, totalPixels: nat): (r: Option<string>)
    ensures r.None? <==> darkPixels > 0 && 100 * darkPixels <= 95 * totalPixels
  {
    if darkPixels == 0 then Some("No mask drawn! Please draw on the image to mark areas to inpaint.")
    else if 100 * darkPixels > 95 * totalPixels then
      Some("Mask appears to cover the entire image. Please clear the mask and draw only on the areas you want to change.")
    else None
  }

  // ---------------------------------------------------------------------
  // Cropping

  datatype Rect = Rect(x: real, y: real, width: real, height: real)
  datatype Point = Point(x: real, y: real)
  datatype Handle = TopLeft | TopRight | BottomLeft | BottomRight | Move

  function Abs(a: real): real
  {
    if a < 0.0 then -a else a
  }

  /** Half the 12-pixel handle plus 5. */
  const Tolerance: real := 11.0

  predicate Near(a: real, b: real)
  {
    Abs(a - b) < Tolerance
  }

  predicate Inside(x: real, y: real, a: Rect)
  {
    a.x <= x <= a.x + a.width && a.y <= y <= a.y + a.height
  }

  /** `getHandleAt`: the corners in the order top-left, top-right,
      bottom-left, bottom-right, then a move anywhere inside the area
      (edges included), otherwise nothing. */
  function HandleAt(x: real, y: real, a: Rect): (r: Option<Handle>)
    ensures r == Some(TopLeft) <==> Near(x, a.x) && Near(y, a.y)
    ensures r == Some(Move) ==> Inside(x, y, a)
    ensures r.None? <==>
      !Inside(x, y, a) &&
      !((Near(x, a.x) || Near(x, a.x + a.width)) && (Near(y, a.y) || Near(y, a.y + a.height)))
  {
    if Near(x, a.x) && Near(y, a.y) then Some(TopLeft)
    else if Near(x, a.x + a.width) && Near(y, a.y) then Some(TopRight)
    else if Near(x, a.x) && Near(y, a.y + a.height) then Some(BottomLeft)
    else if Near(x, a.x + a.width) && Near(y, a.y + a.height) then Some(BottomRight)
    else if Inside(x, y, a) then Some(Move)
    else None
  }

  /** In an area wider and taller than two tolerances the corner zones do
      not overlap, so the order of the tests does not matter: a click at a
      corner takes that corner. */
  lemma {:induction false} CornersPicked(a: Rect)
    requires a.width >= 2.0 * Tolerance && a.height >= 2.0 * Tolerance
    ensures HandleAt(a.x, a.y, a) == Some(TopLeft)
    ensures HandleAt(a.x + a.width, a.y, a) == Some(TopRight)
    ensures HandleAt(a.x, a.y + a.height, a) == Some(BottomLeft)
    ensures HandleAt(a.x + a.width, a.y + a.height, a) == Some(BottomRight)
  {
  }

  /** A click inside the area and farther than the tolerance from both
      vertical edges moves the area. */
  lemma {:induction false} InteriorMoves(x: real, y: real, a: Rect)
    requires Inside(x, y, a) && !Near(x, a.x) && !Near(x, a.x + a.width)
    ensures HandleAt(x, y, a) == Some(Move)
  {
  }

  /** The area spanned by a drag, when it is larger than 10 pixels both
      ways. */
  function Selection(start: Point, end: Point): (r: Option<Rect>)
    ensures r.Some? <==> Abs(end.x - start.x) > 10.0 && Abs(end.y - start.y) > 10.0
    ensures r.Some? ==> Inside(start.x, start.y, r.value) && Inside(end.x, end.y, r.value)
    ensures r.Some? ==> r.value.width > 10.0 && r.value.height > 10.0
  {
    var w := Abs(end.x - start.x);
    var h := Abs(end.y - start.y);
    if w > 10.0 && h > 10.0 then
      Some(Rect(if start.x < end.x then start.x else end.x, if start.y < end.y then start.y else end.y, w, h))
    else None
  }

  /** Dragging one way or the other selects the same area. */
  lemma {:induction false} SelectionSymmetric(p: Point, q: Point)
    ensures Selection(p, q) == Selection(q, p)
  {
    assert Abs(p.x - q.x) == Abs(q.x - p.x) && Abs(p.y - q.y) == Abs(q.y - p.y);
  }

  /** The crop state the mouse handlers update. */
  class Crop {
    var selecting: bool
    var resizing: bool
    var handle: Option<Handle>
    var resizeStart: Option<Point>
    var start: Option<Point>
    var end: Option<Point>
    var area: Option<Rect>
    var inputs: Option<Rect>

    /** `handleCropMouseUp`: a finished drag commits its area (and the
        numeric inputs) when it is larger than 10 pixels both ways; the
        selecting and resizing state is always cleared. */
    method MouseUp()
      modifies this
      ensures !selecting && !resizing && handle.None? && resizeStart.None?
      ensures start == old(start) && end == old(end)
      ensures var committed := if old(selecting) && start.Some? && end.Some? then Selection(start.value, end.value) else None;
        (committed.Some? ==> area == committed && inputs == committed) &&
        (committed.None? ==> area == old(area) && inputs == old(inputs))
    {
      if selecting && start.Some? && end.Some? {
        var s := Selection(start.value, end.value);
        if s.Some? {
          area := s;
          inputs := s;
        }
      }
      selecting := false;
      resizing := false;
      handle := None;
      resizeStart := None;
    }
  }

  // ---------------------------------------------------------------------
  // Cache busting

  /** The URL of a new image with `_t=<time>` appended as a query
      parameter: after `&` when the URL already has a query, after `?`
      otherwise. */
  function CacheBust(url: string, now: nat): (r: string)
    ensures StartsWith(r, url) && EndsWith(r, "_t=" + Show(now))
    ensures |r| == |url| + 4 + |Show(now)|
    ensures r[|url|] == (if '?' in url then '&' else '?')
  {
    var r := url + (if '?' in url then "&" else "?") + "_t=" + Show(now);
    assert r[..|url|] == url;
    assert r[|r| - |"_t=" + Show(now)|..] == "_t=" + Show(now);
    r
  }
}
