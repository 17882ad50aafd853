/**
 * The image ingestion pipeline of `optimizeImageBlobToDataUrl`: decode,
 * scale down, draw onto an off-screen canvas and encode, with the fallbacks
 * taken when a browser facility is missing or fails. Everything the browser
 * computes (decoding, reading the blob, the 2D context, whether drawing or
 * encoding throws, the WebP probe) is an input, gathered in `BrowserEnv`.
 */
module ImageUtils {
  import opened Wrappers

  const DefaultMaxDimension: real := 1800.0
  const DefaultQuality: real := 0.85
  /** The size reported when the dimensions are unknown. */
  const FallbackWidth: int := 800
  const FallbackHeight: int := 600

  const WebpMime: string := "image/webp"
  const JpegMime: string := "image/jpeg"

  datatype OptimizeOptions = OptimizeOptions(maxDimension: Option<real>, quality: Option<real>)

  /** Pixel dimensions as a decoder reports them. */
  datatype Dims = Dims(w: nat, h: nat)

  /** What an `<img>` element reports after loading. */
  datatype ImageElement = ImageElement(naturalWidth: nat, naturalHeight: nat, width: nat, height: nat)

  /** The browser's answers, fixed for one call. */
  datatype BrowserEnv = BrowserEnv(
    hasCreateImageBitmap: bool,       // `typeof createImageBitmap === "function"`
    bitmap: Option<Dims>,             // `createImageBitmap(blob)`; None when it throws
    blobDataUrl: Option<string>,      // `readBlobAsDataUrl(blob)`; None when the FileReader fails
    image: Option<ImageElement>,      // `loadImage(dataUrl)`; None when the image does not decode
    has2dContext: bool,               // `canvas.getContext("2d")` is not null
    drawThrows: bool,                 // `ctx.drawImage(...)` throws
    encodeThrows: bool,               // `canvas.toDataURL(mime, quality)` throws
    webpProbe: bool)                  // a 1x1 canvas encodes to "data:image/webp..." without throwing

  /** An encoded data URL: either the blob itself, or the canvas encoded in a format. */
  datatype DataUrl = RawBlob(url: string) | Encoded(mime: string, quality: real, width: int, height: int)

  datatype OptimizedImage = OptimizedImage(dataUrl: DataUrl, width: int, height: int)

  /** The promise either resolves or rejects (only when the blob cannot be read at all). */
  datatype Outcome = Resolved(image: OptimizedImage) | Rejected

  /** JavaScript's `Math.round`: the nearest integer, halves rounded up. */
  function JsRound(x: real): (n: int)
    ensures n as real <= x + 0.5 < n as real + 1.0
  {
    (x + 0.5).Floor
  }

  /** `Math.min(1, maxDimension / Math.max(origW, origH))` */
  function Scale(origW: nat, origH: nat, maxDimension: real): (s: real)
    requires origW > 0 && origH > 0
    ensures s <= 1.0
  {
    var longer := if origW >= origH then origW else origH;
    var q := maxDimension / (longer as real);
    if q < 1.0 then q else 1.0
  }

  /** `Math.max(1, Math.round(orig * scale))` */
  function ScaledSide(orig: nat, scale: real): (n: int)
    ensures n >= 1 && n >= JsRound((orig as real) * scale)
    ensures n == 1 || n == JsRound((orig as real) * scale)
  {
    var r := JsRound((orig as real) * scale);
    if r > 1 then r else 1
  }

  /** The target width and height of the re-encoded image. */
  function TargetSize(origW: nat, origH: nat, maxDimension: real): (size: Dims)
    requires origW > 0 && origH > 0
    ensures size.w >= 1 && size.h >= 1
    ensures origW >= origH ==> size.w >= size.h
    ensures origH >= origW ==> size.h >= size.w
  {
    var s := Scale(origW, origH, maxDimension);
    ScaledSideOrdered(origW, origH, s);
    ScaledSideOrdered(origH, origW, s);
    Dims(ScaledSide(origW, s), ScaledSide(origH, s))
  }

  /** Scaling by one common factor keeps the order of two sides. */
  lemma ScaledSideOrdered(a: nat, b: nat, scale: real)
    ensures a >= b ==> ScaledSide(a, scale) >= ScaledSide(b, scale)
  {
    if a < b {
      return;
    }
    var x, y := (a as real) * scale, (b as real) * scale;
    assert x - y == ((a - b) as real) * scale;
    if scale >= 0.0 {
      MulMonotone(0.0, (a - b) as real, scale);
      JsRoundMonotone(y, x);
    } else {
      JsRoundMonotone(x, y);
      assert JsRound(y) <= 0 by { JsRoundMonotone(y, 0.0); }
    }
  }

  /** Rounding keeps the order of its arguments. */
  lemma JsRoundMonotone(x: real, y: real)
    requires x <= y
    ensures JsRound(x) <= JsRound(y)
  {
  }

  /** A scale of at most 1 never enlarges a side, and a side is always at least 1. */
  lemma ScaledSideBounds(orig: nat, scale: real)
    requires orig > 0 && scale <= 1.0
    ensures 1 <= ScaledSide(orig, scale) <= orig
  {
    var o := orig as real;
    if scale >= 0.0 {
      MulMonotone(scale, 1.0, o);
    } else {
      assert o * scale <= 0.0;
    }
    RoundAtMost(o * scale, orig);
  }

  /** The output never exceeds the original in either dimension and is at least 1x1. */
  lemma TargetSizeNeverUpscales(origW: nat, origH: nat, maxDimension: real)
    requires origW > 0 && origH > 0
    ensures 1 <= TargetSize(origW, origH, maxDimension).w <= origW
    ensures 1 <= TargetSize(origW, origH, maxDimension).h <= origH
  {
    var s := Scale(origW, origH, maxDimension);
    ScaledSideBounds(origW, s);
    ScaledSideBounds(origH, s);
  }

  /** An image that already fits keeps its size. */
  lemma TargetSizeKeepsFittingImage(origW: nat, origH: nat, maxDimension: real)
    requires origW > 0 && origH > 0
    requires origW as real <= maxDimension && origH as real <= maxDimension
    ensures TargetSize(origW, origH, maxDimension) == Dims(origW, origH)
  {
    var longer := if origW >= origH then origW else origH;
    QuotientAtLeastOne(maxDimension, longer as real);
    assert JsRound(origW as real * 1.0) == origW;
    assert JsRound(origH as real * 1.0) == origH;
  }

  /** Multiplying by a non-negative factor preserves order. */
  lemma MulMonotone(a: real, b: real, k: real)
    requires a <= b && k >= 0.0
    ensures k * a <= k * b
  {
  }

  /** A bound no smaller than a positive divisor gives a quotient of at least 1. */
  lemma QuotientAtLeastOne(m: real, d: real)
    requires 0.0 < d <= m
    ensures m / d >= 1.0
  {
    var q := m / d;
    assert (q - 1.0) * d == m - d >= 0.0;
  }

  /** A positive divisor whose quotient is at least 1 is no larger than the dividend. */
  lemma DivisorAtMost(m: real, d: real)
    requires d > 0.0 && m / d >= 1.0
    ensures d <= m
  {
    var q := m / d;
    assert q * d == m;
    MulMonotone(1.0, q, d);
  }

  /** Rounding a value no greater than an integer `m` gives at most `m`. */
  lemma RoundAtMost(x: real, m: int)
    requires x <= m as real
    ensures JsRound(x) <= m
  {
  }

  /** A side no longer than the longer side, scaled by bound/longer, is at most the bound. */
  lemma ScaledSideWithinBound(side: nat, longer: nat, bound: nat)
    requires 0 < side <= longer && bound >= 1
    ensures ScaledSide(side, (bound as real) / (longer as real)) <= bound
  {
    var L, s := longer as real, (bound as real) / (longer as real);
    assert L * s == bound as real;
    MulMonotone(side as real, L, s);
    RoundAtMost((side as real) * s, bound);
  }

  /** For an integer bound of at least 1, the longer output edge is at most the bound. */
  lemma TargetSizeWithinBound(origW: nat, origH: nat, maxDimension: nat)
    requires origW > 0 && origH > 0 && maxDimension >= 1
    ensures TargetSize(origW, origH, maxDimension as real).w <= maxDimension
    ensures TargetSize(origW, origH, maxDimension as real).h <= maxDimension
  {
    var m := maxDimension as real;
    var longer := if origW >= origH then origW else origH;
    var q := m / (longer as real);
    TargetSizeNeverUpscales(origW, origH, m);
    if q < 1.0 {
      assert Scale(origW, origH, m) == q;
      ScaledSideWithinBound(origW, longer, maxDimension);
      ScaledSideWithinBound(origH, longer, maxDimension);
    } else {
      DivisorAtMost(m, longer as real);
    }
  }

  /** 4000x2000 with a bound of 1800 is scaled by 0.45 to 1800x900. */
  lemma TargetSizeExample()
    ensures TargetSize(4000, 2000, 1800.0) == Dims(1800, 900)
  {
    assert Scale(4000, 2000, 1800.0) == 0.45;
    assert JsRound(4000.0 * 0.45) == 1800;
    assert JsRound(2000.0 * 0.45) == 900;
  }

  /**
   * `decodeBlob`: the fast `createImageBitmap` path when it exists and
   * succeeds, otherwise read the blob as a data URL and decode it with an
   * `<img>` (natural size, or the element size when that is zero). None when
   * the fallback path throws.
   */
  function DecodeBlob(env: BrowserEnv): (d: Option<Dims>)
    ensures env.hasCreateImageBitmap && env.bitmap.Some? ==> d == env.bitmap
    ensures !(env.hasCreateImageBitmap && env.bitmap.Some?) ==>
      (d.None? <==> env.blobDataUrl.None? || env.image.None?)
    ensures !(env.hasCreateImageBitmap && env.bitmap.Some?) && env.blobDataUrl.Some? && env.image.Some? ==>
      var img := env.image.value;
      && d.Some?
      && d.value.w == (if img.naturalWidth != 0 then img.naturalWidth else img.width)
      && d.value.h == (if img.naturalHeight != 0 then img.naturalHeight else img.height)
  {
    if env.hasCreateImageBitmap && env.bitmap.Some? then env.bitmap
    else if env.blobDataUrl.None? || env.image.None? then None
    else
      var img := env.image.value;
      Some(Dims(if img.naturalWidth != 0 then img.naturalWidth else img.width,
                if img.naturalHeight != 0 then img.naturalHeight else img.height))
  }

  /** The blob returned unchanged with the placeholder size (the `catch` branch); rejects when even that read fails. */
  function RawFallback(env: BrowserEnv): (o: Outcome)
    ensures o.Rejected? <==> env.blobDataUrl.None?
    ensures o.Resolved? ==> o.image == OptimizedImage(RawBlob(env.blobDataUrl.value), 800, 600)
  {
    match env.blobDataUrl
    case Some(u) => Resolved(OptimizedImage(RawBlob(u), FallbackWidth, FallbackHeight))
    case None => Rejected
  }

  /** Whether the pipeline gets as far as choosing an encoding (and so consults the WebP probe). */
  predicate ReachesEncoding(env: BrowserEnv)
    ensures ReachesEncoding(env) ==>
      && DecodeBlob(env).Some? && DecodeBlob(env).value.w > 0 && DecodeBlob(env).value.h > 0
      && env.has2dContext && !env.drawThrows
  {
    var d := DecodeBlob(env);
    d.Some? && d.value.w != 0 && d.value.h != 0 && env.has2dContext && !env.drawThrows
  }

  /**
   * The value `optimizeImageBlobToDataUrl` settles with, given whether WebP
   * encoding is (believed) supported.
   */
  function OptimizeOutcome(env: BrowserEnv, options: OptimizeOptions, webp: bool): (o: Outcome)
    ensures (o.Resolved? && o.image.dataUrl.Encoded?) <==> ReachesEncoding(env) && !env.encodeThrows
    ensures o.Resolved? && o.image.dataUrl.RawBlob? ==> env.blobDataUrl == Some(o.image.dataUrl.url)
  {
    var maxDimension := options.maxDimension.GetOr(DefaultMaxDimension);
    var quality := options.quality.GetOr(DefaultQuality);
    match DecodeBlob(env)
    case None => RawFallback(env)
    case Some(d) =>
      if d.w == 0 || d.h == 0 then RawFallback(env)
      else
        var size := TargetSize(d.w, d.h, maxDimension);
        if !env.has2dContext then
          (match env.blobDataUrl
           case Some(u) => Resolved(OptimizedImage(RawBlob(u), d.w, d.h))
           case None => RawFallback(env))
        else if env.drawThrows || env.encodeThrows then RawFallback(env)
        else
          var mime := if webp then WebpMime else JpegMime;
          Resolved(OptimizedImage(Encoded(mime, quality, size.w, size.h), size.w, size.h))
  }

  /** Missing options mean a bound of 1800 and a quality of 0.85. */
  lemma DefaultOptions(env: BrowserEnv, webp: bool)
    ensures OptimizeOutcome(env, OptimizeOptions(None, None), webp)
         == OptimizeOutcome(env, OptimizeOptions(Some(1800.0), Some(0.85)), webp)
  {
  }

  /** Unknown dimensions, or a failed decode, give the blob itself at 800x600. */
  lemma UnknownSizeFallsBack(env: BrowserEnv, options: OptimizeOptions, webp: bool)
    requires env.blobDataUrl.Some?
    requires DecodeBlob(env).None? || DecodeBlob(env).value.w == 0 || DecodeBlob(env).value.h == 0
    ensures OptimizeOutcome(env, options, webp)
         == Resolved(OptimizedImage(RawBlob(env.blobDataUrl.value), 800, 600))
  {
  }

  /** Without a 2D context the blob itself is returned with its original dimensions. */
  lemma NoContextKeepsOriginalSize(env: BrowserEnv, options: OptimizeOptions, webp: bool)
    requires env.blobDataUrl.Some? && !env.has2dContext
    requires DecodeBlob(env).Some? && DecodeBlob(env).value.w != 0 && DecodeBlob(env).value.h != 0
    ensures OptimizeOutcome(env, options, webp)
         == Resolved(OptimizedImage(RawBlob(env.blobDataUrl.value), DecodeBlob(env).value.w, DecodeBlob(env).value.h))
  {
  }

  /**
   * When the pipeline reaches the encoder, the result is WebP exactly when
   * WebP is supported (JPEG otherwise), at the requested quality, and its size
   * is at least 1x1 and no larger than the decoded image.
   */
  lemma EncodedResult(env: BrowserEnv, options: OptimizeOptions, webp: bool)
    requires ReachesEncoding(env) && !env.encodeThrows
    ensures var o := OptimizeOutcome(env, options, webp);
      && o.Resolved? && o.image.dataUrl.Encoded?
      && o.image.dataUrl.mime == (if webp then "image/webp" else "image/jpeg")
      && o.image.dataUrl.quality == options.quality.GetOr(0.85)
      && o.image.dataUrl.width == o.image.width && o.image.dataUrl.height == o.image.height
      && 1 <= o.image.width <= DecodeBlob(env).value.w
      && 1 <= o.image.height <= DecodeBlob(env).value.h
  {
    var d := DecodeBlob(env).value;
    TargetSizeNeverUpscales(d.w, d.h, options.maxDimension.GetOr(DefaultMaxDimension));
  }

  /**
   * A throw from drawing or encoding, after a successful decode with a 2D
   * context, is caught like any other: the blob itself at 800x600.
   */
  lemma DrawOrEncodeFailureFallsBack(env: BrowserEnv, options: OptimizeOptions, webp: bool)
    requires env.blobDataUrl.Some? && env.has2dContext && (env.drawThrows || env.encodeThrows)
    requires DecodeBlob(env).Some? && DecodeBlob(env).value.w != 0 && DecodeBlob(env).value.h != 0
    ensures OptimizeOutcome(env, options, webp)
         == Resolved(OptimizedImage(RawBlob(env.blobDataUrl.value), 800, 600))
  {
  }

  /** The promise rejects only when the blob cannot even be read as a data URL. */
  lemma RejectsOnlyWhenUnreadable(env: BrowserEnv, options: OptimizeOptions, webp: bool)
    ensures OptimizeOutcome(env, options, webp).Rejected? ==> env.blobDataUrl.None?
  {
  }

  /** An off-screen canvas: the fields the pipeline sets before encoding. */
  class Canvas {
    var width: int
    var height: int
    var imageSmoothingEnabled: bool
    var highQualitySmoothing: bool
    /** The size the decoded image was last drawn at, from the origin. */
    var drawn: Option<Dims>

    /** `document.createElement("canvas")`: 300x150 and blank. */
    constructor ()
      ensures width == 300 && height == 150 && drawn == None
      ensures imageSmoothingEnabled && !highQualitySmoothing
    {
      width, height := 300, 150;
      imageSmoothingEnabled, highQualitySmoothing := true, false;
      drawn := None;
    }

    /** `ctx.drawImage(drawable, 0, 0, w, h)` */
    method DrawImage(w: nat, h: nat)
      modifies this
      ensures drawn == Some(Dims(w, h))
      ensures width == old(width) && height == old(height)
      ensures imageSmoothingEnabled == old(imageSmoothingEnabled) && highQualitySmoothing == old(highQualitySmoothing)
    {
      drawn := Some(Dims(w, h));
    }

    /** `canvas.toDataURL(mime, quality)`: the canvas pixels, encoded. */
    function ToDataUrl(mime: string, quality: real): (url: DataUrl)
      reads this
      ensures url.Encoded? && url.mime == mime && url.quality == quality
      ensures url.width == width && url.height == height
    {
      Encoded(mime, quality, width, height)
    }
  }

  /** The module-level `_webpSupported` cache and the pipeline that uses it. */
  class ImageOptimizer {
    var webpSupported: Option<bool>

    constructor ()
      ensures webpSupported == None
    {
      webpSupported := None;
    }

    /** `supportsWebp()`: probe once, then answer from the cache. */
    method SupportsWebp(probe: bool) returns (supported: bool)
      modifies this
      ensures old(webpSupported).Some? ==> supported == old(webpSupported).value && webpSupported == old(webpSupported)
      ensures old(webpSupported).None? ==> supported == probe && webpSupported == Some(probe)
    {
      if webpSupported.Some? {
        return webpSupported.value;
      }
      webpSupported := Some(probe);
      supported := probe;
    }

    /** `optimizeImageBlobToDataUrl(blob, options)` */
    method Optimize(env: BrowserEnv, options: OptimizeOptions) returns (outcome: Outcome)
      modifies this
      ensures outcome == OptimizeOutcome(env, options, old(webpSupported).GetOr(env.webpProbe))
      ensures webpSupported == if ReachesEncoding(env) then Some(old(webpSupported).GetOr(env.webpProbe)) else old(webpSupported)
    {
      var maxDimension := options.maxDimension.GetOr(DefaultMaxDimension);
      var quality := options.quality.GetOr(DefaultQuality);
      var decoded := DecodeBlob(env);
      if decoded.None? {
        return RawFallback(env);
      }
      var origW, origH := decoded.value.w, decoded.value.h;
      if origW == 0 || origH == 0 {
        return RawFallback(env);
      }
      var size := TargetSize(origW, origH, maxDimension);
      var canvas := new Canvas();
      canvas.width := size.w;
      canvas.height := size.h;
      if !env.has2dContext {
        if env.blobDataUrl.None? {
          return RawFallback(env);
        }
        return Resolved(OptimizedImage(RawBlob(env.blobDataUrl.value), origW, origH));
      }
      canvas.imageSmoothingEnabled := true;
      canvas.highQualitySmoothing := true;
      if env.drawThrows {
        return RawFallback(env);
      }
      canvas.DrawImage(size.w, size.h);
      var webp := SupportsWebp(env.webpProbe);
      var mime := if webp then WebpMime else JpegMime;
      if env.encodeThrows {
        return RawFallback(env);
      }
      var dataUrl := canvas.ToDataUrl(mime, quality);
      outcome := Resolved(OptimizedImage(dataUrl, size.w, size.h));
    }
  }

  /** After one call that reaches the encoder, later calls reuse its answer whatever the probe now says. */
  method ProbeIsCached(env1: BrowserEnv, env2: BrowserEnv, options: OptimizeOptions) returns (second: Outcome)
    requires ReachesEncoding(env1)
    ensures second == OptimizeOutcome(env2, options, env1.webpProbe)
  {
    var optimizer := new ImageOptimizer();
    var first := optimizer.Optimize(env1, options);
    second := optimizer.Optimize(env2, options);
  }
}
