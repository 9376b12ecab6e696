/**
 * The image rules the On-Page, Mobile and Performance analyzers share, and
 * what each one means for the page's `<img>` elements.
 */
module ImageRules {
  import opened Lists
  import opened Checks
  import opened Page
  import opened Rules

  /** "Image Alt Text": every image has a non-empty `alt`, or there are none. */
  function AltStatus(imgs: seq<Image>): Status {
    PassIf(|AltImages(imgs)| == |imgs| || imgs == [], Warning)
  }

  /** "Image Dimensions" and "CLS Prevention": every image has width and height. */
  function DimensionStatus(imgs: seq<Image>): Status {
    PassIf(|SizedImages(imgs)| == |imgs| || imgs == [], Warning)
  }

  /** "Lazy Loading": some image loads lazily, or there are at most three. */
  function LazyStatus(imgs: seq<Image>): Status {
    PassIf(LazyImages(imgs) != [] || |imgs| <= 3, Warning)
  }

  /** "Responsive Images": some image has a `srcset`, or there are at most two. */
  function SrcsetStatus(imgs: seq<Image>): Status {
    PassIf(SrcsetImages(imgs) != [] || |imgs| <= 2, Info)
  }

  /** "Modern Image Formats" and "WebP Images": some image is WebP, or there are none. */
  function WebpStatus(imgs: seq<Image>): Status {
    PassIf(WebpImages(imgs) != [] || imgs == [], Info)
  }

  /** "Meaningful Alt Text": at most a fifth of the images have an empty `alt`. */
  function MeaningfulAltStatus(imgs: seq<Image>): Status {
    PassIf(FewEmptyAlts(|EmptyAltImages(imgs)|, |imgs|), Warning)
  }

  /** Alt text passes exactly when no image lacks it. */
  lemma AltStatusMeaning(imgs: seq<Image>)
    ensures AltStatus(imgs) == Pass <==> forall i :: i in imgs ==> HasAlt(i)
  {
    FilterAll(imgs, HasAlt);
  }

  /** Dimensions pass exactly when no image lacks a width or a height. */
  lemma DimensionStatusMeaning(imgs: seq<Image>)
    ensures DimensionStatus(imgs) == Pass <==> forall i :: i in imgs ==> HasDimensions(i)
  {
    FilterAll(imgs, HasDimensions);
  }

  /** Lazy loading warns exactly when there are more than three images and none is lazy. */
  lemma LazyStatusMeaning(imgs: seq<Image>)
    ensures LazyStatus(imgs) == Warning <==> |imgs| > 3 && forall i :: i in imgs ==> !IsLazy(i)
  {
    FilterNone(imgs, IsLazy);
  }

  /** Modern formats are only informational exactly when there are images and none is WebP. */
  lemma WebpStatusMeaning(imgs: seq<Image>)
    ensures WebpStatus(imgs) == Info <==> imgs != [] && forall i :: i in imgs ==> !IsWebp(i)
  {
    FilterNone(imgs, IsWebp);
  }

  /** A page without images passes every image rule. */
  lemma NoImagesPass(imgs: seq<Image>)
    requires imgs == []
    ensures AltStatus(imgs) == Pass && DimensionStatus(imgs) == Pass && LazyStatus(imgs) == Pass
    ensures SrcsetStatus(imgs) == Pass && WebpStatus(imgs) == Pass && MeaningfulAltStatus(imgs) == Pass
  {
  }

  /** With one or two images, lazy loading and `srcset` are not asked for. */
  lemma FewImagesPass(imgs: seq<Image>)
    requires |imgs| <= 2
    ensures LazyStatus(imgs) == Pass && SrcsetStatus(imgs) == Pass
  {
  }
}
