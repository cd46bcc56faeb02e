/**
 * Images of the live scraper: the main-image cascade, the gallery and thumbnail arrays embedded
 * in scripts, the fallback gallery collected from `img` tags, and the product video.
 */
module LiveImages {
  import opened Values
  import opened Strings
  import opened Sequences
  import opened Document

  const MainImageSelectors: seq<Selector> :=
    [".magnifier--image--EYYoSlr", ".product-main-image img", ".main-image img"]

  /** Which scripts are searched: those whose single string mentions one of these. */
  const ImageScriptPattern: Pattern := "imagePathList|gallery"
  const GalleryPattern: Pattern := "\"imagePathList\":\\s*(\\[.*?\\])"
  const ThumbnailPattern: Pattern := "\"summImagePathList\":\\s*(\\[.*?\\])"
  const GallerySelector: Selector := ".image-gallery img, .product-images img"
  const VideoSelector: Selector := "video source, .product-video"

  /** `if img and img.get('src')`: the source of a found image, when it is non-empty. */
  function MainImageOf(img: Option<Node>): Option<string>
  {
    if img.Some? then NonEmptyAttr(img.value, "src") else None
  }

  function MainImageProbe(eng: Engine, soup: Node): Selector -> Option<string>
  {
    sel => MainImageOf(SelectOne(eng, soup, sel))
  }

  /** The main image: the first selector whose first match has a non-empty `src` decides. */
  function MainImage(eng: Engine, soup: Node): Option<string>
  {
    FirstSome(MainImageSelectors, MainImageProbe(eng, soup))
  }

  /**
   * A main image is the non-empty `src` of what some selector finds, and every earlier selector
   * found nothing or something without a `src`; there is none exactly when every selector is so.
   */
  lemma MainImageSpec(eng: Engine, soup: Node)
    ensures MainImage(eng, soup).None? <==>
      forall k :: 0 <= k < |MainImageSelectors| ==> MainImageOf(SelectOne(eng, soup, MainImageSelectors[k])).None?
    ensures MainImage(eng, soup).Some? ==>
      exists k :: 0 <= k < |MainImageSelectors| && SelectOne(eng, soup, MainImageSelectors[k]).Some? &&
        MainImage(eng, soup) == Attr(SelectOne(eng, soup, MainImageSelectors[k]).value, "src") &&
        MainImage(eng, soup).value != [] &&
        (forall j :: 0 <= j < k ==> MainImageOf(SelectOne(eng, soup, MainImageSelectors[j])).None?)
  {
    FirstSomeNone(MainImageSelectors, MainImageProbe(eng, soup));
    if MainImage(eng, soup).Some? {
      var k := FirstSomeWitness(MainImageSelectors, MainImageProbe(eng, soup));
      assert MainImage(eng, soup) == MainImageOf(SelectOne(eng, soup, MainImageSelectors[k]));
    }
  }

  // ---------------------------------------------------------------------------------------------
  // Image arrays in scripts

  /** `find_all('script', string=re.compile(...))`: scripts whose single string the pattern matches. */
  function ImageScriptTest(eng: Engine): Node -> bool
  {
    (n: Node) => TagOf(n) == "script" && StringOf(n).Some? && eng.search(ImageScriptPattern, StringOf(n).value).Some?
  }

  function ImageScripts(eng: Engine, soup: Node): seq<Node>
  {
    FindAll(soup, ImageScriptTest(eng))
  }

  /** The JSON value of the group `pattern` captures in `content`; None when there is no match or it does not parse. */
  function ParsedGroup(eng: Engine, pattern: Pattern, content: string): Option<Value>
  {
    match eng.search(pattern, content)
    case Some(g) => eng.parseJson(g)
    case None => None
  }

  /**
   * What one script contributes.  The third pattern of the source (`"images?"`) is searched and
   * parsed too, but its result is stored under no key, so it contributes nothing.
   */
  function ScriptImagesOf(gallery: Option<Value>, thumbnails: Option<Value>): Mapping
  {
    Put(Put(map[], "gallery_images", gallery), "thumbnail_images", thumbnails)
  }

  function ScriptImages(eng: Engine, script: Node): Mapping
  {
    ScriptImagesOf(ParsedGroup(eng, GalleryPattern, TextOf(script)), ParsedGroup(eng, ThumbnailPattern, TextOf(script)))
  }

  function ScriptImagesFn(eng: Engine): Node -> Mapping
  {
    script => ScriptImages(eng, script)
  }

  /** A script stores `gallery_images` exactly when its gallery array parses, and only the two array keys. */
  lemma ScriptImagesKeys(gallery: Option<Value>, thumbnails: Option<Value>)
    ensures ScriptImagesOf(gallery, thumbnails).Keys <= {"gallery_images", "thumbnail_images"}
    ensures "gallery_images" in ScriptImagesOf(gallery, thumbnails) <==> gallery.Some?
    ensures gallery.Some? ==> ScriptImagesOf(gallery, thumbnails)["gallery_images"] == gallery.value
    ensures "thumbnail_images" in ScriptImagesOf(gallery, thumbnails) <==> thumbnails.Some?
  {
  }

  /** The gallery array of the last script that has a parsable one replaces those of earlier scripts. */
  lemma LastScriptGalleryWins(eng: Engine, scripts: seq<Node>, j: nat)
    requires j < |scripts| && ParsedGroup(eng, GalleryPattern, TextOf(scripts[j])).Some?
    requires forall k :: j < k < |scripts| ==> ParsedGroup(eng, GalleryPattern, TextOf(scripts[k])).None?
    ensures "gallery_images" in MergeAll(scripts, ScriptImagesFn(eng))
    ensures MergeAll(scripts, ScriptImagesFn(eng))["gallery_images"] ==
      ParsedGroup(eng, GalleryPattern, TextOf(scripts[j])).value
  {
    forall k | j < k < |scripts|
      ensures "gallery_images" !in ScriptImagesFn(eng)(scripts[k])
    {
      ScriptImagesKeys(ParsedGroup(eng, GalleryPattern, TextOf(scripts[k])),
                       ParsedGroup(eng, ThumbnailPattern, TextOf(scripts[k])));
    }
    ScriptImagesKeys(ParsedGroup(eng, GalleryPattern, TextOf(scripts[j])),
                     ParsedGroup(eng, ThumbnailPattern, TextOf(scripts[j])));
    MergeLastWins(scripts, ScriptImagesFn(eng), "gallery_images", j);
  }

  // ---------------------------------------------------------------------------------------------
  // Fallback gallery and video

  /** The distinct non-empty sources of the gallery `img` tags, in order of first occurrence. */
  function FallbackGallery(imgs: seq<Node>): seq<string>
  {
    Dedup(Keep(imgs, SourceOf))
  }

  /** The loop collecting the fallback gallery: a source is appended when it is non-empty and new. */
  method CollectGallery(imgs: seq<Node>) returns (gallery: seq<string>)
    ensures gallery == FallbackGallery(imgs)
  {
    gallery := [];
    var i := 0;
    while i < |imgs|
      invariant 0 <= i <= |imgs|
      invariant gallery == Dedup(Keep(imgs[..i], SourceOf))
    {
      KeepStep(imgs, i, SourceOf);
      var src := SourceOf(imgs[i]);
      if src.Some? {
        assert Keep(imgs[..i + 1], SourceOf) == Keep(imgs[..i], SourceOf) + [src.value];
        DedupSnoc(Keep(imgs[..i], SourceOf), src.value);
        if src.value !in gallery {
          gallery := gallery + [src.value];
        }
      } else {
        assert Keep(imgs[..i + 1], SourceOf) == Keep(imgs[..i], SourceOf);
      }
      i := i + 1;
    }
    assert imgs[..|imgs|] == imgs;
  }

  /**
   * The fallback gallery lists each non-empty source of the `img` tags exactly once, and nothing
   * else, in order of first occurrence: the gallery of any leading run of the tags is a prefix of it.
   */
  lemma FallbackGallerySpec(imgs: seq<Node>)
    ensures NoDuplicates(FallbackGallery(imgs))
    ensures forall src :: src in FallbackGallery(imgs) <==> exists j :: 0 <= j < |imgs| && SourceOf(imgs[j]) == Some(src)
    ensures forall src :: src in FallbackGallery(imgs) ==> src != []
    ensures forall i :: 0 <= i <= |imgs| ==> FallbackGallery(imgs[..i]) <= FallbackGallery(imgs)
  {
    DedupSpec(Keep(imgs, SourceOf));
    KeepMembers(imgs, SourceOf);
    forall i | 0 <= i <= |imgs|
      ensures FallbackGallery(imgs[..i]) <= FallbackGallery(imgs)
    {
      assert imgs[..i] + imgs[i..] == imgs;
      KeepAppend(imgs[..i], imgs[i..], SourceOf);
      DedupExtends(Keep(imgs[..i], SourceOf), Keep(imgs[i..], SourceOf));
    }
  }

  /** `video_elem.get('src') or video_elem.get('data-src')` of a found video element. */
  function VideoOf(video: Option<Node>): Option<string>
  {
    if video.Some? then SourceOf(video.value) else None
  }

  // ---------------------------------------------------------------------------------------------
  // Assembly

  /**
   * `images` from its parts: the main image, then what the scripts stored, then the fallback
   * gallery when the scripts left no truthy `gallery_images` and the fallback is non-empty,
   * then the video.
   */
  function ImagesOf(main: Option<string>, fromScripts: Mapping, fallback: seq<string>, video: Option<string>): Mapping
  {
    var m := Put(map[], "main_image", StrOf(main)) + fromScripts;
    var m' := if !HasTruthy(m, "gallery_images") && fallback != [] then m["gallery_images" := StrList(fallback)] else m;
    Put(m', "product_video", StrOf(video))
  }

  function Images(eng: Engine, soup: Node): Mapping
  {
    ImagesOf(MainImage(eng, soup),
             MergeAll(ImageScripts(eng, soup), ScriptImagesFn(eng)),
             FallbackGallery(Select(eng, soup, GallerySelector)),
             VideoOf(SelectOne(eng, soup, VideoSelector)))
  }

  method BuildImages(main: Option<string>, fromScripts: Mapping, galleryImgs: seq<Node>, video: Option<string>)
    returns (images: Mapping)
    ensures images == ImagesOf(main, fromScripts, FallbackGallery(galleryImgs), video)
  {
    images := Store(map[], "main_image", StrOf(main));
    images := images + fromScripts;
    if !HasTruthy(images, "gallery_images") {
      var gallery := CollectGallery(galleryImgs);
      if gallery != [] {
        images := images["gallery_images" := StrList(gallery)];
      }
    }
    images := Store(images, "product_video", StrOf(video));
  }

  method ExtractImages(eng: Engine, soup: Node) returns (images: Mapping)
    ensures images == Images(eng, soup)
  {
    var main := FindFirst(MainImageSelectors, MainImageProbe(eng, soup));
    var fromScripts := MergeEach(ImageScripts(eng, soup), ScriptImagesFn(eng));
    images := BuildImages(main, fromScripts, Select(eng, soup, GallerySelector), VideoOf(SelectOne(eng, soup, VideoSelector)));
  }

  /** A truthy gallery array from the scripts is kept; the `img` tags are then not consulted. */
  lemma ScriptGalleryKept(main: Option<string>, fromScripts: Mapping, fallback: seq<string>, video: Option<string>)
    requires HasTruthy(fromScripts, "gallery_images")
    ensures ImagesOf(main, fromScripts, fallback, video)["gallery_images"] == fromScripts["gallery_images"]
  {
  }

  /** Without a truthy gallery array from the scripts, a non-empty fallback gallery is stored. */
  lemma FallbackUsed(main: Option<string>, fromScripts: Mapping, fallback: seq<string>, video: Option<string>)
    requires !HasTruthy(fromScripts, "gallery_images") && fallback != []
    ensures ImagesOf(main, fromScripts, fallback, video)["gallery_images"] == StrList(fallback)
  {
  }

  /** Only the four image keys are stored; the main image and the video exactly when they were found. */
  lemma ImagesKeys(main: Option<string>, fromScripts: Mapping, fallback: seq<string>, video: Option<string>)
    requires fromScripts.Keys <= {"gallery_images", "thumbnail_images"}
    ensures ImagesOf(main, fromScripts, fallback, video).Keys <=
      {"main_image", "gallery_images", "thumbnail_images", "product_video"}
    ensures "main_image" in ImagesOf(main, fromScripts, fallback, video) <==> main.Some?
    ensures "product_video" in ImagesOf(main, fromScripts, fallback, video) <==> video.Some?
    ensures "gallery_images" in ImagesOf(main, fromScripts, fallback, video) <==>
      "gallery_images" in fromScripts || fallback != []
  {
  }
}
