/**
 * Images of the offline scraper: the main image, the gallery and thumbnail arrays of the scripts
 * that mention `imagePathList`, and the OpenGraph image.  There is no fallback gallery.
 */
module OfflineImages {
  import opened Values
  import opened Strings
  import opened Sequences
  import opened Document
  import opened OfflineQueries
  import LiveImages

  const MainImageClass: string := "magnifier--image--EYYoSlr"
  const ImageScriptWord: string := "imagePathList"

  /** `img.get('src', '')` of the main image, stored even when empty. */
  function MainImageOf(img: Option<Node>): Option<string>
  {
    if img.Some? then Some(AttrOr(img.value, "src", "")) else None
  }

  /** The scripts whose single string mentions `imagePathList`, in document order. */
  function ImageScripts(soup: Node): seq<Node>
  {
    FindAll(soup, WordTest("script", ImageScriptWord))
  }

  /** `og_image`: the content of the `og:image` meta tag, stored even when empty. */
  function OgImageOf(meta: Option<Node>): Option<string>
  {
    if meta.Some? then Some(AttrOr(meta.value, "content", "")) else None
  }

  /** `images` from its parts: the main image, then what the scripts stored, then the OpenGraph image. */
  function ImagesOf(main: Option<string>, fromScripts: Mapping, og: Option<string>): Mapping
  {
    Put(Put(map[], "main_image", StrOf(main)) + fromScripts, "og_image", StrOf(og))
  }

  /** `extract_images`; each script contributes as it does for the live scraper, with the same two patterns. */
  function Images(eng: Engine, soup: Node): Mapping
  {
    ImagesOf(MainImageOf(Find(soup, ClassTest("img", MainImageClass))),
             MergeAll(ImageScripts(soup), LiveImages.ScriptImagesFn(eng)),
             OgImageOf(Find(soup, AttrTest("meta", "property", "og:image"))))
  }

  method ExtractImages(eng: Engine, soup: Node) returns (images: Mapping)
    ensures images == Images(eng, soup)
  {
    images := Store(map[], "main_image", StrOf(MainImageOf(Find(soup, ClassTest("img", MainImageClass)))));
    var fromScripts := MergeEach(ImageScripts(soup), LiveImages.ScriptImagesFn(eng));
    images := images + fromScripts;
    images := Store(images, "og_image", StrOf(OgImageOf(Find(soup, AttrTest("meta", "property", "og:image")))));
  }

  /** A script array key is stored exactly when some script's array parsed; nothing else comes from the scripts. */
  lemma ScriptKeys(eng: Engine, scripts: seq<Node>)
    ensures "gallery_images" in MergeAll(scripts, LiveImages.ScriptImagesFn(eng)) <==>
      exists j :: 0 <= j < |scripts| && LiveImages.ParsedGroup(eng, LiveImages.GalleryPattern, TextOf(scripts[j])).Some?
    ensures forall key :: key in MergeAll(scripts, LiveImages.ScriptImagesFn(eng)) ==>
      key == "gallery_images" || key == "thumbnail_images"
  {
    var f := LiveImages.ScriptImagesFn(eng);
    MergeKeys(scripts, f);
    forall j | 0 <= j < |scripts|
      ensures "gallery_images" in f(scripts[j]) <==>
        LiveImages.ParsedGroup(eng, LiveImages.GalleryPattern, TextOf(scripts[j])).Some?
      ensures forall key :: key in f(scripts[j]) ==> key == "gallery_images" || key == "thumbnail_images"
    {
      LiveImages.ScriptImagesKeys(LiveImages.ParsedGroup(eng, LiveImages.GalleryPattern, TextOf(scripts[j])),
                                  LiveImages.ParsedGroup(eng, LiveImages.ThumbnailPattern, TextOf(scripts[j])));
    }
  }

  /**
   * The gallery comes from the scripts alone: `gallery_images` is there exactly when the scripts
   * stored it, with their value; the main and OpenGraph images exactly when their tags were found.
   */
  lemma ImagesKeys(main: Option<string>, fromScripts: Mapping, og: Option<string>)
    requires forall key :: key in fromScripts ==> key == "gallery_images" || key == "thumbnail_images"
    ensures "gallery_images" in ImagesOf(main, fromScripts, og) <==> "gallery_images" in fromScripts
    ensures "gallery_images" in fromScripts ==> ImagesOf(main, fromScripts, og)["gallery_images"] == fromScripts["gallery_images"]
    ensures "main_image" in ImagesOf(main, fromScripts, og) <==> main.Some?
    ensures "og_image" in ImagesOf(main, fromScripts, og) <==> og.Some?
    ensures forall key :: key in ImagesOf(main, fromScripts, og) ==>
      key == "main_image" || key == "og_image" || key == "gallery_images" || key == "thumbnail_images"
  {
  }

  /** An image tag without `src` still gives a main image, the empty string, where the live scraper gives none. */
  lemma MainImageMayBeEmpty(img: Node)
    requires img.Element? && "src" !in img.attrs
    ensures MainImageOf(Some(img)) == Some("")
    ensures LiveImages.MainImageOf(Some(img)).None?
  {
  }
}
