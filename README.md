# AliExpress product scraper: a Dafny model

This project models the extraction core of an AliExpress product scraper and the counting
part of its data analyzer, and proves properties of the model.

The scraper reads a product page that has already been rendered and parsed. It fills a record
of field groups: basic information, pricing, reviews and ratings, product variations, images,
shipping, specifications, seller, embedded script data, meta tags and page language. Each
field group comes from its own extractor. Most extractors try a list of candidate selectors
or patterns in priority order, keep the first that matches, and return whatever they have
built when something goes wrong.

There are two variants of the scraper:

- **The live scraper** (`live_aliexpress_scraper.py`) extracts thirteen record keys from the
  page a browser loaded. Modules `LiveBasic`, `LivePricing`, `LiveReviews`, `LiveVariations`,
  `LiveImages`, `LiveShipping`, `LiveSpecs`, `LiveSeller`, `LiveScripts`, `LiveMeta` and
  `LiveRecord` model it. `LiveRecord.LiveScraper` is the scraper object that keeps its last
  record.
- **The offline scraper** (`comprehensive_scraper.py`) builds a narrower nine-key record from
  a saved HTML file. It uses exact-class `find` queries, modelled in `OfflineQueries`. Modules
  `OfflineBasic`, `OfflinePricing`, `OfflineReviews`, `OfflineVariations`, `OfflineImages`,
  `OfflineShipping`, `OfflineScripts`, `OfflineMeta` and `OfflineRecord` model it.
  `OfflineRecord.ProductScraper` is the scraper object that keeps the parsed page and the last
  record.

The analyzer (`data_analyzer.py`) loads stored records. The model covers these parts of it:

- the number reader `_extract_number_from_text` (`NumberText`);
- the price and rating buckets (`Buckets`);
- `Counter` and `most_common` (`Counting`);
- the keyword extraction from titles (`Keywords`);
- the counting and filtering of `analyze_pricing` (`PricingReport`) and `analyze_seller_data`
  (`SellerReport`). These are read over Python values, with uncaught exceptions as outcomes
  (`PyValues`).

The shared pieces are these modules:

- `Document` is the page: a tree of elements and text strings. It also holds the parser's
  query primitives. Its text functions follow `get_text()`: the strings inside a script, style
  or template element count for that element's own text, and for no element around it.
- `Values` holds Python's dict, list, str, int, float, bool and None as one datatype.
- `Strings` holds `strip`, `lower`, `replace` and the simple regular expressions.
- `Sequences` holds the loop shapes the extractors share: cascades, filtered collections,
  de-duplication and dict merging. Each shape is written both as a loop and as a
  specification function.

Three things the parser and Python's `re` and `json` modules compute are parameters of the
model: whether a CSS selector matches an element (judged from the element and its subtree),
the first match of a general regular expression, and `json.loads`. They are gathered in `Document.Engine`. Every property proved
holds for any such functions. Regular expressions that are simple enough are written out and
proved directly instead. These are `/item/(\d+)\.html`, the leading currency token, digit
runs, decimals, `\b[a-zA-Z]{3,}\b` and the number filter.

Each extractor is modelled the same way:

- a specification function over the page (`Pricing(eng, soup)`);
- a method written as the source is, with its loops and their invariants, proved to compute
  that function (`ExtractPricing`);
- lemmas stating what the source promises about the result: which keys appear and when,
  which candidate wins, caps, ordering, and the uniqueness of collected values.

The record assemblers are proved to store every key, even when an extractor returns nothing.
The two scraper classes are proved to keep the record only when the page loaded.

Behaviour of the source that the model follows, and that one might not expect:

- A record always holds all of its keys. An extractor that found nothing is stored as an empty
  mapping (`LiveRecord.RecordKeysPresent`, `OfflineRecord.RecordKeysPresent`). The record is
  not reduced to `url` and `scraping_timestamp`.
- A `max` attribute that `int()` rejects does not just drop `max_quantity`. It ends the
  variations extractor, which returns what it had built (`LiveVariations.PartialOnFault`).
- The live scraper also keeps a variation option that has only text
  (`LiveVariations.OptionKept`).
- Text is stripped, not whitespace-collapsed.
- The offline scraper drops script data that is not valid JSON. It does not keep the raw text
  (`OfflineScripts.NoRawFallback`).
- The offline category is the constant "Electronics" (`OfflineBasic.CategoryIgnoresPage`).

Two mismatches between what the scrapers write and what the analyzer reads are proved as
lemmas:

- The live scraper stores `discount`. The analyzer reads `discount_percentage`, so it never
  sees a discount.
- The live seller section has `store_name` and `store_rating`. The analyzer reads `name` and
  `rating`, so over live records `top_sellers` is always empty
  (`SellerReport.UnnamedSellersNotRanked`).

A third mismatch is a defect and is listed under "## Findings".

## Model

| member | source | states |
|---|---|---|
| Document.ContainerTextSkipped | live_aliexpress_scraper.py:704 | a script, style or template element among an element's children adds nothing to that element's text, stripped or not |
| LiveBasic.TitleCascade | live_aliexpress_scraper.py:161-172 | the first title selector that matches anything gives the title (its stripped text); later selectors are not consulted |
| LiveBasic.TitleAbsent | live_aliexpress_scraper.py:168-172 | there is no title exactly when none of the four title selectors matches |
| LiveBasic.ItemIdAt | live_aliexpress_scraper.py:621-623 | a match of `/item/(\d+)\.html` at a position captures a non-empty run of digits that the text `/item/<digits>.html` really follows |
| LiveBasic.ItemIdAtComplete | live_aliexpress_scraper.py:621-623 | every occurrence of `/item/<digits>.html` is recognised at its position, with exactly those digits |
| LiveBasic.ItemIdLeftmost | live_aliexpress_scraper.py:621-623 | the id is the digits of the leftmost matching position; there is none only when no position matches |
| LiveBasic.ItemIdOfUrl | live_aliexpress_scraper.py:628-630 | a URL whose first `/item/<digits>.html` is at position i yields those digits |
| LiveBasic.ProductIdOgUrlFirst | live_aliexpress_scraper.py:617-623 | an id in the `og:url` meta tag wins whatever the browser URL and the scripts say, and is all digits |
| LiveBasic.ProductIdDriverSecond | live_aliexpress_scraper.py:625-630 | without an id in `og:url`, a browser URL naming an item decides the id and the scripts are not read |
| LiveBasic.ProductIdScriptThird | live_aliexpress_scraper.py:632-638 | without an id in `og:url` or the browser URL, the earliest script in which the `productId` pattern matches gives the id; later scripts are not read |
| LiveBasic.ProductIdNone | live_aliexpress_scraper.py:614-643 | there is no product id exactly when the meta tag, the browser URL and every script all fail to yield one |
| LiveBasic.CrumbTexts | live_aliexpress_scraper.py:652-653 | one stripped text per breadcrumb, in order |
| LiveBasic.CategoryFromCrumbs | live_aliexpress_scraper.py:649-655 | with two or more breadcrumbs and one that is not a home link, the category is the last non-home breadcrumb: never a home link, and every crumb after it is one |
| LiveBasic.CategoryIgnoresSingleCrumb | live_aliexpress_scraper.py:649-662 | with fewer than two breadcrumbs the category is the `category` meta tag's content, or "Unknown" without one |
| LiveBasic.BrandOf | live_aliexpress_scraper.py:681-683 | a brand taken from an element is never empty |
| LiveBasic.BrandCascade | live_aliexpress_scraper.py:667-688 | there is no brand exactly when no selector's element gives a non-empty brand; a brand found is non-empty and comes from the earliest selector whose element gives one; a matched element giving none does not stop the search |
| LiveBasic.BrandAt | live_aliexpress_scraper.py:675-683 | the earliest selector whose element gives a non-empty brand decides the brand: its text, else its `data-brand` |
| LiveBasic.GermanNeedsSharpS | live_aliexpress_scraper.py:704-710 | the heuristic answers "de" exactly when the sample has an `ß` and no Polish or French letter (ä, ö, ü are French letters too) |
| LiveBasic.LanguagePriority | live_aliexpress_scraper.py:694-701 | a non-empty `lang` attribute overrides the meta tag and the text; a `language` meta tag overrides the text |
| LiveBasic.AsciiIsEnglish | live_aliexpress_scraper.py:704-715 | a text sample made of ASCII characters only is detected as English |
| LiveBasic.ScriptTextNotSampled | live_aliexpress_scraper.py:693-715 | on `<html><head><script>var s="straße"</script></head><body><p>Hello</p></body></html>`, with no `lang` and no language meta tag, the text sampled is "Hello" and the page is English: script text is not sampled |
| LiveBasic.LanguageSampleOnly | live_aliexpress_scraper.py:703-715 | without `lang` and meta tag only the first 1000 characters of the text matter, and the answer is one of pl, fr, de, en |
| LiveBasic.BuildBasicInfo | live_aliexpress_scraper.py:157-190 | `basic_info` is assembled from its four sources as `BasicInfoOf` describes |
| LiveBasic.ExtractBasicInfo | live_aliexpress_scraper.py:155-190 | `_extract_basic_info` returns the basic info of the page and browser URL |
| LiveBasic.BasicInfoKeys | live_aliexpress_scraper.py:168-185 | `category` is always stored; `title` and `brand` exactly when found; `product_id` exactly when found and non-empty; no other key |
| LivePricing.LeadingCurrency | live_aliexpress_scraper.py:237-240 | a currency found is a prefix of the price: three capital letters or one of the six currency signs |
| LivePricing.NoCurrency | live_aliexpress_scraper.py:238-240 | a price opening with neither three capitals nor a currency sign has no currency |
| LivePricing.CurrencyCode | live_aliexpress_scraper.py:237-240 | a price that opens with three capital letters has those three letters as its currency, whatever follows |
| LivePricing.CurrencySign | live_aliexpress_scraper.py:238-240 | a leading currency sign is the currency, whatever follows it |
| LivePricing.BuildPricing | live_aliexpress_scraper.py:194-250 | `pricing` is assembled from its sources as `PricingOf` describes |
| LivePricing.ExtractPricing | live_aliexpress_scraper.py:192-250 | `_extract_pricing` returns the pricing of the page |
| LivePricing.CurrencyPresence | live_aliexpress_scraper.py:236-240 | `currency` is stored exactly when the current price is non-empty and opens with a currency token, and it is a non-empty prefix of that price |
| LivePricing.PricingKeys | live_aliexpress_scraper.py:194-245 | only the six pricing keys are stored; `current_price` and `tax_info` exactly when found |
| LiveReviews.ParseIndividualReview | live_aliexpress_scraper.py:717-758 | `_parse_individual_review` returns the parse of one review element |
| LiveReviews.EmptyReview | live_aliexpress_scraper.py:719-753 | a review parses to the empty mapping exactly when none of its five parts was found |
| LiveReviews.ReviewImagesSpec | live_aliexpress_scraper.py:744-753 | the review's images are exactly the non-empty sources of its image tags, no more of them than tags |
| LiveReviews.ParseFirstReviews | live_aliexpress_scraper.py:296-302 | the loop keeps the non-empty parses of the first ten review elements, in document order |
| LiveReviews.ExtractReviewsAndRatings | live_aliexpress_scraper.py:252-310 | `_extract_reviews_and_ratings` returns the reviews and ratings of the page |
| LiveReviews.ReviewCap | live_aliexpress_scraper.py:296-305 | at most ten reviews are kept, each the non-empty parse of one of the first ten review elements, and every such parse is kept |
| LiveReviews.ReviewProbeSpec | live_aliexpress_scraper.py:299-302 | a review element contributes exactly when its parse is non-empty, and then contributes that parse |
| LiveReviews.ReviewsAbsent | live_aliexpress_scraper.py:304-305 | no review list exactly when none of the first ten review elements parses to anything |
| LiveReviews.ReviewsKeys | live_aliexpress_scraper.py:254-305 | only the four keys; `rating`, `review_count` and `sold_count` each present exactly when read, `individual_reviews` exactly when a review survived |
| LiveReviews.ReviewsIgnoreLaterItems | live_aliexpress_scraper.py:299 | review elements after the tenth never change the result |
| LiveReviews.ReviewCountCascade | live_aliexpress_scraper.py:266-278 | there is no review count exactly when no selector's element has a digit; a count found is the first number of the earliest selector's element that has digits; elements without digits are passed over |
| LiveReviews.ReviewCountAt | live_aliexpress_scraper.py:272-278 | the earliest selector whose element has a digit gives the review count: the value of that element's first digit run |
| LiveReviews.SoldCountNeedsSold | live_aliexpress_scraper.py:281-293 | there is no sales count exactly when no selector's element both mentions "sold" (in any case) and has a digit; a count found is non-negative and is the first number of the earliest such element |
| LiveReviews.SoldCountAt | live_aliexpress_scraper.py:287-293 | the earliest selector whose element mentions "sold" and has a digit gives the sales count: the value of that element's first digit run |
| LiveImages.MainImageSpec | live_aliexpress_scraper.py:351-361 | the main image is the non-empty `src` of the earliest selector's element that has one; there is none exactly when no selector gives one |
| LiveImages.ScriptImagesKeys | live_aliexpress_scraper.py:369-385 | a script stores only the two array keys; `gallery_images` exactly when its gallery array parses, holding that array |
| LiveImages.LastScriptGalleryWins | live_aliexpress_scraper.py:365-381 | the gallery array of the last script with a parsable one replaces those of earlier scripts |
| LiveImages.CollectGallery | live_aliexpress_scraper.py:389-394 | the loop appends each non-empty source not already collected, giving `FallbackGallery` |
| LiveImages.FallbackGallerySpec | live_aliexpress_scraper.py:389-397 | the fallback gallery lists every non-empty image source exactly once and nothing else, in order of first occurrence (the gallery of any leading run of the tags is a prefix of it) |
| LiveImages.BuildImages | live_aliexpress_scraper.py:347-404 | `images` is assembled from main image, script arrays, fallback gallery and video as `ImagesOf` describes |
| LiveImages.ExtractImages | live_aliexpress_scraper.py:345-409 | `_extract_images` returns the images of the page |
| LiveImages.ScriptGalleryKept | live_aliexpress_scraper.py:388 | a truthy gallery array from the scripts is kept and the `img` tags are not consulted |
| LiveImages.FallbackUsed | live_aliexpress_scraper.py:388-397 | without a truthy gallery array from the scripts, a non-empty fallback gallery is stored |
| LiveImages.ImagesKeys | live_aliexpress_scraper.py:347-404 | only the four image keys; the main image and the video exactly when found; a gallery when the scripts or the fallback gave one |
| LiveMeta.ExtractMetaTags | live_aliexpress_scraper.py:577-612 | `_extract_meta_tags` returns the meta tags of the page |
| LiveMeta.OgEntries | live_aliexpress_scraper.py:583-588 | every OpenGraph entry is keyed `og_` plus something and holds a non-empty content |
| LiveMeta.NamedEntries | live_aliexpress_scraper.py:603-607 | only `description`, `keywords` and `author` are read from named meta tags, and a found tag is stored even without content |
| LiveMeta.AppLinksPresence | live_aliexpress_scraper.py:591-600 | `app_links` is present exactly when some app-link tag was kept, and the OpenGraph entries survive beside it |
| LiveScripts.ExtractJavascriptData | live_aliexpress_scraper.py:545-575 | `_extract_javascript_data` returns the objects assigned in the page's scripts |
| LiveScripts.ScriptJsEntry | live_aliexpress_scraper.py:563-570 | a script assigns an object exactly when its pattern matches, and then the parsed JSON or the raw capture is stored |
| LiveScripts.ScriptJsKeys | live_aliexpress_scraper.py:556-561 | one script yields only the four object names |
| LiveScripts.JsKeys | live_aliexpress_scraper.py:552-570 | only the four object names are ever stored |
| LiveScripts.JsLastScriptWins | live_aliexpress_scraper.py:552-570 | the last script assigning an object decides its value: the parsed JSON, or the raw capture when it is not valid JSON |
| LiveScripts.ObjectAbsentLater | live_aliexpress_scraper.py:564-565 | a script whose text does not assign an object contributes nothing under its name |
| LiveScripts.RawFallback | live_aliexpress_scraper.py:568-570 | a capture that is not valid JSON is kept as text |
| LiveSeller.BuildSeller | live_aliexpress_scraper.py:505-538 | `seller_info` is assembled from link, rating, followers and years as `SellerOf` describes |
| LiveSeller.ExtractSellerInfo | live_aliexpress_scraper.py:503-543 | `_extract_seller_info` returns the seller information of the page |
| LiveSeller.StoreNameNeedsLink | live_aliexpress_scraper.py:509-517 | `store_url` is stored exactly when a store link is found, and `store_name` only with it |
| LiveSeller.StoreNameFromLinkText | live_aliexpress_scraper.py:516-517 | a link with no name element but with text stores that text stripped, even when it strips to nothing |
| LiveSeller.SellerValues | live_aliexpress_scraper.py:520-538 | followers and years are stored as integers and the rating as a float, each exactly when it was read |
| LiveSeller.SellerNumbers | live_aliexpress_scraper.py:527-538 | followers are stored exactly when the element is found and its text holds a digit; counts and rating are never negative |
| LiveShipping.DeliveryCascade | live_aliexpress_scraper.py:424-434 | the first delivery pattern that finds a non-empty string decides the delivery time (that string stripped); later patterns are not tried |
| LiveShipping.MethodText | live_aliexpress_scraper.py:451-453 | a shipping method kept is never empty |
| LiveShipping.MethodsSpec | live_aliexpress_scraper.py:447-454 | `shipping_methods` is set exactly when a method element is found, and holds exactly the non-empty method texts |
| LiveShipping.CollectMethods | live_aliexpress_scraper.py:447-454 | the loop over the method elements gives `MethodsOf` |
| LiveShipping.BuildShipping | live_aliexpress_scraper.py:413-454 | `shipping_info` is assembled from its five sources as `ShippingOf` describes |
| LiveShipping.ExtractShipping | live_aliexpress_scraper.py:411-459 | `_extract_shipping_info` returns the shipping information of the page |
| LiveShipping.ShippingKeys | live_aliexpress_scraper.py:413-454 | only the five shipping keys; `delivery_time` and `shipping_methods` exactly when found, the methods as a list of strings |
| LiveSpecs.RowEntrySpec | live_aliexpress_scraper.py:472-477 | a row yields an entry exactly when it has two cells whose stripped texts are non-empty: the first cell's text mapped to the second's |
| LiveSpecs.AddRows | live_aliexpress_scraper.py:470-477 | the inner loop writes each row's entry into `specs`, a later row replacing an equal key |
| LiveSpecs.CollectTableSpecs | live_aliexpress_scraper.py:467-477 | the loop over the specification tables merges the rows of every table in order |
| LiveSpecs.TableSpecsEntries | live_aliexpress_scraper.py:469-477 | every table entry has a non-empty name and a non-empty text |
| LiveSpecs.CollectPairs | live_aliexpress_scraper.py:490-496 | the loop over the first ten pairs of one pattern gives `PatternSpecs` |
| LiveSpecs.DescriptionEntries | live_aliexpress_scraper.py:484-496 | every description entry has a name shorter than 50 and a value shorter than 200 characters, whatever the text and the regular-expression engine |
| LiveSpecs.ExtractSpecifications | live_aliexpress_scraper.py:461-501 | `_extract_specifications` returns the specifications of the page |
| LiveSpecs.SpecsEntries | live_aliexpress_scraper.py:469-496 | every entry is a table entry or a description entry, and a name the description yields takes the description's value |
| LiveVariations.BuildOption | live_aliexpress_scraper.py:775-793 | an option's mapping is built from its image, text and classes as `OptionOf` describes |
| LiveVariations.OptionKept | live_aliexpress_scraper.py:775-796 | an option is kept exactly when it has an image, a non-empty text, or a selected or sold-out class |
| LiveVariations.AxisNameClean | live_aliexpress_scraper.py:768 | an axis name holds no `:` and no surrounding whitespace |
| LiveVariations.ParseVariationItem | live_aliexpress_scraper.py:760-804 | `_parse_variation_item` returns the axis of one variation item |
| LiveVariations.AxisEmitted | live_aliexpress_scraper.py:766-799 | an axis is emitted exactly when the item has a title and a kept option; its name is then the only key, mapped to the options |
| LiveVariations.OptionsKept | live_aliexpress_scraper.py:772-796 | no more options are kept than there are option elements, and none exactly when no element has anything |
| LiveVariations.MergeVariationItems | live_aliexpress_scraper.py:320-325 | the loop merges the axes of the variation items in order, a later item replacing an equal name |
| LiveVariations.FinishVariations | live_aliexpress_scraper.py:328-338 | after the axes, `current_selection` and then `max_quantity`, which may raise, as `VariationsOf` describes |
| LiveVariations.ExtractProductVariations | live_aliexpress_scraper.py:312-343 | `_extract_product_variations` returns the variations of the page, or what it had built when `int(max)` raised |
| LiveVariations.PartialOnFault | live_aliexpress_scraper.py:336-343 | a `max` that is not an integer aborts the step: the axes and the current selection are kept, `max_quantity` is not |
| LiveVariations.MaxQuantityStored | live_aliexpress_scraper.py:333-338 | an integer `max` is stored as `max_quantity` |
| LiveRecord.ExtractProduct | live_aliexpress_scraper.py:141-145 | the five product sections are the results of their extractors |
| LiveRecord.ExtractContext | live_aliexpress_scraper.py:146-150 | the five context sections are the results of their extractors |
| LiveRecord.ExtractAllData | live_aliexpress_scraper.py:137-153 | `_extract_all_data` returns the record of the page |
| LiveRecord.RecordKeysOnly | live_aliexpress_scraper.py:139-153 | every key of a record is one of the thirteen |
| LiveRecord.RecordKeysPresent | live_aliexpress_scraper.py:139-153 | each of the thirteen keys is present, however little the page yields |
| LiveRecord.RecordSections | live_aliexpress_scraper.py:139-150 | the URL is stored as given and each extractor section is stored as a mapping |
| LiveRecord.LiveScraper.constructor | live_aliexpress_scraper.py:48 | a new scraper keeps an empty record |
| LiveRecord.LiveScraper.ScrapeProduct | live_aliexpress_scraper.py:99-135 | when the page loads, the record is built, kept and returned; when loading fails, `{}` is returned and the kept record is untouched |
| OfflineBasic.ExtractStoreInfo | comprehensive_scraper.py:312-332 | `extract_store_info` returns the store mapping of the page |
| OfflineBasic.StoreSpec | comprehensive_scraper.py:314-325 | the store mapping is empty exactly when there is no store link; `store_url` is the link's `href` (empty when missing); `store_name` only from inside the link; no other key |
| OfflineBasic.BuildBasicInfo | comprehensive_scraper.py:44-66 | `basic_info` is assembled from title, id, category and store as `BasicInfoOf` describes |
| OfflineBasic.ExtractBasicInfo | comprehensive_scraper.py:42-71 | `extract_basic_info` returns the basic info of the page |
| OfflineBasic.BasicInfoKeys | comprehensive_scraper.py:48-66 | category is always "Electronics"; `store` exactly when the store mapping is not empty; title and id exactly when found; no other key |
| OfflineBasic.CategoryIgnoresPage | comprehensive_scraper.py:334-341 | any two pages get the same category, "Electronics" |
| OfflineBasic.ProductIdDigits | comprehensive_scraper.py:53-58 | a product id is a non-empty run of digits from the `og:url` content |
| OfflinePricing.ReadCurrentPrice | comprehensive_scraper.py:78-87 | the current price is the main lookup's text, or the alternative lookup's when the first is missing or empty |
| OfflinePricing.ExtractPricing | comprehensive_scraper.py:73-107 | `extract_pricing` returns the pricing of the page |
| OfflinePricing.PriceFallback | comprehensive_scraper.py:84-87 | a non-empty first price ignores the alternative; a missing or empty one is replaced by a found alternative; no price only when neither lookup found an element |
| OfflinePricing.TaxPatternIsWord | comprehensive_scraper.py:100 | the pattern `Cena bez podatku\|bez podatku` matches exactly the strings containing "bez podatku" |
| OfflinePricing.BulkNeedsMarker | comprehensive_scraper.py:90-92 | a bulk price is stored exactly when the first bulk-coloured span mentions "za szt" |
| OfflinePricing.PricingKeys | comprehensive_scraper.py:75-102 | each of the four keys is present exactly when its source gave a value; no `currency` is derived |
| OfflineReviews.ParseIndividualReview | comprehensive_scraper.py:143-158 | one review element's mapping from its reviewer line, text and SKU line |
| OfflineReviews.EmptyReview | comprehensive_scraper.py:143-161 | a review is empty, and so dropped, exactly when none of its three parts was found; only those three keys |
| OfflineReviews.ParseReviews | comprehensive_scraper.py:142-161 | the loop keeps the non-empty parses of the elements it is given, in order |
| OfflineReviews.ExtractReviewsAndRatings | comprehensive_scraper.py:109-169 | `extract_reviews_and_ratings` returns the reviews and ratings of the page |
| OfflineReviews.ReviewCap | comprehensive_scraper.py:139-164 | at most ten reviews are kept, each the non-empty parse of one of the first ten review elements, and each such parse is kept |
| OfflineReviews.ReviewProbeSpec | comprehensive_scraper.py:160-161 | a review element contributes exactly when its parse is non-empty, and then that parse |
| OfflineReviews.CountSpec | comprehensive_scraper.py:123-136 | a count is present exactly when its element is found and its text has digits, and it is never negative |
| OfflineImages.ExtractImages | comprehensive_scraper.py:224-264 | `extract_images` returns the images of the page |
| OfflineImages.ScriptKeys | comprehensive_scraper.py:235-254 | `gallery_images` comes from the scripts exactly when some script's array parsed; only the two array keys come from them |
| OfflineImages.ImagesKeys | comprehensive_scraper.py:226-259 | the gallery comes from the scripts alone; main and OpenGraph images exactly when their tags are found; only four keys |
| OfflineImages.MainImageMayBeEmpty | comprehensive_scraper.py:230-232 | an image tag without `src` gives the empty main image, where the live scraper gives none |
| OfflineMeta.ExtractMetaTags | comprehensive_scraper.py:375-400 | `extract_meta_tags` returns the meta tags of the page |
| OfflineMeta.OgKeyOf | comprehensive_scraper.py:385 | replacing `:` in `og:<name>` for a name without `:` gives `og_<name>` |
| OfflineMeta.NoColonUnchanged | comprehensive_scraper.py:385 | a string without `:` is unchanged by the replacement |
| OfflineMeta.OgKeyAt | comprehensive_scraper.py:381-385 | the five listed tags give `og_title`, `og_description`, `og_image`, `og_url`, `og_type` |
| OfflineMeta.OgEntryKey | comprehensive_scraper.py:383-385 | a listed tag contributes at most its own key |
| OfflineMeta.OgEntries | comprehensive_scraper.py:381-385 | only the five listed properties are read, each stored as `og_<name>` |
| OfflineMeta.AppLinksPresence | comprehensive_scraper.py:388-395 | `app_links` is there exactly when some `al:` tag exists, holding the tags' non-empty entries; the OpenGraph entries survive |
| OfflineMeta.EmptyAppLinks | comprehensive_scraper.py:389-395 | one `al:` tag without content gives an empty `app_links`, while the live scraper stores none |
| OfflineScripts.ExtractJavascriptData | comprehensive_scraper.py:343-373 | `extract_javascript_data` returns the parsed objects of the page's scripts |
| OfflineScripts.EntryPresence | comprehensive_scraper.py:349-357 | an entry is there exactly when some script's capture parses; a capture that does not parse leaves no trace |
| OfflineScripts.LastParsedWins | comprehensive_scraper.py:350-357 | the last script whose capture parses decides the value |
| OfflineScripts.ScriptKeys | comprehensive_scraper.py:349-368 | only `runParams` and `DCData` are stored, `DCData` from the second loop alone |
| OfflineScripts.NoRawFallback | comprehensive_scraper.py:353-357 | a `runParams` capture that is not JSON is dropped, where the live scraper keeps the text |
| OfflineShipping.Texts | comprehensive_scraper.py:297 | one stripped text per description element, in order |
| OfflineShipping.CollectPolicies | comprehensive_scraper.py:290-302 | the loop keeps the policies of the items that have a title |
| OfflineShipping.PolicySpec | comprehensive_scraper.py:291-302 | an item gives a policy exactly when it has a title element; the policy holds the title and all description texts in order |
| OfflineShipping.PoliciesSpec | comprehensive_scraper.py:287-302 | no more policies than items; each policy comes from one item and no titled item is lost |
| OfflineShipping.NoPolicies | comprehensive_scraper.py:304-305 | no policies exactly when no shipping item has a title element |
| OfflineShipping.ExtractShipping | comprehensive_scraper.py:266-310 | `extract_shipping_info` returns the shipping information of the page |
| OfflineShipping.ShippingKeys | comprehensive_scraper.py:268-305 | only the four keys, each present exactly when its source gave something; `policies` needs a titled item |
| OfflineVariations.BuildOption | comprehensive_scraper.py:192-206 | an option's mapping is built from its image and classes as `OptionOf` describes |
| OfflineVariations.OptionKept | comprehensive_scraper.py:192-209 | an option is kept exactly when it has an image or one of the two exact flag classes; `selected`/`sold_out` need the exact class; no text is stored |
| OfflineVariations.SelectedIsExact | comprehensive_scraper.py:201-202 | a class that merely contains "selected" does not mark an option here, while it does for the live scraper |
| OfflineVariations.AxisNameNoColon | comprehensive_scraper.py:185 | an axis name holds no `:` |
| OfflineVariations.AxisNameNotRestripped | comprehensive_scraper.py:185 | a title "XL :" gives the axis "XL " here and "XL" in the live scraper |
| OfflineVariations.ParseVariationItem | comprehensive_scraper.py:183-212 | the axis of one variation item: its name mapped to its kept options, when it has a title and an option |
| OfflineVariations.MergeVariationItems | comprehensive_scraper.py:179-212 | the loop merges the axes of the variation items in order |
| OfflineVariations.ExtractProductVariations | comprehensive_scraper.py:171-222 | `extract_product_variations` returns the variations of the page |
| OfflineVariations.OptionsKept | comprehensive_scraper.py:189-209 | the options kept are exactly those of option elements that have something, no more than there are elements |
| OfflineVariations.SelectionOverAxes | comprehensive_scraper.py:215-217 | the current selection is stored over an axis of that name; every other axis is kept; no `max_quantity` is added |
| OfflineRecord.ExtractProduct | comprehensive_scraper.py:411-414 | the four product sections are the results of their extractors |
| OfflineRecord.ExtractContext | comprehensive_scraper.py:415-418 | the four context sections are the results of their extractors |
| OfflineRecord.ExtractAllData | comprehensive_scraper.py:410-420 | the record of a loaded page |
| OfflineRecord.RecordKeysOnly | comprehensive_scraper.py:410-420 | every key of a record is one of the nine |
| OfflineRecord.RecordKeysPresent | comprehensive_scraper.py:410-420 | each of the nine keys is present, however little the page yields |
| OfflineRecord.RecordSections | comprehensive_scraper.py:410-420 | each section is stored as a mapping and the timestamp as given |
| OfflineRecord.NarrowerThanLive | comprehensive_scraper.py:410-420 | no `url`, `specifications`, `seller_info` or `page_language`; its nine keys are a proper subset of the live record's |
| OfflineRecord.ProductScraper.constructor | comprehensive_scraper.py:25-29 | a new scraper has no parsed page and an empty record |
| OfflineRecord.ProductScraper.LoadHtml | comprehensive_scraper.py:31-40 | success exactly when the file parsed; then the parse is kept; on failure nothing changes |
| OfflineRecord.ProductScraper.ScrapeAll | comprehensive_scraper.py:402-423 | when loading fails `{}` is returned and nothing changes; otherwise the record of the loaded page is built, kept and returned |
| Strings.FirstDigits | live_aliexpress_scraper.py:529-531 | `re.search(r'(\d+)', s)` finds nothing exactly when `s` has no digit; otherwise its group is a non-empty run of digits |
| Strings.FirstNumber | live_aliexpress_scraper.py:522-524 | `(\d+(?:\.\d+)?)` matches exactly when the text has a digit, and the number read is never negative |
| Strings.FirstInteger | live_aliexpress_scraper.py:529-531 | `int()` of the first digit run is there exactly when the text has a digit, and is never negative |
| Strings.PyInt | live_aliexpress_scraper.py:336-338 | Python's `int()` of a string only succeeds on text holding a digit |
| NumberText.Clean | data_analyzer.py:423 | the filter keeps only digits, `.`, `K`, `M`, `k`, `m`, and never lengthens the text |
| NumberText.SplitSuffix | data_analyzer.py:426-432 | the multiplier is at least one and removing the suffix never lengthens the text |
| NumberText.ReadCleaned | data_analyzer.py:434-437 | a number read from the filtered text is never negative |
| NumberText.NumberFromText | data_analyzer.py:417-437 | empty text gives None, and any number read is never negative |
| NumberText.CleanAppend | data_analyzer.py:423 | the filter works character by character: filtering a concatenation concatenates the filtered parts |
| NumberText.CleanKeepsKept | data_analyzer.py:423 | text made only of kept characters passes the filter unchanged |
| NumberText.CleanDropsRest | data_analyzer.py:423 | text without a kept character filters to nothing |
| NumberText.CleanIdempotent | data_analyzer.py:423 | filtering twice is filtering once |
| NumberText.CleanInside | data_analyzer.py:423 | every character kept comes from the text |
| NumberText.IgnoresNoise | data_analyzer.py:419-437 | inserting a character the filter drops never changes the number read |
| NumberText.ParseDecimalSpec | data_analyzer.py:435 | `float()` of the filtered text succeeds exactly on digits and dots with at most one dot and at least one digit |
| NumberText.DigitsParse | data_analyzer.py:435 | a non-empty run of digits reads as its decimal value |
| NumberText.NumberFromCleaned | data_analyzer.py:419-423 | non-empty text reads as its filtered text does |
| NumberText.SuffixRead | data_analyzer.py:426-435 | filtered text of digits and one suffix letter reads as their value times the multiplier |
| NumberText.DigitsRead | data_analyzer.py:417-437 | a plain run of digits reads as its value |
| NumberText.ThousandsRead | data_analyzer.py:427-429 | digits followed by `k` or `K` read as a thousand times their value |
| NumberText.MillionsRead | data_analyzer.py:430-432 | digits followed by `m` or `M` read as a million times their value |
| NumberText.NoDigitNone | data_analyzer.py:434-437 | text without a digit reads as nothing |
| NumberText.SeparatorDropped | data_analyzer.py:423 | any separator between two digit runs is dropped: the number is the value of the joined digits |
| NumberText.ThousandsSeparator | data_analyzer.py:423 | `"1,234"` reads as 1234 |
| NumberText.FractionWithSuffix | data_analyzer.py:426-435 | the fraction counts before truncation: `"12.5k"` reads as 12500 |
| NumberText.OneSuffixOnly | data_analyzer.py:427-432 | only one suffix letter is removed: `"5km"` does not read |
| NumberText.NotAvailable | data_analyzer.py:423-437 | `"N/A"` filters to the empty text, which does not read |
| NumberText.NatText | data_analyzer.py:423 | `str()` of a natural number is a non-empty run of digits whose value is the number |
| NumberText.IntTextRead | data_analyzer.py:419-437 | a non-zero int passed in place of text reads back as its magnitude, the sign being filtered out |
| NumberText.SignDropped | data_analyzer.py:423 | a leading minus sign is filtered out |
| Buckets.PriceBucket | data_analyzer.py:379-390 | every price lands in one of the six buckets |
| Buckets.RatingBucket | data_analyzer.py:402-413 | every rating lands in one of the six buckets |
| Buckets.PriceBucketSpec | data_analyzer.py:379-390 | price bucket k is exactly the half-open interval from the previous bound (inclusive) to its own (exclusive) |
| Buckets.RatingBucketSpec | data_analyzer.py:402-413 | rating bucket k is exactly the interval from its own threshold (inclusive) up to the previous one (exclusive) |
| Buckets.PriceCountsSum | data_analyzer.py:373-392 | the six price counts add up to the number of prices |
| Buckets.RatingCountsSum | data_analyzer.py:396-415 | the six rating counts add up to the number of ratings |
| Buckets.CategorizePrices | data_analyzer.py:371-392 | the result has exactly the six price labels, each mapped to the number of prices in its bucket |
| Buckets.CategorizeRatings | data_analyzer.py:394-415 | the result has exactly the six rating labels, each mapped to the number of ratings in its bucket |
| Counting.CounterItemsSpec | data_analyzer.py:91 | `dict(Counter(xs))` has one entry per distinct value, with its exact count, and nothing else |
| Counting.MostCommonEntries | data_analyzer.py:454 | `most_common(n)` lists at most n distinct values of the input, each with its exact count |
| Counting.MostCommonOrder | data_analyzer.py:454 | `most_common(n)` lists the most frequent first |
| Counting.MostCommonTop | data_analyzer.py:454 | a value left out occurs no more often than any value listed |
| Counting.MostCommonComplete | data_analyzer.py:454 | fewer than n entries are listed only when every distinct value is |
| Counting.MostCommonTieOrder | data_analyzer.py:454 | entries with equal counts are listed in order of first occurrence in the input |
| Counting.MostCommonTieLeftOut | data_analyzer.py:454 | a value left out with the same count as a listed entry first occurs after that entry's value |
| Keywords.WordsSound | data_analyzer.py:451 | every match of `\b[a-zA-Z]{3,}\b` is three or more ASCII letters standing in the text with no word character on either side |
| Keywords.WordsComplete | data_analyzer.py:451 | every run of three or more letters standing alone in the text is a match |
| Keywords.DigitAdjacentIsNoWord | data_analyzer.py:451 | a digit right after letters keeps them from being a word: `"abc1"` has none |
| Keywords.CollectWords | data_analyzer.py:447-452 | the loop gathers the non-stop-word words of every non-empty title, in order |
| Keywords.ExtractCommonKeywords | data_analyzer.py:439-454 | the keywords are the most common of the gathered words, with their counts |
| Keywords.TitleWordsAreKeywords | data_analyzer.py:442-452 | every word a title contributes is three or more lower-case ASCII letters and not a stop word |
| Keywords.AllWordsAreKeywords | data_analyzer.py:447-452 | every gathered word is such a keyword |
| Keywords.KeywordsSpec | data_analyzer.py:439-454 | at most `top_n` keywords, each a keyword with the number of times it occurs in the titles, none listed twice |
| Keywords.KeywordsTop | data_analyzer.py:454 | a word of the titles left out occurs no more often than any listed keyword |
| PyValues.Truncate | data_analyzer.py:251 | `int()` of a float rounds toward zero |
| PyValues.ReadPercent | data_analyzer.py:241-246 | a falsy value reads as nothing; a truthy non-string raises AttributeError (not caught); a string is read by `float()` |
| PyValues.PercentIgnoresSign | data_analyzer.py:243 | a string percentage is read without any of its `%` signs |
| PyValues.IntFollowers | data_analyzer.py:257-261 | a non-zero int follower count reads as its magnitude |
| PricingReport.CurrentFromDict | data_analyzer.py:71-77 | a currency is counted only with a price, and only when it can be a `Counter` key; a price needs a truthy `value` |
| PricingReport.Min | data_analyzer.py:97 | `min` is one of the values and no value is smaller |
| PricingReport.Max | data_analyzer.py:98 | `max` is one of the values and no value is larger |
| PricingReport.ScanFailureStays | data_analyzer.py:66-86 | an exception in the first i products is the outcome of the whole loop |
| PricingReport.ScanProducts | data_analyzer.py:62-86 | the loop computes the scan with the corrected current-price reading |
| PricingReport.AnalyzePricing | data_analyzer.py:60-113 | `analyze_pricing` gives the corrected analysis of the loaded products |
| PricingReport.ScanBounds | data_analyzer.py:66-86 | at most one price and one discount per product, and every counted currency came with a price |
| PricingReport.PricingSpec | data_analyzer.py:88-111 | the total is the number of prices read; the statistics are empty exactly when nothing was read; min and max are read values bounding all others; the discount count is the number of discounts |
| PricingReport.PriceRangesTotal | data_analyzer.py:95-101 | the six price ranges count every price once |
| PricingReport.CurrencyDistribution | data_analyzer.py:75-91 | each counted currency appears once in the distribution with the number of prices counted in it |
| PricingReport.CorrectedAgrees | data_analyzer.py:66-86 | whenever the code as written gets through the products, the corrected reading gets exactly the same |
| PricingReport.ReadableRead | data_analyzer.py:67-86 | the corrected reading gets through a product exactly when it is readable |
| PricingReport.CorrectedFailsOnlyOnMalformed | data_analyzer.py:66-86 | the corrected loop fails exactly when some product is not readable |
| PricingReport.StringPriceFails | data_analyzer.py:70-71 | as written, a product whose `current_price` is a string raises AttributeError |
| PricingReport.StringPriceEndsAnalysis | data_analyzer.py:66-71 | as written, one such product anywhere ends the whole analysis with AttributeError |
| PricingReport.ScrapedPricing | data_analyzer.py:67-83 | a record with a string current price and no discount percentage fails as written and contributes nothing when corrected |
| PricingReport.LivePriceIsString | live_aliexpress_scraper.py:205-209 | the live scraper stores a found current price as a string, and no `discount_percentage` |
| PricingReport.OfflinePriceIsString | comprehensive_scraper.py:79-87 | the offline scraper stores a found current price as a string, and no `discount_percentage` |
| PricingReport.LiveRecordPricing | data_analyzer.py:67-71 | a live record with a current price makes the analysis as written raise AttributeError; the corrected reading takes nothing from it |
| PricingReport.OfflineRecordPricing | data_analyzer.py:67-71 | the same for an offline record |
| SellerReport.NonZero | data_analyzer.py:260-261 | a follower count is kept exactly when it is non-zero |
| SellerReport.ScanFailureStays | data_analyzer.py:237-268 | an exception in the first i products is the outcome of the whole loop |
| SellerReport.ScanProducts | data_analyzer.py:232-268 | the loop computes the seller scan |
| SellerReport.AnalyzeSellers | data_analyzer.py:230-298 | `analyze_seller_data` gives the seller analysis of the loaded products |
| SellerReport.NamesKnown | data_analyzer.py:265-268 | no seller counted is `'Unknown'`, and each can be a `Counter` key |
| SellerReport.TopSellers | data_analyzer.py:274 | at most ten sellers, none `'Unknown'`, each once and with the number of products naming it |
| SellerReport.TopSellersAreMostFrequent | data_analyzer.py:274 | a seller left out was named no more often than any seller listed |
| SellerReport.ThresholdCounts | data_analyzer.py:277-296 | each threshold count is absent only when no value was read, and never exceeds the values read; follower counts are positive |
| SellerReport.ScanBounds | data_analyzer.py:237-268 | at most one value of each kind per product; follower counts are positive |
| SellerReport.LiveSellerRead | data_analyzer.py:238-268 | a live seller section reads as no rating, its years, its followers' magnitude when non-zero, and no name |
| SellerReport.LiveSellerKeys | live_aliexpress_scraper.py:505-538 | the live seller section has no `rating` and no `name` key; followers and years are ints when present |
| SellerReport.UnnamedSellersNotRanked | data_analyzer.py:241-274 | over records without `rating` and `name` the analysis gets through with no rating statistics and an empty `top_sellers` |

## Left out

- The page fetcher is not modelled: Selenium navigation, waits, scrolling, sleeping and the
  driver setup. The parsed page and the driver's current URL are inputs. When the page cannot
  be loaded, the input `page` is None.
- File and console I/O are not modelled: reading the HTML file (its outcome is the input of
  `LoadHtml`), `save_to_json`, `print_summary` and every `print`. The timestamp
  `datetime.now().isoformat()` is an input.
- The HTML parser, CSS selector matching, general regular-expression search and `findall`, and
  `json.loads` are not computed. They are parameters. The gallery and script patterns, the
  delivery patterns and the specification patterns are therefore only proved up to these
  functions.
- Selector matching is blind to position. `Engine.matches` sees an element and what lies
  below it, never its ancestors, and two equal elements in different places match alike. The
  parser's matcher is therefore not one of the engines the model ranges over wherever a
  selector has a descendant combinator, which decides by ancestors: `.title--wrap--UUHae_g h1`
  (title), `[data-pl="product-price"] .price--current--I3Zeidd span` (price),
  `.breadcrumb a, .nav-breadcrumb a` (category), `.product-main-image img`, `.main-image img`,
  `.image-gallery img, .product-images img` and `video source` (images), `.review-image img`
  (review images), and `.product-specs table, .specifications table, .product-props table`
  (specifications). For example, on `<img src="b"><div class="image-gallery"><img src="a">
  <img src="b"></div>` the source stores the gallery `["a", "b"]`, which no engine of the model
  gives. Selectors on an element's own tag, classes and attributes are not affected.
- Text strings inside an element that itself lies within a `template`, `script` or `style`
  element: the parser gives them the container's string class, so `get_text()` on that inner
  element returns nothing. A model element does not know its ancestors and reads them as
  ordinary text. HTML comments are not part of the page model.
- Python floats are modelled as exact reals: no rounding, NaN, infinity or OverflowError. So
  `int(float(x) * m)` in `_extract_number_from_text` is exact, and `Truncate` is exact.
- `str.lower()`, `\d` and `int()` of a string are modelled on ASCII only: Python's `int()`
  also accepts every other Unicode decimal digit (`int('٣') == 3`), which `Strings.PyInt` (used
  for `max_quantity` and `years_in_business`) rejects. Whether a non-ASCII character is a word
  character for `\b` is a parameter (`unicodeWord`).
- `str()` of a float, a bool or a container is a parameter of the analyzer model (`Py.text`),
  and so is `float()` of a string (`Py.floatOf`).
- Python treats `1`, `1.0` and `True` as the same `Counter` key. The model counts them apart.
  Dict key order is not modelled for mappings. The analyzer's ordered results (currency
  distribution, top sellers, keywords) are sequences in insertion order.
- `statistics.mean` and `statistics.median` are left out: floating-point averages. This covers
  `average_price`, `median_price`, `average_discount`, the average and median seller
  statistics, and `discount_percentage`, which is a float division.
- Other analyzer parts are left out: `analyze_ratings_and_reviews`,
  `analyze_categories_and_products` (except the keyword extraction it calls),
  `generate_comprehensive_report`, `save_report`, `print_summary` and `main`.
- `load_scraped_data` is left out as file I/O. It reads every `product_*.json` file of the data
  directory, skips a file that fails to open or parse, and returns the count. The analyzer
  model takes the list of loaded records as its input.
- `scraper_manager.py`, `batch_scraper.py`, `ali-scrape.py` and `test.py` are left out as
  orchestration and menus around the core.
- Buckets.PriceBucket: states only that a bucket exists. The exact intervals are proved
  separately in `Buckets.PriceBucketSpec`.
- Buckets.RatingBucket: states only that a bucket exists. The exact intervals are proved
  separately in `Buckets.RatingBucketSpec`.
- NumberText.NumberFromText: its own contract states only emptiness and sign. The readings of
  digits, suffixes, separators and signs are separate lemmas.
- Strings.PyInt: states only that a success needs a digit. Its exact accepted syntax is its
  definition, which is not restated as a lemma.

## Findings

| source | as written | input that shows it | evidently intended | confidence | as-written member | corrected member |
|---|---|---|---|---|---|---|
| data_analyzer.py:69-71 | `analyze_pricing` calls `current_price.get('value')`, but both scrapers store `current_price` as a string, so AttributeError escapes and the whole pricing analysis fails | a loaded record `{"pricing": {"current_price": "US $12.34"}}`, as either scraper writes it | a current price that is not a mapping is skipped like a missing one, and the analysis goes on | not executed | PricingReport.StringPriceEndsAnalysis | PricingReport.CorrectedFailsOnlyOnMalformed |
