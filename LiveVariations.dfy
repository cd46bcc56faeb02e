/**
 * Product variations of the live scraper: the option lists per variation axis, the current
 * selection, and the maximum quantity read from the quantity input.
 */
module LiveVariations {
  import opened Values
  import opened Strings
  import opened Sequences
  import opened Document

  const SkuWrapperSelector: Selector := ".sku--wrap--xgoW06M, .product-sku, .sku-wrap"
  const SkuItemSelector: Selector := ".sku-item--wrap--t9Qszzx, .sku-item"
  const AxisTitleSelector: Selector := ".sku-item--title--Z0HLO87, .variation-title"
  const OptionSelector: Selector := "[data-sku-col], .variation-option"
  const CurrentSelectionSelector: Selector := ".sku--menuTitle--UIEMJcG, .current-sku"
  const QuantitySelector: Selector := ".quantity-selector, input[name*=\"quantity\"]"

  // ---------------------------------------------------------------------------------------------
  // One option

  /** Some class name of the element contains `sub`. */
  predicate AnyClassContains(classes: seq<string>, sub: string)
  {
    classes != [] && (Contains(classes[0], sub) || AnyClassContains(classes[1..], sub))
  }

  predicate IsSoldOut(classes: seq<string>)
  {
    AnyClassContains(classes, "soldOut") || AnyClassContains(classes, "sold-out")
  }

  /** An option's mapping from its image, its stripped text and its classes. */
  function OptionOf(img: Option<Node>, text: string, classes: seq<string>): Mapping
  {
    var m0 := if img.Some? then map["image" := Str(AttrOr(img.value, "src", "")),
                                    "alt_text" := Str(AttrOr(img.value, "alt", ""))]
              else map[];
    var m1 := Put(m0, "text", if text != [] then Some(Str(text)) else None);
    var m2 := Put(m1, "selected", if AnyClassContains(classes, "selected") then Some(Bool(true)) else None);
    Put(m2, "sold_out", if IsSoldOut(classes) then Some(Bool(true)) else None)
  }

  method BuildOption(img: Option<Node>, text: string, classes: seq<string>) returns (option: Mapping)
    ensures option == OptionOf(img, text, classes)
  {
    option := map[];
    if img.Some? {
      option := option["image" := Str(AttrOr(img.value, "src", ""))];
      option := option["alt_text" := Str(AttrOr(img.value, "alt", ""))];
    }
    if text != [] {
      option := option["text" := Str(text)];
    }
    if AnyClassContains(classes, "selected") {
      option := option["selected" := Bool(true)];
    }
    if IsSoldOut(classes) {
      option := option["sold_out" := Bool(true)];
    }
  }

  function OptionProbe(eng: Engine): Node -> Option<Value>
  {
    option => NonEmptyDict(OptionOf(SelectOne(eng, option, "img"), StrippedText(option), ClassesOf(option)))
  }

  /** An option is kept exactly when it has an image, non-empty text, or a selected or sold-out class. */
  lemma OptionKept(img: Option<Node>, text: string, classes: seq<string>)
    ensures OptionOf(img, text, classes) != map[] <==>
      img.Some? || text != [] || AnyClassContains(classes, "selected") || IsSoldOut(classes)
  {
    var m := OptionOf(img, text, classes);
    if img.Some? {
      assert "image" in m;
    } else if text != [] {
      assert "text" in m;
    } else if AnyClassContains(classes, "selected") {
      assert "selected" in m;
    } else if IsSoldOut(classes) {
      assert "sold_out" in m;
    }
  }

  // ---------------------------------------------------------------------------------------------
  // One axis

  /** The axis name: the title text with every `:` removed, then stripped. */
  function AxisName(title: string): string
  {
    Strip(ReplaceAll(title, ":", ""))
  }

  /** An axis name holds no `:` and no surrounding whitespace. */
  lemma AxisNameClean(title: string)
    ensures ':' !in AxisName(title)
    ensures AxisName(title) == [] || (!IsSpace(AxisName(title)[0]) && !IsSpace(AxisName(title)[|AxisName(title)| - 1]))
  {
    ReplaceCharRemoves(title, ':', "");
    StripIsInside(ReplaceAll(title, ":", ""));
  }

  /** The kept options of a variation item, in document order. */
  function Options(eng: Engine, item: Node): seq<Value>
  {
    Keep(Select(eng, item, OptionSelector), OptionProbe(eng))
  }

  /** The axis name of a title, when there is a title element. */
  function AxisNameOf(title: Option<string>): Option<string>
  {
    if title.Some? then Some(AxisName(title.value)) else None
  }

  /** A variation item's axis from its name and kept options: the name mapped to the options, if any. */
  function AxisOf(name: Option<string>, options: seq<Value>): Mapping
  {
    if name.Some? then Put(map[], name.value, NonEmptyList(options)) else map[]
  }

  function ParseVariation(eng: Engine, item: Node): Mapping
  {
    AxisOf(AxisNameOf(TextOfFirst(eng, item, AxisTitleSelector)), Options(eng, item))
  }

  method ParseVariationItem(eng: Engine, item: Node) returns (axis: Mapping)
    ensures axis == ParseVariation(eng, item)
  {
    axis := map[];
    var name := AxisNameOf(TextOfFirst(eng, item, AxisTitleSelector));
    if name.Some? {
      var options := Collect(Select(eng, item, OptionSelector), OptionProbe(eng));
      axis := Store(axis, name.value, NonEmptyList(options));
    }
  }

  /** An axis is emitted exactly when the item has a title and a kept option; its name is then the only key. */
  lemma AxisEmitted(name: Option<string>, options: seq<Value>)
    ensures AxisOf(name, options) != map[] <==> name.Some? && options != []
    ensures AxisOf(name, options) != map[] ==>
      (forall key :: key in AxisOf(name, options) <==> key == name.value) &&
      AxisOf(name, options)[name.value] == List(options)
  {
    if name.Some? && options != [] {
      assert name.value in AxisOf(name, options);
    }
  }

  /** The options kept are those of the option elements that have something, in document order. */
  lemma OptionsKept(eng: Engine, item: Node)
    ensures |Options(eng, item)| <= |Select(eng, item, OptionSelector)|
    ensures Options(eng, item) == [] <==>
      forall j :: 0 <= j < |Select(eng, item, OptionSelector)| ==> OptionProbe(eng)(Select(eng, item, OptionSelector)[j]).None?
  {
    KeepLength(Select(eng, item, OptionSelector), OptionProbe(eng));
    KeepEmpty(Select(eng, item, OptionSelector), OptionProbe(eng));
  }

  // ---------------------------------------------------------------------------------------------
  // All axes

  function ParseVariationFn(eng: Engine): Node -> Mapping
  {
    item => ParseVariation(eng, item)
  }

  /** The axes of the page: those of the items inside the first variation wrapper. */
  function Axes(eng: Engine, soup: Node): Mapping
  {
    match SelectOne(eng, soup, SkuWrapperSelector)
    case Some(wrapper) => MergeAll(Select(eng, wrapper, SkuItemSelector), ParseVariationFn(eng))
    case None => map[]
  }

  /** The quantity input's `max` attribute, when the quantity element is an input with a non-empty `max`. */
  function MaxQuantityText(eng: Engine, soup: Node): Option<string>
  {
    match SelectOne(eng, soup, QuantitySelector)
    case Some(q) => if TagOf(q) == "input" then NonEmptyAttr(q, "max") else None
    case None => None
  }

  /**
   * The variations mapping from its sources: the axes, then `current_selection`, then
   * `max_quantity` as `int(max)`; a `max` that `int` rejects raises, leaving what was built.
   */
  function VariationsOf(axes: Mapping, selection: Option<string>, maxText: Option<string>): Attempt
  {
    var m := Put(axes, "current_selection", StrOf(selection));
    match maxText
    case None => Completed(m)
    case Some(t) =>
      match PyInt(t)
      case Some(n) => Completed(m["max_quantity" := Int(n)])
      case None => Raised(m)
  }

  /** `product_variations`. */
  function Variations(eng: Engine, soup: Node): Mapping
  {
    Recovered(VariationsOf(Axes(eng, soup), TextOfFirst(eng, soup, CurrentSelectionSelector), MaxQuantityText(eng, soup)))
  }

  /** The loop merging the axes of the variation items. */
  method MergeVariationItems(eng: Engine, items: seq<Node>) returns (variations: Mapping)
    ensures variations == MergeAll(items, ParseVariationFn(eng))
  {
    variations := map[];
    var i := 0;
    while i < |items|
      invariant 0 <= i <= |items|
      invariant variations == MergeAll(items[..i], ParseVariationFn(eng))
    {
      MergeStep(items, i, ParseVariationFn(eng));
      var axis := ParseVariationItem(eng, items[i]);
      if axis != map[] {
        variations := variations + axis;
      } else {
        UpdateWithEmpty(variations, axis);
      }
      i := i + 1;
    }
    assert items[..|items|] == items;
  }

  /** Builds the mapping after the axes: `current_selection`, then `max_quantity`, which may raise. */
  method FinishVariations(axes: Mapping, selection: Option<string>, maxText: Option<string>) returns (a: Attempt)
    ensures a == VariationsOf(axes, selection, maxText)
  {
    var variations := Store(axes, "current_selection", StrOf(selection));
    if maxText.Some? {
      var n := PyInt(maxText.value);
      if n.None? {
        return Raised(variations);
      }
      variations := variations["max_quantity" := Int(n.value)];
    }
    a := Completed(variations);
  }

  method ExtractProductVariations(eng: Engine, soup: Node) returns (variations: Mapping)
    ensures variations == Variations(eng, soup)
  {
    var axes := map[];
    var wrapper := SelectOne(eng, soup, SkuWrapperSelector);
    if wrapper.Some? {
      axes := MergeVariationItems(eng, Select(eng, wrapper.value, SkuItemSelector));
    }
    var a := FinishVariations(axes, TextOfFirst(eng, soup, CurrentSelectionSelector), MaxQuantityText(eng, soup));
    variations := Recovered(a);
  }

  /**
   * A `max` attribute that is not an integer aborts the step, and what was built is kept: the
   * axes and the current selection are there, `max_quantity` is not.
   */
  lemma PartialOnFault(axes: Mapping, selection: Option<string>, maxText: Option<string>)
    requires "max_quantity" !in axes
    requires maxText.Some? && PyInt(maxText.value).None?
    ensures VariationsOf(axes, selection, maxText).Raised?
    ensures Recovered(VariationsOf(axes, selection, maxText)) == Put(axes, "current_selection", StrOf(selection))
    ensures "max_quantity" !in Recovered(VariationsOf(axes, selection, maxText))
    ensures forall name :: name in axes && name != "current_selection" ==>
      name in Recovered(VariationsOf(axes, selection, maxText)) &&
      Recovered(VariationsOf(axes, selection, maxText))[name] == axes[name]
  {
  }

  /** An integer `max` is stored as `max_quantity`, over whatever axis had that name. */
  lemma MaxQuantityStored(axes: Mapping, selection: Option<string>, maxText: Option<string>)
    requires maxText.Some? && PyInt(maxText.value).Some?
    ensures VariationsOf(axes, selection, maxText).Completed?
    ensures Recovered(VariationsOf(axes, selection, maxText))["max_quantity"] == Int(PyInt(maxText.value).value)
  {
  }
}
