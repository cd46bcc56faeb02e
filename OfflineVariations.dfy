/**
 * Product variations of the offline scraper: the option lists per variation axis and the current
 * selection.  Options are flagged by exact class names and carry no text.
 */
module OfflineVariations {
  import opened Values
  import opened Strings
  import opened Sequences
  import opened Document
  import opened OfflineQueries
  import LiveVariations

  const WrapperClass: string := "sku--wrap--xgoW06M"
  const ItemClass: string := "sku-item--wrap--t9Qszzx"
  const TitleClass: string := "sku-item--title--Z0HLO87"
  const SelectedClass: string := "sku-item--selected--ITGY_EO"
  const SoldOutClass: string := "sku-item--soldOut--YJfuCGq"
  const MenuTitleClass: string := "sku--menuTitle--UIEMJcG"

  // ---------------------------------------------------------------------------------------------
  // One option

  /** An option's mapping from its image and its class names. */
  function OptionOf(img: Option<Node>, classes: seq<string>): Mapping
  {
    var m0 := if img.Some? then map["image" := Str(AttrOr(img.value, "src", "")),
                                    "alt_text" := Str(AttrOr(img.value, "alt", ""))]
              else map[];
    var m1 := Put(m0, "selected", if SelectedClass in classes then Some(Bool(true)) else None);
    Put(m1, "sold_out", if SoldOutClass in classes then Some(Bool(true)) else None)
  }

  method BuildOption(img: Option<Node>, classes: seq<string>) returns (option: Mapping)
    ensures option == OptionOf(img, classes)
  {
    option := map[];
    if img.Some? {
      option := option["image" := Str(AttrOr(img.value, "src", ""))];
      option := option["alt_text" := Str(AttrOr(img.value, "alt", ""))];
    }
    if SelectedClass in classes {
      option := option["selected" := Bool(true)];
    }
    if SoldOutClass in classes {
      option := option["sold_out" := Bool(true)];
    }
  }

  function OptionProbe(): Node -> Option<Value>
  {
    option => if OptionOf(Find(option, TagTest("img")), ClassesOf(option)) != map[]
              then Some(Dict(OptionOf(Find(option, TagTest("img")), ClassesOf(option))))
              else None
  }

  /**
   * An option is kept exactly when it has an image or one of the two exact flag classes;
   * `selected` needs the exact class name, and no option text is ever stored.
   */
  lemma OptionKept(img: Option<Node>, classes: seq<string>)
    ensures OptionOf(img, classes) != map[] <==> img.Some? || SelectedClass in classes || SoldOutClass in classes
    ensures "selected" in OptionOf(img, classes) <==> SelectedClass in classes
    ensures "sold_out" in OptionOf(img, classes) <==> SoldOutClass in classes
    ensures "text" !in OptionOf(img, classes)
  {
    var m := OptionOf(img, classes);
    if img.Some? {
      assert "image" in m;
    } else if SelectedClass in classes {
      assert "selected" in m;
    } else if SoldOutClass in classes {
      assert "sold_out" in m;
    }
  }

  /** A class that merely contains "selected" marks an option selected for the live scraper, not here. */
  lemma SelectedIsExact()
    ensures "selected" !in OptionOf(None, ["is-selected"])
    ensures "selected" in LiveVariations.OptionOf(None, "", ["is-selected"])
  {
    assert "is-selected"[3..] == "selected";
    assert Contains("is-selected"[3..], "selected");
    assert Contains("is-selected"[2..], "selected");
    assert Contains("is-selected"[1..], "selected");
    assert "is-selected"[1..][1..] == "is-selected"[2..];
    assert "is-selected"[2..][1..] == "is-selected"[3..];
    assert Contains("is-selected", "selected");
    assert LiveVariations.AnyClassContains(["is-selected"], "selected");
  }

  // ---------------------------------------------------------------------------------------------
  // Axes

  /** The axis name: the stripped title text with every `:` removed, not stripped again. */
  function AxisNameOf(title: Option<string>): Option<string>
  {
    if title.Some? then Some(ReplaceAll(title.value, ":", "")) else None
  }

  /** An axis name holds no `:`. */
  lemma AxisNameNoColon(title: string)
    ensures ':' !in AxisNameOf(Some(title)).value
  {
    ReplaceCharRemoves(title, ':', "");
  }

  /** A title ending in " :" keeps its space here, where the live scraper strips it. */
  lemma AxisNameNotRestripped()
    ensures AxisNameOf(Some("XL :")).value == "XL "
    ensures LiveVariations.AxisName("XL :") == "XL"
  {
    ColonDropped();
    TrailingSpaceStripped();
  }

  lemma TrailingSpaceStripped()
    ensures Strip("XL ") == "XL"
  {
    var w := "XL";
    assert !IsSpace(w[0]) && !IsSpace(w[1]);
    StripTrailingSpace(w);
    assert w + " " == "XL ";
  }

  /** A word that neither starts nor ends with whitespace, followed by one space, strips to itself. */
  lemma StripTrailingSpace(w: string)
    requires w != [] && !IsSpace(w[0]) && !IsSpace(w[|w| - 1])
    ensures Strip(w + " ") == w
  {
    var s := w + " ";
    assert TrimStart(s) == s;
    assert s[..|s| - 1] == w;
    assert TrimEnd(w) == w;
  }

  lemma ColonDropped()
    ensures ReplaceAll("XL :", ":", "") == "XL "
  {
    assert ":"[1..] == [];
    assert ReplaceAll(":", ":", "") == [];
    assert !(":" <= " :") && " :"[1..] == ":";
    assert ReplaceAll(" :", ":", "") == " ";
    assert !(":" <= "L :") && "L :"[1..] == " :";
    assert ReplaceAll("L :", ":", "") == "L ";
    assert !(":" <= "XL :") && "XL :"[1..] == "L :";
  }

  /** The kept options of a variation item: its `div`s carrying `data-sku-col`, in document order. */
  function Options(item: Node): seq<Value>
  {
    Keep(FindAll(item, HasAttrTest("div", "data-sku-col")), OptionProbe())
  }

  /** A variation item's axis, when it has a title element and a kept option. */
  function ParseVariation(item: Node): Mapping
  {
    LiveVariations.AxisOf(AxisNameOf(FoundText(item, ClassTest("div", TitleClass))), Options(item))
  }

  method ParseVariationItem(item: Node) returns (axis: Mapping)
    ensures axis == ParseVariation(item)
  {
    axis := map[];
    var name := AxisNameOf(FoundText(item, ClassTest("div", TitleClass)));
    if name.Some? {
      var options := Collect(FindAll(item, HasAttrTest("div", "data-sku-col")), OptionProbe());
      axis := Store(axis, name.value, NonEmptyList(options));
    }
  }

  function ParseVariationFn(): Node -> Mapping
  {
    item => ParseVariation(item)
  }

  /** The axes of the page: those of the items inside the first variation wrapper. */
  function Axes(soup: Node): Mapping
  {
    match Find(soup, ClassTest("div", WrapperClass))
    case Some(wrapper) => MergeAll(FindAll(wrapper, ClassTest("div", ItemClass)), ParseVariationFn())
    case None => map[]
  }

  /** `product_variations`: the axes, then `current_selection`, which replaces an axis of that name. */
  function VariationsOf(axes: Mapping, selection: Option<string>): Mapping
  {
    Put(axes, "current_selection", StrOf(selection))
  }

  function Variations(soup: Node): Mapping
  {
    VariationsOf(Axes(soup), FoundText(soup, ClassTest("span", MenuTitleClass)))
  }

  method MergeVariationItems(items: seq<Node>) returns (variations: Mapping)
    ensures variations == MergeAll(items, ParseVariationFn())
  {
    variations := map[];
    var i := 0;
    while i < |items|
      invariant 0 <= i <= |items|
      invariant variations == MergeAll(items[..i], ParseVariationFn())
    {
      MergeStep(items, i, ParseVariationFn());
      var axis := ParseVariationItem(items[i]);
      if axis != map[] {
        variations := variations + axis;
      } else {
        UpdateWithEmpty(variations, axis);
      }
      i := i + 1;
    }
    assert items[..|items|] == items;
  }

  method ExtractProductVariations(soup: Node) returns (variations: Mapping)
    ensures variations == Variations(soup)
  {
    variations := map[];
    var wrapper := Find(soup, ClassTest("div", WrapperClass));
    if wrapper.Some? {
      variations := MergeVariationItems(FindAll(wrapper.value, ClassTest("div", ItemClass)));
    }
    variations := Store(variations, "current_selection", StrOf(FoundText(soup, ClassTest("span", MenuTitleClass))));
  }

  /** The options kept are those of the option elements that have something, in document order. */
  lemma OptionsKept(item: Node)
    ensures |Options(item)| <= |FindAll(item, HasAttrTest("div", "data-sku-col"))|
    ensures forall v :: v in Options(item) <==>
      exists j :: 0 <= j < |FindAll(item, HasAttrTest("div", "data-sku-col"))| &&
        OptionProbe()(FindAll(item, HasAttrTest("div", "data-sku-col"))[j]) == Some(v)
  {
    KeepLength(FindAll(item, HasAttrTest("div", "data-sku-col")), OptionProbe());
    KeepMembers(FindAll(item, HasAttrTest("div", "data-sku-col")), OptionProbe());
  }

  /** The current selection is stored over the axes; every other axis is kept as it is. */
  lemma SelectionOverAxes(axes: Mapping, selection: Option<string>)
    ensures "current_selection" in VariationsOf(axes, selection) <==> selection.Some? || "current_selection" in axes
    ensures selection.Some? ==> VariationsOf(axes, selection)["current_selection"] == Str(selection.value)
    ensures forall name :: name in axes && name != "current_selection" ==>
      name in VariationsOf(axes, selection) && VariationsOf(axes, selection)[name] == axes[name]
    ensures "max_quantity" in VariationsOf(axes, selection) <==> "max_quantity" in axes
  {
  }
}
