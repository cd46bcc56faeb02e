/** Shipping of the offline scraper: free-shipping threshold, delivery time and place, and shipping policies. */
module OfflineShipping {
  import opened Values
  import opened Strings
  import opened Sequences
  import opened Document
  import opened OfflineQueries

  const FreeShippingPattern: Pattern := "Darmowa dostawa.*PKR"
  const DeliveryPattern: Pattern := "\\w{3}\\s+\\d+\\s+-\\s+\\w{3}\\s+\\d+"
  const DeliveryToClass: string := "delivery-v2--to--Mtweg7y"
  const ShippingItemClass: string := "shipping--item--F04J6q9"
  const PolicyTitleClass: string := "shipping--title--sZAnuQw"
  const DescriptionClass: string := "shipping--descText--UVpscND"

  // ---------------------------------------------------------------------------------------------
  // Policies

  /** `[desc.get_text(strip=True) for desc in desc_elems]`. */
  function Texts(elems: seq<Node>): (r: seq<string>)
    ensures |r| == |elems|
    ensures forall k :: 0 <= k < |elems| ==> r[k] == StrippedText(elems[k])
  {
    seq(|elems|, k requires 0 <= k < |elems| => StrippedText(elems[k]))
  }

  /** A policy from its title, when there is one, and its descriptions. */
  function PolicyOf(title: Option<string>, descriptions: seq<string>): Option<Value>
  {
    if title.Some? then Some(Dict(map["title" := Str(title.value), "descriptions" := StrList(descriptions)])) else None
  }

  /** The description elements of a shipping item, in document order. */
  function DescriptionElems(item: Node): seq<Node>
  {
    FindAll(item, ClassTest("div", DescriptionClass))
  }

  function PolicyProbe(): Node -> Option<Value>
  {
    item => PolicyOf(FoundText(item, ClassTest("div", PolicyTitleClass)), Texts(DescriptionElems(item)))
  }

  /** The policies of the shipping items that have a title, in document order. */
  function Policies(soup: Node): seq<Value>
  {
    Keep(FindAll(soup, ClassTest("div", ShippingItemClass)), PolicyProbe())
  }

  method CollectPolicies(items: seq<Node>) returns (policies: seq<Value>)
    ensures policies == Keep(items, PolicyProbe())
  {
    policies := [];
    var i := 0;
    while i < |items|
      invariant 0 <= i <= |items|
      invariant policies == Keep(items[..i], PolicyProbe())
    {
      KeepStep(items, i, PolicyProbe());
      var title := FoundText(items[i], ClassTest("div", PolicyTitleClass));
      if title.Some? {
        var descriptions := Texts(DescriptionElems(items[i]));
        policies := policies + [Dict(map["title" := Str(title.value), "descriptions" := StrList(descriptions)])];
      }
      i := i + 1;
    }
    assert items[..|items|] == items;
  }

  /**
   * A shipping item gives a policy exactly when it has a title element; the policy holds the
   * title and the stripped texts of all the item's description elements, in document order.
   */
  lemma PolicySpec(item: Node)
    ensures PolicyProbe()(item).Some? <==> FoundText(item, ClassTest("div", PolicyTitleClass)).Some?
    ensures PolicyProbe()(item).Some? ==>
      var fields := PolicyProbe()(item).value.fields;
      && fields["title"] == Str(FoundText(item, ClassTest("div", PolicyTitleClass)).value)
      && |fields["descriptions"].items| == |DescriptionElems(item)|
      && forall k :: 0 <= k < |DescriptionElems(item)| ==>
           fields["descriptions"].items[k] == Str(StrippedText(DescriptionElems(item)[k]))
  {
  }

  /** Items without a title are skipped; each policy comes from one item, and no item is lost otherwise. */
  lemma PoliciesSpec(items: seq<Node>)
    ensures |Keep(items, PolicyProbe())| <= |items|
    ensures forall v :: v in Keep(items, PolicyProbe()) <==>
      exists j :: 0 <= j < |items| && PolicyProbe()(items[j]) == Some(v)
  {
    KeepLength(items, PolicyProbe());
    KeepMembers(items, PolicyProbe());
  }

  /** There are no policies exactly when no shipping item has a title element. */
  lemma NoPolicies(items: seq<Node>)
    ensures Keep(items, PolicyProbe()) == [] <==>
      forall j :: 0 <= j < |items| ==> FoundText(items[j], ClassTest("div", PolicyTitleClass)).None?
  {
    KeepEmpty(items, PolicyProbe());
    forall j | 0 <= j < |items|
      ensures PolicyProbe()(items[j]).None? <==> FoundText(items[j], ClassTest("div", PolicyTitleClass)).None?
    {
    }
  }

  // ---------------------------------------------------------------------------------------------
  // Assembly

  function ShippingOf(free: Option<string>, delivery: Option<string>, to: Option<string>, policies: seq<Value>): Mapping
  {
    var m0 := Put(map[], "free_shipping_threshold", StrOf(free));
    var m1 := Put(m0, "delivery_time", StrOf(delivery));
    var m2 := Put(m1, "delivery_to", StrOf(to));
    Put(m2, "policies", NonEmptyList(policies))
  }

  /** `extract_shipping_info`. */
  function Shipping(eng: Engine, soup: Node): Mapping
  {
    ShippingOf(FoundText(soup, StringTest(eng, "strong", FreeShippingPattern)),
               FoundText(soup, StringTest(eng, "strong", DeliveryPattern)),
               FoundText(soup, ClassTest("span", DeliveryToClass)),
               Policies(soup))
  }

  method ExtractShipping(eng: Engine, soup: Node) returns (shipping: Mapping)
    ensures shipping == Shipping(eng, soup)
  {
    shipping := Store(map[], "free_shipping_threshold", StrOf(FoundText(soup, StringTest(eng, "strong", FreeShippingPattern))));
    shipping := Store(shipping, "delivery_time", StrOf(FoundText(soup, StringTest(eng, "strong", DeliveryPattern))));
    shipping := Store(shipping, "delivery_to", StrOf(FoundText(soup, ClassTest("span", DeliveryToClass))));
    var policies := CollectPolicies(FindAll(soup, ClassTest("div", ShippingItemClass)));
    shipping := Store(shipping, "policies", NonEmptyList(policies));
  }

  /** Each key of `shipping_info` is present exactly when its source gave something; `policies` needs a titled item. */
  lemma ShippingKeys(free: Option<string>, delivery: Option<string>, to: Option<string>, policies: seq<Value>)
    ensures forall key :: key in ShippingOf(free, delivery, to, policies) ==>
      key == "free_shipping_threshold" || key == "delivery_time" || key == "delivery_to" || key == "policies"
    ensures "free_shipping_threshold" in ShippingOf(free, delivery, to, policies) <==> free.Some?
    ensures "delivery_time" in ShippingOf(free, delivery, to, policies) <==> delivery.Some?
    ensures "delivery_to" in ShippingOf(free, delivery, to, policies) <==> to.Some?
    ensures "policies" in ShippingOf(free, delivery, to, policies) <==> policies != []
  {
  }
}
