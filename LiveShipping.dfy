/** Shipping of the live scraper: free-shipping note, delivery time, destination, cost and methods. */
module LiveShipping {
  import opened Values
  import opened Strings
  import opened Sequences
  import opened Document

  const FreeShippingPattern: Pattern := "(?i)Free shipping|Darmowa dostawa|免费"

  /** "Jul 18 - Aug 04", "7-15 days", and the Polish "X dni", tried in this order. */
  const DeliveryPatterns: seq<Pattern> := [
    "\\b\\w{3}\\s+\\d+\\s*-\\s*\\w{3}\\s+\\d+\\b",
    "\\d+\\s*-\\s*\\d+\\s*days?",
    "\\d+\\s*dni\\b"]

  const DeliveryToSelector: Selector := ".delivery-v2--to--Mtweg7y, .delivery-location"
  const ShippingCostSelector: Selector := ".shipping-cost, .delivery-cost"
  const ShippingMethodSelector: Selector := ".shipping-method, .delivery-option"

  /** The stripped text of the element holding the first free-shipping string. */
  function FreeShipping(eng: Engine, soup: Node): Option<string>
  {
    match TruthyString(eng, soup, FreeShippingPattern)
    case Some((_, parent)) => Some(StrippedText(parent))
    case None => None
  }

  /** The first text string a delivery pattern matches, stripped (it may strip to nothing). */
  function DeliveryProbe(eng: Engine, soup: Node): Pattern -> Option<string>
  {
    pattern =>
      match TruthyString(eng, soup, pattern)
      case Some((text, _)) => Some(Strip(text))
      case None => None
  }

  function DeliveryTime(eng: Engine, soup: Node): Option<string>
  {
    FirstSome(DeliveryPatterns, DeliveryProbe(eng, soup))
  }

  /** The first delivery pattern that finds a non-empty string decides; later patterns are not tried. */
  lemma DeliveryCascade(eng: Engine, soup: Node, k: nat)
    requires k < |DeliveryPatterns| && TruthyString(eng, soup, DeliveryPatterns[k]).Some?
    requires forall j :: 0 <= j < k ==> TruthyString(eng, soup, DeliveryPatterns[j]).None?
    ensures DeliveryTime(eng, soup) == Some(Strip(TruthyString(eng, soup, DeliveryPatterns[k]).value.0))
  {
    FirstSomeAt(DeliveryPatterns, DeliveryProbe(eng, soup), k);
  }

  /** A method's stripped text, when it is non-empty. */
  function MethodText(e: Node): (r: Option<string>)
    ensures r.Some? ==> r.value != []
  {
    if StrippedText(e) != [] then Some(StrippedText(e)) else None
  }

  /** `shipping_methods` is set whenever some method element is found, even if all their texts are empty. */
  function MethodsOf(elems: seq<Node>): Option<seq<string>>
  {
    if elems != [] then Some(Keep(elems, MethodText)) else None
  }

  /** The stored methods are exactly the non-empty texts of the method elements. */
  lemma MethodsSpec(elems: seq<Node>)
    ensures MethodsOf(elems).Some? <==> elems != []
    ensures MethodsOf(elems).Some? ==>
      (forall t :: t in MethodsOf(elems).value <==> exists j :: 0 <= j < |elems| && MethodText(elems[j]) == Some(t)) &&
      (forall t :: t in MethodsOf(elems).value ==> t != [])
  {
    KeepMembers(elems, MethodText);
  }

  method CollectMethods(elems: seq<Node>) returns (methods: Option<seq<string>>)
    ensures methods == MethodsOf(elems)
  {
    methods := None;
    if elems != [] {
      var texts := Collect(elems, MethodText);
      methods := Some(texts);
    }
  }

  function ShippingOf(free: Option<string>, delivery: Option<string>, to: Option<string>, cost: Option<string>,
                      methods: Option<seq<string>>): Mapping
  {
    var m0 := Put(map[], "free_shipping_info", StrOf(free));
    var m1 := Put(m0, "delivery_time", StrOf(delivery));
    var m2 := Put(m1, "delivery_to", StrOf(to));
    var m3 := Put(m2, "shipping_cost", StrOf(cost));
    Put(m3, "shipping_methods", if methods.Some? then Some(StrList(methods.value)) else None)
  }

  function Shipping(eng: Engine, soup: Node): Mapping
  {
    ShippingOf(FreeShipping(eng, soup), DeliveryTime(eng, soup), TextOfFirst(eng, soup, DeliveryToSelector),
               TextOfFirst(eng, soup, ShippingCostSelector), MethodsOf(Select(eng, soup, ShippingMethodSelector)))
  }

  method BuildShipping(free: Option<string>, delivery: Option<string>, to: Option<string>, cost: Option<string>,
                       methods: Option<seq<string>>) returns (shipping: Mapping)
    ensures shipping == ShippingOf(free, delivery, to, cost, methods)
  {
    shipping := Store(map[], "free_shipping_info", StrOf(free));
    shipping := Store(shipping, "delivery_time", StrOf(delivery));
    shipping := Store(shipping, "delivery_to", StrOf(to));
    shipping := Store(shipping, "shipping_cost", StrOf(cost));
    if methods.Some? {
      shipping := shipping["shipping_methods" := StrList(methods.value)];
    }
  }

  method ExtractShipping(eng: Engine, soup: Node) returns (shipping: Mapping)
    ensures shipping == Shipping(eng, soup)
  {
    var delivery := FindFirst(DeliveryPatterns, DeliveryProbe(eng, soup));
    var methods := CollectMethods(Select(eng, soup, ShippingMethodSelector));
    shipping := BuildShipping(FreeShipping(eng, soup), delivery, TextOfFirst(eng, soup, DeliveryToSelector),
                              TextOfFirst(eng, soup, ShippingCostSelector), methods);
  }

  /** Each key is stored exactly when its source found something; nothing else is stored. */
  lemma ShippingKeys(free: Option<string>, delivery: Option<string>, to: Option<string>, cost: Option<string>,
                     methods: Option<seq<string>>)
    ensures ShippingOf(free, delivery, to, cost, methods).Keys <=
      {"free_shipping_info", "delivery_time", "delivery_to", "shipping_cost", "shipping_methods"}
    ensures "delivery_time" in ShippingOf(free, delivery, to, cost, methods) <==> delivery.Some?
    ensures "shipping_methods" in ShippingOf(free, delivery, to, cost, methods) <==> methods.Some?
    ensures methods.Some? ==>
      ShippingOf(free, delivery, to, cost, methods)["shipping_methods"] == StrList(methods.value)
  {
  }
}
