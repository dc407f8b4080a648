/**
 * The payout-method catalog built in `refresh_payout_methods`: Tremendous
 * products are filtered by category and by a deny-list, mapped to payout
 * methods, dropped when they are fixed-denomination without USD, ranked,
 * and preceded by three first-party methods (PayPal US, Venmo, PayPal
 * international). Decimals are exact reals.
 */
module Catalog {
  import opened Wrappers
  import Sorting

  datatype Sku = Sku(min: real, max: real)

  datatype ProductImageType = Card | Logo

  datatype ProductImage = ProductImage(src: string, kind: ProductImageType)

  /** A Tremendous product; `countries` holds the `abbr` of each country. */
  datatype Product = Product(
    id: string,
    category: string,
    name: string,
    description: string,
    disclosure: string,
    skus: seq<Sku>,
    currencyCodes: seq<string>,
    countries: seq<string>,
    images: seq<ProductImage>)

  datatype PayoutMethodType = PayPal | Venmo | Tremendous

  datatype PayoutInterval = Standard(min: real, max: real) | Fixed(values: seq<real>)

  datatype PayoutMethodFee = PayoutMethodFee(percentage: real, min: real, max: Option<real>)

  datatype PayoutMethod = PayoutMethod(
    id: string,
    kind: PayoutMethodType,
    name: string,
    supportedCountries: seq<string>,
    imageUrl: Option<string>,
    interval: PayoutInterval,
    fee: PayoutMethodFee)

  /** Physical Visa, crypto and Bitcard products are never offered. */
  const BlacklistedIds: seq<string> := [
    "A2J05SWPI2QG",
    "1UOOSHUUYTAM", "5EVJN47HPDFT", "NI9M4EVAVGFJ", "VLY29QHTMNGT", "7XU98H109Y3A",
    "0CGEDFP2UIKV", "PDYLQU0K073Y", "HCS5Z7O2NV5G", "IY1VMST1MOXS", "VRPZLJ7HCA8X",
    "GWQQS5RM8IZS", "896MYD4SGOGZ", "PWLEN1VZGMZA", "A2VRM96J5K5W", "HV9ICIM3JT7P",
    "K2KLSPVWC2Q4", "HRBRQLLTDF95", "UUBYLZVK7QAB", "BH8W3XEDEOJN", "7WGE043X1RYQ",
    "2B13MHUZZVTF", "JN6R44P86EYX", "DA8H43GU84SO", "QK2XAQHSDEH4", "J7K1IQFS76DK",
    "NL4JQ2G7UPRZ", "OEFTMSBA5ELH", "A3CQK6UHNV27"]

  const SupportedMethods: seq<string> := ["merchant_cards", "visa", "bank", "ach", "visa_card"]

  const UprankIds: seq<string> := ["ET0ZVETV5ILN", "Q24BD9EZ332JT", "UIL1ZYJU5MKN"]

  const DownrankIds: seq<string> := ["EIPF8Q00EMM1", "OU2MWXYWPNWQ"]

  /** The first filter: an allowed category and an id not on the deny-list. */
  predicate Supported(p: Product)
  {
    p.category in SupportedMethods && p.id !in BlacklistedIds
  }

  /** The `src` of the first image of type card, if any. */
  function CardImage(images: seq<ProductImage>): (r: Option<string>)
    ensures r.None? <==> forall i :: 0 <= i < |images| ==> images[i].kind != Card
    ensures r.Some? ==>
      exists i :: 0 <= i < |images| && images[i].kind == Card && images[i].src == r.value
        && forall j :: 0 <= j < i ==> images[j].kind != Card
  {
    if images == [] then None
    else if images[0].kind == Card then Some(images[0].src)
    else
      var r := CardImage(images[1..]);
      assert r.Some? ==>
        exists i :: 1 <= i < |images| && images[i].kind == Card && images[i].src == r.value
          && forall j :: 0 <= j < i ==> images[j].kind != Card
      by {
        if r.Some? {
          var i :| 0 <= i < |images[1..]| && images[1..][i].kind == Card && images[1..][i].src == r.value
            && forall j :: 0 <= j < i ==> images[1..][j].kind != Card;
          assert forall j :: 0 <= j < i + 1 ==> images[j].kind != Card by {
            forall j | 0 <= j < i + 1 ensures images[j].kind != Card {
              if j > 0 { assert images[j] == images[1..][j - 1]; }
            }
          }
        }
      }
      r
  }

  predicate RealLe(a: real, b: real)
  {
    a <= b
  }

  /** The sku minimums in sku order. */
  function SkuMins(skus: seq<Sku>): (r: seq<real>)
    ensures |r| == |skus| && forall i :: 0 <= i < |skus| ==> r[i] == skus[i].min
  {
    seq(|skus|, i requires 0 <= i < |skus| => skus[i].min)
  }

  /** Several skus give the fixed amounts (the sku minimums sorted
      ascending), one sku its own range, none the range 0 to 5000. */
  function IntervalOf(skus: seq<Sku>): PayoutInterval
  {
    if |skus| > 1 then Fixed(Sorting.SortBy(SkuMins(skus), RealLe))
    else if |skus| == 1 then Standard(skus[0].min, skus[0].max)
    else Standard(0.0, 5000.0)
  }

  /** ACH transfers cost 4% with a minimum of 0.25; the rest is free. */
  function FeeOf(category: string): PayoutMethodFee
  {
    if category == "ach" then PayoutMethodFee(4.0 / 100.0, 1.0 / 4.0, None)
    else PayoutMethodFee(0.0, 0.0, None)
  }

  function ToMethod(p: Product): PayoutMethod
  {
    PayoutMethod(p.id, Tremendous, p.name, p.countries, CardImage(p.images), IntervalOf(p.skus), FeeOf(p.category))
  }

  /** Both filters of the loop: supported, and not a fixed-denomination
      card without USD. */
  predicate Kept(p: Product)
  {
    Supported(p) && !(ToMethod(p).interval.Fixed? && "USD" !in p.currencyCodes)
  }

  /** The methods the loop pushes, in product order. */
  function Admitted(products: seq<Product>): seq<PayoutMethod>
  {
    if products == [] then []
    else
      var last := products[|products| - 1];
      Admitted(products[..|products| - 1]) + (if Kept(last) then [ToMethod(last)] else [])
  }

  // Ranking

  datatype Ordering = Less | Equal | Greater

  /** Lexicographic order of code points. Rust compares `String`s by their
      UTF-8 bytes, which orders them the same way. */
  function CmpStr(a: string, b: string): Ordering
  {
    if a == [] && b == [] then Equal
    else if a == [] then Less
    else if b == [] then Greater
    else if a[0] < b[0] then Less
    else if a[0] > b[0] then Greater
    else CmpStr(a[1..], b[1..])
  }

  /** The comparator given to `sort_by`, case by case. */
  function RankCompare(a: PayoutMethod, b: PayoutMethod): Ordering
  {
    var aTop := a.id in UprankIds;
    var aBottom := a.id in DownrankIds;
    var bTop := b.id in UprankIds;
    var bBottom := b.id in DownrankIds;
    if aTop && bTop then CmpStr(a.name, b.name)
    else if aBottom && bBottom then CmpStr(a.name, b.name)
    else if aTop then Less
    else if bTop then Greater
    else if aBottom then Greater
    else if bBottom then Less
    else CmpStr(a.name, b.name)
  }

  predicate RankLe(a: PayoutMethod, b: PayoutMethod)
  {
    RankCompare(a, b) != Greater
  }

  /** `methods.sort_by(RankCompare)`: a stable sort. */
  function SortByRank(methods: seq<PayoutMethod>): seq<PayoutMethod>
  {
    Sorting.SortBy(methods, RankLe)
  }

  /** Up-ranked ids form tier 0, down-ranked ids tier 2, the rest tier 1. */
  function Tier(m: PayoutMethod): nat
  {
    if m.id in UprankIds then 0 else if m.id in DownrankIds then 2 else 1
  }

  // The first-party methods

  const PayPalUs := PayoutMethod(
    "paypal_us", PayPal, "PayPal", ["US"], None,
    Standard(1.0 / 4.0, 100000.0),
    PayoutMethodFee(2.0 / 100.0, 1.0 / 4.0, Some(1.0)))

  const VenmoMethod := PayPalUs.(id := "venmo", name := "Venmo", kind := Venmo)

  /** The ISO 3166 alpha-2 codes other than "US", in their order. */
  function WithoutUs(codes: seq<string>): (r: seq<string>)
    ensures forall c :: c in r <==> c in codes && c != "US"
  {
    if codes == [] then []
    else (if codes[0] != "US" then [codes[0]] else []) + WithoutUs(codes[1..])
  }

  /** PayPal for every country but the US; `isoCodes` stands for the
      alpha-2 codes of `rust_iso3166::ALL`. */
  function PayPalInternational(isoCodes: seq<string>): PayoutMethod
  {
    PayoutMethod(
      "paypal_in", PayPal, "PayPal", WithoutUs(isoCodes), None,
      Standard(1.0 / 4.0, 100000.0),
      PayoutMethodFee(2.0 / 100.0, 0.0, Some(20.0)))
  }

  /** The catalog: the three first-party methods, then the kept products
      ranked. */
  function CatalogOf(products: seq<Product>, isoCodes: seq<string>): seq<PayoutMethod>
  {
    [PayPalUs, VenmoMethod, PayPalInternational(isoCodes)] + SortByRank(Admitted(products))
  }

  /** The catalog computation of `refresh_payout_methods`: the loop that
      pushes the kept products, the sort, and the three inserts at the
      front. */
  method BuildCatalog(products: seq<Product>, isoCodes: seq<string>) returns (methods: seq<PayoutMethod>)
    ensures methods == CatalogOf(products, isoCodes)
  {
    methods := [];
    for i := 0 to |products|
      invariant methods == Admitted(products[..i])
    {
      var product := products[i];
      assert products[..i + 1][..i] == products[..i];
      assert Admitted(products[..i + 1])
          == Admitted(products[..i]) + (if Kept(product) then [ToMethod(product)] else []);
      if product.category !in SupportedMethods || product.id in BlacklistedIds {
        continue;
      }
      var payoutMethod := ToMethod(product);
      if payoutMethod.interval.Fixed? && "USD" !in product.currencyCodes {
        continue;
      }
      methods := methods + [payoutMethod];
    }
    assert products[..|products|] == products;
    var ranked := SortByRank(methods);
    methods := ranked;
    methods := [PayPalUs] + methods;
    assert methods[..1] == [PayPalUs] && methods[1..] == ranked;
    methods := methods[..1] + [VenmoMethod] + methods[1..];
    assert methods[..2] == [PayPalUs, VenmoMethod] && methods[2..] == ranked;
    methods := methods[..2] + [PayPalInternational(isoCodes)] + methods[2..];
  }

  // Properties of the mapping

  lemma RealLeTotalPreorder()
    ensures Sorting.TotalPreorder(RealLe)
  {
  }

  /** More than one sku gives `Fixed` with the sku minimums sorted
      ascending; exactly one sku gives its own range; none gives 0 to 5000. */
  lemma IntervalOfSpec(skus: seq<Sku>)
    ensures |skus| > 1 ==>
      && IntervalOf(skus).Fixed?
      && multiset(IntervalOf(skus).values) == multiset(SkuMins(skus))
      && forall i, j :: 0 <= i < j < |IntervalOf(skus).values| ==>
           IntervalOf(skus).values[i] <= IntervalOf(skus).values[j]
    ensures |skus| == 1 ==> IntervalOf(skus) == Standard(skus[0].min, skus[0].max)
    ensures |skus| == 0 ==> IntervalOf(skus) == Standard(0.0, 5000.0)
  {
    if |skus| > 1 {
      RealLeTotalPreorder();
      Sorting.SortBySorted(SkuMins(skus), RealLe);
    }
  }

  /** Only ACH carries a fee, 4% with a minimum of 0.25; no method built from
      a product has a maximum fee. */
  lemma FeeOfSpec(p: Product)
    ensures ToMethod(p).fee.max.None?
    ensures ToMethod(p).fee.percentage > 0.0 <==> p.category == "ach"
    ensures p.category == "ach" ==> ToMethod(p).fee == PayoutMethodFee(0.04, 0.25, None)
    ensures p.category != "ach" ==> ToMethod(p).fee == PayoutMethodFee(0.0, 0.0, None)
  {
  }

  /** The pushed methods are exactly the images of the kept products. */
  lemma {:induction false} AdmittedMembers(products: seq<Product>)
    ensures |Admitted(products)| <= |products|
    ensures forall m :: m in Admitted(products) <==>
      exists p :: p in products && Kept(p) && m == ToMethod(p)
  {
    if products != [] {
      var init := products[..|products| - 1];
      var last := products[|products| - 1];
      AdmittedMembers(init);
      assert products == init + [last];
      assert Admitted(products) == Admitted(init) + (if Kept(last) then [ToMethod(last)] else []);
      forall m | m in Admitted(products) ensures exists p :: p in products && Kept(p) && m == ToMethod(p) {
        if m in Admitted(init) {
          var p :| p in init && Kept(p) && m == ToMethod(p);
          assert p in products;
        } else {
          assert last in products;
        }
      }
      forall p | p in products && Kept(p) ensures ToMethod(p) in Admitted(products) {
        if p in init {
          assert ToMethod(p) in Admitted(init);
        }
      }
    }
  }

  // Properties of the ranking

  lemma {:induction false} CmpStrFlip(a: string, b: string)
    ensures CmpStr(a, b) == Greater <==> CmpStr(b, a) == Less
    ensures CmpStr(a, b) == Equal <==> CmpStr(b, a) == Equal
  {
    if a != [] && b != [] && a[0] == b[0] {
      CmpStrFlip(a[1..], b[1..]);
    }
  }

  lemma {:induction false} CmpStrTrans(a: string, b: string, c: string)
    requires CmpStr(a, b) != Greater && CmpStr(b, c) != Greater
    ensures CmpStr(a, c) != Greater
  {
    if a != [] && b != [] && c != [] && a[0] == b[0] && b[0] == c[0] {
      CmpStrTrans(a[1..], b[1..], c[1..]);
    }
  }

  /** No id is both up-ranked and down-ranked. */
  lemma RankIdsDisjoint(id: string)
    ensures !(id in UprankIds && id in DownrankIds)
  {
  }

  /** The comparator orders by the key (tier, name): up-ranked before
      neither, neither before down-ranked, names within a tier. */
  lemma RankCompareIsKeyOrder(a: PayoutMethod, b: PayoutMethod)
    ensures RankCompare(a, b)
         == if Tier(a) < Tier(b) then Less
            else if Tier(a) > Tier(b) then Greater
            else CmpStr(a.name, b.name)
  {
    RankIdsDisjoint(a.id);
    RankIdsDisjoint(b.id);
  }

  lemma RankLeTotalPreorder()
    ensures Sorting.TotalPreorder(RankLe)
  {
    forall a, b ensures RankLe(a, b) || RankLe(b, a) {
      RankCompareIsKeyOrder(a, b);
      RankCompareIsKeyOrder(b, a);
      CmpStrFlip(a.name, b.name);
    }
    forall a, b, c | RankLe(a, b) && RankLe(b, c) ensures RankLe(a, c) {
      RankCompareIsKeyOrder(a, b);
      RankCompareIsKeyOrder(b, c);
      RankCompareIsKeyOrder(a, c);
      if Tier(a) == Tier(b) == Tier(c) {
        CmpStrTrans(a.name, b.name, c.name);
      }
    }
  }

  /** The ranked list is a permutation of its input in which every up-ranked
      method precedes every other, every down-ranked method follows every
      other, and names do not decrease within a tier. */
  lemma SortByRankOrdering(methods: seq<PayoutMethod>)
    ensures multiset(SortByRank(methods)) == multiset(methods)
    ensures var r := SortByRank(methods);
      forall i, j :: 0 <= i < |r| && 0 <= j < |r| && r[i].id in UprankIds && r[j].id !in UprankIds ==> i < j
    ensures var r := SortByRank(methods);
      forall i, j :: 0 <= i < |r| && 0 <= j < |r| && r[i].id !in DownrankIds && r[j].id in DownrankIds ==> i < j
    ensures var r := SortByRank(methods);
      forall i, j :: 0 <= i < j < |r| && Tier(r[i]) == Tier(r[j]) ==> CmpStr(r[i].name, r[j].name) != Greater
    ensures forall e :: Sorting.Ties(SortByRank(methods), e, RankLe) == Sorting.Ties(methods, e, RankLe)
  {
    var r := SortByRank(methods);
    RankLeTotalPreorder();
    Sorting.SortBySorted(methods, RankLe);
    forall e ensures Sorting.Ties(r, e, RankLe) == Sorting.Ties(methods, e, RankLe) {
      Sorting.SortByStable(methods, e, RankLe);
    }
    forall i, j | 0 <= i < j < |r|
      ensures Tier(r[i]) <= Tier(r[j])
      ensures Tier(r[i]) == Tier(r[j]) ==> CmpStr(r[i].name, r[j].name) != Greater
    {
      assert RankLe(r[i], r[j]);
      RankCompareIsKeyOrder(r[i], r[j]);
    }
    forall k | 0 <= k < |r|
      ensures r[k].id in UprankIds <==> Tier(r[k]) == 0
      ensures r[k].id in DownrankIds <==> Tier(r[k]) == 2
    {
      RankIdsDisjoint(r[k].id);
    }
  }

  // Properties of the whole catalog

  /** The catalog is the three first-party methods followed by the ranked
      kept products: Venmo equals PayPal US but for id, name and type, and
      PayPal international serves exactly the ISO codes other than "US". */
  lemma CatalogShape(products: seq<Product>, isoCodes: seq<string>)
    ensures var c := CatalogOf(products, isoCodes);
      && |c| == |Admitted(products)| + 3
      && c[0] == PayPalUs && c[1] == VenmoMethod && c[2] == PayPalInternational(isoCodes)
      && c[1].(id := c[0].id, name := c[0].name, kind := c[0].kind) == c[0]
      && c[0].supportedCountries == ["US"]
      && (forall code :: code in c[2].supportedCountries <==> code in isoCodes && code != "US")
      && multiset(c[3..]) == multiset(Admitted(products))
  {
    var c := CatalogOf(products, isoCodes);
    assert c[3..] == SortByRank(Admitted(products));
  }

  lemma KeptMeans(p: Product)
    requires Kept(p)
    ensures ToMethod(p).kind == Tremendous
    ensures p.category in SupportedMethods && p.id !in BlacklistedIds
    ensures ToMethod(p).interval.Fixed? ==> "USD" in p.currencyCodes
  {
  }

  /** Every method after the first three comes from a supported product not
      on the deny-list, and a fixed-denomination one only from a product
      that lists USD; conversely every such product is in the catalog. */
  lemma CatalogEligibility(products: seq<Product>, isoCodes: seq<string>)
    ensures var c := CatalogOf(products, isoCodes);
      forall k :: 3 <= k < |c| ==>
        && c[k].kind == Tremendous
        && exists p :: p in products && c[k] == ToMethod(p)
             && p.category in SupportedMethods && p.id !in BlacklistedIds
             && (c[k].interval.Fixed? ==> "USD" in p.currencyCodes)
    ensures var c := CatalogOf(products, isoCodes);
      forall p :: p in products && Kept(p) ==> ToMethod(p) in c[3..]
  {
    var c := CatalogOf(products, isoCodes);
    var ranked := SortByRank(Admitted(products));
    assert c[3..] == ranked;
    forall k | 3 <= k < |c|
      ensures && c[k].kind == Tremendous
              && exists p :: p in products && c[k] == ToMethod(p)
                   && p.category in SupportedMethods && p.id !in BlacklistedIds
                   && (c[k].interval.Fixed? ==> "USD" in p.currencyCodes)
    {
      assert c[k] == ranked[k - 3];
      var p := RankedFromKept(products, k - 3);
      KeptMeans(p);
    }
    forall p | p in products && Kept(p) ensures ToMethod(p) in c[3..] {
      KeptIsRanked(products, p);
    }
  }

  /** The product behind an entry of the ranked list. */
  lemma RankedFromKept(products: seq<Product>, k: nat) returns (p: Product)
    requires k < |SortByRank(Admitted(products))|
    ensures p in products && Kept(p) && SortByRank(Admitted(products))[k] == ToMethod(p)
  {
    var admitted := Admitted(products);
    var ranked := SortByRank(admitted);
    AdmittedMembers(products);
    assert ranked[k] in multiset(ranked);
    assert ranked[k] in admitted;
    p :| p in products && Kept(p) && ranked[k] == ToMethod(p);
  }

  lemma KeptIsRanked(products: seq<Product>, p: Product)
    requires p in products && Kept(p)
    ensures ToMethod(p) in SortByRank(Admitted(products))
  {
    var admitted := Admitted(products);
    AdmittedMembers(products);
    assert ToMethod(p) in admitted;
    assert ToMethod(p) in multiset(SortByRank(admitted));
  }
}
