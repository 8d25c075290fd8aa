/** Product rows of a store card and of the store detail page: the top-product
    slices, the strain badge, and the smart-insight message chosen from the
    store's strain-type shares. */
module ProductInsights {
  import opened StoreModel
  import TextRules

  const CARD_TOP_PRODUCTS: nat := 3
  const DETAIL_TOP_PRODUCTS: nat := 10

  // ---------------------------------------------------------------------
  // Top products
  // ---------------------------------------------------------------------

  function Min(a: nat, b: nat): nat {
    if a <= b then a else b
  }

  /** The first `n` of a store's top products; a missing list counts as empty. */
  function TopProducts(products: Option<seq<Product>>, n: nat): (r: seq<Product>)
    ensures var all := products.GetOr([]);
      |r| == Min(n, |all|) && r == all[..|r|]
  {
    var all := products.GetOr([]);
    if |all| <= n then all else all[..n]
  }

  /** The products on a store card (at most three). */
  function CardTopProducts(store: StoreIntel): (r: seq<Product>)
    ensures |r| <= CARD_TOP_PRODUCTS
  {
    TopProducts(store.topProducts, CARD_TOP_PRODUCTS)
  }

  /** The products on the store detail page (at most ten). */
  function DetailTopProducts(store: StoreIntel): (r: seq<Product>)
    ensures |r| <= DETAIL_TOP_PRODUCTS
  {
    TopProducts(store.topProducts, DETAIL_TOP_PRODUCTS)
  }

  /** The card's products are the first entries of the detail page's list, and
      the card shows all of them whenever the store has at most three. */
  lemma CardIsPrefixOfDetail(store: StoreIntel)
    ensures var card, detail := CardTopProducts(store), DetailTopProducts(store);
      |card| <= |detail| && card == detail[..|card|]
      && |card| == Min(CARD_TOP_PRODUCTS, |detail|)
  {
  }

  // ---------------------------------------------------------------------
  // Strain badge
  // ---------------------------------------------------------------------

  datatype Strain = Indica | Sativa | Hybrid

  /** The badge's classification, shared by the card (I / S / H) and the detail
      page (Indica / Sativa / Hybrid): "indica" wins over "sativa", and
      anything else is a hybrid. */
  function ClassifyStrain(strainType: string): (r: Strain)
    ensures r == Indica <==> TextRules.Occurs(TextRules.Lower(strainType), "indica")
    ensures r == Sativa <==>
      !TextRules.Occurs(TextRules.Lower(strainType), "indica")
      && TextRules.Occurs(TextRules.Lower(strainType), "sativa")
    ensures r == Hybrid <==>
      !TextRules.Occurs(TextRules.Lower(strainType), "indica")
      && !TextRules.Occurs(TextRules.Lower(strainType), "sativa")
  {
    var lower := TextRules.Lower(strainType);
    TextRules.IncludesIsOccurs(lower, "indica");
    TextRules.IncludesIsOccurs(lower, "sativa");
    if TextRules.Includes(lower, "indica") then Indica
    else if TextRules.Includes(lower, "sativa") then Sativa
    else Hybrid
  }

  /** The badge is drawn only for a present, non-empty `strain_type`. */
  function StrainBadge(product: Product): (r: Option<Strain>)
    ensures r.None? <==> product.strainType == None || product.strainType == Some("")
    ensures r.Some? ==> r.value == ClassifyStrain(product.strainType.value)
  {
    match product.strainType
    case None => None
    case Some(s) => if s == "" then None else Some(ClassifyStrain(s))
  }

  /** Upper-case spellings are classified like lower-case ones. */
  lemma ClassifyIgnoresCase(strainType: string)
    ensures ClassifyStrain(TextRules.Lower(strainType)) == ClassifyStrain(strainType)
  {
    TextRules.LowerIdempotent(strainType);
  }

  // ---------------------------------------------------------------------
  // Smart insight
  // ---------------------------------------------------------------------

  /** The smart-insight messages, in the order the detail page prints them. */
  datatype Insight = StrongIndica | StrongSativa | LovesHybrid | Balanced

  function InsightOrder(m: Insight): nat {
    match m
    case StrongIndica => 0
    case StrongSativa => 1
    case LovesHybrid => 2
    case Balanced => 3
  }

  /** The messages shown for given strain percentages: one per threshold that is
      exceeded (indica or sativa over 50, hybrid over 40), and the balanced
      message exactly when none is. */
  function SmartInsights(indicaPct: real, sativaPct: real, hybridPct: real): (r: seq<Insight>)
    ensures StrongIndica in r <==> indicaPct > 50.0
    ensures StrongSativa in r <==> sativaPct > 50.0
    ensures LovesHybrid in r <==> hybridPct > 40.0
    ensures Balanced in r <==> !(indicaPct > 50.0 || sativaPct > 50.0 || hybridPct > 40.0)
    ensures |r| >= 1
    ensures Balanced in r ==> r == [Balanced]
    ensures forall i, j :: 0 <= i < j < |r| ==> InsightOrder(r[i]) < InsightOrder(r[j])
  {
    (if indicaPct > 50.0 then [StrongIndica] else [])
    + (if sativaPct > 50.0 then [StrongSativa] else [])
    + (if hybridPct > 40.0 then [LovesHybrid] else [])
    + (if indicaPct <= 50.0 && sativaPct <= 50.0 && hybridPct <= 40.0 then [Balanced] else [])
  }

  /** The page prints each share with one decimal (`toFixed(1)`), so a share is
      a whole number of tenths of a percent, and rounding three shares that add
      up to 100 gives at most 100.1. With such shares the two "strong
      preference" messages never appear together. */
  lemma StrongPreferencesExclusive(indicaTenths: nat, sativaTenths: nat, hybridTenths: nat)
    requires indicaTenths + sativaTenths + hybridTenths <= 1001
    ensures var r := SmartInsights(indicaTenths as real / 10.0, sativaTenths as real / 10.0, hybridTenths as real / 10.0);
      !(StrongIndica in r && StrongSativa in r)
  {
  }
}
