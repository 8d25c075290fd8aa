/** Records the dashboard receives from the sales-intelligence endpoint.
    Urgency, reorder cycle and days since the last order are computed by the
    backend; the dashboard only reads them. */
module StoreModel {

  datatype Option<+T> = None | Some(value: T) {
    function GetOr(default: T): T {
      match this
      case Some(v) => v
      case None => default
    }
  }

  /** The three reorder-urgency tiers a store can be in. */
  datatype Urgency = Urgent | Warning | Good

  /** One of a store's best-selling products. */
  datatype Product = Product(
    name: string,
    strainType: Option<string>,   // `strain_type`, possibly missing
    category: Option<string>,
    quantity: int,
    orders: int
  )

  /** One entry of `storeIntelligence`. */
  datatype StoreIntel = StoreIntel(
    id: int,
    name: string,
    city: string,
    urgency: Urgency,
    daysSinceLastOrder: int,
    avgCycle: int,
    topProducts: Option<seq<Product>>   // `topProducts`, possibly missing
  )

  /** Position of a tier in the display order: urgent, then warning, then good. */
  function Rank(u: Urgency): (r: nat)
    ensures r <= 2
  {
    match u
    case Urgent => 0
    case Warning => 1
    case Good => 2
  }

  /** The display order of the tiers: urgent, then warning, then good. */
  lemma RankOrder()
    ensures Rank(Urgent) < Rank(Warning) < Rank(Good)
  {
  }
}
