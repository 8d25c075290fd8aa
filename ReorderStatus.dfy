/** Overdue and next-expected figures shown on a store card and on the store
    detail page, computed from the backend's whole-day counts. */
module ReorderStatus {
  import opened StoreModel

  /** The store has gone longer than its typical reorder cycle without ordering. */
  predicate IsOverdue(store: StoreIntel) {
    store.daysSinceLastOrder > store.avgCycle
  }

  /** The "DAYS OVERDUE" amount of the card banner and of the detail-page banner:
      present only for an overdue store, and then the days past the cycle. */
  function OverdueBy(store: StoreIntel): (r: Option<int>)
    ensures r.Some? <==> store.daysSinceLastOrder > store.avgCycle
    ensures r.Some? ==> r.value > 0 && store.avgCycle + r.value == store.daysSinceLastOrder
  {
    if IsOverdue(store) then Some(store.daysSinceLastOrder - store.avgCycle) else None
  }

  /** The value of the "Next Expected" stat card. */
  datatype NextExpected = OverdueLabel | InDays(days: int)

  function NextExpectedValue(store: StoreIntel): (r: NextExpected)
    ensures r.OverdueLabel? <==> store.daysSinceLastOrder > store.avgCycle
    ensures r.InDays? ==> r.days >= 0 && store.daysSinceLastOrder + r.days == store.avgCycle
  {
    if IsOverdue(store) then OverdueLabel else InDays(store.avgCycle - store.daysSinceLastOrder)
  }

  /** The red highlight of the "Last Order" stat card. */
  function LastOrderAlert(store: StoreIntel): (alert: bool)
    ensures alert <==> OverdueBy(store).Some?
  {
    IsOverdue(store)
  }

  /** The banners, the stat-card alert and the "Next Expected" card tell one
      story: a store is either overdue by some positive number of days, or
      expected within a non-negative number of days, and the two figures
      account for the whole cycle. */
  lemma OverdueOrExpected(store: StoreIntel)
    ensures OverdueBy(store).Some? != NextExpectedValue(store).InDays?
    ensures LastOrderAlert(store) <==> NextExpectedValue(store).OverdueLabel?
    ensures NextExpectedValue(store).InDays? ==>
      NextExpectedValue(store).days == store.avgCycle - store.daysSinceLastOrder
    ensures OverdueBy(store).Some? ==>
      OverdueBy(store).value == store.daysSinceLastOrder - store.avgCycle
  {
  }
}
