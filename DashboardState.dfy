/** The component state of the dashboard and the handlers that update it: the
    tier cards and filter buttons, the search box, and the loading of the
    sales-intelligence list from the backend's answer. */
module DashboardState {
  import opened StoreModel
  import opened StoreListing
  import TextRules

  // ---------------------------------------------------------------------
  // Tier cards
  // ---------------------------------------------------------------------

  /** A click on a tier card: selects that tier, or goes back to `'all'` when
      the tier is already selected. */
  function ToggleTier(current: Filter, tier: Urgency): (r: Filter)
    ensures r == All <==> current == Only(tier)
    ensures r != All ==> r == Only(tier)
  {
    if current == Only(tier) then All else Only(tier)
  }

  /** Two clicks on the same card restore a selection of that card's tier, and
      otherwise (in particular from `'all'`) leave `'all'` selected. */
  lemma ToggleTwice(current: Filter, tier: Urgency)
    ensures ToggleTier(ToggleTier(current, tier), tier) == if current == Only(tier) then current else All
  {
  }

  // ---------------------------------------------------------------------
  // Loading the list
  // ---------------------------------------------------------------------

  const API_ERROR_PREFIX: string := "API Error: "
  const LOAD_FAILED_MESSAGE: string := "Failed to load sales intelligence"

  /** The decoded JSON body of a response. */
  datatype Body =
    | Unparsable(reason: string)
    | Parsed(success: bool, stores: Option<seq<StoreIntel>>, error: Option<string>)

  /** What the request to the sales-intelligence endpoint produced. */
  datatype FetchOutcome =
    | NetworkFailure(reason: string)
    | Response(status: nat, body: Body)

  /** What one load amounts to: a new store list, or the message of the thrown error. */
  datatype LoadResult = Loaded(stores: seq<StoreIntel>) | Failed(message: string)

  predicate StatusOk(status: nat) {
    200 <= status <= 299
  }

  predicate IsDigit(c: char) {
    '0' <= c <= '9'
  }

  function DigitValue(c: char): nat
    requires IsDigit(c)
  {
    c as int - '0' as int
  }

  function DigitChar(d: nat): (c: char)
    requires d < 10
    ensures IsDigit(c) && DigitValue(c) == d
  {
    "0123456789"[d]
  }

  /** Reads a string of decimal digits back as a number (a reference definition
      for `DecimalString`). */
  function DecimalValue(s: string): nat
    requires forall i :: 0 <= i < |s| ==> IsDigit(s[i])
  {
    if s == [] then 0
    else DecimalValue(s[..|s| - 1]) * 10 + DigitValue(s[|s| - 1])
  }

  /** The decimal digits of `n`, as a template literal prints a number: only
      digits, no leading zero, and they read back as `n`. */
  function DecimalString(n: nat): (r: string)
    ensures |r| >= 1
    ensures forall i :: 0 <= i < |r| ==> IsDigit(r[i])
    ensures |r| > 1 ==> r[0] != '0'
    ensures DecimalValue(r) == n
  {
    if n < 10 then [DigitChar(n)]
    else
      var prefix := DecimalString(n / 10);
      var r := prefix + [DigitChar(n % 10)];
      assert r[..|r| - 1] == prefix;
      r
  }

  /** The outcome of the `try` block: the list is replaced only when the request
      went through with a 2xx status and a body that says `success`; a missing
      `stores` field counts as an empty list. */
  function LoadOutcome(outcome: FetchOutcome): (r: LoadResult)
    ensures r.Loaded? <==>
      outcome.Response? && StatusOk(outcome.status) && outcome.body.Parsed? && outcome.body.success
    ensures r.Loaded? ==> r.stores == outcome.body.stores.GetOr([])
    ensures outcome.NetworkFailure? ==> r == Failed(outcome.reason)
    ensures outcome.Response? && !StatusOk(outcome.status) ==>
      r == Failed(API_ERROR_PREFIX + DecimalString(outcome.status))
    ensures outcome.Response? && StatusOk(outcome.status) && outcome.body.Unparsable? ==>
      r == Failed(outcome.body.reason)
    ensures outcome.Response? && StatusOk(outcome.status) && outcome.body.Parsed? && !outcome.body.success ==>
      r == Failed(if outcome.body.error.GetOr("") != "" then outcome.body.error.value else LOAD_FAILED_MESSAGE)
    ensures outcome.Response? && StatusOk(outcome.status) && outcome.body.Parsed? ==>
      r.Failed? ==> r.message != ""
  {
    match outcome
    case NetworkFailure(reason) => Failed(reason)
    case Response(status, body) =>
      if !StatusOk(status) then Failed(API_ERROR_PREFIX + DecimalString(status))
      else
        match body
        case Unparsable(reason) => Failed(reason)
        case Parsed(success, stores, error) =>
          if !success then
            Failed(if error == None || error == Some("") then LOAD_FAILED_MESSAGE else error.value)
          else Loaded(stores.GetOr([]))
  }

  /** A 404 answer is reported as "API Error: 404", whatever its body. */
  lemma NotFoundMessage(body: Body)
    ensures LoadOutcome(Response(404, body)) == Failed("API Error: 404")
  {
  }

  // ---------------------------------------------------------------------
  // The component
  // ---------------------------------------------------------------------

  /** The `App` component's state fields. */
  class Dashboard {
    var storeIntelligence: seq<StoreIntel>
    var loading: bool
    var syncing: bool
    var error: Option<string>
    var filterUrgency: Filter
    var searchTerm: string

    /** The initial state of the component's state hooks. */
    constructor ()
      ensures storeIntelligence == [] && loading && !syncing && error == None
      ensures filterUrgency == All && searchTerm == ""
    {
      storeIntelligence := [];
      loading := true;
      syncing := false;
      error := None;
      filterUrgency := All;
      searchTerm := "";
    }

    /** The list of store cards, from the current state: the loaded stores the
        filter and the search term keep, each as often as it was loaded, in
        tier order. */
    function FilteredStores(): (r: seq<StoreIntel>)
      reads this
      ensures multiset(r) == multiset(FilterStores(storeIntelligence, filterUrgency, searchTerm))
      ensures |r| == |FilterStores(storeIntelligence, filterUrgency, searchTerm)|
      ensures forall x :: x in r <==> x in storeIntelligence && Keep(x, filterUrgency, searchTerm)
      ensures forall i, j :: 0 <= i < j < |r| ==> Rank(r[i].urgency) <= Rank(r[j].urgency)
    {
      DisplayedStores(storeIntelligence, filterUrgency, searchTerm);
      SortStoresCorrect(FilterStores(storeIntelligence, filterUrgency, searchTerm));
      Display(storeIntelligence, filterUrgency, searchTerm)
    }

    /** The number on a tier card, over the whole loaded list: the length of the
        list shown with that tier selected and an empty search box. */
    function TierCount(tier: Urgency): (r: nat)
      reads this
      ensures r == |FilterStores(storeIntelligence, Only(tier), "")|
      ensures r <= |storeIntelligence|
    {
      CountIsFilteredLength(storeIntelligence, tier);
      FilterCounts(storeIntelligence, Only(tier), "");
      CountTier(storeIntelligence, tier)
    }

    /** The error page replaces the dashboard when the error message is truthy. */
    predicate ShowsErrorPage()
      reads this
    {
      error.Some? && error.value != ""
    }

    /** The onClick handler of a tier card. */
    method ClickTierCard(tier: Urgency)
      modifies this`filterUrgency
      ensures filterUrgency == ToggleTier(old(filterUrgency), tier)
      ensures forall t :: TierCount(t) == old(TierCount(t))
    {
      filterUrgency := ToggleTier(filterUrgency, tier);
    }

    /** The onClick handler of a filter button: sets the filter unconditionally. */
    method SetFilterUrgency(filter: Filter)
      modifies this`filterUrgency
      ensures filterUrgency == filter
      ensures forall t :: TierCount(t) == old(TierCount(t))
    {
      filterUrgency := filter;
    }

    /** The onChange handler of the search box. */
    method SetSearchTerm(term: string)
      modifies this`searchTerm
      ensures searchTerm == term
      ensures forall t :: TierCount(t) == old(TierCount(t))
    {
      searchTerm := term;
    }

    /** `loadSalesIntelligence`, with the request's outcome given: loading is
        raised and the error cleared, the list is replaced on success or the
        error recorded on failure, and loading is lowered in any case. */
    method LoadSalesIntelligence(outcome: FetchOutcome)
      modifies this`storeIntelligence, this`loading, this`error
      ensures !loading
      ensures LoadOutcome(outcome).Loaded? ==>
        storeIntelligence == LoadOutcome(outcome).stores && error == None
      ensures LoadOutcome(outcome).Failed? ==>
        storeIntelligence == old(storeIntelligence) && error == Some(LoadOutcome(outcome).message)
      ensures ShowsErrorPage() <==> LoadOutcome(outcome).Failed? && LoadOutcome(outcome).message != ""
    {
      loading := true;
      error := None;
      var thrown: Option<string> := None;
      match outcome {
        case NetworkFailure(reason) =>
          thrown := Some(reason);
        case Response(status, body) =>
          if !StatusOk(status) {
            thrown := Some(API_ERROR_PREFIX + DecimalString(status));
          } else {
            match body {
              case Unparsable(reason) =>
                thrown := Some(reason);
              case Parsed(success, stores, message) =>
                if !success {
                  thrown := Some(if message == None || message == Some("") then LOAD_FAILED_MESSAGE else message.value);
                } else {
                  storeIntelligence := stores.GetOr([]);
                }
            }
          }
      }
      if thrown.Some? {
        error := thrown;
      }
      loading := false;
    }
  }

  /** Clicking the same tier card twice from `'all'` comes back to `'all'`. */
  method ClickSameCardTwice(dashboard: Dashboard, tier: Urgency)
    requires dashboard.filterUrgency == All
    modifies dashboard`filterUrgency
    ensures dashboard.filterUrgency == All
  {
    dashboard.ClickTierCard(tier);
    assert dashboard.filterUrgency == Only(tier);
    dashboard.ClickTierCard(tier);
  }

  /** From `'all'` or another tier, with an empty search box, a click on a tier card lists
      exactly the loaded stores of that tier, as many as the card's number. */
  method ClickCardShowsItsTier(dashboard: Dashboard, tier: Urgency)
    requires dashboard.filterUrgency != Only(tier) && dashboard.searchTerm == ""
    modifies dashboard`filterUrgency
    ensures forall x :: x in dashboard.FilteredStores() <==>
      x in dashboard.storeIntelligence && x.urgency == tier
    ensures |dashboard.FilteredStores()| == dashboard.TierCount(tier)
  {
    dashboard.ClickTierCard(tier);
    assert dashboard.filterUrgency == Only(tier);
  }

  /** After typing a search term, the list holds exactly the loaded stores of
      the selected tier whose lower-cased name contains the lower-cased term. */
  method SearchShowsMatches(dashboard: Dashboard, term: string)
    modifies dashboard`searchTerm
    ensures dashboard.searchTerm == term
    ensures dashboard.filterUrgency == old(dashboard.filterUrgency)
    ensures forall x :: x in dashboard.FilteredStores() <==>
      x in dashboard.storeIntelligence
      && TextRules.Occurs(TextRules.Lower(x.name), TextRules.Lower(term))
      && (dashboard.filterUrgency.All? || x.urgency == dashboard.filterUrgency.tier)
  {
    dashboard.SetSearchTerm(term);
    forall x
      ensures Keep(x, dashboard.filterUrgency, term) <==>
        TextRules.Occurs(TextRules.Lower(x.name), TextRules.Lower(term))
        && (dashboard.filterUrgency.All? || x.urgency == dashboard.filterUrgency.tier)
    {
      KeepMeaning(x, dashboard.filterUrgency, term);
      TextRules.IncludesEmpty(TextRules.Lower(x.name));
      TextRules.IncludesIsOccurs(TextRules.Lower(x.name), TextRules.Lower(term));
      assert TextRules.OccursAt(TextRules.Lower(x.name), TextRules.Lower(""), 0);
    }
  }

  /** The error page follows a load: an HTTP error status and an unsuccessful
      body always bring it up, a successful load never does, and a thrown error
      with an empty message leaves the dashboard visible. */
  method LoadShowsErrorPage(dashboard: Dashboard, outcome: FetchOutcome)
    modifies dashboard`storeIntelligence, dashboard`loading, dashboard`error
    ensures outcome.Response? && !StatusOk(outcome.status) ==> dashboard.ShowsErrorPage()
    ensures outcome.Response? && StatusOk(outcome.status) && outcome.body.Parsed? ==>
      (dashboard.ShowsErrorPage() <==> !outcome.body.success)
    ensures outcome.NetworkFailure? ==> (dashboard.ShowsErrorPage() <==> outcome.reason != "")
  {
    dashboard.LoadSalesIntelligence(outcome);
  }
}
