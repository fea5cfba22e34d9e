/** The marketplace page: the listings it shows (the user's own query first, then the
    government listings the tab and category admit), the search over them, the form that
    creates a listing, and the title shown on a card. */
module Marketplace {
  import opened Common
  import opened Listing

  /** The page's tabs: "all", or one listing type. */
  datatype Tab = AllTab | TypeTab(listingType: ListingType)
  {
    function Key(): (k: string)
      ensures k == "all" <==> this.AllTab?
    {
      match this
      case AllTab => "all"
      case TypeTab(t) => t.Key()
    }
  }

  /** The category filter's value that filters nothing. */
  const AllCategories: string := "all"

  // ---------------------------------------------------------------------------
  // What fetchListings shows

  /** A government listing shows on a tab when the tab is "all" or names its type. */
  predicate TabAdmits(tab: Tab, l: Listing)
  {
    tab.AllTab? || l.listingType == tab.listingType
  }

  /** A listing passes the category filter when it is "all" or the listing's category. */
  predicate CategoryAdmits(category: string, l: Listing)
  {
    category == AllCategories || l.category == category
  }

  /** The government listings shown under a tab and a category, in the order fetched. */
  function GovShown(gov: seq<Listing>, tab: Tab, category: string): (r: seq<Listing>)
    ensures forall x :: x in r <==> x in gov && TabAdmits(tab, x) && CategoryAdmits(category, x)
    ensures tab.AllTab? && category == AllCategories ==> r == gov
    ensures |r| <= |gov|
  {
    var byTab := Filter(gov, l => TabAdmits(tab, l));
    FilterMembers(gov, l => TabAdmits(tab, l));
    FilterAllOrNone(gov, l => TabAdmits(tab, l));
    FilterMembers(byTab, l => CategoryAdmits(category, l));
    if category == AllCategories then byTab else Filter(byTab, l => CategoryAdmits(category, l))
  }

  /** Government listings arriving in two parts show as the two parts' shown listings. */
  lemma GovShownAppend(a: seq<Listing>, b: seq<Listing>, tab: Tab, category: string)
    ensures GovShown(a + b, tab, category) == GovShown(a, tab, category) + GovShown(b, tab, category)
  {
    var pt := l => TabAdmits(tab, l);
    var pc := l => CategoryAdmits(category, l);
    FilterAppend(a, b, pt);
    if category != AllCategories {
      FilterAppend(Filter(a, pt), Filter(b, pt), pc);
    }
  }

  /** The list the page keeps: the user listings as queried, then the government ones. */
  function Merged(user: seq<Listing>, gov: Option<seq<Listing>>, tab: Tab, category: string): (r: seq<Listing>)
    ensures |user| <= |r|
    ensures r[..|user|] == user
    ensures gov.None? ==> r == user
    ensures forall k :: |user| <= k < |r| ==>
              r[k] in gov.value && TabAdmits(tab, r[k]) && CategoryAdmits(category, r[k])
  {
    match gov
    case None => user
    case Some(g) =>
      var shown := GovShown(g, tab, category);
      assert forall k :: |user| <= k < |user + shown| ==> (user + shown)[k] in shown;
      user + shown
  }

  /** Every government listing the tab and the category admit is in the list, after all the
      user listings. */
  lemma MergedHoldsGovShown(user: seq<Listing>, gov: seq<Listing>, tab: Tab, category: string, x: Listing)
    requires x in gov && TabAdmits(tab, x) && CategoryAdmits(category, x)
    ensures exists k :: |user| <= k < |Merged(user, Some(gov), tab, category)| &&
                        Merged(user, Some(gov), tab, category)[k] == x
  {
    var shown := GovShown(gov, tab, category);
    var k :| 0 <= k < |shown| && shown[k] == x;
    assert Merged(user, Some(gov), tab, category)[|user| + k] == x;
  }

  // ---------------------------------------------------------------------------
  // Search

  /** The title or the description contains the query, both lower-cased. */
  predicate Matches(l: Listing, query: string)
  {
    Contains(ToLower(l.title), ToLower(query)) || Contains(ToLower(l.description), ToLower(query))
  }

  /** `filteredListings`. */
  function Search(ls: seq<Listing>, query: string): (r: seq<Listing>)
    ensures forall x :: x in r <==> x in ls && Matches(x, query)
    ensures |r| <= |ls|
  {
    FilterMembers(ls, l => Matches(l, query));
    Filter(ls, l => Matches(l, query))
  }

  /** An empty query keeps every listing. */
  lemma SearchEmpty(ls: seq<Listing>)
    ensures Search(ls, "") == ls
  {
    forall i | 0 <= i < |ls| ensures Matches(ls[i], "") {
      ContainsEmpty(ToLower(ls[i].title));
    }
    FilterAllOrNone(ls, l => Matches(l, ""));
  }

  /** Lower-casing twice is lower-casing once. */
  lemma ToLowerTwice(s: string)
    ensures ToLower(ToLower(s)) == ToLower(s)
  {
    var t := ToLower(s);
    forall i | 0 <= i < |s| ensures ToLower(t)[i] == t[i] {
      assert ToLowerChar(t[i]) == t[i];
    }
  }

  /** The case of the query does not matter. */
  lemma SearchIgnoresCase(ls: seq<Listing>, query: string)
    ensures Search(ls, query) == Search(ls, ToLower(query))
  {
    ToLowerTwice(query);
    FilterAgree(ls, l => Matches(l, query), l => Matches(l, ToLower(query)));
  }

  /** Searching the results again for the same query finds them all. */
  lemma SearchTwice(ls: seq<Listing>, query: string)
    ensures Search(Search(ls, query), query) == Search(ls, query)
  {
    FilterTwice(ls, l => Matches(l, query));
  }

  /** Searching keeps the user listings ahead of the government ones. */
  lemma SearchKeepsOrder(user: seq<Listing>, gov: seq<Listing>, query: string)
    ensures Search(user + gov, query) == Search(user, query) + Search(gov, query)
  {
    FilterAppend(user, gov, l => Matches(l, query));
  }

  // ---------------------------------------------------------------------------
  // Creating a listing

  /** The create-listing form. */
  datatype ListingForm = ListingForm(
    title: string,
    description: string,
    category: string,
    listingType: ListingType,
    priceRange: string,
    quantity: string,
    location: string,
    contactInfo: string)

  /** The form as the page opens and as it is reset: blank, of type "sell". */
  const BlankForm: ListingForm := ListingForm("", "", "", Sell, "", "", "", "")

  /** A required field (title, description, category or location) is empty; nothing is
      trimmed first. */
  predicate MissingRequired(form: ListingForm)
  {
    form.title == "" || form.description == "" || form.category == "" || form.location == ""
  }

  /** `value || null`. */
  function NullIfEmpty(s: string): (r: Option<string>)
    ensures r.None? <==> s == ""
    ensures r.Some? ==> r.value == s
  {
    if s == "" then None else Some(s)
  }

  /** The row the page inserts. */
  datatype NewListing = NewListing(
    userId: string,
    title: string,
    description: string,
    category: string,
    listingType: ListingType,
    priceRange: Option<string>,
    quantity: Option<string>,
    location: string,
    contactInfo: Option<string>)

  /** The inserted row: the form's fields as typed, with an empty price range, quantity or
      contact turned into null. */
  function InsertRow(userId: string, form: ListingForm): (row: NewListing)
    ensures row.userId == userId && row.title == form.title && row.description == form.description
    ensures row.category == form.category && row.listingType == form.listingType && row.location == form.location
    ensures row.priceRange.None? <==> form.priceRange == ""
    ensures row.quantity.None? <==> form.quantity == ""
    ensures row.contactInfo.None? <==> form.contactInfo == ""
    ensures row.priceRange.Some? ==> row.priceRange.value == form.priceRange
    ensures row.quantity.Some? ==> row.quantity.value == form.quantity
    ensures row.contactInfo.Some? ==> row.contactInfo.value == form.contactInfo
  {
    NewListing(userId, form.title, form.description, form.category, form.listingType,
               NullIfEmpty(form.priceRange), NullIfEmpty(form.quantity), form.location,
               NullIfEmpty(form.contactInfo))
  }

  /** A stored row read back into the form: null is an empty field. */
  function FormOfRow(row: NewListing): ListingForm
  {
    ListingForm(row.title, row.description, row.category, row.listingType,
                if row.priceRange.Some? then row.priceRange.value else "",
                if row.quantity.Some? then row.quantity.value else "", row.location,
                if row.contactInfo.Some? then row.contactInfo.value else "")
  }

  /** Nothing typed is lost: reading the inserted row back gives the form again, and the
      row belongs to the user who submitted it. */
  lemma InsertRowRoundTrip(userId: string, form: ListingForm)
    ensures FormOfRow(InsertRow(userId, form)) == form
    ensures InsertRow(userId, form).userId == userId
  {
  }

  /** What pressing "Create Listing" came to. */
  datatype SubmitOutcome = SignInRequired | MissingFields | Inserted(row: NewListing) | InsertFailed(row: NewListing)

  // ---------------------------------------------------------------------------
  // The card title

  /** The prefixes the government listings' titles carry. */
  const TitlePrefixes: seq<string> := ["Supplier: ", "Manufacturer: ", "Export Partner: "]

  /** No title starts with two of the prefixes: their first letters differ. */
  lemma PrefixesExclusive(title: string)
    ensures forall j, k ::
              (0 <= j < |TitlePrefixes| && 0 <= k < |TitlePrefixes| &&
               TitlePrefixes[j] <= title && TitlePrefixes[k] <= title) ==> j == k
  {
    forall j, k | 0 <= j < |TitlePrefixes| && 0 <= k < |TitlePrefixes| &&
                  TitlePrefixes[j] <= title && TitlePrefixes[k] <= title
      ensures j == k
    {
      assert TitlePrefixes[j][0] == title[0] == TitlePrefixes[k][0];
    }
  }

  /** The title shown on a card: one leading prefix removed. */
  function DisplayTitle(title: string): (r: string)
    ensures forall k :: 0 <= k < |TitlePrefixes| && TitlePrefixes[k] <= title ==>
              r == title[|TitlePrefixes[k]|..]
    ensures (forall k :: 0 <= k < |TitlePrefixes| ==> !(TitlePrefixes[k] <= title)) ==> r == title
  {
    PrefixesExclusive(title);
    if TitlePrefixes[0] <= title then title[|TitlePrefixes[0]|..]
    else if TitlePrefixes[1] <= title then title[|TitlePrefixes[1]|..]
    else if TitlePrefixes[2] <= title then title[|TitlePrefixes[2]|..]
    else title
  }

  /** Only the first prefix goes: the rest of the title is shown as it is, even when it
      starts with a prefix itself. */
  lemma DisplayTitleStripsOnce(k: nat, rest: string)
    requires k < |TitlePrefixes|
    ensures DisplayTitle(TitlePrefixes[k] + rest) == rest
  {
    var t := TitlePrefixes[k] + rest;
    assert TitlePrefixes[k] <= t;
    assert t[|TitlePrefixes[k]|..] == rest;
  }

  // ---------------------------------------------------------------------------
  // The page

  class MarketplaceView {
    var listings: seq<Listing>
    var isLoading: bool
    var activeTab: Tab
    var searchQuery: string
    var categoryFilter: string
    var isDialogOpen: bool
    var isSubmitting: bool
    var formData: ListingForm

    constructor ()
      ensures listings == [] && isLoading && activeTab == AllTab && searchQuery == ""
      ensures categoryFilter == AllCategories && !isDialogOpen && !isSubmitting && formData == BlankForm
    {
      listings := [];
      isLoading := true;
      activeTab := AllTab;
      searchQuery := "";
      categoryFilter := AllCategories;
      isDialogOpen := false;
      isSubmitting := false;
      formData := BlankForm;
    }

    /** The listings on show. */
    function Filtered(): (r: seq<Listing>)
      reads this
      ensures forall x :: x in r <==> x in listings && Matches(x, searchQuery)
    {
      Search(listings, searchQuery)
    }

    /** `fetchListings`, given what the listing query returned (`None` when it failed) and
        what the government endpoint returned (`None` when it failed or was not OK). */
    method FetchListings(userRows: Option<seq<Listing>>, gov: Option<seq<Listing>>)
      modifies this`listings, this`isLoading
      ensures userRows.None? ==> listings == old(listings)
      ensures userRows.Some? ==> listings == Merged(userRows.value, gov, activeTab, categoryFilter)
      ensures !isLoading
    {
      isLoading := true;
      if userRows.Some? {
        listings := Merged(userRows.value, gov, activeTab, categoryFilter);
      }
      isLoading := false;
    }

    /** Choosing a tab also resets the category filter. */
    method ChangeTab(tab: Tab)
      modifies this`activeTab, this`categoryFilter
      ensures activeTab == tab && categoryFilter == AllCategories
    {
      activeTab := tab;
      categoryFilter := AllCategories;
    }

    /** The category selector leaves the tab as it is. */
    method SetCategory(category: string)
      modifies this`categoryFilter
      ensures categoryFilter == category
    {
      categoryFilter := category;
    }

    method SetSearchQuery(query: string)
      modifies this`searchQuery
      ensures searchQuery == query
    {
      searchQuery := query;
    }

    method OpenDialog()
      modifies this`isDialogOpen
      ensures isDialogOpen
    {
      isDialogOpen := true;
    }

    method EditForm(form: ListingForm)
      modifies this`formData
      ensures formData == form
    {
      formData := form;
    }

    /** `handleSubmit`, given the signed-in user's id and whether the insert succeeded. */
    method SubmitListing(userId: Option<string>, insertOk: bool) returns (outcome: SubmitOutcome)
      modifies this`isDialogOpen, this`formData, this`isSubmitting
      ensures userId.None? ==> outcome == SignInRequired
      ensures userId.Some? && MissingRequired(old(formData)) ==> outcome == MissingFields
      ensures userId.Some? && !MissingRequired(old(formData)) ==>
                outcome == (if insertOk then Inserted(InsertRow(userId.value, old(formData)))
                            else InsertFailed(InsertRow(userId.value, old(formData))))
      ensures outcome.Inserted? ==> !isDialogOpen && formData == BlankForm
      ensures !outcome.Inserted? ==> isDialogOpen == old(isDialogOpen) && formData == old(formData)
      ensures outcome.SignInRequired? || outcome.MissingFields? ==> isSubmitting == old(isSubmitting)
      ensures outcome.Inserted? || outcome.InsertFailed? ==> !isSubmitting
    {
      if userId.None? {
        return SignInRequired;
      }
      if MissingRequired(formData) {
        return MissingFields;
      }
      isSubmitting := true;
      var row := InsertRow(userId.value, formData);
      if insertOk {
        isDialogOpen := false;
        formData := BlankForm;
        outcome := Inserted(row);
      } else {
        outcome := InsertFailed(row);
      }
      isSubmitting := false;
    }
  }
}
