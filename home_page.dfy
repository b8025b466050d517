/**
  The home page: a paged list of properties loaded five at a time, pulled to
  refresh and extended by infinite scroll, narrowed by a single active
  category chip. The page's numeric and list fields are packed into a
  `HomeState` value; each operation is a function on it, and the class's
  methods are proved to apply those functions.

  `loadProperties` first awaits the stored user; the model takes that user as
  a parameter and treats the rest of the call (and, separately, the arrival
  of its response) as one step.
*/
module HomePage {
  import opened Wrappers
  import opened JsString
  import opened Json
  import PropertyFilter
  import FilterPropertyPage

  type Listing = PropertyFilter.Listing

  /** A GET the page issued; `filtered` tells which of its two response handlers will run. */
  datatype PropertiesRequest = PropertiesRequest(url: string, filtered: bool)

  /** A `/properties` response: `properties` is None when the key is missing or falsy. */
  datatype PropertiesResponse = PropertiesResponse(properties: Option<seq<Listing>>, pages: int)

  datatype HomeState = HomeState(
    filter: string,
    page: int,
    totalPages: int,
    loading: bool,
    properties: seq<Listing>,
    requests: seq<PropertiesRequest>)

  /** `owner?.role === 'owner' ? owner?.id : ''`. */
  function OwnerId(owner: Option<UserRecord>): (id: string)
    ensures owner.Some? && owner.value.role == "owner" ==> id == owner.value.id
    ensures owner.None? || owner.value.role != "owner" ==> id == ""
  {
    if owner.Some? && owner.value.role == "owner" then owner.value.id else ""
  }

  /** The URL up to the page number: the filter and 'page=', or the owner id and '&page='. */
  function PageQueryPrefix(api: string, s: HomeState, owner: Option<UserRecord>): (p: string)
    ensures |p| >= |api + "/properties"| && p[..|api + "/properties"|] == api + "/properties"
  {
    if s.filter != "" then api + "/properties" + s.filter + "page="
    else api + "/properties?ownerId=" + OwnerId(owner) + "&page="
  }

  /** The three parts of `p + d + e`, each cut back out, and any prefix of `p`. */
  lemma {:induction false} ThreeParts(p: string, d: string, e: string, k: nat)
    requires k <= |p|
    ensures var u := p + d + e;
      && |u| == |p| + |d| + |e|
      && u[..|p|] == p && u[|p|..|u| - |e|] == d && u[|u| - |e|..] == e && u[|p|..] == d + e
      && u[..k] == p[..k]
  {
    var u := p + d + e;
    assert u[..|p|] == p;
    assert u[|p|..] == d + e;
    assert u[|p|..|u| - |e|] == (d + e)[..|d|];
  }

  /**
    The URL `loadProperties` requests: the prefix, the page number, then
    '&limit=5'; `parseInt` reads the page back from just after the prefix.
  */
  function PropertiesUrl(api: string, s: HomeState, owner: Option<UserRecord>): (url: string)
    ensures |url| >= |api + "/properties"| && url[..|api + "/properties"|] == api + "/properties"
    ensures var p := PageQueryPrefix(api, s, owner);
      && |url| == |p| + |IntToString(s.page)| + 8
      && url[..|p|] == p
      && url[|p|..|url| - 8] == IntToString(s.page)
      && url[|url| - 8..] == "&limit=5"
    ensures s.page >= 0 ==> ParseInt(url[|PageQueryPrefix(api, s, owner)|..]) == Some(s.page)
  {
    var p := PageQueryPrefix(api, s, owner);
    var d := IntToString(s.page);
    ThreeParts(p, d, "&limit=5", |api + "/properties"|);
    if s.page >= 0 then ParseIntOfNatToStringThen(s.page, "&limit=5"); p + d + "&limit=5"
    else p + d + "&limit=5"
  }

  /** The part of `loadProperties` after the user is known: loading starts and one GET goes out. */
  function StartLoad(api: string, s: HomeState, owner: Option<UserRecord>): (r: HomeState)
    ensures r.loading && r.requests == s.requests + [PropertiesRequest(PropertiesUrl(api, s, owner), s.filter != "")]
    ensures r.(loading := s.loading, requests := s.requests) == s
  {
    s.(loading := true, requests := s.requests + [PropertiesRequest(PropertiesUrl(api, s, owner), s.filter != "")])
  }

  /** `handleRefresh`: back to page 1, then reload. */
  function Refreshed(api: string, s: HomeState, owner: Option<UserRecord>): (r: HomeState)
    ensures r.page == 1 && r.loading && r.filter == s.filter && r.properties == s.properties
    ensures r.requests == s.requests + [PropertiesRequest(PropertiesUrl(api, s.(page := 1), owner), s.filter != "")]
  {
    StartLoad(api, s.(page := 1), owner)
  }

  /** `onIonInfinite`: the next page is requested only while there is one and nothing is loading. */
  function Scrolled(api: string, s: HomeState, owner: Option<UserRecord>): (r: HomeState)
    ensures s.page < s.totalPages && !s.loading ==> r.page == s.page + 1 && r.loading && |r.requests| == |s.requests| + 1
    ensures !(s.page < s.totalPages && !s.loading) ==> r == s
    ensures r.totalPages == s.totalPages && r.properties == s.properties && r.filter == s.filter
    ensures s.page <= s.totalPages ==> r.page <= r.totalPages
  {
    if s.page < s.totalPages && !s.loading then StartLoad(api, s.(page := s.page + 1), owner) else s
  }

  /** `n` infinite-scroll events in a row. */
  function ScrolledTimes(api: string, s: HomeState, owner: Option<UserRecord>, n: nat): HomeState
    decreases n
  {
    if n == 0 then s else ScrolledTimes(api, Scrolled(api, s, owner), owner, n - 1)
  }

  /** However often the user scrolls, a page within range stays within range and never goes back. */
  lemma {:induction false} ScrollingStaysInRange(api: string, s: HomeState, owner: Option<UserRecord>, n: nat)
    requires s.page <= s.totalPages
    ensures s.page <= ScrolledTimes(api, s, owner, n).page <= s.totalPages
    ensures ScrolledTimes(api, s, owner, n).totalPages == s.totalPages
    decreases n
  {
    if n > 0 {
      ScrollingStaysInRange(api, Scrolled(api, s, owner), owner, n - 1);
    }
  }

  /** While a load is pending, scrolling does nothing, however often. */
  lemma {:induction false} ScrollingWhileLoading(api: string, s: HomeState, owner: Option<UserRecord>, n: nat)
    requires s.loading
    ensures ScrolledTimes(api, s, owner, n) == s
    decreases n
  {
    if n > 0 {
      ScrollingWhileLoading(api, s, owner, n - 1);
    }
  }

  /**
    The response to an unfiltered request, handled with the page number the
    page has when it arrives: page 1 replaces the list, later pages append.
    A response without `properties` changes nothing, so `loading` stays on.
  */
  function UnfilteredLoaded(s: HomeState, data: PropertiesResponse): (r: HomeState)
    ensures data.properties.None? ==> r == s
    ensures data.properties.Some? ==>
      !r.loading && r.totalPages == data.pages && r.page == s.page && r.filter == s.filter
      && r.properties == (if s.page == 1 then [] else s.properties) + data.properties.value
  {
    match data.properties
    case None => s
    case Some(ps) =>
      var merged := if s.page == 1 then ps else s.properties + ps;
      assert merged == (if s.page == 1 then [] else s.properties) + ps;
      s.(properties := merged, totalPages := data.pages, loading := false)
  }

  /** The response to a filtered request: a present list always replaces. */
  function FilteredLoaded(s: HomeState, data: PropertiesResponse): (r: HomeState)
    ensures data.properties.None? ==> r == s
    ensures data.properties.Some? ==>
      !r.loading && r.totalPages == data.pages && r.page == s.page && r.filter == s.filter
      && r.properties == data.properties.value
  {
    match data.properties
    case None => s
    case Some(ps) => s.(properties := ps, totalPages := data.pages, loading := false)
  }

  /** Pages loaded one after another without a filter concatenate in order. */
  lemma AppendedInOrder(s: HomeState, a: seq<Listing>, b: seq<Listing>, pages: int)
    requires s.page > 1
    ensures UnfilteredLoaded(UnfilteredLoaded(s, PropertiesResponse(Some(a), pages)), PropertiesResponse(Some(b), pages)).properties
      == s.properties + a + b
  {
  }

  /**
    A load whose response lacks `properties` leaves `loading` on for good:
    after it no infinite scroll fetches anything.
  */
  lemma LoadingCanStick(api: string, s: HomeState, owner: Option<UserRecord>, pages: int, n: nat)
    ensures var stuck := UnfilteredLoaded(StartLoad(api, s, owner), PropertiesResponse(None, pages));
            stuck.loading && ScrolledTimes(api, stuck, owner, n) == stuck
  {
    var stuck := UnfilteredLoaded(StartLoad(api, s, owner), PropertiesResponse(None, pages));
    ScrollingWhileLoading(api, stuck, owner, n);
  }

  /** The filter `onCategorySelect` builds for a category name. */
  function CategoryFilter(name: string): (f: string)
    ensures |f| == 15 + |name|
    ensures f[..14] == "?propertyType=" && f[14..|f| - 1] == name && f[|f| - 1] == '&'
  {
    "?propertyType=" + name + "&"
  }

  /**
    `onCategorySelect`'s effect on the state: the category's filter, page 1,
    then a load, which (the filter being non-empty) is a filtered one.
  */
  function CategorySelected(api: string, s: HomeState, name: string, owner: Option<UserRecord>): (r: HomeState)
    ensures r.filter == CategoryFilter(name) && r.page == 1 && r.loading
    ensures r.requests == s.requests + [PropertiesRequest(PropertiesUrl(api, r, owner), true)]
    ensures r.properties == s.properties && r.totalPages == s.totalPages
  {
    StartLoad(api, s.(filter := CategoryFilter(name), page := 1), owner)
  }

  /**
    The filter sheet closed with data: the filters object is concatenated
    with '&', and an object converts to the string '[object Object]', so the
    next load is a filtered one whose URL carries that text.
  */
  function FiltersDismissed(api: string, s: HomeState, owner: Option<UserRecord>): (r: HomeState)
    ensures r.filter == "[object Object]&" && r.page == s.page && r.loading
    ensures r.requests == s.requests + [PropertiesRequest(PropertiesUrl(api, r, owner), true)]
    ensures PropertiesUrl(api, r, owner) == api + "/properties" + "[object Object]&" + "page=" + IntToString(s.page) + "&limit=5"
  {
    StartLoad(api, s.(filter := "[object Object]&"), owner)
  }

  // ---- categories ----

  /** A category chip; `active` is flipped in place. */
  class CategoryChip {
    const name: string
    const icon: string
    var active: bool

    constructor (name: string, icon: string)
      ensures this.name == name && this.icon == icon && !active
    {
      this.name := name;
      this.icon := icon;
      active := false;
    }
  }

  predicate NamesDistinct(cs: seq<CategoryChip>) {
    forall i, j :: 0 <= i < j < |cs| ==> cs[i].name != cs[j].name
  }

  /** The `forEach` of `onCategorySelect`: every chip with another name is switched off. */
  method DeactivateOthers(cs: seq<CategoryChip>, name: string)
    requires NamesDistinct(cs)
    modifies cs
    ensures forall j :: 0 <= j < |cs| ==> cs[j].active == (cs[j].name == name && old(cs[j].active))
  {
    var k := 0;
    while k < |cs|
      invariant 0 <= k <= |cs|
      invariant forall j :: 0 <= j < k ==> cs[j].active == (cs[j].name == name && old(cs[j].active))
      invariant forall j :: k <= j < |cs| ==> cs[j].active == old(cs[j].active)
    {
      if cs[k].name != name {
        assert forall j :: k < j < |cs| ==> cs[j] != cs[k];
        cs[k].active := false;
      }
      k := k + 1;
    }
  }

  class HomePage {
    const apiBaseUrl: string
    const categories: seq<CategoryChip>
    var filter: string
    var page: int
    var totalPages: int
    var loading: bool
    var properties: seq<Listing>
    var requests: seq<PropertiesRequest>
    var appliedFilters: Option<FilterPropertyPage.AppliedFilters>

    function State(): HomeState
      reads this
    {
      HomeState(filter, page, totalPages, loading, properties, requests)
    }

    ghost predicate Valid()
      reads this
    {
      NamesDistinct(categories)
    }

    method SetState(s: HomeState)
      modifies this
      ensures State() == s && appliedFilters == old(appliedFilters)
    {
      filter, page, totalPages, loading, properties, requests :=
        s.filter, s.page, s.totalPages, s.loading, s.properties, s.requests;
    }

    /** The page as created: no filter, page 1 of 0, the six inactive category chips. */
    constructor (apiBaseUrl: string)
      ensures Valid() && fresh(categories) && |categories| == 6
      ensures State() == HomeState("", 1, 0, false, [], []) && appliedFilters == None
      ensures this.apiBaseUrl == apiBaseUrl
    {
      var flat := new CategoryChip("Flat", "home-outline");
      var room := new CategoryChip("Room", "person-outline");
      var pg := new CategoryChip("PG", "bed-outline");
      var house := new CategoryChip("House", "key-outline");
      var hostel := new CategoryChip("Hostel", "school-outline");
      var other := new CategoryChip("Other", "ellipsis-horizontal-outline");
      SixNamesDistinct([flat, room, pg, house, hostel, other]);
      this.apiBaseUrl := apiBaseUrl;
      categories := [flat, room, pg, house, hostel, other];
      filter := "";
      page := 1;
      totalPages := 0;
      loading := false;
      properties := [];
      requests := [];
      appliedFilters := None;
    }

    /** `loadProperties`, once the stored user `owner` is known. */
    method LoadProperties(owner: Option<UserRecord>)
      modifies this
      ensures State() == StartLoad(apiBaseUrl, old(State()), owner) && appliedFilters == old(appliedFilters)
    {
      SetState(StartLoad(apiBaseUrl, State(), owner));
    }

    method HandleRefresh(owner: Option<UserRecord>)
      modifies this
      ensures State() == Refreshed(apiBaseUrl, old(State()), owner) && appliedFilters == old(appliedFilters)
    {
      page := 1;
      LoadProperties(owner);
    }

    method OnIonInfinite(owner: Option<UserRecord>)
      modifies this
      ensures State() == Scrolled(apiBaseUrl, old(State()), owner) && appliedFilters == old(appliedFilters)
    {
      if page < totalPages && !loading {
        page := page + 1;
        LoadProperties(owner);
      }
    }

    /** The response to an unfiltered request arrives. */
    method UnfilteredResponse(data: PropertiesResponse)
      modifies this
      ensures State() == UnfilteredLoaded(old(State()), data) && appliedFilters == old(appliedFilters)
    {
      SetState(UnfilteredLoaded(State(), data));
    }

    /** The response to a filtered request arrives. */
    method FilteredResponse(data: PropertiesResponse)
      modifies this
      ensures State() == FilteredLoaded(old(State()), data) && appliedFilters == old(appliedFilters)
    {
      SetState(FilteredLoaded(State(), data));
    }

    /**
      `onCategorySelect(category)`: the clicked chip is switched on, every
      chip with another name off, and a filtered load of page 1 starts.
    */
    method OnCategorySelect(category: CategoryChip, owner: Option<UserRecord>)
      requires Valid()
      modifies this, categories, category
      ensures State() == CategorySelected(apiBaseUrl, old(State()), category.name, owner)
      ensures category.active
      ensures forall j :: 0 <= j < |categories| && categories[j] != category ==>
        categories[j].active == (categories[j].name == category.name && old(categories[j].active))
      ensures category in categories ==> forall j :: 0 <= j < |categories| ==> (categories[j].active <==> categories[j] == category)
      ensures appliedFilters == old(appliedFilters)
    {
      var s := CategorySelected(apiBaseUrl, State(), category.name, owner);
      category.active := true;
      DeactivateOthers(categories, category.name);
      SetState(s);
    }

    /** The filter sheet was dismissed; with data, its filters are kept and the list reloads. */
    method OnFiltersDismissed(data: Option<FilterPropertyPage.AppliedFilters>, owner: Option<UserRecord>)
      modifies this
      ensures data.None? ==> State() == old(State()) && appliedFilters == old(appliedFilters)
      ensures data.Some? ==> State() == FiltersDismissed(apiBaseUrl, old(State()), owner) && appliedFilters == data
    {
      if data.Some? {
        appliedFilters := data;
        SetState(FiltersDismissed(apiBaseUrl, State(), owner));
      }
    }
  }

  lemma SixNamesDistinct(cs: seq<CategoryChip>)
    requires |cs| == 6 && cs[0].name == "Flat" && cs[1].name == "Room" && cs[2].name == "PG"
    requires cs[3].name == "House" && cs[4].name == "Hostel" && cs[5].name == "Other"
    ensures NamesDistinct(cs)
  {
    forall i, j | 0 <= i < j < 6 ensures cs[i].name != cs[j].name {
      assert cs[i].name[0] != cs[j].name[0] || |cs[i].name| != |cs[j].name|;
    }
  }
}
