/**
  The filter bottom sheet: four catalogues of chips whose `selected` flags the
  user flips, a free-text price range and location, and a sort choice. The
  sheet hands an "applied filters" object back when it is dismissed.

  The state is kept in a class whose fields mirror the page's; `State()` packs
  them into a `SheetState` value, and every operation is specified by a pure
  function on `SheetState` about which the lemmas below are proved.
*/
module FilterPropertyPage {
  import opened Wrappers
  import opened JsString
  import opened Seqs

  datatype FilterOption = FilterOption(id: string, labelText: string, selected: bool)

  datatype PriceRange = PriceRange(min: string, max: string)

  /** What the sheet is given on opening and hands back on Apply; a missing price range is `None`. */
  datatype AppliedFilters = AppliedFilters(
    propertyTypes: seq<FilterOption>,
    bhkTypes: seq<FilterOption>,
    furnishing: seq<FilterOption>,
    amenities: seq<FilterOption>,
    priceRange: Option<PriceRange>,
    location: string,
    sortBy: string)

  /** The four chip categories, as `toggleAllInCategory` names them. */
  datatype Category = Property | Bhk | Furnishing | Amenities

  function Unselected(id: string, labelText: string): FilterOption {
    FilterOption(id, labelText, false)
  }

  const PropertyTypeCatalogue: seq<FilterOption> := [
    Unselected("villa", "Villas"), Unselected("house", "Houses"), Unselected("apartment", "Apartments"),
    Unselected("condo", "Condos"), Unselected("townhouse", "Townhouses")]

  const BhkCatalogue: seq<FilterOption> := [
    Unselected("1bhk", "1 BHK"), Unselected("2bhk", "2 BHK"), Unselected("3bhk", "3 BHK"),
    Unselected("4bhk", "4 BHK"), Unselected("5bhk", "5+ BHK")]

  const FurnishingCatalogue: seq<FilterOption> := [
    Unselected("fully", "Fully Furnished"), Unselected("semi", "Semi Furnished"),
    Unselected("unfurnished", "Unfurnished")]

  const AmenityCatalogue: seq<FilterOption> := [
    Unselected("pool", "Swimming Pool"), Unselected("gym", "Gym"), Unselected("parking", "Parking"),
    Unselected("security", "Security"), Unselected("garden", "Garden"), Unselected("elevator", "Elevator"),
    Unselected("backup", "Power Backup"), Unselected("clubhouse", "Club House"),
    Unselected("playground", "Playground"), Unselected("spa", "Spa"), Unselected("wifi", "Wi-Fi"),
    Unselected("maintenance", "24/7 Maintenance")]

  const SortOptions: seq<string> := [
    "Price: Low to High", "Price: High to Low", "Newest First", "Most Popular",
    "Area: Low to High", "Area: High to Low", "Distance: Near to Far", "Rating: High to Low"]

  const EmptyPrice := PriceRange("", "")

  /** The page's fields, as one value. */
  datatype SheetState = SheetState(
    propertyTypes: seq<FilterOption>,
    bhkTypes: seq<FilterOption>,
    furnishing: seq<FilterOption>,
    amenities: seq<FilterOption>,
    priceRange: PriceRange,
    location: string,
    selectedSort: string)

  /** The state a fresh page starts in: nothing selected, sort 'Most Popular'. */
  const InitialState := SheetState(PropertyTypeCatalogue, BhkCatalogue, FurnishingCatalogue, AmenityCatalogue,
                                   EmptyPrice, "", "Most Popular")

  /** The chips of a list without their flags: each one's id and label, in order. */
  function Chips(opts: seq<FilterOption>): seq<(string, string)> {
    seq(|opts|, i requires 0 <= i < |opts| => (opts[i].id, opts[i].labelText))
  }

  /** `a` has the same chips as `b` (ids and labels, in order); only the flags may differ. */
  predicate SameChips(a: seq<FilterOption>, b: seq<FilterOption>) {
    Chips(a) == Chips(b)
  }

  /** Having the same chips, chip by chip. */
  lemma SameChipsAt(a: seq<FilterOption>, b: seq<FilterOption>)
    requires SameChips(a, b)
    ensures |a| == |b|
    ensures forall i :: 0 <= i < |a| ==> a[i].id == b[i].id && a[i].labelText == b[i].labelText
  {
    assert |Chips(a)| == |a| && |Chips(b)| == |b|;
    forall i | 0 <= i < |a| ensures a[i].id == b[i].id && a[i].labelText == b[i].labelText {
      assert Chips(a)[i] == Chips(b)[i];
    }
  }

  /** Lists whose chips agree position by position have the same chips. */
  lemma SameChipsIntro(a: seq<FilterOption>, b: seq<FilterOption>)
    requires |a| == |b|
    requires forall i :: 0 <= i < |a| ==> a[i].id == b[i].id && a[i].labelText == b[i].labelText
    ensures SameChips(a, b)
  {
    assert forall i :: 0 <= i < |a| ==> Chips(a)[i] == Chips(b)[i];
  }

  /** Every catalogue still holds the chips it was declared with. */
  predicate WellFormed(s: SheetState) {
    SameChips(s.propertyTypes, PropertyTypeCatalogue) && SameChips(s.bhkTypes, BhkCatalogue)
    && SameChips(s.furnishing, FurnishingCatalogue) && SameChips(s.amenities, AmenityCatalogue)
  }

  function Options(s: SheetState, c: Category): seq<FilterOption> {
    match c
    case Property => s.propertyTypes
    case Bhk => s.bhkTypes
    case Furnishing => s.furnishing
    case Amenities => s.amenities
  }

  function WithOptions(s: SheetState, c: Category, opts: seq<FilterOption>): (r: SheetState)
    ensures Options(r, c) == opts
    ensures forall d :: d != c ==> Options(r, d) == Options(s, d)
    ensures r.priceRange == s.priceRange && r.location == s.location && r.selectedSort == s.selectedSort
  {
    match c
    case Property => s.(propertyTypes := opts)
    case Bhk => s.(bhkTypes := opts)
    case Furnishing => s.(furnishing := opts)
    case Amenities => s.(amenities := opts)
  }

  // ---- chips ----

  /** The same chips with every flag set to `v`. */
  function AllSet(opts: seq<FilterOption>, v: bool): (r: seq<FilterOption>)
    ensures SameChips(r, opts)
  {
    seq(|opts|, i requires 0 <= i < |opts| => opts[i].(selected := v))
  }

  /** A list cleared with `AllSet(_, false)` has no flag on. */
  lemma AllSetFalse(opts: seq<FilterOption>)
    ensures var r := AllSet(opts, false);
      (forall i :: 0 <= i < |r| ==> !r[i].selected) && !AnySelected(r)
  {
  }

  /** `toggleChip`: chip `i` of category `c` has its flag flipped. */
  function Toggled(s: SheetState, c: Category, i: nat): SheetState
    requires i < |Options(s, c)|
  {
    var opts := Options(s, c);
    WithOptions(s, c, opts[i := opts[i].(selected := !opts[i].selected)])
  }

  /**
    Toggling flips exactly one flag: chip `i` of category `c` changes, every
    other chip, category and field stays as it was.
  */
  lemma ToggledFlipsOne(s: SheetState, c: Category, i: nat)
    requires i < |Options(s, c)|
    ensures var r := Toggled(s, c, i);
      && |Options(r, c)| == |Options(s, c)|
      && Options(r, c)[i].selected == !Options(s, c)[i].selected
      && Options(r, c)[i].id == Options(s, c)[i].id
      && (forall j :: 0 <= j < |Options(s, c)| && j != i ==> Options(r, c)[j] == Options(s, c)[j])
      && (forall d :: d != c ==> Options(r, d) == Options(s, d))
      && r.priceRange == s.priceRange && r.location == s.location && r.selectedSort == s.selectedSort
  {
  }

  /** Toggling the same chip twice restores the sheet. */
  lemma ToggleTwice(s: SheetState, c: Category, i: nat)
    requires i < |Options(s, c)|
    ensures Toggled(Toggled(s, c, i), c, i) == s
  {
    var opts := Options(s, c);
    var once := opts[i := opts[i].(selected := !opts[i].selected)];
    assert once[i := once[i].(selected := !once[i].selected)] == opts;
    match c
    case Property =>
    case Bhk =>
    case Furnishing =>
    case Amenities =>
  }

  /** `toggleAllInCategory(c, select)`. */
  function CategorySet(s: SheetState, c: Category, v: bool): SheetState {
    WithOptions(s, c, AllSet(Options(s, c), v))
  }

  /**
    Selecting or deselecting a whole category sets every chip of that category
    to `v` and leaves the other categories, price, location and sort alone.
  */
  lemma CategorySetMeaning(s: SheetState, c: Category, v: bool)
    ensures var r := CategorySet(s, c, v);
      && SameChips(Options(r, c), Options(s, c))
      && (forall j :: 0 <= j < |Options(r, c)| ==> Options(r, c)[j].selected == v)
      && (forall d :: d != c ==> Options(r, d) == Options(s, d))
      && r.priceRange == s.priceRange && r.location == s.location && r.selectedSort == s.selectedSort
  {
  }

  // ---- counts and summaries ----

  predicate AnySelected(opts: seq<FilterOption>) {
    exists i :: 0 <= i < |opts| && opts[i].selected
  }

  /** A non-empty list has a selected chip when its head is selected or its tail has one. */
  lemma AnySelectedSplit(opts: seq<FilterOption>)
    requires opts != []
    ensures AnySelected(opts) <==> opts[0].selected || AnySelected(opts[1..])
  {
    if AnySelected(opts[1..]) {
      var k :| 0 <= k < |opts[1..]| && opts[1..][k].selected;
      assert opts[k + 1].selected;
    }
    if AnySelected(opts) && !opts[0].selected {
      var k :| 0 <= k < |opts| && opts[k].selected;
      assert opts[1..][k - 1].selected;
    }
  }

  /** `options.filter(o => o.selected)`. */
  function SelectedOnly(opts: seq<FilterOption>): (r: seq<FilterOption>)
    ensures IsSubsequence(r, opts)
    ensures forall x :: x in r <==> x in opts && x.selected
    ensures |r| == 0 <==> !AnySelected(opts)
  {
    if opts == [] then []
    else
      var rest := SelectedOnly(opts[1..]);
      assert opts == [opts[0]] + opts[1..];
      AnySelectedSplit(opts);
      if opts[0].selected then [opts[0]] + rest else rest
  }

  /** The price range counts when either end is non-blank. */
  predicate PriceSet(p: PriceRange) {
    !IsBlank(p.min) || !IsBlank(p.max)
  }

  function Indicator(b: bool): nat {
    if b then 1 else 0
  }

  /** `getActiveFiltersCount`. */
  function ActiveCount(s: SheetState): (n: nat)
    ensures n <= 6
    ensures n == 0 <==>
      !AnySelected(s.propertyTypes) && !AnySelected(s.bhkTypes) && !AnySelected(s.furnishing)
      && !AnySelected(s.amenities) && !PriceSet(s.priceRange) && IsBlank(s.location)
  {
    Indicator(|SelectedOnly(s.propertyTypes)| > 0) + Indicator(|SelectedOnly(s.bhkTypes)| > 0)
    + Indicator(|SelectedOnly(s.furnishing)| > 0) + Indicator(|SelectedOnly(s.amenities)| > 0)
    + Indicator(PriceSet(s.priceRange)) + Indicator(!IsBlank(s.location))
  }

  /** `getFilterSummary`. */
  function Summary(s: SheetState): (r: string)
    ensures ActiveCount(s) == 0 ==> r == "No filters applied"
    ensures ActiveCount(s) == 1 ==> r == "1 filter applied"
    ensures ActiveCount(s) >= 2 ==> r == NatToString(ActiveCount(s)) + " filters applied"
  {
    var n := ActiveCount(s);
    if n == 0 then "No filters applied"
    else if n == 1 then "1 filter applied"
    else NatToString(n) + " filters applied"
  }

  /** `getDetailedFilterCount`. */
  datatype DetailedCount = DetailedCount(
    propertyTypes: nat, bhkTypes: nat, furnishing: nat, amenities: nat, priceRange: nat, location: nat)

  function Detailed(s: SheetState): (d: DetailedCount)
    ensures d.propertyTypes == |SelectedOnly(s.propertyTypes)| && d.bhkTypes == |SelectedOnly(s.bhkTypes)|
    ensures d.furnishing == |SelectedOnly(s.furnishing)| && d.amenities == |SelectedOnly(s.amenities)|
    ensures d.priceRange == Indicator(PriceSet(s.priceRange)) && d.location == Indicator(!IsBlank(s.location))
    ensures (d.propertyTypes > 0) == AnySelected(s.propertyTypes) && (d.bhkTypes > 0) == AnySelected(s.bhkTypes)
    ensures (d.furnishing > 0) == AnySelected(s.furnishing) && (d.amenities > 0) == AnySelected(s.amenities)
  {
    DetailedCount(|SelectedOnly(s.propertyTypes)|, |SelectedOnly(s.bhkTypes)|, |SelectedOnly(s.furnishing)|,
                  |SelectedOnly(s.amenities)|, Indicator(PriceSet(s.priceRange)), Indicator(!IsBlank(s.location)))
  }

  /** The active count is the number of non-zero entries of the detailed count. */
  lemma ActiveCountFromDetailed(s: SheetState)
    ensures var d := Detailed(s);
      ActiveCount(s) == Indicator(d.propertyTypes > 0) + Indicator(d.bhkTypes > 0) + Indicator(d.furnishing > 0)
        + Indicator(d.amenities > 0) + d.priceRange + d.location
  {
  }

  // ---- clearing ----

  /** `clearAllFilters`: the sort goes to the first option, 'Price: Low to High'. */
  function Cleared(s: SheetState): SheetState {
    SheetState(AllSet(s.propertyTypes, false), AllSet(s.bhkTypes, false), AllSet(s.furnishing, false),
               AllSet(s.amenities, false), EmptyPrice, "", SortOptions[0])
  }

  /**
    After clearing, no chip is selected, price and location are empty, the
    count is 0 and the summary says so; the sort is 'Price: Low to High', which
    is not the 'Most Popular' a fresh sheet starts with.
  */
  lemma ClearedMeaning(s: SheetState)
    ensures var r := Cleared(s);
      && (forall c :: !AnySelected(Options(r, c)))
      && r.priceRange == EmptyPrice && r.location == ""
      && ActiveCount(r) == 0 && Summary(r) == "No filters applied"
      && r.selectedSort == "Price: Low to High" && r.selectedSort != InitialState.selectedSort
      && (WellFormed(s) ==> WellFormed(r))
  {
    var r := Cleared(s);
    AllSetFalse(s.propertyTypes);
    AllSetFalse(s.bhkTypes);
    AllSetFalse(s.furnishing);
    AllSetFalse(s.amenities);
    assert Trim("") == "";
    forall c ensures !AnySelected(Options(r, c)) {
      match c
      case Property =>
      case Bhk =>
      case Furnishing =>
      case Amenities =>
    }
  }

  /** `clearSpecificFilter(name)`: one filter, by the name the template passes; other names do nothing. */
  function ClearedSpecific(s: SheetState, name: string): SheetState {
    if name == "propertyTypes" then CategorySet(s, Property, false)
    else if name == "bhkTypes" then CategorySet(s, Bhk, false)
    else if name == "furnishing" then CategorySet(s, Furnishing, false)
    else if name == "amenities" then CategorySet(s, Amenities, false)
    else if name == "priceRange" then s.(priceRange := EmptyPrice)
    else if name == "location" then s.(location := "")
    else s
  }

  const FilterNames: set<string> := {"propertyTypes", "bhkTypes", "furnishing", "amenities", "priceRange", "location"}

  /** Clearing one filter never touches the sort, and an unknown name changes nothing. */
  lemma ClearedSpecificMeaning(s: SheetState, name: string)
    ensures ClearedSpecific(s, name).selectedSort == s.selectedSort
    ensures name !in FilterNames ==> ClearedSpecific(s, name) == s
    ensures name == "priceRange" ==> ClearedSpecific(s, name) == s.(priceRange := EmptyPrice)
    ensures name == "location" ==> ClearedSpecific(s, name) == s.(location := "")
    ensures name == "propertyTypes" ==>
      var r := ClearedSpecific(s, name);
      !AnySelected(r.propertyTypes) && SameChips(r.propertyTypes, s.propertyTypes)
      && r.(propertyTypes := s.propertyTypes) == s
    ensures name == "bhkTypes" ==>
      var r := ClearedSpecific(s, name);
      !AnySelected(r.bhkTypes) && SameChips(r.bhkTypes, s.bhkTypes) && r.(bhkTypes := s.bhkTypes) == s
    ensures name == "furnishing" ==>
      var r := ClearedSpecific(s, name);
      !AnySelected(r.furnishing) && SameChips(r.furnishing, s.furnishing) && r.(furnishing := s.furnishing) == s
    ensures name == "amenities" ==>
      var r := ClearedSpecific(s, name);
      !AnySelected(r.amenities) && SameChips(r.amenities, s.amenities) && r.(amenities := s.amenities) == s
  {
    AllSetFalse(Options(s, Property));
    AllSetFalse(Options(s, Bhk));
    AllSetFalse(Options(s, Furnishing));
    AllSetFalse(Options(s, Amenities));
  }

  // ---- loading from the input object ----

  /** `input.some(f => f.id === id && f.selected)`. */
  predicate InputSelects(input: seq<FilterOption>, id: string) {
    exists j | 0 <= j < |input| :: input[j].id == id && input[j].selected
  }

  /** One catalogue reloaded from the input list for it. */
  function LoadedChips(opts: seq<FilterOption>, input: seq<FilterOption>): (r: seq<FilterOption>)
    ensures SameChips(r, opts)
  {
    seq(|opts|, i requires 0 <= i < |opts| => opts[i].(selected := InputSelects(input, opts[i].id)))
  }

  /** `loadFiltersFromInput`: an empty input list leaves its catalogue alone. */
  function Loaded(s: SheetState, f: AppliedFilters): SheetState {
    SheetState(
      if |f.propertyTypes| > 0 then LoadedChips(s.propertyTypes, f.propertyTypes) else s.propertyTypes,
      if |f.bhkTypes| > 0 then LoadedChips(s.bhkTypes, f.bhkTypes) else s.bhkTypes,
      if |f.furnishing| > 0 then LoadedChips(s.furnishing, f.furnishing) else s.furnishing,
      if |f.amenities| > 0 then LoadedChips(s.amenities, f.amenities) else s.amenities,
      if f.priceRange.Some? then f.priceRange.value else s.priceRange,
      if f.location != "" then f.location else s.location,
      if f.sortBy != "" then f.sortBy else s.selectedSort)
  }

  /** The input list an applied object holds for a category. */
  function Input(f: AppliedFilters, c: Category): seq<FilterOption> {
    match c
    case Property => f.propertyTypes
    case Bhk => f.bhkTypes
    case Furnishing => f.furnishing
    case Amenities => f.amenities
  }

  /**
    `r` has the chips of `opts`, and each is selected exactly when `input`
    holds a selected entry with its id.
  */
  predicate ReloadedFrom(r: seq<FilterOption>, opts: seq<FilterOption>, input: seq<FilterOption>) {
    && SameChips(r, opts)
    && |r| == |opts|
    && forall i :: 0 <= i < |r| ==>
         (r[i].selected <==> exists j :: 0 <= j < |input| && input[j].id == opts[i].id && input[j].selected)
  }

  /**
    A category is rewritten only when its input list is non-empty; then a chip
    is selected exactly when the input holds an entry with the same id that is
    selected. A given price range replaces the sheet's, a non-empty location and
    a non-empty sort replace theirs.
  */
  lemma LoadedMeaning(s: SheetState, f: AppliedFilters)
    ensures var r := Loaded(s, f);
      && (forall c :: Input(f, c) == [] ==> Options(r, c) == Options(s, c))
      && (forall c :: Input(f, c) != [] ==> ReloadedFrom(Options(r, c), Options(s, c), Input(f, c)))
      && r.priceRange == (if f.priceRange.Some? then f.priceRange.value else s.priceRange)
      && r.location == (if f.location != "" then f.location else s.location)
      && r.selectedSort == (if f.sortBy != "" then f.sortBy else s.selectedSort)
      && (WellFormed(s) ==> WellFormed(r))
  {
    var r := Loaded(s, f);
    forall c | Input(f, c) != [] ensures ReloadedFrom(Options(r, c), Options(s, c), Input(f, c)) {
      assert Options(r, c) == LoadedChips(Options(s, c), Input(f, c)) by {
        match c
        case Property =>
        case Bhk =>
        case Furnishing =>
        case Amenities =>
      }
    }
  }

  /** The ids of a chip list are pairwise different. */
  predicate DistinctIds(opts: seq<FilterOption>) {
    forall i, j :: 0 <= i < j < |opts| ==> opts[i].id != opts[j].id
  }

  /** Reloading a chip list from its own selected chips gives it back. */
  lemma LoadSelectedRoundTrip(opts: seq<FilterOption>, t: seq<FilterOption>)
    requires SameChips(t, opts) && DistinctIds(opts)
    ensures LoadedChips(t, SelectedOnly(opts)) == opts
  {
    SameChipsAt(t, opts);
    var sel := SelectedOnly(opts);
    var r := LoadedChips(t, sel);
    forall i | 0 <= i < |r| ensures r[i] == opts[i] {
      if opts[i].selected {
        assert opts[i] in sel;
        var j :| 0 <= j < |sel| && sel[j] == opts[i];
        assert InputSelects(sel, t[i].id);
      }
    }
  }

  /** Two lists with the chips of a third have the same chips. */
  lemma SameChipsShared(a: seq<FilterOption>, b: seq<FilterOption>, c: seq<FilterOption>)
    requires SameChips(a, c) && SameChips(b, c)
    ensures SameChips(a, b)
  {
  }

  /** A list with the chips of a list without repeated ids has none either. */
  lemma DistinctIdsShared(opts: seq<FilterOption>, catalogue: seq<FilterOption>)
    requires SameChips(opts, catalogue) && DistinctIds(catalogue)
    ensures DistinctIds(opts)
  {
    SameChipsAt(opts, catalogue);
  }

  lemma PropertyTypeCatalogueDistinct()
    ensures DistinctIds(PropertyTypeCatalogue)
  {
  }

  lemma BhkCatalogueDistinct()
    ensures DistinctIds(BhkCatalogue)
  {
  }

  lemma FurnishingCatalogueDistinct()
    ensures DistinctIds(FurnishingCatalogue)
  {
  }

  /** No two amenity ids share both their first letter and their length. */
  lemma AmenityCatalogueDistinct()
    ensures DistinctIds(AmenityCatalogue)
  {
    var c := AmenityCatalogue;
    forall i, j | 0 <= i < j < |c| ensures c[i].id != c[j].id {
      assert c[i].id[0] != c[j].id[0] || |c[i].id| != |c[j].id|;
    }
  }

  /** No catalogue repeats an id. */
  lemma CataloguesDistinct(s: SheetState)
    requires WellFormed(s)
    ensures DistinctIds(s.propertyTypes) && DistinctIds(s.bhkTypes)
    ensures DistinctIds(s.furnishing) && DistinctIds(s.amenities)
  {
    PropertyTypeCatalogueDistinct();
    BhkCatalogueDistinct();
    FurnishingCatalogueDistinct();
    AmenityCatalogueDistinct();
    DistinctIdsShared(s.propertyTypes, PropertyTypeCatalogue);
    DistinctIdsShared(s.bhkTypes, BhkCatalogue);
    DistinctIdsShared(s.furnishing, FurnishingCatalogue);
    DistinctIdsShared(s.amenities, AmenityCatalogue);
  }

  /**
    One category of the object Apply builds, loaded into a sheet with the same
    chips: the builder's flags come back when it had a selection; otherwise the
    list is empty and the receiving sheet keeps its own.
  */
  lemma LoadCategoryRoundTrip(opts: seq<FilterOption>, t: seq<FilterOption>, catalogue: seq<FilterOption>)
    requires SameChips(opts, catalogue) && SameChips(t, catalogue) && DistinctIds(catalogue)
    ensures var sel := SelectedOnly(opts);
      (if |sel| > 0 then LoadedChips(t, sel) else t) == if AnySelected(opts) then opts else t
  {
    DistinctIdsShared(opts, catalogue);
    SameChipsShared(t, opts, catalogue);
    if AnySelected(opts) {
      LoadSelectedRoundTrip(opts, t);
    }
  }

  /**
    Loading the object Apply builds into any sheet restores every category
    that had a selection (the others keep the receiving sheet's flags), the
    price range, the trimmed location when it is not empty, and the sort when
    it is not empty.
  */
  lemma LoadAppliedRoundTrip(s: SheetState, t: SheetState)
    requires WellFormed(s) && WellFormed(t)
    ensures var r := Loaded(t, Built(s));
      && (forall c :: Options(r, c) == if AnySelected(Options(s, c)) then Options(s, c) else Options(t, c))
      && r.priceRange == s.priceRange
      && r.location == (if Trim(s.location) != "" then Trim(s.location) else t.location)
      && r.selectedSort == (if s.selectedSort != "" then s.selectedSort else t.selectedSort)
  {
    PropertyTypeCatalogueDistinct();
    BhkCatalogueDistinct();
    FurnishingCatalogueDistinct();
    AmenityCatalogueDistinct();
    LoadCategoryRoundTrip(s.propertyTypes, t.propertyTypes, PropertyTypeCatalogue);
    LoadCategoryRoundTrip(s.bhkTypes, t.bhkTypes, BhkCatalogue);
    LoadCategoryRoundTrip(s.furnishing, t.furnishing, FurnishingCatalogue);
    LoadCategoryRoundTrip(s.amenities, t.amenities, AmenityCatalogue);
    var r := Loaded(t, Built(s));
    forall c ensures Options(r, c) == if AnySelected(Options(s, c)) then Options(s, c) else Options(t, c) {
      match c
      case Property =>
      case Bhk =>
      case Furnishing =>
      case Amenities =>
    }
  }

  // ---- the applied object ----

  /** `applyFilters` builds this object: the selected chips, a copy of the price, the trimmed location, the sort. */
  function Built(s: SheetState): AppliedFilters {
    AppliedFilters(SelectedOnly(s.propertyTypes), SelectedOnly(s.bhkTypes), SelectedOnly(s.furnishing),
                   SelectedOnly(s.amenities), Some(s.priceRange), Trim(s.location), s.selectedSort)
  }

  /**
    The applied object holds, for each category, exactly the selected chips in
    catalogue order, the price range, the trimmed location and the sort; it is
    empty in a category exactly when nothing there is selected.
  */
  lemma BuiltMeaning(s: SheetState)
    ensures var f := Built(s);
      && f.priceRange == Some(s.priceRange) && f.location == Trim(s.location) && f.sortBy == s.selectedSort
      && IsSubsequence(f.propertyTypes, s.propertyTypes) && IsSubsequence(f.bhkTypes, s.bhkTypes)
      && IsSubsequence(f.furnishing, s.furnishing) && IsSubsequence(f.amenities, s.amenities)
      && (forall x :: x in f.propertyTypes <==> x in s.propertyTypes && x.selected)
      && (forall x :: x in f.bhkTypes <==> x in s.bhkTypes && x.selected)
      && (forall x :: x in f.furnishing <==> x in s.furnishing && x.selected)
      && (forall x :: x in f.amenities <==> x in s.amenities && x.selected)
      && (f.bhkTypes == [] <==> !AnySelected(s.bhkTypes))
  {
  }

  // ---- presets ----

  /** The index `find` stops at, or -1. */
  function FirstWithId(opts: seq<FilterOption>, id: string): (k: int)
    ensures -1 <= k < |opts|
    ensures k >= 0 ==> opts[k].id == id && forall j :: 0 <= j < k ==> opts[j].id != id
    ensures k == -1 ==> forall j :: 0 <= j < |opts| ==> opts[j].id != id
  {
    if opts == [] then -1
    else if opts[0].id == id then 0
    else
      var k := FirstWithId(opts[1..], id);
      if k == -1 then -1 else k + 1
  }

  /** The chip with id `id` is selected: `options.find(o => o.id === id)!.selected = true`. */
  function Marked(opts: seq<FilterOption>, id: string): (r: seq<FilterOption>)
    ensures SameChips(r, opts)
  {
    var k := FirstWithId(opts, id);
    if k < 0 then opts else opts[k := opts[k].(selected := true)]
  }

  /** On a list without repeated ids, marking selects the one chip with that id. */
  lemma MarkedAt(opts: seq<FilterOption>, id: string, k: nat)
    requires k < |opts| && opts[k].id == id && DistinctIds(opts)
    ensures Marked(opts, id) == opts[k := opts[k].(selected := true)]
  {
  }

  /** Where each chip a preset marks sits in its catalogue. */
  lemma PresetPositions(s: SheetState)
    requires WellFormed(s)
    ensures s.propertyTypes[0].id == "villa"
    ensures s.bhkTypes[0].id == "1bhk" && s.bhkTypes[1].id == "2bhk"
    ensures s.bhkTypes[2].id == "3bhk" && s.bhkTypes[3].id == "4bhk"
    ensures s.furnishing[0].id == "fully"
    ensures s.amenities[0].id == "pool" && s.amenities[1].id == "gym" && s.amenities[2].id == "parking"
    ensures s.amenities[3].id == "security" && s.amenities[8].id == "playground"
  {
    SameChipsAt(s.propertyTypes, PropertyTypeCatalogue);
    SameChipsAt(s.bhkTypes, BhkCatalogue);
    SameChipsAt(s.furnishing, FurnishingCatalogue);
    SameChipsAt(s.amenities, AmenityCatalogue);
    assert s.propertyTypes[0].id == PropertyTypeCatalogue[0].id;
    assert s.bhkTypes[0].id == BhkCatalogue[0].id && s.bhkTypes[1].id == BhkCatalogue[1].id;
    assert s.bhkTypes[2].id == BhkCatalogue[2].id && s.bhkTypes[3].id == BhkCatalogue[3].id;
    assert s.furnishing[0].id == FurnishingCatalogue[0].id;
    assert s.amenities[0].id == AmenityCatalogue[0].id && s.amenities[1].id == AmenityCatalogue[1].id;
    assert s.amenities[2].id == AmenityCatalogue[2].id && s.amenities[3].id == AmenityCatalogue[3].id;
    assert s.amenities[8].id == AmenityCatalogue[8].id;
  }

  /** `applyBudgetFriendlyPreset`. */
  function BudgetPreset(s: SheetState): SheetState {
    var c := Cleared(s);
    c.(priceRange := PriceRange("₹50L", "₹1Cr"), bhkTypes := Marked(Marked(c.bhkTypes, "1bhk"), "2bhk"),
       selectedSort := "Price: Low to High")
  }

  /** `applyLuxuryPreset`. */
  function LuxuryPreset(s: SheetState): SheetState {
    var c := Cleared(s);
    c.(priceRange := PriceRange("₹2Cr", ""),
       propertyTypes := Marked(c.propertyTypes, "villa"),
       bhkTypes := Marked(Marked(c.bhkTypes, "3bhk"), "4bhk"),
       furnishing := Marked(c.furnishing, "fully"),
       amenities := Marked(Marked(c.amenities, "pool"), "gym"),
       selectedSort := "Price: High to Low")
  }

  /** `applyFamilyFriendlyPreset`. */
  function FamilyPreset(s: SheetState): SheetState {
    var c := Cleared(s);
    c.(bhkTypes := Marked(Marked(c.bhkTypes, "2bhk"), "3bhk"),
       amenities := Marked(Marked(Marked(c.amenities, "playground"), "security"), "parking"),
       selectedSort := "Most Popular")
  }

  /** The ids of the selected chips. */
  function SelectedIds(opts: seq<FilterOption>): set<string> {
    set i | 0 <= i < |opts| && opts[i].selected :: opts[i].id
  }

  /** A cleared list with chips `a` and `b` marked has exactly their ids selected. */
  lemma TwoMarked(opts: seq<FilterOption>, a: nat, b: nat)
    requires a < |opts| && b < |opts| && a != b
    requires forall i :: 0 <= i < |opts| ==> !opts[i].selected
    ensures var r := opts[a := opts[a].(selected := true)][b := opts[b].(selected := true)];
      SelectedIds(r) == {opts[a].id, opts[b].id} && AnySelected(r)
  {
    var r := opts[a := opts[a].(selected := true)][b := opts[b].(selected := true)];
    assert r[a].selected && r[b].selected;
    assert opts[a].id in SelectedIds(r) && opts[b].id in SelectedIds(r);
  }

  /** A cleared list with chip `a` marked has exactly its id selected. */
  lemma OneMarked(opts: seq<FilterOption>, a: nat)
    requires a < |opts|
    requires forall i :: 0 <= i < |opts| ==> !opts[i].selected
    ensures var r := opts[a := opts[a].(selected := true)];
      SelectedIds(r) == {opts[a].id} && AnySelected(r)
  {
    var r := opts[a := opts[a].(selected := true)];
    assert r[a].selected;
    assert opts[a].id in SelectedIds(r);
  }

  /** Chips that match chips matching a third list match that list too. */
  lemma SameChipsTrans(a: seq<FilterOption>, b: seq<FilterOption>, c: seq<FilterOption>)
    requires SameChips(a, b) && SameChips(b, c)
    ensures SameChips(a, c)
  {
  }

  /** Marking one chip of a cleared list without repeated ids selects exactly that chip. */
  lemma MarkOne(opts: seq<FilterOption>, a: nat)
    requires a < |opts| && DistinctIds(opts)
    requires forall i :: 0 <= i < |opts| ==> !opts[i].selected
    ensures SelectedIds(Marked(opts, opts[a].id)) == {opts[a].id} && AnySelected(Marked(opts, opts[a].id))
  {
    MarkedAt(opts, opts[a].id, a);
    OneMarked(opts, a);
  }

  /** Marking two chips of a cleared list without repeated ids selects exactly those two. */
  lemma MarkTwo(opts: seq<FilterOption>, a: nat, b: nat)
    requires a < |opts| && b < |opts| && a != b && DistinctIds(opts)
    requires forall i :: 0 <= i < |opts| ==> !opts[i].selected
    ensures var r := Marked(Marked(opts, opts[a].id), opts[b].id);
      SelectedIds(r) == {opts[a].id, opts[b].id} && AnySelected(r)
  {
    MarkedAt(opts, opts[a].id, a);
    var m := Marked(opts, opts[a].id);
    MarkedAt(m, opts[b].id, b);
    TwoMarked(opts, a, b);
  }

  /** Marking three chips of a cleared list without repeated ids selects exactly those three. */
  lemma MarkThree(opts: seq<FilterOption>, a: nat, b: nat, c: nat)
    requires a < |opts| && b < |opts| && c < |opts| && a != b && b != c && a != c && DistinctIds(opts)
    requires forall i :: 0 <= i < |opts| ==> !opts[i].selected
    ensures var r := Marked(Marked(Marked(opts, opts[a].id), opts[b].id), opts[c].id);
      SelectedIds(r) == {opts[a].id, opts[b].id, opts[c].id} && AnySelected(r)
  {
    MarkedAt(opts, opts[a].id, a);
    var m1 := Marked(opts, opts[a].id);
    MarkedAt(m1, opts[b].id, b);
    var m2 := Marked(m1, opts[b].id);
    MarkedAt(m2, opts[c].id, c);
    var r := Marked(m2, opts[c].id);
    assert r[a].selected && r[b].selected && r[c].selected;
    assert opts[a].id in SelectedIds(r) && opts[b].id in SelectedIds(r) && opts[c].id in SelectedIds(r);
  }

  /** The cleared sheet a preset starts from: nothing selected, distinct ids, the catalogue order. */
  lemma PresetBase(s: SheetState)
    requires WellFormed(s)
    ensures var c := Cleared(s);
      && WellFormed(c)
      && DistinctIds(c.propertyTypes) && DistinctIds(c.bhkTypes) && DistinctIds(c.furnishing) && DistinctIds(c.amenities)
      && (forall i :: 0 <= i < |c.propertyTypes| ==> !c.propertyTypes[i].selected)
      && (forall i :: 0 <= i < |c.bhkTypes| ==> !c.bhkTypes[i].selected)
      && (forall i :: 0 <= i < |c.furnishing| ==> !c.furnishing[i].selected)
      && (forall i :: 0 <= i < |c.amenities| ==> !c.amenities[i].selected)
  {
    AllSetFalse(s.propertyTypes);
    AllSetFalse(s.bhkTypes);
    AllSetFalse(s.furnishing);
    AllSetFalse(s.amenities);
    CataloguesDistinct(Cleared(s));
  }

  /**
    The budget preset leaves exactly '1bhk' and '2bhk' selected and nothing in
    the other categories, with price ₹50L–₹1Cr and sort 'Price: Low to High'.
  */
  lemma BudgetPresetMeaning(s: SheetState)
    requires WellFormed(s)
    ensures var r := BudgetPreset(s);
      && SelectedIds(r.bhkTypes) == {"1bhk", "2bhk"}
      && !AnySelected(r.propertyTypes) && !AnySelected(r.furnishing) && !AnySelected(r.amenities)
      && r.priceRange == PriceRange("₹50L", "₹1Cr") && r.location == ""
      && r.selectedSort == "Price: Low to High"
      && ActiveCount(r) == 2
  {
    var c := Cleared(s);
    PresetBase(s);
    PresetPositions(c);
    MarkTwo(c.bhkTypes, 0, 1);
    var r := BudgetPreset(s);
    assert !IsBlank(r.priceRange.min) by { assert r.priceRange.min[0] == '₹'; }
    assert Trim("") == "";
  }

  /**
    The luxury preset selects the villa, 3 and 4 BHK, full furnishing, pool and
    gym, with a minimum price: five filters are active.
  */
  lemma LuxuryPresetMeaning(s: SheetState)
    requires WellFormed(s)
    ensures var r := LuxuryPreset(s);
      && SelectedIds(r.propertyTypes) == {"villa"} && SelectedIds(r.bhkTypes) == {"3bhk", "4bhk"}
      && SelectedIds(r.furnishing) == {"fully"} && SelectedIds(r.amenities) == {"pool", "gym"}
      && r.priceRange == PriceRange("₹2Cr", "")
      && r.selectedSort == "Price: High to Low" && ActiveCount(r) == 5
  {
    var c := Cleared(s);
    PresetBase(s);
    PresetPositions(c);
    MarkOne(c.propertyTypes, 0);
    MarkTwo(c.bhkTypes, 2, 3);
    MarkOne(c.furnishing, 0);
    MarkTwo(c.amenities, 0, 1);
    var r := LuxuryPreset(s);
    assert !IsBlank(r.priceRange.min) by { assert r.priceRange.min[0] == '₹'; }
    assert Trim("") == "";
  }

  /**
    The family preset selects 2 and 3 BHK and the playground, security and
    parking amenities, leaves price and location empty: two filters are active.
  */
  lemma FamilyPresetMeaning(s: SheetState)
    requires WellFormed(s)
    ensures var r := FamilyPreset(s);
      && SelectedIds(r.bhkTypes) == {"2bhk", "3bhk"}
      && SelectedIds(r.amenities) == {"playground", "security", "parking"}
      && !AnySelected(r.propertyTypes) && !AnySelected(r.furnishing)
      && r.priceRange == EmptyPrice && r.selectedSort == "Most Popular" && ActiveCount(r) == 2
  {
    var c := Cleared(s);
    PresetBase(s);
    PresetPositions(c);
    MarkTwo(c.bhkTypes, 1, 2);
    MarkThree(c.amenities, 8, 3, 2);
    var r := FamilyPreset(s);
    assert Trim("") == "";
  }

  /** The budget preset leaves each category with its catalogue's chips. */
  lemma BudgetPresetWellFormed(s: SheetState)
    requires WellFormed(s)
    ensures WellFormed(BudgetPreset(s))
  {
    var c := Cleared(s);
    PresetBase(s);
    SameChipsTrans(Marked(Marked(c.bhkTypes, "1bhk"), "2bhk"), c.bhkTypes, BhkCatalogue);
  }

  /** The luxury preset leaves each category with its catalogue's chips. */
  lemma LuxuryPresetWellFormed(s: SheetState)
    requires WellFormed(s)
    ensures WellFormed(LuxuryPreset(s))
  {
    var c := Cleared(s);
    PresetBase(s);
    SameChipsTrans(Marked(Marked(c.bhkTypes, "3bhk"), "4bhk"), c.bhkTypes, BhkCatalogue);
    SameChipsTrans(Marked(c.propertyTypes, "villa"), c.propertyTypes, PropertyTypeCatalogue);
    SameChipsTrans(Marked(c.furnishing, "fully"), c.furnishing, FurnishingCatalogue);
    SameChipsTrans(Marked(Marked(c.amenities, "pool"), "gym"), c.amenities, AmenityCatalogue);
  }

  /** The family preset leaves each category with its catalogue's chips. */
  lemma FamilyPresetWellFormed(s: SheetState)
    requires WellFormed(s)
    ensures WellFormed(FamilyPreset(s))
  {
    var c := Cleared(s);
    PresetBase(s);
    SameChipsTrans(Marked(Marked(c.bhkTypes, "2bhk"), "3bhk"), c.bhkTypes, BhkCatalogue);
    SameChipsTrans(Marked(Marked(Marked(c.amenities, "playground"), "security"), "parking"), c.amenities, AmenityCatalogue);
  }

  // ---- the page ----

  class FilterPropertyPage {
    var propertyTypes: seq<FilterOption>
    var bhkTypes: seq<FilterOption>
    var furnishingTypes: seq<FilterOption>
    var amenities: seq<FilterOption>
    var priceRange: PriceRange
    var location: string
    var selectedSort: string
    var totalFiltersApplied: nat
    var lastAppliedFilters: Option<AppliedFilters>

    function State(): SheetState
      reads this
    {
      SheetState(propertyTypes, bhkTypes, furnishingTypes, amenities, priceRange, location, selectedSort)
    }

    ghost predicate Valid()
      reads this
    {
      WellFormed(State())
    }

    constructor ()
      ensures Valid() && State() == InitialState
      ensures totalFiltersApplied == 0 && lastAppliedFilters.None?
    {
      propertyTypes, bhkTypes, furnishingTypes, amenities :=
        PropertyTypeCatalogue, BhkCatalogue, FurnishingCatalogue, AmenityCatalogue;
      priceRange, location, selectedSort := EmptyPrice, "", "Most Popular";
      totalFiltersApplied, lastAppliedFilters := 0, None;
    }

    method SetState(s: SheetState)
      modifies this
      ensures State() == s
      ensures totalFiltersApplied == old(totalFiltersApplied) && lastAppliedFilters == old(lastAppliedFilters)
    {
      propertyTypes, bhkTypes, furnishingTypes, amenities := s.propertyTypes, s.bhkTypes, s.furnishing, s.amenities;
      priceRange, location, selectedSort := s.priceRange, s.location, s.selectedSort;
    }

    /** `ngOnInit`: the input filters, when given, are loaded. */
    method NgOnInit(currentFilters: Option<AppliedFilters>)
      requires Valid()
      modifies this
      ensures Valid()
      ensures State() == if currentFilters.Some? then Loaded(old(State()), currentFilters.value) else old(State())
      ensures totalFiltersApplied == old(totalFiltersApplied) && lastAppliedFilters == old(lastAppliedFilters)
    {
      if currentFilters.Some? {
        LoadFiltersFromInput(currentFilters.value);
      }
    }

    /** `loadFiltersFromInput`. */
    method LoadFiltersFromInput(f: AppliedFilters)
      requires Valid()
      modifies this
      ensures Valid()
      ensures State() == Loaded(old(State()), f)
      ensures totalFiltersApplied == old(totalFiltersApplied) && lastAppliedFilters == old(lastAppliedFilters)
    {
      var r := LoadStep(State(), f);
      SetState(r);
    }

    /** `toggleChip(option)`: the template passes chip `i` of category `c`. */
    method ToggleChip(c: Category, i: nat)
      requires Valid() && i < |Options(State(), c)|
      modifies this
      ensures Valid()
      ensures State() == Toggled(old(State()), c, i)
      ensures totalFiltersApplied == old(totalFiltersApplied) && lastAppliedFilters == old(lastAppliedFilters)
    {
      ToggledFlipsOne(State(), c, i);
      SameChipsIntro(Options(Toggled(State(), c, i), c), Options(State(), c));
      SetState(Toggled(State(), c, i));
    }

    /** `toggleAllInCategory(c, select)`: a `forEach` over that category. */
    method ToggleAllInCategory(c: Category, select: bool)
      requires Valid()
      modifies this
      ensures Valid()
      ensures State() == CategorySet(old(State()), c, select)
      ensures totalFiltersApplied == old(totalFiltersApplied) && lastAppliedFilters == old(lastAppliedFilters)
    {
      match c
      case Property => propertyTypes := SetAllChips(propertyTypes, select);
      case Bhk => bhkTypes := SetAllChips(bhkTypes, select);
      case Furnishing => furnishingTypes := SetAllChips(furnishingTypes, select);
      case Amenities => amenities := SetAllChips(amenities, select);
    }

    function GetActiveFiltersCount(): (n: nat)
      reads this
      ensures n <= 6
    {
      ActiveCount(State())
    }

    /** `hasActiveFilters`: some chip is on, the price range is set or the location is not blank. */
    function HasActiveFilters(): (b: bool)
      reads this
      ensures b <==> AnySelected(propertyTypes) || AnySelected(bhkTypes) || AnySelected(furnishingTypes)
                     || AnySelected(amenities) || PriceSet(priceRange) || !IsBlank(location)
    {
      GetActiveFiltersCount() > 0
    }

    /** `getFilterSummary`. */
    function GetFilterSummary(): (r: string)
      reads this
      ensures !HasActiveFilters() <==> r == "No filters applied"
      ensures GetActiveFiltersCount() == 1 ==> r == "1 filter applied"
      ensures GetActiveFiltersCount() >= 2 ==> r == NatToString(GetActiveFiltersCount()) + " filters applied"
    {
      Summary(State())
    }

    /** `getDetailedFilterCount`: the active count is the number of its non-zero entries. */
    function GetDetailedFilterCount(): (d: DetailedCount)
      reads this
      ensures GetActiveFiltersCount() == Indicator(d.propertyTypes > 0) + Indicator(d.bhkTypes > 0)
        + Indicator(d.furnishing > 0) + Indicator(d.amenities > 0) + d.priceRange + d.location
    {
      ActiveCountFromDetailed(State());
      Detailed(State())
    }

    /** `clearAllFilters`. */
    method ClearAllFilters()
      requires Valid()
      modifies this
      ensures Valid()
      ensures State() == Cleared(old(State()))
      ensures totalFiltersApplied == old(totalFiltersApplied) && lastAppliedFilters == old(lastAppliedFilters)
    {
      var r := ClearStep(State());
      SetState(r);
    }

    /** `clearSpecificFilter(filterType)`. */
    method ClearSpecificFilter(filterType: string)
      requires Valid()
      modifies this
      ensures Valid()
      ensures State() == ClearedSpecific(old(State()), filterType)
      ensures totalFiltersApplied == old(totalFiltersApplied) && lastAppliedFilters == old(lastAppliedFilters)
    {
      var r := ClearSpecificStep(State(), filterType);
      SetState(r);
    }

    /**
      `applyFilters`: builds the object handed to the modal's `dismiss`, and
      records it and the active count.
    */
    method ApplyFilters() returns (filters: AppliedFilters)
      requires Valid()
      modifies this
      ensures Valid() && State() == old(State())
      ensures filters == Built(old(State()))
      ensures lastAppliedFilters == Some(filters) && totalFiltersApplied == ActiveCount(old(State()))
    {
      filters := Built(State());
      var n := GetActiveFiltersCount();
      lastAppliedFilters, totalFiltersApplied := Some(filters), n;
    }

    /** `onLocationInput`: the typed text becomes the location. */
    method OnLocationInput(value: string)
      requires Valid()
      modifies this
      ensures Valid() && State() == old(State()).(location := value)
      ensures totalFiltersApplied == old(totalFiltersApplied) && lastAppliedFilters == old(lastAppliedFilters)
    {
      location := value;
    }

    /** `applyBudgetFriendlyPreset`. */
    method ApplyBudgetFriendlyPreset()
      requires Valid()
      modifies this
      ensures Valid() && State() == BudgetPreset(old(State()))
      ensures totalFiltersApplied == old(totalFiltersApplied) && lastAppliedFilters == old(lastAppliedFilters)
    {
      var r := BudgetStep(State());
      SetState(r);
    }

    /** `applyLuxuryPreset`. */
    method ApplyLuxuryPreset()
      requires Valid()
      modifies this
      ensures Valid() && State() == LuxuryPreset(old(State()))
      ensures totalFiltersApplied == old(totalFiltersApplied) && lastAppliedFilters == old(lastAppliedFilters)
    {
      var r := LuxuryStep(State());
      SetState(r);
    }

    /** `applyFamilyFriendlyPreset`. */
    method ApplyFamilyFriendlyPreset()
      requires Valid()
      modifies this
      ensures Valid() && State() == FamilyPreset(old(State()))
      ensures totalFiltersApplied == old(totalFiltersApplied) && lastAppliedFilters == old(lastAppliedFilters)
    {
      var r := FamilyStep(State());
      SetState(r);
    }
  }

  // ---- the statements of the page's methods, on the sheet value ----

  /** The statements of `loadFiltersFromInput`: each list is reloaded only when its input list is non-empty. */
  method LoadStep(s: SheetState, f: AppliedFilters) returns (r: SheetState)
    requires WellFormed(s)
    ensures r == Loaded(s, f) && WellFormed(r)
  {
    r := s;
    if |f.propertyTypes| > 0 {
      var p := LoadChips(r.propertyTypes, f.propertyTypes);
      r := r.(propertyTypes := p);
    }
    if |f.bhkTypes| > 0 {
      var b := LoadChips(r.bhkTypes, f.bhkTypes);
      r := r.(bhkTypes := b);
    }
    if |f.furnishing| > 0 {
      var u := LoadChips(r.furnishing, f.furnishing);
      r := r.(furnishing := u);
    }
    if |f.amenities| > 0 {
      var a := LoadChips(r.amenities, f.amenities);
      r := r.(amenities := a);
    }
    if f.priceRange.Some? {
      r := r.(priceRange := f.priceRange.value);
    }
    if f.location != "" {
      r := r.(location := f.location);
    }
    if f.sortBy != "" {
      r := r.(selectedSort := f.sortBy);
    }
  }

  /** The statements of `clearAllFilters`. */
  method ClearStep(s: SheetState) returns (r: SheetState)
    requires WellFormed(s)
    ensures r == Cleared(s) && WellFormed(r)
  {
    var p := SetAllChips(s.propertyTypes, false);
    var b := SetAllChips(s.bhkTypes, false);
    var u := SetAllChips(s.furnishing, false);
    var a := SetAllChips(s.amenities, false);
    r := SheetState(p, b, u, a, EmptyPrice, "", SortOptions[0]);
  }

  /** The statements of `clearSpecificFilter`: a `switch` on the filter's name. */
  method ClearSpecificStep(s: SheetState, filterType: string) returns (r: SheetState)
    requires WellFormed(s)
    ensures r == ClearedSpecific(s, filterType) && WellFormed(r)
  {
    r := s;
    if filterType == "propertyTypes" {
      var p := SetAllChips(s.propertyTypes, false);
      r := r.(propertyTypes := p);
    } else if filterType == "bhkTypes" {
      var b := SetAllChips(s.bhkTypes, false);
      r := r.(bhkTypes := b);
    } else if filterType == "furnishing" {
      var u := SetAllChips(s.furnishing, false);
      r := r.(furnishing := u);
    } else if filterType == "amenities" {
      var a := SetAllChips(s.amenities, false);
      r := r.(amenities := a);
    } else if filterType == "priceRange" {
      r := r.(priceRange := EmptyPrice);
    } else if filterType == "location" {
      r := r.(location := "");
    }
  }

  /** The statements of `applyBudgetFriendlyPreset`. */
  method BudgetStep(s: SheetState) returns (r: SheetState)
    requires WellFormed(s)
    ensures r == BudgetPreset(s) && WellFormed(r)
  {
    var c := ClearStep(s);
    PresetPositions(c);
    var b := MarkChip(c.bhkTypes, "1bhk");
    assert b[1].id == "2bhk";
    b := MarkChip(b, "2bhk");
    r := c.(priceRange := PriceRange("₹50L", "₹1Cr"), bhkTypes := b, selectedSort := "Price: Low to High");
  }

  /** The statements of `applyLuxuryPreset`. */
  method LuxuryStep(s: SheetState) returns (r: SheetState)
    requires WellFormed(s)
    ensures r == LuxuryPreset(s) && WellFormed(r)
  {
    var c := ClearStep(s);
    PresetPositions(c);
    var p := MarkChip(c.propertyTypes, "villa");
    var b := MarkChip(c.bhkTypes, "3bhk");
    assert b[3].id == "4bhk";
    b := MarkChip(b, "4bhk");
    var u := MarkChip(c.furnishing, "fully");
    var a := MarkChip(c.amenities, "pool");
    assert a[1].id == "gym";
    a := MarkChip(a, "gym");
    r := c.(priceRange := PriceRange("₹2Cr", ""), propertyTypes := p, bhkTypes := b, furnishing := u,
            amenities := a, selectedSort := "Price: High to Low");
  }

  /** The statements of `applyFamilyFriendlyPreset`. */
  method FamilyStep(s: SheetState) returns (r: SheetState)
    requires WellFormed(s)
    ensures r == FamilyPreset(s) && WellFormed(r)
  {
    var c := ClearStep(s);
    PresetPositions(c);
    var b := MarkChip(c.bhkTypes, "2bhk");
    assert b[2].id == "3bhk";
    b := MarkChip(b, "3bhk");
    var a := MarkChip(c.amenities, "playground");
    assert a[3].id == "security";
    a := MarkChip(a, "security");
    assert a[2].id == "parking";
    a := MarkChip(a, "parking");
    r := c.(bhkTypes := b, amenities := a, selectedSort := "Most Popular");
  }

  /** `options.forEach(o => o.selected = v)`. */
  method SetAllChips(opts: seq<FilterOption>, v: bool) returns (r: seq<FilterOption>)
    ensures r == AllSet(opts, v)
  {
    r := opts;
    var i := 0;
    while i < |r|
      invariant 0 <= i <= |r| == |opts|
      invariant forall j :: 0 <= j < i ==> r[j] == opts[j].(selected := v)
      invariant forall j :: i <= j < |r| ==> r[j] == opts[j]
    {
      r := r[i := r[i].(selected := v)];
      i := i + 1;
    }
  }

  /** `options.forEach(o => o.selected = input.some(f => f.id === o.id && f.selected))`. */
  method LoadChips(opts: seq<FilterOption>, input: seq<FilterOption>) returns (r: seq<FilterOption>)
    ensures r == LoadedChips(opts, input)
  {
    r := opts;
    var i := 0;
    while i < |r|
      invariant 0 <= i <= |r| == |opts|
      invariant forall j :: 0 <= j < i ==> r[j] == opts[j].(selected := InputSelects(input, opts[j].id))
      invariant forall j :: i <= j < |r| ==> r[j] == opts[j]
    {
      var found := false;
      var k := 0;
      while k < |input|
        invariant 0 <= k <= |input|
        invariant found <==> exists j | 0 <= j < k :: input[j].id == r[i].id && input[j].selected
      {
        if input[k].id == r[i].id && input[k].selected {
          found := true;
        }
        k := k + 1;
      }
      r := r[i := r[i].(selected := found)];
      i := i + 1;
    }
  }

  /** `options.find(o => o.id === id)!.selected = true`; the id is always in the catalogue. */
  method MarkChip(opts: seq<FilterOption>, id: string) returns (r: seq<FilterOption>)
    requires exists j :: 0 <= j < |opts| && opts[j].id == id
    ensures r == Marked(opts, id)
  {
    var k := 0;
    while opts[k].id != id
      invariant 0 <= k < |opts|
      invariant forall j :: 0 <= j < k ==> opts[j].id != id
      invariant exists j :: k <= j < |opts| && opts[j].id == id
      decreases |opts| - k
    {
      k := k + 1;
    }
    assert k == FirstWithId(opts, id);
    r := opts[k := opts[k].(selected := true)];
  }
}
