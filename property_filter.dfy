/**
  The property filter service: a filter record held in a BehaviorSubject,
  updated by a right-biased merge, rendered into badge strings, and applied
  to a list of properties as a chain of predicates.
*/
module PropertyFilter {
  import opened Wrappers
  import opened JsString
  import opened Seqs

  datatype Range = Range(min: int, max: int)

  datatype SortOrder = Asc | Desc

  /** `PropertyFilters`; None is a key that is missing or holds `undefined`. */
  datatype PropertyFilters = PropertyFilters(
    propertyType: Option<seq<string>>,
    bhkType: Option<seq<string>>,
    furnishing: Option<seq<string>>,
    rentRange: Option<Range>,
    depositRange: Option<Range>,
    city: Option<string>,
    state: Option<string>,
    amenities: Option<seq<string>>,
    availableFrom: Option<int>,
    contactPreference: Option<string>,
    sortBy: Option<string>,
    sortOrder: Option<SortOrder>)

  const EmptyFilters: PropertyFilters :=
    PropertyFilters(None, None, None, None, None, None, None, None, None, None, None, None)

  /** One key of an object literal passed to `updateFilters`: left out, or written (possibly `undefined`). */
  datatype Entry<T> = Absent | Present(value: Option<T>)

  /** The argument of `updateFilters`, key by key. */
  datatype FiltersPatch = FiltersPatch(
    propertyType: Entry<seq<string>>,
    bhkType: Entry<seq<string>>,
    furnishing: Entry<seq<string>>,
    rentRange: Entry<Range>,
    depositRange: Entry<Range>,
    city: Entry<string>,
    state: Entry<string>,
    amenities: Entry<seq<string>>,
    availableFrom: Entry<int>,
    contactPreference: Entry<string>,
    sortBy: Entry<string>,
    sortOrder: Entry<SortOrder>)

  const NoChange: FiltersPatch :=
    FiltersPatch(Absent, Absent, Absent, Absent, Absent, Absent, Absent, Absent, Absent, Absent, Absent, Absent)

  /** The value a key has after spreading the patch over the current value. */
  function Pick<T>(current: Option<T>, e: Entry<T>): (r: Option<T>)
    ensures e.Absent? ==> r == current
    ensures e.Present? ==> r == e.value
  {
    match e
    case Absent => current
    case Present(v) => v
  }

  /** `{ ...current, ...patch }`. */
  function Merge(c: PropertyFilters, p: FiltersPatch): PropertyFilters {
    PropertyFilters(
      Pick(c.propertyType, p.propertyType), Pick(c.bhkType, p.bhkType), Pick(c.furnishing, p.furnishing),
      Pick(c.rentRange, p.rentRange), Pick(c.depositRange, p.depositRange), Pick(c.city, p.city),
      Pick(c.state, p.state), Pick(c.amenities, p.amenities), Pick(c.availableFrom, p.availableFrom),
      Pick(c.contactPreference, p.contactPreference), Pick(c.sortBy, p.sortBy), Pick(c.sortOrder, p.sortOrder))
  }

  /** The later of two entries for the same key. */
  function Later<T>(first: Entry<T>, second: Entry<T>): Entry<T> {
    if second.Present? then second else first
  }

  /** Two patches applied one after the other, as one patch. */
  function Compose(p: FiltersPatch, q: FiltersPatch): FiltersPatch {
    FiltersPatch(
      Later(p.propertyType, q.propertyType), Later(p.bhkType, q.bhkType), Later(p.furnishing, q.furnishing),
      Later(p.rentRange, q.rentRange), Later(p.depositRange, q.depositRange), Later(p.city, q.city),
      Later(p.state, q.state), Later(p.amenities, q.amenities), Later(p.availableFrom, q.availableFrom),
      Later(p.contactPreference, q.contactPreference), Later(p.sortBy, q.sortBy), Later(p.sortOrder, q.sortOrder))
  }

  /**
    The merge is right-biased key by key: a key present in the patch takes the
    patch's value (an explicit `undefined` clears it), every other key keeps its value.
  */
  lemma MergeRightBiased(c: PropertyFilters, p: FiltersPatch)
    ensures var r := Merge(c, p);
      && (p.propertyType.Present? ==> r.propertyType == p.propertyType.value)
      && (p.propertyType.Absent? ==> r.propertyType == c.propertyType)
      && (p.bhkType.Present? ==> r.bhkType == p.bhkType.value)
      && (p.bhkType.Absent? ==> r.bhkType == c.bhkType)
      && (p.furnishing.Present? ==> r.furnishing == p.furnishing.value)
      && (p.furnishing.Absent? ==> r.furnishing == c.furnishing)
      && (p.rentRange.Present? ==> r.rentRange == p.rentRange.value)
      && (p.rentRange.Absent? ==> r.rentRange == c.rentRange)
      && (p.depositRange.Present? ==> r.depositRange == p.depositRange.value)
      && (p.depositRange.Absent? ==> r.depositRange == c.depositRange)
      && (p.city.Present? ==> r.city == p.city.value)
      && (p.city.Absent? ==> r.city == c.city)
      && (p.state.Present? ==> r.state == p.state.value)
      && (p.state.Absent? ==> r.state == c.state)
      && (p.amenities.Present? ==> r.amenities == p.amenities.value)
      && (p.amenities.Absent? ==> r.amenities == c.amenities)
      && (p.availableFrom.Present? ==> r.availableFrom == p.availableFrom.value)
      && (p.availableFrom.Absent? ==> r.availableFrom == c.availableFrom)
      && (p.contactPreference.Present? ==> r.contactPreference == p.contactPreference.value)
      && (p.contactPreference.Absent? ==> r.contactPreference == c.contactPreference)
      && (p.sortBy.Present? ==> r.sortBy == p.sortBy.value)
      && (p.sortBy.Absent? ==> r.sortBy == c.sortBy)
      && (p.sortOrder.Present? ==> r.sortOrder == p.sortOrder.value)
      && (p.sortOrder.Absent? ==> r.sortOrder == c.sortOrder)
  {
  }

  /** An empty patch changes nothing. */
  lemma MergeNoChange(c: PropertyFilters)
    ensures Merge(c, NoChange) == c
  {
  }

  /** Applying the same patch twice is applying it once. */
  lemma MergeIdempotent(c: PropertyFilters, p: FiltersPatch)
    ensures Merge(Merge(c, p), p) == Merge(c, p)
  {
  }

  /** Two successive updates equal one update with the composed patch. */
  lemma MergeCompose(c: PropertyFilters, p: FiltersPatch, q: FiltersPatch)
    ensures Merge(Merge(c, p), q) == Merge(c, Compose(p, q))
  {
  }

  // ---- counting and badges ----

  /** `list?.length` is truthy. */
  predicate NonEmptyList(l: Option<seq<string>>) {
    l.Some? && |l.value| > 0
  }

  /** A string field is truthy: present and not ''. */
  predicate Truthy(s: Option<string>) {
    s.Some? && s.value != ""
  }

  /** The seven things the action sheet reports as active. */
  function ActiveFlags(f: PropertyFilters): seq<bool> {
    [NonEmptyList(f.propertyType), NonEmptyList(f.bhkType), NonEmptyList(f.furnishing),
     f.rentRange.Some?, Truthy(f.city) || Truthy(f.state), NonEmptyList(f.amenities), Truthy(f.sortBy)]
  }

  /** The number of set flags. */
  function CountTrue(flags: seq<bool>): (n: nat)
    ensures n <= |flags|
    ensures n == 0 <==> forall i :: 0 <= i < |flags| ==> !flags[i]
  {
    if flags == [] then 0 else (if flags[0] then 1 else 0) + CountTrue(flags[1..])
  }

  /**
    `getActiveFiltersCount`: one for each non-empty list, the rent range, the
    location (city and state together count once) and the sort field.
  */
  function ActiveFiltersCount(f: PropertyFilters): (n: nat)
    ensures n <= 7
    ensures n == 0 <==>
      !NonEmptyList(f.propertyType) && !NonEmptyList(f.bhkType) && !NonEmptyList(f.furnishing)
      && f.rentRange.None? && !Truthy(f.city) && !Truthy(f.state) && !NonEmptyList(f.amenities)
      && !Truthy(f.sortBy)
  {
    var n := (if NonEmptyList(f.propertyType) then 1 else 0) + (if NonEmptyList(f.bhkType) then 1 else 0)
      + (if NonEmptyList(f.furnishing) then 1 else 0) + (if f.rentRange.Some? then 1 else 0)
      + (if Truthy(f.city) || Truthy(f.state) then 1 else 0) + (if NonEmptyList(f.amenities) then 1 else 0)
      + (if Truthy(f.sortBy) then 1 else 0);
    n
  }

  /** The count is the number of set flags among the seven the action sheet reports. */
  lemma ActiveFiltersCountFlags(f: PropertyFilters)
    ensures ActiveFiltersCount(f) == CountTrue(ActiveFlags(f))
  {
    var fl := ActiveFlags(f);
    assert CountTrue(fl[6..]) == (if fl[6] then 1 else 0) by { assert fl[6..][1..] == []; }
    assert CountTrue(fl[5..]) == (if fl[5] then 1 else 0) + CountTrue(fl[6..]) by { assert fl[5..][1..] == fl[6..]; }
    assert CountTrue(fl[4..]) == (if fl[4] then 1 else 0) + CountTrue(fl[5..]) by { assert fl[4..][1..] == fl[5..]; }
    assert CountTrue(fl[3..]) == (if fl[3] then 1 else 0) + CountTrue(fl[4..]) by { assert fl[3..][1..] == fl[4..]; }
    assert CountTrue(fl[2..]) == (if fl[2] then 1 else 0) + CountTrue(fl[3..]) by { assert fl[2..][1..] == fl[3..]; }
    assert CountTrue(fl[1..]) == (if fl[1] then 1 else 0) + CountTrue(fl[2..]) by { assert fl[1..][1..] == fl[2..]; }
  }

  /** City and state count as one filter. */
  lemma LocationCountedOnce(f: PropertyFilters, city: string, state: string)
    requires city != "" && state != ""
    ensures ActiveFiltersCount(f.(city := Some(city), state := Some(state)))
         == ActiveFiltersCount(f.(city := Some(city), state := None))
  {
  }

  /** `getFilterBadge`: '' for a missing or empty list, otherwise its length in parentheses. */
  function FilterBadge(l: Option<seq<string>>): (r: string)
    ensures r == "" <==> !NonEmptyList(l)
    ensures r != "" ==> |r| >= 3 && r[0] == '(' && r[|r| - 1] == ')'
  {
    if !NonEmptyList(l) then "" else "(" + NatToString(|l.value|) + ")"
  }

  /** The number inside a list badge reads back as the list's length. */
  lemma FilterBadgeCount(l: Option<seq<string>>)
    requires NonEmptyList(l)
    ensures var b := FilterBadge(l); ParseInt(b[1..|b| - 1]) == Some(|l.value|)
  {
    var b := FilterBadge(l);
    assert b[1..|b| - 1] == NatToString(|l.value|);
    ParseIntOfNatToString(|l.value|);
  }

  /** `getPriceRangeBadge`: `(₹min-₹max)`, or '' without a range. */
  function PriceRangeBadge(r: Option<Range>): (b: string)
    ensures b == "" <==> r.None?
    ensures r.Some? ==> b == "(₹" + IntToString(r.value.min) + "-₹" + IntToString(r.value.max) + ")"
  {
    match r
    case None => ""
    case Some(range) => "(₹" + IntToString(range.min) + "-₹" + IntToString(range.max) + ")"
  }

  /**
    The numbers of a price badge read back with `parseInt`: the minimum right
    after "(₹", the maximum right after the "-₹" that follows it.
  */
  lemma PriceRangeBadgeReadsBack(range: Range)
    requires range.min >= 0 && range.max >= 0
    ensures var b := PriceRangeBadge(Some(range)); var m := NatToString(range.min);
      ParseInt(b[2..]) == Some(range.min) && ParseInt(b[4 + |m|..]) == Some(range.max)
  {
    var x := NatToString(range.max);
    PriceRangeBadgeParts(range);
    ParseIntOfNatToStringThen(range.min, "-₹" + x + ")");
    ParseIntOfNatToStringThen(range.max, ")");
  }

  /** Where the two numbers sit in a price badge. */
  lemma PriceRangeBadgeParts(range: Range)
    requires range.min >= 0 && range.max >= 0
    ensures var b := PriceRangeBadge(Some(range));
      var m := NatToString(range.min); var x := NatToString(range.max);
      4 + |m| <= |b| && b[2..] == m + ("-₹" + x + ")") && b[4 + |m|..] == x + ")"
  {
    var m := NatToString(range.min);
    var x := NatToString(range.max);
    var b := PriceRangeBadge(Some(range));
    assert b == "(₹" + m + "-₹" + x + ")";
    DropFront("(₹", m, "-₹", x, ")");
    assert |"(₹"| == 2 && |"-₹"| == 2;
  }

  /** Dropping the first part, or the first three parts, of a five-part concatenation. */
  lemma DropFront(p: string, a: string, q: string, c: string, e: string)
    ensures (p + a + q + c + e)[|p|..] == a + (q + c + e)
    ensures (p + a + q + c + e)[|p| + |a| + |q|..] == c + e
  {
    assert p + a + q + c + e == p + (a + (q + c + e));
    assert p + a + q + c + e == (p + a + q) + (c + e);
  }

  /** The truthy ones among city and state, in that order. */
  function LocationParts(f: PropertyFilters): (parts: seq<string>)
    ensures |parts| == (if Truthy(f.city) then 1 else 0) + (if Truthy(f.state) then 1 else 0)
    ensures Truthy(f.city) ==> parts[0] == f.city.value
    ensures Truthy(f.state) ==> parts[|parts| - 1] == f.state.value
    ensures forall p :: p in parts ==> p != ""
  {
    (if Truthy(f.city) then [f.city.value] else []) + (if Truthy(f.state) then [f.state.value] else [])
  }

  /** `getLocationBadge`: the present city and state joined by ", " inside parentheses. */
  function LocationBadge(f: PropertyFilters): (b: string)
    ensures b == "" <==> !Truthy(f.city) && !Truthy(f.state)
    ensures Truthy(f.city) && Truthy(f.state) ==> b == "(" + f.city.value + ", " + f.state.value + ")"
    ensures Truthy(f.city) && !Truthy(f.state) ==> b == "(" + f.city.value + ")"
    ensures !Truthy(f.city) && Truthy(f.state) ==> b == "(" + f.state.value + ")"
  {
    var parts := LocationParts(f);
    if |parts| > 0 then
      var inner := Join(parts, ", ");
      assert |parts| == 2 ==> Join(parts[1..], ", ") == parts[1];
      "(" + inner + ")"
    else ""
  }

  datatype SortOption = SortOption(value: string, labelText: string)

  const SortOptions: seq<SortOption> := [
    SortOption("rent", "Rent"), SortOption("deposit", "Deposit"),
    SortOption("availableFrom", "Available Date"), SortOption("title", "Title")]

  /** `sortOptions.find(opt => opt.value === v)?.label`. */
  function SortLabel(options: seq<SortOption>, v: string): (r: Option<string>)
    ensures r.Some? <==> exists i :: 0 <= i < |options| && options[i].value == v
  {
    if options == [] then None
    else if options[0].value == v then Some(options[0].labelText)
    else SortLabel(options[1..], v)
  }

  /** `sortOption?.label` inside a template literal: the label, or the text `undefined`. */
  function SortCaption(v: string): (c: string)
    ensures SortLabel(SortOptions, v).Some? ==> c == SortLabel(SortOptions, v).value
    ensures SortLabel(SortOptions, v).None? ==> c == "undefined"
  {
    match SortLabel(SortOptions, v) case Some(l) => l case None => "undefined"
  }

  /** `find` stops at the first option with the value: its label is the one returned. */
  lemma {:induction false} SortLabelFirst(options: seq<SortOption>, v: string, i: nat)
    requires i < |options| && options[i].value == v
    requires forall j :: 0 <= j < i ==> options[j].value != v
    ensures SortLabel(options, v) == Some(options[i].labelText)
  {
    if i > 0 {
      assert options[0].value != v;
      SortLabelFirst(options[1..], v, i - 1);
    }
  }

  /** `getSortBadge`: the label (printed `undefined` when unknown) and an arrow for the order. */
  function SortBadge(f: PropertyFilters): (b: string)
    ensures b == "" <==> !Truthy(f.sortBy)
    ensures Truthy(f.sortBy) ==>
      |b| >= 4 && b[0] == '(' && b[1..|b| - 3] == SortCaption(f.sortBy.value)
      && b[|b| - 3] == ' ' && b[|b| - 1] == ')'
      && (b[|b| - 2] == '↓' <==> f.sortOrder == Some(Desc))
      && (b[|b| - 2] == '↑' <==> f.sortOrder != Some(Desc))
  {
    if !Truthy(f.sortBy) then ""
    else
      var caption := SortCaption(f.sortBy.value);
      var arrow := if f.sortOrder == Some(Desc) then "↓" else "↑";
      var b := "(" + caption + " " + arrow + ")";
      assert b[1..|b| - 3] == caption;
      b
  }

  /** Each known sort field is captioned with its label; any other field prints `undefined`. */
  lemma SortCaptions(v: string)
    ensures SortCaption("rent") == "Rent" && SortCaption("deposit") == "Deposit"
    ensures SortCaption("availableFrom") == "Available Date" && SortCaption("title") == "Title"
    ensures v != "rent" && v != "deposit" && v != "availableFrom" && v != "title" ==> SortCaption(v) == "undefined"
  {
    var o := SortOptions;
    assert o[0].value == "rent" && o[1].value == "deposit" && o[2].value == "availableFrom" && o[3].value == "title";
  }

  // ---- applying the filters ----

  datatype ListingAddress = ListingAddress(city: Option<string>, state: Option<string>)

  /** The fields of a listing that the filters read. */
  datatype Listing = Listing(
    id: string,
    propertyType: string,
    bhkType: string,
    furnishing: string,
    rent: int,
    address: Option<ListingAddress>,
    amenities: Option<seq<string>>)

  /** One `filter` step of `applyFilters`. */
  datatype Criterion =
    | TypeIn(types: seq<string>)
    | BhkIn(bhks: seq<string>)
    | FurnishingIn(kinds: seq<string>)
    | RentWithin(range: Range)
    | CityContains(city: string)
    | StateContains(state: string)
    | AnyAmenity(wanted: seq<string>)

  /** What a listing must satisfy to survive one step. */
  predicate Satisfies(c: Criterion, x: Listing) {
    match c
    case TypeIn(types) => x.propertyType in types
    case BhkIn(bhks) => x.bhkType in bhks
    case FurnishingIn(kinds) => x.furnishing in kinds
    case RentWithin(range) => range.min <= x.rent <= range.max
    case CityContains(city) =>
      x.address.Some? && x.address.value.city.Some?
      && Contains(ToLower(x.address.value.city.value), ToLower(city))
    case StateContains(state) =>
      x.address.Some? && x.address.value.state.Some?
      && Contains(ToLower(x.address.value.state.value), ToLower(state))
    case AnyAmenity(wanted) =>
      x.amenities.Some? && exists a :: a in wanted && a in x.amenities.value
  }

  /** `[c]` when the step is switched on, `[]` otherwise. */
  function StepIf(on: bool, c: Criterion): seq<Criterion> {
    if on then [c] else []
  }

  /** The steps the current filters switch on, in the order the source applies them. */
  function ActiveCriteria(f: PropertyFilters): seq<Criterion> {
    StepIf(NonEmptyList(f.propertyType), TypeIn(f.propertyType.GetOr([])))
    + (StepIf(NonEmptyList(f.bhkType), BhkIn(f.bhkType.GetOr([])))
    + (StepIf(NonEmptyList(f.furnishing), FurnishingIn(f.furnishing.GetOr([])))
    + (StepIf(f.rentRange.Some?, RentWithin(f.rentRange.GetOr(Range(0, 0))))
    + (StepIf(Truthy(f.city), CityContains(f.city.GetOr("")))
    + (StepIf(Truthy(f.state), StateContains(f.state.GetOr("")))
    + StepIf(NonEmptyList(f.amenities), AnyAmenity(f.amenities.GetOr([]))))))))
  }

  /** A listing passes every active step. */
  predicate Matches(f: PropertyFilters, x: Listing) {
    forall c :: c in ActiveCriteria(f) ==> Satisfies(c, x)
  }

  /** `s.filter(x => Satisfies(c, x))`: every copy of a passing listing is kept, every copy of a failing one dropped. */
  function Keep(s: seq<Listing>, c: Criterion): (r: seq<Listing>)
    ensures forall x :: x in r <==> x in s && Satisfies(c, x)
    ensures forall x :: multiset(r)[x] == if Satisfies(c, x) then multiset(s)[x] else 0
    ensures IsSubsequence(r, s)
    ensures (forall x :: x in s ==> Satisfies(c, x)) ==> r == s
  {
    if s == [] then []
    else
      var rest := Keep(s[1..], c);
      assert s == [s[0]] + s[1..];
      assert multiset(s) == multiset([s[0]]) + multiset(s[1..]);
      if Satisfies(c, s[0]) then
        assert multiset([s[0]] + rest) == multiset([s[0]]) + multiset(rest);
        [s[0]] + rest
      else rest
  }

  /** A listing passes every criterion of `cs`. */
  predicate PassesAll(cs: seq<Criterion>, x: Listing) {
    forall c :: c in cs ==> Satisfies(c, x)
  }

  /** The listings that pass every step, in input order, each with all its copies. */
  function KeepAll(s: seq<Listing>, cs: seq<Criterion>): (r: seq<Listing>)
    ensures forall x :: x in r <==> x in s && forall c :: c in cs ==> Satisfies(c, x)
    ensures forall x :: multiset(r)[x] == if PassesAll(cs, x) then multiset(s)[x] else 0
    ensures IsSubsequence(r, s)
    decreases |cs|
  {
    if cs == [] then
      SubsequenceReflexive(s);
      s
    else
      var r := KeepAll(Keep(s, cs[0]), cs[1..]);
      assert cs == [cs[0]] + cs[1..];
      assert forall x :: PassesAll(cs, x) <==> Satisfies(cs[0], x) && PassesAll(cs[1..], x);
      SubsequenceTransitive(r, Keep(s, cs[0]), s);
      r
  }

  class PropertyFilterService {
    /** The value of `filtersSubject`. */
    var filters: PropertyFilters

    constructor ()
      ensures filters == EmptyFilters
    {
      filters := EmptyFilters;
    }

    /** `updateFilters(patch)`. */
    method UpdateFilters(patch: FiltersPatch)
      modifies this
      ensures filters == Merge(old(filters), patch)
    {
      filters := Merge(filters, patch);
    }

    /** `clearAllFilters`: nothing is active afterwards. */
    method ClearAllFilters()
      modifies this
      ensures filters == EmptyFilters
      ensures ActiveFiltersCount(filters) == 0
    {
      filters := EmptyFilters;
    }

    function GetActiveFiltersCount(): (n: nat)
      reads this
      ensures n <= 7
    {
      ActiveFiltersCount(filters)
    }

    /**
      `applyFilters(properties)`. The input sequence is a value, so it cannot be
      changed. Without `sortBy` the result is the input with the listings that fail
      a step left out, in order. With `sortBy` the source also sorts the list, and
      the model keeps only that the result is a reordering of the filtered list.
    */
    method ApplyFilters(properties: seq<Listing>) returns (result: seq<Listing>)
      ensures multiset(result) == multiset(KeepAll(properties, ActiveCriteria(filters)))
      ensures !Truthy(filters.sortBy) ==> result == KeepAll(properties, ActiveCriteria(filters))
      ensures forall x :: x in result <==> x in properties && Matches(filters, x)
      ensures filters == EmptyFilters ==> result == properties
    {
      var f := filters;
      var filtered := RunFilterSteps(properties, f);
      result := filtered;
      FilteredMeaning(properties, f);
    }

    /** The price dialog's Apply button. */
    method ApplyPriceRange(minRent: string, maxRent: string)
      modifies this
      ensures match PriceRangeFromInput(minRent, maxRent)
        case Some(r) => filters == Merge(old(filters), NoChange.(rentRange := Present(Some(r))))
        case None => filters == old(filters)
    {
      var r := PriceRangeFromInput(minRent, maxRent);
      if r.Some? {
        UpdateFilters(NoChange.(rentRange := Present(Some(r.value))));
      }
    }

    /** A sort button: the field and the direction; the "Clear Sort" button passes None for both. */
    method SelectSort(sortBy: Option<string>, order: Option<SortOrder>)
      modifies this
      ensures filters == Merge(old(filters), NoChange.(sortBy := Present(sortBy), sortOrder := Present(order)))
    {
      UpdateFilters(NoChange.(sortBy := Present(sortBy), sortOrder := Present(order)));
    }

    /** The location dialog's Apply button: trimmed values, blank ones written as `undefined`. */
    method ApplyLocation(city: Option<string>, state: Option<string>)
      modifies this
      ensures filters == Merge(old(filters), NoChange.(city := Present(TrimmedOrUndefined(city)),
                                                       state := Present(TrimmedOrUndefined(state))))
    {
      UpdateFilters(NoChange.(city := Present(TrimmedOrUndefined(city)), state := Present(TrimmedOrUndefined(state))));
    }
  }

  /** One step of `applyFilters`: `if (on) filtered = filtered.filter(c)`. */
  method FilterStep(filtered: seq<Listing>, on: bool, c: Criterion) returns (r: seq<Listing>)
    ensures r == if on then Keep(filtered, c) else filtered
  {
    r := filtered;
    if on {
      r := Keep(filtered, c);
    }
  }

  /** The seven `filter` steps of `applyFilters`, each run only when its filter is set. */
  method RunFilterSteps(properties: seq<Listing>, f: PropertyFilters) returns (filtered: seq<Listing>)
    ensures filtered == KeepAll(properties, ActiveCriteria(f))
  {
    // The criteria still to apply after each step, so that every step
    // keeps KeepAll(filtered, remaining) equal to the overall result.
    ghost var t6 := StepIf(NonEmptyList(f.amenities), AnyAmenity(f.amenities.GetOr([])));
    ghost var t5 := StepIf(Truthy(f.state), StateContains(f.state.GetOr(""))) + t6;
    ghost var t4 := StepIf(Truthy(f.city), CityContains(f.city.GetOr(""))) + t5;
    ghost var t3 := StepIf(f.rentRange.Some?, RentWithin(f.rentRange.GetOr(Range(0, 0)))) + t4;
    ghost var t2 := StepIf(NonEmptyList(f.furnishing), FurnishingIn(f.furnishing.GetOr([]))) + t3;
    ghost var t1 := StepIf(NonEmptyList(f.bhkType), BhkIn(f.bhkType.GetOr([]))) + t2;
    assert ActiveCriteria(f) == StepIf(NonEmptyList(f.propertyType), TypeIn(f.propertyType.GetOr([]))) + t1;
    KeepAllStep(properties, NonEmptyList(f.propertyType), TypeIn(f.propertyType.GetOr([])), t1);
    filtered := FilterStep(properties, NonEmptyList(f.propertyType), TypeIn(f.propertyType.GetOr([])));
    KeepAllStep(filtered, NonEmptyList(f.bhkType), BhkIn(f.bhkType.GetOr([])), t2);
    filtered := FilterStep(filtered, NonEmptyList(f.bhkType), BhkIn(f.bhkType.GetOr([])));
    KeepAllStep(filtered, NonEmptyList(f.furnishing), FurnishingIn(f.furnishing.GetOr([])), t3);
    filtered := FilterStep(filtered, NonEmptyList(f.furnishing), FurnishingIn(f.furnishing.GetOr([])));
    KeepAllStep(filtered, f.rentRange.Some?, RentWithin(f.rentRange.GetOr(Range(0, 0))), t4);
    filtered := FilterStep(filtered, f.rentRange.Some?, RentWithin(f.rentRange.GetOr(Range(0, 0))));
    KeepAllStep(filtered, Truthy(f.city), CityContains(f.city.GetOr("")), t5);
    filtered := FilterStep(filtered, Truthy(f.city), CityContains(f.city.GetOr("")));
    KeepAllStep(filtered, Truthy(f.state), StateContains(f.state.GetOr("")), t6);
    filtered := FilterStep(filtered, Truthy(f.state), StateContains(f.state.GetOr("")));
    KeepAllStep(filtered, NonEmptyList(f.amenities), AnyAmenity(f.amenities.GetOr([])), []);
    assert t6 + [] == t6;
    filtered := FilterStep(filtered, NonEmptyList(f.amenities), AnyAmenity(f.amenities.GetOr([])));
  }


  /**
    The filtered list holds exactly the listings that pass every active step,
    keeps their order, and is the whole input when no filter is set.
  */
  lemma FilteredMeaning(properties: seq<Listing>, f: PropertyFilters)
    ensures forall x :: x in KeepAll(properties, ActiveCriteria(f)) <==> x in properties && Matches(f, x)
    ensures forall x ::
      multiset(KeepAll(properties, ActiveCriteria(f)))[x] == if Matches(f, x) then multiset(properties)[x] else 0
    ensures IsSubsequence(KeepAll(properties, ActiveCriteria(f)), properties)
    ensures f == EmptyFilters ==> KeepAll(properties, ActiveCriteria(f)) == properties
  {
  }

  /** Running one optional step and then the remaining steps is running all of them. */
  lemma KeepAllStep(s: seq<Listing>, on: bool, c: Criterion, tail: seq<Criterion>)
    ensures KeepAll(s, StepIf(on, c) + tail) == KeepAll(if on then Keep(s, c) else s, tail)
  {
    if on {
      assert (StepIf(on, c) + tail)[1..] == tail;
    } else {
      assert StepIf(on, c) + tail == tail;
    }
  }

  /** `parseInt(text) || fallback`: NaN and 0 both give the fallback. */
  function IntOr(text: string, fallback: int): (n: int)
    ensures ParseInt(text).None? || ParseInt(text) == Some(0) ==> n == fallback
    ensures ParseInt(text).Some? && ParseInt(text).value != 0 ==> n == ParseInt(text).value
  {
    match ParseInt(text)
    case None => fallback
    case Some(v) => if v == 0 then fallback else v
  }

  /**
    The range the price Apply handler writes: min defaults to 0, max to 100000,
    and nothing is written unless min <= max.
  */
  function PriceRangeFromInput(minRent: string, maxRent: string): (r: Option<Range>)
    ensures r.Some? <==> IntOr(minRent, 0) <= IntOr(maxRent, 100000)
    ensures r.Some? ==> r.value.min <= r.value.max
    ensures r.Some? ==> r.value == Range(IntOr(minRent, 0), IntOr(maxRent, 100000))
  {
    var min := IntOr(minRent, 0);
    var max := IntOr(maxRent, 100000);
    if min <= max then Some(Range(min, max)) else None
  }

  /** `value?.trim() || undefined`. */
  function TrimmedOrUndefined(value: Option<string>): (r: Option<string>)
    ensures r.None? <==> value.None? || IsBlank(value.value)
    ensures r.Some? ==> r.value == Trim(value.value) && r.value != ""
  {
    match value
    case None => None
    case Some(v) => if Trim(v) == "" then None else Some(Trim(v))
  }
}
