# ghar mobile app: a verified model of its client-side logic

This project models the application logic of the ghar rental app. The app is an Angular/Ionic client: tenants browse, filter and favourite property listings and contact owners, owners add listings and manage an inbox of contact requests, and both sides chat over a socket. Each core source file becomes one Dafny module with the same name. The state a page or service keeps in fields becomes a `class` whose methods state the new state. The pure helpers (badges, counts, error messages, carousel arithmetic, guards) become functions with lemmas about them.

HTTP calls are recorded in a request log. Each response is a method parameter, and each subscription callback is a separate method treated as one atomic step. The socket is a log of emitted events plus a list of registered listeners. Capacitor `Preferences` and the browser's `localStorage` are each a `Storage.Store` holding a `map<string, string>`. Times are integer milliseconds supplied by the caller.

Modules:

- `PropertyFilter`: the filter service. It covers the right-biased merge of `updateFilters`, the active count, the badges, the `applyFilters` predicate chain (a loop of optional `filter` steps), and the price and location Apply handlers.
- `FilterPropertyPage`: the filter bottom sheet. It has four chip catalogues, toggles, category-wide selection, clearing, presets, loading from input, the applied object, and the counts and summary.
- `InboxPage`: the inbox. Contact requests are objects whose status is updated in place. The page keeps a selection set and the selection mode, and supports search, mark read/unread, delete, time-ago bucketing and receiver routing.
- `ChatService` and `ChatPage`: the chat service's receiver field and socket log, and the chat page's guarded send, message list and time formatting.
- `HomePage`: the listing page. It covers the page/totalPages/loading machine, replace-versus-append merging, category chips and URL construction.
- `PropertyViewPage`: the property page. It covers the cyclic carousel index (including the NaN of an empty gallery), the address line, and the contact form's rules, messages and submit gating.
- `PropertyService`: the property service. It covers the `HttpParams` builder loop, favourites kept as a toggle list, the contact body and the response fallbacks.
- `AddPropertyPage`: the add-property page. It covers the form rules and error messages, the amenities list (including `removeAt(-1)`), image upload and removal, and submission.
- `SignupPage`: the signup page. It covers the form rules (including the e-mail rule), error-message precedence, and the loading and submitted flags.
- `UserService`, `AuthService`, `AuthGuard`, `LoginGuard` and `AuthInterceptor`: the stored user and the owner check, the session over `localStorage`, the two complementary route guards, and the Authorization-header rule.
- Helper modules:
  - `Wrappers`: Option and Result.
  - `JsString`: trim, lower case, number printing and `parseInt`.
  - `Json`: stringify and parse of the stored user record, with a round trip.
  - `Forms`: validator errors and the invalid-and-shown rule.
  - `Storage`: the key-value store.
  - `Seqs`: subsequences, `indexOf`, and `splice` with negative indices.

## Model

| member | source | states |
|---|---|---|
| Forms.MinLengthError | src/app/features/signup/signup.page.ts:67 | a minimum-length error is raised exactly for a non-empty value shorter than the bound (an empty value is left to `required`), and it reports the bound |
| Forms.MaxLengthError | src/app/features/property-view/property-view.page.ts:143 | a maximum-length error is raised exactly for a value longer than the bound, and it reports the bound |
| Forms.InvalidAndShown | src/app/features/signup/signup.page.ts:108-111 | a control is shown as invalid iff it exists, has an error, and is dirty, touched or the form was submitted |
| PropertyFilter.Pick | src/app/shared/services/property-filter/property-filter.ts:52-54 | a key missing from the patch keeps the current value; a key present in it (even as `undefined`) takes the patch's value |
| PropertyFilter.MergeRightBiased | src/app/shared/services/property-filter/property-filter.ts:52-54 | `updateFilters` is right-biased key by key: patched keys take the patch's value, every other key keeps its value |
| PropertyFilter.MergeNoChange | src/app/shared/services/property-filter/property-filter.ts:52-54 | an empty patch leaves the filters unchanged |
| PropertyFilter.MergeIdempotent | src/app/shared/services/property-filter/property-filter.ts:52-54 | applying the same patch twice equals applying it once |
| PropertyFilter.MergeCompose | src/app/shared/services/property-filter/property-filter.ts:52-54 | two successive updates equal one update with the composed patch |
| PropertyFilter.CountTrue | src/app/shared/services/property-filter/property-filter.ts:455-465 | the count of set flags is at most their number, and zero iff no flag is set |
| PropertyFilter.ActiveFiltersCountFlags | src/app/shared/services/property-filter/property-filter.ts:455-465 | the active-filter count is the number of the seven checks (three lists, rent range, city or state, amenities, sort) that hold |
| PropertyFilter.ActiveFiltersCount | src/app/shared/services/property-filter/property-filter.ts:453-466 | the active-filter count is at most 7, and 0 iff no list is non-empty and there is no range, city, state or sort field |
| PropertyFilter.LocationCountedOnce | src/app/shared/services/property-filter/property-filter.ts:461 | city and state together count as one filter |
| PropertyFilter.FilterBadge | src/app/shared/services/property-filter/property-filter.ts:429-432 | the list badge is '' iff the list is missing or empty, and otherwise is wrapped in parentheses |
| PropertyFilter.FilterBadgeCount | src/app/shared/services/property-filter/property-filter.ts:431 | the number inside a list badge parses back to the list's length |
| PropertyFilter.PriceRangeBadge | src/app/shared/services/property-filter/property-filter.ts:434-437 | the price badge is '' iff there is no rent range, and otherwise reads '(₹min-₹max)' with both bounds printed |
| PropertyFilter.PriceRangeBadgeReadsBack | src/app/shared/services/property-filter/property-filter.ts:434-437 | for non-negative bounds, `parseInt` reads the minimum back from just after '(₹' and the maximum from just after '-₹' |
| PropertyFilter.LocationParts | src/app/shared/services/property-filter/property-filter.ts:440-442 | the parts are the truthy city, then the truthy state, each non-empty, and nothing else |
| PropertyFilter.LocationBadge | src/app/shared/services/property-filter/property-filter.ts:439-444 | the location badge is '' iff neither city nor state is truthy, and otherwise holds the present ones joined by ", " inside parentheses, city first |
| PropertyFilter.SortLabel | src/app/shared/services/property-filter/property-filter.ts:448 | a label is found iff some sort option has the given value |
| PropertyFilter.SortLabelFirst | src/app/shared/services/property-filter/property-filter.ts:448 | `find` gives the label of the first sort option with the given value |
| PropertyFilter.SortCaption | src/app/shared/services/property-filter/property-filter.ts:448-450 | the caption is the found label, or 'undefined' when no option matches |
| PropertyFilter.SortCaptions | src/app/shared/services/property-filter/property-filter.ts:448-450 | each of the four sort fields gets its label, and any other field reads 'undefined' |
| PropertyFilter.SortBadge | src/app/shared/services/property-filter/property-filter.ts:446-451 | the sort badge is '' iff no sort field is set; otherwise '(' + caption + ' ' + arrow + ')', where the arrow is '↓' iff the order is 'desc' and '↑' otherwise |
| PropertyFilter.Keep | src/app/shared/services/property-filter/property-filter.ts:475-518 | one `filter` step keeps exactly the listings satisfying its predicate, every copy of each (the multiset of the result is the input's restricted to them), as a subsequence of its input, and keeps everything when all satisfy it |
| PropertyFilter.KeepAll | src/app/shared/services/property-filter/property-filter.ts:473-519 | the chain keeps exactly the listings that satisfy every step, with their multiplicity in the input, as a subsequence of the input |
| PropertyFilter.PropertyFilterService.constructor | src/app/shared/services/property-filter/property-filter.ts:24 | the filters start empty |
| PropertyFilter.PropertyFilterService.UpdateFilters | src/app/shared/services/property-filter/property-filter.ts:52-54 | the new filters are the right-biased merge of the old ones and the patch |
| PropertyFilter.PropertyFilterService.ClearAllFilters | src/app/shared/services/property-filter/property-filter.ts:56-58 | the filters become empty and the active count is 0 |
| PropertyFilter.PropertyFilterService.GetActiveFiltersCount | src/app/shared/services/property-filter/property-filter.ts:453-466 | the count is the active-filter count of the current filters and is at most 7 |
| PropertyFilter.PropertyFilterService.ApplyFilters | src/app/shared/services/property-filter/property-filter.ts:469-548 | the result holds exactly the input listings matching every active filter; without a sort field it is that subsequence in input order, with one it is a permutation of it; empty filters return the input |
| PropertyFilter.PropertyFilterService.ApplyPriceRange | src/app/shared/services/property-filter/property-filter.ts:287-293 | the price Apply handler merges the range only when min <= max, and otherwise changes nothing |
| PropertyFilter.PropertyFilterService.SelectSort | src/app/shared/services/property-filter/property-filter.ts:398-416 | a sort button merges the field and the direction; "Clear Sort" clears both |
| PropertyFilter.PropertyFilterService.ApplyLocation | src/app/shared/services/property-filter/property-filter.ts:334-339 | the location Apply handler merges the trimmed city and state, with blank values written as `undefined` |
| PropertyFilter.FilterStep | src/app/shared/services/property-filter/property-filter.ts:474-478 | a step filters only when its filter is set, and otherwise passes the list through |
| PropertyFilter.RunFilterSteps | src/app/shared/services/property-filter/property-filter.ts:471-519 | the seven optional steps together give the listings that pass every active criterion |
| PropertyFilter.FilteredMeaning | src/app/shared/services/property-filter/property-filter.ts:473-519 | a listing is kept iff it matches the filters, each matching listing as many times as it occurs in the input; the result is an order-preserving subsequence, and the whole input for empty filters |
| PropertyFilter.KeepAllStep | src/app/shared/services/property-filter/property-filter.ts:474-519 | running one optional step and then the rest equals running the whole chain |
| PropertyFilter.IntOr | src/app/shared/services/property-filter/property-filter.ts:288-289 | `parseInt(x) \|\| d` gives d for unparsable text and for 0, and the parsed number otherwise |
| PropertyFilter.PriceRangeFromInput | src/app/shared/services/property-filter/property-filter.ts:288-292 | a range is produced iff the defaulted min (0) is at most the defaulted max (100000), and it is exactly that pair |
| PropertyFilter.TrimmedOrUndefined | src/app/shared/services/property-filter/property-filter.ts:336-337 | a missing or blank input gives `undefined`, and otherwise the non-empty trimmed text |
| FilterPropertyPage.WithOptions | src/app/shared/components/filter-property/filter-property.page.ts:265-285 | replacing one category's chips changes that category only, and never price, location or sort |
| FilterPropertyPage.AllSet | src/app/shared/components/filter-property/filter-property.page.ts:272-284 | setting every flag keeps the category's chips (ids and labels) |
| FilterPropertyPage.AllSetFalse | src/app/shared/components/filter-property/filter-property.page.ts:321-324 | a category cleared this way has no selected chip |
| FilterPropertyPage.ToggledFlipsOne | src/app/shared/components/filter-property/filter-property.page.ts:265-267 | toggling flips exactly one chip's flag; every other chip, category, price, location and sort is unchanged |
| FilterPropertyPage.ToggleTwice | src/app/shared/components/filter-property/filter-property.page.ts:265-267 | toggling the same chip twice restores the sheet |
| FilterPropertyPage.CategorySetMeaning | src/app/shared/components/filter-property/filter-property.page.ts:270-285 | selecting or deselecting a category sets all its chips to the flag and leaves other categories, price, location and sort unchanged |
| FilterPropertyPage.SelectedOnly | src/app/shared/components/filter-property/filter-property.page.ts:392-406 | the selected chips are exactly the chips with the flag on, in catalogue order, and none iff nothing is selected |
| FilterPropertyPage.ActiveCount | src/app/shared/components/filter-property/filter-property.page.ts:287-307 | the count is at most 6, and 0 iff no category has a selection and price and location are blank |
| FilterPropertyPage.Summary | src/app/shared/components/filter-property/filter-property.page.ts:384-389 | the summary is 'No filters applied', '1 filter applied', or the count followed by ' filters applied' |
| FilterPropertyPage.Detailed | src/app/shared/components/filter-property/filter-property.page.ts:309-318 | each per-category count is the number of selected chips, non-zero iff that category has a selection; price and location count 1 exactly when set |
| FilterPropertyPage.ActiveCountFromDetailed | src/app/shared/components/filter-property/filter-property.page.ts:287-318 | the active count is the number of non-zero entries of the detailed count |
| FilterPropertyPage.ClearedMeaning | src/app/shared/components/filter-property/filter-property.page.ts:320-328 | clearing deselects every chip, empties price and location, makes the count 0, and sets the sort to sortOptions[0] ('Price: Low to High'), not the initial 'Most Popular' |
| FilterPropertyPage.ClearedSpecificMeaning | src/app/shared/components/filter-property/filter-property.page.ts:330-351 | clearing one of the four categories deselects all its chips and changes nothing else; 'priceRange' and 'location' reset only that field; the sort is never touched, and an unknown name changes nothing |
| FilterPropertyPage.LoadedChips | src/app/shared/components/filter-property/filter-property.page.ts:145-147 | reloading a category keeps its chips (ids and labels) |
| FilterPropertyPage.LoadedMeaning | src/app/shared/components/filter-property/filter-property.page.ts:143-186 | in each of the four categories, a non-empty input list rewrites the flags (a chip is selected iff the input holds its id with the flag on) and an empty one keeps them; a given price range, a non-empty location and a non-empty sort replace the sheet's, and well-formedness is kept |
| FilterPropertyPage.LoadCategoryRoundTrip | src/app/shared/components/filter-property/filter-property.page.ts:143-186 | one category of the applied object, loaded into a sheet with the same chips, gives back the builder's flags when it had a selection and leaves the receiver's otherwise |
| FilterPropertyPage.LoadSelectedRoundTrip | src/app/shared/components/filter-property/filter-property.page.ts:145-147 | reloading a category from its own selected chips gives the category back (see also line 355) |
| FilterPropertyPage.PropertyTypeCatalogueDistinct | src/app/shared/components/filter-property/filter-property.page.ts:53-60 | the property-type catalogue repeats no id |
| FilterPropertyPage.BhkCatalogueDistinct | src/app/shared/components/filter-property/filter-property.page.ts:61-68 | the BHK catalogue repeats no id |
| FilterPropertyPage.FurnishingCatalogueDistinct | src/app/shared/components/filter-property/filter-property.page.ts:69-74 | the furnishing catalogue repeats no id |
| FilterPropertyPage.AmenityCatalogueDistinct | src/app/shared/components/filter-property/filter-property.page.ts:75-88 | the amenity catalogue repeats no id |
| FilterPropertyPage.CataloguesDistinct | src/app/shared/components/filter-property/filter-property.page.ts:53-88 | no category of a sheet built on the catalogues repeats an id |
| FilterPropertyPage.LoadAppliedRoundTrip | src/app/shared/components/filter-property/filter-property.page.ts:143-186 | loading the object Apply built into any sheet gives, per category, the builder's chips if it had a selection and the receiving sheet's otherwise; the price range is restored, the location is the trimmed one when non-empty, and the sort is restored when non-empty (see also lines 353-362) |
| FilterPropertyPage.BuiltMeaning | src/app/shared/components/filter-property/filter-property.page.ts:353-362 | the applied object holds each category's selected chips in catalogue order, the price range, the trimmed location and the sort |
| FilterPropertyPage.FirstWithId | src/app/shared/components/filter-property/filter-property.page.ts:411 | `find` stops at the first chip with the id, or finds none |
| FilterPropertyPage.Marked | src/app/shared/components/filter-property/filter-property.page.ts:411 | marking a chip keeps the category's chips |
| FilterPropertyPage.MarkedAt | src/app/shared/components/filter-property/filter-property.page.ts:411 | on a category without repeated ids, marking selects the one chip with that id and nothing else |
| FilterPropertyPage.PresetPositions | src/app/shared/components/filter-property/filter-property.page.ts:53-88 | where each chip the presets mark sits in its catalogue |
| FilterPropertyPage.MarkOne | src/app/shared/components/filter-property/filter-property.page.ts:418 | marking one chip of a cleared category selects exactly that chip |
| FilterPropertyPage.MarkTwo | src/app/shared/components/filter-property/filter-property.page.ts:411-412 | marking two chips of a cleared category selects exactly those two |
| FilterPropertyPage.MarkThree | src/app/shared/components/filter-property/filter-property.page.ts:433-435 | marking three chips of a cleared category selects exactly those three |
| FilterPropertyPage.PresetBase | src/app/shared/components/filter-property/filter-property.page.ts:410-430 | a preset starts from a cleared sheet: nothing selected, catalogue order, no repeated ids |
| FilterPropertyPage.BudgetPresetMeaning | src/app/shared/components/filter-property/filter-property.page.ts:409-415 | the budget preset leaves exactly '1bhk' and '2bhk' selected, price ₹50L–₹1Cr and sort 'Price: Low to High' |
| FilterPropertyPage.LuxuryPresetMeaning | src/app/shared/components/filter-property/filter-property.page.ts:417-427 | the luxury preset selects exactly villa, 3/4 BHK, fully furnished, pool and gym, with min price ₹2Cr and sort 'Price: High to Low' |
| FilterPropertyPage.FamilyPresetMeaning | src/app/shared/components/filter-property/filter-property.page.ts:429-437 | the family preset selects exactly 2/3 BHK and playground, security and parking, with empty price and location and sort 'Most Popular' |
| FilterPropertyPage.BudgetPresetWellFormed | src/app/shared/components/filter-property/filter-property.page.ts:409-415 | the budget preset keeps every category's catalogue chips |
| FilterPropertyPage.LuxuryPresetWellFormed | src/app/shared/components/filter-property/filter-property.page.ts:417-427 | the luxury preset keeps every category's catalogue chips |
| FilterPropertyPage.FamilyPresetWellFormed | src/app/shared/components/filter-property/filter-property.page.ts:429-437 | the family preset keeps every category's catalogue chips |
| FilterPropertyPage.FilterPropertyPage.constructor | src/app/shared/components/filter-property/filter-property.page.ts:53-111 | the sheet starts on the catalogues with nothing selected, sort 'Most Popular' and nothing applied |
| FilterPropertyPage.FilterPropertyPage.NgOnInit | src/app/shared/components/filter-property/filter-property.page.ts:120-131 | the input filters are loaded when given, and the sheet is otherwise unchanged |
| FilterPropertyPage.FilterPropertyPage.LoadFiltersFromInput | src/app/shared/components/filter-property/filter-property.page.ts:143-186 | the new sheet is the old one reloaded from the input |
| FilterPropertyPage.FilterPropertyPage.ToggleChip | src/app/shared/components/filter-property/filter-property.page.ts:265-267 | the new sheet is the old one with exactly that chip flipped |
| FilterPropertyPage.FilterPropertyPage.ToggleAllInCategory | src/app/shared/components/filter-property/filter-property.page.ts:270-285 | the new sheet is the old one with the category set to the flag |
| FilterPropertyPage.FilterPropertyPage.GetActiveFiltersCount | src/app/shared/components/filter-property/filter-property.page.ts:287-307 | the count is the sheet's active count, at most 6 |
| FilterPropertyPage.FilterPropertyPage.HasActiveFilters | src/app/shared/components/filter-property/filter-property.page.ts:380-382 | holds iff some chip of some category is selected, the price range is set, or the location is not blank |
| FilterPropertyPage.FilterPropertyPage.GetFilterSummary | src/app/shared/components/filter-property/filter-property.page.ts:384-389 | 'No filters applied' exactly when no filter is active, '1 filter applied' for one, and the count followed by ' filters applied' otherwise |
| FilterPropertyPage.FilterPropertyPage.GetDetailedFilterCount | src/app/shared/components/filter-property/filter-property.page.ts:309-318 | the active count is the number of non-zero entries of the detailed count |
| FilterPropertyPage.FilterPropertyPage.ClearAllFilters | src/app/shared/components/filter-property/filter-property.page.ts:320-328 | the new sheet is the cleared old one |
| FilterPropertyPage.FilterPropertyPage.ClearSpecificFilter | src/app/shared/components/filter-property/filter-property.page.ts:330-351 | the new sheet is the old one with only the named filter cleared |
| FilterPropertyPage.FilterPropertyPage.ApplyFilters | src/app/shared/components/filter-property/filter-property.page.ts:353-373 | the sheet is unchanged; the dismissed object is the built one, recorded with the active count |
| FilterPropertyPage.FilterPropertyPage.OnLocationInput | src/app/shared/components/filter-property/filter-property.page.ts:496-498 | only the location changes, to the typed text |
| FilterPropertyPage.FilterPropertyPage.ApplyBudgetFriendlyPreset | src/app/shared/components/filter-property/filter-property.page.ts:409-415 | the new sheet is the budget preset of the old one |
| FilterPropertyPage.FilterPropertyPage.ApplyLuxuryPreset | src/app/shared/components/filter-property/filter-property.page.ts:417-427 | the new sheet is the luxury preset of the old one |
| FilterPropertyPage.FilterPropertyPage.ApplyFamilyFriendlyPreset | src/app/shared/components/filter-property/filter-property.page.ts:429-437 | the new sheet is the family preset of the old one |
| FilterPropertyPage.LoadStep | src/app/shared/components/filter-property/filter-property.page.ts:143-186 | the in-place statements of the loader compute the reloaded sheet and keep the catalogues |
| FilterPropertyPage.ClearStep | src/app/shared/components/filter-property/filter-property.page.ts:320-328 | the in-place statements of clearing compute the cleared sheet and keep the catalogues |
| FilterPropertyPage.ClearSpecificStep | src/app/shared/components/filter-property/filter-property.page.ts:330-351 | the switch computes the sheet with only the named filter cleared |
| FilterPropertyPage.BudgetStep | src/app/shared/components/filter-property/filter-property.page.ts:409-415 | the preset's statements compute the budget preset |
| FilterPropertyPage.LuxuryStep | src/app/shared/components/filter-property/filter-property.page.ts:417-427 | the preset's statements compute the luxury preset |
| FilterPropertyPage.FamilyStep | src/app/shared/components/filter-property/filter-property.page.ts:429-437 | the preset's statements compute the family preset |
| FilterPropertyPage.SetAllChips | src/app/shared/components/filter-property/filter-property.page.ts:272-284 | the `forEach` loop sets every chip's flag, as the category-wide set |
| FilterPropertyPage.LoadChips | src/app/shared/components/filter-property/filter-property.page.ts:145-147 | the `forEach` loop selects each chip iff the input holds its id selected |
| FilterPropertyPage.MarkChip | src/app/shared/components/filter-property/filter-property.page.ts:411 | the `find` loop marks the first chip with the id |
| InboxPage.ContactRequest.constructor | src/app/features/inbox/inbox.page.ts:56-69 | a request is created with exactly the given fields |
| InboxPage.SampleIdsDistinct | src/app/features/inbox/inbox.page.ts:141-208 | the five sample requests' ids '1' to '5' are distinct |
| InboxPage.SampleRequests | src/app/features/inbox/inbox.page.ts:141-208 | the sample list: ids '1' to '5', statuses unread, read, replied, read, unread, and timestamps 10 and 45 minutes, 2 and 4 hours, and 24 hours before `now` |
| InboxPage.FindById | src/app/features/inbox/inbox.page.ts:372 | `findIndex` returns the first index with the id, and -1 iff no request has it |
| InboxPage.Matching | src/app/features/inbox/inbox.page.ts:273-277 | the filtered list is a subsequence holding exactly the requests whose name, title or preview contains the term case-insensitively |
| InboxPage.SearchResults | src/app/features/inbox/inbox.page.ts:269-279 | a blank term shows every request in order; otherwise exactly the matching ones, in order |
| InboxPage.Without | src/app/features/inbox/inbox.page.ts:370-376 | deleting keeps exactly the requests whose id is not selected, in their order |
| InboxPage.WithoutAbsent | src/app/features/inbox/inbox.page.ts:372-375 | a selected id that no request has removes nothing (`findIndex` gives -1) |
| InboxPage.SpliceFound | src/app/features/inbox/inbox.page.ts:372-375 | splicing out the request found by id removes exactly that id |
| InboxPage.Toggled | src/app/features/inbox/inbox.page.ts:308-313 | toggling flips the id's membership and leaves every other id's membership |
| InboxPage.ToggleTwice | src/app/features/inbox/inbox.page.ts:308-313 | toggling the same id twice restores the selection |
| InboxPage.AddIds | src/app/features/inbox/inbox.page.ts:325-327 | the `forEach` adds every shown id to the selection |
| InboxPage.SelectedAll | src/app/features/inbox/inbox.page.ts:320-329 | when the selection's size equals the shown count it is cleared and the mode is off; otherwise every shown id is added and nothing else |
| InboxPage.IdSetSize | src/app/features/inbox/inbox.page.ts:321 | with distinct ids, the number of ids equals the number of requests |
| InboxPage.SelectAllTwice | src/app/features/inbox/inbox.page.ts:320-329 | from a partial selection of shown requests, pressing select-all selects every shown id, and pressing it again clears the selection and leaves the mode |
| InboxPage.StatusesOf | src/app/features/inbox/inbox.page.ts:56-69 | the statuses of the requests, in order |
| InboxPage.CountUnread | src/app/features/inbox/inbox.page.ts:407-409 | the unread count is the number of statuses equal to 'unread' |
| InboxPage.Marked | src/app/features/inbox/inbox.page.ts:352-368 | marking sets the status of exactly the selected requests and leaves the rest |
| InboxPage.MarkedPointwise | src/app/features/inbox/inbox.page.ts:352-368 | statuses that agree with marking index by index are the marked statuses |
| InboxPage.MarkReadCount | src/app/features/inbox/inbox.page.ts:352-359 | marking read never raises the unread count, and gives 0 when every unread request was selected (see also lines 407-409) |
| InboxPage.StatusIcon | src/app/features/inbox/inbox.page.ts:411-418 | only 'read' and 'replied' get an icon: 'checkmark-outline' and 'checkmark-done-outline' |
| InboxPage.TimeAgoOf | src/app/features/inbox/inbox.page.ts:281-295 | the elapsed time is bucketed into now (< 1 minute), whole minutes (< 60), whole hours (< 24), whole days (< 7), or the locale date, each count being the floor of the elapsed time |
| InboxPage.TimeAgoText | src/app/features/inbox/inbox.page.ts:285-292 | the locale date has no text; `Now` is shown as 'now', and minutes, hours and days as the count followed by 'm', 'h' or 'd' |
| InboxPage.FindOther | src/app/features/inbox/inbox.page.ts:298 | `find` returns -1 iff no participant is strictly unequal to the user id, and otherwise the first index that is |
| InboxPage.FindNotEqual | src/app/features/inbox/inbox.page.ts:298 | `find(p => p !== v)` returns -1 iff every value is strictly equal to v, and otherwise the first index of one that is not |
| InboxPage.ClickReceiver | src/app/features/inbox/inbox.page.ts:297-300 | the receiver is always the first participant's id (an object never equals the user id string), and a conversation without participants throws |
| InboxPage.InboxPage.constructor | src/app/features/inbox/inbox.page.ts:111-209 | the page starts with the five sample requests (ids '1' to '5', statuses unread, read, replied, read, unread, stamped 10 and 45 minutes, 2 and 4 hours, and a day before `now`), an empty term, no selection, selection mode and action sheet off |
| InboxPage.InboxPage.NgOnInit | src/app/features/inbox/inbox.page.ts:237-238 | the shown list becomes all requests; nothing else changes |
| InboxPage.InboxPage.ConversationsLoaded | src/app/features/inbox/inbox.page.ts:250-254 | a response with conversations replaces the list; otherwise it is kept |
| InboxPage.InboxPage.UserLoaded | src/app/features/inbox/inbox.page.ts:240-243 | the user id is remembered and one 'addUsers' event with it is emitted; a missing user throws before any change |
| InboxPage.InboxPage.OnSearchChange | src/app/features/inbox/inbox.page.ts:264-267 | the term becomes the lower-cased input and the shown list is the search result for it |
| InboxPage.InboxPage.FilterRequests | src/app/features/inbox/inbox.page.ts:269-279 | the shown list becomes the search result for the current term; nothing else changes |
| InboxPage.InboxPage.OnRequestClick | src/app/features/inbox/inbox.page.ts:297-300 | the receiver becomes the first participant's id and the route is ['/chat', conversation id]; without participants it throws before any change |
| InboxPage.InboxPage.OnRequestLongPress | src/app/features/inbox/inbox.page.ts:303-306 | the id is toggled, and the mode is on iff the selection is then non-empty |
| InboxPage.InboxPage.ToggleSelection | src/app/features/inbox/inbox.page.ts:308-318 | the id is toggled; the mode turns off when the selection becomes empty, and is otherwise kept |
| InboxPage.InboxPage.SelectAll | src/app/features/inbox/inbox.page.ts:320-329 | selection and mode become the select-all result for the shown list |
| InboxPage.InboxPage.OpenRequestDetails | src/app/features/inbox/inbox.page.ts:331-336 | the request's status becomes 'read' |
| InboxPage.InboxPage.OpenActionSheet | src/app/features/inbox/inbox.page.ts:344-346 | the action sheet opens and nothing else changes |
| InboxPage.InboxPage.CloseActionSheet | src/app/features/inbox/inbox.page.ts:348-350 | the action sheet closes and nothing else changes |
| InboxPage.InboxPage.ExitSelectionMode | src/app/features/inbox/inbox.page.ts:382-385 | the mode turns off and the selection empties |
| InboxPage.InboxPage.SetSelectedStatus | src/app/features/inbox/inbox.page.ts:353-356 | every selected request gets the status, the others keep theirs |
| InboxPage.InboxPage.MarkAsRead | src/app/features/inbox/inbox.page.ts:352-359 | exactly the selected requests become read; the selection is empty, the mode off and the sheet closed |
| InboxPage.InboxPage.MarkAsUnread | src/app/features/inbox/inbox.page.ts:361-368 | exactly the selected requests become unread; the selection is empty, the mode off and the sheet closed |
| InboxPage.InboxPage.DeleteSelected | src/app/features/inbox/inbox.page.ts:370-380 | the selected requests are removed with the rest in order, the shown list is recomputed, and the selection is empty, the mode off and the sheet closed |
| InboxPage.InboxPage.UnreadCount | src/app/features/inbox/inbox.page.ts:407-409 | the count is the number of requests whose status is unread; it is at most the number of requests, and zero iff no request is unread |
| InboxPage.SetStatuses | src/app/features/inbox/inbox.page.ts:353-356 | the loop over the selection gives the marked statuses |
| InboxPage.SetStatusAt | src/app/features/inbox/inbox.page.ts:355 | one assignment changes exactly one request's status |
| InboxPage.RemoveSelected | src/app/features/inbox/inbox.page.ts:371-376 | the splice loop leaves exactly the requests whose id is not selected, in order, ids still distinct |
| InboxPage.WithoutDistinct | src/app/features/inbox/inbox.page.ts:370-376 | removing requests keeps the ids distinct |
| ChatService.Socket.constructor | src/app/shared/services/chat.ts:17 | a new socket has the server URL, nothing emitted and no listener |
| ChatService.Socket.Emit | src/app/shared/services/chat.ts:29-37 | an emit appends exactly one event to the log and leaves the listeners |
| ChatService.Socket.On | src/app/shared/services/chat.ts:41 | registering appends one listener and keeps the earlier ones |
| ChatService.Chat.constructor | src/app/shared/services/chat.ts:8-14 | the service starts without a socket and with receiver '' |
| ChatService.Chat.Init | src/app/shared/services/chat.ts:16-18 | `init` connects a fresh socket to the server URL and keeps the receiver |
| ChatService.Chat.SetRecevier | src/app/shared/services/chat.ts:20-26 | after `setRecevier(id)`, `getReceiver` returns id |
| ChatService.Chat.EmitOrThrow | src/app/shared/services/chat.ts:29-37 | with a socket, exactly one event is emitted; without one (before `init`), the call throws and nothing changes |
| ChatService.Chat.Connect | src/app/shared/services/chat.ts:28-30 | `connect` emits exactly one 'addUsers' event carrying the user id |
| ChatService.Chat.JoinConversation | src/app/shared/services/chat.ts:32-34 | `joinConversation` emits exactly one 'joinConversation' event carrying the id |
| ChatService.Chat.SendMessage | src/app/shared/services/chat.ts:36-38 | `sendMessage` emits exactly one 'sendMessage' event with the payload unchanged |
| ChatService.Chat.OnMessage | src/app/shared/services/chat.ts:40-42 | `onMessage` adds one 'getMessage' listener without removing earlier ones |
| ChatService.ListenersFor | src/app/shared/services/chat.ts:40-42 | the listeners an event reaches are exactly those registered for it |
| ChatService.HandlersAccumulate | src/app/shared/services/chat.ts:40-42 | registering a callback again makes a 'getMessage' event reach it once more |
| ChatPage.FormatTime | src/app/features/chat/chat.page.ts:191-206 | 'now' below 60000 ms, floor(diff/60000) minutes below 3600000 ms, then the locale time below a day, else the locale date |
| ChatPage.ShownText | src/app/features/chat/chat.page.ts:196-199 | only 'now' and the minute form have text: 'now' for `ShownNow`, the minute count followed by 'm' otherwise |
| ChatPage.StatusIcon | src/app/features/chat/chat.page.ts:208-216 | the four statuses map to their icons ('delivered' and 'read' share one) and anything else gives '' |
| ChatPage.Incoming | src/app/features/chat/chat.page.ts:84-99 | an incoming message has the event's sender id and text, the page's conversation and `read` false |
| ChatPage.Outgoing | src/app/features/chat/chat.page.ts:136-146 | an outgoing message has the user's id, the text as typed (untrimmed), the page's conversation and `read` false |
| ChatPage.ChatPage.constructor | src/app/features/chat/chat.page.ts:61-81 | the page is for the route's conversation, with no messages, an empty box and no ids |
| ChatPage.ChatPage.NgOnInit | src/app/features/chat/chat.page.ts:102-108 | one GET of '/message/' + conversation id, the receiver copied from the chat service, and one 'getMessage' listener added |
| ChatPage.ChatPage.UserLoaded | src/app/features/chat/chat.page.ts:110-113 | the user id becomes the stored user's id, or '' without one |
| ChatPage.ChatPage.LoadMessages | src/app/features/chat/chat.page.ts:119-121 | one GET of '/message/' + conversation id; the messages are unchanged until the response |
| ChatPage.ChatPage.MessagesLoaded | src/app/features/chat/chat.page.ts:121-126 | a truthy response replaces the whole list; otherwise it is unchanged |
| ChatPage.ChatPage.OnMessage | src/app/features/chat/chat.page.ts:84-100 | exactly one message built from the event is appended, without deduplication or reordering |
| ChatPage.ChatPage.AddMeessage | src/app/features/chat/chat.page.ts:130-132 | exactly the given message is appended |
| ChatPage.ChatPage.SendMessage | src/app/features/chat/chat.page.ts:134-178 | a blank box changes nothing; otherwise the socket payload {receiverId, senderId, text} is emitted first, then one message is appended and one POST {conversationId, senderId, text} is issued, the box being kept |
| ChatPage.ChatPage.Send | src/app/features/chat/chat.page.ts:136-168 | the non-blank branch: emit, append, then POST, in that order; without a socket it throws before appending |
| ChatPage.ChatPage.OnInput | src/app/features/chat/chat.page.ts:72 | the box holds the typed text, untrimmed |
| ChatPage.ChatPage.PostSucceeded | src/app/features/chat/chat.page.ts:162-165 | only on POST success is the box emptied |
| HomePage.OwnerId | src/app/features/home/home.page.ts:127-128 | the owner id is the user's id when the stored role is 'owner', and '' otherwise or without a user |
| HomePage.PageQueryPrefix | src/app/features/home/home.page.ts:131-142 | the part of the URL before the page number always begins with the API base and '/properties' |
| HomePage.PropertiesUrl | src/app/features/home/home.page.ts:131-142 | the URL is a prefix (API base + '/properties' + filter + 'page=' when there is a filter, API base + '/properties?ownerId=' + owner id + '&page=' otherwise), then the page number as printed, then '&limit=5'; for a non-negative page, `parseInt` of the text after the prefix gives the page back |
| HomePage.StartLoad | src/app/features/home/home.page.ts:126-145 | a load sets `loading` and appends one GET whose URL is `PropertiesUrl` of the current state (so it carries the current page, as stated there) and which is marked filtered iff a filter is set; nothing else changes |
| HomePage.Refreshed | src/app/features/home/home.page.ts:106-110 | a refresh resets `page` to 1 before issuing the load |
| HomePage.Scrolled | src/app/features/home/home.page.ts:112-124 | the page advances by exactly 1 with one load only when page < totalPages and nothing is loading; otherwise nothing changes; a page within range stays within range |
| HomePage.ScrollingStaysInRange | src/app/features/home/home.page.ts:113-114 | however often the user scrolls, the page never goes back and never passes `totalPages` |
| HomePage.ScrollingWhileLoading | src/app/features/home/home.page.ts:113 | while a load is pending, scrolling changes nothing, however often |
| HomePage.UnfilteredLoaded | src/app/features/home/home.page.ts:145-156 | a response with `properties` replaces the list on page 1 and appends it in order on later pages, takes `totalPages` from `pages` and clears `loading`; a response without it changes nothing |
| HomePage.FilteredLoaded | src/app/features/home/home.page.ts:132-138 | a filtered response with `properties` always replaces the list, takes `totalPages` and clears `loading`; without it nothing changes |
| HomePage.AppendedInOrder | src/app/features/home/home.page.ts:149-151 | later pages loaded one after another concatenate in order |
| HomePage.LoadingCanStick | src/app/features/home/home.page.ts:129-146 | a response lacking `properties` leaves `loading` true for good, so infinite scroll never fetches again |
| HomePage.CategoryFilter | src/app/features/home/home.page.ts:161-164 | the category filter is '?propertyType=' + name + '&' |
| HomePage.CategorySelected | src/app/features/home/home.page.ts:160-171 | selecting a category sets its filter and page 1 and starts a filtered load |
| HomePage.FiltersDismissed | src/app/features/home/home.page.ts:198-203 | the dismissed filters object is concatenated as text, so the filter becomes '[object Object]&' and the next load uses it |
| HomePage.CategoryChip.constructor | src/app/features/home/home.page.ts:82-89 | a chip starts inactive with its name and icon |
| HomePage.DeactivateOthers | src/app/features/home/home.page.ts:165-169 | the loop switches off every chip with another name and leaves the rest |
| HomePage.HomePage.constructor | src/app/features/home/home.page.ts:77-92 | the page starts with no filter, page 1 of 0, not loading, no listings and the six inactive chips |
| HomePage.HomePage.LoadProperties | src/app/features/home/home.page.ts:126-158 | the new state is the old one with the load started |
| HomePage.HomePage.HandleRefresh | src/app/features/home/home.page.ts:106-110 | the new state is the refreshed old one |
| HomePage.HomePage.OnIonInfinite | src/app/features/home/home.page.ts:112-124 | the new state is the scrolled old one |
| HomePage.HomePage.UnfilteredResponse | src/app/features/home/home.page.ts:145-156 | the new state is the old one with the unfiltered response merged |
| HomePage.HomePage.FilteredResponse | src/app/features/home/home.page.ts:132-138 | the new state is the old one with the filtered response merged |
| HomePage.HomePage.OnCategorySelect | src/app/features/home/home.page.ts:160-171 | only the clicked category is active, `page` is 1, the filter is '?propertyType=' + name + '&' and a filtered load starts |
| HomePage.HomePage.OnFiltersDismissed | src/app/features/home/home.page.ts:198-204 | without data nothing changes; with data the filters are kept and the list reloads with the filter '[object Object]&' |
| HomePage.SixNamesDistinct | src/app/features/home/home.page.ts:82-89 | the six category names are distinct |
| PropertyViewPage.JsRem | src/app/features/property-view/property-view.page.ts:200 | JavaScript's `%` takes the sign of the dividend and stays strictly between -b and b |
| PropertyViewPage.NextIndex | src/app/features/property-view/property-view.page.ts:199-201 | the next index wraps from the last image to 0 and otherwise steps forward; with no images (or a NaN index) it is NaN |
| PropertyViewPage.PreviousIndex | src/app/features/property-view/property-view.page.ts:203-207 | the previous index wraps from 0 to the last image and otherwise steps back; NaN stays NaN |
| PropertyViewPage.IndexStaysInRange | src/app/features/property-view/property-view.page.ts:199-207 | for n > 0 images, both directions keep an index in [0, n) |
| PropertyViewPage.NextPreviousInverse | src/app/features/property-view/property-view.page.ts:199-207 | back after forward, and forward after back, restore the index |
| PropertyViewPage.ForwardSteps | src/app/features/property-view/property-view.page.ts:199-201 | k forward presses that do not pass the last image move exactly k images |
| PropertyViewPage.NextTimesAdd | src/app/features/property-view/property-view.page.ts:199-201 | a presses followed by b presses equal a + b presses |
| PropertyViewPage.FullRound | src/app/features/property-view/property-view.page.ts:199-201 | n forward presses with n images return to the start |
| PropertyViewPage.NoImagesGivesNaN | src/app/features/property-view/property-view.page.ts:200 | with no images the index becomes NaN and never leaves NaN |
| PropertyViewPage.FullAddress | src/app/features/property-view/property-view.page.ts:359-362 | the address is building, street, city and "state pincode" joined by ", "; the landmark is omitted |
| PropertyViewPage.PhoneErrors | src/app/features/property-view/property-view.page.ts:142 | the phone control is required, and a non-empty value must match ^[+]?[0-9]{10,15}$ |
| PropertyViewPage.MessageErrors | src/app/features/property-view/property-view.page.ts:143 | the message control is required, with minlength 10 and maxlength 500 reported by their bounds |
| PropertyViewPage.FormValidMeaning | src/app/features/property-view/property-view.page.ts:141-144 | the contact form is valid iff the phone matches the pattern and the message has 10 to 500 characters (see also line 418) |
| PropertyViewPage.FieldDisplayName | src/app/features/property-view/property-view.page.ts:402-408 | 'phoneNumber' and 'message' have display names; any other name is shown as itself |
| PropertyViewPage.ErrorMessage | src/app/features/property-view/property-view.page.ts:381-400 | '' unless the control exists, has errors and is touched; then required > pattern > minlength > maxlength, each with its message |
| PropertyViewPage.PhoneMessages | src/app/features/property-view/property-view.page.ts:381-389 | a touched phone field shows 'Phone number is required' when empty, the pattern message when malformed, and nothing when valid |
| PropertyViewPage.MessageMessages | src/app/features/property-view/property-view.page.ts:381-386 | a touched message shows 'Message is required' when empty and nothing at 10 to 500 characters |
| PropertyViewPage.MessageTooShort | src/app/features/property-view/property-view.page.ts:390-393 | a touched, too short message shows 'Message must be at least 10 characters' |
| PropertyViewPage.MessageTooLong | src/app/features/property-view/property-view.page.ts:394-397 | a touched, too long message shows 'Message cannot exceed 500 characters' |
| PropertyViewPage.PropertyViewPage.constructor | src/app/features/property-view/property-view.page.ts:75-144 | the page starts on the sample property at image 0, not favourite, modal closed, not submitted, with an empty form |
| PropertyViewPage.PropertyViewPage.NgOnInit | src/app/features/property-view/property-view.page.ts:147-168 | the route's id is kept and one GET of '/property/' + id ('null' when absent) is issued |
| PropertyViewPage.PropertyViewPage.PropertyLoaded | src/app/features/property-view/property-view.page.ts:164-167 | a truthy response replaces the shown property |
| PropertyViewPage.PropertyViewPage.NextImage | src/app/features/property-view/property-view.page.ts:199-201 | the index becomes the next index for the image count |
| PropertyViewPage.PropertyViewPage.PreviousImage | src/app/features/property-view/property-view.page.ts:203-207 | the index becomes the previous index for the image count |
| PropertyViewPage.PropertyViewPage.ToggleFavorite | src/app/features/property-view/property-view.page.ts:209-211 | `isFavorite` flips and nothing else changes |
| PropertyViewPage.PropertyViewPage.ResetContactForm | src/app/features/property-view/property-view.page.ts:376-379 | both controls are reset and `isSubmitted` is false |
| PropertyViewPage.PropertyViewPage.ContactOwner | src/app/features/property-view/property-view.page.ts:366-369 | the modal opens on a reset form with `isSubmitted` false |
| PropertyViewPage.PropertyViewPage.CloseContactModal | src/app/features/property-view/property-view.page.ts:371-374 | the modal closes on a reset form with `isSubmitted` false |
| PropertyViewPage.PropertyViewPage.OnInput | src/app/features/property-view/property-view.page.ts:141-144 | typing sets the control's value and marks it dirty; the other control is unchanged |
| PropertyViewPage.PropertyViewPage.OnBlur | src/app/features/property-view/property-view.page.ts:141-144 | leaving a control marks it touched; the other control is unchanged |
| PropertyViewPage.PropertyViewPage.OnContactSubmit | src/app/features/property-view/property-view.page.ts:415-440 | `isSubmitted` becomes true, and one POST of {propertyId, phone, message} to '/contact-request' is issued only when the form is valid |
| PropertyViewPage.PropertyViewPage.ContactSent | src/app/features/property-view/property-view.page.ts:427-431 | on success the confirmation toast is shown and the modal closes on a reset form |
| PropertyViewPage.PropertyViewPage.ContactFailed | src/app/features/property-view/property-view.page.ts:432-435 | a failure whose body is null throws a TypeError before any toast; otherwise one toast is shown: the body's error text if non-empty, else the default apology |
| PropertyViewPage.ContactErrorText | src/app/features/property-view/property-view.page.ts:432-435 | `error.error.error || default` throws iff the body is null, and otherwise is the body's non-empty error text or the default apology |
| PropertyViewPage.PropertyViewPage.GetErrorMessage | src/app/features/property-view/property-view.page.ts:381-399 | a message is shown only for a field that `isFieldInvalid` flags, and only for 'phoneNumber' and 'message' |
| PropertyViewPage.PropertyViewPage.IsFieldInvalid | src/app/features/property-view/property-view.page.ts:410-413 | a field is flagged iff it is the phone or the message control, its text fails a validator, and it is dirty, touched or the form was submitted |
| PropertyService.AppendParam | src/app/shared/services/property.ts:39 | `append` adds one value under the key after its earlier ones, a new key going last, and leaves every other key |
| PropertyService.SetParam | src/app/shared/services/property.ts:41 | `set` makes the key's values exactly the one value and leaves every other key |
| PropertyService.Contributed | src/app/shared/services/property.ts:36-43 | undefined and null contribute nothing, an array each of its items in order, anything else exactly its own text |
| PropertyService.ScalarText | src/app/shared/services/property.ts:36-43 | a string is itself, a boolean is 'true' or 'false', and a number prints with a leading '-' iff negative; `parseInt` reads a non-negative one back |
| PropertyService.GetAllConcat | src/app/shared/services/property.ts:39-41 | a key's values in a concatenation come from the first part that has the key |
| PropertyService.ParamsOfValues | src/app/shared/services/property.ts:34-45 | with distinct keys, each key's parameters are exactly what its value contributes, and a key not given has none |
| PropertyService.FalsyValuesKept | src/app/shared/services/property.ts:37-41 | zero, false and '' are sent, and an empty array sends nothing |
| PropertyService.BuildParams | src/app/shared/services/property.ts:32-45 | the loop over the keys builds exactly the parameters the values contribute, in key order; no search parameters give none |
| PropertyService.AddEntry | src/app/shared/services/property.ts:36-43 | one key adds nothing for undefined or null, one `append` per array item, or one `set` |
| PropertyService.AppendAfterLast | src/app/shared/services/property.ts:39 | appending under the last key extends that key's values |
| PropertyService.PropertiesFrom | src/app/shared/services/property.ts:47-52 | the answer is `response.properties`, [] when missing, and a failure is rethrown unchanged |
| PropertyService.FavoritesFrom | src/app/shared/services/property.ts:108-113 | the answer is the favourites list, or [] when it is missing or the request failed |
| PropertyService.FavoriteToggled | src/app/shared/services/property.ts:80-89 | a toggle removes the id's first occurrence, or appends it at the end when absent; the rest keep their order |
| PropertyService.ToggleFlipsMembership | src/app/shared/services/property.ts:80-89 | on a list without duplicates a toggle flips the id's membership, touches no other id, and keeps the list without duplicates |
| PropertyService.ToggleTwiceFromAbsent | src/app/shared/services/property.ts:80-89 | adding an absent id and toggling again restores the list exactly |
| PropertyService.ToggleTwiceFromPresent | src/app/shared/services/property.ts:80-89 | removing a present id and toggling again keeps the same ids but moves that id to the end |
| PropertyService.ContactBodyFor | src/app/shared/services/property.ts:98 | the body carries the property id and the message, or 'I am interested in this property.' when it is missing or empty |
| PropertyService.PropertyService.constructor | src/app/shared/services/property.ts:25 | the favourites start empty |
| PropertyService.PropertyService.GetProperties | src/app/shared/services/property.ts:30-53 | one GET of '/properties' with the built parameters, answered from the response; the favourites are unchanged |
| PropertyService.PropertyService.ToggleFavorite | src/app/shared/services/property.ts:75-94 | the POST goes first; on success the favourites are toggled, on failure they are untouched and the error is rethrown |
| PropertyService.PropertyService.SendContactRequest | src/app/shared/services/property.ts:96-104 | one POST of the contact body to '/requests'; a failure is rethrown |
| PropertyService.PropertyService.GetFavorites | src/app/shared/services/property.ts:106-114 | one GET of '/properties/favorites'; the answer is the list, or [] on a missing list or an error |
| AddPropertyPage.InitialValues | src/app/features/add-property/add-property.page.ts:83-104 | the form starts with no amenities, an empty rent, deposit 0, '1RK', 'Unfurnished', 'Both' and available |
| AddPropertyPage.ErrorsAt | src/app/features/add-property/add-property.page.ts:84-104 | title is required with minlength 3, rent required with min 1, and the pincode pattern applies only to a non-empty value; other controls carry their own rules or none |
| AddPropertyPage.FormValidMeaning | src/app/features/add-property/add-property.page.ts:84-104 | the form is valid iff title has at least 3 characters, a type is chosen, rent >= 1, deposit is empty or >= 0, city and state are given, and the pincode is empty or 6 digits (see also line 207) |
| AddPropertyPage.InitialFormInvalid | src/app/features/add-property/add-property.page.ts:83-104 | a freshly built form is not valid |
| AddPropertyPage.FieldError | src/app/features/add-property/add-property.page.ts:264-273 | undefined unless the control has errors and is touched; then required > minlength > min > pattern, each message naming the path |
| AddPropertyPage.AddressFieldError | src/app/features/add-property/add-property.page.ts:275-282 | '' unless the address control has errors and is touched; then required > pattern |
| AddPropertyPage.TitleMessages | src/app/features/add-property/add-property.page.ts:264-273 | a touched title shows 'title is required' when empty, 'title is too short' below 3 characters, and nothing otherwise (the validators are at line 85) |
| AddPropertyPage.RentMessages | src/app/features/add-property/add-property.page.ts:264-273 | a touched rent shows 'rent is required' when empty, 'rent must be greater than 0' below 1, and nothing otherwise (the validators are at line 89) |
| AddPropertyPage.PincodeMessages | src/app/features/add-property/add-property.page.ts:275-282 | a touched pincode shows 'Invalid pincode format' exactly when it is non-empty and not 6 digits (the validators are at line 98) |
| AddPropertyPage.FindAmenity | src/app/features/add-property/add-property.page.ts:117 | `findIndex` gives the first equal amenity's index, or -1 iff it is absent |
| AddPropertyPage.AmenityChanged | src/app/features/add-property/add-property.page.ts:111-120 | a check appends the amenity at the end; an uncheck removes its first occurrence, and when absent `removeAt(-1)` drops the last one |
| AddPropertyPage.AmenityCheckSelects | src/app/features/add-property/add-property.page.ts:114-124 | after a check the amenity is selected |
| AddPropertyPage.AmenityUncheckDeselects | src/app/features/add-property/add-property.page.ts:116-124 | unchecking an amenity held once deselects it, removes exactly one entry and keeps the rest in order |
| AddPropertyPage.UncheckAbsentDropsLast | src/app/features/add-property/add-property.page.ts:117-118 | unchecking an amenity that is not selected drops the last selected one |
| AddPropertyPage.ImageUrls | src/app/features/add-property/add-property.page.ts:212 | the submitted `images` are the selected images' urls, in order |
| AddPropertyPage.AddPropertyPage.constructor | src/app/features/add-property/add-property.page.ts:68-79 | the page starts on the initial form, nothing touched, no image, flag down |
| AddPropertyPage.AddPropertyPage.OnFormInput | src/app/features/add-property/add-property.page.ts:84-104 | editing changes the values only |
| AddPropertyPage.AddPropertyPage.OnBlur | src/app/features/add-property/add-property.page.ts:84-104 | leaving a control marks its path touched only |
| AddPropertyPage.AddPropertyPage.OnAmenityChange | src/app/features/add-property/add-property.page.ts:111-120 | only the amenities value changes, as a check or an uncheck |
| AddPropertyPage.AddPropertyPage.UploadImageData | src/app/features/add-property/add-property.page.ts:170-181 | the flag goes up; empty data only shows the warning (the flag stays up); otherwise one POST to '/upload-image' |
| AddPropertyPage.AddPropertyPage.UploadSucceeded | src/app/features/add-property/add-property.page.ts:181-185 | a truthy response appends one image whose url and preview are both `imageUrls[0]` and lowers the flag; a response without `imageUrls` throws before any change |
| AddPropertyPage.AddPropertyPage.UploadFailed | src/app/features/add-property/add-property.page.ts:186-190 | on error the failure toast is shown and the flag drops |
| AddPropertyPage.AddPropertyPage.RemoveImage | src/app/features/add-property/add-property.page.ts:202-204 | `splice(index, 1)` removes exactly element index and keeps the rest in order |
| AddPropertyPage.AddPropertyPage.OnSubmit | src/app/features/add-property/add-property.page.ts:206-239 | a valid form is POSTed to '/property' with the image urls, then the first url is toasted (with no image that read throws and the error toast is shown); an invalid form shows the warning and touches every control |
| AddPropertyPage.AddPropertyPage.PropertyPosted | src/app/features/add-property/add-property.page.ts:215-219 | on POST success the success toast is shown and the app navigates to ['/home'] |
| AddPropertyPage.AddPropertyPage.AmenitySelected | src/app/features/add-property/add-property.page.ts:122-124 | an amenity is selected iff some entry of the amenities array equals it |
| AddPropertyPage.AddPropertyPage.GetFieldError | src/app/features/add-property/add-property.page.ts:264-273 | a message is given iff the control is touched and has an error |
| AddPropertyPage.AddPropertyPage.GetAddressFieldError | src/app/features/add-property/add-property.page.ts:275-282 | a message is given only for a touched address control that has an error |
| AddPropertyPage.InvalidSubmitShowsErrors | src/app/features/add-property/add-property.page.ts:236-273 | after an invalid submit every validated control that has an error shows a message |
| SignupPage.SampleEmail | src/app/features/signup/signup.page.ts:68 | 'a@b.co' passes the email rule |
| SignupPage.SampleNonEmails | src/app/features/signup/signup.page.ts:68 | 'a@', 'a.@b' and 'ab' fail the email rule |
| SignupPage.IsEmail | src/app/features/signup/signup.page.ts:68 | an address passes the email rule iff it has at most 254 characters and splits at its first '@', within the first 65 characters, into a dot-atom local part and a host name |
| SignupPage.FormValidMeaning | src/app/features/signup/signup.page.ts:66-71 | the form is valid iff the name has 2+ characters, the email is valid, the password has 8+ characters and a role is chosen (see also line 117) |
| SignupPage.FieldDisplayName | src/app/features/signup/signup.page.ts:98-106 | the four field names have display names; any other name is shown as itself |
| SignupPage.ErrorMessage | src/app/features/signup/signup.page.ts:78-96 | '' unless the control exists, has errors and is touched; then required > email > minlength > passwordMismatch, each with its message |
| SignupPage.NoMismatchMessage | src/app/features/signup/signup.page.ts:66-93 | no control has a mismatch rule, so 'Passwords do not match' is never shown |
| SignupPage.PasswordMessages | src/app/features/signup/signup.page.ts:69-96 | a touched password shows 'Password is required' when empty and nothing at 8+ characters |
| SignupPage.PasswordTooShort | src/app/features/signup/signup.page.ts:69-89 | a touched, too short password shows 'Password must be at least 8 characters' |
| SignupPage.MinLengthMessage | src/app/features/signup/signup.page.ts:87-89 | the minlength message contains the display name and the required length |
| SignupPage.NameMessages | src/app/features/signup/signup.page.ts:67-96 | a touched name shows 'Name is required' when empty and nothing at 2+ characters |
| SignupPage.NameTooShort | src/app/features/signup/signup.page.ts:67-89 | a touched one-character name shows 'Name must be at least 2 characters' |
| SignupPage.EmailMessages | src/app/features/signup/signup.page.ts:68-96 | a touched email shows 'Email is required' when empty, the email message when malformed, and nothing when valid |
| SignupPage.SignupPage.constructor | src/app/features/signup/signup.page.ts:47-71 | the page starts with four untouched empty controls and every flag false |
| SignupPage.SignupPage.TogglePasswordVisibility | src/app/features/signup/signup.page.ts:74-76 | `showPassword` flips and nothing else changes |
| SignupPage.SignupPage.OnInput | src/app/features/signup/signup.page.ts:66-71 | typing sets the control's value and marks it dirty; the others are unchanged |
| SignupPage.SignupPage.OnBlur | src/app/features/signup/signup.page.ts:66-71 | leaving a control marks it touched; the others are unchanged |
| SignupPage.SignupPage.OnSubmit | src/app/features/signup/signup.page.ts:113-139 | `isLoading` and `isSubmitted` always become true, but one POST to '/signup' is issued only for a valid form, so an invalid submit leaves `isLoading` true |
| SignupPage.SignupPage.SignupSucceeded | src/app/features/signup/signup.page.ts:128-132 | on success `isLoading` returns to false and the app navigates to ['/login'] |
| SignupPage.SignupPage.SignupFailed | src/app/features/signup/signup.page.ts:133-136 | on error `isLoading` returns to false and nothing else changes |
| SignupPage.SignupPage.GoToSignin | src/app/features/signup/signup.page.ts:156-158 | navigates to ['/login'] |
| SignupPage.SignupPage.GetErrorMessage | src/app/features/signup/signup.page.ts:78-96 | a message is shown only for a field that `isFieldInvalid` flags, and it is never 'Passwords do not match' |
| SignupPage.SignupPage.IsFieldInvalid | src/app/features/signup/signup.page.ts:108-111 | only the four form controls can be flagged, and each is flagged iff its text fails a validator and it is dirty, touched or the form was submitted |
| UserService.UserFrom | src/app/core/services/user/user.ts:16-19 | `getUser` gives null when nothing (or '') is stored under 'user', the parsed user when the stored text parses, and the parse error when it does not |
| UserService.OwnerFrom | src/app/core/services/user/user.ts:21-24 | `isOwner` gives the user iff its role is 'owner', and null otherwise, including when there is no user |
| UserService.StoredUserReadBack | src/app/core/services/user/user.ts:9-19 | `getUser` after `setUser(u)` returns u, whatever was stored before |
| UserService.OwnerAfterStore | src/app/core/services/user/user.ts:9-24 | after `setUser(u)`, `isOwner` returns u exactly when its role is 'owner' |
| UserService.User.constructor | src/app/core/services/user/user.ts:7 | the service reads and writes the given store |
| UserService.User.SetUser | src/app/core/services/user/user.ts:9-14 | the serialised user is written under 'user', no other key changes, and `getUser` then returns the user |
| UserService.User.GetUser | src/app/core/services/user/user.ts:16-19 | null when nothing (or '') is stored under 'user', the parsed stored user, or the parse error exactly when the stored text is unparsable |
| UserService.User.IsOwner | src/app/core/services/user/user.ts:21-24 | the user `getUser` gives when its role is 'owner', null for any other user, and `getUser`'s error when it throws |
| Json.ParseEncodeUser | src/app/core/services/user/user.ts:12-18 | parsing the text a user was serialised to gives the same user back |
| Storage.Store.Set | src/app/core/services/user/user.ts:10-13 | a write sets exactly one key |
| Storage.Store.Remove | src/app/core/services/auth/auth.ts:52-53 | a removal deletes exactly one key |
| AuthService.StoredSession | src/app/core/services/auth/auth.ts:61-68 | with a truthy token and truthy user text the parsed user is published, and unparsable text throws (and nothing else does); otherwise null |
| AuthService.StoredSessionFound | src/app/core/services/auth/auth.ts:61-68 | a stored token and serialised user are picked up as that user |
| AuthService.ForgotPasswordError | src/app/core/services/auth/auth.ts:46-48 | the rethrown error is the server's message, or 'Failed to send reset email' when it is missing or empty |
| AuthService.AuthService.constructor | src/app/core/services/auth/auth.ts:25-68 | construction runs the stored-session check: the stored user is published when there is one, nothing otherwise, and a parse failure is the thrown error |
| AuthService.AuthService.Login | src/app/core/services/auth/auth.ts:33-35 | one POST of the login data to '/login'; nothing else changes |
| AuthService.AuthService.GoogleLogin | src/app/core/services/auth/auth.ts:37-39 | Google login always fails with 'Google login not implemented yet' |
| AuthService.AuthService.Logout | src/app/core/services/auth/auth.ts:51-59 | exactly 'authToken' and 'currentUser' are removed, other keys are untouched, null is published, and `isAuthenticated` is then false |
| AuthService.AuthService.ForgotPassword | src/app/core/services/auth/auth.ts:41-49 | one POST to '/auth/forgot-password' with the email; a failure is rethrown with the mapped message |
| AuthService.AuthService.IsAuthenticated | src/app/core/services/auth/auth.ts:57-59 | holds iff 'authToken' is stored and not empty |
| AuthGuard.AuthGuardFor | src/app/core/guards/auth/auth-guard.ts:7-11 | the guard allows iff the stored 'authToken' is truthy, and otherwise navigates to ['/auth'] |
| AuthGuard.EmptyTokenDenied | src/app/core/guards/auth/auth-guard.ts:8 | an empty token is refused like a missing one |
| AuthGuard.AuthGuard | src/app/core/guards/auth/auth-guard.ts:5-12 | the guard reads only 'authToken', writes nothing, and decides as above |
| LoginGuard.LoginGuardFor | src/app/core/guards/login-guard.ts:7-11 | the guard allows iff the stored 'authToken' is falsy, and otherwise navigates to ['/'] |
| LoginGuard.ExactlyOneGuardAllows | src/app/core/guards/login-guard.ts:8-11 | for every stored token, exactly one of the login guard and the auth guard allows |
| LoginGuard.LoginGuard | src/app/core/guards/login-guard.ts:5-12 | the guard reads only 'authToken', writes nothing, and decides as above |
| AuthInterceptor.Forwarded | src/app/core/auth.interceptor.ts:12-19 | with a truthy token the forwarded request carries Authorization equal to the raw token and is otherwise the same; with none it is the original request |
| AuthInterceptor.ForwardedIdempotent | src/app/core/auth.interceptor.ts:13-19 | intercepting twice with the same token forwards the same request as once |
| AuthInterceptor.Handler.Handle | src/app/core/auth.interceptor.ts:21 | the next handler receives one more request |
| AuthInterceptor.Intercept | src/app/core/auth.interceptor.ts:6-24 | exactly one request, the forwarded one, is passed to `next` |
| JsString.Trim | src/app/features/inbox/inbox.page.ts:270 | `trim()` is the slice of the text between leading and trailing whitespace, has no whitespace at either end, and is empty iff the text is all whitespace |
| JsString.TrimIdempotent | src/app/shared/services/property-filter/property-filter.ts:336-337 | trimming twice is trimming once |
| JsString.ToLower | src/app/features/inbox/inbox.page.ts:265 | `toLowerCase()` keeps the length and lowers each letter |
| JsString.NatToString | src/app/shared/services/property-filter/property-filter.ts:431 | a number prints as a non-empty run of decimal digits without a leading zero |
| JsString.ParseIntOfNatToString | src/app/shared/services/property-filter/property-filter.ts:288 | `parseInt` reads back a printed number (see also line 431) |
| JsString.ParseIntOfNatToStringThen | src/app/shared/services/property-filter/property-filter.ts:288 | `parseInt` reads back a printed number followed by any text that does not start with a digit or an x |

## Left out

- Text lengths count Unicode code points, where JavaScript's `.length` counts UTF-16 code units. Text with characters outside the Basic Multilingual Plane is therefore measured differently. This affects the minlength and maxlength rules (title 3, name 2, password 8, message 10 to 500), the 10-digit phone pattern and the 6-digit pincode pattern.
- `PropertyFilter.PriceRangeBadgeReadsBack`: the read-back through `parseInt` is proved for non-negative bounds only. The badge text itself is stated for every bound.
- `PropertyService.ScalarText`: `parseInt` reading back a printed number is proved for non-negative numbers only. Negative numbers are stated to print with a leading '-'.
- `JsString.ParseIntOfNatToStringThen`: `parseInt` reading back printed text is proved for natural numbers only.
- `PropertyViewPage.ErrorBody`: the `error` property of a failure body is a string or missing. A truthy non-string value, which would be shown as is, is not modelled.
- `AddPropertyPage.AddPropertyPage.GetAddressFieldError`: the contract states only that a message implies a touched control with an error. The converse holds for the required and pattern errors only, and `AddPropertyPage.AddressFieldError` states those cases.
- Transport: the HTTP client, the ionic-cache `loadFromDelayedObservable` TTL caching and the socket.io transport are left out. Responses are parameters, and requests and emits are logs.
- `PropertyFilter.PropertyFilterService.ApplyFilters`: with a sort field, only the permutation is stated, not the order. The comparator never returns 0 and compares loosely typed values, so the order is engine-defined.
- Floating-point price handling in the filter sheet (`parsePriceString`, `validatePriceRange`, `formatPriceForDisplay`) and the `toLocaleString` price formatting are left out.
- Gestures, animations, `scrollToBottom`, timers, and the simulated replies and refreshes (`setTimeout`, `doRefresh`, `loadMore`) are left out.
- `receiveMessage` in the chat page builds a message and discards it, so it changes no state and has no member.
- Locale date and time text is left out. `InboxPage.TimeAgoOf` and `ChatPage.FormatTime` return a `LocaleDate`/`LocaleTime` case instead of the text.
- `JsString.ToLower` lowers ASCII letters only. Full Unicode case mapping is not modelled.
- SignupPage.FieldDisplayName, PropertyViewPage.FieldDisplayName: the lookup `displayNames[fieldName] || fieldName` is on a plain object literal, so a name that is an inherited member of every object ('constructor', 'toString', 'valueOf', '__proto__' and the like) yields that member, not the name. The model shows every name outside the table as itself. The pages reach the lookup only from `getErrorMessage`, after `form.get(fieldName)` found a control, so only control names get there.
- Numbers are integers. Fractional rents, prices and indices are not modelled. The model's integers are exact and unbounded, while the app's are IEEE doubles: `String(n)` prints exponent form from 1e21 on and integers above 2^53 are rounded. So the printing and read-back facts (PropertyFilter.PriceRangeBadgeReadsBack, PropertyService.ScalarText, JsString.NatToString, JsString.ParseIntOfNatToString, JsString.ParseIntOfNatToStringThen, PropertyFilter.IntOr, HomePage.PropertiesUrl) hold in the app only for magnitudes below 1e21, and exactly only below 2^53.
- `base64ToBlob`, the camera (`takePicture`, `presentImageActionSheet`), push notifications, the status bar and the file system are native plugins or browser APIs, and are left out. `UploadImageData` takes the base64 text, and only its emptiness matters.
- `Json` serialises only the stored user record (id, name, email, role). Its other keys and general JSON are left out.
- `AddPropertyPage.AddPropertyPage.OnSubmit` treats the form's value as the typed field values. The `availableFrom` date is an ISO text supplied by the caller.
- `markFormGroupTouched` is modelled as adding every control path to a set of touched paths.
- Reset form controls hold '' where Angular's `reset()` stores null. Every validator here treats both as empty.
- HTTP header names are compared exactly. Angular's case-insensitive header lookup is not modelled.
- `HttpParams` is modelled as an ordered list of keys with their values. Re-setting an existing key cannot happen in `getProperties`, because it sets each key once.
- `getPropertyById`, `getStats` and the mock-data helpers of the property service are not part of this model. Neither are the share sheet and directions of the property page, or the social-login and forgot-password stubs of the signup page, which only log.
- The app bootstrap, routes, the tab and profile pages, the login pages, `images.ts`, `fcm.ts`, `storage.ts` and `property-view.ts` are glue with no statable logic, and are not part of this model.
- Concurrency and interleaving of socket events with HTTP callbacks are not modelled. Each callback is one atomic step.
- `HomePage.HomePage.constructor`: the load the constructor starts is modelled as a following call to `LoadProperties`, because the stored user is only known after an await.
