# Testing-site finder: the site-lookup pipeline

A Dafny model of the data pipeline of the WWDC 2020 "Covid-19 Testing Site
Finder" playground. The `MainViewController` there maps a chosen US state to
a feed slug and requests that state's JSON feed of testing sites. It turns
each decoded site object into a `TestingSite` record and builds a geocoding
query for every record. Each geocode completion that carries a coordinate
adds one map pin.

Modules:

- `Regions` (regions.dfy): the five supported states, the if-chain that maps a
  display name to a slug with `"california"` as the default, and the feed URL.
- `SiteRecords` (site_records.dfy): decoded JSON values, the `TestingSite`
  record and the loop body of the data task's completion. The loop body is
  `ExtractSite`, written guard by guard. `RunLoop` is the whole loop as a
  value. The loop appends records in order. The first entry that fails a
  `guard` ends the closure (`Returned(k)`). A failed forced cast or `[0]` on
  an empty array is a trap (`Trapped(k)`). `WellFormed` and `Traps` classify
  an entry independently of that code, and the lemmas relate the two.
- `Geocoding` (geocoding.dfy): the query string `street, city, CA zip`, and
  `SplitAddress`, which inverts it when the street and the city hold no
  comma; and the pins that a series of geocode completions appends.
- `MainView` (main_view.dfy): the class `MainViewController`, with fields
  `testingSites`, `testingPins` and `selectedState`. Its methods are the
  handlers that update those fields:
  - `UpdateMap`;
  - `OnSitesFetched`, the data task's completion closure;
  - `LoadSitesOnMap`;
  - `OnGeocoded`, the geocoder's completion closure.

  Asynchrony is left to the caller, who invokes each closure method whenever
  that completion arrives. A geocode completion from a previously selected
  state can therefore land after `UpdateMap` has reset the arrays, as it can
  in the app. `StalePinThenEmptyFeed` shows what follows. `loadSitesOnMap`
  logs `testingSites[0].name` whenever there are pins, so when the stale pin
  is followed by an empty feed, that log statement traps. The model reports
  this as `LoadTrapped`.

Behaviour of the code that the model keeps as it is:

- A malformed record is not skipped: the closure returns, later entries are
  not processed and `loadSitesOnMap` is not called.
- Empty strings are accepted in every field of a record.
- The geocoding query always says `CA`, whatever state was selected.
- Late geocode results from a previously selected state are not dropped.

## Model

| member | source | states |
|---|---|---|
| Regions.SlugFor | WWDC2020.playground/Contents.swift:103-115 | each of the five listed display names selects its own slug, position by position; any other name, including the initial lowercase "california", gives "california"; the slug is always one of the five |
| Regions.SlugsDistinct | WWDC2020.playground/Contents.swift:103-115 | two different listed states are never mapped to the same feed slug |
| Regions.InitialStateIsDefault | WWDC2020.playground/Contents.swift:31 | the initial selected state is not one of the display names, so it reaches the slug "california" through the default branch |
| Regions.FeedUrl | WWDC2020.playground/Contents.swift:122 | the request URL is the feed prefix, then the slug, then "/complete.json" |
| Regions.SlugOfUrl | WWDC2020.playground/Contents.swift:122 | any slug read back from a URL rebuilds that exact URL |
| Regions.FeedUrlRoundTrip | WWDC2020.playground/Contents.swift:122 | the slug can be recovered from the request URL, so distinct slugs give distinct requests |
| SiteRecords.AsStringDict | WWDC2020.playground/Contents.swift:146 | `as? [String: String]` succeeds exactly on objects whose values are all strings, and yields the same keys with those strings |
| SiteRecords.ExtractSite | WWDC2020.playground/Contents.swift:142-156 | one loop pass builds a record exactly when the entry is well-formed, and that record is made of the entry's name, phones[0].number, address_1, city, postal_code and description; it traps exactly when a name/description cast fails, phones is empty, or the phone guards pass and physical_address is empty; otherwise a guard fails |
| SiteRecords.RunLoop | WWDC2020.playground/Contents.swift:141-157 | the loop appends at most one record per entry; it completes only after one record per entry; if it stops, the stopping index equals the number of records appended and is a real entry |
| SiteRecords.RunLoopCharacterized | WWDC2020.playground/Contents.swift:141-157 | the loop appends exactly the records of the entries before the first bad one, in input order, and ends Completed, Trapped at that entry or Returned at it |
| SiteRecords.AllWellFormed | WWDC2020.playground/Contents.swift:141-156 | with every entry well-formed, the loop completes with one record per entry, the i-th record taken from the i-th entry |
| SiteRecords.CompletedOnlyIfAllWellFormed | WWDC2020.playground/Contents.swift:141-159 | the loop reaches loadSitesOnMap only if every entry is well-formed |
| SiteRecords.FirstBadEntryStops | WWDC2020.playground/Contents.swift:145-153 | at the first entry that is not well-formed, only the records before it have been appended, and the outcome names that entry and says whether it trapped or returned |
| SiteRecords.LaterEntriesIgnored | WWDC2020.playground/Contents.swift:145-153 | after the loop has stopped, entries that follow do not change its records or outcome |
| Geocoding.GeocodeAddress | WWDC2020.playground/Contents.swift:174 | the query starts with the street and ends with the postal code, and between city and postal code it holds ", CA ", whatever state was selected |
| Geocoding.AddressRoundTrip | WWDC2020.playground/Contents.swift:174 | when street and city contain no comma, splitting the query at its first two commas gives back street, city and postal code |
| Geocoding.AddressInjective | WWDC2020.playground/Contents.swift:174 | two sites with comma-free street and city share a query only if they share street, city and postal code |
| Geocoding.NewPins | WWDC2020.playground/Contents.swift:192-200 | a completion adds at most one pin, and adds one exactly when the first placemark has a coordinate; the pin's coordinate is that coordinate, its title is the site's name and its subtitle is the site's phone |
| Geocoding.PinsFrom | WWDC2020.playground/Contents.swift:192-203 | a series of completions adds at most one pin per completion |
| Geocoding.PinsFromAppend | WWDC2020.playground/Contents.swift:200 | appending is cumulative: the pins of two batches of completions are the first batch's pins followed by the second's |
| Geocoding.ArrivalOrderIrrelevant | WWDC2020.playground/Contents.swift:190-203 | the multiset of pins does not depend on which of two batches of completions arrives first |
| Geocoding.ResolvedCompletionPinned | WWDC2020.playground/Contents.swift:192-200 | no completion whose first placemark has a coordinate is lost: its pin is among the pins |
| Geocoding.PinHasCompletion | WWDC2020.playground/Contents.swift:192-200 | every pin is the one pin of some completion whose first placemark had a coordinate |
| MainView.GeocodeRequests | WWDC2020.playground/Contents.swift:173-176 | one geocoding query per site |
| MainView.PlanLoad | WWDC2020.playground/Contents.swift:170-183 | loadSitesOnMap issues the sites' queries in order; it centres on the first pin's coordinate exactly when a pin exists; it traps exactly when there are pins and no sites |
| MainView.MainViewController.constructor | WWDC2020.playground/Contents.swift:27-31 | both arrays start empty and the selected state starts as "california" |
| MainView.MainViewController.UpdateMap | WWDC2020.playground/Contents.swift:92-118 | testingSites and testingPins are emptied, the selected state is untouched, and the request goes to the feed URL of the state's slug |
| MainView.MainViewController.ViewDidLoad | WWDC2020.playground/Contents.swift:88 | the first load requests the feed of the initial state's slug with both arrays empty |
| MainView.MainViewController.OnSitesFetched | WWDC2020.playground/Contents.swift:139-159 | testingSites grows by exactly the loop's records; pins are unchanged; loadSitesOnMap runs (and its result is returned) exactly when the loop completed |
| MainView.MainViewController.LoadSitesOnMap | WWDC2020.playground/Contents.swift:170-183 | the result is the one PlanLoad describes for the current arrays |
| MainView.MainViewController.OnGeocoded | WWDC2020.playground/Contents.swift:190-205 | a first placemark with a coordinate appends exactly one pin (coordinate, site name, site phone) at the end of testingPins; otherwise testingPins is unchanged; testingSites is never touched |
| MainView.ExampleSiteParses | WWDC2020.playground/Contents.swift:141-176 | a feed with one complete entry yields the one matching record, the loop completes, and the query "1 Main St, LA, CA 90001" is built for it |
| MainView.CaliforniaFeedUrl | WWDC2020.playground/Contents.swift:105-122 | selecting "California" requests "https://covid-19-testing.github.io/locations/california/complete.json" |
| MainView.CaliforniaScenario | WWDC2020.playground/Contents.swift:92-203 | selecting California, receiving that feed and one resolved geocode gives the California URL, one query and exactly one pin with the site's name and phone |
| MainView.StalePinThenEmptyFeed | WWDC2020.playground/Contents.swift:179-181 | a stale pin followed by an empty feed makes loadSitesOnMap trap in its log line |

## Left out

- UI: labels, the search button, the picker and its delegate and data source, the toolbar, fonts, view layout, colours and playground setup. None of this holds pipeline logic. The picker writes a display name into `selectedState` before it calls `updateMap`; that step is not modelled.
- Networking: the `URLSession` data task, its 10-second timeout and its `error != nil` branch. `UpdateMap` returns the URL it would request, and `OnSitesFetched` is invoked with the decoded feed.
- JSON decoding: `JSONSerialization` and the top-level `as! [[String: Any]]` cast, which would trap on a feed that is not an array of objects. The model takes the decoded array of site objects as its input.
- Geocoding and map rendering: `CLGeocoder` itself and the `MKMapView` calls that add, remove and centre annotations. The geocoder's answer is the `placemarks` parameter of `OnGeocoded`. The centring is the `center` of the `LoadResult`.
- `SplitAddress`: it gives back street, city and postal code only when the street and the city hold no comma; an address such as "1 Main St, Suite 2" does not split into its parts.
- Coordinates: a pair of reals that is only copied, never computed with. Floating point is not modelled.
- Logging: the `print` statements are not modelled. The one exception is the trap of `testingSites[0]` at line 180.
- Concurrency: the data task's closure and the geocode callbacks run on different queues, so they may overlap. The model runs each closure as one atomic method call. The caller chooses the order of the calls.
