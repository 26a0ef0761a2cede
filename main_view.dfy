/**
  The state MainViewController keeps for the pipeline (its two arrays and
  the selected state) and the handlers that update it: updateMap, the
  completion closure of getTestingSites' data task, loadSitesOnMap and the
  completion closure of makeAnnotation's geocode request.

  Asynchrony is modelled by the caller: each closure is a method the
  caller invokes when that completion arrives, in any order it likes.
 */
module MainView {
  import opened Wrappers
  import opened Regions
  import opened SiteRecords
  import opened Geocoding

  /**
    What loadSitesOnMap does: the geocoding queries it issues, in site order,
    and the coordinate it centres the map on, if any. It traps in the log
    line that reads `testingSites[0]` when there are pins but no sites.
   */
  datatype LoadResult = Loaded(requests: seq<string>, center: Option<Coord>) | LoadTrapped

  /** The geocoding queries for a list of sites, one per site, in order. */
  function GeocodeRequests(sites: seq<TestingSite>): (requests: seq<string>)
    ensures |requests| == |sites|
  {
    seq(|sites|, i requires 0 <= i < |sites| => GeocodeAddress(sites[i]))
  }

  /** loadSitesOnMap's effect, as a value of the arrays it reads. */
  function PlanLoad(sites: seq<TestingSite>, pins: seq<Pin>): (r: LoadResult)
    ensures r.LoadTrapped? <==> |pins| > 0 && sites == []
    ensures r.Loaded? ==> r.requests == GeocodeRequests(sites)
    ensures r.Loaded? ==> (r.center.Some? <==> |pins| > 0)
    ensures r.Loaded? && r.center.Some? ==> r.center.value == pins[0].coordinate
  {
    if |pins| > 0 && sites == [] then LoadTrapped
    else Loaded(GeocodeRequests(sites), if |pins| > 0 then Some(pins[0].coordinate) else None)
  }

  class MainViewController {
    /** The records parsed from the current feed, in feed order. */
    var testingSites: seq<TestingSite>
    /** The pins added by geocode completions, in arrival order. */
    var testingPins: seq<Pin>
    /** The state last chosen; the picker writes display names, the initial value is a slug. */
    var selectedState: string

    constructor ()
      ensures testingSites == [] && testingPins == []
      ensures selectedState == InitialState
    {
      testingSites := [];
      testingPins := [];
      selectedState := InitialState;
    }

    /**
      Starts over for a new state: both arrays are emptied and the feed
      request is made for the state's slug (the request is the result).
     */
    method UpdateMap(currentState: string) returns (url: string)
      modifies this
      ensures testingSites == [] && testingPins == []
      ensures selectedState == old(selectedState)
      ensures url == FeedUrl(SlugFor(currentState))
    {
      testingSites := [];
      testingPins := [];
      var stateString := SlugFor(currentState);
      url := FeedUrl(stateString);
    }

    /** The pipeline step of viewDidLoad: the map is loaded for the initial state. */
    method ViewDidLoad() returns (url: string)
      modifies this
      ensures testingSites == [] && testingPins == []
      ensures selectedState == old(selectedState)
      ensures url == FeedUrl(SlugFor(old(selectedState)))
    {
      url := UpdateMap(selectedState);
    }

    /**
      The data task's completion on a decoded feed: append one record per
      entry until an entry fails a guard (the closure returns) or traps;
      only when every entry was appended is loadSitesOnMap run.
     */
    method OnSitesFetched(sitesJSON: seq<SiteObject>) returns (outcome: Outcome, load: Option<LoadResult>)
      modifies this
      ensures testingSites == old(testingSites) + RunLoop(sitesJSON).records
      ensures outcome == RunLoop(sitesJSON).outcome
      ensures testingPins == old(testingPins) && selectedState == old(selectedState)
      ensures load.Some? <==> outcome == Completed
      ensures load.Some? ==> load.value == PlanLoad(testingSites, testingPins)
    {
      var i := 0;
      while i < |sitesJSON|
        invariant 0 <= i <= |sitesJSON|
        invariant forall j :: 0 <= j < i ==> WellFormed(sitesJSON[j])
        invariant testingSites == old(testingSites) + Records(sitesJSON[..i])
        invariant testingPins == old(testingPins) && selectedState == old(selectedState)
      {
        var extraction := ExtractSite(sitesJSON[i]);
        match extraction
        case Trap =>
          FirstBadEntryStops(sitesJSON, i);
          return Trapped(i), None;
        case GuardFailed =>
          FirstBadEntryStops(sitesJSON, i);
          return Returned(i), None;
        case Parsed(site) =>
          assert Records(sitesJSON[..i + 1]) == Records(sitesJSON[..i]) + [site];
          testingSites := testingSites + [site];
          i := i + 1;
      }
      assert sitesJSON[..i] == sitesJSON;
      AllWellFormed(sitesJSON);
      assert RunLoop(sitesJSON).records == Records(sitesJSON);
      outcome := Completed;
      var loaded := LoadSitesOnMap();
      load := Some(loaded);
    }

    /**
      Issues one geocoding query per site, in site order, then centres on
      the first pin when there is one.
     */
    method LoadSitesOnMap() returns (r: LoadResult)
      ensures r == PlanLoad(testingSites, testingPins)
    {
      var requests: seq<string> := [];
      for i := 0 to |testingSites|
        invariant requests == GeocodeRequests(testingSites[..i])
      {
        assert testingSites[..i + 1] == testingSites[..i] + [testingSites[i]];
        requests := requests + [GeocodeAddress(testingSites[i])];
      }
      assert testingSites[..|testingSites|] == testingSites;
      if |testingPins| > 0 {
        if |testingSites| == 0 {
          return LoadTrapped;
        }
        r := Loaded(requests, Some(testingPins[0].coordinate));
      } else {
        r := Loaded(requests, None);
      }
    }

    /**
      The geocoder's completion for one site: a first placemark with a
      coordinate appends one pin for the site; anything else changes nothing.
     */
    method OnGeocoded(site: TestingSite, placemarks: Option<seq<Placemark>>)
      modifies this
      ensures FirstCoordinate(placemarks).Some? ==>
        testingPins == old(testingPins) + [Pin(FirstCoordinate(placemarks).value, site.name, site.phone)]
      ensures FirstCoordinate(placemarks).None? ==> testingPins == old(testingPins)
      ensures testingPins == old(testingPins) + PinsFrom([Completion(site, placemarks)])
      ensures testingSites == old(testingSites) && selectedState == old(selectedState)
    {
      if placemarks.Some? {
        var ps := placemarks.value;
        if ps != [] && ps[0].location.Some? {
          var annotation := Pin(ps[0].location.value, site.name, site.phone);
          testingPins := testingPins + [annotation];
        }
      }
      assert PinsFrom([Completion(site, placemarks)]) == NewPins(Completion(site, placemarks));
    }
  }

  /** A feed entry for one site, with every field in place. */
  function ExampleSite(): SiteObject {
    map[
      "name" := JString("Site A"),
      "description" := JString("d"),
      "phones" := JArray([JObject(map["number" := JString("555-1111")])]),
      "physical_address" := JArray([JObject(map[
        "address_1" := JString("1 Main St"),
        "city" := JString("LA"),
        "postal_code" := JString("90001")])])]
  }

  /** The record the example entry yields, and the query built for it. */
  lemma ExampleSiteParses()
    ensures RunLoop([ExampleSite()]) ==
      LoopResult([TestingSite("Site A", "555-1111", "1 Main St", "LA", "90001", "d")], Completed)
    ensures GeocodeRequests(RunLoop([ExampleSite()]).records) == ["1 Main St, LA, CA 90001"]
  {
    var site := ExampleSite();
    assert WellFormed(site);
    AllWellFormed([site]);
    var record := TestingSite("Site A", "555-1111", "1 Main St", "LA", "90001", "d");
    assert RecordOf(site) == record;
    assert GeocodeAddress(record) == "1 Main St, LA, CA 90001";
    assert GeocodeRequests([record]) == [GeocodeAddress(record)];
  }

  /** The feed URL requested when California is selected. */
  lemma CaliforniaFeedUrl()
    ensures FeedUrl(SlugFor("California")) == "https://covid-19-testing.github.io/locations/california/complete.json"
  {
    var slug := SlugFor("California");
    assert slug == "california";
    assert FeedPrefix + slug + FeedSuffix == "https://covid-19-testing.github.io/locations/california/complete.json";
  }

  /**
    A run of the pipeline for California with one well-formed site whose
    address the geocoder resolves: one record, one query, one pin.
   */
  method CaliforniaScenario(coord: Coord) returns (url: string, requests: seq<string>, pins: seq<Pin>)
    ensures url == "https://covid-19-testing.github.io/locations/california/complete.json"
    ensures requests == ["1 Main St, LA, CA 90001"]
    ensures pins == [Pin(coord, "Site A", "555-1111")]
  {
    var controller := new MainViewController();
    url := controller.UpdateMap("California");
    CaliforniaFeedUrl();
    var record := TestingSite("Site A", "555-1111", "1 Main St", "LA", "90001", "d");
    ExampleSiteParses();
    var outcome, load := controller.OnSitesFetched([ExampleSite()]);
    assert controller.testingSites == [record] && controller.testingPins == [];
    assert load == Some(Loaded(["1 Main St, LA, CA 90001"], None));
    requests := load.value.requests;
    controller.OnGeocoded(record, Some([Placemark(Some(coord))]));
    pins := controller.testingPins;
  }

  /**
    A geocode completion from the previous state that arrives after the
    reset leaves a pin behind; if the new feed is then empty,
    loadSitesOnMap reaches the log line reading `testingSites[0]` and traps.
   */
  method StalePinThenEmptyFeed(stale: TestingSite, coord: Coord) returns (load: Option<LoadResult>)
    ensures load == Some(LoadTrapped)
  {
    var controller := new MainViewController();
    var url := controller.UpdateMap("New York");
    controller.OnGeocoded(stale, Some([Placemark(Some(coord))]));
    var outcome;
    outcome, load := controller.OnSitesFetched([]);
  }
}
