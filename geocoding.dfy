/**
  The geocoding side of the pipeline: the address string loadSitesOnMap
  hands to the geocoder, and the pin a geocode completion produces.

  The geocoder itself is not modelled; its answer arrives as the optional
  list of placemarks that the completion handler receives.
 */
module Geocoding {
  import opened Wrappers
  import opened SiteRecords

  /** A map coordinate; it is only ever copied, never computed with. */
  datatype Coord = Coord(latitude: real, longitude: real)

  /** A geocoder candidate; its location (and so its coordinate) may be missing. */
  datatype Placemark = Placemark(location: Option<Coord>)

  /** A map annotation: coordinate, title and subtitle. */
  datatype Pin = Pin(coordinate: Coord, title: string, subtitle: string)

  /** One geocode completion: the site the request was made for and what the geocoder returned. */
  datatype Completion = Completion(site: TestingSite, placemarks: Option<seq<Placemark>>)

  /** The state code written into every geocoding query, whatever state was selected. */
  const StateCode: string := "CA"

  // ---------------------------------------------------------------------
  // The address string

  /** The address loadSitesOnMap geocodes for a site. */
  function GeocodeAddress(site: TestingSite): (address: string)
    ensures |address| == |site.streetAddress| + |site.city| + |site.zip| + 7
    ensures address[..|site.streetAddress|] == site.streetAddress
    ensures address[|address| - |site.zip|..] == site.zip
    ensures address[|site.streetAddress| + 2 + |site.city|..|address| - |site.zip|] == StateMarker
  {
    site.streetAddress + ", " + site.city + StateMarker + site.zip
  }

  /** The position of the first occurrence of `c` in `s`, or |s| if there is none. */
  function IndexOf(s: string, c: char): (i: nat)
    ensures i <= |s|
    ensures c !in s[..i]
    ensures i < |s| ==> s[i] == c
  {
    if s == [] then 0
    else if s[0] == c then 0
    else 1 + IndexOf(s[1..], c)
  }

  /** Searching past a prefix that does not hold `c` lands right after it. */
  lemma {:induction false} IndexOfAfter(a: string, b: string, c: char)
    requires c !in a
    ensures IndexOf(a + b, c) == |a| + IndexOf(b, c)
  {
    if a != [] {
      assert (a + b)[0] == a[0];
      assert (a + b)[1..] == a[1..] + b;
      IndexOfAfter(a[1..], b, c);
    } else {
      assert a + b == b;
    }
  }

  /** Street, city and postal code, as read back from an address string. */
  datatype AddressParts = AddressParts(street: string, city: string, zip: string)

  /** `s` with the prefix `p` removed, or None when `s` does not start with `p`. */
  function DropPrefix(s: string, p: string): (r: Option<string>)
    ensures r.Some? ==> s == p + r.value
  {
    if |s| >= |p| && s[..|p|] == p then
      assert s == s[..|p|] + s[|p|..];
      Some(s[|p|..])
    else None
  }

  /** The separator written between the city and the postal code. */
  const StateMarker: string := ", " + StateCode + " "

  /**
    Reads an address of the form "street, city, CA zip" back into its parts,
    splitting at the first two commas; None when the string has another form.
   */
  function SplitAddress(address: string): (parts: Option<AddressParts>)
  {
    var i := IndexOf(address, ',');
    match DropPrefix(address[i..], ", ")
    case None => None
    case Some(tail) =>
      var j := IndexOf(tail, ',');
      match DropPrefix(tail[j..], StateMarker)
      case None => None
      case Some(zip) => Some(AddressParts(address[..i], tail[..j], zip))
  }

  /**
    When street and city hold no comma, the geocoded address determines the
    street, city and postal code it was built from.
   */
  lemma AddressRoundTrip(site: TestingSite)
    requires ',' !in site.streetAddress && ',' !in site.city
    ensures SplitAddress(GeocodeAddress(site)) == Some(AddressParts(site.streetAddress, site.city, site.zip))
  {
    var tail := site.city + StateMarker + site.zip;
    var address := GeocodeAddress(site);
    assert address == site.streetAddress + ", " + tail;
    CutAtComma(site.streetAddress, ", ", tail);
    assert StateMarker[0] == ',';
    CutAtComma(site.city, StateMarker, site.zip);
  }

  /** Splitting `a + sep + b` at its first comma, when `a` holds none and `sep` opens with one. */
  lemma CutAtComma(a: string, sep: string, b: string)
    requires ',' !in a && |sep| > 0 && sep[0] == ','
    ensures var s := a + sep + b; var i := IndexOf(s, ',');
      && i == |a| && s[..i] == a && DropPrefix(s[i..], sep) == Some(b)
  {
    var s := a + sep + b;
    assert s == a + (sep + b);
    IndexOfAfter(a, sep + b, ',');
    assert (sep + b)[0] == ',';
    assert s[..|a|] == a;
    assert s[|a|..] == sep + b;
    assert (sep + b)[..|sep|] == sep;
    assert (sep + b)[|sep|..] == b;
  }

  /** Two sites with comma-free streets and cities share a geocoding query only if they share street, city and postal code. */
  lemma AddressInjective(s: TestingSite, t: TestingSite)
    requires ',' !in s.streetAddress && ',' !in s.city
    requires ',' !in t.streetAddress && ',' !in t.city
    requires GeocodeAddress(s) == GeocodeAddress(t)
    ensures s.streetAddress == t.streetAddress && s.city == t.city && s.zip == t.zip
  {
    AddressRoundTrip(s);
    AddressRoundTrip(t);
  }

  // ---------------------------------------------------------------------
  // Geocode completions

  /** `placemarks.first?.location?.coordinate`. */
  function FirstCoordinate(placemarks: Option<seq<Placemark>>): Option<Coord> {
    match placemarks
    case None => None
    case Some(ps) => if ps == [] then None else ps[0].location
  }

  /** The pins one completion appends: one pin for the site, or none. */
  function NewPins(c: Completion): (pins: seq<Pin>)
    ensures |pins| <= 1
    ensures pins != [] <==> FirstCoordinate(c.placemarks).Some?
    ensures pins != [] ==> pins[0].coordinate == FirstCoordinate(c.placemarks).value
    ensures pins != [] ==> pins[0].title == c.site.name && pins[0].subtitle == c.site.phone
  {
    match FirstCoordinate(c.placemarks)
    case None => []
    case Some(coord) => [Pin(coord, c.site.name, c.site.phone)]
  }

  /** The pins a series of completions appends, in arrival order. */
  function PinsFrom(cs: seq<Completion>): (pins: seq<Pin>)
    ensures |pins| <= |cs|
  {
    if cs == [] then [] else NewPins(cs[0]) + PinsFrom(cs[1..])
  }

  /** Completions accumulate: the pins of two batches are the pins of each, one after the other. */
  lemma {:induction false} PinsFromAppend(a: seq<Completion>, b: seq<Completion>)
    ensures PinsFrom(a + b) == PinsFrom(a) + PinsFrom(b)
  {
    if a == [] {
      assert a + b == b;
    } else {
      assert (a + b)[0] == a[0];
      assert (a + b)[1..] == a[1..] + b;
      PinsFromAppend(a[1..], b);
    }
  }

  /** The set of pins does not depend on the order in which two batches of completions arrive. */
  lemma ArrivalOrderIrrelevant(a: seq<Completion>, b: seq<Completion>)
    ensures multiset(PinsFrom(a + b)) == multiset(PinsFrom(b + a))
  {
    PinsFromAppend(a, b);
    PinsFromAppend(b, a);
  }

  /** No completion that carries a coordinate is lost. */
  lemma {:induction false} ResolvedCompletionPinned(cs: seq<Completion>, i: nat)
    requires i < |cs|
    requires FirstCoordinate(cs[i].placemarks).Some?
    ensures NewPins(cs[i])[0] in PinsFrom(cs)
  {
    if i == 0 {
      assert PinsFrom(cs)[0] == NewPins(cs[0])[0];
    } else {
      ResolvedCompletionPinned(cs[1..], i - 1);
      assert cs[1..][i - 1] == cs[i];
    }
  }

  /** Every pin comes from a completion that carried a coordinate, titled with that completion's site. */
  lemma {:induction false} PinHasCompletion(cs: seq<Completion>, p: Pin)
    requires p in PinsFrom(cs)
    ensures exists i :: 0 <= i < |cs| && NewPins(cs[i]) == [p]
  {
    assert cs != [];
    if p in NewPins(cs[0]) {
      assert NewPins(cs[0]) == [p];
    } else {
      PinHasCompletion(cs[1..], p);
      var i :| 0 <= i < |cs[1..]| && NewPins(cs[1..][i]) == [p];
      assert cs[i + 1] == cs[1..][i];
    }
  }
}
