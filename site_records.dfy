/**
  Decoded JSON values, the TestingSite record, and the extraction that the
  body of getTestingSites' loop performs on each decoded site object.

  A decoded site is a `map<string, Json>` (the source's `[String: Any]`).
  The loop body either builds a record, leaves the whole closure through a
  failed `guard ... else { return }`, or traps on a forced cast or on `[0]`
  of an empty array.
 */
module SiteRecords {
  import opened Wrappers

  /** A value produced by JSON decoding; numbers, booleans and null are Other. */
  datatype Json = JString(str: string) | JArray(items: seq<Json>) | JObject(fields: map<string, Json>) | Other

  type SiteObject = map<string, Json>

  /** One physical testing location. */
  datatype TestingSite = TestingSite(
    name: string,
    phone: string,
    streetAddress: string,
    city: string,
    zip: string,
    description: string)

  /** What one pass of the loop body does with one site object. */
  datatype Extraction = Parsed(site: TestingSite) | GuardFailed | Trap

  /** How the loop over the decoded array ended. */
  datatype Outcome = Completed | Returned(at: nat) | Trapped(at: nat)

  /** The records the loop appended, and how it ended. */
  datatype LoopResult = LoopResult(records: seq<TestingSite>, outcome: Outcome)

  // ---------------------------------------------------------------------
  // Swift casts on decoded values

  /** `site[key] as! String` succeeds: the key is present and holds a string. */
  predicate HasString(site: SiteObject, key: string) {
    key in site && site[key].JString?
  }

  /** `site[key] as? Array<Any>`. */
  function ArrayAt(site: SiteObject, key: string): Option<seq<Json>>
  {
    if key in site && site[key].JArray? then Some(site[key].items) else None
  }

  /** `v as? [String: String]` succeeds: an object all of whose values are strings. */
  predicate IsStringDict(v: Json) {
    v.JObject? && forall k :: k in v.fields ==> v.fields[k].JString?
  }

  /** The result of `v as? [String: String]`. */
  function AsStringDict(v: Json): (r: Option<map<string, string>>)
    ensures r.Some? <==> IsStringDict(v)
    ensures r.Some? ==> r.value.Keys == v.fields.Keys
    ensures r.Some? ==> forall k :: k in r.value ==> v.fields[k] == JString(r.value[k])
  {
    if IsStringDict(v) then Some(map k | k in v.fields :: v.fields[k].str) else None
  }

  // ---------------------------------------------------------------------
  // Declarative classification of a site object

  /** `phones[0]` (or `physical_address[0]`) is an all-string object holding every one of `keys`. */
  predicate FirstHolds(site: SiteObject, key: string, keys: set<string>) {
    key in site && site[key].JArray? && |site[key].items| > 0
    && IsStringDict(site[key].items[0])
    && keys <= site[key].items[0].fields.Keys
  }

  /** Every field the record needs is present with the shape the casts and guards demand. */
  predicate WellFormed(site: SiteObject) {
    HasString(site, "name") && HasString(site, "description")
    && FirstHolds(site, "phones", {"number"})
    && FirstHolds(site, "physical_address", {"address_1", "city", "postal_code"})
  }

  /** `key` holds an empty array, so `[0]` on it traps. */
  predicate EmptyArrayAt(site: SiteObject, key: string) {
    key in site && site[key] == JArray([])
  }

  /**
    The loop body traps on this object: a forced cast of name or description
    fails, `phones` is an empty array, or every phone guard passes and
    `physical_address` is an empty array.
   */
  predicate Traps(site: SiteObject) {
    !HasString(site, "name") || !HasString(site, "description")
    || EmptyArrayAt(site, "phones")
    || (FirstHolds(site, "phones", {"number"}) && EmptyArrayAt(site, "physical_address"))
  }

  /** The string stored under `field` in the first element of the array at `key`. */
  function FirstField(site: SiteObject, key: string, field: string): string
    requires FirstHolds(site, key, {field})
  {
    site[key].items[0].fields[field].str
  }

  /** The record a well-formed site object yields. */
  function RecordOf(site: SiteObject): (r: TestingSite)
    requires WellFormed(site)
  {
    TestingSite(
      name := site["name"].str,
      phone := FirstField(site, "phones", "number"),
      streetAddress := FirstField(site, "physical_address", "address_1"),
      city := FirstField(site, "physical_address", "city"),
      zip := FirstField(site, "physical_address", "postal_code"),
      description := site["description"].str)
  }

  // ---------------------------------------------------------------------
  // The loop body, statement by statement

  /** Builds the record from the first address object, or fails a guard. */
  function ExtractAddress(name: string, description: string, phone: string, address: seq<Json>): (r: Extraction)
  {
    if |address| == 0 then Trap
    else match AsStringDict(address[0])
      case None => GuardFailed
      case Some(address0) =>
        if "address_1" !in address0 || "city" !in address0 || "postal_code" !in address0 then GuardFailed
        else Parsed(TestingSite(name, phone, address0["address_1"], address0["city"], address0["postal_code"], description))
  }

  /**
    One pass of the loop body: forced casts of name and description, then
    the phone guards, then the address guards.
   */
  function ExtractSite(site: SiteObject): (r: Extraction)
    ensures r.Parsed? <==> WellFormed(site)
    ensures r.Parsed? ==> r.site == RecordOf(site)
    ensures r == Trap <==> Traps(site)
  {
    if !HasString(site, "name") || !HasString(site, "description") then Trap
    else
      var name := site["name"].str;
      var description := site["description"].str;
      match ArrayAt(site, "phones")
      case None => GuardFailed
      case Some(phones) =>
        if |phones| == 0 then Trap
        else match AsStringDict(phones[0])
          case None => GuardFailed
          case Some(phoneZero) =>
            if "number" !in phoneZero then GuardFailed
            else match ArrayAt(site, "physical_address")
              case None => GuardFailed
              case Some(address) => ExtractAddress(name, description, phoneZero["number"], address)
  }

  // ---------------------------------------------------------------------
  // The whole loop, as a value

  /** An outcome index moved one position to the right. */
  function Shift(o: Outcome): Outcome {
    match o
    case Completed => Completed
    case Returned(k) => Returned(k + 1)
    case Trapped(k) => Trapped(k + 1)
  }

  /**
    The loop of getTestingSites over the decoded array: records are appended
    in order until the first entry that fails a guard (the closure returns)
    or traps.
   */
  function RunLoop(sites: seq<SiteObject>): (r: LoopResult)
    ensures |r.records| <= |sites|
    ensures r.outcome.Completed? ==> |r.records| == |sites|
    ensures !r.outcome.Completed? ==> r.outcome.at == |r.records| < |sites|
  {
    if sites == [] then LoopResult([], Completed)
    else match ExtractSite(sites[0])
      case Trap => LoopResult([], Trapped(0))
      case GuardFailed => LoopResult([], Returned(0))
      case Parsed(s) =>
        var rest := RunLoop(sites[1..]);
        LoopResult([s] + rest.records, Shift(rest.outcome))
  }

  /** The records of a prefix of sites that are all well-formed, in order. */
  function Records(sites: seq<SiteObject>): (r: seq<TestingSite>)
    requires forall i :: 0 <= i < |sites| ==> WellFormed(sites[i])
    ensures |r| == |sites|
  {
    seq(|sites|, i requires 0 <= i < |sites| => RecordOf(sites[i]))
  }

  /** Index of the first entry that is not well-formed, or |sites| if there is none. */
  function FirstBad(sites: seq<SiteObject>): (k: nat)
    ensures k <= |sites|
    ensures forall i :: 0 <= i < k ==> WellFormed(sites[i])
    ensures k < |sites| ==> !WellFormed(sites[k])
  {
    if sites == [] then 0
    else if !WellFormed(sites[0]) then 0
    else 1 + FirstBad(sites[1..])
  }

  /**
    The loop's result in closed form: the records of every entry before the
    first bad one, in input order, and an outcome that names that entry and
    whether it trapped or returned.
   */
  lemma {:induction false} RunLoopCharacterized(sites: seq<SiteObject>)
    ensures var k := FirstBad(sites);
      && RunLoop(sites).records == Records(sites[..k])
      && RunLoop(sites).outcome ==
           if k == |sites| then Completed
           else if Traps(sites[k]) then Trapped(k)
           else Returned(k)
  {
    if sites != [] {
      var k := FirstBad(sites);
      if WellFormed(sites[0]) {
        RunLoopCharacterized(sites[1..]);
        assert FirstBad(sites[1..]) == k - 1;
        assert sites[1..][..k - 1] == sites[1..k];
        var tail := Records(sites[1..k]);
        assert Records(sites[..k]) == [RecordOf(sites[0])] + tail;
      } else {
        assert sites[..0] == [];
      }
    }
  }

  /** Every entry well-formed: one record per entry, in input order, and the loop completes. */
  lemma AllWellFormed(sites: seq<SiteObject>)
    requires forall i :: 0 <= i < |sites| ==> WellFormed(sites[i])
    ensures RunLoop(sites).outcome == Completed
    ensures |RunLoop(sites).records| == |sites|
    ensures forall i :: 0 <= i < |sites| ==> RunLoop(sites).records[i] == RecordOf(sites[i])
  {
    RunLoopCharacterized(sites);
    assert sites[..|sites|] == sites;
  }

  /** The loop completes only when every entry is well-formed. */
  lemma {:induction false} CompletedOnlyIfAllWellFormed(sites: seq<SiteObject>)
    requires RunLoop(sites).outcome == Completed
    ensures forall i :: 0 <= i < |sites| ==> WellFormed(sites[i])
  {
    if sites != [] {
      assert ExtractSite(sites[0]).Parsed?;
      assert RunLoop(sites[1..]).outcome == Completed;
      CompletedOnlyIfAllWellFormed(sites[1..]);
      forall i | 1 <= i < |sites| ensures WellFormed(sites[i]) {
        assert sites[i] == sites[1..][i - 1];
      }
    }
  }

  /**
    The first bad entry ends the loop: exactly the records of the entries
    before it are appended, nothing after it is looked at, and the outcome
    says whether it trapped or left through a guard.
   */
  lemma FirstBadEntryStops(sites: seq<SiteObject>, k: nat)
    requires k < |sites|
    requires forall i :: 0 <= i < k ==> WellFormed(sites[i])
    requires !WellFormed(sites[k])
    ensures RunLoop(sites).records == Records(sites[..k])
    ensures RunLoop(sites).outcome == if Traps(sites[k]) then Trapped(k) else Returned(k)
  {
    RunLoopCharacterized(sites);
    assert FirstBad(sites) == k;
  }

  /** Entries after the first bad one do not influence the result. */
  lemma {:induction false} LaterEntriesIgnored(sites: seq<SiteObject>, more: seq<SiteObject>)
    requires !RunLoop(sites).outcome.Completed?
    ensures RunLoop(sites + more) == RunLoop(sites)
  {
    assert sites != [];
    assert (sites + more)[0] == sites[0];
    if ExtractSite(sites[0]).Parsed? {
      assert (sites + more)[1..] == sites[1..] + more;
      LaterEntriesIgnored(sites[1..], more);
    }
  }
}
