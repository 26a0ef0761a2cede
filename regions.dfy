/**
  The supported states, the slug each one is fetched under, and the URL of
  the testing-site feed for a slug (MainViewController.updateMap and the
  first statement of getTestingSites).
 */
module Regions {
  import opened Wrappers

  /** The display names the state picker offers, in picker order. */
  const StatesList: seq<string> := ["California", "New York", "Washington", "New Jersey", "Florida"]

  /** The feed slug of each entry of StatesList, position by position. */
  const SlugTable: seq<string> := ["california", "new-york", "washington", "new-jersey", "florida"]

  /** The state the controller starts with; note it is a slug, not a display name. */
  const InitialState: string := "california"

  const FeedPrefix: string := "https://covid-19-testing.github.io/locations/"
  const FeedSuffix: string := "/complete.json"

  /**
    The if-chain of updateMap: a listed display name selects its own slug,
    anything else keeps the default "california".
   */
  function SlugFor(currentState: string): (slug: string)
    ensures slug in SlugTable
    ensures forall i :: 0 <= i < |StatesList| && currentState == StatesList[i] ==> slug == SlugTable[i]
    ensures currentState !in StatesList ==> slug == "california"
  {
    if currentState == "California" then "california"
    else if currentState == "New York" then "new-york"
    else if currentState == "Washington" then "washington"
    else if currentState == "New Jersey" then "new-jersey"
    else if currentState == "Florida" then "florida"
    else "california"
  }

  /** Two different listed states are never fetched from the same feed. */
  lemma SlugsDistinct(i: nat, j: nat)
    requires i < |StatesList| && j < |StatesList| && i != j
    ensures SlugFor(StatesList[i]) != SlugFor(StatesList[j])
  {
  }

  /** The controller's initial state is not a display name, so it takes the default branch. */
  lemma InitialStateIsDefault()
    ensures InitialState !in StatesList
    ensures SlugFor(InitialState) == "california"
  {
  }

  /** The request URL of getTestingSites for a slug. */
  function FeedUrl(slug: string): (url: string)
    ensures |url| == |FeedPrefix| + |slug| + |FeedSuffix|
    ensures url[..|FeedPrefix|] == FeedPrefix
    ensures url[|FeedPrefix|..|FeedPrefix| + |slug|] == slug
    ensures url[|FeedPrefix| + |slug|..] == FeedSuffix
  {
    FeedPrefix + slug + FeedSuffix
  }

  /** Reads the slug back out of a feed URL; None when the URL is not of that form. */
  function SlugOfUrl(url: string): (slug: Option<string>)
    ensures slug.Some? ==> FeedUrl(slug.value) == url
  {
    if |url| >= |FeedPrefix| + |FeedSuffix|
       && url[..|FeedPrefix|] == FeedPrefix
       && url[|url| - |FeedSuffix|..] == FeedSuffix
    then
      var s := url[|FeedPrefix|..|url| - |FeedSuffix|];
      assert url == url[..|FeedPrefix|] + s + url[|url| - |FeedSuffix|..];
      Some(s)
    else None
  }

  /** The slug is recoverable from the URL, so distinct slugs give distinct requests. */
  lemma FeedUrlRoundTrip(slug: string)
    ensures SlugOfUrl(FeedUrl(slug)) == Some(slug)
  {
  }
}
