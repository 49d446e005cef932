/** The catchment search (`zlewnia-finder.ts`): the stormwater catchments are
    a GeoJSON FeatureCollection (RFC 7946, section 3.3); the query point,
    transformed from WGS84 to the zone grid EPSG:2177, is tested against the
    features in stored order and the first one that contains it is
    reported.

    The dataset (fetched and decoded on every call) is a parameter, `None`
    when fetching or decoding it fails; `toGrid` stands for proj4 followed by
    turf's `point`, `None` when either throws (a NaN coordinate), and
    `contains` for turf's `booleanPointInPolygon`, `None` when that throws. */
module ZlewniaFinder {
  import opened Common

  /** The properties of a catchment feature; `przeciazona` is `None` when it
      is missing or not a string. */
  datatype Properties = Properties(nazwaZlewni: string, przeciazona: Option<string>)

  /** A catchment: its polygon rings and its properties, `None` when the
      feature has none (reading them then throws). */
  datatype Feature = Feature(rings: seq<seq<Pair>>, properties: Option<Properties>)

  /** What the search reports about the catchment found. */
  datatype Zlewnia = Zlewnia(nazwaZlewni: string, isPrzeciazona: bool)

  /** The report for a feature's properties: the name verbatim, and
      overloaded exactly when `przeciazona` is the text `TAK`. */
  function ZlewniaOf(p: Properties): (z: Zlewnia)
    ensures z.nazwaZlewni == p.nazwaZlewni
    ensures z.isPrzeciazona <==> p.przeciazona == Some("TAK")
  {
    Zlewnia(p.nazwaZlewni, p.przeciazona == Some("TAK"))
  }

  /** How a search over a list of features ends. */
  datatype Outcome = Found(zlewnia: Zlewnia) | NotFound | Failed

  /** The first-match search as a definition: each feature in turn is
      tested; a test that throws, or a hit on a feature without properties,
      ends the search in failure. */
  function Search(features: seq<Feature>, p: Pair, contains: (Pair, Feature) -> Option<bool>): Outcome
  {
    if features == [] then NotFound
    else match contains(p, features[0])
      case None => Failed
      case Some(true) =>
        (match features[0].properties
         case None => Failed
         case Some(props) => Found(ZlewniaOf(props)))
      case Some(false) => Search(features[1..], p, contains)
  }

  /** Feature `i` is the first one the test does not reject: every earlier
      feature was tested and found not to contain the point. */
  predicate FirstDecided(features: seq<Feature>, p: Pair, contains: (Pair, Feature) -> Option<bool>, i: int)
  {
    0 <= i < |features| && contains(p, features[i]) != Some(false) &&
    forall j :: 0 <= j < i ==> contains(p, features[j]) == Some(false)
  }

  /** The search finds nothing exactly when every feature was tested and
      none contains the point; otherwise it ends at the first feature not
      rejected, and the outcome is decided by that feature alone. */
  lemma {:induction false} SearchCharacterised(features: seq<Feature>, p: Pair, contains: (Pair, Feature) -> Option<bool>)
    ensures Search(features, p, contains) == NotFound <==>
              forall j :: 0 <= j < |features| ==> contains(p, features[j]) == Some(false)
    ensures Search(features, p, contains) != NotFound ==>
              exists i :: FirstDecided(features, p, contains, i) &&
                Search(features, p, contains) == Search([features[i]], p, contains)
  {
    if features != [] {
      var tail := features[1..];
      SearchCharacterised(tail, p, contains);
      assert forall j :: 1 <= j < |features| ==> features[j] == tail[j - 1];
      if contains(p, features[0]) != Some(false) {
        assert FirstDecided(features, p, contains, 0);
        assert features == [features[0]] + tail;
      } else if Search(tail, p, contains) != NotFound {
        var i :| FirstDecided(tail, p, contains, i) && Search(tail, p, contains) == Search([tail[i]], p, contains);
        assert FirstDecided(features, p, contains, i + 1);
      }
    }
  }

  /** Once the search has ended, features after it are never looked at. */
  lemma {:induction false} LaterFeaturesIgnored(features: seq<Feature>, more: seq<Feature>, p: Pair,
                                                contains: (Pair, Feature) -> Option<bool>)
    requires Search(features, p, contains) != NotFound
    ensures Search(features + more, p, contains) == Search(features, p, contains)
  {
    var all := features + more;
    assert all[0] == features[0];
    if contains(p, features[0]) == Some(false) {
      assert all[1..] == features[1..] + more;
      LaterFeaturesIgnored(features[1..], more, p, contains);
    }
  }

  /** Features that do not contain the point can be passed over. */
  lemma {:induction false} MissesSkipped(misses: seq<Feature>, rest: seq<Feature>, p: Pair,
                                         contains: (Pair, Feature) -> Option<bool>)
    requires forall j :: 0 <= j < |misses| ==> contains(p, misses[j]) == Some(false)
    ensures Search(misses + rest, p, contains) == Search(rest, p, contains)
  {
    if misses != [] {
      var all := misses + rest;
      assert all[0] == misses[0];
      assert all[1..] == misses[1..] + rest;
      MissesSkipped(misses[1..], rest, p, contains);
    } else {
      assert misses + rest == rest;
    }
  }

  /** `findZlewnia`: transform the point `[lng, lat]`, then test the
      features in order and return the first one that contains it. Any
      failure on the way (the dataset, the transformation, a test) gives
      `None`, as does finding nothing. */
  method FindZlewnia(lat: real, lng: real, dataset: Option<seq<Feature>>,
                     toGrid: Pair -> Option<Pair>, contains: (Pair, Feature) -> Option<bool>)
    returns (r: Option<Zlewnia>)
    ensures dataset.None? || toGrid((lng, lat)).None? ==> r.None?
    ensures dataset.Some? && toGrid((lng, lat)).Some? ==>
              match Search(dataset.value, toGrid((lng, lat)).value, contains)
              case Found(z) => r == Some(z)
              case _ => r.None?
  {
    if dataset.None? {
      return None;
    }
    var features := dataset.value;
    var transformed := toGrid((lng, lat));
    if transformed.None? {
      return None;
    }
    var testPoint := transformed.value;
    var i := 0;
    while i < |features|
      invariant 0 <= i <= |features|
      invariant Search(features, testPoint, contains) == Search(features[i..], testPoint, contains)
    {
      var feature := features[i];
      var hit := contains(testPoint, feature);
      if hit.None? {
        return None;
      }
      if hit.value {
        if feature.properties.None? {
          return None;
        }
        var props := feature.properties.value;
        return Some(Zlewnia(props.nazwaZlewni, props.przeciazona == Some("TAK")));
      }
      assert features[i..][1..] == features[i + 1..];
      i := i + 1;
    }
    return None;
  }

  /** Two catchments, the first not containing the point and the second
      containing it: the second is reported, with its own name and flag. */
  lemma SecondOfTwoFound(first: Feature, second: Feature, props: Properties, p: Pair,
                         contains: (Pair, Feature) -> Option<bool>)
    requires contains(p, first) == Some(false) && contains(p, second) == Some(true)
    requires second.properties == Some(props)
    ensures Search([first, second], p, contains) == Found(Zlewnia(props.nazwaZlewni, props.przeciazona == Some("TAK")))
  {
    assert [first, second][1..] == [second];
  }
}
