/** What the planner checks before it asks for a route, and the trip summary
    it shows once a route is found. */
module RouteChecks {
  import opened Common
  import opened RouteStops

  const MapNotReadyError := "Map is not yet initialized. Please wait a moment and try again."
  const FillAllError := "Please fill all locations"
  const MissingCoordsPrefix := "Please select a valid location from the suggestions for: "

  /** A coordinate counts as set when it is present and not zero: the source
      tests it for truthiness, and 0 is falsy. */
  predicate CoordSet(c: Option<real>) {
    c.Some? && c.value != 0.0
  }

  predicate HasCoords(loc: Location) {
    CoordSet(loc.lat) && CoordSet(loc.lng)
  }

  /** The index of some entry with an empty address, if any. */
  function FirstEmptyAddress(s: seq<Location>): (r: Option<nat>)
    ensures r.Some? ==> r.value < |s| && s[r.value].address == []
    ensures r.None? <==> forall k :: 0 <= k < |s| ==> s[k].address != []
  {
    if s == [] then None
    else if s[0].address == [] then Some(0)
    else match FirstEmptyAddress(s[1..])
      case None => None
      case Some(k) => Some(k + 1)
  }

  /** The first entry whose latitude or longitude is missing or zero
      (`Array.prototype.find`). */
  function FirstMissingCoords(s: seq<Location>): (r: Option<nat>)
    ensures r.Some? ==> r.value < |s| && !HasCoords(s[r.value])
    ensures r.Some? ==> forall k :: 0 <= k < r.value ==> HasCoords(s[k])
    ensures r.None? <==> forall k :: 0 <= k < |s| ==> HasCoords(s[k])
  {
    if s == [] then None
    else if !HasCoords(s[0]) then Some(0)
    else match FirstMissingCoords(s[1..])
      case None => None
      case Some(k) => Some(k + 1)
  }

  /** The error `optimizeRoute` reports, or `None` when it goes on to request
      a route. The checks run in a fixed order and the first failure wins:
      the map, then any empty address, then the first entry without
      coordinates, named by its address. */
  function RouteInputError(mapInitialized: bool, s: seq<Location>): (r: Option<string>)
    ensures !mapInitialized ==> r == Some(MapNotReadyError)
    ensures mapInitialized && (exists k :: 0 <= k < |s| && s[k].address == []) ==> r == Some(FillAllError)
    ensures mapInitialized && (forall k :: 0 <= k < |s| ==> s[k].address != []) ==>
      match FirstMissingCoords(s)
      case None => r.None?
      case Some(k) => r == Some(MissingCoordsPrefix + s[k].address)
    ensures r.None? <==> mapInitialized && forall k :: 0 <= k < |s| ==> s[k].address != [] && HasCoords(s[k])
  {
    if !mapInitialized then Some(MapNotReadyError)
    else if FirstEmptyAddress(s).Some? then Some(FillAllError)
    else match FirstMissingCoords(s)
      case Some(k) => Some(MissingCoordsPrefix + s[k].address)
      case None => None
  }

  /** A stop that sits exactly on the equator or the prime meridian is
      reported as missing its coordinates, because a zero coordinate is falsy. */
  lemma ZeroCoordinateRejected(s: seq<Location>, k: nat)
    requires k < |s| && s[k].lat == Some(0.0)
    requires forall j :: 0 <= j < |s| ==> s[j].address != []
    ensures RouteInputError(true, s).Some?
    ensures RouteInputError(true, s) != Some(FillAllError)
  {
    assert !HasCoords(s[k]);
    var e := RouteInputError(true, s);
    var j := FirstMissingCoords(s).value;
    assert e == Some(MissingCoordsPrefix + s[j].address);
    assert |e.value| >= |MissingCoordsPrefix| > |FillAllError|;
  }

  /** What `predictDelay` yields for one stop: the predicted minutes, or 0
      when the request fails or the reply is not a number (`None`). */
  function PredictedDelay(predict: string -> Option<int>, address: string): (d: int)
    ensures predict(address).None? ==> d == 0
    ensures predict(address).Some? ==> d == predict(address).value
  {
    predict(address).GetOr(0)
  }

  /** The summed predicted delays of the stops in `s`. */
  function SumDelays(predict: string -> Option<int>, s: seq<Location>): int {
    if s == [] then 0
    else SumDelays(predict, s[..|s| - 1]) + PredictedDelay(predict, s[|s| - 1].address)
  }

  /** Delays add up over consecutive stretches of the list. */
  lemma {:induction false} SumDelaysAppend(predict: string -> Option<int>, a: seq<Location>, b: seq<Location>)
    ensures SumDelays(predict, a + b) == SumDelays(predict, a) + SumDelays(predict, b)
    decreases |b|
  {
    if b != [] {
      assert (a + b)[..|a + b| - 1] == a + b[..|b| - 1];
      SumDelaysAppend(predict, a, b[..|b| - 1]);
    } else {
      assert a + b == a;
    }
  }

  /** The route's total predicted delay: every stop after the start. */
  function RouteDelay(predict: string -> Option<int>, s: seq<Location>): int {
    if |s| <= 1 then 0 else SumDelays(predict, s[1..])
  }

  /** The start never contributes: two lists that differ only in their first
      entry have the same total delay. */
  lemma RouteDelayExcludesStart(predict: string -> Option<int>, s: seq<Location>, start: Location)
    requires s != []
    ensures RouteDelay(predict, [start] + s[1..]) == RouteDelay(predict, s)
  {
    assert ([start] + s[1..])[1..] == s[1..];
  }

  /** When every prediction fails the total delay is zero; when every
      prediction is non-negative so is the total. */
  lemma {:induction false} SumDelaysBounds(predict: string -> Option<int>, s: seq<Location>)
    ensures (forall k :: 0 <= k < |s| ==> predict(s[k].address).None?) ==> SumDelays(predict, s) == 0
    ensures (forall k :: 0 <= k < |s| ==> PredictedDelay(predict, s[k].address) >= 0) ==> SumDelays(predict, s) >= 0
  {
    if s != [] {
      SumDelaysBounds(predict, s[..|s| - 1]);
      assert forall k :: 0 <= k < |s| - 1 ==> s[..|s| - 1][k] == s[k];
    }
  }

  /** Retyping the address of one stop after the start changes the route's
      delay by exactly the difference of the two predictions. */
  lemma RouteDelayRetyped(predict: string -> Option<int>, s: seq<Location>, index: nat, value: string)
    requires 0 < index < |s|
    ensures RouteDelay(predict, WithAddressTyped(s, index, value))
      == RouteDelay(predict, s) - PredictedDelay(predict, s[index].address) + PredictedDelay(predict, value)
  {
    var t := WithAddressTyped(s, index, value);
    assert s[1..] == s[1..index] + [s[index]] + s[index + 1..];
    assert t[1..] == s[1..index] + [t[index]] + s[index + 1..];
    SumDelaysAppend(predict, s[1..index] + [s[index]], s[index + 1..]);
    SumDelaysAppend(predict, s[1..index], [s[index]]);
    SumDelaysAppend(predict, s[1..index] + [t[index]], s[index + 1..]);
    SumDelaysAppend(predict, s[1..index], [t[index]]);
    assert SumDelays(predict, [s[index]]) == PredictedDelay(predict, s[index].address);
    assert SumDelays(predict, [t[index]]) == PredictedDelay(predict, value);
  }

  /** Typing into the object of a stop after the start of a routed list:
      the route-found handler's delay then prices the typed address in
      place of the old one. */
  lemma TypedIntoRouteDelay(predict: string -> Option<int>, stops: seq<Location>, ids: seq<nat>, index: nat, value: string)
    requires |ids| == |stops| && DistinctIds(ids) && 0 < index < |stops|
    ensures RouteDelay(predict, TypedInto(stops, ids, ids[index], value))
      == RouteDelay(predict, stops) - PredictedDelay(predict, stops[index].address) + PredictedDelay(predict, value)
  {
    TypedIntoEntry(stops, ids, index, value);
    RouteDelayRetyped(predict, stops, index, value);
  }

  /** The delay loop of the route-found handler: one prediction per stop
      after the start, summed in order. */
  method TotalDelay(predict: string -> Option<int>, s: seq<Location>) returns (total: int)
    ensures total == RouteDelay(predict, s)
  {
    total := 0;
    if |s| <= 1 {
      return;
    }
    for i := 1 to |s|
      invariant total == SumDelays(predict, s[1..i])
    {
      var delay := PredictedDelay(predict, s[i].address);
      assert s[1..i + 1] == s[1..i] + [s[i]];
      SumDelaysAppend(predict, s[1..i], [s[i]]);
      total := total + delay;
    }
    assert s[1..|s|] == s[1..];
  }

  /** `Math.round(seconds / 60)` for the router's duration, a fractional
      number of seconds: the nearest whole minute, halves rounded up. */
  function RouteMinutes(seconds: real): (m: int)
    ensures 60.0 * m as real <= seconds + 30.0 < 60.0 * m as real + 60.0
  {
    (seconds / 60.0 + 0.5).Floor
  }

  /** The same rounding on whole seconds. */
  function RoundedMinutes(seconds: nat): (m: nat)
    ensures 60 * m <= seconds + 30 < 60 * m + 60
  {
    (seconds + 30) / 60
  }

  /** The fraction of a second never matters: rounding a duration to
      minutes gives what rounding its whole seconds gives. */
  lemma WholeSecondsSuffice(seconds: real)
    requires seconds >= 0.0
    ensures RouteMinutes(seconds) == RoundedMinutes(seconds.Floor)
  {
    var m, n := RouteMinutes(seconds), seconds.Floor;
    assert n as real <= seconds < n as real + 1.0;
    assert 60 * m <= n + 30 < 60 * m + 60;
  }

  /** The trip summary shown once a route is found. The distance text
      (kilometres with two decimals) is not part of this model. */
  datatype RouteInfo = RouteInfo(duration: int, delay: int, totalTime: int, waypoints: nat)
}
