/** The route planner component: its state, and the handlers that change it. */
module RouteOptimizer {
  import opened Common
  import opened RouteStops
  import opened RouteChecks
  import opened CsvRoutes

  const NeedWaypointError := "You need at least one waypoint"
  const MapInitFailedError := "Unable to initialize map. Please refresh the page."
  const RoutingFailedError :=
      "Failed to calculate route. Please check the locations and "
    + "try again."
  const CsvParseError := "Failed to parse CSV file"
  const SetupErrorPrefix := "Error optimizing route: "

  /** What the file input delivers: no file, a file the CSV parser rejects,
      or the parsed table. */
  datatype CsvUpload = NoFile | ParseFailed | Parsed(csv: ParsedCsv)

  class Planner {
    var locations: seq<Location>
    /** The identity of each on-screen entry object, in list order, and the
        next identity to hand out. */
    var entryIds: seq<nat>
    var nextEntryId: nat
    /** The stop list of the last route request that passed the checks, and
        the identities of its entries. The route-found handler installed by
        that request reads this array, not the one on screen when the route
        arrives; but its entries are shared objects, so an address typed into
        one of them since still reaches it. */
    var routedStops: seq<Location>
    var routedIds: seq<nat>
    var suggestions: map<int, seq<Suggestion>>
    var loadingSuggestions: map<int, bool>
    var activeInput: Option<int>
    var isOptimizing: bool
    var error: Option<string>
    var routeInfo: Option<RouteInfo>
    var mapInitialized: bool
    var csvData: Option<seq<Row>>
    var groupKeys: seq<string>
    var groupedRoutes: map<string, Group>
    var selectedStartLocation: Option<string>

    /** The stop list is never empty (the remove button refuses to go below
        three entries and a loaded group has a start), and the grouped
        routes have one entry per distinct key. Every entry of a list is its
        own object, and every object was created before the next one. */
    ghost predicate Valid()
      reads this
    {
      && |locations| >= 1 && WellFormed(Grouping(groupKeys, groupedRoutes))
      && |entryIds| == |locations| && DistinctIds(entryIds) && IdsBelow(entryIds, nextEntryId)
      && |routedIds| == |routedStops| && DistinctIds(routedIds) && IdsBelow(routedIds, nextEntryId)
    }

    constructor ()
      ensures Valid()
      ensures locations == InitialStops() && entryIds == FreshIds(0, 3) && nextEntryId == 3
      ensures routedStops == [] && routedIds == []
      ensures suggestions == map[] && loadingSuggestions == map[] && activeInput.None?
      ensures !isOptimizing && error.None? && routeInfo.None? && !mapInitialized
      ensures csvData.None? && groupKeys == [] && groupedRoutes == map[] && selectedStartLocation.None?
    {
      locations := InitialStops();
      entryIds, nextEntryId := FreshIds(0, 3), 3;
      routedStops, routedIds := [], [];
      suggestions, loadingSuggestions, activeInput := map[], map[], None;
      isOptimizing, error, routeInfo, mapInitialized := false, None, None, false;
      csvData, groupKeys, groupedRoutes, selectedStartLocation := None, [], map[], None;
    }

    /** The map-creation effect: the map comes up, or the error is shown. */
    method InitializeMap(succeeded: bool)
      modifies this`mapInitialized, this`error
      ensures succeeded ==> mapInitialized && error == old(error)
      ensures !succeeded ==> mapInitialized == old(mapInitialized) && error == Some(MapInitFailedError)
    {
      if succeeded {
        mapInitialized := true;
      } else {
        error := Some(MapInitFailedError);
      }
    }

    /** "+ Add Waypoint": take the last entry off, push a blank waypoint, push
        the last entry back. */
    method AddWaypoint()
      requires Valid()
      modifies this`locations, this`entryIds, this`nextEntryId
      ensures Valid()
      ensures locations == WithWaypointBeforeLast(old(locations))
      ensures entryIds == FreshBeforeLast(old(entryIds), old(nextEntryId)) && nextEntryId == old(nextEntryId) + 1
      ensures WellShaped(old(locations)) ==> WellShaped(locations)
    {
      var newLocations := locations;
      var endLocation := newLocations[|newLocations| - 1];
      newLocations := newLocations[..|newLocations| - 1];
      newLocations := newLocations + [BlankWaypoint()];
      newLocations := newLocations + [endLocation];
      locations := newLocations;
      FreshKeepsDistinct(entryIds, nextEntryId, 0);
      entryIds, nextEntryId := FreshBeforeLast(entryIds, nextEntryId), nextEntryId + 1;
      if WellShaped(old(locations)) {
        AddWaypointKeepsShape(old(locations));
      }
    }

    /** The remove button of the entry at `index`: refused with an error while
        the list has three entries or fewer, otherwise that entry is spliced
        out. */
    method RemoveWaypoint(index: int)
      requires Valid()
      modifies this`locations, this`entryIds, this`error
      ensures Valid()
      ensures |old(locations)| <= 3 ==>
        locations == old(locations) && entryIds == old(entryIds) && error == Some(NeedWaypointError)
      ensures |old(locations)| > 3 ==>
        locations == SpliceOne(old(locations), index) && entryIds == SpliceOne(old(entryIds), index) && error == old(error)
      ensures WellShaped(old(locations)) && 0 < index < |old(locations)| - 1 ==> WellShaped(locations)
    {
      if |locations| <= 3 {
        error := Some(NeedWaypointError);
        return;
      }
      locations := SpliceOne(locations, index);
      SpliceKeepsDistinct(entryIds, nextEntryId, index);
      entryIds := SpliceOne(entryIds, index);
      if WellShaped(old(locations)) && 0 < index < |old(locations)| - 1 {
        RemoveWaypointKeepsShape(old(locations), index);
      }
    }

    /** Typing into the entry at `index`: the address changes and the
        coordinates are cleared, in the entry object itself, so the routed
        list sees the change too when it holds that object. A blank value
        empties that entry's suggestions; any other value starts a search
        for it. */
    method ChangeLocation(index: nat, value: string)
      requires Valid() && index < |locations|
      modifies this`locations, this`routedStops, this`suggestions, this`loadingSuggestions
      ensures Valid()
      ensures locations == WithAddressTyped(old(locations), index, value)
      ensures routedStops == TypedInto(old(routedStops), routedIds, entryIds[index], value)
      ensures IsBlank(value) ==> suggestions == old(suggestions)[index := []] && loadingSuggestions == old(loadingSuggestions)
      ensures !IsBlank(value) ==> suggestions == old(suggestions) && loadingSuggestions == old(loadingSuggestions)[index := true]
    {
      var newLocations := locations;
      newLocations := newLocations[index := newLocations[index].(address := value)];
      newLocations := newLocations[index := newLocations[index].(lat := None)];
      newLocations := newLocations[index := newLocations[index].(lng := None)];
      locations := newLocations;
      routedStops := TypedInto(routedStops, routedIds, entryIds[index], value);
      if IsBlank(value) {
        suggestions := suggestions[index := []];
        return;
      }
      loadingSuggestions := loadingSuggestions[index := true];
    }

    /** The address search for the entry at `index` finishes: its places, or
        none when the request failed, and the entry stops loading. */
    method ReceiveSuggestions(index: nat, result: Option<seq<Suggestion>>)
      modifies this`suggestions, this`loadingSuggestions
      ensures suggestions == old(suggestions)[index := result.GetOr([])]
      ensures loadingSuggestions == old(loadingSuggestions)[index := false]
    {
      match result {
        case Some(places) => suggestions := suggestions[index := places];
        case None => suggestions := suggestions[index := []];
      }
      loadingSuggestions := loadingSuggestions[index := false];
    }

    /** Picking a suggestion for the entry at `index`: a new entry object
        takes its place. */
    method SelectSuggestion(index: nat, choice: Suggestion)
      requires Valid() && index < |locations|
      modifies this`locations, this`entryIds, this`nextEntryId, this`suggestions, this`activeInput
      ensures Valid()
      ensures locations == WithSuggestionPicked(old(locations), index, choice)
      ensures entryIds == old(entryIds)[index := old(nextEntryId)] && nextEntryId == old(nextEntryId) + 1
      ensures suggestions == old(suggestions)[index := []]
      ensures activeInput.None?
    {
      locations := locations[index := locations[index].(address := choice.displayName, lat := Some(choice.lat), lng := Some(choice.lng))];
      FreshKeepsDistinct(entryIds, nextEntryId, index);
      entryIds, nextEntryId := entryIds[index := nextEntryId], nextEntryId + 1;
      suggestions := suggestions[index := []];
      activeInput := None;
    }

    /** "Calculate Optimal Route": the checks in order; the first one that
        fails sets its error and ends the attempt. When all pass the error is
        cleared and the planner waits for the router. */
    method OptimizeRoute()
      requires Valid()
      modifies this`isOptimizing, this`error, this`routedStops, this`routedIds
      ensures Valid()
      ensures error == RouteInputError(mapInitialized, locations)
      ensures isOptimizing <==> error.None?
      ensures error.None? ==> routedStops == locations && routedIds == entryIds
      ensures error.Some? ==> routedStops == old(routedStops) && routedIds == old(routedIds)
    {
      isOptimizing := true;
      error := None;
      if !mapInitialized {
        error := Some(MapNotReadyError);
        isOptimizing := false;
        return;
      }
      if FirstEmptyAddress(locations).Some? {
        error := Some(FillAllError);
        isOptimizing := false;
        return;
      }
      var missing := FirstMissingCoords(locations);
      if missing.Some? {
        error := Some(MissingCoordsPrefix + locations[missing.value].address);
        isOptimizing := false;
        return;
      }
      routedStops, routedIds := locations, entryIds;
    }

    /** Setting up the route request threw (the `catch` around it): the
        exception's message is shown after a fixed prefix. */
    method RouteSetupFailed(message: string)
      modifies this`error, this`isOptimizing
      ensures error == Some(SetupErrorPrefix + message) && !isOptimizing
    {
      error := Some(SetupErrorPrefix + message);
      isOptimizing := false;
    }

    /** The router found a route taking `totalSeconds` for the stops it was
        asked about: the delays of every one of those stops after the start
        are predicted and added to the rounded trip time. A suggestion picked
        or a group loaded since the request does not count, as it makes new
        entry objects; an address typed since into one of those stops does. */
    method RoutesFound(totalSeconds: real, predict: string -> Option<int>)
      modifies this`routeInfo, this`isOptimizing
      ensures routeInfo.Some?
      ensures routeInfo.value.duration == RouteMinutes(totalSeconds)
      ensures routeInfo.value.delay == RouteDelay(predict, routedStops)
      ensures routeInfo.value.totalTime == routeInfo.value.duration + routeInfo.value.delay
      ensures routeInfo.value.waypoints == |routedStops|
      ensures !isOptimizing
    {
      var totalDelay := TotalDelay(predict, routedStops);
      var minutes := RouteMinutes(totalSeconds);
      routeInfo := Some(RouteInfo(minutes, totalDelay, minutes + totalDelay, |routedStops|));
      isOptimizing := false;
    }

    /** The router gave up. */
    method RoutingFailed()
      modifies this`error, this`isOptimizing
      ensures error == Some(RoutingFailedError) && !isOptimizing
    {
      error := Some(RoutingFailedError);
      isOptimizing := false;
    }

    /** Showing the stop list of one start address, when its route data is
        complete. */
    method LoadRouteForStartLocation(startLocation: string, data: Option<RouteData>)
      requires Valid()
      modifies this`locations, this`entryIds, this`nextEntryId, this`selectedStartLocation
      ensures Valid()
      ensures StopsForGroup(startLocation, data).None? ==>
        && locations == old(locations) && selectedStartLocation == old(selectedStartLocation)
        && entryIds == old(entryIds) && nextEntryId == old(nextEntryId)
      ensures StopsForGroup(startLocation, data).Some? ==>
        && locations == StopsForGroup(startLocation, data).value && selectedStartLocation == Some(startLocation)
        && entryIds == FreshIds(old(nextEntryId), |locations|) && nextEntryId == old(nextEntryId) + |locations|
    {
      var stops := StopsForGroup(startLocation, data);
      if stops.None? {
        return;
      }
      locations := stops.value;
      entryIds, nextEntryId := FreshIds(nextEntryId, |locations|), nextEntryId + |locations|;
      selectedStartLocation := Some(startLocation);
    }

    /** Grouping the uploaded rows by start address, then showing the first
        group when its key is not empty. */
    method ProcessCsvData(rows: seq<Row>, geocode: string -> Option<LatLng>)
      requires Valid()
      modifies this`groupKeys, this`groupedRoutes, this`selectedStartLocation, this`locations, this`entryIds, this`nextEntryId
      ensures Valid()
      ensures Grouping(groupKeys, groupedRoutes) == GroupedRoutes(geocode, rows)
      ensures groupKeys != [] && groupKeys[0] != [] ==>
        && selectedStartLocation == Some(groupKeys[0])
        && Some(locations) == StopsForGroup(groupKeys[0], Some(GroupRouteData(groupedRoutes[groupKeys[0]])))
        && entryIds == FreshIds(old(nextEntryId), |locations|)
      ensures !(groupKeys != [] && groupKeys[0] != []) ==>
        locations == old(locations) && selectedStartLocation == old(selectedStartLocation) && entryIds == old(entryIds)
    {
      var keys, grouped := GroupRows(geocode, rows);
      GroupedRoutesSpec(geocode, rows);
      groupKeys, groupedRoutes := keys, grouped;
      if keys != [] && keys[0] != [] {
        var first := keys[0];
        selectedStartLocation := Some(first);
        LoadRouteForStartLocation(first, Some(GroupRouteData(grouped[first])));
      }
    }

    /** The CSV upload: every cell cleaned, the incomplete rows dropped, the
        rest kept and grouped. A parser failure only sets the error. */
    method UploadCsv(upload: CsvUpload, geocode: string -> Option<LatLng>)
      requires Valid()
      modifies this`csvData, this`error, this`groupKeys, this`groupedRoutes, this`selectedStartLocation, this`locations
      modifies this`entryIds, this`nextEntryId
      ensures Valid()
      ensures upload.NoFile? ==> unchanged(this)
      ensures upload.ParseFailed? ==> error == Some(CsvParseError) && csvData == old(csvData)
      ensures upload.ParseFailed? ==> Grouping(groupKeys, groupedRoutes) == old(Grouping(groupKeys, groupedRoutes))
      ensures upload.Parsed? ==> error == old(error)
      ensures upload.Parsed? ==> csvData == Some(UploadedRows(upload.csv))
      ensures upload.Parsed? ==> Grouping(groupKeys, groupedRoutes) == GroupedRoutes(geocode, UploadedRows(upload.csv))
      ensures upload.ParseFailed? ==>
        locations == old(locations) && entryIds == old(entryIds) && selectedStartLocation == old(selectedStartLocation)
      ensures upload.Parsed? && groupKeys != [] ==> selectedStartLocation == Some(groupKeys[0])
      ensures upload.Parsed? && groupKeys != [] ==>
        Some(locations) == StopsForGroup(groupKeys[0], Some(GroupRouteData(groupedRoutes[groupKeys[0]])))
      ensures upload.Parsed? && groupKeys != [] ==> entryIds == FreshIds(old(nextEntryId), |locations|)
      ensures upload.Parsed? && groupKeys == [] ==>
        locations == old(locations) && entryIds == old(entryIds) && selectedStartLocation == old(selectedStartLocation)
    {
      match upload {
        case NoFile =>
        case ParseFailed =>
          error := Some(CsvParseError);
        case Parsed(csv) =>
          var validData := UploadedRows(csv);
          csvData := Some(validData);
          ProcessCsvData(validData, geocode);
          FirstUploadedKeyNonEmpty(geocode, validData);
      }
    }
  }
}
