/** Uploaded delivery CSVs: cleaning the parsed cells, keeping the complete
    rows, and grouping the deliveries by their start address. */
module CsvRoutes {
  import opened Common
  import opened RouteStops

  /** The CSV as the parser hands it over: the header line and the records,
      each a list of cells in column order. */
  datatype ParsedCsv = ParsedCsv(headers: seq<string>, records: seq<seq<string>>)

  /** The two columns the planner reads from a record; `None` when the
      record has no such column. */
  datatype Row = Row(start: Option<string>, end: Option<string>)

  /** What the geocoder answers for an address: a position, or nothing when
      the request or the reply fails. */
  datatype LatLng = LatLng(lat: real, lng: real)

  /** A geocoded address, named by the address that was looked up. */
  datatype Coordinates = Coordinates(lat: real, lng: real, displayName: string)

  datatype Destination = Destination(address: string, coordinates: Coordinates)

  /** The deliveries that leave from one start address. */
  datatype Group = Group(coordinates: Coordinates, destinations: seq<Destination>)

  predicate IsQuote(c: char) {
    c == '"' || c == '\''
  }

  /** Drops at most one leading and at most one trailing quote character:
      what is left is the middle of `t`. */
  function Unquote(t: string): (r: string)
    ensures |r| <= |t| <= |r| + 2
    ensures t != [] && IsQuote(t[0]) ==> |r| < |t| && r == t[1..1 + |r|]
    ensures t == [] || !IsQuote(t[0]) ==> r == t[..|r|]
    ensures |r| < |t| ==> (IsQuote(t[0]) || IsQuote(t[|t| - 1]))
  {
    var a := if |t| > 0 && IsQuote(t[0]) then 1 else 0;
    var b := if |t| > a && IsQuote(t[|t| - 1]) then |t| - 1 else |t|;
    t[a..b]
  }

  /** The cleaning applied to every header and every cell: trim, then drop
      the quotes at either end. */
  function CleanCell(s: string): string {
    Unquote(Trim(s))
  }

  /** A quoted cell loses exactly its two quotes, whatever is inside. */
  lemma CleanCellUnquotes(q1: char, m: string, q2: char)
    requires IsQuote(q1) && IsQuote(q2)
    ensures CleanCell([q1] + m + [q2]) == m
  {
    var s := [q1] + m + [q2];
    assert !IsWhitespace(s[0]) && !IsWhitespace(s[|s| - 1]);
    TrimKeepsTrimmed(s);
    var t := Trim(s);
    assert t == s;
    assert IsQuote(t[0]) && IsQuote(t[|t| - 1]);
    assert s[1..|s| - 1] == m;
  }

  /** A cell with no quote at either end is only trimmed. */
  lemma CleanCellTrimsUnquoted(s: string)
    requires Trim(s) == [] || (!IsQuote(Trim(s)[0]) && !IsQuote(Trim(s)[|Trim(s)| - 1]))
    ensures CleanCell(s) == Trim(s)
  {
  }

  /** The first column, from `j` on, headed `name`. */
  function ColumnFrom(headers: seq<string>, cells: seq<string>, name: string, j: nat): (r: Option<nat>)
    ensures r.Some? ==> j <= r.value < |headers| && r.value < |cells| && headers[r.value] == name
    ensures r.Some? ==> forall i :: j <= i < r.value ==> headers[i] != name
    ensures r.None? <==> forall i :: j <= i < |headers| && i < |cells| ==> headers[i] != name
    decreases |headers| - j
  {
    if j >= |headers| || j >= |cells| then None
    else if headers[j] == name then Some(j)
    else ColumnFrom(headers, cells, name, j + 1)
  }

  /** The cleaned cell under the first column headed `name`, or `None` when
      the record has no such column. */
  function Field(headers: seq<string>, cells: seq<string>, name: string): (r: Option<string>)
    ensures r.None? <==> forall i :: 0 <= i < |headers| && i < |cells| ==> headers[i] != name
    ensures r.Some? ==> exists i :: 0 <= i < |headers| && i < |cells| && headers[i] == name && r.value == CleanCell(cells[i])
  {
    match ColumnFrom(headers, cells, name, 0)
    case None => None
    case Some(j) => Some(CleanCell(cells[j]))
  }

  /** One parsed record, under the cleaned headers, as the row object the
      planner reads. */
  function CleanRecord(headers: seq<string>, cells: seq<string>): Row {
    Row(Field(headers, cells, "Start"), Field(headers, cells, "End"))
  }

  /** The upload filter: a row is kept when it has a Start and an End that
      are not blank. */
  predicate CompleteRow(r: Row) {
    && r.start.Some? && r.start.value != [] && !IsBlank(r.start.value)
    && r.end.Some? && r.end.value != [] && !IsBlank(r.end.value)
  }

  function CompleteRows(rows: seq<Row>): (r: seq<Row>)
    ensures |r| <= |rows|
    ensures forall x :: x in r <==> x in rows && CompleteRow(x)
    ensures forall x :: multiset(r)[x] == if CompleteRow(x) then multiset(rows)[x] else 0
  {
    if rows == [] then []
    else
      var rest := CompleteRows(rows[..|rows| - 1]);
      assert rows == rows[..|rows| - 1] + [rows[|rows| - 1]];
      if CompleteRow(rows[|rows| - 1]) then rest + [rows[|rows| - 1]] else rest
  }

  /** The rows the upload handler passes on: every record cleaned, the
      incomplete ones dropped. */
  function UploadedRows(csv: ParsedCsv): (r: seq<Row>)
    ensures forall k :: 0 <= k < |r| ==> CompleteRow(r[k])
  {
    var headers := seq(|csv.headers|, i requires 0 <= i < |csv.headers| => CleanCell(csv.headers[i]));
    CompleteRows(seq(|csv.records|, i requires 0 <= i < |csv.records| => CleanRecord(headers, csv.records[i])))
  }

  /** What the geocoder returns for an address: its position, named after the
      address, or nothing. */
  function Geocoded(geocode: string -> Option<LatLng>, address: string): (r: Option<Coordinates>)
    ensures r.None? <==> geocode(address).None?
    ensures r.Some? ==> r.value == Coordinates(geocode(address).value.lat, geocode(address).value.lng, address)
  {
    match geocode(address)
    case None => None
    case Some(p) => Some(Coordinates(p.lat, p.lng, address))
  }

  /** What one row adds to the grouping: its trimmed start address, that
      address's position and the delivery to its trimmed end address. */
  datatype Contribution = Contribution(start: string, startCoords: Coordinates, dest: Destination)

  /** A row contributes when it has a non-empty Start and End and both of
      its addresses geocode. */
  function RowContribution(geocode: string -> Option<LatLng>, row: Row): (r: Option<Contribution>)
    ensures r.Some? ==> row.start.Some? && row.start.value != [] && row.end.Some? && row.end.value != []
    ensures r.Some? ==> r.value.start == Trim(row.start.value) && r.value.dest.address == Trim(row.end.value)
    ensures r.Some? ==> Geocoded(geocode, r.value.start) == Some(r.value.startCoords)
    ensures r.Some? ==> Geocoded(geocode, r.value.dest.address) == Some(r.value.dest.coordinates)
    ensures r.None? ==>
      || row.start.None? || row.start.value == [] || row.end.None? || row.end.value == []
      || Geocoded(geocode, Trim(row.start.value)).None? || Geocoded(geocode, Trim(row.end.value)).None?
  {
    if row.start.None? || row.start.value == [] || row.end.None? || row.end.value == [] then None
    else
      var startAddress := Trim(row.start.value);
      var endAddress := Trim(row.end.value);
      match (Geocoded(geocode, startAddress), Geocoded(geocode, endAddress))
      case (Some(sc), Some(ec)) => Some(Contribution(startAddress, sc, Destination(endAddress, ec)))
      case _ => None
  }

  /** The contributions of `rows`, in row order. */
  function Contributions(geocode: string -> Option<LatLng>, rows: seq<Row>): seq<Contribution> {
    if rows == [] then []
    else
      var before := Contributions(geocode, rows[..|rows| - 1]);
      match RowContribution(geocode, rows[|rows| - 1])
      case None => before
      case Some(c) => before + [c]
  }

  /** The grouped routes: the start addresses in the order the dictionary
      enumerates them, and the group of each. */
  datatype Grouping = Grouping(keys: seq<string>, groups: map<string, Group>)

  ghost predicate WellFormed(g: Grouping) {
    && (forall i, j :: 0 <= i < j < |g.keys| ==> g.keys[i] != g.keys[j])
    && (forall k :: k in g.groups <==> k in g.keys)
  }

  /** One step of the grouping loop: a new start address opens a group with
      that row's start position; the delivery joins the end of its group. */
  function AddContribution(g: Grouping, c: Contribution): Grouping {
    if c.start in g.groups then
      var prev := g.groups[c.start];
      Grouping(g.keys, g.groups[c.start := Group(prev.coordinates, prev.destinations + [c.dest])])
    else
      Grouping(g.keys + [c.start], g.groups[c.start := Group(c.startCoords, [c.dest])])
  }

  function GroupContributions(cs: seq<Contribution>): Grouping {
    if cs == [] then Grouping([], map[])
    else AddContribution(GroupContributions(cs[..|cs| - 1]), cs[|cs| - 1])
  }

  /** The grouping `processCSVData` builds from its rows. */
  function GroupedRoutes(geocode: string -> Option<LatLng>, rows: seq<Row>): Grouping {
    GroupContributions(Contributions(geocode, rows))
  }

  // Reference definitions the grouping is proved against.

  /** The start addresses of `cs`, in order, each kept at its first occurrence. */
  function FirstOccurrences(cs: seq<Contribution>): seq<string> {
    if cs == [] then []
    else
      var before := FirstOccurrences(cs[..|cs| - 1]);
      if cs[|cs| - 1].start in before then before else before + [cs[|cs| - 1].start]
  }

  /** The deliveries of `cs` that leave from `key`, in order. */
  function DestinationsFrom(cs: seq<Contribution>, key: string): seq<Destination> {
    if cs == [] then []
    else
      var before := DestinationsFrom(cs[..|cs| - 1], key);
      if cs[|cs| - 1].start == key then before + [cs[|cs| - 1].dest] else before
  }

  /** The start position carried by the first contribution from `key`. */
  function FirstStartCoords(cs: seq<Contribution>, key: string): Option<Coordinates> {
    if cs == [] then None
    else
      var before := FirstStartCoords(cs[..|cs| - 1], key);
      if before.None? && cs[|cs| - 1].start == key then Some(cs[|cs| - 1].startCoords) else before
  }

  lemma {:induction false} FirstOccurrencesMembers(cs: seq<Contribution>)
    ensures forall k :: k in FirstOccurrences(cs) <==> exists i :: 0 <= i < |cs| && cs[i].start == k
    ensures cs != [] ==> FirstOccurrences(cs)[0] == cs[0].start
  {
    if cs != [] {
      var init := cs[..|cs| - 1];
      FirstOccurrencesMembers(init);
      forall k ensures k in FirstOccurrences(cs) <==> exists i :: 0 <= i < |cs| && cs[i].start == k {
        if k in FirstOccurrences(init) {
          var i :| 0 <= i < |init| && init[i].start == k;
          assert cs[i].start == k;
        }
        if exists i :: 0 <= i < |cs| && cs[i].start == k {
          var i :| 0 <= i < |cs| && cs[i].start == k;
          if i < |init| {
            assert init[i].start == k;
          }
        }
      }
      if |init| > 0 {
        assert init[0] == cs[0];
      }
    }
  }

  /** The grouping loop builds exactly what the reference definitions say:
      one key per distinct start address, in order of first appearance; each
      group carries the position of its first row and every delivery from
      that address, in row order. */
  lemma {:induction false} GroupContributionsSpec(cs: seq<Contribution>)
    ensures WellFormed(GroupContributions(cs))
    ensures GroupContributions(cs).keys == FirstOccurrences(cs)
    ensures forall k :: k in GroupContributions(cs).groups ==>
      && GroupContributions(cs).groups[k].destinations == DestinationsFrom(cs, k)
      && GroupContributions(cs).groups[k].destinations != []
      && FirstStartCoords(cs, k) == Some(GroupContributions(cs).groups[k].coordinates)
  {
    if cs != [] {
      var init := cs[..|cs| - 1];
      var c := cs[|cs| - 1];
      GroupContributionsSpec(init);
      var g := GroupContributions(init);
      var g' := GroupContributions(cs);
      assert g' == AddContribution(g, c);
      forall k | k in g'.groups
        ensures g'.groups[k].destinations == DestinationsFrom(cs, k)
        ensures g'.groups[k].destinations != []
        ensures FirstStartCoords(cs, k) == Some(g'.groups[k].coordinates)
      {
        if k != c.start {
          assert k in g.groups;
        } else if k !in g.groups {
          assert DestinationsFrom(init, k) == [] by {
            DestinationsAbsent(init, k);
          }
          assert FirstStartCoords(init, k) == None by {
            DestinationsAbsent(init, k);
          }
        }
      }
      if c.start !in g.groups {
        forall i, j | 0 <= i < j < |g'.keys| ensures g'.keys[i] != g'.keys[j] {
          if j == |g'.keys| - 1 {
            assert g'.keys[i] == g.keys[i];
            assert g'.keys[i] in g.groups;
          }
        }
      }
    }
  }

  /** A start address that no contribution uses has no deliveries and no
      position. */
  lemma {:induction false} DestinationsAbsent(cs: seq<Contribution>, key: string)
    requires key !in GroupContributions(cs).groups
    ensures DestinationsFrom(cs, key) == [] && FirstStartCoords(cs, key) == None
  {
    if cs != [] {
      var init := cs[..|cs| - 1];
      assert key != cs[|cs| - 1].start;
      assert key !in GroupContributions(init).groups;
      DestinationsAbsent(init, key);
    }
  }

  /** The same facts stated on the rows: a start address is a key exactly
      when some row contributes from it, and its group's position is that
      address's geocoded position, named after the address. */
  lemma GroupedRoutesSpec(geocode: string -> Option<LatLng>, rows: seq<Row>)
    ensures var g := GroupedRoutes(geocode, rows);
      && WellFormed(g)
      && g.keys == FirstOccurrences(Contributions(geocode, rows))
      && forall k :: k in g.groups ==>
        && g.groups[k].destinations == DestinationsFrom(Contributions(geocode, rows), k)
        && g.groups[k].destinations != []
        && Geocoded(geocode, k) == Some(g.groups[k].coordinates)
  {
    var cs := Contributions(geocode, rows);
    GroupContributionsSpec(cs);
    ContributionsGeocoded(geocode, rows);
    var g := GroupedRoutes(geocode, rows);
    forall k | k in g.groups ensures Geocoded(geocode, k) == Some(g.groups[k].coordinates) {
      FirstStartCoordsGeocoded(geocode, cs, k);
    }
  }

  /** Every contribution's start position is the geocoded start address. */
  lemma {:induction false} ContributionsGeocoded(geocode: string -> Option<LatLng>, rows: seq<Row>)
    ensures forall i :: 0 <= i < |Contributions(geocode, rows)| ==>
      Geocoded(geocode, Contributions(geocode, rows)[i].start) == Some(Contributions(geocode, rows)[i].startCoords)
  {
    if rows != [] {
      ContributionsGeocoded(geocode, rows[..|rows| - 1]);
    }
  }

  lemma {:induction false} FirstStartCoordsGeocoded(geocode: string -> Option<LatLng>, cs: seq<Contribution>, key: string)
    requires forall i :: 0 <= i < |cs| ==> Geocoded(geocode, cs[i].start) == Some(cs[i].startCoords)
    ensures FirstStartCoords(cs, key).Some? ==> Geocoded(geocode, key) == FirstStartCoords(cs, key)
  {
    if cs != [] {
      var init := cs[..|cs| - 1];
      assert forall i :: 0 <= i < |init| ==> init[i] == cs[i];
      FirstStartCoordsGeocoded(geocode, init, key);
    }
  }

  /** After the upload filter no start address is blank, so when any row
      contributes the first key is a non-empty string and gets selected. */
  lemma {:induction false} UploadedKeysNonEmpty(geocode: string -> Option<LatLng>, rows: seq<Row>)
    requires forall k :: 0 <= k < |rows| ==> CompleteRow(rows[k])
    ensures forall i :: 0 <= i < |Contributions(geocode, rows)| ==> Contributions(geocode, rows)[i].start != []
  {
    if rows != [] {
      var init, last := rows[..|rows| - 1], rows[|rows| - 1];
      assert forall k :: 0 <= k < |init| ==> init[k] == rows[k];
      UploadedKeysNonEmpty(geocode, init);
      var before := Contributions(geocode, init);
      match RowContribution(geocode, last)
      case None =>
      case Some(c) =>
        assert CompleteRow(last) && c.start == Trim(last.start.value);
        assert Contributions(geocode, rows) == before + [c];
    }
  }

  /** So the first group key of uploaded rows is never empty, and the
      planner always shows that group. */
  lemma FirstUploadedKeyNonEmpty(geocode: string -> Option<LatLng>, rows: seq<Row>)
    requires forall k :: 0 <= k < |rows| ==> CompleteRow(rows[k])
    ensures GroupedRoutes(geocode, rows).keys != [] ==> GroupedRoutes(geocode, rows).keys[0] != []
  {
    var cs := Contributions(geocode, rows);
    GroupContributionsSpec(cs);
    FirstOccurrencesMembers(cs);
    UploadedKeysNonEmpty(geocode, rows);
  }

  /** Grouping one more row adds that row's contribution, if it has one. */
  lemma GroupedRoutesStep(geocode: string -> Option<LatLng>, rows: seq<Row>, i: nat)
    requires i < |rows|
    ensures GroupedRoutes(geocode, rows[..i + 1]) ==
      match RowContribution(geocode, rows[i])
      case None => GroupedRoutes(geocode, rows[..i])
      case Some(c) => AddContribution(GroupedRoutes(geocode, rows[..i]), c)
  {
    assert rows[..i + 1][..i] == rows[..i];
    var before := Contributions(geocode, rows[..i]);
    match RowContribution(geocode, rows[i])
    case None =>
    case Some(c) =>
      assert (before + [c])[..|before|] == before;
  }

  /** The loop of `processCSVData`: the rows are visited in order and each
      contributing row is added to the dictionary being built. */
  method GroupRows(geocode: string -> Option<LatLng>, rows: seq<Row>) returns (keys: seq<string>, grouped: map<string, Group>)
    ensures Grouping(keys, grouped) == GroupedRoutes(geocode, rows)
  {
    keys, grouped := [], map[];
    for i := 0 to |rows|
      invariant Grouping(keys, grouped) == GroupedRoutes(geocode, rows[..i])
    {
      GroupedRoutesStep(geocode, rows, i);
      var row := rows[i];
      if row.start.None? || row.start.value == [] || row.end.None? || row.end.value == [] {
        continue;
      }
      var startAddress := Trim(row.start.value);
      var endAddress := Trim(row.end.value);
      var startCoords := Geocoded(geocode, startAddress);
      var endCoords := Geocoded(geocode, endAddress);
      if startCoords.Some? && endCoords.Some? {
        ghost var c := Contribution(startAddress, startCoords.value, Destination(endAddress, endCoords.value));
        assert RowContribution(geocode, row) == Some(c);
        ghost var expected := AddContribution(Grouping(keys, grouped), c);
        ghost var grouped0 := grouped;
        if startAddress !in grouped {
          keys := keys + [startAddress];
          grouped := grouped[startAddress := Group(startCoords.value, [])];
        }
        var g := grouped[startAddress];
        grouped := grouped[startAddress := Group(g.coordinates, g.destinations + [Destination(endAddress, endCoords.value)])];
        if startAddress !in grouped0 {
          assert [] + [c.dest] == [c.dest];
          assert grouped == grouped0[startAddress := Group(c.startCoords, [c.dest])];
        }
        assert Grouping(keys, grouped) == expected;
      }
    }
    assert rows[..|rows|] == rows;
  }

  /** The route data handed to `loadRouteForStartLocation`; either part may
      be absent. */
  datatype RouteData = RouteData(coordinates: Option<Coordinates>, destinations: Option<seq<Destination>>)

  function GroupRouteData(g: Group): RouteData {
    RouteData(Some(g.coordinates), Some(g.destinations))
  }

  /** The stop list built for one start address, or `None` when the route
      data lacks its position or its deliveries: the start, then one
      waypoint per delivery in order, and no end entry. A delivery with an
      empty address is shown under its geocoded name. */
  function StopsForGroup(startLocation: string, data: Option<RouteData>): (r: Option<seq<Location>>)
    ensures r.None? <==> data.None? || data.value.coordinates.None? || data.value.destinations.None?
    ensures r.Some? ==> |r.value| == 1 + |data.value.destinations.value|
    ensures r.Some? ==> r.value[0] == Location(Start, startLocation, Some(data.value.coordinates.value.lat), Some(data.value.coordinates.value.lng))
    ensures r.Some? ==> forall k :: 1 <= k < |r.value| ==>
      var d := data.value.destinations.value[k - 1];
      r.value[k] == Location(Waypoint, if d.address != [] then d.address else d.coordinates.displayName,
                             Some(d.coordinates.lat), Some(d.coordinates.lng))
  {
    if data.None? || data.value.coordinates.None? || data.value.destinations.None? then None
    else
      var c := data.value.coordinates.value;
      var ds := data.value.destinations.value;
      Some([Location(Start, startLocation, Some(c.lat), Some(c.lng))]
           + seq(|ds|, i requires 0 <= i < |ds| =>
               Location(Waypoint, if ds[i].address != [] then ds[i].address else ds[i].coordinates.displayName,
                        Some(ds[i].coordinates.lat), Some(ds[i].coordinates.lng))))
  }

  /** A list loaded from a group has exactly one start, at the front, and no
      end entry. */
  lemma LoadedStopsHaveNoEnd(startLocation: string, g: Group)
    ensures var r := StopsForGroup(startLocation, Some(GroupRouteData(g)));
      && r.Some? && r.value[0].kind == Start
      && forall k :: 1 <= k < |r.value| ==> r.value[k].kind == Waypoint
  {
  }
}
