/** The route planner's ordered stop list: a start, waypoints and an end,
    and the list edits the planner performs on it. */
module RouteStops {
  import opened Common

  datatype StopKind = Start | Waypoint | End

  /** One entry of the stop list. A coordinate is `None` until the user picks
      a suggestion (the source's `null`). */
  datatype Location = Location(kind: StopKind, address: string, lat: Option<real>, lng: Option<real>)

  /** A place offered by the address search. */
  datatype Suggestion = Suggestion(displayName: string, lat: real, lng: real)

  /** The entry the "+ Add Waypoint" button inserts. */
  function BlankWaypoint(): (b: Location)
    ensures b.kind == Waypoint && b.address == [] && b.lat.None? && b.lng.None?
  {
    Location(Waypoint, "", None, None)
  }

  /** The stop list the planner starts with: blank start, waypoint and end. */
  function InitialStops(): (s: seq<Location>)
    ensures WellShaped(s) && |s| == 3
    ensures forall k :: 0 <= k < |s| ==> s[k].address == [] && s[k].lat.None? && s[k].lng.None?
  {
    [Location(Start, "", None, None), BlankWaypoint(), Location(End, "", None, None)]
  }

  /** The shape the editing buttons keep: the start first, the end last and
      only waypoints in between. */
  predicate WellShaped(s: seq<Location>) {
    && |s| >= 2
    && s[0].kind == Start
    && s[|s| - 1].kind == End
    && forall k :: 0 < k < |s| - 1 ==> s[k].kind == Waypoint
  }

  /** The card heading of the entry at `index`. */
  function LocationLabel(kind: StopKind, index: nat): (r: string)
    ensures kind == Start ==> r == "Starting Point"
    ensures kind == End ==> r == "Destination"
    ensures kind == Waypoint ==> |r| > 9 && r[..9] == "Waypoint "
    ensures kind == Waypoint ==> forall k :: 9 <= k < |r| ==> IsDigit(r[k])
    ensures kind == Waypoint ==> DigitsValue(r[9..]) == index
  {
    match kind
    case Start => "Starting Point"
    case End => "Destination"
    case Waypoint =>
      var r := "Waypoint " + NatToString(index);
      assert r[9..] == NatToString(index);
      NatToStringRoundTrip(index);
      r
  }

  /** The CSS class of an entry's card. */
  function LocationTypeClass(kind: StopKind): (r: string)
    ensures |r| > 9 && r[..9] == "location-"
    ensures r[9..] == match kind case Start => "start" case End => "end" case Waypoint => "waypoint"
  {
    match kind
    case Start => "location-start"
    case End => "location-end"
    case Waypoint => "location-waypoint"
  }

  /** Two kinds of entry never share a card class. */
  lemma TypeClassInjective(a: StopKind, b: StopKind)
    ensures LocationTypeClass(a) == LocationTypeClass(b) ==> a == b
  {
    if LocationTypeClass(a) == LocationTypeClass(b) {
      assert LocationTypeClass(a)[9..] == LocationTypeClass(b)[9..];
    }
  }

  /** The list after "+ Add Waypoint": a blank waypoint goes in just before
      the last entry, which stays last; everything before is untouched. */
  function WithWaypointBeforeLast(s: seq<Location>): (r: seq<Location>)
    requires s != []
    ensures |r| == |s| + 1
    ensures r[|r| - 1] == s[|s| - 1]
    ensures r[|r| - 2] == BlankWaypoint()
    ensures forall k :: 0 <= k < |s| - 1 ==> r[k] == s[k]
  {
    s[..|s| - 1] + [BlankWaypoint()] + [s[|s| - 1]]
  }

  /** Adding a waypoint keeps the start first and the end last. */
  lemma AddWaypointKeepsShape(s: seq<Location>)
    requires WellShaped(s)
    ensures WellShaped(WithWaypointBeforeLast(s))
  {
    var r := WithWaypointBeforeLast(s);
    forall k | 0 < k < |r| - 1 ensures r[k].kind == Waypoint {
      if k < |s| - 1 {
        assert r[k] == s[k];
      }
    }
  }

  /** Where `Array.prototype.splice(index, 1)` starts removing: a negative
      index counts from the end, and both ends are clamped. */
  function SpliceStart(len: nat, index: int): (k: nat)
    ensures k <= len
    ensures 0 <= index <= len ==> k == index
    ensures index > len ==> k == len
    ensures index < 0 ==> k == if len + index < 0 then 0 else len + index
  {
    if index < 0 then (if len + index < 0 then 0 else len + index)
    else if index > len then len
    else index
  }

  /** `s` after `splice(index, 1)`: the one entry at the splice position is
      gone, if there is one, and the others keep their order. */
  function SpliceOne<T>(s: seq<T>, index: int): (r: seq<T>)
    ensures SpliceStart(|s|, index) < |s| ==> |r| == |s| - 1
    ensures SpliceStart(|s|, index) == |s| ==> r == s
    ensures forall k :: 0 <= k < SpliceStart(|s|, index) && k < |r| ==> r[k] == s[k]
    ensures forall k :: SpliceStart(|s|, index) <= k < |r| ==> r[k] == s[k + 1]
  {
    var k := SpliceStart(|s|, index);
    if k < |s| then s[..k] + s[k + 1..] else s
  }

  /** Removing one entry takes away exactly that entry. */
  lemma SpliceOneRemovesOne<T>(s: seq<T>, index: int)
    requires 0 <= index < |s|
    ensures multiset(SpliceOne(s, index)) + multiset{s[index]} == multiset(s)
  {
    assert s == s[..index] + [s[index]] + s[index + 1..];
  }

  /** Removing a waypoint (never the start or the end) from a list that has
      more than one waypoint keeps the start first and the end last. */
  lemma RemoveWaypointKeepsShape(s: seq<Location>, index: int)
    requires WellShaped(s) && |s| > 3
    requires 0 < index < |s| - 1
    ensures WellShaped(SpliceOne(s, index))
  {
    var r := SpliceOne(s, index);
    assert r[0] == s[0];
    assert r[|r| - 1] == s[|s| - 1];
    forall k | 0 < k < |r| - 1 ensures r[k].kind == Waypoint {
      if k < index { assert r[k] == s[k]; } else { assert r[k] == s[k + 1]; }
    }
  }

  /** The entry at `index` after the user types `value` into it: the new
      address, and no coordinates until a suggestion is picked again. */
  function WithAddressTyped(s: seq<Location>, index: nat, value: string): (r: seq<Location>)
    requires index < |s|
    ensures |r| == |s|
    ensures r[index].kind == s[index].kind && r[index].address == value
    ensures r[index].lat.None? && r[index].lng.None?
    ensures forall k :: 0 <= k < |s| && k != index ==> r[k] == s[k]
  {
    s[index := s[index].(address := value, lat := None, lng := None)]
  }

  /** The entry at `index` after a suggestion is picked: it keeps its kind
      and takes the suggestion's name and coordinates. */
  function WithSuggestionPicked(s: seq<Location>, index: nat, choice: Suggestion): (r: seq<Location>)
    requires index < |s|
    ensures |r| == |s|
    ensures r[index] == Location(s[index].kind, choice.displayName, Some(choice.lat), Some(choice.lng))
    ensures forall k :: 0 <= k < |s| && k != index ==> r[k] == s[k]
  {
    s[index := s[index].(address := choice.displayName, lat := Some(choice.lat), lng := Some(choice.lng))]
  }

  /** Editing one entry's text or picking its suggestion never changes the
      kind of any entry, so the list keeps its shape. */
  lemma EditsKeepShape(s: seq<Location>, index: nat, value: string, choice: Suggestion)
    requires WellShaped(s) && index < |s|
    ensures WellShaped(WithAddressTyped(s, index, value))
    ensures WellShaped(WithSuggestionPicked(s, index, choice))
  {
    var t := WithAddressTyped(s, index, value);
    var u := WithSuggestionPicked(s, index, choice);
    forall k | 0 <= k < |s| ensures t[k].kind == s[k].kind && u[k].kind == s[k].kind {
    }
  }

  // ---------------------------------------------------------------------
  // Entry objects. The handlers copy the stop array but keep its entry
  // objects, and typing writes into the entry object itself, so every array
  // holding that object sees the new address. Each entry object is given an
  // identity number; a stop list comes with the identities of its entries.

  /** No entry object occurs twice in one list. */
  predicate DistinctIds(ids: seq<nat>) {
    forall i, j :: 0 <= i < j < |ids| ==> ids[i] != ids[j]
  }

  /** Every identity in the list was handed out before `next`. */
  predicate IdsBelow(ids: seq<nat>, next: nat) {
    forall k :: 0 <= k < |ids| ==> ids[k] < next
  }

  /** The identities of `n` entry objects created together. */
  function FreshIds(next: nat, n: nat): (ids: seq<nat>)
    ensures |ids| == n && DistinctIds(ids) && IdsBelow(ids, next + n)
    ensures forall k :: 0 <= k < n ==> next <= ids[k]
  {
    seq(n, k requires 0 <= k < n => next + k)
  }

  /** The identities after "+ Add Waypoint": the new object `newId` goes in
      before the last one. */
  function FreshBeforeLast(ids: seq<nat>, newId: nat): (r: seq<nat>)
    requires ids != []
    ensures |r| == |ids| + 1
  {
    ids[..|ids| - 1] + [newId] + [ids[|ids| - 1]]
  }

  /** A newly created object keeps the identities of a list distinct,
      whether it is inserted before the last entry or replaces one. */
  lemma FreshKeepsDistinct(ids: seq<nat>, next: nat, index: nat)
    requires DistinctIds(ids) && IdsBelow(ids, next)
    ensures ids != [] ==> DistinctIds(FreshBeforeLast(ids, next)) && IdsBelow(FreshBeforeLast(ids, next), next + 1)
    ensures index < |ids| ==> DistinctIds(ids[index := next]) && IdsBelow(ids[index := next], next + 1)
  {
    if ids != [] {
      var r := FreshBeforeLast(ids, next);
      assert forall k :: 0 <= k < |r| ==> r[k] == (if k < |ids| - 1 then ids[k] else if k == |ids| - 1 then next else ids[|ids| - 1]);
    }
  }

  /** Taking one entry out keeps the identities distinct. */
  lemma SpliceKeepsDistinct(ids: seq<nat>, next: nat, index: int)
    requires DistinctIds(ids) && IdsBelow(ids, next)
    ensures DistinctIds(SpliceOne(ids, index)) && IdsBelow(SpliceOne(ids, index), next)
  {
    var r := SpliceOne(ids, index);
    var at := SpliceStart(|ids|, index);
    assert forall k :: 0 <= k < |r| ==> r[k] == ids[if k < at then k else k + 1];
  }

  /** A stop list after the user types `value` into the entry object `id`:
      those of its entries that are that object show the new address and
      have lost their coordinates; the others are untouched. */
  function TypedInto(stops: seq<Location>, ids: seq<nat>, id: nat, value: string): (r: seq<Location>)
    requires |ids| == |stops|
    ensures |r| == |stops|
  {
    seq(|stops|, k requires 0 <= k < |stops| =>
      if ids[k] == id then stops[k].(address := value, lat := None, lng := None) else stops[k])
  }

  /** In a list of distinct objects, typing into the object of one entry is
      typing into that entry. */
  lemma TypedIntoEntry(stops: seq<Location>, ids: seq<nat>, index: nat, value: string)
    requires |ids| == |stops| && DistinctIds(ids) && index < |stops|
    ensures TypedInto(stops, ids, ids[index], value) == WithAddressTyped(stops, index, value)
  {
  }

  /** A list that does not hold the object is untouched by typing into it. */
  lemma TypedIntoOtherObject(stops: seq<Location>, ids: seq<nat>, id: nat, value: string)
    requires |ids| == |stops| && forall k :: 0 <= k < |ids| ==> ids[k] != id
    ensures TypedInto(stops, ids, id, value) == stops
  {
  }
}
