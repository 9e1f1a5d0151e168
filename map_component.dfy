/**
 * The marker list of level 2's map (frontend/src/components/MapComponent.jsx):
 * markers are added by clicking the map or by typing coordinates, removed one
 * at a time or all at once, and five or more of them count as a solution. The
 * map rendering, the centring on a new marker and the alerts are not modelled.
 */
module MapComponent {
  import opened Common
  import opened Text

  datatype LatLng = LatLng(lat: real, lng: real)

  /** The number of markers that makes a solution. */
  const MarkersNeeded := 5

  /** Latitude and longitude that `addSearchMarker` accepts. */
  predicate InRange(lat: real, lng: real) {
    -90.0 <= lat <= 90.0 && -180.0 <= lng <= 180.0
  }

  /** `markers.filter((_, i) => i !== index)`, walking the list from position `offset`. */
  function FilterOutIndex(markers: seq<LatLng>, index: int, offset: int): seq<LatLng> {
    if markers == [] then []
    else (if offset != index then [markers[0]] else []) + FilterOutIndex(markers[1..], index, offset + 1)
  }

  /** The filter drops exactly the marker at `index` and keeps the rest in order; any other index drops nothing. */
  lemma {:induction false} FilterOutIndexSpec(markers: seq<LatLng>, index: int, offset: int)
    ensures offset <= index < offset + |markers| ==>
      FilterOutIndex(markers, index, offset) == markers[..index - offset] + markers[index - offset + 1..]
    ensures !(offset <= index < offset + |markers|) ==> FilterOutIndex(markers, index, offset) == markers
    decreases |markers|
  {
    if markers != [] {
      var rest := FilterOutIndex(markers[1..], index, offset + 1);
      assert FilterOutIndex(markers, index, offset) == (if offset != index then [markers[0]] else []) + rest;
      FilterOutIndexSpec(markers[1..], index, offset + 1);
      if offset == index {
        assert markers[index - offset + 1..] == markers[1..];
      } else if offset < index < offset + |markers| {
        assert markers[..index - offset] == [markers[0]] + markers[1..][..index - offset - 1];
        assert markers[index - offset + 1..] == markers[1..][index - offset..];
      } else {
        assert markers == [markers[0]] + markers[1..];
      }
    }
  }

  class MapView {
    var markers: seq<LatLng>
    var searchLat: string
    var searchLng: string

    constructor ()
      ensures markers == [] && searchLat == "" && searchLng == ""
    {
      markers := [];
      searchLat := "";
      searchLng := "";
    }

    /** `isSolution`: at least five markers. */
    predicate IsSolution()
      reads this
    {
      |markers| >= MarkersNeeded
    }

    /** `addMarker`, also the map's click handler: the position goes at the end. */
    method AddMarker(position: LatLng)
      modifies this
      ensures markers == old(markers) + [position]
      ensures searchLat == old(searchLat) && searchLng == old(searchLng)
    {
      markers := markers + [position];
    }

    /** Typing into the latitude field. */
    method SetSearchLat(text: string)
      modifies this
      ensures searchLat == text && searchLng == old(searchLng) && markers == old(markers)
    {
      searchLat := text;
    }

    /** Typing into the longitude field. */
    method SetSearchLng(text: string)
      modifies this
      ensures searchLng == text && searchLat == old(searchLat) && markers == old(markers)
    {
      searchLng := text;
    }

    /**
     * `addSearchMarker`: both fields must read as numbers within range; then one
     * marker is appended and both fields are cleared, otherwise nothing changes.
     */
    method AddSearchMarker() returns (added: bool)
      modifies this
      ensures var lat, lng := ParseFloat(old(searchLat)), ParseFloat(old(searchLng));
        added <==> lat.Some? && lng.Some? && InRange(lat.value, lng.value)
      ensures added ==>
        && markers == old(markers) + [LatLng(ParseFloat(old(searchLat)).value, ParseFloat(old(searchLng)).value)]
        && searchLat == "" && searchLng == ""
      ensures !added ==> markers == old(markers) && searchLat == old(searchLat) && searchLng == old(searchLng)
    {
      var lat := ParseFloat(searchLat);
      var lng := ParseFloat(searchLng);
      if lat.None? || lng.None? || !InRange(lat.value, lng.value) {
        return false;
      }
      AddMarker(LatLng(lat.value, lng.value));
      searchLat := "";
      searchLng := "";
      added := true;
    }

    /** `removeMarker(index)`: the marker at `index` goes, the others keep their order; an index off the list changes nothing. */
    method RemoveMarker(index: int)
      modifies this
      ensures 0 <= index < |old(markers)| ==> markers == old(markers)[..index] + old(markers)[index + 1..]
      ensures !(0 <= index < |old(markers)|) ==> markers == old(markers)
      ensures searchLat == old(searchLat) && searchLng == old(searchLng)
    {
      FilterOutIndexSpec(markers, index, 0);
      markers := FilterOutIndex(markers, index, 0);
    }

    /** `clearMarkers`. */
    method ClearMarkers()
      modifies this
      ensures markers == []
      ensures searchLat == old(searchLat) && searchLng == old(searchLng)
    {
      markers := [];
    }

    /**
     * `checkSolution`: calls `onSolve` (the result) exactly when there are at least five
     * markers. The component renders no control that calls it.
     */
    method CheckSolution() returns (solved: bool)
      ensures solved <==> |markers| >= MarkersNeeded
    {
      solved := IsSolution();
    }
  }
}
