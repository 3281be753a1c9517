/**
 * The data shaping of app/components/SightingsMap.tsx: which records become markers, which
 * points the viewport is fitted to, and when the "Showing 500 of n" line appears.
 */
module SightingsMap {
  import opened SightingTypes
  import opened Seqs
  import opened Strings

  /** Markers drawn at most. */
  const DisplayLimit: nat := 500

  /** A marker's `[latitude, longitude]`. */
  datatype Position = Position(lat: Cell, lng: Cell)

  /** The popup's contents; `image` is the `<img>` source when the image is rendered. */
  datatype Popup = Popup(
    title: string,
    location: string,
    date: string,
    time: string,
    notes: string,
    image: Option<string>)

  datatype Marker = Marker(position: Position, popup: Popup)

  /** What the component hands to the map: the fit request of MapBounds, the markers, the notice. */
  datatype Rendered = Rendered(fitBounds: Option<seq<Position>>, markers: seq<Marker>, notice: Option<nat>)

  function PositionOf(s: Sighting): Position {
    Position(s.latitude, s.longitude)
  }

  /** `{sighting['Image Link'] && <img ... />}`: an image only for a non-empty link. */
  function PopupOf(s: Sighting): Popup {
    Popup(s.tag, Join(s.city, s.state), s.date, s.timeOfDay, s.notes,
          if s.imageLink != "" then Some(s.imageLink) else None)
  }

  /** `sightings.slice(0, 500)`. */
  function DisplaySightings(sightings: seq<Sighting>): seq<Sighting> {
    Prefix(sightings, DisplayLimit)
  }

  /** MapBounds: no fit for an empty list, else the bounds of all its points. */
  function FitBoundsRequest(shown: seq<Sighting>): Option<seq<Position>> {
    if |shown| > 0 then Some(seq(|shown|, i requires 0 <= i < |shown| => PositionOf(shown[i])))
    else None
  }

  function MarkersOf(shown: seq<Sighting>): seq<Marker> {
    seq(|shown|, i requires 0 <= i < |shown| => Marker(PositionOf(shown[i]), PopupOf(shown[i])))
  }

  function Render(sightings: seq<Sighting>): Rendered {
    var shown := DisplaySightings(sightings);
    Rendered(FitBoundsRequest(shown), MarkersOf(shown),
             if |sightings| > DisplayLimit then Some(|sightings|) else None)
  }

  /**
   * One marker per displayed record, in order, at that record's coordinates, for the first
   * min(500, n) records; the fit is skipped exactly for an empty list and otherwise covers
   * exactly the marker positions; the notice appears exactly when records were left out and
   * reports n.
   */
  lemma RenderSpec(sightings: seq<Sighting>)
    ensures |Render(sightings).markers| == Min(DisplayLimit, |sightings|)
    ensures forall i :: 0 <= i < |Render(sightings).markers| ==>
      Render(sightings).markers[i] == Marker(PositionOf(sightings[i]), PopupOf(sightings[i]))
    ensures Render(sightings).fitBounds.None? <==> sightings == []
    ensures Render(sightings).fitBounds.Some? ==>
      Render(sightings).fitBounds.value == seq(|Render(sightings).markers|,
        i requires 0 <= i < |Render(sightings).markers| => Render(sightings).markers[i].position)
    ensures Render(sightings).notice.Some? <==> |Render(sightings).markers| < |sightings|
    ensures Render(sightings).notice.Some? ==> Render(sightings).notice.value == |sightings|
  {
  }

  /** Records past the first 500 change neither the fitted bounds nor the markers. */
  lemma TruncatedRecordsIgnored(sightings: seq<Sighting>, more: seq<Sighting>)
    requires |sightings| >= DisplayLimit
    ensures Render(sightings + more).fitBounds == Render(sightings).fitBounds
    ensures Render(sightings + more).markers == Render(sightings).markers
  {
    assert DisplaySightings(sightings + more) == DisplaySightings(sightings);
  }

  /** A popup carries an image exactly when the record's link is non-empty, and then that link. */
  lemma PopupImageSpec(s: Sighting)
    ensures PopupOf(s).image.Some? <==> s.imageLink != ""
    ensures PopupOf(s).image.Some? ==> PopupOf(s).image.value == s.imageLink
  {
  }
}
