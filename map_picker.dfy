/** The map page's location picker (frontend/src/features/Map.tsx): the
    sidebar and pin-mode switches, the map centre, the temporary marker for
    a searched place, and the flag that keeps a programmatic move from being
    reported back as a user's pan. */
module MapPicker {
  import opened Wrappers

  datatype Coords = Coords(latitude: real, longitude: real)

  /** A coordinate pair whose halves may each be unset (`undefined`). */
  datatype MaybeCoords = MaybeCoords(latitude: Option<real>, longitude: Option<real>)

  /** A search result's `properties.lat` / `properties.lon`. */
  datatype Place = Place(lat: real, lon: real)

  const InitialCenter: Coords := Coords(12.97914, 77.61112)

  /** A JavaScript number is truthy when it is defined and not zero. */
  predicate Truthy(x: Option<real>) {
    x.Some? && x.value != 0.0
  }

  /** The children the map renders, by the switches and the marker. */
  datatype Children = Children(
    recenter: Option<Coords>,
    zoomControl: bool,
    centerTracker: bool,
    centerMarker: bool,
    tempMarker: Option<Coords>)

  /** Which children are present: recentring iff pin mode is off; the zoom
      control iff the sidebar is closed; the centre tracker and centre
      marker iff the sidebar is open in pin mode; the temporary marker iff
      the sidebar is open, pin mode is off and both its coordinates are
      truthy. */
  function ChildrenOf(sidebar: bool, pinMode: bool, center: Coords, temp: MaybeCoords): (c: Children)
    ensures c.recenter.Some? <==> !pinMode
    ensures c.recenter.Some? ==> c.recenter.value == center
    ensures c.zoomControl <==> !sidebar
    ensures c.centerTracker <==> sidebar && pinMode
    ensures c.centerMarker <==> c.centerTracker
    ensures c.tempMarker.Some? <==> sidebar && !pinMode && Truthy(temp.latitude) && Truthy(temp.longitude)
    ensures c.tempMarker.Some? ==> c.tempMarker.value == Coords(temp.latitude.value, temp.longitude.value)
  {
    Children(
      if !pinMode then Some(center) else None,
      !sidebar,
      sidebar && pinMode,
      sidebar && pinMode,
      if sidebar && !pinMode && Truthy(temp.latitude) && Truthy(temp.longitude)
      then Some(Coords(temp.latitude.value, temp.longitude.value)) else None)
  }

  /** The centre tracker and recentring are never active together, and the
      temporary marker never shows beside the centre marker. */
  lemma PickerModesExclusive(sidebar: bool, pinMode: bool, center: Coords, temp: MaybeCoords)
    ensures !(ChildrenOf(sidebar, pinMode, center, temp).centerTracker
              && ChildrenOf(sidebar, pinMode, center, temp).recenter.Some?)
    ensures !(ChildrenOf(sidebar, pinMode, center, temp).centerMarker
              && ChildrenOf(sidebar, pinMode, center, temp).tempMarker.Some?)
  {
  }

  /** A place on the equator or the prime meridian is selected but its
      temporary marker is never drawn. */
  lemma ZeroCoordinateHidesMarker(lon: real)
    ensures ChildrenOf(true, false, InitialCenter, MaybeCoords(Some(0.0), Some(lon))).tempMarker.None?
  {
  }

  class Picker {
    var displaySidebar: bool
    var isMapPinMode: bool
    var centerCoords: Coords
    var tempMarker: MaybeCoords
    var isProgrammaticMove: bool

    constructor ()
      ensures !displaySidebar && !isMapPinMode && !isProgrammaticMove
      ensures centerCoords == InitialCenter
      ensures tempMarker == MaybeCoords(None, None)
    {
      displaySidebar, isMapPinMode := false, false;
      centerCoords := InitialCenter;
      tempMarker := MaybeCoords(None, None);
      isProgrammaticMove := false;
    }

    function Children(): Children
      reads this
    {
      ChildrenOf(displaySidebar, isMapPinMode, centerCoords, tempMarker)
    }

    method SetDisplaySidebar(on: bool)
      modifies this
      ensures displaySidebar == on
      ensures isMapPinMode == old(isMapPinMode) && centerCoords == old(centerCoords)
      ensures tempMarker == old(tempMarker) && isProgrammaticMove == old(isProgrammaticMove)
    {
      displaySidebar := on;
    }

    method SetMapPinMode(on: bool)
      modifies this
      ensures isMapPinMode == on
      ensures displaySidebar == old(displaySidebar) && centerCoords == old(centerCoords)
      ensures tempMarker == old(tempMarker) && isProgrammaticMove == old(isProgrammaticMove)
    {
      isMapPinMode := on;
    }

    /** `handlePlaceSelect`: an empty selection changes nothing; a place
        moves both the centre and the temporary marker to it and raises the
        flag until the reset timer fires. Returns whether a reset was
        scheduled. */
    method PlaceSelect(value: Option<Place>) returns (resetScheduled: bool)
      modifies this
      ensures resetScheduled <==> value.Some?
      ensures value.None? ==>
        && centerCoords == old(centerCoords) && tempMarker == old(tempMarker)
        && isProgrammaticMove == old(isProgrammaticMove)
      ensures value.Some? ==>
        && centerCoords == Coords(value.value.lat, value.value.lon)
        && tempMarker == MaybeCoords(Some(value.value.lat), Some(value.value.lon))
        && isProgrammaticMove
      ensures displaySidebar == old(displaySidebar) && isMapPinMode == old(isMapPinMode)
    {
      resetScheduled := false;
      if value.Some? {
        var p := value.value;
        isProgrammaticMove := true;
        centerCoords := Coords(p.lat, p.lon);
        tempMarker := MaybeCoords(Some(p.lat), Some(p.lon));
        resetScheduled := true;
      }
    }

    /** The 100 ms reset timer firing: only the flag goes down. */
    method ResetTimerFired()
      modifies this
      ensures !isProgrammaticMove
      ensures displaySidebar == old(displaySidebar) && isMapPinMode == old(isMapPinMode)
      ensures centerCoords == old(centerCoords) && tempMarker == old(tempMarker)
    {
      isProgrammaticMove := false;
    }

    /** `handleMapCenterChange`: the reported centre is taken only when the
        move was not programmatic. */
    method MapCenterChange(lat: real, lng: real)
      modifies this
      ensures centerCoords == if old(isProgrammaticMove) then old(centerCoords) else Coords(lat, lng)
      ensures displaySidebar == old(displaySidebar) && isMapPinMode == old(isMapPinMode)
      ensures tempMarker == old(tempMarker) && isProgrammaticMove == old(isProgrammaticMove)
    {
      if !isProgrammaticMove {
        centerCoords := Coords(lat, lng);
      }
    }
  }

  /** Selecting a place and then hearing the map report its own move keeps
      the selected place as the centre. */
  method SelectedPlaceSurvivesEcho(p: Picker, place: Place, lat: real, lng: real)
    modifies p
    ensures p.centerCoords == Coords(place.lat, place.lon)
    ensures p.isProgrammaticMove
  {
    var _ := p.PlaceSelect(Some(place));
    p.MapCenterChange(lat, lng);
  }

  /** The page around the map: loading, then an error, then the map. */
  datatype Page = LoadingText | ErrorText(message: string) | MapView(children: Children, issueMarkers: seq<Coords>) | Nothing

  /** `Error: ` + the message, and one marker per issue. */
  function PageOf(loading: bool, error: Option<string>, issues: Option<seq<Coords>>, c: Children): (pg: Page)
    ensures pg.LoadingText? <==> loading
    ensures pg.ErrorText? <==> !loading && error.Some?
    ensures pg.ErrorText? ==> pg.message == "Error: " + error.value
    ensures pg.MapView? <==> !loading && error.None? && issues.Some?
    ensures pg.MapView? ==> pg.children == c && pg.issueMarkers == issues.value
  {
    if loading then LoadingText
    else if error.Some? then ErrorText("Error: " + error.value)
    else if issues.Some? then MapView(c, issues.value)
    else Nothing
  }
}
