// The location block: the venue, an embedded map, and buttons that open the
// venue in Google Maps and in 2GIS.

module LocationBlock {
  import opened Wrappers
  import opened Text
  import opened Types

  const NoPlace := "Место не указано"

  /** Coordinates count only when both are non-zero: zero is false in a condition. */
  predicate HasCoordinates(venue: Option<Venue>)
  {
    venue.Some? && venue.value.lat != 0.0 && venue.value.lng != 0.0
  }

  /** What the Google Maps button opens. */
  datatype MapsTarget = MapsLink(url: string) | MapsQuery(lat: real, lng: real) | MapsNothing

  /** What the 2GIS button opens; a route takes longitude before latitude. */
  datatype TwoGisTarget = TwoGisFirm(firmId: string) | TwoGisRoute(lng: real, lat: real) | TwoGisNothing

  /** The Google Maps target: the venue's own map link, else a query on the coordinates, else nothing. */
  function GoogleMapsTarget(venue: Option<Venue>): (t: MapsTarget)
    ensures venue.Some? && venue.value.mapUrl != "" ==> t == MapsLink(venue.value.mapUrl)
    ensures (venue.None? || venue.value.mapUrl == "") && HasCoordinates(venue) ==>
      t == MapsQuery(venue.value.lat, venue.value.lng)
    ensures t.MapsNothing? <==> (venue.None? || venue.value.mapUrl == "") && !HasCoordinates(venue)
  {
    if venue.Some? && venue.value.mapUrl != "" then MapsLink(venue.value.mapUrl)
    else if HasCoordinates(venue) then MapsQuery(venue.value.lat, venue.value.lng)
    else MapsNothing
  }

  /** The 2GIS target: the venue's firm page, else a route to the coordinates, else nothing. */
  function TwoGisTargetOf(venue: Option<Venue>): (t: TwoGisTarget)
    ensures venue.Some? && Truthy(venue.value.twoGisId) ==> t == TwoGisFirm(venue.value.twoGisId.value)
    ensures (venue.None? || !Truthy(venue.value.twoGisId)) && HasCoordinates(venue) ==>
      t == TwoGisRoute(venue.value.lng, venue.value.lat)
    ensures t.TwoGisNothing? <==> (venue.None? || !Truthy(venue.value.twoGisId)) && !HasCoordinates(venue)
  {
    if venue.Some? && Truthy(venue.value.twoGisId) then TwoGisFirm(venue.value.twoGisId.value)
    else if HasCoordinates(venue) then TwoGisRoute(venue.value.lng, venue.value.lat)
    else TwoGisNothing
  }

  /** The address a Maps target opens; `numText` is the way a number is written out. */
  function MapsUrl(t: MapsTarget, numText: real -> string): Option<string>
  {
    match t
    case MapsLink(url) => Some(url)
    case MapsQuery(lat, lng) => Some("https://www.google.com/maps?q=" + numText(lat) + "," + numText(lng))
    case MapsNothing => None
  }

  /** The address a 2GIS target opens: the Almaty firm page, or the app's route search. */
  function TwoGisUrl(t: TwoGisTarget, numText: real -> string): Option<string>
  {
    match t
    case TwoGisFirm(id) => Some("https://2gis.kz/almaty/firm/" + id)
    case TwoGisRoute(lng, lat) => Some("dgis://2gis.kz/routeSearch/to/" + numText(lng) + "," + numText(lat))
    case TwoGisNothing => None
  }

  datatype LocationView = LocationView(
    venueName: string,
    addressLine: Option<string>,
    /** The coordinates of the embedded map, when it is shown. */
    embed: Option<(real, real)>,
    buttonsDisabled: bool,
    maps: MapsTarget,
    twoGis: TwoGisTarget)

  /**
   * What the location block shows. The name falls back to the "not given" text; the address
   * line appears only for a non-empty address; the map is embedded only with coordinates and
   * outside the preview; both buttons are disabled in the preview.
   */
  function Location(data: EventData, theme: ThemeConfig, variant: string, isPreview: bool): (v: LocationView)
    ensures v.venueName == (if data.venue.Some? then OrDefault(data.venue.value.name, NoPlace) else NoPlace)
    ensures v.addressLine.Some? <==> data.venue.Some? && data.venue.value.address != ""
    ensures v.addressLine.Some? ==> v.addressLine.value == data.venue.value.address
    ensures v.embed.Some? <==> HasCoordinates(data.venue) && !isPreview
    ensures v.embed.Some? ==> v.embed.value == (data.venue.value.lat, data.venue.value.lng)
    ensures v.buttonsDisabled <==> isPreview
    ensures v.maps == GoogleMapsTarget(data.venue) && v.twoGis == TwoGisTargetOf(data.venue)
  {
    var venue := data.venue;
    LocationView(
      if venue.Some? then OrDefault(venue.value.name, NoPlace) else NoPlace,
      if venue.Some? && venue.value.address != "" then Some(venue.value.address) else None,
      if HasCoordinates(venue) && !isPreview then Some((venue.value.lat, venue.value.lng)) else None,
      isPreview,
      GoogleMapsTarget(venue),
      TwoGisTargetOf(venue))
  }

  /** A venue at latitude or longitude zero is treated as having no coordinates at all. */
  lemma ZeroCoordinateIsMissing(venue: Venue, isPreview: bool)
    requires venue.lat == 0.0 || venue.lng == 0.0
    requires venue.mapUrl == "" && !Truthy(venue.twoGisId)
    ensures GoogleMapsTarget(Some(venue)).MapsNothing? && TwoGisTargetOf(Some(venue)).TwoGisNothing?
  {
  }

  /** With coordinates and no explicit links, both buttons point at the same place, 2GIS naming longitude first. */
  lemma ButtonsAgreeOnPlace(venue: Venue)
    requires HasCoordinates(Some(venue)) && venue.mapUrl == "" && !Truthy(venue.twoGisId)
    ensures var m := GoogleMapsTarget(Some(venue)); var g := TwoGisTargetOf(Some(venue));
      m.MapsQuery? && g.TwoGisRoute? && m.lat == g.lat && m.lng == g.lng
  {
  }
}
