/** `resolve_center`: the point every radius test and distance is measured from. */
module Center {
  import opened Wrappers
  import opened Models
  import opened Geo
  import opened Config

  /** The two errors `resolve_center` raises. */
  datatype CenterError =
    | MissingCenter              // ValueError: neither both coordinates nor an address
    | GeocodeFailed(address: string)  // RuntimeError: the geocoder found no match

  /** Both centre coordinates are configured. */
  predicate HasCenterCoords(config: AppConfig) {
    config.centerLat.Some? && config.centerLon.Some?
  }

  /** Explicit coordinates win; otherwise a non-empty address is geocoded. */
  function ResolveCenter(config: AppConfig, geocode: Geocoder): (r: Result<Location, CenterError>)
    ensures HasCenterCoords(config) ==>
              r == Ok(Location(config.centerLat.value, config.centerLon.value))
    ensures r == Err(MissingCenter) <==>
              !HasCenterCoords(config) && (config.centerAddress.None? || config.centerAddress.value == [])
    ensures r.Err? && r.error.GeocodeFailed? <==>
              !HasCenterCoords(config) && config.centerAddress.Some? && config.centerAddress.value != [] &&
              geocode(config.centerAddress.value).None?
    ensures r.Err? && r.error.GeocodeFailed? ==> r.error.address == config.centerAddress.value
    ensures r.Ok? && !HasCenterCoords(config) ==>
              config.centerAddress.Some? && geocode(config.centerAddress.value) == Some(r.value)
  {
    if HasCenterCoords(config) then
      Ok(Location(config.centerLat.value, config.centerLon.value))
    else if config.centerAddress.None? || config.centerAddress.value == [] then
      Err(MissingCenter)
    else
      match geocode(config.centerAddress.value)
      case None => Err(GeocodeFailed(config.centerAddress.value))
      case Some(loc) => Ok(loc)
  }

  /** With both coordinates configured the geocoder is never consulted: any
      two geocoders give the same centre. */
  lemma CoordsNeedNoGeocoder(config: AppConfig, g1: Geocoder, g2: Geocoder)
    requires HasCenterCoords(config)
    ensures ResolveCenter(config, g1) == ResolveCenter(config, g2)
  {
  }

  /** When the address is missing the error is raised whatever the geocoder. */
  lemma MissingCenterNeedsNoGeocoder(config: AppConfig, g1: Geocoder, g2: Geocoder)
    requires !HasCenterCoords(config)
    requires config.centerAddress.None? || config.centerAddress.value == []
    ensures ResolveCenter(config, g1) == ResolveCenter(config, g2) == Err(MissingCenter)
  {
  }
}
