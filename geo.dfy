/** The geographic collaborators: great-circle distance and geocoding. Both
    are supplied from outside (see module Http); only the radius test is
    defined here. */
module Geo {
  import opened Wrappers
  import opened Models

  /** Haversine distance in kilometres between two points. */
  type Distance = (Location, Location) -> real

  /** Address lookup; None when the service finds no match. */
  type Geocoder = string -> Option<Location>

  /** `within_radius`: the boundary is inclusive. */
  predicate WithinRadius(distanceKm: Distance, center: Location, point: Location, radiusKm: real) {
    distanceKm(center, point) <= radiusKm
  }
}
