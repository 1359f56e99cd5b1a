/** A named map location. */
module AppLocations {
  import opened Wrappers

  /** Latitude and longitude are doubles in the app; they are only stored and compared here. */
  datatype AppLocation = AppLocation(latitude: real, longitude: real, name: Option<string>)

  /** `AppLocation.tokyoStation`, the default selected location. */
  const TokyoStation: AppLocation := AppLocation(35.681236, 139.767125, Some("東京駅"))
}
