/** How the board overlay and the map are drawn. */
module DisplaySettingsModel {

  datatype MapStyle = Standard | Hybrid | Imagery

  /** `overlayOpacity` is a double in the app; it is only stored here. */
  datatype DisplaySettings = DisplaySettings(overlayOpacity: real, mapStyle: MapStyle)

  /** `DisplaySettings.default`. */
  const DefaultSettings: DisplaySettings := DisplaySettings(0.6, Standard)
}
