/**
 * The device record handed out by the DayBetter local API library: its identity,
 * model (SKU), optional capability record and current on/off attribute.
 */
module DeviceApi {
  import opened Wrappers

  /** The capability flags of `DayBetterLightFeatures` that the integration tests. */
  datatype Feature = BrightnessFlag | ColorRgbFlag | ColorKelvinTemperatureFlag | ScenesFlag

  /** A capability record: the feature flags and the keys of its scene table, in order. */
  datatype Capabilities = Capabilities(features: set<Feature>, scenes: seq<string>)

  /**
   * A discovered device. `capabilities` is None both when the attribute is missing
   * and when it is None: the integration treats the two alike.
   */
  datatype Device = Device(fingerprint: string, sku: string, capabilities: Option<Capabilities>, on: bool)

  /** An RGB colour triple. */
  datatype Rgb = Rgb(red: int, green: int, blue: int)

  /** The three flags that mark a device as a light: brightness, RGB colour, colour temperature. */
  predicate HasLightFeature(c: Capabilities) {
    BrightnessFlag in c.features || ColorRgbFlag in c.features || ColorKelvinTemperatureFlag in c.features
  }
}
