/**
 * The data records of the second firmware generation: the readings each
 * sensor actor produces and the fused air-quality snapshot. Every float
 * is an opaque `f32`.
 */
module Models {
  import opened Common

  datatype Voc = Voc(index: bv16, raw: bv16)

  datatype TemperatureAndHumidity = TemperatureAndHumidity(temperature: F32, humidity: F32)

  datatype Pm = Pm(mass_10: F32, mass_25: F32, mass_40: F32, mass_100: F32, average_particle_size: F32)

  /** The fused snapshot; `Default` makes every field zero. */
  datatype AirQuality = AirQuality(co2: F32, temperature: F32, humidity: F32, pm: Pm, voc: Voc)

  const DEFAULT_PM: Pm := Pm(F32_ZERO, F32_ZERO, F32_ZERO, F32_ZERO, F32_ZERO)

  const DEFAULT_AIR_QUALITY: AirQuality := AirQuality(F32_ZERO, F32_ZERO, F32_ZERO, DEFAULT_PM, Voc(0, 0))

  /**
   * The record the second firmware advertises, fields in declaration
   * order (the order the serialiser writes them); temperature is in
   * tenths of a degree. The float-to-integer casts of `From<AirQuality>`
   * are not modelled.
   */
  datatype AirQualityAdvertisement = AirQualityAdvertisement(
    co2_concentration: bv16, temperature: I16, humidity: bv8,
    mass_pm1_0: bv16, mass_pm2_5: bv16, mass_pm4_0: bv16, mass_pm10: bv16, voc_index: bv16)
}
