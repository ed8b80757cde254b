/**
 * The crate shared by the sensor nodes and the bridge: the air-quality
 * record, the advertisement record broadcast over Bluetooth LE, and the
 * writer of one advertising-data structure. An AD structure (Bluetooth
 * Core Specification, Vol 3, Part C, Section 11) is a length byte
 * counting the type byte and the data, the AD type, then the data.
 */
module Shared {
  import opened Common

  /** The measurements of the sensor; every value is an `f32`. */
  datatype AirQuality = AirQuality(co2: F32, temperature: F32, humidity: F32)


  /**
   * The record a node advertises; temperature is in tenths of a degree.
   * The float-to-integer casts of `From<(u8, AirQuality)>` are not modelled.
   */
  datatype AirQualityAdvertisement = AirQualityAdvertisement(
    sensor_id: bv8, co2_concentration: bv16, temperature: I16, humidity: bv8)

  /** `AirQualityAdvertisement::default()`. */
  const DEFAULT_ADVERTISEMENT: AirQualityAdvertisement := AirQualityAdvertisement(0, 0, 0, 0)

  /** The length byte of a structure carrying `data`: `(1 + len) as u8`, which wraps past 255. */
  function LengthByte(data: seq<bv8>): (r: bv8)
    ensures |data| < 255 ==> r as int == 1 + |data|
  {
    ((1 + |data|) % 0x100) as bv8
  }

  /** One AD structure as it appears in the advertising data. */
  function Structure(adType: bv8, data: seq<bv8>): (r: seq<bv8>)
    ensures |r| == |data| + 2 && r[0] == LengthByte(data) && r[1] == adType && r[2..] == data
  {
    [LengthByte(data), adType] + data
  }

  /**
   * `fill_adv_data`: write one structure at `start` (the slice
   * `adv_data[start..]`) and return the number of bytes written. The slice
   * must hold the structure, or the copy panics.
   */
  method FillAdvData(adv: array<bv8>, start: nat, adType: bv8, data: seq<bv8>) returns (n: nat)
    requires start + |data| + 2 <= adv.Length
    modifies adv
    ensures n == |data| + 2
    ensures adv[start..start + n] == Structure(adType, data)
    ensures forall j :: 0 <= j < adv.Length && !(start <= j < start + n) ==> adv[j] == old(adv[j])
  {
    var offset := 1 + |data|;
    adv[start] := LengthByte(data);
    adv[start + 1] := adType;
    for i := 0 to |data|
      invariant forall j :: 0 <= j < adv.Length && !(start <= j < start + 2 + i) ==> adv[j] == old(adv[j])
      invariant adv[start] == LengthByte(data) && adv[start + 1] == adType
      invariant adv[start + 2..start + 2 + i] == data[..i]
    {
      adv[start + 2 + i] := data[i];
      assert adv[start + 2..start + 2 + i + 1] == data[..i + 1];
    }
    n := offset + 1;
  }

  /**
   * The sequence of calls of the crate's unit test: flags, the name "AFO",
   * then manufacturer data 0xFF 0xFF, each written at the running offset.
   */
  method FillTestVector() returns (r: seq<bv8>)
    ensures r == [0x02, 0x01, 0x03, 0x04, 0x09, 'A' as bv8, 'F' as bv8, 'O' as bv8, 0x03, 0xff, 0xff, 0xff]
  {
    var data := new bv8[31](_ => 0);
    var offset := 0;
    var n := FillAdvData(data, offset, 0x01, [0x03]);
    offset := offset + n;
    assert data[..offset] == Structure(0x01, [0x03]);
    n := FillAdvData(data, offset, 0x09, ['A' as bv8, 'F' as bv8, 'O' as bv8]);
    offset := offset + n;
    assert data[..offset] == Structure(0x01, [0x03]) + Structure(0x09, ['A' as bv8, 'F' as bv8, 'O' as bv8]);
    n := FillAdvData(data, offset, 0xff, [0xff, 0xff]);
    offset := offset + n;
    assert data[..offset] == Structure(0x01, [0x03]) + Structure(0x09, ['A' as bv8, 'F' as bv8, 'O' as bv8]) + Structure(0xff, [0xff, 0xff]);
    r := data[..offset];
  }
}
