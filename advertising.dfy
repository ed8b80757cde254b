/**
 * The advertising data the sensor nodes broadcast, in all four builders of
 * the repository: a Flags structure, optionally a 16-bit service-UUID list,
 * the Complete Local Name "AFO", and Manufacturer Specific Data made of the
 * vendor tag 0xFF 0xFF followed by the serialised advertisement record
 * (AD types 0x01, 0x03, 0x09 and 0xFF, Core Specification Supplement,
 * Part A, sections 1.3, 1.1, 1.2 and 1.4). Everything is written with
 * `fill_adv_data` at a running offset into a 31-byte buffer.
 *
 * The serialiser (`postcard::to_slice` of the advertisement record) is not
 * modelled: its output is an input of the builders, and a function from
 * the state to those bytes where a builder reads state.
 */
module Advertising {
  import opened Common
  import opened Shared
  import Models

  /** The legacy advertising payload limit. */
  const ADV_LEN: nat := 31

  /** `BLE_GAP_ADV_FLAGS_LE_ONLY_GENERAL_DISC_MODE`: LE General Discoverable, BR/EDR not supported. */
  const LE_ONLY_GENERAL_DISC_MODE: bv8 := 0x06

  const FLAGS: bv8 := 0x01
  const SERVICE_UUIDS: bv8 := 0x03
  const COMPLETE_LOCAL_NAME: bv8 := 0x09
  const MANUFACTURER_DATA: bv8 := 0xFF

  const NAME: seq<bv8> := ['A' as bv8, 'F' as bv8, 'O' as bv8]

  /** The two-byte vendor tag in front of the serialised record. */
  const VENDOR_TAG: seq<bv8> := [0xFF, 0xFF]

  /** The 16-bit UUID 0x1809 (Health Thermometer), little-endian. */
  const UUIDS_1809: seq<bv8> := [0x09, 0x18]

  /** The 16-bit UUID 0x181A (Environmental Sensing), little-endian. */
  const UUIDS_181A: seq<bv8> := [0x1a, 0x18]

  /** The structures in front of the manufacturer data: flags, the optional UUID list, the name. */
  function Header(uuids: Option<seq<bv8>>): (r: seq<bv8>)
    ensures uuids.None? ==> |r| == 8
    ensures uuids.Some? ==> |r| == 10 + |uuids.value|
  {
    Structure(FLAGS, [LE_ONLY_GENERAL_DISC_MODE])
    + (if uuids.Some? then Structure(SERVICE_UUIDS, uuids.value) else [])
    + Structure(COMPLETE_LOCAL_NAME, NAME)
  }

  /** The advertising data of a builder with service list `uuids` and serialised record `record`. */
  function AdvertisingData(uuids: Option<seq<bv8>>, record: seq<bv8>): (r: seq<bv8>)
    ensures uuids.None? ==> |r| == 12 + |record|
    ensures uuids.Some? ==> |r| == 14 + |uuids.value| + |record|
  {
    Header(uuids) + Structure(MANUFACTURER_DATA, VENDOR_TAG + record)
  }

  /** The structures of the advertising data, in order. */
  lemma AdvertisingDataParts(uuids: Option<seq<bv8>>, record: seq<bv8>)
    ensures var tail := Structure(COMPLETE_LOCAL_NAME, NAME) + Structure(MANUFACTURER_DATA, VENDOR_TAG + record);
      AdvertisingData(uuids, record)
      == if uuids.Some? then Structure(FLAGS, [LE_ONLY_GENERAL_DISC_MODE]) + (Structure(SERVICE_UUIDS, uuids.value) + tail)
         else Structure(FLAGS, [LE_ONLY_GENERAL_DISC_MODE]) + tail
  {
  }

  /** With a two-entry UUID list the data is 16 fixed bytes, then the record. */
  lemma LayoutWithUuids(uuids: seq<bv8>, record: seq<bv8>)
    requires |uuids| == 2 && |record| < 252
    ensures AdvertisingData(Some(uuids), record)
            == [0x02, 0x01, 0x06, 0x03, 0x03, uuids[0], uuids[1], 0x04, 0x09, 'A' as bv8, 'F' as bv8, 'O' as bv8,
                (3 + |record|) as bv8, 0xFF, 0xFF, 0xFF] + record
  {
  }

  /** Without a UUID list the data is 12 fixed bytes, then the record. */
  lemma LayoutWithoutUuids(record: seq<bv8>)
    requires |record| < 252
    ensures AdvertisingData(None, record)
            == [0x02, 0x01, 0x06, 0x04, 0x09, 'A' as bv8, 'F' as bv8, 'O' as bv8,
                (3 + |record|) as bv8, 0xFF, 0xFF, 0xFF] + record
  {
  }

  /** After a structure is written at `offset`, the written prefix grew by it and the rest is untouched. */
  lemma PrefixGrows(before: seq<bv8>, after: seq<bv8>, offset: nat, piece: seq<bv8>)
    requires |before| == |after| && offset + |piece| <= |after|
    requires after[offset..offset + |piece|] == piece
    requires forall j :: 0 <= j < |after| && !(offset <= j < offset + |piece|) ==> after[j] == before[j]
    ensures after[..offset + |piece|] == before[..offset] + piece
    ensures forall j :: offset + |piece| <= j < |after| ==> after[j] == before[j]
  {
    assert after[..offset + |piece|] == after[..offset] + after[offset..offset + |piece|];
    assert after[..offset] == before[..offset];
  }

  /**
   * `fill_adv_data` at the running offset: it panics when the structure
   * does not fit in what is left of the buffer; otherwise the written
   * prefix grows by the structure and the rest is untouched.
   */
  method AppendStructure(adv: array<bv8>, offset: nat, adType: bv8, data: seq<bv8>) returns (k: nat, panicked: bool)
    modifies adv
    ensures panicked <==> offset + |data| + 2 > adv.Length
    ensures !panicked ==> k == |data| + 2
    ensures !panicked ==> adv[..offset + k] == old(adv[..offset]) + Structure(adType, data)
    ensures !panicked ==> forall j :: offset + k <= j < adv.Length ==> adv[j] == old(adv[j])
  {
    if offset + |data| + 2 > adv.Length {
      return 0, true;
    }
    panicked := false;
    ghost var before := adv[..];
    k := FillAdvData(adv, offset, adType, data);
    PrefixGrows(before, adv[..], offset, Structure(adType, data));
  }

  /** The manufacturer payload: the vendor tag, then the record serialised right after it. */
  method VendorPayload(record: seq<bv8>) returns (payload: seq<bv8>)
    requires |record| <= 29
    ensures payload == VENDOR_TAG + record
  {
    var buffer := new bv8[31](_ => 0);
    buffer[0] := 0xff;
    buffer[1] := 0xff;
    for i := 0 to |record|
      invariant buffer[..2] == VENDOR_TAG && buffer[2..2 + i] == record[..i]
    {
      buffer[2 + i] := record[i];
      assert buffer[2..2 + i + 1] == record[..i + 1];
    }
    assert buffer[..2 + |record|] == buffer[..2] + buffer[2..2 + |record|];
    payload := buffer[..2 + |record|];
  }

  /** The first three structures of `build_adv_data`; panics when the UUID list or the name overruns the buffer. */
  method BuildHeader(adv: array<bv8>, uuids: Option<seq<bv8>>) returns (n: nat, panicked: bool)
    requires adv.Length == ADV_LEN
    modifies adv
    ensures panicked <==> |Header(uuids)| > ADV_LEN
    ensures !panicked ==> n == |Header(uuids)| && adv[..n] == Header(uuids)
    ensures !panicked ==> forall j :: n <= j < ADV_LEN ==> adv[j] == old(adv[j])
  {
    ghost var flags := Structure(FLAGS, [LE_ONLY_GENERAL_DISC_MODE]);
    ghost var list := if uuids.Some? then Structure(SERVICE_UUIDS, uuids.value) else [];
    ghost var name := Structure(COMPLETE_LOCAL_NAME, NAME);
    var k;
    k, panicked := AppendStructure(adv, 0, FLAGS, [LE_ONLY_GENERAL_DISC_MODE]);
    n := k;
    assert adv[..n] == flags;
    if uuids.Some? {
      k, panicked := AppendStructure(adv, n, SERVICE_UUIDS, uuids.value);
      if panicked {
        return;
      }
      n := n + k;
    }
    assert adv[..n] == flags + list;
    k, panicked := AppendStructure(adv, n, COMPLETE_LOCAL_NAME, NAME);
    if panicked {
      return;
    }
    n := n + k;
  }

  /**
   * `build_adv_data`: flags, the optional UUID list, the name, then the
   * vendor tag and the record, each structure at the running offset;
   * returns the length written. It panics exactly when the data would not
   * fit in the 31 bytes: a structure that overruns the buffer, or a record
   * longer than the 29 bytes the serialiser is given.
   */
  method BuildAdvData(adv: array<bv8>, uuids: Option<seq<bv8>>, record: seq<bv8>) returns (n: nat, panicked: bool)
    requires adv.Length == ADV_LEN
    modifies adv
    ensures n <= ADV_LEN
    ensures panicked <==> |AdvertisingData(uuids, record)| > ADV_LEN
    ensures !panicked ==> n == |AdvertisingData(uuids, record)|
    ensures !panicked ==> adv[..n] == AdvertisingData(uuids, record)
    ensures !panicked ==> forall j :: n <= j < ADV_LEN ==> adv[j] == old(adv[j])
  {
    var advOffset;
    advOffset, panicked := BuildHeader(adv, uuids);
    if panicked {
      return 0, true;
    }
    if |record| > ADV_LEN - 2 {
      return 0, true;
    }
    var payload := VendorPayload(record);
    var k;
    k, panicked := AppendStructure(adv, advOffset, MANUFACTURER_DATA, payload);
    if panicked {
      return 0, true;
    }
    n := advOffset + k;
  }

  /**
   * The Bluetooth actor of the second firmware: it advertises the latest
   * snapshot it was sent, with the UUID 0x1809 and the scan response
   * `03 03 09 18`.
   */
  class Firmware2Ble {
    var air_quality: Models.AirQuality

    constructor (initial: Models.AirQuality)
      ensures air_quality == initial
    {
      air_quality := initial;
    }

    /** One advertising round: the data built from the current snapshot, and the scan response. */
    method Advertisement(encode: Models.AirQuality -> seq<bv8>) returns (advData: seq<bv8>, scanData: seq<bv8>, panicked: bool)
      ensures panicked <==> |encode(air_quality)| > 15
      ensures !panicked ==> advData == AdvertisingData(Some(UUIDS_1809), encode(air_quality))
      ensures !panicked ==> |advData| == 16 + |encode(air_quality)|
      ensures scanData == [0x03, 0x03, 0x09, 0x18]
    {
      var buffer := new bv8[31](_ => 0);
      var advLen;
      advLen, panicked := BuildAdvData(buffer, Some(UUIDS_1809), encode(air_quality));
      advData := buffer[..advLen];
      scanData := [0x03, 0x03, 0x09, 0x18];
    }

    /** A snapshot received while advertising or connected replaces the stored one whole. */
    method Receive(message: Models.AirQuality)
      modifies this
      ensures air_quality == message
    {
      air_quality := message;
    }
  }

  /**
   * The Bluetooth actor of the first firmware: it advertises its device id
   * and the latest readings, with the UUID 0x181A and the scan response
   * `03 03 1a 18`.
   */
  class FirmwareBle {
    const device_id: bv8
    var air_quality: AirQuality

    constructor (device_id: bv8, initial: AirQuality)
      ensures this.device_id == device_id && air_quality == initial
    {
      this.device_id := device_id;
      air_quality := initial;
    }

    method Advertisement(encode: (bv8, AirQuality) -> seq<bv8>) returns (advData: seq<bv8>, scanData: seq<bv8>, panicked: bool)
      ensures panicked <==> |encode(device_id, air_quality)| > 15
      ensures !panicked ==> advData == AdvertisingData(Some(UUIDS_181A), encode(device_id, air_quality))
      ensures !panicked ==> |advData| == 16 + |encode(device_id, air_quality)|
      ensures scanData == [0x03, 0x03, 0x1a, 0x18]
    {
      var buffer := new bv8[31](_ => 0);
      var advLen;
      advLen, panicked := BuildAdvData(buffer, Some(UUIDS_181A), encode(device_id, air_quality));
      advData := buffer[..advLen];
      scanData := [0x03, 0x03, 0x1a, 0x18];
    }

    /** A message received while advertising or connected replaces the stored readings whole. */
    method Receive(message: AirQuality)
      modifies this
      ensures air_quality == message
    {
      air_quality := message;
    }
  }

  /**
   * The advertising task of the first firmware: the same layout as the
   * second firmware's actor, assembled inline from the shared readings,
   * and the scan response `03 03 09 18`; advertising then lasts at most
   * five seconds before the next round (the timer is not modelled). The
   * readings are a type parameter `S`: the task is written against an
   * older release of the shared record, which is not part of this model.
   */
  method TaskAdvertisement<S>(state: S, encode: S -> seq<bv8>) returns (advData: seq<bv8>, scanData: seq<bv8>, panicked: bool)
    ensures panicked <==> |encode(state)| > 15
    ensures !panicked ==> advData == AdvertisingData(Some(UUIDS_1809), encode(state))
    ensures !panicked ==> |advData| == 16 + |encode(state)|
    ensures scanData == [0x03, 0x03, 0x09, 0x18]
  {
    scanData := [0x03, 0x03, 0x09, 0x18];
    var adv := new bv8[31](_ => 0);
    var advOffset;
    advOffset, panicked := BuildAdvData(adv, Some(UUIDS_1809), encode(state));
    advData := adv[..advOffset];
  }

  /**
   * The sensor node: its advertisement carries no UUID list and an empty
   * scan response, and the SCD4x task overwrites the shared readings.
   */
  /** The node's id comes from a pulled-up pin: 0 when it is tied low, 1 otherwise. */
  function DeviceId(pinLow: bool): (id: bv8)
    ensures id < 2
    ensures id == 0 <==> pinLow
  {
    if pinLow then 0 else 1
  }

  class Node {
    const device_id: bv8
    var measurement: AirQuality

    constructor (device_id: bv8)
      ensures this.device_id == device_id && measurement == AirQuality(F32_ZERO, F32_ZERO, F32_ZERO)
    {
      this.device_id := device_id;
      measurement := AirQuality(F32_ZERO, F32_ZERO, F32_ZERO);
    }

    /** `advertising_task`, one round: the data for the current readings, and no scan response. */
    method Advertisement(encode: (bv8, AirQuality) -> seq<bv8>) returns (advData: seq<bv8>, scanData: seq<bv8>, panicked: bool)
      ensures panicked <==> |encode(device_id, measurement)| > 19
      ensures !panicked ==> advData == AdvertisingData(None, encode(device_id, measurement))
      ensures !panicked ==> |advData| == 12 + |encode(device_id, measurement)|
      ensures scanData == []
    {
      var adv := new bv8[31](_ => 0);
      var advLen;
      advLen, panicked := BuildAdvData(adv, None, encode(device_id, measurement));
      advData := adv[..advLen];
      scanData := [];
    }

    /**
     * `scd4x_task`, after a reading: a successful one overwrites CO2,
     * humidity and temperature (already converted to floats); a failed one
     * changes nothing.
     */
    method Record(reading: Option<AirQuality>)
      modifies this
      ensures reading.Some? ==> measurement == reading.value
      ensures reading.None? ==> measurement == old(measurement)
    {
      if reading.Some? {
        measurement := measurement.(co2 := reading.value.co2, humidity := reading.value.humidity,
                                    temperature := reading.value.temperature);
      }
    }
  }
}
