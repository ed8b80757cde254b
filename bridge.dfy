/**
 * The bridge's scan callback. Every advertising report it hears is walked
 * structure by structure (length byte, AD type, data); once a Complete
 * Local Name "AFO" has been seen in the report, each later Manufacturer
 * Specific Data structure is taken as a vendor tag followed by a
 * serialised advertisement record, and the record is stored in the slot
 * its sensor id names. A truncated or zero-length structure ends the walk;
 * a record that cannot be read, or a sensor id past the slots, panics
 * (the panic handler resets the bridge).
 *
 * The deserialiser (`postcard::from_bytes`) is not modelled: it is the
 * `decode` parameter, `None` standing for its error.
 */
module BridgeScan {
  import opened Common
  import opened Shared
  import Advertising

  const MEASUREMENT_COUNT: nat := 2

  /** How one report ends: the slots afterwards, or a panic. */
  datatype Outcome = Done(measurements: seq<AirQualityAdvertisement>) | Panic

  /** Whether a structure of type `key` with data `value` makes the report an AFO one. */
  predicate NamesAfo(key: bv8, value: seq<bv8>)
  {
    key == 9 && value == Advertising.NAME
  }

  /** One structure split off the front of a report: its type, its data, and what follows. */
  datatype Piece = Piece(key: bv8, value: seq<bv8>, rest: seq<bv8>)

  /**
   * The first structure of `data`, or `None` where the walk stops: no data
   * left, a length byte running past the end, or a zero length byte.
   */
  function Next(data: seq<bv8>): (r: Option<Piece>)
    ensures r.None? <==> |data| == 0 || |data| < data[0] as int + 1 || data[0] == 0
    ensures r.Some? ==> data == [data[0], r.value.key] + r.value.value + r.value.rest
    ensures r.Some? ==> |r.value.value| == data[0] as int - 1
  {
    if |data| == 0 then None
    else
      var len := data[0] as int;
      if |data| < len + 1 || len < 1 then None
      else
        assert data == [data[0], data[1]] + data[2..len + 1] + data[len + 1..];
        Some(Piece(data[1], data[2..len + 1], data[len + 1..]))
  }

  /** A structure written by `fill_adv_data` is read back whole by `Next`. */
  lemma NextOfStructure(key: bv8, value: seq<bv8>, rest: seq<bv8>)
    requires |value| < 255
    ensures Next(Structure(key, value) + rest) == Some(Piece(key, value, rest))
  {
    var data := Structure(key, value) + rest;
    assert data[2..|value| + 2] == value;
    assert data[|value| + 2..] == rest;
  }

  /**
   * The effect of one structure on the slots, `None` being a panic: once
   * the report is known to be an AFO one, manufacturer data must hold the
   * vendor tag and a readable record whose sensor id names a slot, which
   * then receives it; anything else leaves the slots alone.
   */
  function Absorb(seen: bool, key: bv8, value: seq<bv8>, slots: seq<AirQualityAdvertisement>,
                  decode: seq<bv8> -> Option<AirQualityAdvertisement>): (r: Option<seq<AirQualityAdvertisement>>)
    ensures r.None? <==> (seen && key == 0xff &&
      (|value| < 2 || decode(value[2..]).None? || decode(value[2..]).value.sensor_id as int >= |slots|))
    ensures r.Some? && !(seen && key == 0xff) ==> r.value == slots
    ensures r.Some? && seen && key == 0xff ==>
      r.value == slots[decode(value[2..]).value.sensor_id as int := decode(value[2..]).value]
    ensures r.Some? ==> |r.value| == |slots|
  {
    if seen && key == 0xff then
      if |value| < 2 then None
      else match decode(value[2..])
        case None => None
        case Some(adv) =>
          if adv.sensor_id as int >= |slots| then None
          else Some(slots[adv.sensor_id as int := adv])
    else Some(slots)
  }

  /**
   * The walk from the structures `data` on, with `afo` telling whether the
   * name has been seen and `slots` the stored records.
   */
  function Walk(data: seq<bv8>, afo: bool, slots: seq<AirQualityAdvertisement>,
                decode: seq<bv8> -> Option<AirQualityAdvertisement>): Outcome
    decreases |data|
  {
    match Next(data)
    case None => Done(slots)
    case Some(p) =>
      var seen := afo || NamesAfo(p.key, p.value);
      match Absorb(seen, p.key, p.value, slots, decode)
      case None => Panic
      case Some(after) => Walk(p.rest, seen, after, decode)
  }

  /** A walk that ends keeps the number of slots, and a slot it changed holds a record carrying that slot's id. */
  lemma {:induction false} WalkWritesOwnSlots(data: seq<bv8>, afo: bool, slots: seq<AirQualityAdvertisement>,
                                             decode: seq<bv8> -> Option<AirQualityAdvertisement>)
    ensures Walk(data, afo, slots, decode).Done? ==>
      var after := Walk(data, afo, slots, decode).measurements;
      |after| == |slots| && forall i :: 0 <= i < |slots| ==> after[i] == slots[i] || after[i].sensor_id as int == i
    decreases |data|
  {
    match Next(data)
    case None =>
    case Some(p) =>
      var seen := afo || NamesAfo(p.key, p.value);
      match Absorb(seen, p.key, p.value, slots, decode)
      case None =>
      case Some(after) =>
        WalkWritesOwnSlots(p.rest, seen, after, decode);
  }

  /** Walking a report that starts with a well-formed structure: that structure's effect, then the rest. */
  lemma WalkStructure(key: bv8, value: seq<bv8>, rest: seq<bv8>, afo: bool, slots: seq<AirQualityAdvertisement>,
                      decode: seq<bv8> -> Option<AirQualityAdvertisement>)
    requires |value| < 255
    ensures var seen := afo || NamesAfo(key, value);
      Walk(Structure(key, value) + rest, afo, slots, decode)
      == match Absorb(seen, key, value, slots, decode)
         case None => Panic
         case Some(after) => Walk(rest, seen, after, decode)
  {
    NextOfStructure(key, value, rest);
  }

  /** Manufacturer data before the name stores nothing, even when the name follows. */
  lemma ManufacturerBeforeNameIgnored(record: seq<bv8>, slots: seq<AirQualityAdvertisement>,
                                      decode: seq<bv8> -> Option<AirQualityAdvertisement>)
    requires |record| <= 27
    ensures Walk(Structure(0xFF, Advertising.VENDOR_TAG + record) + Structure(9, Advertising.NAME), false, slots, decode)
            == Done(slots)
  {
    var name := Structure(9, Advertising.NAME);
    WalkStructure(0xFF, Advertising.VENDOR_TAG + record, name, false, slots, decode);
    assert !NamesAfo(0xFF, Advertising.VENDOR_TAG + record);
    WalkStructure(9, Advertising.NAME, [], false, slots, decode);
    assert name + [] == name;
    assert Walk([], true, slots, decode) == Done(slots);
  }

  /** A record shorter than the vendor tag, after the name, panics the bridge. */
  lemma ShortManufacturerPanics(b: bv8, slots: seq<AirQualityAdvertisement>,
                                decode: seq<bv8> -> Option<AirQualityAdvertisement>)
    ensures Walk(Structure(9, Advertising.NAME) + Structure(0xFF, [b]), false, slots, decode) == Panic
  {
    var vendor := Structure(0xFF, [b]);
    WalkStructure(9, Advertising.NAME, vendor, false, slots, decode);
    WalkStructure(0xFF, [b], [], true, slots, decode);
    assert vendor + [] == vendor;
  }

  /** A readable record naming a slot past the last one, after the name, panics the bridge. */
  lemma ForeignSensorPanics(record: seq<bv8>, adv: AirQualityAdvertisement, slots: seq<AirQualityAdvertisement>,
                            decode: seq<bv8> -> Option<AirQualityAdvertisement>)
    requires |record| <= 27
    requires decode(record) == Some(adv) && adv.sensor_id as int >= |slots|
    ensures Walk(Structure(9, Advertising.NAME) + Structure(0xFF, Advertising.VENDOR_TAG + record), false, slots, decode) == Panic
  {
    var vendor := Structure(0xFF, Advertising.VENDOR_TAG + record);
    WalkStructure(9, Advertising.NAME, vendor, false, slots, decode);
    WalkStructure(0xFF, Advertising.VENDOR_TAG + record, [], true, slots, decode);
    assert vendor + [] == vendor;
    assert (Advertising.VENDOR_TAG + record)[2..] == record;
  }

  /**
   * What a node broadcasts is stored: walking its advertising data, with or
   * without a two-entry UUID list, puts the record the deserialiser reads
   * back into the slot of its sensor id.
   */
  lemma AdvertisementStored(uuids: Option<seq<bv8>>, record: seq<bv8>, adv: AirQualityAdvertisement,
                            slots: seq<AirQualityAdvertisement>, decode: seq<bv8> -> Option<AirQualityAdvertisement>)
    requires uuids.Some? ==> |uuids.value| == 2
    requires |Advertising.AdvertisingData(uuids, record)| <= Advertising.ADV_LEN
    requires decode(record) == Some(adv) && (adv.sensor_id as int) < |slots|
    ensures Walk(Advertising.AdvertisingData(uuids, record), false, slots, decode)
            == Done(slots[adv.sensor_id as int := adv])
  {
    var tail := Structure(9, Advertising.NAME) + Structure(0xFF, Advertising.VENDOR_TAG + record);
    Advertising.AdvertisingDataParts(uuids, record);
    if uuids.Some? {
      var list := Structure(3, uuids.value);
      SkipStructure(1, [Advertising.LE_ONLY_GENERAL_DISC_MODE], list + tail, slots, decode);
      SkipStructure(3, uuids.value, tail, slots, decode);
    } else {
      SkipStructure(1, [Advertising.LE_ONLY_GENERAL_DISC_MODE], tail, slots, decode);
    }
    VendorStored(record, adv, slots, decode);
  }

  /** Before the name, a structure that is neither the name nor manufacturer data is stepped over. */
  lemma SkipStructure(key: bv8, value: seq<bv8>, rest: seq<bv8>, slots: seq<AirQualityAdvertisement>,
                      decode: seq<bv8> -> Option<AirQualityAdvertisement>)
    requires |value| < 255 && key != 9 && key != 0xff
    ensures Walk(Structure(key, value) + rest, false, slots, decode) == Walk(rest, false, slots, decode)
  {
    WalkStructure(key, value, rest, false, slots, decode);
  }

  /** The name, then a manufacturer structure with a readable record, store the record. */
  lemma VendorStored(record: seq<bv8>, adv: AirQualityAdvertisement, slots: seq<AirQualityAdvertisement>,
                     decode: seq<bv8> -> Option<AirQualityAdvertisement>)
    requires |record| <= 27
    requires decode(record) == Some(adv) && (adv.sensor_id as int) < |slots|
    ensures Walk(Structure(9, Advertising.NAME) + Structure(0xFF, Advertising.VENDOR_TAG + record), false, slots, decode)
            == Done(slots[adv.sensor_id as int := adv])
  {
    var vendor := Structure(0xFF, Advertising.VENDOR_TAG + record);
    WalkStructure(9, Advertising.NAME, vendor, false, slots, decode);
    WalkStructure(0xFF, Advertising.VENDOR_TAG + record, [], true, slots, decode);
    assert vendor + [] == vendor;
    assert (Advertising.VENDOR_TAG + record)[2..] == record;
    assert Walk([], true, slots[adv.sensor_id as int := adv], decode) == Done(slots[adv.sensor_id as int := adv]);
  }

  /** One step of the walk: a report that does not stop at once is its first structure's effect, then the rest. */
  lemma WalkStep(data: seq<bv8>, afo: bool, slots: seq<AirQualityAdvertisement>,
                 decode: seq<bv8> -> Option<AirQualityAdvertisement>)
    requires Next(data).Some?
    ensures var p := Next(data).value; var seen := afo || NamesAfo(p.key, p.value);
      Walk(data, afo, slots, decode)
      == match Absorb(seen, p.key, p.value, slots, decode)
         case None => Panic
         case Some(after) => Walk(p.rest, seen, after, decode)
  {
  }

  /** The bridge's stored records, one slot per sensor. */
  class AppState {
    const measurements: array<AirQualityAdvertisement>

    constructor ()
      ensures measurements.Length == MEASUREMENT_COUNT
      ensures forall i :: 0 <= i < MEASUREMENT_COUNT ==> measurements[i] == DEFAULT_ADVERTISEMENT
    {
      measurements := new AirQualityAdvertisement[MEASUREMENT_COUNT](_ => DEFAULT_ADVERTISEMENT);
    }

    /** One structure's effect on the slots, in place; `panicked` where `Absorb` gives none. */
    method Store(afo: bool, key: bv8, value: seq<bv8>, decode: seq<bv8> -> Option<AirQualityAdvertisement>)
      returns (panicked: bool)
      modifies measurements
      ensures panicked <==> Absorb(afo, key, value, old(measurements[..]), decode).None?
      ensures !panicked ==> measurements[..] == Absorb(afo, key, value, old(measurements[..]), decode).value
    {
      if afo && key == 0xff {
        if |value| < 2 {
          return true;
        }
        var adv := decode(value[2..]);
        if adv.None? {
          return true;
        }
        if adv.value.sensor_id as int >= measurements.Length {
          return true;
        }
        measurements[adv.value.sensor_id as int] := adv.value;
      }
      panicked := false;
    }

    /**
     * The scan callback for one report: walk it, storing records in place.
     * `panicked` is the panic; the slots after a panic are not specified, as
     * the bridge resets.
     */
    method OnReport(report: seq<bv8>, decode: seq<bv8> -> Option<AirQualityAdvertisement>) returns (panicked: bool)
      modifies measurements
      ensures panicked <==> Walk(report, false, old(measurements[..]), decode).Panic?
      ensures !panicked ==> Walk(report, false, old(measurements[..]), decode) == Done(measurements[..])
    {
      var data := report;
      var afo := false;
      while |data| != 0
        invariant Walk(data, afo, measurements[..], decode) == Walk(report, false, old(measurements[..]), decode)
        decreases |data|
      {
        var len := data[0] as int;
        if |data| < len + 1 {
          break;
        }
        if len < 1 {
          break;
        }
        var key := data[1];
        var value := data[2..len + 1];
        ghost var slots := measurements[..];
        ghost var seen := afo || NamesAfo(key, value);
        WalkStep(data, afo, slots, decode);
        assert Next(data) == Some(Piece(key, value, data[len + 1..]));
        data := data[len + 1..];
        if key == 9 && |value| == 3 && value == Advertising.NAME {
          afo := true;
        }
        assert afo == seen;
        panicked := Store(afo, key, value, decode);
        if panicked {
          return;
        }
      }
      panicked := false;
    }
  }
}
