/**
 * The async SPS30 particulate-matter driver (I2C address 0x69): its command
 * table, the word-level commands, and the parsing of the 60-byte
 * measurement into ten floats.
 */
module Sps30Async {
  import opened Common
  import Crc8
  import Crc8Properties
  import opened I2c
  import opened SensirionFrame
  import opened SensirionAsync

  const SENSOR_ADDR: bv8 := 0x69

  datatype Command =
    | StartMeasurement
    | StopMeasurement
    | ReadDataReadyFlag
    | ReadMeasuredValues
    | Sleep
    | WakeUp
    | StartFanCleaning
    | AutoCleaningInterval
    | ReadProductType
    | ReadSerialNumber
    | ReadVersion
    | ReadDeviceStatusRegister
    | ClearDeviceStatusRegister
    | Reset
  {
    function Raw(): bv16
    {
      match this
      case StartMeasurement => 0x0010
      case StopMeasurement => 0x0104
      case ReadDataReadyFlag => 0x0202
      case ReadMeasuredValues => 0x0300
      case Sleep => 0x1001
      case WakeUp => 0x1103
      case StartFanCleaning => 0x5607
      case AutoCleaningInterval => 0x8004
      case ReadProductType => 0xd002
      case ReadSerialNumber => 0xd033
      case ReadVersion => 0xd100
      case ReadDeviceStatusRegister => 0xd206
      case ClearDeviceStatusRegister => 0xd210
      case Reset => 0xd304
    }
  }

  /** No two commands share an opcode. */
  lemma RawInjective()
    ensures forall a: Command, b: Command :: a.Raw() == b.Raw() ==> a == b
  {
  }

  datatype MeasurementOutputFormat = Float | Integer
  {
    function ToByte(): bv8
    {
      match this
      case Float => 0x03
      case Integer => 0x05
    }
  }

  /** The argument of the start command: the output format in the high byte. */
  function StartArgument(format: MeasurementOutputFormat): (r: bv16)
    ensures BeBytes(r) == [format.ToByte(), 0]
  {
    (format.ToByte() as bv16) << 8
  }

  datatype Measurement = Measurement(
    mass_pm1_0: F32, mass_pm2_5: F32, mass_pm4_0: F32, mass_pm10: F32,
    number_pm0_5: F32, number_pm1_0: F32, number_pm2_5: F32, number_pm4_0: F32, number_pm10: F32,
    typical_size: F32)

  /** How the sensor lays out a measurement: the ten floats in declaration order. */
  function EncodeMeasurement(m: Measurement): (r: seq<bv8>)
    ensures |r| == 60
  {
    FloatGroup(m.mass_pm1_0) + (FloatGroup(m.mass_pm2_5) + (FloatGroup(m.mass_pm4_0) + (FloatGroup(m.mass_pm10)
    + (FloatGroup(m.number_pm0_5) + (FloatGroup(m.number_pm1_0) + (FloatGroup(m.number_pm2_5)
    + (FloatGroup(m.number_pm4_0) + (FloatGroup(m.number_pm10) + FloatGroup(m.typical_size)))))))))
  }

  /**
   * `slice_to_f32`: only the first six bytes of the slice are read; they
   * are accepted exactly when both checksums match, and then they are the
   * encoding of the result.
   */
  function SliceToF32(buffer: seq<bv8>): (r: Result<F32, ParsingError>)
    requires |buffer| >= 6
    ensures r.Ok? <==> CheckedFloat(buffer[..6]).Some?
    ensures r.Ok? ==> buffer[..6] == FloatGroup(r.value)
  {
    match CheckedFloat(buffer[..6])
    case None => Err(ParsingError.Crc)
    case Some(f) => Ok(f)
  }

  /** A buffer whose first six bytes are `g` and whose tail is `rest`. */
  lemma GroupCons(d: seq<bv8>, g: seq<bv8>, rest: seq<bv8>)
    requires |d| >= 6 && d[..6] == g && d[6..] == rest
    ensures d == g + rest
  {
    assert d == d[..6] + d[6..];
  }

  /** A 60-byte buffer is the concatenation of its ten six-byte groups. */
  lemma ConcatGroups(data: seq<bv8>, g0: seq<bv8>, g1: seq<bv8>, g2: seq<bv8>, g3: seq<bv8>, g4: seq<bv8>, g5: seq<bv8>, g6: seq<bv8>, g7: seq<bv8>, g8: seq<bv8>, g9: seq<bv8>)
    requires |data| == 60
    requires data[0..][..6] == g0
    requires data[6..][..6] == g1
    requires data[12..][..6] == g2
    requires data[18..][..6] == g3
    requires data[24..][..6] == g4
    requires data[30..][..6] == g5
    requires data[36..][..6] == g6
    requires data[42..][..6] == g7
    requires data[48..][..6] == g8
    requires data[54..][..6] == g9
    ensures data == g0 + (g1 + (g2 + (g3 + (g4 + (g5 + (g6 + (g7 + (g8 + g9))))))))
  {
    assert data[54..] == g9 by { assert data[54..] == data[54..][..6]; }
    assert data[48..] == g8 + g9 by {
      GroupCons(data[48..], g8, data[54..]);
    }
    assert data[42..] == g7 + (g8 + g9) by {
      GroupCons(data[42..], g7, data[48..]);
    }
    assert data[36..] == g6 + (g7 + (g8 + g9)) by {
      GroupCons(data[36..], g6, data[42..]);
    }
    assert data[30..] == g5 + (g6 + (g7 + (g8 + g9))) by {
      GroupCons(data[30..], g5, data[36..]);
    }
    assert data[24..] == g4 + (g5 + (g6 + (g7 + (g8 + g9)))) by {
      GroupCons(data[24..], g4, data[30..]);
    }
    assert data[18..] == g3 + (g4 + (g5 + (g6 + (g7 + (g8 + g9))))) by {
      GroupCons(data[18..], g3, data[24..]);
    }
    assert data[12..] == g2 + (g3 + (g4 + (g5 + (g6 + (g7 + (g8 + g9)))))) by {
      GroupCons(data[12..], g2, data[18..]);
    }
    assert data[6..] == g1 + (g2 + (g3 + (g4 + (g5 + (g6 + (g7 + (g8 + g9))))))) by {
      GroupCons(data[6..], g1, data[12..]);
    }
    assert data[0..] == g0 + (g1 + (g2 + (g3 + (g4 + (g5 + (g6 + (g7 + (g8 + g9)))))))) by {
      GroupCons(data[0..], g0, data[6..]);
    }
    assert data[0..] == data;
  }

  /** Group k of ten concatenated six-byte groups is the k-th of them. */
  lemma SplitGroups(g0: seq<bv8>, g1: seq<bv8>, g2: seq<bv8>, g3: seq<bv8>, g4: seq<bv8>, g5: seq<bv8>, g6: seq<bv8>, g7: seq<bv8>, g8: seq<bv8>, g9: seq<bv8>)
    requires |g0| == 6 && |g1| == 6 && |g2| == 6 && |g3| == 6 && |g4| == 6 && |g5| == 6 && |g6| == 6 && |g7| == 6 && |g8| == 6 && |g9| == 6
    ensures (g0 + (g1 + (g2 + (g3 + (g4 + (g5 + (g6 + (g7 + (g8 + g9)))))))))[0..][..6] == g0
    ensures (g0 + (g1 + (g2 + (g3 + (g4 + (g5 + (g6 + (g7 + (g8 + g9)))))))))[6..][..6] == g1
    ensures (g0 + (g1 + (g2 + (g3 + (g4 + (g5 + (g6 + (g7 + (g8 + g9)))))))))[12..][..6] == g2
    ensures (g0 + (g1 + (g2 + (g3 + (g4 + (g5 + (g6 + (g7 + (g8 + g9)))))))))[18..][..6] == g3
    ensures (g0 + (g1 + (g2 + (g3 + (g4 + (g5 + (g6 + (g7 + (g8 + g9)))))))))[24..][..6] == g4
    ensures (g0 + (g1 + (g2 + (g3 + (g4 + (g5 + (g6 + (g7 + (g8 + g9)))))))))[30..][..6] == g5
    ensures (g0 + (g1 + (g2 + (g3 + (g4 + (g5 + (g6 + (g7 + (g8 + g9)))))))))[36..][..6] == g6
    ensures (g0 + (g1 + (g2 + (g3 + (g4 + (g5 + (g6 + (g7 + (g8 + g9)))))))))[42..][..6] == g7
    ensures (g0 + (g1 + (g2 + (g3 + (g4 + (g5 + (g6 + (g7 + (g8 + g9)))))))))[48..][..6] == g8
    ensures (g0 + (g1 + (g2 + (g3 + (g4 + (g5 + (g6 + (g7 + (g8 + g9)))))))))[54..][..6] == g9
  {
    var data := g0 + (g1 + (g2 + (g3 + (g4 + (g5 + (g6 + (g7 + (g8 + g9))))))));
    assert data[0..] == g0 + (g1 + (g2 + (g3 + (g4 + (g5 + (g6 + (g7 + (g8 + g9))))))));
    assert data[6..] == g1 + (g2 + (g3 + (g4 + (g5 + (g6 + (g7 + (g8 + g9)))))));
    assert data[12..] == g2 + (g3 + (g4 + (g5 + (g6 + (g7 + (g8 + g9))))));
    assert data[18..] == g3 + (g4 + (g5 + (g6 + (g7 + (g8 + g9)))));
    assert data[24..] == g4 + (g5 + (g6 + (g7 + (g8 + g9))));
    assert data[30..] == g5 + (g6 + (g7 + (g8 + g9)));
    assert data[36..] == g6 + (g7 + (g8 + g9));
    assert data[42..] == g7 + (g8 + g9);
    assert data[48..] == g8 + g9;
    assert data[54..] == g9;
  }

  /** `parse_measurement`: group k starts at byte 6k; any bad group rejects the whole. */
  function ParseMeasurement(data: seq<bv8>): (r: Result<Measurement, ParsingError>)
    requires |data| == 60
    ensures r.Ok? ==> data == EncodeMeasurement(r.value)
  {
    var mass_pm1_0 :- SliceToF32(data[0..]);
    var mass_pm2_5 :- SliceToF32(data[6..]);
    var mass_pm4_0 :- SliceToF32(data[12..]);
    var mass_pm10 :- SliceToF32(data[18..]);
    var number_pm0_5 :- SliceToF32(data[24..]);
    var number_pm1_0 :- SliceToF32(data[30..]);
    var number_pm2_5 :- SliceToF32(data[36..]);
    var number_pm4_0 :- SliceToF32(data[42..]);
    var number_pm10 :- SliceToF32(data[48..]);
    var typical_size :- SliceToF32(data[54..]);
    var m := Measurement(mass_pm1_0, mass_pm2_5, mass_pm4_0, mass_pm10, number_pm0_5,
                         number_pm1_0, number_pm2_5, number_pm4_0, number_pm10, typical_size);
    ConcatGroups(data, FloatGroup(mass_pm1_0), FloatGroup(mass_pm2_5), FloatGroup(mass_pm4_0), FloatGroup(mass_pm10), FloatGroup(number_pm0_5), FloatGroup(number_pm1_0), FloatGroup(number_pm2_5), FloatGroup(number_pm4_0), FloatGroup(number_pm10), FloatGroup(typical_size));
    Ok(m)
  }

  /** Every measurement the sensor sends is parsed back to itself. */
  lemma ParseEncoded(m: Measurement)
    ensures ParseMeasurement(EncodeMeasurement(m)) == Ok(m)
  {
    SplitGroups(FloatGroup(m.mass_pm1_0), FloatGroup(m.mass_pm2_5), FloatGroup(m.mass_pm4_0), FloatGroup(m.mass_pm10), FloatGroup(m.number_pm0_5), FloatGroup(m.number_pm1_0), FloatGroup(m.number_pm2_5), FloatGroup(m.number_pm4_0), FloatGroup(m.number_pm10), FloatGroup(m.typical_size));
    FloatRoundTrip(m.mass_pm1_0);
    FloatRoundTrip(m.mass_pm2_5);
    FloatRoundTrip(m.mass_pm4_0);
    FloatRoundTrip(m.mass_pm10);
    FloatRoundTrip(m.number_pm0_5);
    FloatRoundTrip(m.number_pm1_0);
    FloatRoundTrip(m.number_pm2_5);
    FloatRoundTrip(m.number_pm4_0);
    FloatRoundTrip(m.number_pm10);
    FloatRoundTrip(m.typical_size);
  }

  /** Checksums of words of the recorded measurement below (part 1 of 4). */
  lemma FixtureChecksums1()
    ensures Crc8.Crc([0x40, 0x88]) == 0xCB
    ensures Crc8.Crc([0xE1, 0x6D]) == 0xF4
    ensures Crc8.Crc([0x40, 0x94]) == 0xF5
    ensures Crc8.Crc([0xB2, 0xEA]) == 0xD3
    ensures Crc8.Crc([0x40, 0x98]) == 0x88
  {
    Crc8Properties.CrcPair(0x40, 0x88);
    assert Crc8.ShiftBits(0xBF, 8) == Crc8.ShiftBits(0x4F, 7) == Crc8.ShiftBits(0x9E, 6) == Crc8.ShiftBits(0x0D, 5) == Crc8.ShiftBits(0x1A, 4);
    assert Crc8.ShiftBits(0x1A, 4) == Crc8.ShiftBits(0x34, 3) == Crc8.ShiftBits(0x68, 2) == Crc8.ShiftBits(0xD0, 1) == Crc8.ShiftBits(0x91, 0) == 0x91;
    assert Crc8.ShiftBits(0x19, 8) == Crc8.ShiftBits(0x32, 7) == Crc8.ShiftBits(0x64, 6) == Crc8.ShiftBits(0xC8, 5) == Crc8.ShiftBits(0xA1, 4);
    assert Crc8.ShiftBits(0xA1, 4) == Crc8.ShiftBits(0x73, 3) == Crc8.ShiftBits(0xE6, 2) == Crc8.ShiftBits(0xFD, 1) == Crc8.ShiftBits(0xCB, 0) == 0xCB;
    Crc8Properties.CrcPair(0xE1, 0x6D);
    assert Crc8.ShiftBits(0x1E, 8) == Crc8.ShiftBits(0x3C, 7) == Crc8.ShiftBits(0x78, 6) == Crc8.ShiftBits(0xF0, 5) == Crc8.ShiftBits(0xD1, 4);
    assert Crc8.ShiftBits(0xD1, 4) == Crc8.ShiftBits(0x93, 3) == Crc8.ShiftBits(0x17, 2) == Crc8.ShiftBits(0x2E, 1) == Crc8.ShiftBits(0x5C, 0) == 0x5C;
    assert Crc8.ShiftBits(0x31, 8) == Crc8.ShiftBits(0x62, 7) == Crc8.ShiftBits(0xC4, 6) == Crc8.ShiftBits(0xB9, 5) == Crc8.ShiftBits(0x43, 4);
    assert Crc8.ShiftBits(0x43, 4) == Crc8.ShiftBits(0x86, 3) == Crc8.ShiftBits(0x3D, 2) == Crc8.ShiftBits(0x7A, 1) == Crc8.ShiftBits(0xF4, 0) == 0xF4;
    Crc8Properties.CrcPair(0x40, 0x94);
    assert Crc8.ShiftBits(0xBF, 8) == Crc8.ShiftBits(0x4F, 7) == Crc8.ShiftBits(0x9E, 6) == Crc8.ShiftBits(0x0D, 5) == Crc8.ShiftBits(0x1A, 4);
    assert Crc8.ShiftBits(0x1A, 4) == Crc8.ShiftBits(0x34, 3) == Crc8.ShiftBits(0x68, 2) == Crc8.ShiftBits(0xD0, 1) == Crc8.ShiftBits(0x91, 0) == 0x91;
    assert Crc8.ShiftBits(0x05, 8) == Crc8.ShiftBits(0x0A, 7) == Crc8.ShiftBits(0x14, 6) == Crc8.ShiftBits(0x28, 5) == Crc8.ShiftBits(0x50, 4);
    assert Crc8.ShiftBits(0x50, 4) == Crc8.ShiftBits(0xA0, 3) == Crc8.ShiftBits(0x71, 2) == Crc8.ShiftBits(0xE2, 1) == Crc8.ShiftBits(0xF5, 0) == 0xF5;
    Crc8Properties.CrcPair(0xB2, 0xEA);
    assert Crc8.ShiftBits(0x4D, 8) == Crc8.ShiftBits(0x9A, 7) == Crc8.ShiftBits(0x05, 6) == Crc8.ShiftBits(0x0A, 5) == Crc8.ShiftBits(0x14, 4);
    assert Crc8.ShiftBits(0x14, 4) == Crc8.ShiftBits(0x28, 3) == Crc8.ShiftBits(0x50, 2) == Crc8.ShiftBits(0xA0, 1) == Crc8.ShiftBits(0x71, 0) == 0x71;
    assert Crc8.ShiftBits(0x9B, 8) == Crc8.ShiftBits(0x07, 7) == Crc8.ShiftBits(0x0E, 6) == Crc8.ShiftBits(0x1C, 5) == Crc8.ShiftBits(0x38, 4);
    assert Crc8.ShiftBits(0x38, 4) == Crc8.ShiftBits(0x70, 3) == Crc8.ShiftBits(0xE0, 2) == Crc8.ShiftBits(0xF1, 1) == Crc8.ShiftBits(0xD3, 0) == 0xD3;
    Crc8Properties.CrcPair(0x40, 0x98);
    assert Crc8.ShiftBits(0xBF, 8) == Crc8.ShiftBits(0x4F, 7) == Crc8.ShiftBits(0x9E, 6) == Crc8.ShiftBits(0x0D, 5) == Crc8.ShiftBits(0x1A, 4);
    assert Crc8.ShiftBits(0x1A, 4) == Crc8.ShiftBits(0x34, 3) == Crc8.ShiftBits(0x68, 2) == Crc8.ShiftBits(0xD0, 1) == Crc8.ShiftBits(0x91, 0) == 0x91;
    assert Crc8.ShiftBits(0x09, 8) == Crc8.ShiftBits(0x12, 7) == Crc8.ShiftBits(0x24, 6) == Crc8.ShiftBits(0x48, 5) == Crc8.ShiftBits(0x90, 4);
    assert Crc8.ShiftBits(0x90, 4) == Crc8.ShiftBits(0x11, 3) == Crc8.ShiftBits(0x22, 2) == Crc8.ShiftBits(0x44, 1) == Crc8.ShiftBits(0x88, 0) == 0x88;
  }

  /** Checksums of words of the recorded measurement below (part 2 of 4). */
  lemma FixtureChecksums2()
    ensures Crc8.Crc([0xD7, 0xED]) == 0x66
    ensures Crc8.Crc([0x40, 0x9B]) == 0xDB
    ensures Crc8.Crc([0x06, 0xCA]) == 0x47
    ensures Crc8.Crc([0x41, 0xE4]) == 0xF9
    ensures Crc8.Crc([0xC5, 0x23]) == 0x89
  {
    Crc8Properties.CrcPair(0xD7, 0xED);
    assert Crc8.ShiftBits(0x28, 8) == Crc8.ShiftBits(0x50, 7) == Crc8.ShiftBits(0xA0, 6) == Crc8.ShiftBits(0x71, 5) == Crc8.ShiftBits(0xE2, 4);
    assert Crc8.ShiftBits(0xE2, 4) == Crc8.ShiftBits(0xF5, 3) == Crc8.ShiftBits(0xDB, 2) == Crc8.ShiftBits(0x87, 1) == Crc8.ShiftBits(0x3F, 0) == 0x3F;
    assert Crc8.ShiftBits(0xD2, 8) == Crc8.ShiftBits(0x95, 7) == Crc8.ShiftBits(0x1B, 6) == Crc8.ShiftBits(0x36, 5) == Crc8.ShiftBits(0x6C, 4);
    assert Crc8.ShiftBits(0x6C, 4) == Crc8.ShiftBits(0xD8, 3) == Crc8.ShiftBits(0x81, 2) == Crc8.ShiftBits(0x33, 1) == Crc8.ShiftBits(0x66, 0) == 0x66;
    Crc8Properties.CrcPair(0x40, 0x9B);
    assert Crc8.ShiftBits(0xBF, 8) == Crc8.ShiftBits(0x4F, 7) == Crc8.ShiftBits(0x9E, 6) == Crc8.ShiftBits(0x0D, 5) == Crc8.ShiftBits(0x1A, 4);
    assert Crc8.ShiftBits(0x1A, 4) == Crc8.ShiftBits(0x34, 3) == Crc8.ShiftBits(0x68, 2) == Crc8.ShiftBits(0xD0, 1) == Crc8.ShiftBits(0x91, 0) == 0x91;
    assert Crc8.ShiftBits(0x0A, 8) == Crc8.ShiftBits(0x14, 7) == Crc8.ShiftBits(0x28, 6) == Crc8.ShiftBits(0x50, 5) == Crc8.ShiftBits(0xA0, 4);
    assert Crc8.ShiftBits(0xA0, 4) == Crc8.ShiftBits(0x71, 3) == Crc8.ShiftBits(0xE2, 2) == Crc8.ShiftBits(0xF5, 1) == Crc8.ShiftBits(0xDB, 0) == 0xDB;
    Crc8Properties.CrcPair(0x06, 0xCA);
    assert Crc8.ShiftBits(0xF9, 8) == Crc8.ShiftBits(0xC3, 7) == Crc8.ShiftBits(0xB7, 6) == Crc8.ShiftBits(0x5F, 5) == Crc8.ShiftBits(0xBE, 4);
    assert Crc8.ShiftBits(0xBE, 4) == Crc8.ShiftBits(0x4D, 3) == Crc8.ShiftBits(0x9A, 2) == Crc8.ShiftBits(0x05, 1) == Crc8.ShiftBits(0x0A, 0) == 0x0A;
    assert Crc8.ShiftBits(0xC0, 8) == Crc8.ShiftBits(0xB1, 7) == Crc8.ShiftBits(0x53, 6) == Crc8.ShiftBits(0xA6, 5) == Crc8.ShiftBits(0x7D, 4);
    assert Crc8.ShiftBits(0x7D, 4) == Crc8.ShiftBits(0xFA, 3) == Crc8.ShiftBits(0xC5, 2) == Crc8.ShiftBits(0xBB, 1) == Crc8.ShiftBits(0x47, 0) == 0x47;
    Crc8Properties.CrcPair(0x41, 0xE4);
    assert Crc8.ShiftBits(0xBE, 8) == Crc8.ShiftBits(0x4D, 7) == Crc8.ShiftBits(0x9A, 6) == Crc8.ShiftBits(0x05, 5) == Crc8.ShiftBits(0x0A, 4);
    assert Crc8.ShiftBits(0x0A, 4) == Crc8.ShiftBits(0x14, 3) == Crc8.ShiftBits(0x28, 2) == Crc8.ShiftBits(0x50, 1) == Crc8.ShiftBits(0xA0, 0) == 0xA0;
    assert Crc8.ShiftBits(0x44, 8) == Crc8.ShiftBits(0x88, 7) == Crc8.ShiftBits(0x21, 6) == Crc8.ShiftBits(0x42, 5) == Crc8.ShiftBits(0x84, 4);
    assert Crc8.ShiftBits(0x84, 4) == Crc8.ShiftBits(0x39, 3) == Crc8.ShiftBits(0x72, 2) == Crc8.ShiftBits(0xE4, 1) == Crc8.ShiftBits(0xF9, 0) == 0xF9;
    Crc8Properties.CrcPair(0xC5, 0x23);
    assert Crc8.ShiftBits(0x3A, 8) == Crc8.ShiftBits(0x74, 7) == Crc8.ShiftBits(0xE8, 6) == Crc8.ShiftBits(0xE1, 5) == Crc8.ShiftBits(0xF3, 4);
    assert Crc8.ShiftBits(0xF3, 4) == Crc8.ShiftBits(0xD7, 3) == Crc8.ShiftBits(0x9F, 2) == Crc8.ShiftBits(0x0F, 1) == Crc8.ShiftBits(0x1E, 0) == 0x1E;
    assert Crc8.ShiftBits(0x3D, 8) == Crc8.ShiftBits(0x7A, 7) == Crc8.ShiftBits(0xF4, 6) == Crc8.ShiftBits(0xD9, 5) == Crc8.ShiftBits(0x83, 4);
    assert Crc8.ShiftBits(0x83, 4) == Crc8.ShiftBits(0x37, 3) == Crc8.ShiftBits(0x6E, 2) == Crc8.ShiftBits(0xDC, 1) == Crc8.ShiftBits(0x89, 0) == 0x89;
  }

  /** Checksums of words of the recorded measurement below (part 3 of 4). */
  lemma FixtureChecksums3()
    ensures Crc8.Crc([0x42, 0x05]) == 0x24
    ensures Crc8.Crc([0x43, 0x7E]) == 0xC2
    ensures Crc8.Crc([0x42, 0x06]) == 0x77
    ensures Crc8.Crc([0x68, 0x6C]) == 0x25
    ensures Crc8.Crc([0x93, 0x8C]) == 0xE6
  {
    Crc8Properties.CrcPair(0x42, 0x05);
    assert Crc8.ShiftBits(0xBD, 8) == Crc8.ShiftBits(0x4B, 7) == Crc8.ShiftBits(0x96, 6) == Crc8.ShiftBits(0x1D, 5) == Crc8.ShiftBits(0x3A, 4);
    assert Crc8.ShiftBits(0x3A, 4) == Crc8.ShiftBits(0x74, 3) == Crc8.ShiftBits(0xE8, 2) == Crc8.ShiftBits(0xE1, 1) == Crc8.ShiftBits(0xF3, 0) == 0xF3;
    assert Crc8.ShiftBits(0xF6, 8) == Crc8.ShiftBits(0xDD, 7) == Crc8.ShiftBits(0x8B, 6) == Crc8.ShiftBits(0x27, 5) == Crc8.ShiftBits(0x4E, 4);
    assert Crc8.ShiftBits(0x4E, 4) == Crc8.ShiftBits(0x9C, 3) == Crc8.ShiftBits(0x09, 2) == Crc8.ShiftBits(0x12, 1) == Crc8.ShiftBits(0x24, 0) == 0x24;
    Crc8Properties.CrcPair(0x43, 0x7E);
    assert Crc8.ShiftBits(0xBC, 8) == Crc8.ShiftBits(0x49, 7) == Crc8.ShiftBits(0x92, 6) == Crc8.ShiftBits(0x15, 5) == Crc8.ShiftBits(0x2A, 4);
    assert Crc8.ShiftBits(0x2A, 4) == Crc8.ShiftBits(0x54, 3) == Crc8.ShiftBits(0xA8, 2) == Crc8.ShiftBits(0x61, 1) == Crc8.ShiftBits(0xC2, 0) == 0xC2;
    assert Crc8.ShiftBits(0xBC, 8) == Crc8.ShiftBits(0x49, 7) == Crc8.ShiftBits(0x92, 6) == Crc8.ShiftBits(0x15, 5) == Crc8.ShiftBits(0x2A, 4);
    assert Crc8.ShiftBits(0x2A, 4) == Crc8.ShiftBits(0x54, 3) == Crc8.ShiftBits(0xA8, 2) == Crc8.ShiftBits(0x61, 1) == Crc8.ShiftBits(0xC2, 0) == 0xC2;
    Crc8Properties.CrcPair(0x42, 0x06);
    assert Crc8.ShiftBits(0xBD, 8) == Crc8.ShiftBits(0x4B, 7) == Crc8.ShiftBits(0x96, 6) == Crc8.ShiftBits(0x1D, 5) == Crc8.ShiftBits(0x3A, 4);
    assert Crc8.ShiftBits(0x3A, 4) == Crc8.ShiftBits(0x74, 3) == Crc8.ShiftBits(0xE8, 2) == Crc8.ShiftBits(0xE1, 1) == Crc8.ShiftBits(0xF3, 0) == 0xF3;
    assert Crc8.ShiftBits(0xF5, 8) == Crc8.ShiftBits(0xDB, 7) == Crc8.ShiftBits(0x87, 6) == Crc8.ShiftBits(0x3F, 5) == Crc8.ShiftBits(0x7E, 4);
    assert Crc8.ShiftBits(0x7E, 4) == Crc8.ShiftBits(0xFC, 3) == Crc8.ShiftBits(0xC9, 2) == Crc8.ShiftBits(0xA3, 1) == Crc8.ShiftBits(0x77, 0) == 0x77;
    Crc8Properties.CrcPair(0x68, 0x6C);
    assert Crc8.ShiftBits(0x97, 8) == Crc8.ShiftBits(0x1F, 7) == Crc8.ShiftBits(0x3E, 6) == Crc8.ShiftBits(0x7C, 5) == Crc8.ShiftBits(0xF8, 4);
    assert Crc8.ShiftBits(0xF8, 4) == Crc8.ShiftBits(0xC1, 3) == Crc8.ShiftBits(0xB3, 2) == Crc8.ShiftBits(0x57, 1) == Crc8.ShiftBits(0xAE, 0) == 0xAE;
    assert Crc8.ShiftBits(0xC2, 8) == Crc8.ShiftBits(0xB5, 7) == Crc8.ShiftBits(0x5B, 6) == Crc8.ShiftBits(0xB6, 5) == Crc8.ShiftBits(0x5D, 4);
    assert Crc8.ShiftBits(0x5D, 4) == Crc8.ShiftBits(0xBA, 3) == Crc8.ShiftBits(0x45, 2) == Crc8.ShiftBits(0x8A, 1) == Crc8.ShiftBits(0x25, 0) == 0x25;
    Crc8Properties.CrcPair(0x93, 0x8C);
    assert Crc8.ShiftBits(0x6C, 8) == Crc8.ShiftBits(0xD8, 7) == Crc8.ShiftBits(0x81, 6) == Crc8.ShiftBits(0x33, 5) == Crc8.ShiftBits(0x66, 4);
    assert Crc8.ShiftBits(0x66, 4) == Crc8.ShiftBits(0xCC, 3) == Crc8.ShiftBits(0xA9, 2) == Crc8.ShiftBits(0x63, 1) == Crc8.ShiftBits(0xC6, 0) == 0xC6;
    assert Crc8.ShiftBits(0x4A, 8) == Crc8.ShiftBits(0x94, 7) == Crc8.ShiftBits(0x19, 6) == Crc8.ShiftBits(0x32, 5) == Crc8.ShiftBits(0x64, 4);
    assert Crc8.ShiftBits(0x64, 4) == Crc8.ShiftBits(0xC8, 3) == Crc8.ShiftBits(0xA1, 2) == Crc8.ShiftBits(0x73, 1) == Crc8.ShiftBits(0xE6, 0) == 0xE6;
  }

  /** Checksums of words of the recorded measurement below (part 4 of 4). */
  lemma FixtureChecksums4()
    ensures Crc8.Crc([0xA2, 0x9B]) == 0x74
    ensures Crc8.Crc([0x3F, 0x0D]) == 0xE6
    ensures Crc8.Crc([0x09, 0x1C]) == 0x7C
  {
    Crc8Properties.CrcPair(0xA2, 0x9B);
    assert Crc8.ShiftBits(0x5D, 8) == Crc8.ShiftBits(0xBA, 7) == Crc8.ShiftBits(0x45, 6) == Crc8.ShiftBits(0x8A, 5) == Crc8.ShiftBits(0x25, 4);
    assert Crc8.ShiftBits(0x25, 4) == Crc8.ShiftBits(0x4A, 3) == Crc8.ShiftBits(0x94, 2) == Crc8.ShiftBits(0x19, 1) == Crc8.ShiftBits(0x32, 0) == 0x32;
    assert Crc8.ShiftBits(0xA9, 8) == Crc8.ShiftBits(0x63, 7) == Crc8.ShiftBits(0xC6, 6) == Crc8.ShiftBits(0xBD, 5) == Crc8.ShiftBits(0x4B, 4);
    assert Crc8.ShiftBits(0x4B, 4) == Crc8.ShiftBits(0x96, 3) == Crc8.ShiftBits(0x1D, 2) == Crc8.ShiftBits(0x3A, 1) == Crc8.ShiftBits(0x74, 0) == 0x74;
    Crc8Properties.CrcPair(0x3F, 0x0D);
    assert Crc8.ShiftBits(0xC0, 8) == Crc8.ShiftBits(0xB1, 7) == Crc8.ShiftBits(0x53, 6) == Crc8.ShiftBits(0xA6, 5) == Crc8.ShiftBits(0x7D, 4);
    assert Crc8.ShiftBits(0x7D, 4) == Crc8.ShiftBits(0xFA, 3) == Crc8.ShiftBits(0xC5, 2) == Crc8.ShiftBits(0xBB, 1) == Crc8.ShiftBits(0x47, 0) == 0x47;
    assert Crc8.ShiftBits(0x4A, 8) == Crc8.ShiftBits(0x94, 7) == Crc8.ShiftBits(0x19, 6) == Crc8.ShiftBits(0x32, 5) == Crc8.ShiftBits(0x64, 4);
    assert Crc8.ShiftBits(0x64, 4) == Crc8.ShiftBits(0xC8, 3) == Crc8.ShiftBits(0xA1, 2) == Crc8.ShiftBits(0x73, 1) == Crc8.ShiftBits(0xE6, 0) == 0xE6;
    Crc8Properties.CrcPair(0x09, 0x1C);
    assert Crc8.ShiftBits(0xF6, 8) == Crc8.ShiftBits(0xDD, 7) == Crc8.ShiftBits(0x8B, 6) == Crc8.ShiftBits(0x27, 5) == Crc8.ShiftBits(0x4E, 4);
    assert Crc8.ShiftBits(0x4E, 4) == Crc8.ShiftBits(0x9C, 3) == Crc8.ShiftBits(0x09, 2) == Crc8.ShiftBits(0x12, 1) == Crc8.ShiftBits(0x24, 0) == 0x24;
    assert Crc8.ShiftBits(0x38, 8) == Crc8.ShiftBits(0x70, 7) == Crc8.ShiftBits(0xE0, 6) == Crc8.ShiftBits(0xF1, 5) == Crc8.ShiftBits(0xD3, 4);
    assert Crc8.ShiftBits(0xD3, 4) == Crc8.ShiftBits(0x97, 3) == Crc8.ShiftBits(0x1F, 2) == Crc8.ShiftBits(0x3E, 1) == Crc8.ShiftBits(0x7C, 0) == 0x7C;
  }

  /** The measurement recorded from a sensor (PM1.0 mass concentration 4.28 ug/m3). */
  lemma FixtureParses()
    ensures ParseMeasurement(
      [0x40, 0x88, 0xCB, 0xE1, 0x6D, 0xF4] + (
      [0x40, 0x94, 0xF5, 0xB2, 0xEA, 0xD3] + (
      [0x40, 0x98, 0x88, 0xD7, 0xED, 0x66] + (
      [0x40, 0x9B, 0xDB, 0x06, 0xCA, 0x47] + (
      [0x41, 0xE4, 0xF9, 0xC5, 0x23, 0x89] + (
      [0x42, 0x05, 0x24, 0x43, 0x7E, 0xC2] + (
      [0x42, 0x06, 0x77, 0x68, 0x6C, 0x25] + (
      [0x42, 0x06, 0x77, 0x93, 0x8C, 0xE6] + (
      [0x42, 0x06, 0x77, 0xA2, 0x9B, 0x74] + (
      [0x3F, 0x0D, 0xE6, 0x09, 0x1C, 0x7C]))))))))))
      == Ok(Measurement(
      F32(0x40, 0x88, 0xE1, 0x6D),
      F32(0x40, 0x94, 0xB2, 0xEA),
      F32(0x40, 0x98, 0xD7, 0xED),
      F32(0x40, 0x9B, 0x06, 0xCA),
      F32(0x41, 0xE4, 0xC5, 0x23),
      F32(0x42, 0x05, 0x43, 0x7E),
      F32(0x42, 0x06, 0x68, 0x6C),
      F32(0x42, 0x06, 0x93, 0x8C),
      F32(0x42, 0x06, 0xA2, 0x9B),
      F32(0x3F, 0x0D, 0x09, 0x1C)))
  {
    var m := Measurement(
      F32(0x40, 0x88, 0xE1, 0x6D),
      F32(0x40, 0x94, 0xB2, 0xEA),
      F32(0x40, 0x98, 0xD7, 0xED),
      F32(0x40, 0x9B, 0x06, 0xCA),
      F32(0x41, 0xE4, 0xC5, 0x23),
      F32(0x42, 0x05, 0x43, 0x7E),
      F32(0x42, 0x06, 0x68, 0x6C),
      F32(0x42, 0x06, 0x93, 0x8C),
      F32(0x42, 0x06, 0xA2, 0x9B),
      F32(0x3F, 0x0D, 0x09, 0x1C));
    FixtureChecksums1();
    FixtureChecksums2();
    FixtureChecksums3();
    FixtureChecksums4();
    assert FloatGroup(m.mass_pm1_0) == [0x40, 0x88, 0xCB, 0xE1, 0x6D, 0xF4];
    assert FloatGroup(m.mass_pm2_5) == [0x40, 0x94, 0xF5, 0xB2, 0xEA, 0xD3];
    assert FloatGroup(m.mass_pm4_0) == [0x40, 0x98, 0x88, 0xD7, 0xED, 0x66];
    assert FloatGroup(m.mass_pm10) == [0x40, 0x9B, 0xDB, 0x06, 0xCA, 0x47];
    assert FloatGroup(m.number_pm0_5) == [0x41, 0xE4, 0xF9, 0xC5, 0x23, 0x89];
    assert FloatGroup(m.number_pm1_0) == [0x42, 0x05, 0x24, 0x43, 0x7E, 0xC2];
    assert FloatGroup(m.number_pm2_5) == [0x42, 0x06, 0x77, 0x68, 0x6C, 0x25];
    assert FloatGroup(m.number_pm4_0) == [0x42, 0x06, 0x77, 0x93, 0x8C, 0xE6];
    assert FloatGroup(m.number_pm10) == [0x42, 0x06, 0x77, 0xA2, 0x9B, 0x74];
    assert FloatGroup(m.typical_size) == [0x3F, 0x0D, 0xE6, 0x09, 0x1C, 0x7C];
    ParseEncoded(m);
  }

  /** The outcome of `read` given the outcome of the 60-byte transfer. */
  function MeasurementReply(raw: Result<seq<bv8>, Error>): (r: Result<Measurement, Error>)
    requires raw.Ok? ==> |raw.value| == 60
    ensures r.Ok? ==> raw.Ok? && raw.value == EncodeMeasurement(r.value)
    ensures raw.Ok? && (exists m :: raw.value == EncodeMeasurement(m)) ==> r.Ok?
    ensures raw.Err? ==> r == Err(raw.error)
    ensures r.Err? && raw.Ok? ==> r.error == Parsing(ParsingError.Crc)
  {
    match raw
    case Err(e) => Err(e)
    case Ok(data) =>
      if ParseMeasurement(data).Ok? then Ok(ParseMeasurement(data).value)
      else
        assert forall m :: data != EncodeMeasurement(m) by {
          forall m ensures data != EncodeMeasurement(m) {
            ParseEncoded(m);
          }
        }
        Err(Parsing(ParsingError.Crc))
  }

  /** What `read` returns when the sensor holds `rx`. */
  function ReadReply(rx: seq<bv8>, online: bool): (r: Result<Measurement, Error>)
    ensures r.Ok? ==> online && 60 <= |rx| && rx[..60] == EncodeMeasurement(r.value)
    ensures online && 60 <= |rx| && (exists m :: rx[..60] == EncodeMeasurement(m)) ==> r.Ok?
    ensures r.Err? && r.error.Bus? <==> !online || |rx| < 60
  {
    MeasurementReply(RawReply(rx, online, 60))
  }

  class Sps30 {
    const i2c: SensirionI2c

    constructor (bus: Bus)
      ensures i2c.bus == bus && fresh(i2c) && fresh(i2c.crc)
    {
      i2c := new SensirionI2c(bus);
    }

    method ReadVersion() returns (r: Result<bv16, Error>)
      modifies i2c.bus`log, i2c.bus`rx, i2c.crc
      ensures r == WordReply(old(i2c.bus.rx), i2c.bus.online, true)
      ensures i2c.bus.log == old(i2c.bus.log) + RequestLog(SENSOR_ADDR, BeBytes(Command.ReadVersion.Raw()), i2c.bus.online, 3)
      ensures i2c.bus.rx == Remaining(old(i2c.bus.rx), i2c.bus.online, 3)
    {
      r := i2c.ReadWord(SENSOR_ADDR, Command.ReadVersion.Raw(), true);
    }

    /** Start measuring with float output: the word 0x0300 after the opcode. */
    method StartMeasurement() returns (r: Result<(), Error>)
      modifies i2c.bus`log, i2c.crc
      ensures i2c.bus.log == old(i2c.bus.log)
                             + [Transfer.Write(SENSOR_ADDR, WordFrame(Command.StartMeasurement.Raw(), 0x0300))]
      ensures r == if i2c.bus.online then Ok(()) else Err(Bus(Nack))
    {
      r := i2c.WriteWord(SENSOR_ADDR, Command.StartMeasurement.Raw(), StartArgument(Float));
    }

    method IsMeasurementReady() returns (r: Result<bool, Error>)
      modifies i2c.bus`log, i2c.bus`rx, i2c.crc
      ensures r == ReadyFromWord(WordReply(old(i2c.bus.rx), i2c.bus.online, true))
      ensures i2c.bus.log == old(i2c.bus.log) + RequestLog(SENSOR_ADDR, BeBytes(ReadDataReadyFlag.Raw()), i2c.bus.online, 3)
      ensures i2c.bus.rx == Remaining(old(i2c.bus.rx), i2c.bus.online, 3)
    {
      var word := i2c.ReadWord(SENSOR_ADDR, ReadDataReadyFlag.Raw(), true);
      r := ReadyFromWord(word);
    }

    method Read() returns (r: Result<Measurement, Error>)
      modifies i2c.bus`log, i2c.bus`rx
      ensures r == ReadReply(old(i2c.bus.rx), i2c.bus.online)
      ensures i2c.bus.log == old(i2c.bus.log) + RequestLog(SENSOR_ADDR, BeBytes(ReadMeasuredValues.Raw()), i2c.bus.online, 60)
      ensures i2c.bus.rx == Remaining(old(i2c.bus.rx), i2c.bus.online, 60)
    {
      var raw := i2c.ReadRaw(SENSOR_ADDR, ReadMeasuredValues.Raw(), 60);
      r := MeasurementReply(raw);
    }
  }
}
