/**
 * The reactor actor of the second firmware: it fuses the sensor readings
 * it is sent into one air-quality snapshot and, on every tick of its
 * one-second ticker, fans the snapshot out to its consumers. Mailboxes are
 * bounded queues: `notify` waits for room, `try_notify` drops the message
 * when the queue is full. Which of a message and a tick comes first is up
 * to the scheduler and is not modelled; each is a method.
 */
module Reactor {
  import opened Common
  import opened Models
  import Firmware2Flash

  /** The SCD30 actor's reading. */
  datatype Scd30Data = Scd30Data(co2: F32, humidity: F32, temperature: F32)

  datatype Message =
    | NewScd30Data(data: Scd30Data)
    | NewPmData(pm: Pm)
    | NewVocData(voc: Voc)
    | EnableLogging(enable: bool)

  /** The VOC sensor actor's one message: the compensation values. */
  datatype VocSensorMessage = UpdateTemperatureAndHumidity(values: TemperatureAndHumidity)

  /** `TryFrom<Scd30Data> for Message`: never fails. */
  function FromScd30Data(data: Scd30Data): (r: Result<Message, ()>)
    ensures r.Ok? && r.value.NewScd30Data? && r.value.data == data
  {
    Ok(NewScd30Data(data))
  }

  /** `TryFrom<Voc> for Message`: never fails. */
  function FromVoc(voc: Voc): (r: Result<Message, ()>)
    ensures r.Ok? && r.value.NewVocData? && r.value.voc == voc
  {
    Ok(NewVocData(voc))
  }

  /** `TryFrom<Pm> for Message`: never fails. */
  function FromPm(pm: Pm): (r: Result<Message, ()>)
    ensures r.Ok? && r.value.NewPmData? && r.value.pm == pm
  {
    Ok(NewPmData(pm))
  }

  /** A queue after offering it `m`: appended when there is room, unchanged when full. */
  function Offer<T>(items: seq<T>, capacity: nat, m: T): (r: seq<T>)
    ensures |items| <= capacity ==> |r| <= capacity
    ensures |items| < capacity ==> r == items + [m]
    ensures |items| >= capacity ==> r == items
  {
    if |items| < capacity then items + [m] else items
  }

  /** An actor's mailbox: a queue of at most `capacity` messages. */
  class Mailbox<T> {
    const capacity: nat
    var items: seq<T>

    ghost predicate Valid()
      reads this
    {
      |items| <= capacity
    }

    constructor (capacity: nat)
      ensures this.capacity == capacity && items == []
      ensures Valid()
    {
      this.capacity := capacity;
      items := [];
    }

    /** `notify`, once the wait for room is over. */
    method Notify(m: T)
      requires |items| < capacity
      modifies this
      ensures items == old(items) + [m]
      ensures Valid()
    {
      items := items + [m];
    }

    /** `try_notify`: the message is queued when there is room and dropped otherwise. */
    method TryNotify(m: T) returns (sent: bool)
      requires Valid()
      modifies this
      ensures items == Offer(old(items), capacity, m)
      ensures sent <==> |old(items)| < capacity
      ensures Valid()
    {
      if |items| < capacity {
        items := items + [m];
        sent := true;
      } else {
        sent := false;
      }
    }
  }

  /**
   * The snapshot after a message: SCD30 data replaces CO2, temperature and
   * humidity, PM data replaces the PM record, VOC data the VOC record, and
   * a logging switch leaves the snapshot alone.
   */
  function Fuse(air_quality: AirQuality, m: Message): (r: AirQuality)
    ensures m.NewScd30Data? ==>
      r.co2 == m.data.co2 && r.temperature == m.data.temperature && r.humidity == m.data.humidity &&
      r.pm == air_quality.pm && r.voc == air_quality.voc
    ensures m.NewPmData? ==> r.pm == m.pm && r.(pm := air_quality.pm) == air_quality
    ensures m.NewVocData? ==> r.voc == m.voc && r.(voc := air_quality.voc) == air_quality
    ensures m.EnableLogging? ==> r == air_quality
  {
    match m
    case NewScd30Data(data) => air_quality.(co2 := data.co2, temperature := data.temperature, humidity := data.humidity)
    case NewVocData(voc) => air_quality.(voc := voc)
    case NewPmData(pm) => air_quality.(pm := pm)
    case EnableLogging(_) => air_quality
  }

  /** Readings of different sensors commute: the snapshot does not depend on their order. */
  lemma FuseCommutes(air_quality: AirQuality, a: Message, b: Message)
    requires !a.EnableLogging? && !b.EnableLogging?
    requires a.NewScd30Data? != b.NewScd30Data? || a.NewPmData? != b.NewPmData?
    ensures Fuse(Fuse(air_quality, a), b) == Fuse(Fuse(air_quality, b), a)
  {
  }

  /** A reading of a sensor overrides any earlier reading of the same sensor. */
  lemma FuseOverrides(air_quality: AirQuality, a: Message, b: Message)
    requires !a.EnableLogging?
    requires a.NewScd30Data? == b.NewScd30Data? && a.NewPmData? == b.NewPmData? && a.NewVocData? == b.NewVocData?
    ensures Fuse(Fuse(air_quality, a), b) == Fuse(air_quality, b)
  {
  }

  class Reactor {
    const voc_sensor: Mailbox<VocSensorMessage>
    const ui: Mailbox<AirQuality>
    const light_sound: Mailbox<AirQuality>
    const usb: Mailbox<AirQuality>
    const ble: Option<Mailbox<AirQuality>>
    const logger: Option<Mailbox<Firmware2Flash.LogCommand>>
    var air_quality: AirQuality

    /** The snapshot consumers are distinct actors. */
    predicate Distinct()
    {
      ui != light_sound && ui != usb && light_sound != usb &&
      (ble.Some? ==> ble.value != ui && ble.value != light_sound && ble.value != usb)
    }

    /** `Reactor::new`: every reading of the first snapshot is zero. */
    constructor (voc_sensor: Mailbox<VocSensorMessage>, ui: Mailbox<AirQuality>, light_sound: Mailbox<AirQuality>,
                 usb: Mailbox<AirQuality>, ble: Option<Mailbox<AirQuality>>,
                 logger: Option<Mailbox<Firmware2Flash.LogCommand>>)
      ensures this.voc_sensor == voc_sensor && this.ui == ui && this.light_sound == light_sound
      ensures this.usb == usb && this.ble == ble && this.logger == logger
      ensures air_quality == DEFAULT_AIR_QUALITY
    {
      this.voc_sensor := voc_sensor;
      this.ui := ui;
      this.air_quality := AirQuality(F32_ZERO, F32_ZERO, F32_ZERO,
                                     Pm(F32_ZERO, F32_ZERO, F32_ZERO, F32_ZERO, F32_ZERO), Voc(0, 0));
      this.light_sound := light_sound;
      this.usb := usb;
      this.logger := logger;
      this.ble := ble;
    }

    /**
     * A message: the snapshot becomes `Fuse` of it; SCD30 data is also
     * forwarded to the VOC sensor as compensation values, and a logging
     * switch to the logger when there is one.
     */
    method OnMessage(m: Message)
      requires m.NewScd30Data? ==> |voc_sensor.items| < voc_sensor.capacity
      requires m.EnableLogging? && logger.Some? ==> |logger.value.items| < logger.value.capacity
      modifies this, voc_sensor, if logger.Some? then {logger.value} else {}
      ensures air_quality == Fuse(old(air_quality), m)
      ensures voc_sensor.items == old(voc_sensor.items) +
        (if m.NewScd30Data? then [UpdateTemperatureAndHumidity(TemperatureAndHumidity(m.data.temperature, m.data.humidity))]
         else [])
      ensures logger.Some? ==>
        logger.value.items == old(logger.value.items) + (if m.EnableLogging? then [Firmware2Flash.EnableLogging(m.enable)] else [])
    {
      match m
      case NewScd30Data(data) =>
        air_quality := air_quality.(co2 := data.co2);
        air_quality := air_quality.(temperature := data.temperature);
        air_quality := air_quality.(humidity := data.humidity);
        voc_sensor.Notify(UpdateTemperatureAndHumidity(TemperatureAndHumidity(data.temperature, data.humidity)));
      case NewVocData(voc) =>
        air_quality := air_quality.(voc := voc);
      case NewPmData(pm) =>
        air_quality := air_quality.(pm := pm);
      case EnableLogging(enable) =>
        if logger.Some? {
          logger.value.Notify(Firmware2Flash.EnableLogging(enable));
        }
    }

    /**
     * A tick: the display and the light-and-sound actor get the snapshot
     * through `notify`; USB, Bluetooth and the logger, when present, through
     * `try_notify`, which drops it when their mailbox is full.
     */
    method OnTick()
      requires Distinct()
      requires |ui.items| < ui.capacity && |light_sound.items| < light_sound.capacity
      requires usb.Valid() && (ble.Some? ==> ble.value.Valid()) && (logger.Some? ==> logger.value.Valid())
      modifies ui, light_sound, usb, if ble.Some? then {ble.value} else {}, if logger.Some? then {logger.value} else {}
      ensures ui.items == old(ui.items) + [air_quality]
      ensures light_sound.items == old(light_sound.items) + [air_quality]
      ensures usb.items == Offer(old(usb.items), usb.capacity, air_quality)
      ensures ble.Some? ==> ble.value.items == Offer(old(ble.value.items), ble.value.capacity, air_quality)
      ensures logger.Some? ==>
        logger.value.items == Offer(old(logger.value.items), logger.value.capacity, Firmware2Flash.LogValue(air_quality))
    {
      ui.Notify(air_quality);
      light_sound.Notify(air_quality);
      var _ := usb.TryNotify(air_quality);
      if ble.Some? {
        var _ := ble.value.TryNotify(air_quality);
      }
      if logger.Some? {
        var _ := logger.value.TryNotify(Firmware2Flash.LogValue(air_quality));
      }
    }
  }
}
