/**
 * Bluetooth Low Energy metric sources of the trainer tool
 * (projects/git-commitment/main.go): decoding Heart Rate Measurement and
 * Cycling Power Measurement notifications into device metrics, and fanning
 * each metric out to every registered sink.
 *
 * Bytes and 16-bit fields are integers in range; a test `flags & m != 0`
 * against a one-bit mask `m` is written `Has(flags, m)`. The Bluetooth stack
 * itself (scanning, connecting, the notification callback thread) is not
 * modelled: a notification is a call of `MetricSource.Notify`.
 */
module BleMetrics {
  import opened Options

  type Byte = x: int | 0 <= x < 0x100
  type U16 = x: int | 0 <= x < 0x1_0000

  datatype MetricKind = HeartRate | CyclingPower | CyclingSpeed | CyclingCadence

  datatype DeviceMetric = DeviceMetric(kind: MetricKind, value: int)

  // ---------------------------------------------------------------------
  // Little-endian fields
  // ---------------------------------------------------------------------

  /** Whether the one-bit mask `mask` is set in `flags`. */
  predicate Has(flags: nat, mask: nat)
    requires mask > 0
  {
    (flags / mask) % 2 == 1
  }

  /** An unsigned 16-bit little-endian field. */
  function Uint16LE(lo: Byte, hi: Byte): (r: U16)
    ensures r % 0x100 == lo && r / 0x100 == hi
  {
    lo + 0x100 * hi
  }

  /** The two's-complement reading of a 16-bit pattern, as Go's `int16(u)` conversion. */
  function Int16(u: U16): (r: int)
    ensures -0x8000 <= r < 0x8000
    ensures r % 0x1_0000 == u
  {
    if u < 0x8000 then u else u - 0x1_0000
  }

  /** The 16-bit pattern that stores a signed value. */
  function Bits16(v: int): (r: U16)
    requires -0x8000 <= v < 0x8000
    ensures Int16(r) == v
  {
    if v >= 0 then v else v + 0x1_0000
  }

  lemma Uint16LERoundTrip(u: U16)
    ensures Uint16LE(u % 0x100, u / 0x100) == u
  {
  }

  // ---------------------------------------------------------------------
  // Heart Rate Measurement
  // ---------------------------------------------------------------------

  const HeartRateFlagSize: nat := 1
  const HeartRateFlagContactStatus: nat := 6

  /** The two contact-status bits of a heart-rate flag byte, shifted down. */
  function ContactStatus(flag: Byte): (r: nat)
    ensures r < 4
    ensures r / 2 == 1 <==> Has(flag, 4)
    ensures r % 2 == 1 <==> Has(flag, 2)
  {
    (flag / 2) % 4
  }

  /** A sensor that reports contact support but no skin contact is not reading. */
  predicate NotReading(flag: Byte)
  {
    var status := ContactStatus(flag);
    status / 2 == 1 && status % 2 == 0
  }

  /** What one call of a notification handler does. */
  datatype Handled = Ignored | Emitted(metric: DeviceMetric) | Panicked

  /**
   * The heart-rate handler exactly as written: a buffer of two bytes passes
   * the length guard, and a 16-bit reading then reads past its end.
   */
  function HeartRateAsWritten(buf: seq<Byte>): (r: Handled)
    ensures r.Panicked? ==> |buf| == 2
    ensures r.Emitted? ==> |buf| >= 2 && r.metric.kind == HeartRate
  {
    if |buf| < 2 then Ignored
    else
      var flag := buf[0];
      if NotReading(flag) then Ignored
      else if !Has(flag, HeartRateFlagSize) then Emitted(DeviceMetric(HeartRate, buf[1]))
      else if |buf| < 3 then Panicked
      else Emitted(DeviceMetric(HeartRate, Int16(Uint16LE(buf[1], buf[2]))))
  }

  /** A heart-rate notification decoded; a buffer too short for its reading is malformed. */
  function DecodeHeartRate(buf: seq<Byte>): (r: Option<DeviceMetric>)
    ensures r.Some? ==> |buf| >= 2 && !NotReading(buf[0])
    ensures r.Some? ==> r.value.kind == HeartRate && -0x8000 <= r.value.value < 0x8000
    ensures r.Some? && !Has(buf[0], HeartRateFlagSize) ==> r.value.value == buf[1]
  {
    if |buf| < 2 then Option.None
    else
      var flag := buf[0];
      if NotReading(flag) then Option.None
      else if !Has(flag, HeartRateFlagSize) then Some(DeviceMetric(HeartRate, buf[1]))
      else if |buf| < 3 then Option.None
      else Some(DeviceMetric(HeartRate, Int16(Uint16LE(buf[1], buf[2]))))
  }

  /** Two bytes whose flag announces a 16-bit reading make the handler as written fail. */
  lemma HeartRateShortBufferPanics()
    ensures HeartRateAsWritten([1, 72]) == Panicked
    ensures DecodeHeartRate([1, 72]) == Option.None
  {
  }

  /** The decoder never panics and does what the handler does whenever the handler does not panic. */
  lemma DecodeHeartRateAgrees(buf: seq<Byte>)
    ensures HeartRateAsWritten(buf) == Panicked <==>
      |buf| == 2 && !NotReading(buf[0]) && Has(buf[0], HeartRateFlagSize)
    ensures HeartRateAsWritten(buf) != Panicked ==>
      (HeartRateAsWritten(buf) == Ignored <==> DecodeHeartRate(buf).None?)
    ensures HeartRateAsWritten(buf).Emitted? ==> DecodeHeartRate(buf) == Some(HeartRateAsWritten(buf).metric)
  {
  }

  /**
   * A heart-rate notification as a sensor sends it: the flag byte, the
   * reading in the width the flag announces, then any optional fields.
   */
  function EncodeHeartRate(flag: Byte, bpm: int, rest: seq<Byte>): (r: seq<Byte>)
    requires Has(flag, HeartRateFlagSize) ==> -0x8000 <= bpm < 0x8000
    requires !Has(flag, HeartRateFlagSize) ==> 0 <= bpm < 0x100
    ensures |r| == (if Has(flag, HeartRateFlagSize) then 3 else 2) + |rest|
  {
    if Has(flag, HeartRateFlagSize) then
      var u := Bits16(bpm);
      [flag, u % 0x100, u / 0x100] + rest
    else [flag, bpm] + rest
  }

  /**
   * Decoding what a sensor sends gives back its reading, in either width
   * and whatever optional fields follow, unless the sensor is not reading.
   */
  lemma HeartRateRoundTrip(flag: Byte, bpm: int, rest: seq<Byte>)
    requires Has(flag, HeartRateFlagSize) ==> -0x8000 <= bpm < 0x8000
    requires !Has(flag, HeartRateFlagSize) ==> 0 <= bpm < 0x100
    ensures DecodeHeartRate(EncodeHeartRate(flag, bpm, rest)) ==
      if NotReading(flag) then Option.None else Some(DeviceMetric(HeartRate, bpm))
  {
    var buf := EncodeHeartRate(flag, bpm, rest);
    if Has(flag, HeartRateFlagSize) {
      var u := Bits16(bpm);
      assert buf[1] == u % 0x100 && buf[2] == u / 0x100;
      Uint16LERoundTrip(u);
    }
  }

  /** Every decoded heart rate comes from bytes inside the buffer, in the width its flag announces. */
  lemma DecodedHeartRateIsEncoded(buf: seq<Byte>)
    requires DecodeHeartRate(buf).Some?
    ensures !NotReading(buf[0])
    ensures buf == EncodeHeartRate(buf[0], DecodeHeartRate(buf).value.value,
                                   buf[if Has(buf[0], HeartRateFlagSize) then 3 else 2..])
  {
    if Has(buf[0], HeartRateFlagSize) {
      var u := Uint16LE(buf[1], buf[2]);
      assert Bits16(Int16(u)) == u;
    }
  }

  // ---------------------------------------------------------------------
  // Cycling Power Measurement
  // ---------------------------------------------------------------------

  const CyclingPowerFlagHasPedalPowerBalance: nat := 1
  const CyclingPowerFlagHasAccumulatedTorque: nat := 4
  const CyclingPowerFlagHasWheelRevolution: nat := 16
  const CyclingPowerFlagHasCrankRevolution: nat := 32

  /**
   * The cycling-power handler exactly as written: the length guard admits
   * two- and three-byte buffers, whose power field is then read past the end.
   */
  function CyclingPowerAsWritten(buf: seq<Byte>): (r: Handled)
    ensures r.Panicked? ==> 2 <= |buf| < 4
    ensures r.Emitted? ==> r.metric.kind == CyclingPower && r.metric.value != 0
  {
    if |buf| < 2 then Ignored
    else if |buf| < 4 then Panicked
    else
      var watts := Int16(Uint16LE(buf[2], buf[3]));
      if watts == 0 then Ignored else Emitted(DeviceMetric(CyclingPower, watts))
  }

  /** A cycling-power notification decoded; a buffer without the whole power field is malformed. */
  function DecodeCyclingPower(buf: seq<Byte>): (r: Option<DeviceMetric>)
    ensures r.Some? ==> |buf| >= 4
    ensures r.Some? ==> r.value.kind == CyclingPower && r.value.value != 0 && -0x8000 <= r.value.value < 0x8000
  {
    if |buf| < 4 then Option.None
    else
      var watts := Int16(Uint16LE(buf[2], buf[3]));
      if watts == 0 then Option.None else Some(DeviceMetric(CyclingPower, watts))
  }

  /** The flags and nothing else make the handler as written fail. */
  lemma CyclingPowerShortBufferPanics()
    ensures CyclingPowerAsWritten([0, 0]) == Panicked
    ensures CyclingPowerAsWritten([0, 0, 100]) == Panicked
    ensures DecodeCyclingPower([0, 0]) == Option.None
  {
  }

  lemma DecodeCyclingPowerAgrees(buf: seq<Byte>)
    ensures CyclingPowerAsWritten(buf) == Panicked <==> 2 <= |buf| < 4
    ensures CyclingPowerAsWritten(buf) != Panicked ==>
      (CyclingPowerAsWritten(buf) == Ignored <==> DecodeCyclingPower(buf).None?)
    ensures CyclingPowerAsWritten(buf).Emitted? ==> DecodeCyclingPower(buf) == Some(CyclingPowerAsWritten(buf).metric)
  {
  }

  /** A cycling-power notification as a meter sends it: flags, power, then the optional fields. */
  function EncodeCyclingPower(flags: U16, watts: int, rest: seq<Byte>): (r: seq<Byte>)
    requires -0x8000 <= watts < 0x8000
    ensures |r| == 4 + |rest|
  {
    var u := Bits16(watts);
    [flags % 0x100, flags / 0x100, u % 0x100, u / 0x100] + rest
  }

  /** Decoding gives back any non-zero power, whatever the flags and optional fields. */
  lemma CyclingPowerRoundTrip(flags: U16, watts: int, rest: seq<Byte>)
    requires -0x8000 <= watts < 0x8000
    ensures DecodeCyclingPower(EncodeCyclingPower(flags, watts, rest)) ==
      if watts == 0 then Option.None else Some(DeviceMetric(CyclingPower, watts))
  {
    var u := Bits16(watts);
    var buf := EncodeCyclingPower(flags, watts, rest);
    assert buf[2] == u % 0x100 && buf[3] == u / 0x100;
    Uint16LERoundTrip(u);
  }

  /** Every decoded power is the signed 16-bit reading at bytes 2 and 3, behind the buffer's flags. */
  lemma DecodedCyclingPowerIsEncoded(buf: seq<Byte>)
    requires DecodeCyclingPower(buf).Some?
    ensures DecodeCyclingPower(buf).value.value == Int16(Uint16LE(buf[2], buf[3]))
    ensures buf == EncodeCyclingPower(Uint16LE(buf[0], buf[1]), DecodeCyclingPower(buf).value.value, buf[4..])
  {
    var u := Uint16LE(buf[2], buf[3]);
    assert Bits16(Int16(u)) == u;
    var f := Uint16LE(buf[0], buf[1]);
    assert f % 0x100 == buf[0] && f / 0x100 == buf[1];
    assert u % 0x100 == buf[2] && u / 0x100 == buf[3];
  }

  /** An optional field of the measurement: the flag that announces it and its size in bytes. */
  datatype Field = Field(mask: nat, size: nat)

  /**
   * The optional fields in the order they follow the power reading, as
   * section 3.2 of the Cycling Power Service 1.1 lays them out: pedal power
   * balance, accumulated torque, wheel revolutions (32-bit count and 16-bit
   * time), crank revolutions (16-bit count and time), extreme forces,
   * extreme torques, extreme angles (two 12-bit values), top and bottom
   * dead spot angles and accumulated energy.
   */
  const Layout: seq<Field> := [
    Field(1, 1), Field(4, 2), Field(16, 6), Field(32, 4), Field(64, 4),
    Field(128, 4), Field(256, 3), Field(512, 2), Field(1024, 2), Field(2048, 2)
  ]

  /** The bytes taken by all of `fields`. */
  function TotalSize(fields: seq<Field>): nat
  {
    if fields == [] then 0 else TotalSize(fields[..|fields| - 1]) + fields[|fields| - 1].size
  }

  /** The bytes taken by those of `fields` whose flag is set: none without flags, all of them at most. */
  function PresentSize(flags: U16, fields: seq<Field>): (r: nat)
    requires forall f :: f in fields ==> f.mask > 0
    ensures r <= TotalSize(fields)
    ensures flags == 0 ==> r == 0
  {
    if fields == [] then 0
    else
      var last := fields[|fields| - 1];
      PresentSize(flags, fields[..|fields| - 1]) + (if Has(flags, last.mask) then last.size else 0)
  }

  /** Where the `k`-th optional field starts, counting the four bytes of flags and power. */
  function FieldStart(flags: U16, k: nat): (r: nat)
    requires k <= |Layout|
    ensures 4 <= r <= 4 + TotalSize(Layout[..k])
    ensures flags == 0 ==> r == 4
  {
    4 + PresentSize(flags, Layout[..k])
  }

  /** The start of the fifth field, taken from the layout table one field at a time. */
  lemma FirstFourFields(flags: U16)
    ensures FieldStart(flags, 4) == 4 + (if Has(flags, 1) then 1 else 0) + (if Has(flags, 4) then 2 else 0)
                                      + (if Has(flags, 16) then 6 else 0) + (if Has(flags, 32) then 4 else 0)
  {
    var l1, l2, l3, l4 := Layout[..1], Layout[..2], Layout[..3], Layout[..4];
    assert l1 == [Field(1, 1)] && l1[..0] == [];
    assert l2 == l1 + [Field(4, 2)] && l2[..1] == l1;
    assert l3 == l2 + [Field(16, 6)] && l3[..2] == l2;
    assert l4 == l3 + [Field(32, 4)] && l4[..3] == l3;
    assert PresentSize(flags, l1) == (if Has(flags, 1) then 1 else 0);
    assert PresentSize(flags, l2) == PresentSize(flags, l1) + (if Has(flags, 4) then 2 else 0);
    assert PresentSize(flags, l3) == PresentSize(flags, l2) + (if Has(flags, 16) then 6 else 0);
    assert PresentSize(flags, l4) == PresentSize(flags, l3) + (if Has(flags, 32) then 4 else 0);
  }

  /**
   * The handler's walk over the optional fields it knows: four bytes in,
   * then past each of the first four fields whose flag is set.
   */
  method SkipOptionalFields(flags: U16) returns (offset: nat)
    ensures offset == FieldStart(flags, 4)
  {
    offset := 4;
    if Has(flags, CyclingPowerFlagHasPedalPowerBalance) {
      offset := offset + 1;
    }
    if Has(flags, CyclingPowerFlagHasAccumulatedTorque) {
      offset := offset + 2;
    }
    if Has(flags, CyclingPowerFlagHasWheelRevolution) {
      offset := offset + 4 + 2;
    }
    if Has(flags, CyclingPowerFlagHasCrankRevolution) {
      offset := offset + 2 + 2;
    }
    FirstFourFields(flags);
  }

  /** With none of those flags set the walk stays at the end of the power field; with all, it moves 13 bytes. */
  lemma SkipOptionalFieldsBounds(flags: U16)
    ensures 4 <= FieldStart(flags, 4) <= 17
    ensures FieldStart(flags, 4) == 4 <==>
      !Has(flags, 1) && !Has(flags, 4) && !Has(flags, 16) && !Has(flags, 32)
  {
    FirstFourFields(flags);
  }

  // ---------------------------------------------------------------------
  // Metric sources and sinks
  // ---------------------------------------------------------------------

  /** A channel of metrics: everything ever sent into it, in order. */
  class Sink {
    var received: seq<DeviceMetric>

    constructor Open()
      ensures received == []
    {
      received := [];
    }
  }

  /** The characteristic a source listens to. */
  datatype Characteristic = CyclingPowerMeasurement | HeartRateMeasurement | Unknown(uuid: string)

  datatype Handler = HandleCyclingPower | HandleHeartRate

  /** The handler a characteristic's notifications go to; an unknown characteristic has none. */
  function NotificationHandler(ch: Characteristic): (r: Option<Handler>)
    ensures r == Some(HandleCyclingPower) <==> ch == CyclingPowerMeasurement
    ensures r == Some(HandleHeartRate) <==> ch == HeartRateMeasurement
  {
    match ch
    case CyclingPowerMeasurement => Some(HandleCyclingPower)
    case HeartRateMeasurement => Some(HandleHeartRate)
    case Unknown(_) => Option.None
  }

  /** `n` copies of `m`. */
  function Repeat(m: DeviceMetric, n: nat): (r: seq<DeviceMetric>)
    ensures |r| == n && forall i :: 0 <= i < n ==> r[i] == m
  {
    if n == 0 then [] else Repeat(m, n - 1) + [m]
  }

  /** What a sink registered `n` times receives from one decoded notification. */
  function Deliveries(decoded: Option<DeviceMetric>, n: nat): (r: seq<DeviceMetric>)
    ensures decoded.None? ==> r == []
    ensures decoded.Some? ==> r == Repeat(decoded.value, n)
  {
    match decoded
    case None => []
    case Some(m) => Repeat(m, n)
  }

  class MetricSource {
    const ch: Characteristic
    var sinks: seq<Sink>
    /** The handler passed to each call of the characteristic's notification switch. */
    var enabled: seq<Option<Handler>>

    /** Notifications are switched on exactly once, with the first sink, for this characteristic's handler. */
    predicate Valid()
      reads this
    {
      enabled == (if sinks == [] then [] else [NotificationHandler(ch)])
    }

    constructor (ch: Characteristic)
      ensures this.ch == ch && sinks == [] && enabled == []
      ensures Valid()
    {
      this.ch := ch;
      sinks := [];
      enabled := [];
    }

    method AddSink(sink: Sink)
      requires Valid()
      modifies this
      ensures Valid()
      ensures sinks == old(sinks) + [sink]
      ensures enabled == old(enabled) + (if old(sinks) == [] then [NotificationHandler(ch)] else [])
    {
      sinks := sinks + [sink];
      if |sinks| == 1 {
        enabled := enabled + [NotificationHandler(ch)];
      }
    }

    /** Sends `m` into every sink in order; a sink added twice receives it twice. */
    method Emit(m: DeviceMetric)
      modifies set s | s in sinks
      ensures forall s :: s in sinks ==> s.received == old(s.received) + Repeat(m, multiset(sinks)[s])
    {
      var i := 0;
      while i < |sinks|
        invariant 0 <= i <= |sinks|
        invariant forall s :: s in sinks ==>
          s.received == old(s.received) + Repeat(m, multiset(sinks[..i])[s])
      {
        assert sinks[..i + 1] == sinks[..i] + [sinks[i]];
        sinks[i].received := sinks[i].received + [m];
        forall s | s in sinks
          ensures s.received == old(s.received) + Repeat(m, multiset(sinks[..i + 1])[s])
        {
          if s == sinks[i] {
            assert multiset(sinks[..i + 1])[s] == multiset(sinks[..i])[s] + 1;
          } else {
            assert multiset(sinks[..i + 1])[s] == multiset(sinks[..i])[s];
          }
        }
        i := i + 1;
      }
      assert sinks[..i] == sinks;
    }

    method HandleHeartRateMeasurement(buf: seq<Byte>)
      modifies set s | s in sinks
      ensures forall s :: s in sinks ==>
        s.received == old(s.received) + Deliveries(DecodeHeartRate(buf), multiset(sinks)[s])
    {
      match DecodeHeartRate(buf)
      case None =>
      case Some(m) => Emit(m);
    }

    method HandleCyclingPowerMeasurement(buf: seq<Byte>)
      modifies set s | s in sinks
      ensures forall s :: s in sinks ==>
        s.received == old(s.received) + Deliveries(DecodeCyclingPower(buf), multiset(sinks)[s])
    {
      match DecodeCyclingPower(buf)
      case None =>
      case Some(m) =>
        Emit(m);
        var flags := Uint16LE(buf[0], buf[1]);
        var _ := SkipOptionalFields(flags);
    }

    /** One notification from the characteristic, delivered to the handler enabled for it, if any. */
    method Notify(buf: seq<Byte>)
      requires Valid()
      modifies set s | s in sinks
      ensures forall s :: s in sinks ==> s.received == old(s.received) + Deliveries(
        match NotificationHandler(ch)
        case Some(HandleCyclingPower) => DecodeCyclingPower(buf)
        case Some(HandleHeartRate) => DecodeHeartRate(buf)
        case None => Option.None,
        multiset(sinks)[s])
    {
      if enabled != [] {
        match enabled[0]
        case Some(HandleCyclingPower) => HandleCyclingPowerMeasurement(buf);
        case Some(HandleHeartRate) => HandleHeartRateMeasurement(buf);
        case None =>
      }
    }
  }
}
