/**
 * A client that finds Bluetooth heart-rate sensors and streams their
 * readings, on top of the BLE library modelled in `Ble`.
 *
 * Calls into the library (starting a scan, pulling the next discovered
 * device, looking up a characteristic, subscribing) are not modelled; what
 * they return is a parameter of the operation that makes the call.
 */
module Blehr {
  import opened Wrappers
  import opened Ble
  import opened Streams

  /** Why an operation of the client failed. */
  datatype Error =
    | CharacteristicNotFound  // the device lacks the wanted characteristic, or it could not be accessed
    | BleError(cause: Ble.Error)  // the BLE library reported an error

  type Result<T> = Wrappers.Result<T, Error>

  /** `.map_err(Error::BleError)`: a library error becomes the client's `BleError`. */
  function MapBleError<T>(r: Wrappers.Result<T, Ble.Error>): (s: Result<T>)
    ensures s.Success? <==> r.Success?
    ensures r.Success? ==> s.value == r.value
    ensures r.Failure? ==> s.error.BleError? && s.error.cause == r.error
  {
    r.MapErr(e => BleError(e))
  }

  /** A found heart-rate sensor: the device and its heart-rate characteristic. */
  datatype Sensor = Sensor(device: Device, characteristic: Characteristic)

  // ---------------------------------------------------------------------
  // Decoding heart-rate notifications
  // ---------------------------------------------------------------------

  /** A raw notification payload, as the library delivers it. */
  type Payload = seq<u8>

  /** A decoded reading: beats per minute, or `None` for "no current reading". */
  type Reading = Option<u8>

  /**
   * The byte a reading stands for: the beats per minute, and 0 for "no
   * current reading". It inverts `Decode` on the value byte.
   */
  function RawValue(reading: Reading): u8 {
    match reading
    case None => 0
    case Some(bpm) => bpm
  }

  /**
   * A Heart Rate Measurement payload in the 8-bit value format: a flags
   * byte, then the value byte. This is what a sensor sends; it is the
   * partner of `Decode`.
   */
  function Measurement(flags: u8, reading: Reading): (n: Payload)
    ensures |n| == 2 && n[0] == flags
  {
    [flags, RawValue(reading)]
  }

  /**
   * The closure `hr_stream` hands to `filter_map`. The flags byte is not
   * read; the value byte is taken as beats per minute, except that 0 means
   * no current reading. It always keeps the item. A payload shorter than two
   * bytes makes the indexing panic, hence the precondition.
   */
  function Decode(n: Payload): (r: Option<Reading>)
    requires |n| >= 2
    ensures r.Some?
    ensures r.value != Some(0)
    ensures RawValue(r.value) == n[1]
  {
    if n[1] == 0 then Some(None) else Some(Some(n[1]))
  }

  /** A zero value byte is "no current reading", never a reading of zero. */
  lemma DecodeZeroIsNoReading(n: Payload)
    requires |n| >= 2
    ensures n[1] == 0 <==> Decode(n).value == None
    ensures Decode(n).value != Some(0)
  {
  }

  /** A non-zero value byte is the reading, unchanged. */
  lemma DecodeNonZeroIsBpm(n: Payload)
    requires |n| >= 2
    ensures n[1] != 0 <==> Decode(n).value == Some(n[1])
  {
  }

  /** Only the value byte is read: the flags byte and any trailing bytes do not matter. */
  lemma DecodeReadsOnlyValueByte(n: Payload, m: Payload)
    requires |n| >= 2 && |m| >= 2
    ensures n[1] == m[1] <==> Decode(n) == Decode(m)
  {
  }

  /** Decoding a measurement a sensor built gives back its reading, whatever the flags. */
  lemma DecodeMeasurement(flags: u8, reading: Reading)
    requires reading != Some(0)
    ensures Decode(Measurement(flags, reading)) == Some(reading)
  {
  }

  /** Rebuilding a two-byte payload from its flags and its reading gives the payload back. */
  lemma MeasurementOfDecode(n: Payload)
    requires |n| == 2
    ensures Measurement(n[0], Decode(n).value) == n
  {
  }

  /** Every payload of a stream is long enough to decode. */
  ghost predicate Decodable(ps: seq<Payload>) {
    forall i :: 0 <= i < |ps| ==> |ps[i]| >= 2
  }

  /**
   * The readings of a subscription that delivered `ps`: one reading per
   * payload, in arrival order, none dropped.
   */
  function DecodeStream(ps: seq<Payload>): (r: seq<Reading>)
    requires Decodable(ps)
    ensures |r| == |ps|
    ensures forall i :: 0 <= i < |ps| ==> r[i] == Decode(ps[i]).value
  {
    FilterMapKeepsAll(ps, Decode);
    FilterMap(ps, Decode)
  }

  /** The readings of a stream consumed in two parts are those of the whole stream. */
  lemma DecodeStreamAppend(ps: seq<Payload>, qs: seq<Payload>)
    requires Decodable(ps) && Decodable(qs)
    ensures Decodable(ps + qs)
    ensures DecodeStream(ps + qs) == DecodeStream(ps) + DecodeStream(qs)
  {
  }

  /** The notifications 0x00 0x00, 0x00 0x48, 0x00 0x00 read as none, 72, none. */
  lemma DecodeStreamSentinelExample()
    ensures DecodeStream([[0x00, 0x00], [0x00, 0x48], [0x00, 0x00]]) == [None, Some(72), None]
  {
  }

  /**
   * `Sensor::hr_stream`: `subscription` is what subscribing to the sensor's
   * characteristic gave, the payloads it delivers or a library error. On
   * success the stream carries exactly one reading per payload, in order.
   */
  function HrStream(subscription: Wrappers.Result<seq<Payload>, Ble.Error>): (r: Result<seq<Reading>>)
    requires subscription.Success? ==> Decodable(subscription.value)
    ensures r.Failure? <==> subscription.Failure?
    ensures subscription.Failure? ==> r.error == BleError(subscription.error)
    ensures subscription.Success? ==>
      |r.value| == |subscription.value| &&
      forall i :: 0 <= i < |r.value| ==> RawValue(r.value[i]) == subscription.value[i][1] && r.value[i] != Some(0)
  {
    var payloads :- MapBleError(subscription);
    Success(DecodeStream(payloads))
  }

  // ---------------------------------------------------------------------
  // Scanning for sensors
  // ---------------------------------------------------------------------

  /** The filter `start` installs: the device exposes Heart Rate Measurement. */
  predicate HasHeartRate(chars: seq<Uuid>) {
    HEART_RATE_MEASUREMENT in chars
  }

  /**
   * The scan configuration `start` builds: accept exactly the devices whose
   * characteristics include Heart Rate Measurement, and stop after the first.
   */
  function HeartRateScanConfig(): (c: ScanConfig)
    ensures c.stopAfterFirstMatch
    ensures forall chars :: c.Accepts(chars) <==> HEART_RATE_MEASUREMENT in chars
  {
    ScanConfig.Default().FilterByCharacteristics(HasHeartRate).StopAfterFirstMatch()
  }

  /**
   * What `next_sensor` makes of a discovered `device` once the library has
   * answered the lookup of its heart-rate characteristic with `lookup`.
   */
  function Resolve(device: Device, lookup: Wrappers.Result<Option<Characteristic>, Ble.Error>): (r: Result<Option<Sensor>>)
    ensures r != Success(None)
    ensures r == Failure(CharacteristicNotFound) <==> lookup == Success(None)
    ensures lookup.Failure? <==> r.Failure? && r.error.BleError?
    ensures lookup.Failure? ==> r.error.cause == lookup.error
    ensures r.Success? ==> r.value.value.device == device && lookup == Success(Some(r.value.value.characteristic))
  {
    var found :- MapBleError(lookup);
    var characteristic :- found.OkOr(CharacteristicNotFound);
    Success(Some(Sensor(device, characteristic)))
  }

  /**
   * Scans for heart-rate sensors.
   *
   * `deviceStream` is what the library's device stream has still to yield,
   * `startedWith` the configurations handed to the library's `start`, in
   * order, and `lookedUp` the devices whose characteristic was looked up,
   * in order.
   */
  class Scanner {
    var deviceStream: seq<Device>
    var startedWith: seq<ScanConfig>
    ghost var lookedUp: seq<Device>

    /** A scanner whose library will discover `discovered`, in that order. */
    constructor (discovered: seq<Device>)
      ensures deviceStream == discovered && startedWith == [] && lookedUp == []
    {
      deviceStream := discovered;
      startedWith := [];
      lookedUp := [];
    }

    /**
     * `Scanner::start`: hands the heart-rate configuration to the library's
     * scanner, whose answer is `started`, and reports that answer.
     */
    method Start(started: Wrappers.Result<(), Ble.Error>) returns (r: Result<()>)
      modifies this
      ensures startedWith == old(startedWith) + [HeartRateScanConfig()]
      ensures deviceStream == old(deviceStream) && lookedUp == old(lookedUp)
      ensures r.Success? <==> started.Success?
      ensures started.Failure? ==> r == Failure(BleError(started.error))
    {
      startedWith := startedWith + [HeartRateScanConfig()];
      r := MapBleError(started);
    }

    /**
     * `Scanner::next_sensor`: takes the next discovered device, if any, and
     * looks up its heart-rate characteristic, which the library answers
     * with `lookup`. `Ok(None)` means the device stream has ended; then
     * nothing is looked up.
     */
    method NextSensor(lookup: Device -> Wrappers.Result<Option<Characteristic>, Ble.Error>) returns (r: Result<Option<Sensor>>)
      modifies this
      ensures startedWith == old(startedWith)
      ensures r == Success(None) <==> old(deviceStream) == []
      ensures old(deviceStream) == [] ==> deviceStream == [] && lookedUp == old(lookedUp)
      ensures old(deviceStream) != [] ==>
        var device := old(deviceStream)[0];
        && deviceStream == old(deviceStream)[1..]
        && lookedUp == old(lookedUp) + [device]
        && r == Resolve(device, lookup(device))
    {
      if deviceStream == [] {
        return Success(None);
      }
      var device := deviceStream[0];
      deviceStream := deviceStream[1..];
      lookedUp := lookedUp + [device];
      r := Resolve(device, lookup(device));
    }
  }

  /**
   * A scan that discovers a device without the heart-rate characteristic
   * and then one with it: the first call reports the missing
   * characteristic, the second yields the sensor, the third finds the
   * stream ended.
   */
  method ScanPastDeviceWithoutHeartRate() {
    var a, b := Device(1), Device(2);
    var hr := Characteristic(HEART_RATE_MEASUREMENT, 7);
    var lookup := (d: Device) => if d == b then Success(Some(hr)) else Success(None);
    var scanner := new Scanner([a, b]);
    var started := scanner.Start(Success(()));
    assert started.Success?;
    var first := scanner.NextSensor(lookup);
    assert first == Failure(CharacteristicNotFound);
    var second := scanner.NextSensor(lookup);
    assert second == Success(Some(Sensor(b, hr)));
    var third := scanner.NextSensor(lookup);
    assert third == Success(None);
    assert scanner.lookedUp == [a, b];
  }
}
