/**
 * The parts of the BLE library that the heart-rate client talks to, as values.
 * Only what the client passes in or gets back is modelled: device and
 * characteristic handles are opaque identities, library errors are opaque
 * causes, and the scan configuration is a record built with the library's
 * builder calls. What the library does with a configuration is not modelled.
 */
module Ble {
  import opened Wrappers

  /** An unsigned 8-bit value, Rust's `u8`. */
  newtype u8 = x: int | 0 <= x < 0x100

  /** A 128-bit Bluetooth UUID. */
  newtype Uuid = x: int | 0 <= x < 0x1_0000_0000_0000_0000_0000_0000_0000_0000

  /**
   * The Heart Rate Measurement characteristic, assigned number 0x2A37,
   * expanded over the Bluetooth base UUID 0000xxxx-0000-1000-8000-00805F9B34FB.
   */
  const HEART_RATE_MEASUREMENT: Uuid := 0x0000_2A37_0000_1000_8000_0080_5F9B_34FB

  /** A handle on a discovered peripheral; only its identity matters here. */
  datatype Device = Device(address: nat)

  /** A handle on one characteristic of a connected peripheral. */
  datatype Characteristic = Characteristic(uuid: Uuid, handle: nat)

  /** An error reported by the BLE library; its cause is opaque to the client. */
  datatype Error = Error(cause: string)

  /**
   * The scan configuration handed to the library's scanner: an optional
   * filter over the characteristics a device exposes, and whether the
   * scan ends after the first device that passes the filters.
   */
  datatype ScanConfig = ScanConfig(characteristicsFilter: Option<seq<Uuid> -> bool>, stopAfterFirstMatch: bool) {

    /** The library's default configuration: no filter, no early stop. */
    static function Default(): (c: ScanConfig)
      ensures !c.stopAfterFirstMatch
      ensures forall chars :: c.Accepts(chars)
    {
      ScanConfig(None, false)
    }

    /** Builder step: devices must satisfy `filter` over their characteristics. */
    function FilterByCharacteristics(filter: seq<Uuid> -> bool): (c: ScanConfig)
      ensures c.stopAfterFirstMatch == stopAfterFirstMatch
      ensures forall chars :: c.Accepts(chars) <==> filter(chars)
    {
      this.(characteristicsFilter := Some(filter))
    }

    /** Builder step: the scan ends once one device has matched. */
    function StopAfterFirstMatch(): (c: ScanConfig)
      ensures c.stopAfterFirstMatch
      ensures forall chars :: c.Accepts(chars) <==> Accepts(chars)
    {
      this.(stopAfterFirstMatch := true)
    }

    /** Whether a device exposing `chars` passes the characteristics filter. */
    predicate Accepts(chars: seq<Uuid>) {
      characteristicsFilter.None? || characteristicsFilter.value(chars)
    }
  }
}
