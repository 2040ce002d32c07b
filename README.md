# blehr in Dafny

A model of `blehr`, a small Rust client that finds Bluetooth Low Energy
heart-rate sensors and streams their readings, built on the `bleasy` BLE
library. The model covers the client's own logic in `src/lib.rs`:

- the scan configuration `Scanner::start` hands to the library: a filter that
  accepts a device exactly when its characteristics include Heart Rate
  Measurement (UUID 0x2A37 over the Bluetooth base UUID), with
  stop-after-first-match set;
- `Scanner::next_sensor`, which pulls one device from the library's device
  stream and classifies the outcome: `Ok(None)` when the stream has ended,
  `Err(BleError(e))` when the characteristic lookup fails,
  `Err(CharacteristicNotFound)` when the device lacks the characteristic, and
  otherwise `Ok(Some(sensor))` holding the device and its characteristic
  (`Sensor::new`);
- `Sensor::hr_stream`, which maps each notification payload of the Heart Rate
  Measurement characteristic to a reading: byte 1 as beats per minute, with
  0 meaning "no current reading" (`None`), never a reading of zero; the
  flags byte is not read;
- the client's `Error` enum and the wrapping of library errors.

Files: `wrappers.dfy` (Rust-like `Option` and `Result`), `ble.dfy` (the
library's types as the client sees them: bytes, UUIDs, device and
characteristic handles, library errors, the scan-configuration builder),
`streams.dfy` (`filter_map` on finite streams), `blehr.dfy` (the client).

Streams are finite sequences: a stream that has delivered its items is the
sequence of them. What a library call returns (the answer to `start`, the
characteristic lookup, the subscription) is a parameter of the operation that
makes the call. The `Scanner` class holds the devices the library's device
stream has still to yield, the configurations handed to the library's
`start`, and (as ghost state) the devices whose characteristic was looked up.

The decoder reads the value byte as an 8-bit value whatever the flags byte
says. A sensor that sends its value in the 16-bit format of the Heart Rate
Measurement characteristic is misread. The model keeps that behaviour and
does not interpret the flags.

## Model

| member | source | states |
|---|---|---|
| Blehr.MapBleError | src/lib.rs:50-53 | a library error becomes `BleError` carrying the same cause; a success passes through unchanged |
| Blehr.Decode | src/lib.rs:88-94 | the closure always keeps the item (`Some`), never yields a reading of 0, and the reading stands for exactly byte 1 of the payload |
| Blehr.DecodeZeroIsNoReading | src/lib.rs:89-90 | byte 1 is zero if and only if the reading is `None` ("no current reading"); `Some(0)` never occurs |
| Blehr.DecodeNonZeroIsBpm | src/lib.rs:91-92 | byte 1 is non-zero if and only if the reading is `Some(byte 1)`, the byte unchanged |
| Blehr.DecodeReadsOnlyValueByte | src/lib.rs:89-92 | two payloads decode alike if and only if they agree at byte 1, whatever their flags byte or trailing bytes |
| Blehr.DecodeMeasurement | src/lib.rs:88-94 | a two-byte measurement built from any flags byte and any reading other than `Some(0)` decodes back to that reading |
| Blehr.MeasurementOfDecode | src/lib.rs:88-94 | a two-byte payload is rebuilt from its flags byte and its decoded reading |
| Blehr.DecodeStream | src/lib.rs:88-94 | decoding N payloads yields exactly N readings, the i-th being the decoding of the i-th payload |
| Blehr.DecodeStreamAppend | src/lib.rs:88-94 | decoding a stream in two parts gives the readings of the whole stream |
| Blehr.DecodeStreamSentinelExample | src/lib.rs:79-94 | payloads `00 00`, `00 48`, `00 00` read as none, 72, none |
| Blehr.HrStream | src/lib.rs:81-95 | a subscription error becomes `BleError` with the same cause; otherwise one reading per payload, in order, each standing for that payload's byte 1 and never `Some(0)` |
| Blehr.HeartRateScanConfig | src/lib.rs:32-34 | the configuration accepts a device if and only if its characteristics include Heart Rate Measurement, and stops after the first match |
| Blehr.Resolve | src/lib.rs:50-56 | a discovered device never yields `Ok(None)`; the result is `CharacteristicNotFound` exactly when the lookup found nothing, `BleError` with the lookup's cause exactly when the lookup failed, and otherwise a sensor holding that device and the characteristic found |
| Blehr.Scanner.constructor | src/lib.rs:23-28 | a new scanner has handed no configuration to the library and looked nothing up; its device stream is the given discovery order |
| Blehr.Scanner.Start | src/lib.rs:31-40 | the heart-rate configuration is handed to the library once more; the result is the library's answer with its error wrapped as `BleError`; the device stream is untouched |
| Blehr.Scanner.NextSensor | src/lib.rs:44-57 | `Ok(None)` exactly when the device stream has ended, and then nothing is looked up; otherwise exactly one device is consumed, its characteristic looked up once, and the result is that device's `Resolve` |
| Streams.FilterMap | src/lib.rs:88 | `filter_map` never yields more items than it is given |
| Streams.FilterMapAppend | src/lib.rs:88 | `filter_map` over a concatenation is the concatenation of the parts' results |
| Streams.FilterMapKeepsAll | src/lib.rs:88-94 | when the closure keeps every item, `filter_map` yields one item per input in the input's order |

## Left out

- `Scanner::new` (src/lib.rs:24-28): acquiring the library's scanner is a library call; the Dafny constructor instead takes the device stream the library will yield.
- `Scanner::stop` (src/lib.rs:60-62) and `Sensor::name` (src/lib.rs:97-99): pure pass-throughs to the library, with no logic of the client's own.
- Subscribing to the characteristic (src/lib.rs:82-86): the library call is a parameter of `HrStream` (the payloads it delivers, or its error).
- What the library does with the scan configuration (which devices pass the filter, when scanning halts): the library's behaviour is not part of this model, so the device stream is an input.
- Blehr.Decode: a payload shorter than two bytes makes the indexing panic in the source; the model states this as the precondition `|n| >= 2` instead of modelling the panic.
- Asynchronous execution, pinned boxed streams, suspension and timing: streams are finite sequences of the items they delivered.
- Decoding 16-bit heart-rate values and reading the flags byte: the source does neither.
- `examples/basic.rs`: a demonstration loop that prints to the console.
