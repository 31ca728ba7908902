# nrf-device-lister: a Dafny model of the conflation core

nrf-device-lister enumerates Nordic development kits and other USB, serial-port
and J-Link devices. Each backend reports an array of capability objects. A
`DeviceLister` merges these objects into one map from serial number to device,
and emits `error`, `noserialnumber` and `conflated` events. This project
models three parts of it:

- **DeviceListing**, **ConflationProperties** (`src/device-lister.js`):
  - The class `DeviceLister` holds its backend list, its current device map
    and a ghost log of the events it has emitted.
  - The constructor picks the backends from the capability flags.
  - `Conflate` is `_conflate`: two nested loops, one over the backends and one
    over each backend's result array. An element of that array is a
    `Fragment`: a capability object, or `undefined` or `null`, on which the
    loop stops as the TypeError does.
  - `Reenumerate` is `reenumerate` once its backends have settled, taking
    either all results or a rejection.
  - Pure functions describe what the loops compute: `MergeAll`, `EventsOf`
    and `Conflation`; `Leading` gives the capability objects reached before
    an `undefined` or `null` element. ConflationProperties proves what the source promises
    about them.
- **BoardVersions** (`src/util/board-versions.js`) covers the `BoardVersion`
  table and `getBoardVersion`:
  - A `"PCA…"` serial gives its text before the first `_`.
  - Any other serial is read with `parseInt(…, 10)`. The canonical decimal
    text of the result is looked up by its 4-character prefix, then by its
    3-character prefix.
- **UsbIds** (`src/util/usb.js`) covers `hexpad4` and `getDeviceId`. It also
  has a parser, `ParseDeviceId`, that reads an identifier back. This is used
  to prove that identifiers are injective.

Shared modules:

- **NumText**: digit text in radix 10 and 16, as `Number.prototype.toString`
  writes it and as a digit string is read.
- **JsValues**: JavaScript values, property access and truthiness.
- **Strings** and **Wrappers**: string helpers and `Option`.

How the JavaScript semantics are represented:

- **Capability objects** are `map<string, Value>`.
- **Device-map keys** use Dafny equality on `Value`. That equality agrees with
  SameValueZero, which a JavaScript `Map` uses, on the values modelled here.
- **`Object.assign({}, device, capability)`** is the right-biased map union
  `device + capability`.
- **`serialNumber.match(/^\d+$/)` followed by `Number(…)`** becomes
  `Num(DecimalValue(s))`, an exact natural number.

What `src/device-lister.js` does in this revision:

- there is no reenumeration throttle and no error deduplication;
- capability objects are merged by plain `Object.assign`, so a later object
  overwrites an earlier object's property of the same name;
- a fragment without a serial number raises `noserialnumber`, with the
  fragment itself as the argument;
- a digit-string serial is keyed by the number, not by its canonical text;
- `_conflate` destructures each element of a result array, so an element
  that is `undefined` or `null` throws a TypeError partway through the
  round. The events emitted before it stay. The current devices keep their
  old value, no 'conflated' follows, and the `.catch` of `reenumerate`
  emits 'error' with the TypeError. The model covers this path although no
  backend of this revision delivers such an element: the per-device promise
  at src/usb-backend.js:55-57 never resolves, so the success branch that
  would leave `undefined` in the array is never reached.

## Model

| member | source | states |
|---|---|---|
| `JsValues.Truthy` | src/device-lister.js:82-86 | a value is falsy exactly when it is undefined, null, false, 0, NaN or the empty string, as `if (x)` and `!x` test it |
| `DeviceListing.RankIsPosition` | src/device-lister.js:24-28 | the rank of each backend is its position in the fixed order usb, nordicUsb, seggerUsb, serialport, jlink, and the reverse |
| `DeviceListing.DeviceLister.constructor` | src/device-lister.js:13-31 | the backend list is SelectBackends of the capabilities (the five flags read in the fixed order); the device map and event log start empty |
| `DeviceListing.SelectBackendsUnfolded` | src/device-lister.js:22-28 | the filter of the fixed order usb, nordicUsb, seggerUsb, serialport, jlink is the result of the five conditional pushes |
| `ConflationProperties.BackendSelection` | src/device-lister.js:22-28 | a backend is selected exactly when its flag is truthy, and the selection is strictly ordered (so no backend appears twice) |
| `ConflationProperties.OtherFlagsIgnored` | src/device-lister.js:22-28 | setting any capability other than the five backend flags (e.g. nordicDfu) does not change the backend list |
| `DeviceListing.NormalizeKey` | src/device-lister.js:91-95 | a string of one or more decimal digits becomes the number it denotes; every other value, including any other string, is kept; no key is ever a digit string |
| `DeviceListing.Classify` | src/device-lister.js:81-99 | 'error' exactly when the error is truthy; 'noserialnumber' exactly when the error is falsy and the serial number is falsy; otherwise the object is stored under the normalised serial number |
| `DeviceListing.Store` | src/device-lister.js:82-99 | an error or no serial number leaves the map unchanged; otherwise only the entry under the object's key changes: it gains the key, keeps every other entry, holds exactly the properties of the old entry and the object, takes the object's value for each property the object has, and keeps the old value of each property only the old entry has |
| `DeviceListing.Leading` | src/device-lister.js:79-81 | the capability objects in order up to the first `undefined` or `null` element, which is where destructuring throws; all of them exactly when no element is undefined or null |
| `DeviceListing.ThrowAt` | src/device-lister.js:79-81 | reaching an undefined or null element of backend i at position j: the round is one that throws, and the objects reached are the earlier backends' objects and the first j of backend i |
| `DeviceListing.DeviceLister.ConflateCapability` | src/device-lister.js:80-100 | one capability object: the device map becomes Store of it and the log grows by exactly its events (error, noserialnumber or nothing) |
| `DeviceListing.DeviceLister.Conflate` | src/device-lister.js:74-107 | it throws exactly when some element is undefined or null. Otherwise the current devices become the conflation of this round only, with no carry-over, and the log gains the round's error/noserialnumber events in backend-then-array order, then exactly one 'conflated' carrying the new map. When it throws, the log gains the events of the objects before that element, and the current devices are unchanged |
| `DeviceListing.DeviceLister.Reenumerate` | src/device-lister.js:54-72 | given one result array per selected backend: a round without undefined or null elements is conflated as above; a round with one gets the events up to it, then one 'error' for the TypeError, and the current devices are unchanged; a rejection gives one 'error' with the reason and no 'conflated', and the current devices are unchanged; the backend list never changes |
| `ConflationProperties.MergeKeys` | src/device-lister.js:79-102 | the map's keys are exactly the normalised serials of the objects with no truthy error and a truthy serial number |
| `ConflationProperties.KeysIgnoreOrder` | src/device-lister.js:79-102 | permuting the capability objects does not change the key set |
| `ConflationProperties.EntryIsMergeOfMatching` | src/device-lister.js:97-99 | a key is present iff some object is stored under it, and its device is the left-to-right Object.assign of all those objects |
| `ConflationProperties.AssignHas` | src/device-lister.js:98 | a merged device has a property iff one of its objects has it |
| `ConflationProperties.AssignLastWins` | src/device-lister.js:98 | on a shared property name the last object that has it supplies the value |
| `ConflationProperties.StoredDevices` | src/device-lister.js:82-99 | every stored device has no truthy error and a truthy serialNumber that normalises back to its key |
| `ConflationProperties.StoredSerialIsLast` | src/device-lister.js:93-98 | the stored serialNumber is the raw value of the last object merged under the key, not the normalised key |
| `ConflationProperties.ReportedIgnored` | src/device-lister.js:82-89 | objects with an error or without a serial number do not affect the map: conflating only the stored ones gives the same map |
| `ConflationProperties.EventsAccount` | src/device-lister.js:79-102 | each object is stored or reported, once; the events are one per reported object in order ('error' if its error is truthy, else 'noserialnumber'); none is 'conflated' |
| `ConflationProperties.StringKeys` | src/device-lister.js:91-95 | two string serials share a key iff they are equal or both are digit strings of the same value |
| `ConflationProperties.LeadingZerosShareKey` | src/device-lister.js:91-95 | leading zeros do not change a digit string's key, which equals the key of its number |
| `ConflationProperties.KeyExamples` | src/device-lister.js:91-95 | "007", "7" and 7 share the key 7; "00AB" is kept literally and differs from "AB"; "0" is keyed as 0 |
| `ConflationProperties.NormalizeKeyIdempotent` | src/device-lister.js:91-95 | normalising a key again changes nothing |
| `ConflationProperties.ClassifyExamples` | src/device-lister.js:81-89 | a truthy error wins over any serial; no serial, "" and 0 are 'noserialnumber'; the string "0" is keyed as 0 |
| `BoardVersions.GetBoardVersion` | src/util/board-versions.js:14-21 | a "PCA" serial gives a prefix of it with no '_' that stops at the first '_' or the end; any other gives undefined or a table value, by prefix lookup of the canonical parseInt text |
| `BoardVersions.LookupPrefix` | src/util/board-versions.js:19-20 | the 4-character prefix wins when it is in the table, else the 3-character prefix, else undefined; a result is always a table value |
| `BoardVersions.SkipWhiteSpace` | src/util/board-versions.js:18 | parseInt's white-space skip removes only white space, and leaves a suffix that starts with no white space |
| `BoardVersions.ParseInt10` | src/util/board-versions.js:18 | text starting with a digit parses to a non-negative integer; empty text, or text starting with anything but white space, a sign or a digit, parses to NaN |
| `BoardVersions.DigitRun` | src/util/board-versions.js:18 | parseInt reads the longest run of decimal digits |
| `BoardVersions.ParseIntOfDigitStart` | src/util/board-versions.js:18 | text starting with a digit parses to the value of its leading digit run |
| `BoardVersions.ParseIntLeadingZero` | src/util/board-versions.js:18 | a leading zero before a digit does not change what parseInt returns |
| `BoardVersions.CanonicalOfDigits` | src/util/board-versions.js:18 | a digit string with no leading zero is its own `parseInt(…).toString()` |
| `BoardVersions.LeadingZeroIgnored` | src/util/board-versions.js:18-20 | "0" + s and s give the same board version for s starting with a digit |
| `BoardVersions.NotANumberGivesUndefined` | src/util/board-versions.js:18-20 | a non-PCA serial that starts with no white space, sign or digit parses to NaN and gives undefined |
| `BoardVersions.DigitSerialLookup` | src/util/board-versions.js:18-20 | a digit serial with no leading zero is looked up by its own prefixes |
| `BoardVersions.BoardNamesArePcaNames` | src/util/board-versions.js:1-12 | every board name starts with "PCA" and has no '_' |
| `BoardVersions.GetBoardVersionIdempotent` | src/util/board-versions.js:1-21 | getBoardVersion of a returned board version gives it back |
| `BoardVersions.TestCase680` | test/lister.test.js:114 | '68000000' gives PCA10031, by its three-character prefix |
| `BoardVersions.TestCase681` | test/lister.test.js:115 | '68100000' gives PCA10028, by its three-character prefix |
| `BoardVersions.TestCase682` | test/lister.test.js:116 | '68200000' gives PCA10040, by its three-character prefix |
| `BoardVersions.TestCase683` | test/lister.test.js:117 | '68300000' gives PCA10056, by its three-character prefix |
| `BoardVersions.TestCase684` | test/lister.test.js:118 | '68400000' gives PCA10068, by its three-character prefix |
| `BoardVersions.TestCase686` | test/lister.test.js:119 | '68600000' gives PCA10064, by its three-character prefix |
| `BoardVersions.TestCase9600` | test/lister.test.js:120 | '96000000' gives PCA10090: the four-character prefix wins |
| `BoardVersions.TestCase123` | test/lister.test.js:122 | '12300000' gives undefined: neither prefix is known |
| `UsbIds.Hexpad4` | src/util/usb.js:111-113 | starts with "0x" and is at least 6 long; exactly 6 for 0 <= n < 0x10000, longer (never truncated) above; the digits after "0x" are lower-case hex whose value is n |
| `UsbIds.PadStart` | src/util/usb.js:112 | padStart adds only zeros in front, up to the target length |
| `UsbIds.HexWidth` | src/util/usb.js:112 | the hex text of n has at most k digits iff n < 16^k |
| `UsbIds.Hexpad4Examples` | src/util/usb.js:111-113 | 0xa gives "0x000a" and 0x1915 gives "0x1915" |
| `UsbIds.Hexpad4RoundTrip` | src/util/usb.js:112 | reading hexpad4(n) back as hex gives n, and it holds no '/' |
| `UsbIds.GetDeviceId` | src/util/usb.js:121-126 | splitting the identifier at the first '.', ' ' and '/' recovers bus, address, vendor and product |
| `UsbIds.DeviceIdInjective` | src/util/usb.js:122-126 | distinct devices get distinct identifiers |
| `NumText.IntToString` | src/util/board-versions.js:18 | `toString(radix)` of an integer is never empty and starts with '-' exactly when the integer is negative |
| `NumText.DigitsIn` | src/util/usb.js:112 | `toString(radix)` of n >= 0: non-empty digits of the radix with value n, and no leading zero unless n is 0 |
| `NumText.CanonicalDigits` | src/util/board-versions.js:18 | a digit string without a leading zero is the toString of its value |
| `NumText.LeadingZeros` | src/util/usb.js:112 | zeros added in front do not change a digit string's value |

## Left out

- Floating point is not modelled. `Number(serialNumber)` and
  `parseInt(…).toString()` are modelled as exact integers: a serial
  number is assumed to have at most 15 digits. The model does not
  capture loss of precision above 2^53 or exponent notation at 1e21 and
  above. Non-integer numbers are not part of `Value`.
- The iteration order of a JavaScript `Map` is not modelled: the device
  map is a Dafny `map`. Insertion order shows only when a listener
  iterates the 'conflated' map.
- The event emitter is modelled only as a log of events. Listeners,
  their re-entrancy, and Node's rule that an 'error' event with no
  listener throws are not modelled; the model assumes a listener is
  attached. The `debug` logging, including the capability name it
  prints, is not modelled either.
- `DeviceListing.DeviceLister.Reenumerate`: the `Promise.all` fan-out is
  not modelled. The model does not call the backends or return the
  pending promises, and takes the settled outcome of a round as input.
  With several rejections, `Promise.all` reports whichever settles
  first; the model takes that reason as given.
- `start`, `stop` and the USB attach/detach subscription are not
  modelled: they are event wiring to libusb.
- `static get devices` is not modelled: it reads
  `Object.this._currentDevices`. `Object.this` is undefined, so reading
  `._currentDevices` from it throws a TypeError.
- A `null` capabilities argument to the constructor is not modelled:
  destructuring it throws. A missing argument is modelled as the empty
  map.
- A result-array element that is a primitive other than `undefined` or
  `null`, such as a number or a string, is not modelled: no backend
  produces one.
- The imports at src/device-lister.js:6 are not modelled. They ask
  src/usb-backend.js for named exports `reenumerateUsb`,
  `reenumerateSeggerUsb` and `reenumerateNordicUsb`, but that file has
  only a default export (src/usb-backend.js:37). The model treats each
  backend as a source of one result array per round.
- The backends, in src/usb-backend.js, src/serialport-backend.js and
  src/jlink-backend.js, are not modelled. Their results enter only as
  the capability objects given to `Conflate`. src/abstract-backend.js
  has no logic.
- `openDevice`, `getStringDescriptor` and `getStringDescriptors` in
  src/util/usb.js are not modelled: they are hardware I/O, timers and
  random back-off.
- src/util/versions.js is not part of this model: it is an older copy
  of the board-version table.
- bin/device-lister.js and the hardware-dependent tests are not part of
  this model.
- `BoardVersions.GetBoardVersion` takes the serial number's string form,
  `serialNumber.toString()`. Calling it with `undefined` or `null`, which
  throws, is not modelled.
- `UsbIds.Hexpad4` states its digit and value properties only for
  n >= 0. For negative n the text after "0x" is the zero-padded `"-…"`
  form that JavaScript gives.
