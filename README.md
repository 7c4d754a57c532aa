# elpriser sensors, modelled in Dafny

The elpriser integration for Home Assistant polls an electricity spot-price
service for one pricing area. Its coordinator keeps the last decoded JSON
payload as a shared snapshot. Thirteen sensors each read one field of that
snapshot. A sensor's key is a dotted path such as
`best_charging_period.duration`. On every read the sensor splits the key on
`.` and walks the snapshot one dict at a time. It reports no value when there
is no snapshot, when a key is missing, when it meets a non-dict, or when the
leaf is null. Otherwise it reports `float(leaf)` (price and number sensors) or
`str(leaf)` (text sensor).

The model, one module per concern:

- `Wrappers` (`wrappers.dfy`): `Option` and `Result`.
- `JsonValue` (`json.dfy`): the decoded JSON value (None, bool, int, float, str, list, dict).
- `PyText` (`pytext.dfy`): Python's `str.split(sep)` with `Join` as its inverse, and `str()` of an int with a decimal parser as its inverse.
- `PathLookup` (`lookup.dfy`): the path walk. `Walk` is a recursive function. `WalkLoop` is the sensors' `for key in keys` loop, proved equal to it.
- `Conversion` (`conversion.dfy`): `float()` and `str()` on a leaf, and the final null check.
- `Sensors` (`sensor.dfy`): the fetch rule, the coordinator, the sensor class, the list of sensors registered at setup, and the unique ids.

The three Python sensor classes (`ElprisPriceSensor`, `ElprisTextSensor`,
`ElprisNumberSensor`) are one Dafny class, `Sensors.Sensor`, with a `kind`
field. The classes share every line except the final conversion and their
display metadata, so the kind is the only thing that tells them apart.

`DOMAIN` is defined in `const.py`, which is not part of this model. It is a
parameter (`domain`) wherever it is used.

The fetch keeps the payload only for status exactly 200. Other success
statuses such as 201 or 204 also leave no snapshot, as the code does.

## Model

| member | source | states |
|---|---|---|
| `PyText.Split` | custom_components/elpriser/sensor.py:101 | `key.split('.')` always yields at least one segment, and no segment contains a dot |
| `PyText.JoinSplit` | custom_components/elpriser/sensor.py:101 | joining the segments with `.` gives back the key, so the walk visits exactly the key's segments, in order |
| `PyText.SplitJoin` | custom_components/elpriser/sensor.py:101 | splitting a dot-join of dot-free segments gives back exactly those segments |
| `PyText.SplitOnce` | custom_components/elpriser/sensor.py:64-66 | a key with one dot splits into the two pieces around it; a key without a dot splits into itself |
| `PyText.IntDecimalRoundTrip` | custom_components/elpriser/sensor.py:138 | `str()` of an int leaf is a numeral without a leading zero or a minus sign before zero, it starts with `-` exactly when the int is negative, and it parses back to the same int |
| `PathLookup.WalkLoop` | custom_components/elpriser/sensor.py:101-107 | the loop that reassigns `value` key by key returns exactly what the recursive walk returns, including None on the first missing key or non-dict |
| `PathLookup.WalkConcat` | custom_components/elpriser/sensor.py:103-105 | walking `p + q` is walking `p` and then `q` from where `p` ended: one level of descent per segment, in order |
| `PathLookup.WalkPrefixStep` | custom_components/elpriser/sensor.py:103-105 | the value after `i + 1` keys is the value after `i` keys, looked up under key `i` when it is a dict holding that key, and None otherwise |
| `PathLookup.WalkNoneIff` | custom_components/elpriser/sensor.py:104-107 | the walk gives None if and only if at some position the reached value is not a dict or lacks the key |
| `PathLookup.WalkSomeIff` | custom_components/elpriser/sensor.py:102-105 | the walk gives `leaf` if and only if there is a chain of dicts along the keys, each holding the next key, that ends in `leaf` |
| `PathLookup.WalkTwoKeys` | custom_components/elpriser/sensor.py:64-66 | a two-key path resolves through exactly two dict lookups, and gives None when either is missing |
| `Conversion.ToFloat` | custom_components/elpriser/sensor.py:108 | `float()` gives 1.0 and 0.0 for True and False, keeps floats and in-range ints exactly, gives the parsed value of a float literal string, and raises exactly: TypeError on None, list and dict, ValueError on a string that is not a float literal, OverflowError on an int of magnitude at least 2^1024 - 2^970 |
| `Conversion.ToStr` | custom_components/elpriser/sensor.py:138 | `str()` returns a string leaf unchanged, an int as a numeral with no leading zero that parses back to it and starts with `-` exactly when it is negative, and a bool as `True` or `False` |
| `Conversion.ToStrIntCanonical` | custom_components/elpriser/sensor.py:138 | `str()` of an int is the one numeral of that value without a leading zero or a minus sign before zero |
| `PyText.CanonicalDecimalUnique` | custom_components/elpriser/sensor.py:138 | two numerals without leading zeros that parse to the same int are the same text |
| `Conversion.ConvertLeaf` | custom_components/elpriser/sensor.py:108 | no value if and only if the leaf is null; otherwise the text kind gives exactly `str(leaf)`, and the numeric kinds give exactly `float(leaf)` or the very error it raises |
| `Sensors.FetchResult` | custom_components/elpriser/sensor.py:35-41 | the snapshot is the decoded payload exactly when the status is 200 and decoding succeeded; any other status and any exception give None |
| `Sensors.Coordinator.constructor` | custom_components/elpriser/sensor.py:43-49 | a new coordinator holds no snapshot |
| `Sensors.Coordinator.Refresh` | custom_components/elpriser/sensor.py:47 | a refresh replaces the snapshot with the fetch result, so a failed fetch clears it instead of keeping old data |
| `Sensors.UniqueIdInjective` | custom_components/elpriser/sensor.py:83 | within one domain, `DOMAIN_key` ids are equal if and only if the keys are equal |
| `Sensors.Sensor.constructor` | custom_components/elpriser/sensor.py:78-83 | a sensor keeps its coordinator, kind and key, and its unique id is the domain, `_`, then the key |
| `Sensors.Sensor.NativeValue` | custom_components/elpriser/sensor.py:94-108 | a read returns the sensor value of the coordinator's current snapshot for the sensor's kind and key |
| `Sensors.NoValueIff` | custom_components/elpriser/sensor.py:97-108 | for every kind, no value if and only if there is no snapshot, some segment fails to resolve, or the leaf is null |
| `Sensors.KindsAgree` | custom_components/elpriser/sensor.py:131-138 | whether a value is found does not depend on the kind, and price and number sensors report the same value |
| `Sensors.LeafReported` | custom_components/elpriser/sensor.py:170 | a non-null leaf is reported as `str(leaf)` by the text kind and as `float(leaf)`, or the error it raises, by the other two |
| `Sensors.FailedFetchSilencesSensors` | custom_components/elpriser/sensor.py:37-41 | after a fetch that yields no payload, every sensor of every kind and key reports no value |
| `Sensors.NullPayloadReadsNothing` | custom_components/elpriser/sensor.py:102-107 | a JSON `null` payload reads as no value for every sensor |
| `Sensors.RegisteredIdsDistinct` | custom_components/elpriser/sensor.py:53-67 | the thirteen registered keys are pairwise distinct, and so are their unique ids |
| `Sensors.SetupListIsRegistered` | custom_components/elpriser/sensor.py:53-67 | the thirteen constructor calls written out in setup, in order, build exactly the registered kinds and keys, and their unique ids are pairwise distinct |
| `Sensors.CreateSensors` | custom_components/elpriser/sensor.py:53-67 | the list literal creates thirteen new sensors whose kinds and keys are the registered list in order, all on the given coordinator, with pairwise distinct unique ids |
| `Sensors.SetupEntry` | custom_components/elpriser/sensor.py:18-69 | setup refreshes a new coordinator once, so it holds the first fetch's result, then creates thirteen new sensors whose kinds and keys are the registered list in order, all sharing that coordinator, with pairwise distinct unique ids |
| `Sensors.TopLevelKeyRead` | custom_components/elpriser/sensor.py:54 | a dot-free key reads the converted top-level entry, or no value when it is absent |
| `Sensors.NestedKeyRead` | custom_components/elpriser/sensor.py:65 | an `outer.inner` key reads the converted entry of the dict under `outer`, or no value when either lookup fails |
| `Sensors.SampleCurrentPrice` | custom_components/elpriser/sensor.py:54 | with payload `{"current_price": 0.5, ...}` the price sensor reads 0.5 |
| `Sensors.SampleChargingStart` | custom_components/elpriser/sensor.py:64 | with `best_charging_period.start_time` equal to `"02:00"` the text sensor reads `"02:00"` |
| `Sensors.SampleChargingDuration` | custom_components/elpriser/sensor.py:65 | with `best_charging_period.duration` equal to the int 3 the number sensor reads 3.0 |
| `Sensors.SampleMissingAverage` | custom_components/elpriser/sensor.py:66 | when `best_charging_period` has no `average_price`, that sensor reads no value |

## Left out

- HTTP I/O through aiohttp: a fetch is given as its outcome (status and decoded body, or a client exception). The request URL built from the pricing area is not modelled: the outcome stands for whatever that request returned.
- The `DataUpdateCoordinator` timer, its update interval and the async scheduling of refreshes: `Coordinator.Refresh` is one poll, called by whoever drives it.
- Logging of failed fetches and failed setup: it has no effect on the values.
- Reading `område` and `update_interval` from `hass.data` at setup, and re-raising setup errors to the host: host configuration plumbing.
- Unit of measurement, device class, state class, display precision and the `name` property: display metadata without behaviour. The Swedish display names given at setup are therefore not part of `Sensors.Registered` or `Sensors.Sensor`.
- `config_flow.py` and `__init__.py`: the configuration form and the entry setup and unload wiring of the host.
- `DOMAIN` and `PRICE_AREAS`: `const.py` is not part of this model, so the domain is a parameter. Pricing areas enter only the request URL, which is not modelled.
- Conversion.ToFloat: floating-point rounding is not modelled. In-range ints and floats are exact reals, and parsing a float from a string is a parameter of `Conversion.Runtime`. Only the overflow bound of the int-to-double conversion is modelled.
- Conversion.ToStr: the text form of a float and of a list or dict is a parameter of `Conversion.Runtime`. Only strings, ints, bools and None are rendered by the model itself.
- JSON `NaN` and `Infinity`, which Python's decoder accepts, have no counterpart among the model's numbers. Neither do the infinities and NaN that `float()` returns for string leaves such as `"inf"`, `"nan"` or `"1e999"`: `Conversion.Runtime.parseFloat` yields only finite values, so for such a string it must either fail or give a finite number.
- A payload that is JSON `null` is held as `Some(JNull)` rather than as a missing snapshot. Every sensor still reads no value from it (`Sensors.NullPayloadReadsNothing`), as in Python.
- How the host reacts when `float()` raises inside `native_value`: the model returns `ConversionFailed` as the reading.
