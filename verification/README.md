# PSA Car Controller integration — a Dafny model

This project models the core of the Home Assistant integration for a PSA Car
Controller server (`custom_components/psacc`).

The core has three layers:

- **The HTTP client** (`api.py`):
  - it strips trailing slashes from the base URL;
  - it joins the base URL with an endpoint path;
  - it turns every way a request can fail into one of its three exception classes.
  - Each command method swallows errors and returns a boolean.
  - The vehicle listing swallows errors and returns a list.
- **The refresh coordinator** (`coordinator.py`):
  - while its vehicle cache is empty it lists the vehicles on every cycle and caches them by VIN; once a VIN is cached it never lists again;
  - on every cycle it builds a fresh map of records, one per cached VIN.
  - A VIN whose status call returned gets its listing entry overlaid by the status.
  - A VIN whose status call failed keeps its previous record, or is left out when it has none.
- **The entities** (`sensor.py`, `binary_sensor.py`, `switch.py`, `number.py`,
  `select.py`, `device_tracker.py`):
  - each state is a chain of defaulted `.get` lookups into one vehicle record, except the tracker's source type and accuracy, which are constants;
  - each action is one client command followed by a refresh request, except selecting a charge mode, which sends no command and only requests a refresh.

Modules, one per file:

- `Json` (`json.dfy`) holds three things:
  - decoded JSON values;
  - the pieces of Python semantics the code relies on: truthiness, `dict.get` with a default, and `+`;
  - `Path`, a path navigator. Every nested lookup of the entities is specified against it.
- `Api` models a call of the client by its `Outcome`: it returns a value or raises a client error.
  - The network exchange is a parameter: `Network` maps a request to how the exchange ended.
  - So is the rendering of the endpoint templates (`Templates`).
- `Coordinator` holds two things:
  - the per-cycle merge as a specification function, `NextData`;
  - a class `DataUpdateCoordinator` with the two caches (`vehicles`, `data`) as fields.
  - Its `UpdateData` method runs the listing loop and the status loop of the source. It is proved against `Catalogue` and `NextData`.
- `Entity` holds what the entity platforms share:
  - record accessors and their readability conditions;
  - the device description;
  - the unique-id scheme;
  - the `Action` trace an entity action produces.
- `Sensor`, `BinarySensor`, `Switch`, `Number`, `Select` and `DeviceTracker` model one platform each.

A Python crash path is stated as a precondition (`...Readable` predicates). Examples:

- `.get` on a value that is not a dict;
- `[0]` on an empty list;
- `+` on operands that Python rejects;
- dict lookup with an unhashable key.

Handled error paths are modelled as values: `Outcome`, `Option`, defaults.

## Model

| member | source | states |
|---|---|---|
| Json.Add | custom_components/psacc/sensor.py:154 | Python `+`: integer sum for two ints; numeric sum for numbers (bool counts as 0/1), a float exactly when an operand is a float; concatenation for strings and for lists |
| Api.RStrip | custom_components/psacc/api.py:42 | the result is a prefix of the input and does not end with the character; everything removed was that character |
| Api.NewClient | custom_components/psacc/api.py:40-44 | the stored base URL never ends in `/`, and the URL given is the stored one followed only by slashes |
| Api.Issue | custom_components/psacc/api.py:50 | the request URL is exactly the base URL followed by the endpoint path; the method and body are passed through |
| Api.JoinHasOneSlash | custom_components/psacc/api.py:42-50 | with a non-empty stripped base and a path starting with `/`, the base adds no slash of its own at the join: the path's leading `/` follows a character that is not a slash |
| Api.Classify | custom_components/psacc/api.py:63-71 | returns iff the exchange completed, returning the decoded body; a timeout or client error raises the connection error, anything else the base error; the auth error is never raised |
| Api.Request | custom_components/psacc/api.py:46-71 | a request is one exchange for the formatted endpoint, classified as above |
| Api.GetVehicles | custom_components/psacc/api.py:73-80 | never raises; yields the response list, or `[]` on any error or a non-list response |
| Api.GetVehicleStatus | custom_components/psacc/api.py:82-85 | returns the decoded status iff the exchange completed; otherwise raises exactly the classified error |
| Api.CommandBody | custom_components/psacc/api.py:107-134 | only the threshold and schedule commands send a body, with exactly the keys `vin`/`percentage` and `vin`/`start`/`end` |
| Api.CommandEndpoint | custom_components/psacc/api.py:87-199 | start and stop charge post to the charge-now endpoint with `"1"` and `"0"`; each command posts to its own template (threshold and schedule to the fixed threshold and charge-hour endpoints); every other command carries its VIN in the path, climate start its temperature and horn and lights their count; no command uses the listing or status endpoint |
| Api.RequestDeterminesCommand | custom_components/psacc/api.py:87-199 | two commands that issue the same endpoint and body are the same command |
| Api.Execute | custom_components/psacc/api.py:87-204 | a command never raises, and reports True iff its POST exchange completed |
| Api.TestConnection | custom_components/psacc/api.py:206-213 | always True: the listing it calls never raises |
| Coordinator.VinOf | custom_components/psacc/coordinator.py:42-43 | an entry is cached iff its `vin` is truthy, under that (non-empty) string |
| Coordinator.Catalogue | custom_components/psacc/coordinator.py:41-44 | every cached VIN is non-empty and is cached with a listing entry that carries it (full characterisation in `CatalogueKeys` and `CatalogueLastWins`) |
| Coordinator.CatalogueKeys | custom_components/psacc/coordinator.py:39-44 | the cached VINs are exactly the truthy `vin` values of the listing |
| Coordinator.CatalogueLastWins | custom_components/psacc/coordinator.py:41-44 | for a VIN listed more than once, the last entry carrying it is cached |
| Coordinator.EmptyListing | custom_components/psacc/coordinator.py:39-61 | a listing with no truthy VIN caches nothing, and the cycle yields `{}` |
| Coordinator.NextData | custom_components/psacc/coordinator.py:47-59 | only cached VINs get records (the merge itself is characterised by `NextDataKeys`, `NextDataOverlay`, `NextDataStale`, `NextDataIsolation` and `NextDataNeverEvicts`) |
| Coordinator.NextDataKeys | custom_components/psacc/coordinator.py:47-59 | only cached VINs appear; a cached VIN appears iff its status call returned or it had a previous record |
| Coordinator.NextDataOverlay | custom_components/psacc/coordinator.py:51-54 | a returned status is overlaid on the listing entry: status keys win, entry-only keys survive |
| Coordinator.NextDataStale | custom_components/psacc/coordinator.py:55-59 | a failed status call keeps the previous record verbatim, or leaves the VIN out when there is none |
| Coordinator.NextDataIsolation | custom_components/psacc/coordinator.py:48-59 | one VIN's failure does not affect another VIN's record |
| Coordinator.NextDataNeverEvicts | custom_components/psacc/coordinator.py:55-59 | a VIN that had a record keeps one after the cycle |
| Coordinator.CollectStatuses | custom_components/psacc/coordinator.py:47-61 | the status loop, in any iteration order, computes the merge `NextData` |
| Coordinator.DataUpdateCoordinator.constructor | custom_components/psacc/coordinator.py:18-33 | a new coordinator has an empty vehicle cache and no records |
| Coordinator.DataUpdateCoordinator.UpdateData | custom_components/psacc/coordinator.py:35-61 | lists and caches the vehicles only when the cache is empty; the result is the merge of this cycle's statuses with the previous records; the records themselves are unchanged |
| Coordinator.DataUpdateCoordinator.Refresh | custom_components/psacc/coordinator.py:35-61 | the stored records become the cycle's result; every record stays under a cached VIN, and no VIN loses its record |
| Coordinator.DataUpdateCoordinator.GetVehicleData | custom_components/psacc/coordinator.py:66-68 | the VIN's record, or `{}` for a VIN with none |
| Coordinator.TwoEntryCatalogue | custom_components/psacc/coordinator.py:41-44 | listing two vehicles caches each under its own VIN with its own entry |
| Coordinator.FirstCycleData | custom_components/psacc/coordinator.py:47-59 | with no previous records, a failed status call leaves its VIN out and a returned one overlays its entry |
| Coordinator.SecondCycleData | custom_components/psacc/coordinator.py:47-59 | in a later cycle, the VIN whose call failed keeps its previous record while the other is overlaid afresh |
| Coordinator.DataUpdateCoordinator.GetAllVehicles | custom_components/psacc/coordinator.py:70-72 | the whole record map |
| Entity.Sub | custom_components/psacc/sensor.py:174 | `rec.get(key, {})` yields exactly the values reached by the path `key`, `k` |
| Entity.FirstEnergy | custom_components/psacc/sensor.py:109 | `rec.get("energy", [{}])[0]` yields exactly the values at path `energy`, `0`, `k` |
| Entity.Charging | custom_components/psacc/sensor.py:194 | the charging object yields exactly the values at path `energy`, `0`, `charging`, `k` |
| Entity.ChargingStatus | custom_components/psacc/binary_sensor.py:97-98 | the value at the charging `status` path, None when absent |
| Entity.Plugged | custom_components/psacc/binary_sensor.py:116-117 | the value at the charging `plugged` path, False when absent |
| Entity.ChargeThreshold | custom_components/psacc/sensor.py:277-278 | the value at the charging `charge_threshold` path, 100 when absent |
| Entity.AirConditioning | custom_components/psacc/binary_sensor.py:268-269 | the air-conditioning object yields exactly the values at path `preconditionning`, `airConditioning`, `k` |
| Entity.ClimateStatus | custom_components/psacc/binary_sensor.py:268-269 | the value at the air-conditioning `status` path, None when absent |
| Entity.Device | custom_components/psacc/sensor.py:80-89 | identified by the VIN; the name is the brand (default "PSA") and the model (default "Car") joined by a space, a null field shown as "None"; the model defaults to "Connected Car"; the software version is `firmware_version` or None |
| Entity.UniqueId | custom_components/psacc/sensor.py:104 | the id is the VIN followed by the suffix, so both can be read back |
| Entity.UniqueIdInjective | custom_components/psacc/sensor.py:102-290 | for one VIN, equal ids mean equal suffixes |
| Entity.CommandThenRefresh | custom_components/psacc/switch.py:91-94 | a command followed by a refresh request issues exactly that one command |
| Sensor.SensorUniqueIdsDistinct | custom_components/psacc/sensor.py:102-290 | the ten sensors of a VIN have ten different unique ids |
| Sensor.BatteryLevelValue | custom_components/psacc/sensor.py:109 | the value at `energy`, `0`, `level`, None when absent |
| Sensor.ElectricRangeValue | custom_components/psacc/sensor.py:129 | the value at `energy`, `0`, `autonomy`, None when absent |
| Sensor.ElectricPart | custom_components/psacc/sensor.py:150 | the first autonomy at its path when truthy; 0 when it is absent or falsy |
| Sensor.FuelPart | custom_components/psacc/sensor.py:151-153 | the second autonomy (0 when absent) when there are at least two energy entries, else 0 |
| Sensor.TotalRangeValue | custom_components/psacc/sensor.py:147-154 | None iff both parts are falsy, otherwise their Python sum |
| Sensor.TotalRangeOfIntegers | custom_components/psacc/sensor.py:147-154 | with two integer autonomies the total is their sum, or None when both are 0 |
| Sensor.TotalRangeSingleEntry | custom_components/psacc/sensor.py:151-154 | with one energy entry the total is the electric range, or None when it is 0 or absent |
| Sensor.MileageValue | custom_components/psacc/sensor.py:174 | the value at `odometer`, `mileage`, None when absent |
| Sensor.ChargingPowerValue | custom_components/psacc/sensor.py:194-197 | the charging rate while the status is "InProgress", 0 otherwise |
| Sensor.ChargingTimeValue | custom_components/psacc/sensor.py:216-219 | the remaining time while the status is "InProgress", None otherwise |
| Sensor.ConsumptionValue | custom_components/psacc/sensor.py:238 | the value at `environment`, `consumption`, None when absent |
| Sensor.ExteriorTemperatureValue | custom_components/psacc/sensor.py:258 | the value at `environment`, `temperature`, None when absent |
| Sensor.ChargeThresholdValue | custom_components/psacc/sensor.py:277-278 | the value at the charging `charge_threshold` path, 100 when absent |
| Sensor.LastUpdateValue | custom_components/psacc/sensor.py:295 | the top-level `updatedAt`, None when absent |
| Sensor.EmptyRecordSensors | custom_components/psacc/sensor.py:107-295 | for a VIN without a record every sensor is None, except charging power (0) and the threshold (100) |
| BinarySensor.BinarySensorUniqueIdsDistinct | custom_components/psacc/binary_sensor.py:90-263 | the ten binary sensors of a VIN have ten different unique ids |
| BinarySensor.ChargingIsOn | custom_components/psacc/binary_sensor.py:97-98 | on iff the charging status is "InProgress" |
| BinarySensor.PluggedIsOn | custom_components/psacc/binary_sensor.py:116-117 | the raw `plugged` value, False when absent |
| BinarySensor.DoorsLockedIsOn | custom_components/psacc/binary_sensor.py:135-136 | on iff the air-conditioning status is "Enabled" (no lock field is read) |
| BinarySensor.OpeningIsOn | custom_components/psacc/binary_sensor.py:154-250 | a door, the hood or the trunk is on iff its `doors` field is exactly "Open" |
| BinarySensor.ClimateIsOn | custom_components/psacc/binary_sensor.py:268-270 | on iff the air-conditioning status is "Enabled" or "InProgress" |
| BinarySensor.DoorsLockedImpliesClimate | custom_components/psacc/binary_sensor.py:135-136 | "doors locked" on implies climate on, as both read the same status |
| BinarySensor.EmptyRecordAllOff | custom_components/psacc/binary_sensor.py:95-270 | for a VIN without a record every binary sensor is off |
| Switch.ChargingSwitchIsOn | custom_components/psacc/switch.py:88-89 | on iff the charging status is "InProgress" |
| Switch.ChargingSwitchAvailable | custom_components/psacc/switch.py:104-105 | available iff `plugged`, False when absent |
| Switch.ClimateSwitchIsOn | custom_components/psacc/switch.py:122-124 | on iff the air-conditioning status is "Enabled" or "InProgress" |
| Switch.SwitchesAgreeWithBinarySensors | custom_components/psacc/switch.py:86-124 | each switch state equals the binary sensor reading the same field |
| Switch.ChargingTurnOn | custom_components/psacc/switch.py:91-94 | starts charging for the VIN, then requests a refresh |
| Switch.ChargingTurnOff | custom_components/psacc/switch.py:96-99 | stops charging for the VIN, then requests a refresh |
| Switch.ClimateTurnOn | custom_components/psacc/switch.py:126-129 | starts climate at 21.0 degrees, then requests a refresh |
| Switch.ClimateTurnOnEndpoint | custom_components/psacc/switch.py:126-129 | the command posts to the climate-start endpoint with 21.0 degrees |
| Switch.ClimateTurnOff | custom_components/psacc/switch.py:131-134 | stops climate for the VIN, then requests a refresh |
| Number.ThresholdValue | custom_components/psacc/number.py:91-92 | the value at the charging `charge_threshold` path, 100 when absent |
| Number.ThresholdAgreesWithSensor | custom_components/psacc/number.py:91-92 | the threshold control always shows the threshold sensor's value |
| Number.ClimateTemperatureValue | custom_components/psacc/number.py:118-119 | the air-conditioning `temperature`, 21.0 when absent |
| Number.Truncate | custom_components/psacc/number.py:96 | `int()` of a float truncates toward zero |
| Number.SetThreshold | custom_components/psacc/number.py:94-97 | sends the truncated value as the VIN's threshold, then requests a refresh |
| Number.ThresholdGridSentExactly | custom_components/psacc/number.py:78-97 | every value on the declared grid (50 to 100, step 5) is sent unchanged |
| Number.ThresholdFractionDropped | custom_components/psacc/number.py:96 | a non-whole value is sent with its fraction dropped |
| Number.SetTemperature | custom_components/psacc/number.py:121-125 | starts climate at the chosen temperature, then requests a refresh |
| Number.SetTemperatureEndpoint | custom_components/psacc/number.py:121-125 | the chosen temperature reaches the climate-start endpoint unchanged |
| Number.ClimateGridSentExactly | custom_components/psacc/number.py:105-125 | every value on the declared grid (16.0 to 28.0, step 0.5) starts climate at exactly that temperature |
| Select.OptionFor | custom_components/psacc/select.py:88-97 | the mapped option for a known mode name, "immediate" for anything else; always one of the three options |
| Select.CurrentOption | custom_components/psacc/select.py:84-97 | one of the three options, read from the charging `mode` path (absent reads as "immediate") |
| Select.ModeAliases | custom_components/psacc/select.py:88-95 | "now", "schedule" and "eco" map to "immediate", "scheduled" and "economic"; each option maps to itself |
| Select.ApiModeFor | custom_components/psacc/select.py:102-108 | "immediate", "scheduled" and "economic" map to the server names "now", "schedule" and "eco"; an unknown option maps to "now" |
| Select.SelectRoundTrip | custom_components/psacc/select.py:88-108 | the server mode chosen for an option reads back as that option |
| Select.RecordRoundTrip | custom_components/psacc/select.py:84-108 | a record reporting the mode chosen for an option shows that option |
| Select.SelectOption | custom_components/psacc/select.py:110-114 | selecting sends no command at all; it only requests a refresh |
| Select.SelectAvailable | custom_components/psacc/select.py:119-120 | available iff `plugged`, False when absent |
| DeviceTracker.TrackerUniqueId | custom_components/psacc/device_tracker.py:53 | the VIN followed by `_location` |
| DeviceTracker.Source | custom_components/psacc/device_tracker.py:72-75 | the source type is GPS for every record |
| DeviceTracker.LocationAccuracy | custom_components/psacc/device_tracker.py:91-94 | the accuracy is 50 meters for every record, not read from the position |
| DeviceTracker.Coordinates | custom_components/psacc/device_tracker.py:80-81 | the value at `position`, `geometry`, `coordinates`, `[]` when absent |
| DeviceTracker.Latitude | custom_components/psacc/device_tracker.py:80-82 | the second coordinate when there are at least two, None otherwise |
| DeviceTracker.Longitude | custom_components/psacc/device_tracker.py:87-89 | the first coordinate when there are at least two, None otherwise |
| DeviceTracker.LatitudeNullIffLongitudeNull | custom_components/psacc/device_tracker.py:78-89 | with non-null coordinates, latitude and longitude are both present or both None, and present iff there are at least two |
| DeviceTracker.ExtraAttributes | custom_components/psacc/device_tracker.py:99-107 | exactly the keys altitude, heading, updated_at and signal_quality, each the matching `position.properties` value or None |

## Left out

- The HTTP transport is a parameter (`Api.Network`). That covers the session, the 30-second timeout, `raise_for_status` and JSON decoding. Only how an exchange ended is modelled.
- The endpoint templates, `DOMAIN`, `MANUFACTURER`, icons, units and entity names live in const.py and in class attributes. The templates are a parameter (`Api.Templates`). const.py is not part of this model.
- Logging is not modelled. It has no effect on results.
- The event loop and `async`/`await` are not modelled, nor are the host's refresh scheduling and the coalescing of `async_request_refresh`.
  - A refresh request is an `Entity.RequestRefresh` action in a trace.
  - The host storing a cycle's result is `Coordinator.DataUpdateCoordinator.Refresh`.
- The `UpdateFailed` wrapper (coordinator.py:63-64) is not modelled. No call inside the cycle raises a client error past the inner handler, so it never fires.
- The coordinator's `data` is None in the host before the first refresh. The model starts it as an empty map. With None, the lookups at coordinator.py:58 and 68 would raise.
- config_flow.py:50-58 stores a VIN with the entry, but the coordinator never reads it (coordinator.py:18-33), so every listed vehicle is tracked.
- `__init__.py`, `config_flow.py`, `button.py` and every `async_setup_entry` are outside this model. They wire entities to the coordinator and add no logic of their own.
- The unique ids of the switch, number and select entities are plain VIN-plus-suffix strings (`Entity.UniqueId`). They have no separate members.
- Api.Execute: the commands' `bool` result is modelled, but not what the server does with a command.
- Coordinator.VinOf: a listing entry whose truthy `vin` is not a string (a number, say) is excluded by `EntryReadable`. Python would cache it under that key.
- Coordinator.DataUpdateCoordinator.UpdateData: a status that decodes to a non-object is excluded by `StatusReadable`. In Python the merge raises TypeError, which escapes both handlers.
- Entity.Device: `brand` and `model` must be strings or null. Python formats any value with `str()`, which is not modelled for numbers, lists or objects.
- DeviceTracker.Coordinates: coordinates that are an object, a number, a boolean or null are excluded by `CoordinatesReadable`. Python would return such a value as is; only latitude and longitude then go wrong.
- DeviceTracker.Latitude: coordinates that are an object are excluded by `CoordinatesReadable`. Python would give None for fewer than two keys and raise otherwise.
- DeviceTracker.Longitude: coordinates that are an object are excluded by `CoordinatesReadable`. Python would give None for fewer than two keys and raise otherwise.
- DeviceTracker.LatitudeNullIffLongitudeNull: it assumes the server sends no null coordinate. Python returns such a value as is.
- Python floats are modelled as unbounded `real`s, so rounding is not modelled. `Number.Truncate` is exact truncation toward zero.
- The "doors locked" binary sensor reads the air-conditioning status, not a lock field. It is modelled as written (`BinarySensor.DoorsLockedIsOn`).
