# DayBetter local light and outlet entities, modelled in Dafny

This project models the Home Assistant side of the DayBetter local integration:

- the two rules that decide which entities a discovered device gets: `is_light_device` and `is_outlet_device`;
- the light entity `DayBetterLight`. This covers the colour modes, effect list and colour-temperature range fixed in `__init__`, and the cached state fields (`_cached_on`, `_cached_brightness`, `_cached_rgb_color`, `_cached_temperature_color`, `_cached_scene`, plus `_attr_effect`, `_attr_color_mode` and `_last_color_state`). It also covers the read accessors, `_update_state_from_cache`, `async_turn_on`, `async_turn_off`, and the save and restore of the last colour state;
- the identifiers and `is_on` of the outlet entity `DayBetterOutletSwitch`.

Files and modules:

- `wrappers.dfy` (`Wrappers`): `Option`.
- `device_api.dfy` (`DeviceApi`): the device record of the DayBetter API library. This is its fingerprint, model number (SKU), optional capability record and `on` attribute.
- `text.dfy` (`Text`): Python's `str.lower()` and `in` on strings.
  - `Occurs` is the reference meaning of `in`: the word occurs at some position.
  - `Contains` is the left-to-right scan, proved equivalent to `Occurs`.
- `coordinator.py` is a thin collaborator, modelled in `coordinator.dfy` (`Coordinator`). The light sees it as:
  - an availability flag;
  - an optional live device object, whose attributes may be missing;
  - the cached snapshot it hands out;
  - command calls that return or raise.
  
  Which call raises is an input. `failAt` is the index, within one entity operation, of the first call that raises. A `Run` records an operation in progress as its state, the calls sent so far, and whether one has raised. `Await` and `Then` are Python's `await` and the statements that follow it.
- `light.dfy` (`Light`): `light.py`. It is in two parts:
  - Every operation is first specified as a function over the value `LightState`, the entity's mutable fields. `TurnOnPlan` lists the calls a fully successful `async_turn_on` makes, and `TurnOnSpec` gives the state, calls and outcome for any `failAt`.
  - The class `DayBetterLight` holds those fields. Its methods are proved to leave exactly the state, and send exactly the calls, that the functions describe.
- `switch.dfy` (`Switch`): `switch.py`.

Behaviours of the light entity's code that the model keeps as written:

- `color_mode` (light.py:233-246) reads only the cache, never the live device. `is_on`, `brightness`, `rgb_color` and `color_temp_kelvin` (light.py:184-231) prefer the live device when it is online.
- A coordinator call that raises inside `async_turn_on` or `async_turn_off` is caught and logged by the entity (light.py:303-304, 317-318). It is not passed on to the caller.
- The entity keeps its own `_cached_*` fields and writes them after the calls (light.py:285-299, 315).
- An effect other than "none" is cached as the scene (light.py:298) even when the effect-list check at light.py:273 rejected it and no call was made.
- `_attr_color_mode`, `_attr_effect` and `_last_color_state` are written before the call is awaited (light.py:260-262, 266-268, 275-279). They therefore change even when that call raises, while the `_cached_*` fields do not.

## Model

| member | source | states |
|---|---|---|
| DeviceApi.HasLightFeature | custom_components/daybetter_light_local/light.py:39-41 | A capability record has a light feature iff it carries the brightness, RGB or colour-temperature flag; the scenes flag alone is none. |
| Light.LightUniqueId | custom_components/daybetter_light_local/light.py:109 | The light's unique id is the bare fingerprint. |
| Light.IsLightDevice | custom_components/daybetter_light_local/light.py:33-45 | No capabilities means never a light, even for P076/P077/P078. A brightness, RGB or colour-temperature flag means a light. Otherwise it is a light exactly when the SKU is P076, P077 or P078. |
| Light.CandidateColorModes | custom_components/daybetter_light_local/light.py:113-126 | On/off is always a candidate. RGB, colour temperature and brightness are candidates iff the matching capability flag is present. |
| Light.CollectColorModes | custom_components/daybetter_light_local/light.py:113-126 | The set built mode by mode equals the candidate set. |
| Light.SingletonMode | custom_components/daybetter_light_local/light.py:136-139 | A one-element set of colour modes is the singleton of one of the four modes. |
| Light.SoleMode | custom_components/daybetter_light_local/light.py:135-139 | There is a fixed colour mode iff exactly one mode is supported, and then the supported set is that mode alone. |
| Light.IsOn | custom_components/daybetter_light_local/light.py:184-194 | Offline or no live device: the cached `on`. Otherwise the live attribute, or the cache when the attribute is missing. |
| Light.Brightness | custom_components/daybetter_light_local/light.py:196-207 | The same fallback as `is_on`, rescaled by the 0..100 to 0..255 conversion in every case. |
| Light.ColorTempKelvin | custom_components/daybetter_light_local/light.py:209-219 | The same fallback as `is_on`, for the cached colour temperature. |
| Light.RgbColor | custom_components/daybetter_light_local/light.py:221-231 | The same fallback as `is_on`, for the cached RGB colour. |
| Light.ColorModeOf | custom_components/daybetter_light_local/light.py:233-246 | A fixed mode always wins. Otherwise the precedence is: colour temperature iff the cached kelvin is present and above 0; else RGB iff a cached colour is present; else brightness iff the cached brightness is above 0; else on/off. |
| Light.EffectOfScene | custom_components/daybetter_light_local/light.py:170-173 | The shown effect is the scene iff the scene is a non-empty name other than "none", and None otherwise. |
| Light.FromCache | custom_components/daybetter_light_local/light.py:160-173 | An absent or empty snapshot changes nothing. Otherwise the five cached fields are copied, defaulting to off, 0 and None. The shown effect follows the scene. The colour mode and the saved colour state are untouched. |
| Light.FromCacheIdempotent | custom_components/daybetter_light_local/light.py:160-173 | Refreshing twice from the same snapshot equals refreshing once. |
| Light.FromCacheForgetsOldCache | custom_components/daybetter_light_local/light.py:163-173 | After a refresh from a non-empty snapshot, the state no longer depends on what was cached before. |
| Light.SaveOf | custom_components/daybetter_light_local/light.py:343-351 | The saved mode is the current `color_mode` and the saved brightness is the current `brightness`. The saved colour is the current `color_temp_kelvin` when the mode is colour temperature, and the current `rgb_color` otherwise. The other colour field is empty. |
| Light.HasSavedColor | custom_components/daybetter_light_local/light.py:356 | The saved colour is truthy: always for the one-element kelvin tuple, and for an RGB colour only when one was present. |
| Light.ColorCommand | custom_components/daybetter_light_local/light.py:356-360 | A colour call is replayed iff the mode is RGB with a colour present, or colour temperature. It is the RGB call with the saved colour, or the temperature call with the saved kelvin, possibly None. On/off and brightness modes replay no colour. |
| Light.RestorePlan | custom_components/daybetter_light_local/light.py:353-365 | A restore makes only RGB, colour-temperature and brightness calls. |
| Light.RestoreCalls | custom_components/daybetter_light_local/light.py:353-365 | With nothing saved, no call is made. Otherwise the calls are those of the saved state. Either way they are only RGB, colour-temperature and brightness calls. |
| Light.SaveThenRestore | custom_components/daybetter_light_local/light.py:343-365 | Replaying what was just saved sends the current colour temperature, or the current RGB colour when one is shown, and then the current brightness (unless it is 0). It sends no colour for on/off and brightness modes. The plan has exactly that many calls: one colour call or none, plus one brightness call or none. |
| Light.RestoreRun | custom_components/daybetter_light_local/light.py:353-365 | A restore never touches the cache, the effect or the colour mode. It clears the saved state only when no call raised, and keeps it when one did. |
| Light.RestoreRunFollows | custom_components/daybetter_light_local/light.py:353-365 | A restore makes exactly its planned calls, in order, stopping at the first that raises. |
| Light.TurnOnArgs.IsEmpty | custom_components/daybetter_light_local/light.py:282 | `not kwargs`: no brightness, colour, kelvin or effect argument, and no other keyword argument either. |
| Light.EffectListed | custom_components/daybetter_light_local/light.py:273 | An effect is accepted iff it is non-empty and belongs to the effect list. The list's own truthiness test is implied by membership. |
| Light.BrightnessCalls | custom_components/daybetter_light_local/light.py:255-257 | No brightness argument means no call. Otherwise the single call is the brightness converted to the device scale. |
| Light.ColorCalls | custom_components/daybetter_light_local/light.py:259-280 | The precedence for the colour calls is: RGB gives exactly the RGB call; else a kelvin value gives exactly the temperature call. Else a listed "none" effect gives exactly the restore calls of the saved colour state, and any other listed effect gives exactly its scene call. With no colour and no listed effect there is no call. They never include a power call. A brightness call appears only as part of a restore. A scene call comes only from a listed effect other than "none", with no colour given. |
| Light.PowerCalls | custom_components/daybetter_light_local/light.py:282-283 | At most one call, `turn_on`, made iff the light is not on or no argument was given. |
| Light.TurnOnPlan | custom_components/daybetter_light_local/light.py:255-283 | The brightness call comes first when a brightness is given. `turn_on` is sent iff the light is not on or no argument was given, and it is then the last call. `turn_off` is never sent. RGB excludes temperature and scene calls, and temperature excludes RGB and scene calls. |
| Light.CacheAfterTurnOn | custom_components/daybetter_light_local/light.py:285-299 | The light is cached as on, with the brightness that was sent. RGB clears the temperature and the scene; kelvin clears the RGB colour and the scene. Any effect other than "none" becomes the cached scene. RGB and temperature are never both cached after a colour command. |
| Light.ColorRun | custom_components/daybetter_light_local/light.py:259-280 | The colour step never touches the cache, and does nothing once an earlier call has raised. |
| Light.FollowsAfterRaise | custom_components/daybetter_light_local/light.py:254-304 | Once a call has raised, no later call is made. |
| Light.ColorRunFollows | custom_components/daybetter_light_local/light.py:259-280 | The colour step makes exactly its planned calls, stopping at the first that raises. |
| Light.BrightnessRun | custom_components/daybetter_light_local/light.py:255-257 | The brightness call changes no field. |
| Light.BrightnessRunFollows | custom_components/daybetter_light_local/light.py:255-257 | The brightness step makes exactly its planned call. |
| Light.PowerRun | custom_components/daybetter_light_local/light.py:282-283 | The power call changes no field. |
| Light.PowerRunFollows | custom_components/daybetter_light_local/light.py:282-283 | The power step makes exactly its planned call. |
| Light.TurnOnRun | custom_components/daybetter_light_local/light.py:254-299 | The `try` block as a run: when a call raised, the cache is as before; otherwise it is `CacheAfterTurnOn`. |
| Light.TurnOnRunFollowsStages | custom_components/daybetter_light_local/light.py:254-299 | Brightness, colour and power calls are made in turn, stopping at the first that raises. |
| Light.TurnOnRunFollows | custom_components/daybetter_light_local/light.py:254-299 | `async_turn_on` on an available device makes exactly the calls of `TurnOnPlan` up to the first that raises. |
| Light.NoneEffectSavedState | custom_components/daybetter_light_local/light.py:271-283 | With the "none" effect, the saved colour state survives the turn-on exactly when the brightness call or one of the restore calls raised; otherwise the restore cleared it, whatever the later `turn_on` does. |
| Light.TurnOnSpec | custom_components/daybetter_light_local/light.py:248-304 | Offline: no call and no change. Online: the planned calls up to the first that raises, with the outcome Failed iff one raises. On failure the cache is unchanged. On success the cache is `CacheAfterTurnOn`. The colour mode, effect and saved colour state written before a colour or scene call keep their new values even if that call raises. The "none" effect clears the shown effect before the restore, and with the "none" effect the saved state is kept when the brightness call or a restore call raises, and cleared otherwise, even when the later `turn_on` raises. When the first call is the brightness call and it raises, no field changes at all. Without a colour argument the colour mode is unchanged, and without a listed effect as well, the shown effect and the saved state are unchanged too. |
| Light.ColorModeAfterTurnOn | custom_components/daybetter_light_local/light.py:259-299 | After a successful RGB command the colour mode, when not fixed, is RGB. After a successful kelvin command with a positive value it is colour temperature. |
| Light.TurnOffSpec | custom_components/daybetter_light_local/light.py:306-318 | Offline: no call and no change. Online: exactly one `turn_off`. On success only the cached `on` becomes false. On failure nothing changes. |
| Light.TurnOnThenOff | custom_components/daybetter_light_local/light.py:285-315 | A successful turn-on followed by a successful turn-off leaves the cache as turn-on wrote it, but off, so with no live device the light reads as off. |
| Light.DayBetterLight.constructor | custom_components/daybetter_light_local/light.py:99-152 | The constructor keeps the brightness conversions it is given, and sets up: the unique id (the fingerprint); the device identifier; the filtered colour modes and the fixed mode; the effect list ("none" followed by the scenes, only with the scenes flag and a non-empty scene table); the kelvin range (2200 to 7000 for P076 in any case, else 2200 to 5000, only with the temperature flag); and the state refreshed from the snapshot. |
| Light.DayBetterLight.UpdateStateFromCache | custom_components/daybetter_light_local/light.py:160-173 | The fields become `FromCache` of their old values. |
| Light.DayBetterLight.SaveLastColorState | custom_components/daybetter_light_local/light.py:343-351 | Only `_last_color_state` changes, to `SaveOf` of the current state. |
| Light.DayBetterLight.RestoreLastColorState | custom_components/daybetter_light_local/light.py:353-365 | The fields and calls are those of `RestoreRun`. |
| Light.DayBetterLight.TurnOnColorStep | custom_components/daybetter_light_local/light.py:259-280 | The fields and calls are those of `ColorRun`. |
| Light.DayBetterLight.TurnOnAvailable | custom_components/daybetter_light_local/light.py:254-299 | The fields, calls and raise flag are those of the specified run. |
| Light.DayBetterLight.WriteCacheAfterTurnOn | custom_components/daybetter_light_local/light.py:285-299 | Only the cache changes, to `CacheAfterTurnOn`. |
| Light.DayBetterLight.AsyncTurnOn | custom_components/daybetter_light_local/light.py:248-304 | The fields, calls and outcome are those of `TurnOnSpec`. |
| Light.DayBetterLight.AsyncTurnOff | custom_components/daybetter_light_local/light.py:306-318 | The fields, calls and outcome are those of `TurnOffSpec`. |
| Coordinator.CachedState.IsTruthy | custom_components/daybetter_light_local/light.py:163 | `if cached_state:`: the snapshot dictionary counts as present iff it has at least one key. |
| Coordinator.SentUnder | custom_components/daybetter_light_local/coordinator.py:78-102 | The calls sent are a prefix of the plan. When a call raises, the prefix ends with it; otherwise it is the whole plan. |
| Coordinator.Await | custom_components/daybetter_light_local/coordinator.py:78-102 | After a raise nothing happens. Otherwise the call is appended, and it raises iff it is call number `failAt`. The state is untouched. |
| Coordinator.Then | custom_components/daybetter_light_local/light.py:285-299 | A state update takes effect only when no earlier call raised. |
| Coordinator.AwaitFollows | custom_components/daybetter_light_local/coordinator.py:78-102 | Awaiting one more call extends the followed plan by that call. |
| Coordinator.Dispatch | custom_components/daybetter_light_local/coordinator.py:78-102 | The call is sent, and it returns normally iff it is not call number `failAt`. |
| Text.Lower | custom_components/daybetter_light_local/switch.py:38 | Lower-casing keeps the length, lower-cases each character in place, and leaves no capital letter. |
| Text.OccursInTail | custom_components/daybetter_light_local/switch.py:38 | When a word is not a prefix of a non-empty string, it occurs in the string iff it occurs in the string's tail. |
| Text.Contains | custom_components/daybetter_light_local/switch.py:38 | The scan answers true iff the word occurs at some position. |
| Switch.AnyKeyword | custom_components/daybetter_light_local/switch.py:37-38 | True iff one of the keywords occurs in the string. |
| Switch.IsOutletDevice | custom_components/daybetter_light_local/switch.py:22-38 | The device is an outlet if either of these holds: its capabilities are present but have no light feature; or its lower-cased SKU contains "outlet", "plug", "socket" or "switch", or the SKU is exactly P079, P080 or S001. In every other case it is not an outlet. |
| Switch.OutletUniqueId | custom_components/daybetter_light_local/switch.py:83 | The outlet's unique id is the fingerprint followed by "_outlet", never the light's unique id. |
| Switch.OutletUniqueIdInjective | custom_components/daybetter_light_local/switch.py:83 | Different fingerprints give different outlet ids. |
| Switch.OutletSwitch.UniqueId | custom_components/daybetter_light_local/switch.py:83 | The entity's unique id is the outlet id of its device. |
| Switch.OutletSwitch.DeviceIdentifier | custom_components/daybetter_light_local/switch.py:87 | The registry identifier is the domain plus the outlet id, and never equals the light's identifier. |
| Switch.OutletSwitch.IsOn | custom_components/daybetter_light_local/switch.py:99-102 | Exactly the device's `on` attribute, with no cache and no availability check. |
| Switch.LightOrOutlet | custom_components/daybetter_light_local/switch.py:28-34 | A device with capabilities gets a light, an outlet, or both. |
| Switch.NoCapabilitiesNoLight | custom_components/daybetter_light_local/light.py:35-36 | Without capabilities, even P076/P077/P078 are not lights. |
| Switch.LightAndOutletOverlap | custom_components/daybetter_light_local/switch.py:37-38 | A dimmable device with SKU "Plug" is both a light and an outlet. |
| Switch.OutletModelsCaseSensitive | custom_components/daybetter_light_local/switch.py:25-38 | "P079" is an outlet. "p079" with a light feature is not, so the model list is matched case-sensitively. |

## Left out

- `coordinator.py` beyond its command methods: discovery, UDP multicast I/O, polling and the `devices` list. These are I/O over a library that is not part of this model.
- The coordinator methods `get_cached_device_state`, `is_device_online`, `get_device_by_fingerprint` and `register_entity_callback`/`unregister_entity_callback` are called by light.py but not defined in coordinator.py, so their behaviour is unknown. Their results are inputs: the snapshot, the online flag and the live view. The online flag and the live view are taken as fixed for the duration of one operation. In particular, the `self.is_on` test at light.py:282, which re-reads `self.available` and the live device after the earlier awaits, sees the same values as the offline gate at light.py:250.
- The floating-point brightness rescalings (light.py:204, 207, 256, 287, 363) are the uninterpreted functions `toNative` and `toHa` of the configuration. The model identifies three things: the device-to-Home-Assistant expressions at lines 204 and 207 are one function, `toHa`; the expressions at lines 256, 287 and 363 are one function, `toNative`; and lines 256 and 287 apply it to the same argument. Nothing else is assumed about either function.
- `filter_supported_color_modes` (light.py:135) belongs to Home Assistant. It is the constructor parameter `filterModes`.
- Home Assistant framework pieces are not modelled, because they are framework glue with no state of this entity in them. These are:
  - `async_write_ha_state`;
  - the `DeviceInfo` name, manufacturer, model and serial strings, and the outlet's `via_device`;
  - `async_added_to_hass`, `_handle_state_update`, `_handle_coordinator_update` and `async_on_remove`;
  - `available` as a separate member (it is the online flag);
  - logging;
  - the asyncio scheduling itself.
- `async_setup_entry` in both files is entity-registration glue.
- The outlet's `set_update_callback` registration and `_update_callback` are framework glue.
- The outlet's `async_turn_on` and `async_turn_off` only forward one coordinator call each. They have no offline gate and no error handling, and they keep no state.
- `str.lower()` is ASCII-only here. Python also lower-cases non-ASCII letters, which the model does not.
- Colour temperatures and brightness arguments are integers. The truncation of a float kelvin by `int(temperature)` (light.py:270) is therefore not modelled, and neither is the raw float that line 295 caches.
- A keyword argument passed with the value None is treated as absent. Likewise a snapshot key whose value is None is treated as absent. Python distinguishes the two in `kwargs` membership and in the truthiness of the snapshot dictionary.
- Colour modes other than on/off, brightness, colour temperature and RGB do not arise in this entity and are not modelled.
