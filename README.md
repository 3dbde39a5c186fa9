# WLED node server, modelled in Dafny

This project models the core of a Polyglot node server for WLED LED controllers. It covers:

- **The HTTP client** (`lib/wled_api.py`). It decodes the device's JSON state, info and preset documents into records. It keeps a cache of what the device last reported and the device's connectivity. It builds the `set_state` bodies of its command helpers. It probes the local /24 for devices and keeps a registry of clients keyed by `host:port`.
- **The device node** (`nodes/wled_device.py`). It turns the client's cached state into status drivers: power, brightness percent, effect, palette, preset, RGB, online, speed, intensity, transition, live, nightlight and sync. Each of its command handlers sends one or two `set_state` calls and then, unless one of them raised, refreshes.
- **The controller node** (`nodes/controller.py`). It parses the `name:ip,...` configuration string and derives node addresses from names, with deduplication. It keeps the registry of device nodes and its count driver, dispatches polls, adds discovered devices under normalised names, merges the presets of all devices first-wins and rewrites the preset block of the NLS profile text.
- **The segment node** (`nodes/wled_segment.py`). It maps one segment of the device state to its drivers. Its command handlers update their drivers optimistically once the segment call has returned.

The modules are:

| file | module | contents |
|---|---|---|
| `text.dfy` | `Options`, `Text` | `Option`; the Python `str` operations used: `strip`, `split`, `join`, `replace`, `lower`, `isalnum`, `startswith`, `str(int)`, `int(str)` |
| `json.dfy` | `Json`, `Http` | JSON values with object members in document order; typed `dict.get` readers; the network as a `Transport` object that logs every request and answers the k-th one from a script |
| `wled_records.dfy` | `WledRecords` | segment, state and info records, their decoders, encoders used only to state round trips, and the main-segment accessors |
| `wled_api.dfy` | `WledApi` | the client cache, the pure `After*` functions that specify each client method, the `Device` class, discovery, and the `Api` registry class |
| `wled_device.dfy` | `WledDevice` | the drivers, `StatusDrivers` specifying `update_status`, the command arguments and the `DeviceNode` class |
| `controller.dfy` | `Controller` | configuration parsing, address derivation, the registry with its invariant, polling, discovery, the preset merge and the `ControllerNode` class |
| `nls.dfy` | `Nls` | the NLS text as lines, the preset block and both rewrites (as written and corrected) |
| `wled_segment.dfy` | `WledSegment` | the segment drivers, `SegmentStatus`, the segment call, command arguments and the `SegmentNode` class |

The network is the `Http.Transport` object shared by all clients:

- Its field `sent` lists every request made, in order.
- Its constant `script` lists the outcomes. The k-th request ever sent receives `Answer(script, k)`: a reply (status and JSON body), a timeout, a connection error or another failure with its message.

Every method that talks to a device states exactly which requests it appends to `sent` and what the cache becomes. The cache is given as a pure function of the old cache and the outcomes. Lemmas about those functions carry the properties the code promises.

## Model

In the device handlers' rows, "then a refresh" is meant as `Commanded` says: the bodies are posted in order until one raises, and the refresh follows only when none did. The segment handlers write their drivers only when the segment call returns (`CallRaises` is false).

| member | source | states |
|---|---|---|
| Text.Strip | nodes/controller.py:137 | the stripped entry has no white space at either end, is no longer than the entry and has only characters of it; which characters are removed is pinned by `StripSplits` and `StripPadded` |
| Text.StripNoSpace | nodes/controller.py:143-144 | stripping a string without white space at its ends returns it unchanged |
| Text.AllSpaceAppend | nodes/controller.py:137 | two runs of white space make one |
| Text.StripSplits | nodes/controller.py:137 | every string is white space, then its stripped form, then white space |
| Text.StripPadded | nodes/controller.py:137 | white space around a text whose ends are not white space is exactly what `strip` removes |
| Text.Split | nodes/controller.py:136 | splitting on a character gives at least one piece, no piece holds the separator, and a string without it is a single piece |
| Text.SplitTwo | nodes/controller.py:141-144 | an entry holding `:` splits into at least two pieces, so `parts[0]` and `parts[1]` exist |
| Text.JoinSplit | nodes/controller.py:136 | joining the pieces of a split with the separator gives the string back |
| Text.Join | nodes/controller.py:136 | `sep.join(parts)`: the pieces with the separator between them, the inverse of `split` |
| Text.SplitFirst | nodes/controller.py:136 | a first piece without the separator is split off first |
| Text.SplitJoin | nodes/controller.py:136 | splitting a join of separator-free pieces gives the pieces back |
| Text.ReplaceCharRemoves | nodes/controller.py:292 | after replacing a character by a text without it, none is left, and every other character survives |
| Text.ReplaceAbsent | nodes/controller.py:292 | replacing a pattern whose first character does not occur changes nothing |
| Text.ReplaceAll | nodes/controller.py:292 | `s.replace(pat, rep)`: every non-overlapping occurrence replaced, scanning left to right |
| Text.ReplaceSuffix | nodes/controller.py:292 | a pattern appended to a text that does not hold its first character is replaced exactly once, at the end |
| Text.ReplaceCharLength | nodes/controller.py:164 | a one-for-one character replacement keeps the length and changes exactly the matching positions |
| Text.Lower | nodes/controller.py:164 | lowering keeps the length and lowers each character in place |
| Text.NatToString | lib/wled_api.py:473 | a natural number prints as a non-empty run of digits |
| Text.IntToString | lib/wled_api.py:250 | an integer prints as an optional minus sign and then digits |
| Text.ParseInt | nodes/wled_device.py:219 | `int(s)` succeeds only on a text holding a digit; `None` is the `ValueError` |
| Text.DigitsOfNat | nodes/wled_device.py:219 | the printed digits of n are well formed and denote n |
| Text.ParseNatString | nodes/wled_device.py:219 | parsing the digits of a natural number gives it back |
| Text.ParseSignedMinus | nodes/wled_device.py:219 | a minus sign before well-formed digits negates their value |
| Text.ParseNegativeString | nodes/wled_device.py:219 | parsing a printed negative integer gives it back |
| Text.IntStringRoundTrip | nodes/wled_device.py:219 | `int(str(n)) == n` for every integer |
| Text.IntToStringInjective | lib/wled_api.py:553 | different integers print differently |
| Json.LookupNone | lib/wled_api.py:39 | a key finds nothing exactly when no member of the object carries it |
| Json.LookupSome | lib/wled_api.py:39 | what a key finds is the value of a member carrying that key |
| Json.LookupDistinct | lib/wled_api.py:372 | in an object literal with distinct keys, each key finds its own member |
| Json.KeyIndex | lib/wled_api.py:413 | the position of a key, when found, carries it; no position carries a key that is not found |
| Json.LookupInDistinct | lib/wled_api.py:413 | in an object with distinct keys, a key finds the member at its position |
| Json.AssignLookup | lib/wled_api.py:413 | Python dictionary assignment keeps keys distinct, grows by at most one, and afterwards the key finds the new value while every other key finds what it did |
| Json.DictItemsLookup | lib/wled_api.py:413 | the dictionary `json` builds from a document has distinct keys, no more items than members, and every key finds the same value as in the document (the last member carrying it) |
| Json.DictItemsDistinct | lib/wled_api.py:413 | a document with distinct keys is its own dictionary |
| Json.IntOr | lib/wled_api.py:39-47 | an absent key gives the default; a present integer gives itself, a bool 0 or 1, any other value the default |
| Json.BoolOr | lib/wled_api.py:42 | an absent key gives the default; a present value counts by its truthiness |
| Json.StrOr | lib/wled_api.py:143 | a present string gives itself; anything else gives the default |
| Json.ObjOr | lib/wled_api.py:77-78 | a present object gives itself; anything else reads as `{}` |
| Json.ItemsOr | lib/wled_api.py:74 | a present list gives its items; anything else reads as `[]` (of the non-lists, only `""` and `{}` decode, and both iterate as no items) |
| Http.Answers | lib/wled_api.py:236-240 | the outcomes of n consecutive requests from position `start`, the k-th being `Answer(script, start + k)` |
| Http.Transport.Exchange | lib/wled_api.py:236-240 | one request is logged at the end of `sent` and receives the next scripted outcome |
| WledRecords.ColorOf | lib/wled_api.py:48 | a list of integers is a colour with one channel per item; anything else is the empty colour |
| WledRecords.ColorsOf | lib/wled_api.py:48 | a missing `col` gives one white colour; a list gives one colour per item |
| WledRecords.DecodeSegment | lib/wled_api.py:35-49 | the id is the position; every missing field takes its default: start 0, stop 0, length stop − start, on, bri 255, fx 0, sx 128, ix 128, pal 0, col white |
| WledRecords.DecodeSegments | lib/wled_api.py:73-75 | one segment per item of `seg`, each with its position as id |
| WledRecords.DecodeState | lib/wled_api.py:71-95 | segments take their positions as ids; each missing field takes its default (off, bri 0, transition 7, ps −1, pl −1, nightlight off for 60 min, send off and receive on, main segment 0, no segments); `live` iff `lor > 0` |
| WledRecords.DecodeEmptyState | lib/wled_api.py:55-68 | `{}` decodes to the declared defaults of the state record |
| WledRecords.DecodeInfo | lib/wled_api.py:138-155 | each missing field takes its default (port 21324, product WLED, brand wled, ...); `live_support` is the truthiness of `lm`, and `live_mode` is `lip` only when it is an integer |
| WledRecords.ColorsRoundTrip | lib/wled_api.py:48 | colours written as `col` decode to themselves |
| WledRecords.DecodeSegmentFrom | lib/wled_api.py:35-49 | an object carrying every field of a segment decodes to that segment |
| WledRecords.SegmentRoundTrip | lib/wled_api.py:35-49 | encoding a segment and decoding it at its id gives it back |
| WledRecords.NightlightRoundTrip | lib/wled_api.py:86-89 | the encoded `nl` object reads back the four nightlight fields |
| WledRecords.SyncRoundTrip | lib/wled_api.py:91-92 | the encoded `udpn` object reads back both sync flags |
| WledRecords.DecodeStateFrom | lib/wled_api.py:71-95 | an object carrying every field of a state decodes to that state |
| WledRecords.SegmentsRoundTrip | lib/wled_api.py:73-75 | segments numbered by position, encoded as `seg`, decode to themselves |
| WledRecords.StateRoundTrip | lib/wled_api.py:71-95 | encoding a well-formed state and decoding it gives it back |
| WledRecords.DecodeInfoFrom | lib/wled_api.py:138-155 | an object carrying every field of an info record decodes to that record |
| WledRecords.LedsRoundTrip | lib/wled_api.py:145-146 | the encoded `leds` object reads back the LED count and segment limit |
| WledRecords.InfoRoundTrip | lib/wled_api.py:138-155 | encoding an info record and decoding it gives it back |
| WledRecords.StateJsonDecodes | lib/wled_api.py:71-95 | every encoded state is a document the state decoder accepts without raising |
| WledRecords.InfoJsonDecodes | lib/wled_api.py:138-155 | every encoded info record is a document the info decoder accepts without raising |
| WledRecords.PyIndex | lib/wled_api.py:101 | Python list indexing: 0..len−1 from the front, −len..−1 from the back, `None` (IndexError) exactly outside |
| WledRecords.PickMain | lib/wled_api.py:100-101 | no main segment exactly when there are no segments or `mainseg ≥ len`; IndexError exactly below −len; otherwise the segment Python indexes |
| WledRecords.PrimaryColor | lib/wled_api.py:98-104 | the first colour of the segment `PickMain` selects (`segments[main_segment]`, a negative index counting from the end), white when that segment has no colour or there is no main segment; `None` (IndexError) exactly for an index below −len |
| WledRecords.Effect | lib/wled_api.py:107-111 | the effect of the segment `PickMain` selects (negative indices included), 0 without a main segment, `None` exactly on IndexError |
| WledRecords.Palette | lib/wled_api.py:114-118 | the palette of the segment `PickMain` selects (negative indices included), 0 without a main segment, `None` exactly on IndexError |
| WledApi.AfterRequest | lib/wled_api.py:221-273 | only the connectivity fields change: 200 sets online, clears the error and yields the body; another status records `HTTP <code>` and keeps `online`; a timeout, connection error or other failure sets offline with its message |
| WledApi.ListedNames | lib/wled_api.py:295 | an item is kept exactly when it is a truthy name other than `"-"`, and no more items are kept than given; order and repeats are pinned by `ListedNamesAppend` and `ListedNamesOne` |
| WledApi.ListedNamesAppend | lib/wled_api.py:295 | the filter of a concatenation is the concatenation of the filters, so the device's order and repeated names are kept |
| WledApi.ListedNamesOne | lib/wled_api.py:295 | one item gives itself when it is truthy and not `"-"`, and nothing otherwise |
| WledApi.ProbeKey | lib/wled_api.py:286-287 | `key in data` followed by `data[key]`: on an object, present exactly when a member carries the key, with its value, and never raising; on a list or a string, never present, raising exactly when the key is an item or a substring (the test holds and the subscript fails); on any other value, raising |
| WledApi.Iterated | lib/wled_api.py:295 | iterating a list gives its items, a string its characters, an object the keys of its dictionary; anything else raises |
| WledApi.WithState | lib/wled_api.py:286-287 | the state step changes only the state |
| WledApi.WithInfo | lib/wled_api.py:290-291 | the info step changes only the info |
| WledApi.WithEffects | lib/wled_api.py:294-295 | the effects step changes only the effects |
| WledApi.WithPalettes | lib/wled_api.py:298-299 | the palettes step changes only the palettes |
| WledApi.ApplyLists | lib/wled_api.py:294-299 | the list steps change only the effects and palettes, and a raise leaves the palettes as they were |
| WledApi.ApplyAll | lib/wled_api.py:284-299 | the sections are applied in the order `state`, `info`, `effects`, `palettes`; connectivity and presets are never touched, and when a step raises the palettes are left as they were |
| WledApi.ApplyAllObject | lib/wled_api.py:284-299 | on an object, `get_all` completes exactly when every present section decodes, and then each present section replaces its part and each absent one is kept |
| WledApi.ApplyAllNonObject | lib/wled_api.py:284-299 | on a non-object document nothing changes, and the call completes exactly when no section name is `in` it |
| WledApi.GetAllKeepsEarlierState | lib/wled_api.py:286-291 | a decoded state stays cached when a later section raises |
| WledApi.GetAllStateRaises | lib/wled_api.py:286-287 | a `state` that does not decode raises before anything is changed |
| WledApi.AfterGetAll | lib/wled_api.py:275-303 | a failed or falsy answer returns `False` with only connectivity changed; otherwise it never returns `False`, returns `True` exactly when every step completes, and leaves the cache as `ApplyAll` of the document |
| WledApi.AfterGetState | lib/wled_api.py:305-318 | only connectivity and state change; `None` exactly when the request failed or its document is falsy; raising exactly when the answer does not decode; otherwise the decoded state is both cached and returned; the old state is kept whenever nothing was returned |
| WledApi.AfterGetInfo | lib/wled_api.py:320-333 | only connectivity and info change; `None` exactly when the request failed or its document is falsy; raising exactly when the response does not decode; otherwise the decoded info is both cached and returned |
| WledApi.AfterSetState | lib/wled_api.py:335-356 | only connectivity and state change; `False` exactly when the request failed or its document is falsy; raising exactly when the answer does not decode; `True` caches the decoded answer and anything else keeps the old state |
| WledApi.FailureKeepsCache | lib/wled_api.py:275-356 | a failed or falsy answer leaves state, info, lists and presets as they were, and every fetch returns its failure value (`False` or `None`) without raising |
| WledApi.GetStateReplaces | lib/wled_api.py:312-316 | a truthy answer whose document decodes replaces the cached state by its decoding, returns it, keeps the info and leaves the client online |
| WledApi.GetStateRaises | lib/wled_api.py:312-315 | a truthy answer that does not decode raises, leaving the client online with the old state |
| WledApi.SectionsKeepListsClean | lib/wled_api.py:294-299 | no section step puts `""` or `"-"` into a list that had neither |
| WledApi.GetAllKeepsListsClean | lib/wled_api.py:294-299 | after `get_all`, whether it returned or raised part-way, no listed effect or palette is `""` or `"-"` |
| WledApi.ScanPresets | lib/wled_api.py:412-419 | the preset loop over `data.items()` finds exactly `PresetsOf` the document: each key of its dictionary seen once, with its last value |
| WledApi.PresetsOf | lib/wled_api.py:412-419 | the presets of a document: those of its dictionary's items, by `int(key)`, keeping each object value's `n` |
| WledApi.PresetsFound | lib/wled_api.py:408-425 | what `get_presets` returns: `PresetsOf` the body of a 200 object, `{}` for anything else |
| WledApi.AfterGetPresets | lib/wled_api.py:408-425 | the cache after `get_presets`: its presets replaced by `PresetsFound` after a 200 object, unchanged otherwise |
| WledApi.PresetsByDomain | lib/wled_api.py:413-419 | over a run of items, an id is a preset exactly when some item is an object with `n` whose key parses to it |
| WledApi.PresetsByValue | lib/wled_api.py:416-417 | over a run of items, a preset's name is the `n` of the last item whose key parses to its id |
| WledApi.DictEntryInDocument | lib/wled_api.py:413-414 | every preset of the dictionary comes from a document key whose last member is an object with `n` |
| WledApi.DocumentKeyInDict | lib/wled_api.py:413 | every document key is in the dictionary, with the value of its last member |
| WledApi.PresetsOfDomain | lib/wled_api.py:412-419 | an id is a preset exactly when some key parses to it and that key's last member is an object with `n` |
| WledApi.PresetsOfValue | lib/wled_api.py:413-417 | when no other key parses to the same id, the preset takes the `n` of that key's last member |
| WledApi.RepeatedKeyOverrides | lib/wled_api.py:413-414 | a later repeat of a key hides an earlier preset: `{"1": {"n": "a"}, "1": 5}` has no presets |
| WledApi.GetPresetsKeepsConnectivity | lib/wled_api.py:401-425 | fetching presets never changes connectivity or state; a failed fetch returns `{}` and leaves the cache unchanged |
| WledApi.Clamp255 | lib/wled_api.py:365 | the result lies in 0..255; values already in range are kept, below go to 0, above go to 255 |
| WledApi.PowerArgs | lib/wled_api.py:358-361 | the body is `{on}` alone |
| WledApi.BrightnessArgs | lib/wled_api.py:363-367 | the body is `{bri}` alone, with the brightness clamped into 0..255 |
| WledApi.EffectArgs | lib/wled_api.py:369-379 | the body holds only `seg`, whose object holds `fx`, plus `sx` and `ix` exactly when they are given, each clamped, and nothing else |
| WledApi.PaletteArgs | lib/wled_api.py:381-384 | the body holds only `seg`, whose object is `{pal}` alone |
| WledApi.ColorArgs | lib/wled_api.py:386-394 | the body holds only `seg`, whose object holds only `col`; its colours read back as one colour with all four channels clamped |
| WledApi.PresetArgs | lib/wled_api.py:396-399 | the body is `{ps}` alone |
| WledApi.SegmentStateArgs | lib/wled_api.py:439-440 | the segment object carries the segment id unless the arguments name their own `id`, and every other key as the arguments give it |
| WledApi.LookupAppend | lib/wled_api.py:439 | in `{**a, **b}` a key takes b's value when b has it, otherwise a's |
| WledApi.Device.constructor | lib/wled_api.py:166-189 | a new client for host and port, with base URL `http://host:port` and an empty, offline cache |
| WledApi.Device.Perform | lib/wled_api.py:221-273 | one request is sent, and the cache and yielded document are as `AfterRequest` says |
| WledApi.Device.GetAll | lib/wled_api.py:275-303 | sends GET `/json`; the cache and whether it returned `True`, `False` or raised are as `AfterGetAll` says |
| WledApi.Device.ApplySections | lib/wled_api.py:284-299 | the sections are applied one after the other and the cache and completion are `ApplyAll` of the document |
| WledApi.Device.ApplyRest | lib/wled_api.py:290-299 | the steps after `state` are applied in order, stopping at the first that raises |
| WledApi.Device.GetState | lib/wled_api.py:305-318 | sends GET `/json/state`; the cache and whether it returned the state, `None`, or raised are as `AfterGetState` says |
| WledApi.Device.GetInfo | lib/wled_api.py:320-333 | sends GET `/json/info`; the cache and whether it returned the info, `None`, or raised are as `AfterGetInfo` says |
| WledApi.Device.SetState | lib/wled_api.py:335-356 | sends POST `/json/state` with the arguments; the answer, not the request, becomes the state, and the call returns or raises as `AfterSetState` says |
| WledApi.Device.GetPresets | lib/wled_api.py:401-425 | sends GET `/presets.json`, returns `PresetsFound` (the presets of the dictionary `response.json()` builds), and caches them only from a 200 object |
| WledApi.Device.SetSegmentState | lib/wled_api.py:427-440 | posts `{seg: [{id, **kwargs}]}` to `/json/state`; cache and completion as `AfterSetState` |
| WledApi.CandidateIps | lib/wled_api.py:472-473 | exactly 254 candidates, the k-th being `prefix.(k+1)` |
| WledApi.CandidatesDistinct | lib/wled_api.py:473 | no address is probed twice |
| WledApi.ProbeResult | lib/wled_api.py:486-504 | a device exactly when the answer is a 200 whose document has both `ver` and `name`; it reports the probed ip, port 80 and that name |
| WledApi.ProbeRequests | lib/wled_api.py:489 | one GET `http://ip/json/info` per candidate, in order |
| WledApi.ProbeResults | lib/wled_api.py:478-481 | the k-th result is the probe of the k-th address under the k-th answer |
| WledApi.SomesMembers | lib/wled_api.py:480-481 | a device is collected exactly when one of the probes found it |
| WledApi.FoundDevices | lib/wled_api.py:478-481 | every device found is at a probed address with port 80, and every positive probe is among them |
| WledApi.ProbesSentAll | lib/wled_api.py:478-479 | a log that holds the old requests and then the probe of each address in turn is the old log followed by all probes |
| WledApi.ProbeAll | lib/wled_api.py:478-481 | the loop sends every probe in order and returns the devices found |
| WledApi.ProbeEach | lib/wled_api.py:478-481 | the loop sends every probe in order and keeps the positive results in order |
| WledApi.DiscoverDevices | lib/wled_api.py:453-484 | no local address: nothing is sent and nothing found; otherwise the /24 of the local address is probed in order |
| WledApi.DeviceKeyInjective | lib/wled_api.py:553 | different (host, port) pairs have different registry keys |
| WledApi.Api.constructor | lib/wled_api.py:538-540 | the registry starts empty |
| WledApi.Api.AddDevice | lib/wled_api.py:542-556 | a registered key returns its existing client and changes nothing; otherwise a fresh client is added under that key alone |
| WledApi.Api.GetDevice | lib/wled_api.py:558-561 | the client exactly when its key is registered |
| WledApi.Api.RemoveDevice | lib/wled_api.py:563-567 | only that key is removed; an absent key changes nothing |
| WledApi.Api.Discover | lib/wled_api.py:569-576 | as `DiscoverDevices`, with the transport the registry shares |
| WledDevice.Percent | nodes/wled_device.py:147 | a level in 0..255 gives a percentage in 0..100, with 0 ↦ 0 and 255 ↦ 100 |
| WledDevice.PercentToByte | nodes/wled_device.py:224 | a percentage in 0..100 gives a level in 0..255, with 0 ↦ 0 and 100 ↦ 255 |
| WledDevice.PercentRoundTrip | nodes/wled_device.py:147 | a percentage sent and read back is itself or one less |
| WledDevice.Brighten | nodes/wled_device.py:258 | never above 255, never below a level at or below 255, +25 when that fits, and 255 from 230 up |
| WledDevice.Dim | nodes/wled_device.py:268 | never below 0, never above a level at or above 0, −25 when that fits, and 0 from 25 down |
| WledDevice.BrightenDim | nodes/wled_device.py:256-270 | away from the ends of the range, dimming undoes brightening and back |
| WledDevice.SyncCode | nodes/wled_device.py:190-197 | the code is in 0..3; its low bit is send and its high bit is receive (3 both, 1 send, 2 receive, 0 neither) |
| WledDevice.PresetDriver | nodes/wled_device.py:157 | the active preset, or 0 for a negative one |
| WledDevice.NightlightDriver | nodes/wled_device.py:184-187 | the duration while the nightlight runs, else 0 |
| WledDevice.SpeedSegment | nodes/wled_device.py:170-171 | the main segment when Python's index finds it, segment 0 when the index is at or past the end, `None` without segments or on IndexError |
| WledDevice.StatusOnlineFlag | nodes/wled_device.py:138-140 | GV7 is 1 exactly when the client is online and its state, if any, can be read |
| WledDevice.StatusDrivers | nodes/wled_device.py:138-197 | the drivers `update_status` writes from the cache once its fetch returned: GV7, then the state's drivers when online with a state |
| WledDevice.DetailDrivers | nodes/wled_device.py:151-197 | the drivers written after power and brightness, from the main segment's effect, palette and colour and the speed segment |
| WledDevice.StatusWithoutState | nodes/wled_device.py:138-140 | offline or without a cached state, only GV7 is written |
| WledDevice.StatusOutOfRange | nodes/wled_device.py:144-151 | when the effect lookup raises, power and brightness are written and the handler then marks the node offline |
| WledDevice.StatusFields | nodes/wled_device.py:140-197 | online with a readable state: power, brightness %, effect, palette, preset, transition, live, nightlight and sync are each the stated function of the state |
| WledDevice.StatusColor | nodes/wled_device.py:161-165 | the RGB drivers take the primary colour when it has three channels, and are kept otherwise |
| WledDevice.StatusSpeed | nodes/wled_device.py:167-175 | speed and intensity are the percentages of the speed segment's values, and are kept without one |
| WledDevice.StatusDriversIdempotent | nodes/wled_device.py:117-197 | refreshing twice from the same cache gives the same drivers as once |
| WledDevice.DetailDriversIdempotent | nodes/wled_device.py:151-197 | writing the detail drivers twice from the same values gives the same drivers as once |
| WledDevice.Posts | nodes/wled_device.py:221-225 | one POST `/json/state` per body, in order |
| WledDevice.RunPosts | nodes/wled_device.py:221-226 | the posts go out until one raises: never more than given, all of them when none raised, and at least the raising one |
| WledDevice.PollStepOutcome | nodes/wled_device.py:128-203 | the refresh returns exactly when its document decodes; then the drivers are `StatusDrivers` of the new cache, otherwise only GV7 becomes 0; presets are always kept |
| WledDevice.PollStepRaises | nodes/wled_device.py:128-203 | a 200 answer that does not decode leaves the client online with its old cache, and the node shows only GV7 as 0 |
| WledDevice.PollStep | nodes/wled_device.py:117-203 | what a node holds after `update_status(full)` under one answer: the refreshed cache, and drivers from `StatusDrivers`, or GV7 set to 0 when the fetch raised |
| WledDevice.ParamOr | nodes/wled_device.py:274 | `int(command.get(key, default))`: the default when absent, the parse otherwise, `None` on `ValueError` |
| WledDevice.ColorParam | nodes/wled_device.py:315-317 | the `.uom56` key wins, then the plain key, then 255 |
| WledDevice.FastArgs | nodes/wled_device.py:236-250 | the body is `{on, transition: 0}` |
| WledDevice.TransitionArgs | nodes/wled_device.py:355 | the body is `{transition}` alone |
| WledDevice.LiveArgs | nodes/wled_device.py:361-366 | the body is `{lor}` alone: 1 when live, else 0 |
| WledDevice.NightlightOffArgs | nodes/wled_device.py:387-393 | the body is `{nl: {on: false}}` alone, `nl` holding one key, and does not switch the light |
| WledDevice.NightlightArgs | nodes/wled_device.py:373-383 | duration 0 gives the nightlight-off body; any other duration gives exactly `on: true` and `nl`, the latter exactly `{on: true, dur, mode: 1, tbri: 0}` |
| WledDevice.SyncSendArgs | nodes/wled_device.py:402 | the body is `{udpn: {send}}` alone, without `recv` |
| WledDevice.SyncReceiveArgs | nodes/wled_device.py:412 | the body is `{udpn: {recv}}` alone, without `send` |
| WledDevice.SavePresetArgs | nodes/wled_device.py:423 | the body is `{psave}` alone |
| WledDevice.PlaylistArgs | nodes/wled_device.py:426-441 | the body is `{pl}` alone |
| WledDevice.DeviceNode.constructor | nodes/wled_device.py:60-104 | a new node with a client of its own, one full refresh and one preset fetch sent, and drivers, cache and presets as `Started` says |
| WledDevice.DeviceNode.Started | nodes/wled_device.py:97-99 | the node holds the full refresh of the empty cache under the first answer, then the preset fetch under the second |
| WledDevice.DeviceNode.FetchPresets | nodes/wled_device.py:106-115 | one preset fetch; the node's presets are replaced only by non-empty ones; the drivers are kept |
| WledDevice.DeviceNode.UpdateStatus | nodes/wled_device.py:117-203 | one GET (`/json` when full, `/json/state` otherwise); the node then holds `PollStep` of what it held: drivers from the cache when the call returned, only GV7 set to 0 when it raised |
| WledDevice.DeviceNode.ApplyStatus | nodes/wled_device.py:138-197 | the drivers become `StatusDrivers` of the old drivers and the client's cache; presets are kept |
| WledDevice.DeviceNode.Post | nodes/wled_device.py:221 | one `set_state` exchange, the cache as `AfterSetState` says; `returned` is false exactly when the call raised |
| WledDevice.DeviceNode.PostThenRefresh | nodes/wled_device.py:232-234 | one body posted, then a refresh unless the post raised, as `Commanded` says |
| WledDevice.DeviceNode.PostTwiceThenRefresh | nodes/wled_device.py:221-226 | two bodies posted in order, stopping at the first that raises, then a short refresh when neither did |
| WledDevice.DeviceNode.Commanded | nodes/wled_device.py:211-226 | a handler's requests: its bodies posted in order until one raises, which ends it with the drivers unchanged; otherwise the refresh, with the node holding its `PollStep` |
| WledDevice.DeviceNode.Query | nodes/wled_device.py:205-209 | a full refresh and nothing else |
| WledDevice.DeviceNode.On | nodes/wled_device.py:211-226 | fails exactly on an unparsable value, then changing nothing; otherwise power on, then the brightness from the percentage when given, then a short refresh |
| WledDevice.DeviceNode.Off | nodes/wled_device.py:228-234 | power off, then a short refresh |
| WledDevice.DeviceNode.Fast | nodes/wled_device.py:236-250 | the on/off body with transition 0, then a short refresh |
| WledDevice.DeviceNode.Step | nodes/wled_device.py:252-270 | without a cached state nothing happens; otherwise the brightened or dimmed level is sent, then a short refresh |
| WledDevice.DeviceNode.SetBrightness | nodes/wled_device.py:272-281 | fails exactly on an unparsable value (default 100), then changing nothing; otherwise the level of the percentage is sent, then a short refresh |
| WledDevice.DeviceNode.SetEffect | nodes/wled_device.py:283-290 | fails exactly on an unparsable value (default 0); otherwise the effect is sent, then a short refresh |
| WledDevice.DeviceNode.SetPalette | nodes/wled_device.py:292-299 | fails exactly on an unparsable value (default 0); otherwise the palette is sent, then a short refresh |
| WledDevice.DeviceNode.SetPreset | nodes/wled_device.py:301-311 | fails exactly on an unparsable value (default 1); otherwise the preset is sent, then a full refresh |
| WledDevice.DeviceNode.SetColor | nodes/wled_device.py:313-323 | fails exactly when a channel does not parse; otherwise the colour with white 0 is sent, then a short refresh |
| WledDevice.DeviceNode.SetEffectParameter | nodes/wled_device.py:325-347 | fails on an unparsable value (default 128), or when reading the current effect raises; without a state only the refresh runs; otherwise the current effect is sent with the new speed or intensity level |
| WledDevice.DeviceNode.SetTransition | nodes/wled_device.py:349-356 | fails exactly on an unparsable value (default 7); otherwise the transition is sent, then a short refresh |
| WledDevice.DeviceNode.SetLive | nodes/wled_device.py:358-367 | fails exactly on an unparsable value; otherwise `lor` 1 iff the value is positive, then a short refresh |
| WledDevice.DeviceNode.NightlightOn | nodes/wled_device.py:369-385 | fails exactly on an unparsable value (default 60); otherwise the nightlight body for that duration, then a short refresh |
| WledDevice.DeviceNode.NightlightOff | nodes/wled_device.py:387-393 | the nightlight-off body, then a short refresh |
| WledDevice.DeviceNode.SetSync | nodes/wled_device.py:395-413 | fails exactly on an unparsable value; otherwise the send or receive flag (value > 0), then a short refresh |
| WledDevice.DeviceNode.SavePreset | nodes/wled_device.py:415-424 | fails exactly on an unparsable value (default 1); otherwise `psave`, then a short refresh |
| WledDevice.DeviceNode.PlaylistOn | nodes/wled_device.py:426-433 | fails exactly on an unparsable value (default 0); otherwise `pl`, then a short refresh |
| WledDevice.DeviceNode.PlaylistOff | nodes/wled_device.py:435-441 | `pl` −1, then a short refresh |
| Controller.KeepAddressChars | nodes/controller.py:165 | only alphanumerics and `_` of the text are kept, and never more characters than it has; that every such character is kept, in order, is `KeepAddressCharsAppend` with `KeepAddressCharsOne` |
| Controller.KeepAddressCharsAppend | nodes/controller.py:165 | the filter of a concatenation is the concatenation of the filters |
| Controller.KeepAddressCharsOne | nodes/controller.py:165 | one character is kept exactly when it is alphanumeric or `_` |
| Controller.KeepAddressCharsAll | nodes/controller.py:165 | a text made only of address characters is kept whole |
| Controller.AddressOf | nodes/controller.py:164-165 | a derived address is at most 14 characters of lower-case letters, digits and `_`; its value is pinned by `AddressOfSimpleName` |
| Controller.AddressOfSimpleName | nodes/controller.py:164-165 | a name of ASCII letters, digits, `_`, spaces and dots derives to its first 14 characters, lowered, with each space and dot turned into `_` (so "Living Room" gives `living_room`) |
| Controller.AddressOfAddress | nodes/controller.py:164-165 | an address derives to itself |
| Controller.AddressIdempotent | nodes/controller.py:164-165 | deriving an address twice gives the same as once |
| Controller.AddConfig | nodes/controller.py:164-194 | a taken address leaves the registry as it is; otherwise exactly one entry with that address, name, ip and port is appended |
| Controller.AddAll | nodes/controller.py:136-152 | the registry after adding each wanted device in turn with `AddConfig` |
| Controller.RemoveConfig | nodes/controller.py:202-213 | the registry after `_remove_wled_device`: the configurations with another address, in order |
| Controller.HasAddressExtends | nodes/controller.py:189-194 | a registered address stays registered when entries are appended |
| Controller.AddAllExtends | nodes/controller.py:136-152 | adding devices only appends, at most one entry per device |
| Controller.AddConfigDistinct | nodes/controller.py:168-170 | one addition keeps addresses distinct |
| Controller.AddAllDistinct | nodes/controller.py:168-170 | the registry never holds two entries with one address |
| Controller.AddAllRegisters | nodes/controller.py:164-194 | after adding, every wanted device's address is registered |
| Controller.WantedConfigs | nodes/controller.py:179-194 | one configuration per wanted device, in order |
| Controller.AddAllOnlyWanted | nodes/controller.py:179-194 | every entry added is the configuration of one of the wanted devices |
| Controller.AddAllStep | nodes/controller.py:136-152 | adding one more device extends both the registry and the request log by that device's addition |
| Controller.AddRequests | nodes/wled_device.py:98-99 | each new entry sends exactly two requests: the full refresh and the preset fetch |
| Controller.RemoveConfigKeeps | nodes/controller.py:209-210 | removal keeps exactly the configurations with another address |
| Controller.RemoveAbsent | nodes/controller.py:209 | removing an absent address is a no-op |
| Controller.RemoveConfigAt | nodes/controller.py:209-210 | with distinct addresses, removal deletes exactly the one entry |
| Controller.DeleteAt | nodes/controller.py:210 | deleting a position keeps those before it and moves those after it up by one |
| Controller.AddressIndex | nodes/controller.py:209-210 | the position of a registered address holds that address |
| Controller.RemoveConfigGone | nodes/controller.py:209-210 | no entry with the removed address is left |
| Controller.ParseEntry | nodes/controller.py:137-152 | a blank entry gives nothing; a parsed `name:ip` or bare address always has a non-empty name and ip; the padding, bare-address and field rules are `ParseEntryPadded`, `ParseBareEntry` and `ParseEntryFields` |
| Controller.ParseEntryPadded | nodes/controller.py:137 | white space around an entry does not change how it parses |
| Controller.ParseBareEntry | nodes/controller.py:148-152 | an entry without `:` names the device after itself, each `.` turned into `_`, position by position |
| Controller.ParseEntryFields | nodes/controller.py:141-147 | `name:ip` takes the first two `:`-separated fields; anything after a second `:` is ignored |
| Controller.ParseConfig | nodes/controller.py:126-152 | the devices of a configuration string: none for the empty string, else each comma-separated entry parsed in order |
| Controller.ParsedBy | nodes/controller.py:136-152 | at most one device per entry |
| Controller.ParsedNonEmpty | nodes/controller.py:146-152 | every device parsed from the configuration has a non-empty name and ip |
| Controller.Items | nodes/controller.py:136 | one `name:ip` item per device, in order |
| Controller.ParseItem | nodes/controller.py:141-147 | a plain `name:ip` item parses to that device |
| Controller.ParseEntriesStep | nodes/controller.py:136 | the entries parse one at a time, in order |
| Controller.ParseEntriesSnoc | nodes/controller.py:136 | an entry that parses appends its device |
| Controller.ParsedAll | nodes/controller.py:136-152 | entries that each parse to a device parse to those devices, in order |
| Controller.ParseItems | nodes/controller.py:136-152 | plain items parse to their devices, in order |
| Controller.ParseFormatConfig | nodes/controller.py:126-152 | a configuration string written from plain devices parses back to exactly those devices |
| Controller.DiscoveredName | nodes/controller.py:291-295 | a string name has every `.local` removed and then each `.` turned into `_`, position by position, falling back to the ip when nothing is left; so it has no `.`, is non-empty with a non-empty ip, and a plain name is kept; a name that is not a string gives `None` |
| Controller.DiscoveredLocalName | nodes/controller.py:292 | an mDNS name `host.local` with a dot-free host is discovered as `host` |
| Controller.Leading | nodes/controller.py:290-303 | discovery adds the found devices up to the first whose name is not a string |
| Controller.NamedWanted | nodes/controller.py:290-298 | one wanted device per leading found device |
| Controller.NamedWantedAt | nodes/controller.py:290-298 | the k-th wanted device is the k-th found one under its normalised name and ip |
| Controller.MergeFirst | nodes/controller.py:326-328 | the merged ids are the union; an id already collected keeps its name; a new id takes the device's |
| Controller.MergeAll | nodes/controller.py:315-328 | the presets of the first n devices merged first-wins, in registry order |
| Controller.MergeAllHas | nodes/controller.py:318-328 | an id is collected exactly when one of the devices has it |
| Controller.MergeAllFirstWins | nodes/controller.py:326-328 | an id takes the name of the first device, in registry order, that has it |
| Controller.MergeEmpty | nodes/controller.py:323 | a device without presets adds nothing |
| Controller.MergeInto | nodes/controller.py:326-328 | the merge loop computes `MergeFirst` |
| Controller.ConfigsOf | nodes/controller.py:189-194 | the configuration of each entry, in order |
| Controller.PolledHoldings | nodes/controller.py:257-261 | what each node holds after the poll is its `PollStep` under its own answer |
| Controller.Holdings | nodes/controller.py:257-261 | what each entry's node holds, in order |
| Controller.AddressedDistinct | nodes/controller.py:168-170 | a registry keyed by address has distinct addresses |
| Controller.RegistryAppend | nodes/controller.py:189-197 | appending an unregistered node and client under a free address keeps the registry well formed |
| Controller.RegistryDelete | nodes/controller.py:209-213 | deleting an entry keeps the registry well formed |
| Controller.TakeOneMore | nodes/controller.py:136 | a prefix one longer adds the next entry |
| Controller.AppendAssoc | nodes/controller.py:136 | request logs concatenate associatively |
| Controller.FetchedHoldings | nodes/controller.py:318-322 | what each node holds after the preset fetches is its `FetchStep` under its own answer |
| Controller.FetchedPresets | nodes/controller.py:322 | what each fetch finds, in registry order |
| Controller.FetchFindsSnoc | nodes/controller.py:318-322 | one more fetch extends what is found by its result |
| Controller.Shared | nodes/controller.py:337-340 | every node is given the merged presets and keeps everything else |
| Controller.ControllerNode.constructor | nodes/controller.py:32-67 | an empty, well-formed registry with GV0 zero |
| Controller.ControllerNode.AddWledDevice | nodes/controller.py:154-200 | the registry becomes `AddConfig` of the old one; a new node is fresh, with its own fresh client, and sends its refresh and preset fetch; old entries are kept |
| Controller.ControllerNode.Register | nodes/controller.py:189-197 | the entry is appended and GV0 counts the entries |
| Controller.ControllerNode.RemoveWledDevice | nodes/controller.py:202-219 | the registry becomes `RemoveConfig` of the old one: an absent address changes nothing, a present one loses exactly its entry; GV0 counts the entries |
| Controller.ControllerNode.Deregister | nodes/controller.py:210-213 | exactly the i-th entry is dropped and GV0 counts the entries |
| Controller.ControllerNode.AddNext | nodes/controller.py:146-152 | one more parsed entry is added, or nothing when it did not parse |
| Controller.ControllerNode.ParseDevices | nodes/controller.py:126-152 | the registry becomes the old one with each device of the configuration added in turn at port 80, with exactly their requests sent |
| Controller.ControllerNode.PollDevices | nodes/controller.py:250-263 | every node is refreshed once, in registry order, with the requested sync, and each holds its `PollStep` |
| Controller.ControllerNode.PollEach | nodes/controller.py:257-261 | the loop of `_poll_devices`, with the same contract over the entries given |
| Controller.ControllerNode.PollEntry | nodes/controller.py:258-261 | one pass changes only the i-th node and its client |
| Controller.ControllerNode.PollOne | nodes/controller.py:261 | `update_status(full_sync)` on one node |
| Controller.ControllerNode.Poll | nodes/controller.py:236-248 | `shortPoll` polls with state only, `longPoll` with everything, and any other type changes nothing |
| Controller.ControllerNode.Query | nodes/controller.py:270-274 | a full poll of every node |
| Controller.ControllerNode.Discover | nodes/controller.py:276-304 | the subnet probe, then the found devices added at port 80 in the order found, under their normalised names |
| Controller.ControllerNode.AddDiscovered | nodes/controller.py:287-298 | the found devices are added up to the first whose name is not a string |
| Controller.ControllerNode.AddLeading | nodes/controller.py:290-298 | the loop of `discover` adds exactly the leading named devices |
| Controller.ControllerNode.AddFound | nodes/controller.py:291-298 | one found device is added under its normalised name |
| Controller.ControllerNode.RebuildPresets | nodes/controller.py:306-342 | one preset fetch per node in registry order; when any preset is found, the NLS text is rewritten and every node is given the merged presets; otherwise nothing but the fetches happens |
| Controller.NlsAfter | nodes/controller.py:359-378 | the NLS text, read with universal newlines, is left as it was when a preset name is not a string; otherwise it reads back as its lines outside any preset block followed by the new block |
| Controller.ControllerNode.SharePresets | nodes/controller.py:332-340 | merged presets, if any, are given to every node |
| Controller.ControllerNode.CollectPresets | nodes/controller.py:315-328 | the collecting loop returns the first-wins merge of what each fetch found |
| Controller.ControllerNode.FetchEntry | nodes/controller.py:318-328 | one pass fetches the i-th node's presets and merges them |
| Controller.ControllerNode.MergeStep | nodes/controller.py:323-328 | a device that found presets is merged in; one that found none adds nothing |
| Controller.ControllerNode.FetchOne | nodes/controller.py:322 | `node._device.get_presets()` on one node |
| Controller.ControllerNode.ShareEach | nodes/controller.py:337-340 | every node is given the merged presets |
| Controller.ControllerNode.ShareEntry | nodes/controller.py:339-340 | one pass gives the i-th node the merged presets and changes no other node |
| Nls.ConcatAppend | nodes/controller.py:377-378 | writing two runs of lines writes their texts one after the other |
| Nls.ReadLines | nodes/controller.py:361-362 | `readlines()`: the text cut after each newline, a last line without one kept |
| Nls.Concat | nodes/controller.py:376-378 | `writelines`: the lines written one after the other |
| Nls.ReadConcat | nodes/controller.py:362 | complete lines written and read back are the same lines |
| Nls.FirstLine | nodes/controller.py:362 | a terminated non-empty text reads as its first line followed by the rest |
| Nls.ConcatCons | nodes/controller.py:377 | writing a line then more lines writes the line first |
| Nls.AllLinesCons | nodes/controller.py:362 | prepending a complete line keeps a run of complete lines |
| Nls.ReadTerminated | nodes/controller.py:359-362 | a terminated text reads as complete lines that write back to the text |
| Nls.HeaderLines | nodes/controller.py:368 | the header is a blank line and a comment line, neither starting with `PRESET_` |
| Nls.SafeName | nodes/controller.py:372 | the sanitised name has the same length, `"` turned into `'` and a newline into a space at each position, and every other character in place |
| Nls.Universal | nodes/controller.py:361-362 | reading in text mode leaves no `\r`, changes nothing in a text without one, never lengthens, and keeps a line break wherever there was one |
| Nls.IntHasNoNewline | nodes/controller.py:373 | a printed id holds no newline |
| Nls.PresetLine | nodes/controller.py:373 | a preset line is one complete line starting with `PRESET_` |
| Nls.HasElement | nodes/controller.py:369 | a non-empty set has an element |
| Nls.HasLeast | nodes/controller.py:369 | a non-empty set of ids has a least one |
| Nls.Least | nodes/controller.py:369 | the least id of a non-empty set |
| Nls.Sorted | nodes/controller.py:369 | the sorted ids are exactly the ids, once each |
| Nls.SortedAscending | nodes/controller.py:369 | the sorted ids strictly ascend |
| Nls.PresetLinesFor | nodes/controller.py:369-373 | lines exist exactly when every name is a string, and then the i-th line is the i-th id's |
| Nls.PresetLines | nodes/controller.py:369-373 | lines exist exactly when every preset name is a string |
| Nls.PresetLinesShape | nodes/controller.py:373 | every preset line is complete and starts with `PRESET_` |
| Nls.PresetLinesOrder | nodes/controller.py:369-373 | one line per preset, in ascending id order, each naming its preset |
| Nls.BlockText | nodes/controller.py:368-378 | the written block is the header line pair followed by the preset lines |
| Nls.ReadBack | nodes/controller.py:377-378 | kept lines followed by a block read back as themselves and the block's lines |
| Nls.WithoutPresetsMembers | nodes/controller.py:365 | the filter keeps exactly the lines not starting with `PRESET_` |
| Nls.WithoutPresets | nodes/controller.py:365 | the lines kept as written: those not starting with `PRESET_`, in order |
| Nls.WithoutPresetsShape | nodes/controller.py:365 | the filter never lengthens, leaves no `PRESET_` line and keeps complete lines complete |
| Nls.WithoutPresetsAppend | nodes/controller.py:365 | the filter works line by line |
| Nls.WithoutPresetsKeeps | nodes/controller.py:365 | lines without a `PRESET_` line are kept whole |
| Nls.WithoutPresetsDrops | nodes/controller.py:365 | preset lines are all dropped |
| Nls.Rewrite | nodes/controller.py:359-378 | the file is rewritten exactly when every preset name is a string |
| Nls.RewriteReplacesPresets | nodes/controller.py:365-378 | read back, the rewritten file holds the old non-preset lines in order and then the new block |
| Nls.WithoutPresetsOfBlock | nodes/controller.py:365-368 | of a written block, only its header survives the filter |
| Nls.KeptAgain | nodes/controller.py:365-368 | filtering a rewritten file again removes only its preset lines |
| Nls.RewriteAccumulatesHeaders | nodes/controller.py:365-368 | as written, every rewrite with the same presets lengthens the file by one header |
| Nls.RewriteTwiceDiffers | nodes/controller.py:365-368 | as written, the empty file rewritten twice with one preset is not the file rewritten once |
| Nls.WithoutBlockShape | nodes/controller.py:365 | the corrected filter leaves no `PRESET_` line and no header line, and keeps complete lines complete |
| Nls.WithoutBlock | nodes/controller.py:365-368 | the lines kept by the corrected rewrite: those outside any earlier block, header included, in order |
| Nls.OfBlockAppend | nodes/controller.py:365 | whether a line belongs to a block does not depend on lines after the next one |
| Nls.WithoutBlockAppend | nodes/controller.py:365 | the corrected filter works piecewise across a boundary that does not start with the comment line |
| Nls.WithoutBlockClean | nodes/controller.py:365 | lines with no block lines are kept whole |
| Nls.WithoutBlockDrops | nodes/controller.py:365 | preset lines are all dropped by the corrected filter |
| Nls.WithoutBlockOfBlock | nodes/controller.py:365-368 | a written block, header included, is dropped whole |
| Nls.RewriteBlock | nodes/controller.py:359-378 | the corrected rewrite happens exactly when every preset name is a string |
| Nls.RewriteBlockReplaces | nodes/controller.py:365-378 | read back, the corrected rewrite holds the old lines outside any block, in order, and then the new block |
| Nls.RewriteBlockIdempotent | nodes/controller.py:365-378 | rewriting twice with the same presets gives the text of rewriting once |
| WledSegment.SegmentStatus | nodes/wled_segment.py:92-125 | no segment changes nothing; otherwise power, brightness %, effect, palette, start and stop come from the segment, and RGB come from the first colour when it has three channels and are kept otherwise |
| WledSegment.SegmentStatusIdempotent | nodes/wled_segment.py:92-125 | applying the same segment twice gives the same drivers as once |
| WledSegment.SegmentStatusOverwrites | nodes/wled_segment.py:103-125 | with an RGB first colour, the drivers after the update do not depend on those before it |
| WledSegment.SegmentPick | nodes/wled_segment.py:132-135 | nothing without a parent state or for an index at or past the end; Python indexing otherwise; IndexError exactly below −len |
| WledSegment.QueryDecoded | nodes/wled_segment.py:133-135 | for an index in range, `query` reads the segment decoded at that position of the device's `seg` |
| WledSegment.SegmentCallAsWritten | nodes/wled_segment.py:151-156 | the handlers' `set_segment` raises `AttributeError` with a parent, and never sends a request |
| WledSegment.SegmentCall | nodes/wled_segment.py:151-156 | without a parent nothing happens; `set_segment` raises `AttributeError` before any request; `set_segment_state` posts `{seg: [{id, **kwargs}]}` |
| WledSegment.OnKwargs | nodes/wled_segment.py:147-158 | `on=True`, with `bri` from the percentage when one is given |
| WledSegment.OffKwargs | nodes/wled_segment.py:166-170 | `on=False` alone |
| WledSegment.BrightnessKwargs | nodes/wled_segment.py:180-185 | `bri` from the percentage |
| WledSegment.EffectKwargs | nodes/wled_segment.py:195-199 | `fx` alone |
| WledSegment.PaletteKwargs | nodes/wled_segment.py:209-213 | `pal` alone |
| WledSegment.ColorKwargs | nodes/wled_segment.py:226-230 | `col=[[r, g, b]]`, the channels as given |
| WledSegment.SegmentCallCorrected | lib/wled_api.py:427-440 | through `set_segment_state`, a parent receives one post whose segment object carries the id and every other argument; without a parent nothing is sent |
| WledSegment.ReadbackGet | lib/wled_api.py:439 | every argument other than `id` reads back from the posted segment object |
| WledSegment.OnReadback | nodes/wled_segment.py:147-170 | the device reads the on command's segment as on, with brightness within one percent of the given percentage; the off command's as off |
| WledSegment.BrightnessReadback | nodes/wled_segment.py:180-185 | the device reads the brightness command's segment at the given percentage or one below |
| WledSegment.EffectPaletteReadback | nodes/wled_segment.py:195-213 | the device reads the effect and palette commands' segments with the given effect and palette |
| WledSegment.ColorReadback | nodes/wled_segment.py:226-230 | the colour command's segment reads back as the one colour given, and shows those channels |
| WledSegment.SegmentNode.constructor | nodes/wled_segment.py:38-74 | a node for the segment id and parent with the declared initial drivers |
| WledSegment.SegmentNode.UpdateFromState | nodes/wled_segment.py:92-125 | the drivers become `SegmentStatus` of the old drivers and the segment |
| WledSegment.SegmentNode.Query | nodes/wled_segment.py:127-137 | succeeds exactly unless the index raises; the drivers show the picked segment, if any |
| WledSegment.SegmentNode.Send | lib/wled_api.py:427-440 | with a parent, one segment post and the client's cache as `set_state` leaves it; `returned` is false exactly when the call raised; nothing without a parent |
| WledSegment.SegmentNode.On | nodes/wled_segment.py:139-160 | fails exactly on an unparsable value, then changing nothing; otherwise one segment call with `on` and the brightness when given, and ST set to 1 |
| WledSegment.SegmentNode.Off | nodes/wled_segment.py:162-173 | one segment call with `on` false, and ST set to 0 |
| WledSegment.SegmentNode.SetBrightness | nodes/wled_segment.py:175-188 | fails exactly on an unparsable value (default 100); otherwise one segment call with the level and GV0 set to the percentage as given |
| WledSegment.SegmentNode.SetEffect | nodes/wled_segment.py:190-202 | fails exactly on an unparsable value (default 0); otherwise one segment call with `fx` and GV1 set to it |
| WledSegment.SegmentNode.SetPalette | nodes/wled_segment.py:204-216 | fails exactly on an unparsable value (default 0); otherwise one segment call with `pal` and GV2 set to it |
| WledSegment.SegmentNode.SetColor | nodes/wled_segment.py:218-235 | fails exactly when a channel does not parse; otherwise one segment call with `col` `[[r, g, b]]` and GV3–GV5 set to the channels, unclamped |

## Left out

- The HTTP transport itself (`requests.get`/`post`, timeouts) is the `Http.Transport` script of outcomes. What a device answers is an input, not modelled behaviour.
- JSON numbers with a fraction are not modelled.
- The decoders raise where Python does: on a document that is not an object; on an `nl`, `udpn` or `leds` that is not an object; on a `seg` that cannot be iterated or holds an item that is not an object; on a `start` or `stop` that is not an integer (both are subtracted for the default of `len`, which Python evaluates even when `len` is present); on a `lor` that is not an integer. Any other field of the wrong type, `null` included, reads as its declared default. Python stores such a value in the record as it is, and `update_status` can raise on it later (for example in its arithmetic on `bri`), which sets GV7 to 0. That later exception is not modelled.
- Floating point: `int((x / 255) * 100)` and `int((p / 100) * 255)` are modelled as exact rational division truncated toward zero. IEEE rounding of the intermediate quotient is not modelled.
- `_get_local_ip` (lib/wled_api.py:506-515) opens a UDP socket. Its result is a parameter (`Option<string>`) of discovery.
- `discover_simple` (lib/wled_api.py:517-528) only projects the ip of each device `discover` returns. It is not modelled.
- The `timeout` arguments of the client and of discovery are not modelled, because they only matter to the transport.
- `time.sleep(0.3)` in `cmd_set_preset` (nodes/wled_device.py:310) is not modelled, because timing is outside the model.
- The host framework is not modelled: `udi_interface.Node`, `addNode`/`delNode`, `reportDrivers`, `updateProfile`, custom parameters and event subscriptions. `setDriver` writes are modelled as fields of the `Drivers` and `SegmentDrivers` records.
- The controller's `start`, `_load_config`, `_set_config_docs`, `parameter_handler`, `node_added` and `stop` (nodes/controller.py:68-125, 221-234, 265-268) are framework glue. They are not modelled. `ParseDevices` models what `_load_config` feeds to `_parse_devices`.
- The NLS file is modelled as its text. `RebuildPresets` takes the text read and returns the text written; a missing file reads as empty. The path computation, the file I/O and the profile reload are not modelled.
- Logging is not modelled.
- `_run_async` (nodes/wled_segment.py:76-90) and the coroutines of the segment handlers are not modelled. The client's `set_segment_state` is synchronous, so the corrected segment call is made directly.
- WledSegment.SegmentNode.On and the other segment handlers model the corrected call. As written, the `AttributeError` raised inside the coroutine never sends a request. Whether it reaches the handler depends on the event-loop branch of `_run_async`, so the as-written driver write after it is not modelled. `SegmentCallAsWritten` captures that no request is sent.
- WledSegment.SegmentNode.Off: models the corrected `set_segment_state` call, so a request is sent. As written, the `set_segment` lookup raises `AttributeError` inside the coroutine and no request is sent (`SegmentCallAsWritten`) (nodes/wled_segment.py:168).
- WledSegment.SegmentNode.SetBrightness: models the corrected `set_segment_state` call, so a request is sent. As written, the `set_segment` lookup raises `AttributeError` inside the coroutine and no request is sent (`SegmentCallAsWritten`) (nodes/wled_segment.py:183).
- WledSegment.SegmentNode.SetEffect: models the corrected `set_segment_state` call, so a request is sent. As written, the `set_segment` lookup raises `AttributeError` inside the coroutine and no request is sent (`SegmentCallAsWritten`) (nodes/wled_segment.py:197).
- WledSegment.SegmentNode.SetPalette: models the corrected `set_segment_state` call, so a request is sent. As written, the `set_segment` lookup raises `AttributeError` inside the coroutine and no request is sent (`SegmentCallAsWritten`) (nodes/wled_segment.py:211).
- WledSegment.SegmentNode.SetColor: models the corrected `set_segment_state` call, so a request is sent. As written, the `set_segment` lookup raises `AttributeError` inside the coroutine and no request is sent (`SegmentCallAsWritten`) (nodes/wled_segment.py:228).
- `SegmentCall` covers the two attribute names the handlers can use, `set_segment` and `set_segment_state`, and no other lookup on the client.
- The `if self._device` and `hasattr(node, '_device')` guards (nodes/wled_device.py:108-124 and the command handlers, nodes/controller.py:259, 320, 339) are always true in the model. `_init_device` always sets the client before any of them runs.
- The exceptions that `update_status`, `_poll_devices`, `rebuild_presets` and `discover` catch are modelled as outcomes: a failed request, a document the decoders reject (a `Threw` completion), a `None` from an effect lookup below −len, a name that is not a string. Exceptions raised later by a wrong-typed field that a decoder accepted, as described above, are not modelled.
- WledDevice.DeviceNode.On and the other device handlers whose value does not parse return `ok == false` and change nothing. In the source the `ValueError` propagates to the framework.
- Controller.ControllerNode.RebuildPresets: writes the text of the corrected rewrite `Nls.RewriteBlock`, which replaces the old block together with its header. The source as written, which is `Nls.Rewrite`, keeps every earlier header (see Findings). So the text written is not promised to equal what the source writes whenever the text read holds an earlier block.
- Controller.NlsAfter: gives the text of the corrected rewrite `Nls.RewriteBlock`, for the same reason. What `_update_preset_nls` writes as written is `Nls.Rewrite`, which keeps every earlier header line; the two differ whenever the text read holds an earlier block.
- Controller.ControllerNode.AddWledDevice: does not model the exception branch at nodes/controller.py:199-200. Node creation cannot fail in the model.
- Controller.ControllerNode.RemoveWledDevice: does not model `delNode` (nodes/controller.py:211), which is framework state.
- Controller.ControllerNode.PollDevices and the other loops over the registry follow its insertion order, as Python dictionaries do.
- The segment id is an `int`, and `query` follows Python's negative indexing.
- Unicode: `str.lower` and `isalnum` are restricted to ASCII letters and digits. `int()` (`Text.ParseInt`) accepts only ASCII digits, while Python also accepts any Unicode decimal digit; this affects `int(key)` for preset ids and every handler value. `isspace` follows Python's list of white-space characters.

## Findings

| source | as written | input that shows it | evidently intended | confidence | as-written member | corrected member |
|---|---|---|---|---|---|---|
| nodes/wled_segment.py:151-156, 168, 183, 197, 211, 228 | every segment handler awaits `self._parent_device.set_segment(...)`, but the client has no such method | any segment command with a parent device, e.g. `cmd_off` on segment 0: the lookup raises `AttributeError` and no request is sent | call `set_segment_state(segment_id, **kwargs)` (lib/wled_api.py:427) directly, without `await`: it returns a `bool`, and awaiting that raises `TypeError` in the `run_until_complete` branch of `_run_async` (nodes/wled_segment.py:82); the call posts `{seg: [{id, **kwargs}]}` | high, not executed | WledSegment.SegmentCallAsWritten | WledSegment.SegmentCallCorrected |
| nodes/controller.py:365-368 | only lines starting with `PRESET_` are dropped before the new block is appended, so the header of the previous block stays | the empty file rewritten twice with preset 1 named "Warm": the second text has two header pairs | the old block, header included, replaced by the new one, so that a rewrite with unchanged presets leaves the file as it was | high, not executed | Nls.RewriteTwiceDiffers | Nls.RewriteBlockIdempotent |
