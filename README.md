# Powermon client — a Dafny model

Powermon is a React Native (Expo) client for a power-monitoring service. It
shows the live status of the monitored machines, their power graphs, and
the monitors (the sensors) assigned to them. It also lets its user add,
edit, reassign and delete machines and monitors, mute a machine's alerts
for this installation, keep a log of received push notifications, and
point the app at another server.

This project models the client's logic in Dafny 4.11 and proves
properties of that model. Every file is given to Dafny together; there is
no `include`.

## Layout

The shared layers come first. Each one imports only the layers above it.

- `common.dfy` (`Common`): `Option`, `filter` and occurrence counts.
- `text.dfy` (`Text`): the JavaScript string operations the client uses.
  These are `trim`, the trailing-slash regex, decimal text,
  `parseInt(s, 10)`, `encodeURIComponent` and `localeCompare`.
- `js.dfy` (`Js`): JavaScript values after `res.json()`. Covers
  truthiness, `||`, `??`, `?.`, `String(v)` and `JSON.stringify`.
- `sorting.dfy` (`Sorting`): a stable insertion sort that stands for
  `Array.prototype.sort`. For a consistent comparator its result is the
  unique stable sorted permutation, which is what the engine returns.
- `http.dfy` (`Http`): requests, responses, thrown errors, and the
  error-reason chain `detail.reason || detail || message || error`.
- `storage.dfy` (`Storage`): AsyncStorage as a class over a
  `map<string, Json>`. Every operation takes a failure input.
- `ui.dfy` (`Ui`): alerts and navigation.
- `api_config.dfy` (`ApiConfig`), `device_id.dfy` (`Identity`),
  `mute_service.dfy` (`MuteService`), `get_device.dfy` (`GetDevice`),
  `notifications.dfy` (`Notifications`) and `sort_devices.dfy`
  (`DeviceOrder`): the `utils/` modules of the app.
- `list_shape.dfy` (`ListShape`): how the polling screens read a list reply.
- `submission.dfy` (`Submission`): what the forms and cards share. Covers
  the reassign request, how a non-ok reply is caught or alerted, the
  lookup of a monitor by id, and the machine and monitor sorts.

The screens and components come next, one module each:

- `status_screen.dfy`, `manage_devices.dfy`, `manage_monitors.dfy`;
- `device_screen.dfy`, `muted_devices.dfy`, `api_settings.dfy`;
- `add_device.dfy`, `add_monitor.dfy`, `edit_monitor.dfy`;
- `manage_device_card.dfy`, `manage_monitor_card.dfy`.

## How state and effects are modelled

- Pure computations are functions, each with a named result and an
  `ensures` saying what the result means. A request URL, a payload, a
  parsed reply, a sort and an alert text are all functions of this kind.
- A component whose hooks hold state is a `class`. Its fields are the
  `useState` values, plus the requests issued, the alerts shown and the
  navigation done so far, kept as sequences.
- Each method's `modifies` clause names the fields it may change
  (`this`busy`), so every other field is unchanged without saying so.
- An event is a method:
  - the constructor is mounting;
  - effects, timer ticks, focus and cleanup are methods of their own;
  - a response arriving is a `Respond…` method.
- An `async` handler is split at its `await`s. `Submit`/`Press` runs up to
  the first request, and `Settle`/`Finish` runs when that request
  completes. A press while `busy` is therefore a call the model can make.
  So is a response arriving after unmount.
- What the client cannot see is an input of the method that meets it:
  - the server's replies (`Http.Response`, or the mute service's replies);
  - storage failures;
  - the device information and the clock;
  - the answer given to a confirmation dialog;
  - the build-time configuration (`EXPO_PUBLIC_API_BASE`, `extra.apiBase`).
- A handler's closure values are the values it started from. The model
  keeps them in fields the handler sets when it starts, so a later edit
  does not change what a pending submit sends or reports. The mute toggle
  fixes its choice when pressed, so a muted-state read that settles in
  between does not turn a mute into an unmute
  (`DeviceScreen.PressBeforeMutedReadMutes`).

## Where the code is followed over the intended design

The model does what the code does. Each point below is proved, as a lemma
or as a method's contract, by the member named after it.

- A stored override of "/" resolves to "". The settings screen then shows
  the default (`ApiSettings.StoredSlashShowsDefault`).
- `getApiUrl` strips one more trailing '/' after `setApiUrl` has stripped
  one (`ApiConfig.ResolvedAfterSetStripsTwice`).
- The settings screen tests the scheme on the untrimmed text. A URL with a
  leading space is refused (`ApiSettings.LeadingSpaceIsRefused`).
- "http://" is accepted but stored as "http:/" (`ApiSettings.BareSchemeLosesSlash`).
- The device card's poll check builds its base with `??` and its delete
  with `||`. The two differ for an empty env value
  (`ManageDeviceCard.BasesDisagree`).
- The device management screen applies responses even after cleanup. The
  status and monitor screens do not (`ManageDevices.Screen.Respond`,
  `StatusScreen.Screen.Respond`, `ManageMonitors.Screen.Respond`).
- The monitor card's dialog buttons do not consult `busy`
  (`ManageMonitorCard.Card.Choose`).
- The add-device form is cleared in `finally`, even after a failed save
  and after the info alert (`AddDevice.Screen.Finally`, `AddDevice.Screen.Carry`).
- Resetting the API URL reports success even when the removal failed,
  because `clearApiUrl` never throws (`ApiSettings.Screen.ConfirmReset`).
- `components/ManageDeviceCard.jsx` has no `catch`. A failed delete request
  or an unparsable or `null` ok reply rejects the handler's promise, and the
  model returns that as `rejected` (`ManageDeviceCard.RunDelete`).
- `app/manageDevices.jsx` uses `useCallback` and `useFocusEffect` without
  importing them (line 2). The model follows what the hooks are evidently
  meant to do: one fetch on every focus, and a stable fetch function
  (`ManageDevices.Screen.Focus`).

## Model

| member | source | states |
|---|---|---|
| DeviceOrder.IndexOf | utils/sortDevices.jsx:2-3 | `order.indexOf(x)`: -1 exactly when `x` is absent, otherwise the first position holding `x` |
| DeviceOrder.ByOrder | utils/sortDevices.jsx:1-10 | a listed value ranks before an unlisted one, two listed values compare by the difference of their positions, and two unlisted values by `localeCompare` |
| DeviceOrder.ListedBeforeUnlisted | utils/sortDevices.jsx:4-6 | a value in `order` ranks before a value absent from it, on either side of the comparison |
| DeviceOrder.ByOrderAntisymmetric | utils/sortDevices.jsx:1-10 | `byOrder` is zero exactly on equal values, and swapping the operands flips its sign |
| DeviceOrder.ByOrderTransitive | utils/sortDevices.jsx:1-10 | `byOrder` is transitive, so it is a consistent order |
| DeviceOrder.TypeKey | utils/sortDevices.jsx:14-15 | a missing or falsy `type` compares as "Unknown"; a non-empty string type compares trimmed |
| DeviceOrder.LocationKey | utils/sortDevices.jsx:18-19 | the same defaulting and trimming for `location` |
| DeviceOrder.NameKey | utils/sortDevices.jsx:22 | a string name compares as itself, a missing or falsy one as "" |
| DeviceOrder.TypeKeyDefaults | utils/sortDevices.jsx:14-15 | a non-empty all-blank `type` is truthy, so it is not defaulted and trims to the empty key |
| DeviceOrder.LocationKeyDefaults | utils/sortDevices.jsx:18-19 | likewise, an all-blank `location` becomes the empty key |
| DeviceOrder.UnknownIsItsOwnKey | utils/sortDevices.jsx:14 | the default "Unknown" is unchanged by `String(...).trim()` |
| DeviceOrder.DeviceCompare | utils/sortDevices.jsx:13-23 | different types decide by the type rank; equal types and different locations by the location rank; the result is zero exactly when type, location and name keys all agree |
| DeviceOrder.ComparatorAntisymmetric | utils/sortDevices.jsx:13-23 | swapping two devices flips the sign of the comparator |
| DeviceOrder.ComparatorTransitive | utils/sortDevices.jsx:13-23 | the comparator is transitive over any three devices |
| DeviceOrder.Comparator | utils/sortDevices.jsx:13-23 | the comparator handed to the sort is a total preorder: antisymmetric in sign and transitive |
| DeviceOrder.SortDevices | utils/sortDevices.jsx:12-24 | throws (`None`) exactly when there are two or more devices and one is `null` or `undefined`, whose `type` cannot be read; otherwise a permutation of the input (the input is a value, so `slice()` leaves it untouched), ordered by the comparator |
| DeviceOrder.SortedByKeyCascade | utils/sortDevices.jsx:13-23 | for any two positions in the output the earlier one wins on type rank, or ties on type and wins on location rank, or ties on both and has the smaller-or-equal name |
| DeviceOrder.PriorityTypeFirst | utils/sortDevices.jsx:4-7 | with one priority type, no device of another type is listed before a device of that type |
| DeviceOrder.SingleDeviceKept | utils/sortDevices.jsx:13 | a one-device list is returned as it is, whatever the device: the comparator is never called |
| DeviceOrder.PriorityLocationFirst | utils/sortDevices.jsx:18-20 | with one priority location, within one type no device elsewhere is listed before a device there |
| Sorting.Sort | utils/sortDevices.jsx:13 | the stable sort standing for `Array.prototype.sort`: a permutation of the input of the same length |
| Sorting.SortSorted | utils/sortDevices.jsx:13 | for a consistent comparator the sorted list is ordered |
| Sorting.SortCongruent | app/addMonitor.jsx:50-54 | the sort reads the comparator only on the list's own elements, so comparators that agree there give the same result |
| Sorting.SortKeepsElements | utils/sortDevices.jsx:13 | every element of the sorted list is an element of the input |
| Text.LocaleCompare | utils/sortDevices.jsx:9 | the lexicographic stand-in for `localeCompare`: -1, 0 or 1, and 0 exactly on equal strings |
| Text.LocaleCompareAntisymmetric | utils/sortDevices.jsx:9 | swapping the operands of the string comparison flips its sign |
| Text.LocaleCompareTransitive | utils/sortDevices.jsx:9 | the string comparison is transitive |
| Text.Trim | utils/apiConfig.jsx:29 | `trim()`: the result is a slice of the input with only whitespace before and after it, and has no leading or trailing JS whitespace |
| Text.TrimEmptyIffBlank | app/apiSettings.jsx:31-34 | the trim is empty exactly when the input is all whitespace |
| Text.TrimIdempotent | utils/apiConfig.jsx:29 | trimming twice is trimming once |
| Text.StripTrailingSlash | utils/apiConfig.jsx:13 | `replace(/\/$/, '')`: removes one final '/' and nothing else |
| Text.StripRemovesAtMostOneSlash | utils/apiConfig.jsx:13 | the result is the input, or the input minus its last character when that is '/' |
| Text.StripIdempotentWithoutDoubleSlash | utils/apiConfig.jsx:13-29 | stripping again changes nothing unless the input ended in "//" |
| Text.ParseInt | app/addMonitor.jsx:129 | the digit-prefix `parseInt(s, 10)`: NaN (`None`) exactly when no digit follows the blanks and sign |
| Text.ParseIntOfIntToString | app/addMonitor.jsx:129 | `parseInt(String(n), 10) == n` for every integer |
| Text.IntToString | app/editMonitor.jsx:28 | `String(n)` of an integer: its decimal digits, with a '-' in front exactly for a negative number |
| Text.EncodeUriComponent | app/status.jsx:28 | the percent-encoding stand-in: every output character is unreserved or '%', and the output is never shorter than the input |
| Text.EncodeUnreservedIsIdentity | app/status.jsx:28 | text made only of unreserved characters is encoded as itself |
| Text.EncodedBetween | app/device.jsx:95-97 | a component encoded between two fixed pieces of a URL leaves both pieces intact, holds only encodable characters, and is unchanged when unreserved |
| ApiConfig.EnvOrExtra | utils/apiConfig.jsx:20-42 | `env || extra || ''`: the first non-empty build-time source |
| ApiConfig.DefaultApiUrl | utils/apiConfig.jsx:41-44 | `getDefaultApiUrl()`: the first non-empty of env and `extra.apiBase`, else '', with one trailing '/' removed |
| ApiConfig.CoalescedBase | components/ManageDeviceCard.jsx:10-13 | the `??` form of the base: an empty env string is kept rather than skipped |
| ApiConfig.CoalescedDiffersFromDefault | components/ManageDeviceCard.jsx:10-51 | the `??` base and the `||` base differ exactly when env is the empty string and `extra.apiBase` strips to something non-empty |
| ApiConfig.CleanUrl | utils/apiConfig.jsx:29 | the stored value is the trimmed input with one trailing `/` removed when there is one, and is the trimmed input exactly when that does not end in `/` |
| ApiConfig.Override | utils/apiConfig.jsx:11-14 | the override `getApiUrl` honours is a non-empty stored string that the read returned |
| ApiConfig.ResolvedUrl | utils/apiConfig.jsx:9-22 | `getApiUrl()`: a non-empty stored override with one '/' stripped, otherwise (nothing stored, empty, or a read error) the default |
| ApiConfig.GetApiUrl | utils/apiConfig.jsx:9-22 | the method reads the key once and returns the resolved URL; it never rejects |
| ApiConfig.SetApiUrl | utils/apiConfig.jsx:27-36 | stores `url.trim()` minus one trailing '/' and reports success; a storage error reports failure and stores nothing |
| ApiConfig.ClearApiUrl | utils/apiConfig.jsx:49-57 | removes the override and reports success; a storage error reports failure and removes nothing |
| ApiConfig.ResolvedAfterSet | utils/apiConfig.jsx:13-30 | after a set, `getApiUrl()` is the cleaned value stripped once more, or the default when the cleaned value is empty |
| ApiConfig.ResolvedAfterSetIsClean | utils/apiConfig.jsx:13-29 | when the trimmed input does not end in "//", `getApiUrl()` returns exactly the stored value |
| ApiConfig.ResolvedAfterSetStripsTwice | utils/apiConfig.jsx:13-29 | a trimmed input ending in "//" comes back two slashes shorter, not as stored |
| ApiConfig.ResolvedAfterClear | utils/apiConfig.jsx:20-51 | after a clear, `getApiUrl()` is the default |
| ApiConfig.ResolvedOnReadError | utils/apiConfig.jsx:15-21 | a failed storage read gives the default whatever is stored |
| ApiConfig.ResolvedIgnoresOtherKeys | utils/apiConfig.jsx:11 | items under other keys do not change the resolved URL |
| Storage.ReadOf | utils/apiConfig.jsx:11 | `getItem(key)`: rejects exactly when the read fails, finds the stored value when present, `null` otherwise |
| Storage.KeyValueStore.GetItem | utils/apiConfig.jsx:11 | reading changes nothing and returns `ReadOf` of the contents |
| Storage.KeyValueStore.SetItem | utils/apiConfig.jsx:30 | a write installs the value under its key and reports success, or on failure changes nothing |
| Storage.KeyValueStore.RemoveItem | utils/apiConfig.jsx:51 | a removal deletes the key and reports success, or on failure changes nothing |
| Identity.UniqueId | utils/deviceId.jsx:12 | `modelId || deviceName || 'unknown'` |
| Identity.IdFor | utils/deviceId.jsx:6-23 | a stored non-empty id is returned with storage untouched; otherwise `osName-uniqueId-now` is stored and returned; a read or write error gives `temp-now` |
| Identity.GetDeviceId | utils/deviceId.jsx:6-23 | the method returns the id and leaves the store as `IdFor` says, keeping the id item a string |
| Identity.IdIsMemoised | utils/deviceId.jsx:10-17 | after a first call stores a new id, a second call returns the same id and writes nothing |
| Identity.StoredIdReused | utils/deviceId.jsx:8-17 | an id already stored is returned unchanged and storage is not written |
| Identity.GeneratedId | utils/deviceId.jsx:13 | the id starts with the OS name (`null` when missing) and a dash, and ends with a dash and the timestamp's digits |
| Identity.TempId | utils/deviceId.jsx:21 | `temp-` followed by the timestamp's decimal digits and nothing else |
| Identity.TempIdIsNeverGenerated | utils/deviceId.jsx:13-21 | a `temp-` fallback can never equal a generated id (their dash counts differ) |
| GetDevice.DeviceUrl | utils/getDevice.jsx:14-20 | the request is the env/extra base with one '/' stripped, then `/api/v1/devices/` and the MAC |
| GetDevice.DeviceFrom | utils/getDevice.jsx:20-27 | a failed request or parse gives `null`; an array gives its first element; anything else is itself; a falsy result becomes `null` |
| GetDevice.ObjectReplyIsTheDevice | utils/getDevice.jsx:24-25 | an object body is the device, whatever the status |
| GetDevice.NoRecordGivesNull | utils/getDevice.jsx:24-27 | an empty array, a falsy first element or an unparsable body give `null` |
| GetDevice.DeviceHook.constructor | utils/getDevice.jsx:5 | the hook starts with `null` and no request |
| GetDevice.DeviceHook.Effect | utils/getDevice.jsx:8-20 | a falsy MAC sets `null` and sends nothing; otherwise exactly one GET for that MAC is issued |
| GetDevice.DeviceHook.Respond | utils/getDevice.jsx:21-27 | a settled request sets the device to `DeviceFrom` of its response, with no stale-response check |
| MuteService.ListJson | utils/muteService.jsx:25 | a list of ids written as a JSON array of strings, element by element |
| MuteService.ListOf | utils/muteService.jsx:18 | the ids of a stored string array, element by element |
| MuteService.ListRoundTrip | utils/muteService.jsx:18-25 | writing a list and parsing it back gives the same list |
| MuteService.ListEndpoint | utils/muteService.jsx:10-13 | resolving the device id and the base writes no key other than the id key, and keeps the store's shape |
| MuteService.ListStep | utils/muteService.jsx:13-37 | the list step keeps the store's shape |
| MuteService.MutedList | utils/muteService.jsx:8-38 | `getMutedMachines()` as a whole keeps the store's shape |
| MuteService.GetMutedMachines | utils/muteService.jsx:8-38 | the method issues one GET of `${apiUrl}/devices/${deviceId}/muted-machines` and returns and stores what `MutedList` says |
| MuteService.ListFromServer | utils/muteService.jsx:15-37 | once the URL is known, the list and the store are what `ListStep` says: an ok reply's list is cached, a non-ok reply or a throw falls back to the cache |
| MuteService.CachedList | utils/muteService.jsx:32-33 | `cached ? JSON.parse(cached) : []`: no cached item gives `[]`, and a cached item parses to the list it stores |
| MuteService.ReadCacheAfterError | utils/muteService.jsx:31-36 | the catch block returns the cached list, or `[]` when that read fails too |
| MuteService.OkReplyIsCached | utils/muteService.jsx:21-27 | an ok reply's list is returned and becomes the cache |
| MuteService.MissingFieldIsEmpty | utils/muteService.jsx:22 | an ok reply without `mutedMachines` gives `[]` |
| MuteService.FailureFallsBackToCache | utils/muteService.jsx:15-37 | a non-ok reply or a throw returns the cached list (or `[]`) and leaves the store unchanged |
| MuteService.ReturnedListIsCached | utils/muteService.jsx:21-27 | on an ok reply with a successful write, the cache afterwards equals the returned list |
| MuteService.ListStepTouchesOnlyCache | utils/muteService.jsx:25 | the list step writes no key other than the cache |
| MuteService.MuteOutcome | utils/muteService.jsx:41-66 | `muteMachine(id)` keeps the store's shape |
| MuteService.MuteMachine | utils/muteService.jsx:41-66 | the method's result, store and requests are those of `MuteOutcome` |
| MuteService.UnmuteOutcome | utils/muteService.jsx:69-91 | `unmuteMachine(id)` keeps the store's shape |
| MuteService.UnmuteMachine | utils/muteService.jsx:69-91 | the method's result, store and requests are those of `UnmuteOutcome` |
| MuteService.IsMachineMuted | utils/muteService.jsx:94-102 | `isMachineMuted(id)` is membership of `id` in what `getMutedMachines()` returns, with the same store effect |
| MuteService.FailedMutationLeavesCache | utils/muteService.jsx:52-90 | a failed POST or DELETE returns false, sends no refresh and leaves the cache entry unchanged |
| MuteService.MuteSuccessCachesId | utils/muteService.jsx:55-61 | after a successful mute the cache holds `id`: when the refreshed list lacked it, the cache is that list plus `id`, which then occurs once; when it already had it, the cache is that list |
| MuteService.MuteFailsOnCacheWrite | utils/muteService.jsx:57-65 | a mute the server accepted is still reported as failed when the final cache write fails |
| MuteService.UnmuteSuccessRemovesId | utils/muteService.jsx:82-86 | after a successful unmute the cache is the refreshed list with every `id` removed, the rest in order |
| Notifications.Added | utils/NotificationContext.jsx:41-47 | a missing or id-less record, or one whose id is present, leaves the list unchanged; otherwise it is prepended |
| Notifications.ClearedAll | utils/NotificationContext.jsx:49-51 | clear-all gives the empty list |
| Notifications.ClearedOne | utils/NotificationContext.jsx:53-55 | clear-one leaves no record with that id and never lengthens the list |
| Notifications.AddIdempotent | utils/NotificationContext.jsx:44 | adding the same record twice is adding it once |
| Notifications.AddNewPrepends | utils/NotificationContext.jsx:45 | a new id grows the list by one, at the front, with the old list as the tail |
| Notifications.AddKeepsIdsDistinct | utils/NotificationContext.jsx:43-45 | adding keeps ids pairwise distinct |
| Notifications.FilterKeepsIdsDistinct | utils/NotificationContext.jsx:54 | any filter keeps ids pairwise distinct |
| Notifications.UpdatersKeepIdsDistinct | utils/NotificationContext.jsx:41-55 | add, clear-all and clear-one all keep ids pairwise distinct |
| Notifications.ClearOneRemovesExactly | utils/NotificationContext.jsx:54 | clear-one removes exactly the records with that id, keeps every other record with its multiplicity, and distributes over concatenation (order kept) |
| Notifications.ClearAbsentIsIdentity | utils/NotificationContext.jsx:54 | clearing an absent id changes nothing |
| Notifications.Received | utils/NotificationContext.jsx:70-78 | a received notification becomes a record whose id is the request identifier, with title and body defaulting to "" and data to `{}` |
| Notifications.RouteFor | utils/NotificationContext.jsx:82-90 | a tap opens `/device` with the payload's `mac` when it is truthy, else `/notifications` |
| Notifications.ListToJson | utils/NotificationContext.jsx:33 | the persisted array holds one stored record per notification, in order |
| Notifications.ListFromJson | utils/NotificationContext.jsx:22 | a restored array gives one record per element |
| Notifications.ToJson | utils/NotificationContext.jsx:72-78 | a stored record is an object holding each of the five fields under its own key |
| Notifications.FromJson | utils/NotificationContext.jsx:22 | an element reads back as a record exactly when it is an object with string id, title, body and createdAt, and then every field is what the object holds under its key |
| Notifications.TextOr | utils/NotificationContext.jsx:74-75 | a missing title or body becomes "", a present one is kept |
| Notifications.RecordRoundTrip | utils/NotificationContext.jsx:22-33 | a stored record parses back to itself |
| Notifications.ListRoundTrip | utils/NotificationContext.jsx:22-33 | a persisted list restores to the same list |
| Notifications.NotificationProvider.constructor | utils/NotificationContext.jsx:15 | the provider starts with the empty list |
| Notifications.NotificationProvider.Load | utils/NotificationContext.jsx:18-27 | a failed read or a missing key leaves the list alone; otherwise the list becomes the stored log |
| Notifications.NotificationProvider.Persist | utils/NotificationContext.jsx:30-38 | the whole list is written under the key, or on a write error nothing changes |
| Notifications.NotificationProvider.Add | utils/NotificationContext.jsx:41-47 | the list becomes `Added` of the old list; it persists only when the list changed |
| Notifications.NotificationProvider.ClearAll | utils/NotificationContext.jsx:49-51 | the list becomes empty and is persisted |
| Notifications.NotificationProvider.ClearOne | utils/NotificationContext.jsx:53-55 | the list becomes `ClearedOne` of the old list and is persisted |
| Notifications.PersistThenLoadRestores | utils/NotificationContext.jsx:22-33 | after a successful persist a load restores exactly the current list |
| Sorting.SortOfSortedIsIdentity | utils/sortDevices.jsx:13 | an already ordered list is left as it is, the sort being stable |
| Sorting.SortIdempotent | utils/sortDevices.jsx:13 | for a consistent comparator, sorting a sorted list changes nothing |
| ListShape.Fetched | app/status.jsx:31-33 | the data a poll sees: present exactly when the request came back with a parsable body, whatever the status |
| ListShape.Normalise | app/status.jsx:35-37 | an array is the list; otherwise an array under the wrapper key is the list; anything else is `[]` |
| ListShape.PollResult | app/status.jsx:31-43 | a failed request or parse gives `[]`; otherwise the normalised data |
| ListShape.WrongWrapperIsEmpty | app/manageMonitors.jsx:23-25 | an object without the wrapper key normalises to `[]` |
| ListShape.WrapperAgreesWithArray | app/manageDevices.jsx:28-29 | `{devices: xs}` and `xs` give the same list |
| ListShape.NonListDataIsEmpty | app/status.jsx:37 | data that is neither an array nor an object gives `[]` |
| StatusScreen.StatusUrl | app/status.jsx:17-29 | the bare status endpoint when there is no location, else the endpoint with `?location=` and the encoded location |
| StatusScreen.LocationStaysOneParameter | app/status.jsx:28 | the encoded location adds no '&', '#' or '=' to the URL, so it stays one query parameter |
| StatusScreen.Screen.constructor | app/status.jsx:16-47 | mounting issues exactly one fetch of the status endpoint and registers the interval |
| StatusScreen.Screen.Tick | app/status.jsx:47 | a tick fetches once while the interval is registered, and does nothing after cleanup |
| StatusScreen.Screen.Respond | app/status.jsx:33-43 | a response sets the list to `PollResult` while mounted, and after cleanup changes nothing, success or failure |
| StatusScreen.Screen.Unmount | app/status.jsx:49-52 | cleanup clears `mounted` and the interval and leaves the list alone |
| StatusScreen.Screen.Ordered | app/status.jsx:13-55 | the render throws exactly when two or more devices are held and one is `null` or `undefined`; otherwise the rendered list is a permutation of the state, ordered with `['IPM']` and `['Production line']` |
| StatusScreen.IpmFirst | app/status.jsx:13-55 | every IPM device is listed before every device of another type |
| StatusScreen.ProductionLineFirst | app/status.jsx:14-55 | within one type, the "Production line" devices come first |
| ManageDevices.WithoutMac | app/manageDevices.jsx:61-62 | the filter throws exactly when some element is `null` or `undefined`, whose `mac` cannot be read; otherwise it keeps no device with that `mac` and keeps every other device with its multiplicity |
| ManageDevices.WithoutMacIdempotent | app/manageDevices.jsx:61-62 | deleting the same MAC twice is deleting it once: a filter that did not throw leaves nothing for the second one to throw on |
| ManageDevices.WithoutAbsentMacIsIdentity | app/manageDevices.jsx:61-62 | deleting a MAC no device has changes nothing, order included, unless a nullish element makes the filter throw |
| ManageDevices.Screen.constructor | app/manageDevices.jsx:38-46 | mounting issues exactly one fetch and starts the interval |
| ManageDevices.Screen.Tick | app/manageDevices.jsx:41-46 | a tick fetches only while `mounted` |
| ManageDevices.Screen.Focus | app/manageDevices.jsx:55-59 | focus issues exactly one extra fetch |
| ManageDevices.Screen.Respond | app/manageDevices.jsx:26-35 | every response, late ones included, replaces the list with `PollResult` (there is no `mounted` check) |
| ManageDevices.Screen.HandleDeleted | app/manageDevices.jsx:61-62 | the state updater throws exactly when the filter does, and then the list is unchanged; otherwise the list becomes the filtered list and nothing else changes |
| ManageDevices.Screen.Unmount | app/manageDevices.jsx:48-51 | cleanup clears `mounted` and the interval |
| ManageDevices.Screen.Ordered | app/manageDevices.jsx:11-64 | the render throws exactly when two or more devices are held and one is `null` or `undefined`; otherwise the rendered list is a permutation of the state, ordered with `["IPM"]` and `["Production line"]` |
| ManageMonitors.MonitorsUrl | app/manageMonitors.jsx:10-14 | the monitors endpoint under the env/extra base |
| ManageMonitors.RefreshResult | app/manageMonitors.jsx:55-62 | a post-delete refresh normalises like a poll on success and keeps the current list on failure |
| ManageMonitors.RefreshAgreesWithPoll | app/manageMonitors.jsx:23-62 | a refresh and a poll agree exactly when the request succeeded or the list was already empty |
| ManageMonitors.Screen.constructor | app/manageMonitors.jsx:9-36 | mounting issues exactly one fetch and registers the interval |
| ManageMonitors.Screen.Tick | app/manageMonitors.jsx:36 | a tick fetches while the interval is registered |
| ManageMonitors.Screen.Respond | app/manageMonitors.jsx:20-31 | a poll response sets `PollResult` while mounted and changes nothing after cleanup |
| ManageMonitors.Screen.HandleMonitorDelete | app/manageMonitors.jsx:45-55 | a delete issues one immediate refresh of the same endpoint |
| ManageMonitors.Screen.RespondRefresh | app/manageMonitors.jsx:56-62 | a refresh sets `RefreshResult`, with no `mounted` check |
| ManageMonitors.Screen.Unmount | app/manageMonitors.jsx:38-41 | cleanup clears `mounted` and the interval |
| ApiSettings.LoadedText | app/apiSettings.jsx:19-21 | the field shows the resolved URL, or the default when that is empty |
| ApiSettings.StoredSlashShowsDefault | utils/apiConfig.jsx:12-13 | a stored "/" is a truthy override that resolves to "", so the field shows the default |
| ApiSettings.Rejection | app/apiSettings.jsx:31-40 | a blank input gets the blank message; a non-blank input not starting with `http://` or `https://` (the test runs on the untrimmed text) gets the scheme message; anything else is accepted |
| ApiSettings.LeadingSpaceIsRefused | app/apiSettings.jsx:37-40 | a valid URL with a leading space is refused, because the scheme test runs on the untrimmed text |
| ApiSettings.StoredUrlKeepsScheme | app/apiSettings.jsx:37-44 | an accepted URL longer than its scheme is stored still starting with that scheme |
| ApiSettings.BareSchemeLosesSlash | app/apiSettings.jsx:37-44 | "http://" is accepted but stored as "http:/", which the screen itself would refuse |
| ApiSettings.SaveAlert | app/apiSettings.jsx:30-56 | a rejected input shows its rejection; an accepted one shows the success text, or the failure text when the write fails; "Success" exactly for an accepted input whose write succeeds |
| ApiSettings.SavedItems | utils/apiConfig.jsx:29-30 | a rejected input or a failed write stores nothing; otherwise the cleaned URL is stored under the key |
| ApiSettings.SaveThenResolve | utils/apiConfig.jsx:11-14 | after a successful save the stored value is non-empty and `getApiUrl()` returns it with one more '/' stripped |
| ApiSettings.Screen.constructor | app/apiSettings.jsx:7-10 | the screen starts loading, with an empty field and no alert |
| ApiSettings.Screen.LoadCurrentUrl | app/apiSettings.jsx:16-28 | the field becomes `LoadedText`, the default is recorded, and `loading` ends false |
| ApiSettings.Screen.Edit | app/apiSettings.jsx:100-110 | typing sets the field and nothing else |
| ApiSettings.Screen.HandleSave | app/apiSettings.jsx:30-60 | the alert is `SaveAlert`, the store is `SavedItems`, and `saving` is false after every save that went ahead |
| ApiSettings.Screen.ConfirmReset | app/apiSettings.jsx:62-86 | Cancel changes nothing; Reset removes the override (unless the removal fails), shows the default and reports success whatever the removal did, and `saving` is false afterwards |
| DeviceScreen.FindOption | app/device.jsx:49 | `TIME_OPTIONS.find(...)`: `None` exactly when no option has the value; otherwise the first option with it |
| DeviceScreen.TimeOptionValuesDistinct | app/device.jsx:28-37 | the eight time options have pairwise distinct values |
| DeviceScreen.FoundByItsValue | app/device.jsx:49 | in a list with distinct values every option is the one found for its own value |
| DeviceScreen.OptionFoundByItsValue | app/device.jsx:28-37 | each of the eight time options is found by its own value |
| DeviceScreen.DefaultIsAnOption | app/device.jsx:19-20 | the initial range "3h" is an option, and its bucket is the initial bucket "1m" |
| DeviceScreen.PowerUrl | app/device.jsx:95-97 | `/api/v1/power?mac=` under the base, then encoded text only, then `&time_range=` and `&bucket=` as given, so the MAC cannot end its parameter early; an unreserved MAC is sent unchanged |
| DeviceScreen.Restored | app/device.jsx:45-53 | a truthy saved value becomes the range and the bucket follows it only when an option matches; a missing, empty or failed read leaves both as they were |
| DeviceScreen.SelectedRangeIsRestored | app/device.jsx:179-183 | a range chosen in the dropdown and saved is restored with its own bucket on the next mount |
| DeviceScreen.MapPoints | app/device.jsx:103-106 | `None` exactly when some raw point is nullish (a field read on it throws); otherwise one point per raw element, in order, built by the two conversions |
| DeviceScreen.ByDate | app/device.jsx:107 | the comparator is non-positive exactly when the first date is not later |
| DeviceScreen.ByDateIsTotalPreorder | app/device.jsx:107 | the date comparator is a consistent (antisymmetric, transitive) order |
| DeviceScreen.SortByDate | app/device.jsx:107 | the sorted series is a permutation of the mapped points, ascending by date |
| DeviceScreen.AscendingSeriesUnchanged | app/device.jsx:107 | a series whose dates already ascend keeps its order |
| DeviceScreen.RawPoints | app/device.jsx:102 | `data.points` when it is an array, `[]` otherwise, and `None` (a throw) exactly when `data` is nullish |
| DeviceScreen.PowerOutcome | app/device.jsx:99-111 | a failed fetch or parse gives `None`; a success is the date-sorted permutation of the mapped points together with `min`, `max` and `average` as the body holds them; a parsed body gives `None` only when it or a point is nullish |
| DeviceScreen.MissingPointsGiveEmptySeries | app/device.jsx:102 | a body without a `points` array gives an empty series but still sets the three figures |
| DeviceScreen.NullBodyIsAFailure | app/device.jsx:102 | a `null` body is a failure |
| DeviceScreen.Screen.constructor | app/device.jsx:16-27 | the initial state: range "3h", bucket "1m", no points, figures "-", not muted and not busy |
| DeviceScreen.Screen.RestoreRange | app/device.jsx:45-53 | range and bucket become `Restored` of the read of `graph_time_range`; nothing else changes |
| DeviceScreen.Screen.SelectRange | app/device.jsx:179-183 | range and bucket follow the chosen option, and its value is stored under `graph_time_range` unless the write fails |
| DeviceScreen.Screen.LoadMuted | app/device.jsx:55-59 | with a MAC, `isMuted` is exactly whether the MAC is in the muted list and the cache is updated as `getMutedMachines` does; without one nothing changes |
| DeviceScreen.Screen.BeginToggle | app/device.jsx:61-65 | a toggle starts exactly when none is pending and there is a MAC; it then sets `muteBusy` and records whether the press saw the device muted |
| DeviceScreen.Screen.FinishToggle | app/device.jsx:64-84 | unmutes when the press saw the device muted and mutes otherwise, whatever `isMuted` became meanwhile; `isMuted` is set only on success, the alert matches the outcome, the store is what the mute service leaves, and `muteBusy` is cleared |
| DeviceScreen.PressBeforeMutedReadMutes | app/device.jsx:55-80 | a press on a fresh screen, followed by a mount read that finds the device muted, still mutes: the store is the mute's outcome, the alert reports it, and the device shows muted |
| DeviceScreen.Screen.FetchPower | app/device.jsx:87-99 | one `GET /power` request with the encoded MAC, range and bucket when the MAC is non-empty, none otherwise |
| DeviceScreen.Screen.RespondPower | app/device.jsx:100-116 | a successful response sets the series and figures of `PowerOutcome`; a failure empties the series and keeps the figures |
| MutedDevices.WithoutMac | app/mutedDevices.jsx:61-63 | the MAC is gone and every other MAC keeps its number of occurrences |
| MutedDevices.WithoutMacKeepsOrder | app/mutedDevices.jsx:62 | removal commutes with concatenation, so the remaining MACs keep their order |
| MutedDevices.WithoutAbsentMacIsIdentity | app/mutedDevices.jsx:62 | removing a MAC that is not listed changes nothing |
| MutedDevices.Item.constructor | app/mutedDevices.jsx:7-9 | an item starts not busy and without alerts |
| MutedDevices.Item.Press | app/mutedDevices.jsx:11-12 | a press starts the unmute exactly when the button is not disabled by `busy`, and leaves `busy` set |
| MutedDevices.Item.Finish | app/mutedDevices.jsx:13-19 | `onUnmute` is called exactly when `unmuteMachine` succeeds, a failure raises the error alert, the store is what the service leaves, and `busy` is cleared |
| MutedDevices.Screen.constructor | app/mutedDevices.jsx:47-48 | the screen starts with no MACs and loading |
| MutedDevices.Screen.Load | app/mutedDevices.jsx:50-59 | the list is exactly what `getMutedMachines` returns, the cache is updated as it does, its request is the one issued, and loading ends |
| MutedDevices.Screen.HandleUnmute | app/mutedDevices.jsx:61-63 | the list becomes `WithoutMac` of the old list |
| Common.Filter | utils/muteService.jsx:83 | `filter`: every kept element is accepted and comes from the input; nothing is dropped when every element is accepted |
| Common.FilterConcat | app/mutedDevices.jsx:62 | filtering distributes over concatenation, so the kept elements keep their relative order |
| Common.FilterCounts | utils/muteService.jsx:83 | each accepted value keeps all its occurrences and each rejected value loses all of them |
| Common.FilterIdempotent | utils/muteService.jsx:83 | filtering again with the same test changes nothing |
| Common.Count | utils/muteService.jsx:56-57 | the number of occurrences of a value; zero exactly when it is absent |
| Js.Or | components/ManageMonitorCard.jsx:57 | `a || b` is one of its operands, and is truthy exactly when either operand is |
| Js.Coalesce | components/ManageDeviceCard.jsx:11-13 | `a ?? b` is one of its operands, and is nullish only when `a` is |
| Js.Lookup | app/editMonitor.jsx:28 | a missing key reads as `undefined` |
| Js.LookupReadsLast | app/editMonitor.jsx:28 | a present key reads as the value of its last occurrence, and no later member has that key |
| Js.Get | components/ManageMonitorCard.jsx:57 | `v?.key` is `undefined` on every non-object and for every absent key |
| Js.GetLastMember | components/ManageMonitorCard.jsx:57 | a member appended last is what property access sees |
| Js.LookupUnique | app/addMonitor.jsx:128-132 | a key that occurs once is read at its only position |
| Js.LookupIgnoresOtherKeys | app/addMonitor.jsx:128-132 | a member with another key does not change what a key reads |
| Js.LookupOfThree | app/addMonitor.jsx:128-132 | a key of a three-member object literal reads as the last member with that key, `undefined` when none has it |
| Js.LookupOfFour | app/addDevice.jsx:142-147 | a four-member literal is read from its last member back |
| Js.LookupOfFive | app/addDevice.jsx:147-153 | a five-member literal is read from its last two members back |
| Js.ToText | app/editMonitor.jsx:28 | `String(v)` of a string is the string itself |
| Js.NumberTextRoundTrip | app/addMonitor.jsx:69-129 | the text of a number parses back as that number, so a prefilled id is sent unchanged |
| Js.ToTextEmptyOnlyForBlankValues | app/addMonitor.jsx:69 | for a non-array, `String(v)` is empty exactly for the empty string |
| Js.EscapeChar | components/ManageMonitorCard.jsx:61 | a character is escaped exactly when it is a quote, a backslash or a control character |
| Js.EscapeText | components/ManageMonitorCard.jsx:61 | escaping never shortens a string |
| Js.Quote | components/ManageMonitorCard.jsx:61 | a quoted string starts and ends with a double quote |
| Js.QuotePlainText | components/ManageMonitorCard.jsx:61 | text without quotes, backslashes or control characters is quoted as itself between two quotes |
| Js.PlainTextEscapesToItself | components/ManageMonitorCard.jsx:61 | such text is unchanged by escaping |
| Js.Stringify | components/ManageMonitorCard.jsx:61 | `JSON.stringify(v)` is `undefined` exactly for `undefined`, and a string is written quoted |
| Http.ErrorText | app/addMonitor.jsx:157 | `String(err)`: the name alone for an empty message, `name: message` otherwise, and always ends with the message |
| Http.ErrorState | app/addMonitor.jsx:157 | the error line is a prefix of `String(err)` of at most 300 characters |
| Http.ErrorWith | app/addMonitor.jsx:113 | `new Error(m)` is named "Error" and carries `m`, or an empty message for `undefined` |
| Http.ReasonOf | components/ManageMonitorCard.jsx:57 | `detail.reason`, else `detail`, else `message`, else `error`, each taken when the earlier ones are falsy |
| Http.ErrorMessage | components/ManageMonitorCard.jsx:61 | a string reason is kept as it is; the message is `undefined` exactly when the reason is |
| Http.MessageOr | app/addMonitor.jsx:113 | `errorMsg || fallback`: the message when it is non-empty, the fallback otherwise |
| Http.ReadReason | components/ManageMonitorCard.jsx:54-60 | a JSON error body gives its reason as text; a body that is not JSON makes the `res.text()` fallback throw, its body being consumed |
| Http.NestedReasonWins | components/ManageMonitorCard.jsx:57 | a non-empty `detail.reason` wins over every other field |
| Http.DetailTextReported | components/ManageMonitorCard.jsx:57 | a `{"detail": "..."}` body reports its detail text verbatim |
| Http.NoReasonIsUndefined | app/addMonitor.jsx:111-112 | a body with none of the four fields gives an `undefined` message, shown as "undefined" in a template |
| Http.StructuredReasonStringified | components/ManageMonitorCard.jsx:61 | a reason that is neither a string nor `undefined` is reported as its JSON text |
| Submission.ApiBase | app/editMonitor.jsx:14-18 | the base is the build-time URL followed by "/api/v1" |
| Submission.MachineQuery | app/editMonitor.jsx:71 | the query starts with `?machine_name=` and the encoded name holds no '&', '#' or '=' |
| Submission.ReassignRequest | app/editMonitor.jsx:71-75 | a `POST` without a body to `/monitors/<id>/reassign` followed by the machine query |
| Submission.MachineStaysOneParameter | app/editMonitor.jsx:71 | nothing after `?machine_name=` can start another parameter or a fragment |
| Submission.CaughtFailure | components/ManageMonitorCard.jsx:47-70 | no failure exactly for an ok reply; a network error rethrows as is; a non-ok reply throws the `res.text()` failure or `new Error` of the reason |
| Submission.CaughtReasonText | components/ManageMonitorCard.jsx:57-61 | a text reason becomes exactly the error's message |
| Submission.CaughtNoReasonIsEmpty | components/ManageMonitorCard.jsx:57-61 | no reason at all gives an `Error` with an empty message |
| Submission.ReasonAlert | app/addMonitor.jsx:112-149 | the alert carries the message alone, or the lead followed by the message as a template prints it |
| Submission.CheckedReply | app/addMonitor.jsx:140-151 | an ok reply passes; a non-ok JSON reply alerts its reason and throws `errorMsg || fallback`; a network error or an unreadable error body throws without an alert |
| Submission.FallbackCarriesStatus | app/addMonitor.jsx:150 | an empty or missing reason makes the thrown message the status fallback, which is never empty |
| Submission.AlertAndErrorAgree | app/addMonitor.jsx:149-150 | on a non-empty reason the alert and the thrown message are the same text |
| Submission.FieldText | app/addMonitor.jsx:69-71 | `v || ''`: empty for a falsy value, the string itself for a string |
| Submission.FindById | app/editMonitor.jsx:28 | the first element whose `String(id)` equals the wanted text; no match exactly when every element is non-nullish and differs; a throw at the first nullish element reached |
| Submission.SearchReply | app/editMonitor.jsx:25-28 | a failed request or parse, or a non-array body, throws; otherwise the search runs on the array |
| Submission.NumericIdMatchesItsText | app/editMonitor.jsx:28 | a numeric id matches the route's text form of that number |
| Submission.NameOf | app/editMonitor.jsx:48-49 | a string name is compared as itself, a falsy one as "" |
| Submission.ByNameIsTotalPreorder | app/editMonitor.jsx:47-51 | the machine comparator is a consistent order |
| Submission.SortedMachines | app/editMonitor.jsx:41-57 | `[]` on a failed request or parse, a non-array, or a throwing comparison (two or more machines, and a nullish one or one after the first whose name is truthy but not a string); otherwise a permutation of the fetched machines |
| Submission.MachinesInNameOrder | app/editMonitor.jsx:47-52 | the machines list is in name order |
| Submission.NumberNameFirstIsSorted | app/editMonitor.jsx:47-51 | a number name on the first machine is only ever the argument of `localeCompare`, so `[{name: 5}, {name: "a"}]` sorts |
| Submission.NumberNameSecondThrows | app/editMonitor.jsx:47-51 | the same machines the other way round put the number name in the receiver, so the fetch ends in `[]` |
| Submission.SingleMachineKept | app/editMonitor.jsx:47-52 | a single machine needs no comparison and is kept whatever its name |
| Submission.IdNumber | app/addDevice.jsx:67 | `Number(id)` of a numeric id is that number; `undefined` is `NaN` |
| Submission.SortedMonitors | app/addDevice.jsx:59-70 | `[]` on a failed request or parse, a non-array, or a comparison on a nullish element; otherwise a permutation of the fetched monitors |
| Submission.ByIdKeyIsTotalPreorder | app/addDevice.jsx:67 | the numeric-key comparator is a consistent order |
| Submission.DifferenceOfNumericIds | app/addDevice.jsx:67 | for numeric ids `a.id - b.id` is the difference of the keys |
| Submission.NumericIdsSortByKey | app/addDevice.jsx:67 | where every id is a number the source's comparator and the key comparator sort alike |
| Submission.NumericIdsAscend | app/addDevice.jsx:67 | a list of numeric ids sorts into ascending id order |
| Submission.KeyOfNumericId | app/addDevice.jsx:67 | the key of a numeric id is the id |
| Submission.MonitorsInIdOrder | app/addDevice.jsx:59-70 | when every fetched id is a number the monitors list ascends by id |
| ManageDeviceCard.CheckPolls | components/ManageDeviceCard.jsx:9-22 | the count exactly when an ok JSON reply holds a numeric `count`; `null` on every other outcome |
| ManageDeviceCard.CheckPollUrl | components/ManageDeviceCard.jsx:15 | the `??` base, `/api/v1/checkPoll/` and the MAC unencoded; a missing MAC as the text `undefined` or `null` |
| ManageDeviceCard.DeleteUrl | components/ManageDeviceCard.jsx:52 | the `||` base, `/api/v1/devices/` and the MAC unencoded; a missing MAC as the text `undefined` or `null` |
| ManageDeviceCard.BasesDisagree | components/ManageDeviceCard.jsx:10-52 | the poll check and the delete go to different servers exactly when the env base is set but empty and `extra.apiBase` strips to something non-empty |
| ManageDeviceCard.RunDelete | components/ManageDeviceCard.jsx:24-67 | a confirmation is asked exactly for a positive count; a refusal stops after the poll check; otherwise the delete follows; `onDelete` is called exactly after an ok JSON reply whose status is "deleted"; the one alert, "Delete failed", exactly for a non-ok reply; the promise rejects exactly when the delete is sent and fails at the network, or returns ok with an unparsable, `null` or `undefined` body, and a rejection never notifies |
| ManageDeviceCard.FailedCheckSkipsConfirmation | components/ManageDeviceCard.jsx:19-31 | a failed poll check is read as no polls: the delete goes ahead without asking |
| ManageDeviceCard.Card.constructor | components/ManageDeviceCard.jsx:7 | a card starts not busy, with no requests and no alerts |
| ManageDeviceCard.Card.Press | components/ManageDeviceCard.jsx:25-26 | a press starts the handler exactly when not busy, and leaves `busy` set |
| ManageDeviceCard.Card.Run | components/ManageDeviceCard.jsx:28-66 | the handler's requests, alerts, notification and rejection are those of `RunDelete`, and `finally` clears `busy` |
| ManageMonitorCard.Chosen | components/ManageMonitorCard.jsx:21-25 | Cancel starts nothing, "Unassign Only" the unassign and "Delete Permanently" the delete |
| ManageMonitorCard.OperationRequest | components/ManageMonitorCard.jsx:48-83 | the unassign is a `POST` to `/monitors/<id>/unassign`, the delete a `DELETE` of `/monitors/<id>`, neither with a body |
| ManageMonitorCard.OperationAlert | components/ManageMonitorCard.jsx:64-102 | "Success" exactly after an ok reply; otherwise the operation's lead followed by the caught error's message |
| ManageMonitorCard.NetworkErrorReported | components/ManageMonitorCard.jsx:70-102 | a network failure is reported with the transport's message |
| ManageMonitorCard.DetailReachesAlert | components/ManageMonitorCard.jsx:89-102 | a `detail` text on a failed delete reaches the alert verbatim |
| ManageMonitorCard.Card.constructor | components/ManageMonitorCard.jsx:5-6 | a card starts not busy, with no dialog, no pending request, no alerts and no notification |
| ManageMonitorCard.Card.Press | components/ManageMonitorCard.jsx:15-42 | nothing while busy; on the web the unassign starts exactly when confirmed; natively one more dialog opens and nothing is requested |
| ManageMonitorCard.Card.Choose | components/ManageMonitorCard.jsx:21-25 | one dialog closes; Cancel changes nothing else, and the other buttons start their operation without consulting `busy` |
| ManageMonitorCard.Card.Start | components/ManageMonitorCard.jsx:45-83 | `busy` is set, the operation is pending and its request is issued |
| ManageMonitorCard.Card.Settle | components/ManageMonitorCard.jsx:53-105 | the operation is no longer pending, its alert is raised, `onDelete(monitor.id)` follows an ok reply when supplied, and `busy` is cleared |
| EditMonitor.InitialSelection | app/editMonitor.jsx:31 | `name || machine_name || ""`: a non-empty name, else a string machine name, else empty |
| EditMonitor.SaveAlert | app/editMonitor.jsx:88-92 | "Success" exactly after an ok reply, naming the route's id and the machine; otherwise "Failed to reassign monitor: " and the caught message |
| EditMonitor.RouteIdFindsNumericId | app/editMonitor.jsx:28-31 | a monitor whose numeric id is the route's number is found and its machine preselected |
| EditMonitor.Screen.constructor | app/editMonitor.jsx:8-58 | mounting issues the monitors lookup only for a truthy route id, then the machines fetch |
| EditMonitor.Screen.RespondLookup | app/editMonitor.jsx:25-37 | a truthy match becomes the monitor and preselects its machine; a throw raises the load alert; no match changes nothing |
| EditMonitor.Screen.RespondMachines | app/editMonitor.jsx:43-57 | the machines become `SortedMachines` of the reply |
| EditMonitor.Screen.Select | app/editMonitor.jsx:143 | the selection becomes the picked machine |
| EditMonitor.Screen.Save | app/editMonitor.jsx:60-75 | a save starts exactly when not busy and a machine is selected; an empty selection alerts; a start sets `busy` and issues the reassign for the route id and the selection |
| EditMonitor.Screen.FinishSave | app/editMonitor.jsx:77-95 | the save's alert, `router.back()` exactly after an ok reply, and `busy` cleared |
| EditMonitor.Screen.Cancel | app/editMonitor.jsx:98-170 | goes back exactly when not busy, the button being disabled while busy |
| AddMonitor.MonitorFound | app/addMonitor.jsx:30-42 | `null` or a truthy monitor; `null` for every non-ok reply; a truthy result is the search's match, and a truthy match is the result |
| AddMonitor.FoundMonitorHasWantedId | app/addMonitor.jsx:36 | a found monitor's id reads as the wanted id |
| AddMonitor.IdValue | app/addMonitor.jsx:129 | the parsed id as a number, or `null` (how `JSON.stringify` writes `NaN`) when it does not parse |
| AddMonitor.AddPayload | app/addMonitor.jsx:128-132 | the payload's `id`, `mac` and `machine_name` read back as the parsed id, the MAC and the machine or `null` |
| AddMonitor.EditsFor | app/addMonitor.jsx:61 | the form edits exactly when the route parameter is a truthy string |
| AddMonitor.DecimalIdArrives | app/addMonitor.jsx:129 | a decimal id arrives as that number |
| AddMonitor.PlanSubmit | app/addMonitor.jsx:86-138 | a request is issued exactly when editing with a machine and a loaded monitor, or adding with an id and a MAC; an edit without a machine is refused with the info alert; an edit before the lookup throws on `monitor.id`; an add without id or MAC is refused; the request is the reassign or the `POST /monitors` with the payload |
| AddMonitor.SettleSubmit | app/addMonitor.jsx:103-160 | no error exactly after an ok reply; back exactly after an ok edit; the form cleared exactly after an ok add; the success alert of each; on failure the checked reply's alert and its failure as the error line of at most 300 characters |
| AddMonitor.RejectedAddReportsReason | app/addMonitor.jsx:140-157 | a rejected add reports the backend's reason as the alert and as "Error: reason" in the error line |
| AddMonitor.Screen.constructor | app/addMonitor.jsx:8-65 | mounting fetches the machines, and for a non-empty `id` parameter switches to editing and looks the monitor up |
| AddMonitor.Screen.RespondMonitor | app/addMonitor.jsx:30-72 | the monitor is `MonitorFound` of the reply, and while editing a truthy monitor prefills id, MAC and machine |
| AddMonitor.Screen.RespondMachines | app/addMonitor.jsx:46-57 | the machines become `SortedMachines` of the reply |
| AddMonitor.Screen.Edit | app/addMonitor.jsx:172-173 | the fields become what was typed and picked |
| AddMonitor.Screen.Cancel | app/addMonitor.jsx:223-226 | goes back exactly when not busy, the button being disabled while busy |
| AddMonitor.Screen.Submit | app/addMonitor.jsx:81-138 | nothing while busy; otherwise the error is cleared and `PlanSubmit`'s alert, thrown error or request follows, and only a request leaves `busy` set |
| AddMonitor.Screen.Carry | app/addMonitor.jsx:84-138 | a plan's effects past the busy guard, as in `Submit` |
| AddMonitor.Screen.FinishSubmit | app/addMonitor.jsx:103-160 | the effects of `SettleSubmit` with the values the submit started from, and `busy` cleared |
| AddDevice.BaseOf | app/addDevice.jsx:30 | the base is empty exactly when the loaded URL is, and is the URL followed by "/api/v1" otherwise |
| AddDevice.DeviceOf | app/addDevice.jsx:47-55 | the parsed body of an ok reply, `null` on every failure |
| AddDevice.IdField | app/addDevice.jsx:88 | a nullish id gives "", any other id its `String` |
| AddDevice.NumericIdPrefill | app/addDevice.jsx:88-149 | a numeric id prefills as its decimal text, zero included (which `||` would lose), and parses back as the same number |
| AddDevice.Prefill | app/addDevice.jsx:85-93 | the id field is `IdField` of the id; MAC, name, location and machine type are the strings held, or empty when falsy |
| AddDevice.AddedId | app/addDevice.jsx:149 | `parseInt(id, 10) || 0`: the parsed number, or 0 when it does not parse |
| AddDevice.EditPayload | app/addDevice.jsx:141-146 | the edit body holds the form's name, MAC, type and location and no `id` |
| AddDevice.AddPayload | app/addDevice.jsx:146-152 | the add body holds the same fields and the parsed id, or 0 |
| AddDevice.Payload | app/addDevice.jsx:142-153 | both payloads carry the form's name, MAC, type and location; the edit payload has no `id`, the add payload's `id` is the parsed id, or 0 |
| AddDevice.EditsFor | app/addDevice.jsx:75 | the form edits exactly when the route parameter is a truthy string |
| AddDevice.MachineRequest | app/addDevice.jsx:46 | a GET without a body under `base/machines/`, whose rest holds only characters encodeURIComponent can emit; an unreserved name is sent unchanged |
| AddDevice.SaveRequest | app/addDevice.jsx:155-164 | `PUT /devices/<mac>` when editing, `POST /devices` when adding, carrying the payload |
| AddDevice.PlanSubmit | app/addDevice.jsx:108-164 | refused with the info alert exactly when editing with neither MAC nor id; editing without a MAC reassigns only; otherwise the save request |
| AddDevice.StepSubmit | app/addDevice.jsx:123-213 | a follow-up reassign exactly after an ok save of an edit whose id changed to a non-empty value; no error exactly after an ok reply whose body (for the save) parses; the error line of at most 300 characters; back exactly on a successful end of an edit or of a reassign-only submit; the success alert only for the reassign-only submit |
| AddDevice.FailedSaveAlertsReason | app/addDevice.jsx:166-179 | a failed save alerts the backend's reason alone, without a prefix |
| AddDevice.Screen.constructor | app/addDevice.jsx:8-21 | mounting: empty base, not editing, an empty form and no requests |
| AddDevice.Screen.MonitorsEffect | app/addDevice.jsx:59-71 | the monitors are requested exactly when editing, the MAC is empty and the base is known |
| AddDevice.Screen.StartEditing | app/addDevice.jsx:74-81 | editing starts: `isEdit` is set, the machine is fetched and, with the MAC still empty, the monitors too |
| AddDevice.Screen.BaseLoaded | app/addDevice.jsx:23-81 | `getApiUrl()`'s value becomes the base; with a base and a non-empty `mac` parameter editing starts and the machine, then the monitors, are fetched |
| AddDevice.Screen.RespondDevice | app/addDevice.jsx:47-94 | the device is `DeviceOf` of the reply; while editing a truthy device prefills the form and `originalId`; a changed MAC reruns the monitors effect |
| AddDevice.Screen.Fill | app/addDevice.jsx:83-94 | the form and `originalId` take the prefilled fields; a changed MAC reruns the monitors effect |
| AddDevice.Screen.RespondMonitors | app/addDevice.jsx:63-70 | the available monitors become `SortedMonitors` of the reply |
| AddDevice.Screen.Edit | app/addDevice.jsx:9-15 | the form becomes what was typed; a changed MAC reruns the monitors effect |
| AddDevice.Screen.Cancel | app/addDevice.jsx:314-317 | goes back exactly when the form is editing, the only time the button is rendered, busy or not |
| AddDevice.Screen.Finally | app/addDevice.jsx:214-217 | the form is cleared and `busy` ends |
| AddDevice.Screen.Submit | app/addDevice.jsx:103-164 | nothing while busy; otherwise the error is cleared and `PlanSubmit`'s alert or first request follows, the submit keeping its own copy of the form |
| AddDevice.Screen.Carry | app/addDevice.jsx:106-164 | a plan's effects past the busy guard, as in `Submit` |
| AddDevice.Screen.Settle | app/addDevice.jsx:166-218 | the follow-up reassign of `StepSubmit` is issued, or the handler ends with its alerts, error line and navigation and `finally` clears form and `busy` |
| AddDevice.Screen.Conclude | app/addDevice.jsx:205-217 | the handler's end: its alerts, error line and navigation, then `finally` clears the form and `busy` |

## Left out

- Rendering: layouts, styles, the chart, the loading texts and the labels of the pickers.
- The other screens and components (the menu, the layout, the notification list and cards, the dropdown, the status pill), beyond the routes they are called with.
- `app.config.js` is not part of this model. The build-time values it supplies are the `BuildConfig` parameter.
- Console logging, and the debugging `console.log` of the device card's reply.
- The notification permission request and the listener subscriptions and removals (utils/NotificationContext.jsx:58-68, 92-95). What the listeners do with a notification is modelled.
- Concurrency as such: two requests in flight are modelled by calling their `Respond`/`Settle` methods in either order. The model does not enumerate interleavings.
- Floating point: `Js` numbers are integers, so `NaN`, fractions and `Number`/`Date` conversions are not computed. The device screen takes `Number(point.value)` and `new Date(point.date)` as parameters (`DeviceScreen.Conversions`).
- `DeviceScreen.Screen.RespondPower`: the chart's y domain (`chartDomain`) and the point mapping for the chart are rendering and are left out.
- `ManageDeviceCard.Card`: the Edit button's navigation to `addDevice`, which passes `device.name` as the `mac` parameter, is not modelled.
- `ApiSettings.Screen.HandleSave`: the success alert's OK button, which calls `router.back()`, is not modelled.
- `Sorting.Sort`: arrays holding `undefined` (which the engine sorts last without calling the comparator) do not arise from parsed JSON and are not modelled.
- `Submission.IdNumber`: strings, arrays and objects are taken to be `NaN`, so a numeric-string id does not sort by its number.
- `Submission.SortedMachines`: which names throw follows the engine's insertion pass, used for fewer than 64 elements. There every element after the first is the receiver of `localeCompare` at least once and the first never is. For 64 or more elements the merge phase may also make the first element a receiver. That case is not modelled.
- `EditMonitor.Screen.RespondMachines`: the same limit on which names throw applies, because the machines are `SortedMachines` of the reply.
- `AddMonitor.Screen.RespondMachines`: the same limit on which names throw applies, because the machines are `SortedMachines` of the reply.
- `DeviceOrder.SortDevices`: an `undefined` element is read as throwing like `null`. The engine would sort it last without calling the comparator, but it cannot come from parsed JSON.
- `StatusScreen.Screen.Ordered`: the sort does not throw on a single `null` device. The render's `key={d.mac}` would then throw, but rendering is not modelled (app/status.jsx:68).
- `ManageDevices.Screen.Ordered`: the same holds for the render's `key={d.mac}` (app/manageDevices.jsx:68).
- `Text.LocaleCompare`: an ordinal comparison of character codes. Locale collation is not modelled.
- `Text.EncodeUriComponent`: UTF-8 percent-encoding by code point. Lone surrogates, which make the engine throw, are not modelled.
- `Text.ParseInt`: the digit prefix after blanks and a sign. Radix prefixes and very large numbers are not modelled.
- `AddMonitor.NullMonitorFailure`: the text of the `TypeError` from reading `monitor.id` on `null` is engine-specific. One engine's wording is used.
- `AddDevice.Fields`: form fields are held as text. A field the prefill effect fills from a non-string value holds that value's `String`.
- `AddMonitor.Screen.RespondMonitor`: the id, MAC and machine fields are held as text, as for `AddDevice.Fields`. A field prefilled from a non-string `monitor.id`, `monitor.mac` or name (app/addMonitor.jsx:68-71) holds that value's `String`, where the source keeps the value itself.
- `AddDevice.Screen.Settle`: when the handler ends, the contract does not say whether clearing the form reruns the monitors effect. `AddDevice.Screen.Finally` states that.
- `DeviceScreen.TimeOption`: the option's `label` is named `title`.
- `Identity.UniqueId`: the device information (`Device.modelId`, `Device.deviceName`, `Device.osName`) and `Date.now()` are parameters.
- `MuteService.ListReply`: the server's `mutedMachines` is taken to be absent, falsy or an array of strings. A truthy value of another kind (a string, a number, an object, an array holding non-strings) is cached and returned as it arrives, and `isMachineMuted`'s `.includes` on a string would then be a substring test. The model cannot represent any of this.
- `MuteService.ListStep`: the ok reply's list is one of the string lists `ListReply` can hold, so the contract says nothing about a `mutedMachines` of any other kind (see `MuteService.ListReply`).
- `Notifications.Received`: `new Date().toISOString()` is the `now` parameter.
- `Storage`: an item written with `JSON.stringify(v)` and read back with `JSON.parse` is held as `v`. Stringify followed by parse is thereby taken to be lossless for the values the client stores.
