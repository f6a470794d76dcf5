# Signage client: content scheduling and playback engine

A Dafny model of the part of the signage client (`sm/`) that decides what
a display shows:

- **Schedule resolver** (`Schedule`, from `sm/schedule-play.ts`). The
  `getContent` logic is a pure function of the clock, the three cached
  schedules and the device's location. It collects today's weekday
  timeslots, then the everyday ones, then the events. It keeps those whose
  window contains the current time. It then picks by the priority
  EVENTS > DATE > WEEKDAY > DAY, taking the first match in list order
  within a tier. Events need a location.
- **Timeslot player** (`Playback`, from `sm/timeslot.tsx`). Pure functions
  give the item order (a stable sort on `sequence`), the timer delay and
  the content choice. The class `TimeslotPlayer` holds the ordered list,
  the active item and the one pending timer. It has one method per outside
  event: new data, timer expiry, and the renderer's end-of-playback signal.
- **Composition root** (`Composition`, from `sm/index.tsx`). The class
  `Chain` holds the token, the settings, `isStarting`, the active
  timeslot, the connection flag, `waitConnect` and the stored token and
  settings. It has one method per control-channel event, plus the poll,
  the fetch-error handling and `startSchedule`. The token and settings
  writes are the fields `storedToken` and `storedSettings`. Device calls,
  player calls and the clearing of the cached schedule and media are
  appended to `effects`, a log of `Effect` values.
- `Types` holds the shared entities: timeslots, items, settings and the
  clock.

Modelling choices:

- **Time.** The resolver works on the second of the local day. The source
  projects each bound onto today by copying its hour and minute into a
  clone of the current time, with the seconds set to 0. The clone keeps the
  current milliseconds, so the milliseconds cancel out of the comparison
  but the seconds do not: a timeslot starting at 10:00 is already active at
  10:00:01.
- **Exclusive bounds.** `isBetween` excludes both bounds. So a timeslot is
  not active at its exact start, and a window whose end is not after its
  start is never active. This holds even for a window that crosses
  midnight. A half-open `[start, end)` window, which one might expect,
  is not what the code does; the model follows the code. The time wrapper
  `src/utils/time` is not part of this model; it is taken to be moment,
  as the `.clone()` before the chained setters suggests, whose `isBetween`
  with the bounds out of order matches nothing. Dayjs's plugin would
  accept reversed bounds and make a window crossing midnight active
  outside itself.
- **`getNextItem`.** It lives in a module that is not part of this model.
  `Playback.NextItem` takes it to be the cyclic successor of the item's
  first occurrence in the ordered list. It is only ever called for an item
  of that list.
- **Re-renders.** Setting the active item to the item already active does
  not re-render the component. So when a single-item list's timer expires,
  the timer is spent and is not armed again (`TimeslotPlayer.MoveTo`).
- **Events settle at once.** Each method takes one outside event and runs
  the effects React would run until nothing changes any more, within the
  part of the component modelled here (the fetch-error effect's re-runs on
  a token change are not: see "Left out"). For example,
  new data clears the old timer, makes the first item active and arms that
  item's timer.
- **`clearData`.** It empties the local-database settings, the stored
  token and the token state, and it drops the active timeslot. It leaves
  the React `settings` state untouched and does not clear the weekday or
  events schedules, so de-registration is not a full reset; the model
  follows the code.
- **Settings writes.** `updateSettingsInLocalDB` is not part of this
  model. It is taken to overwrite the fields it is given. A
  `device-registered` event therefore merges the name into the
  *database's* settings, not the state's.
- **Device capabilities.** The device always has a store: the fetch-error
  handler uses `device.store` without a guard. The player is optional
  (`hasPlayer`), as `player?.stopVideo()` allows.
- **Startup.** The constructor of `Chain` runs the `_immortal|token`
  migration, then reads the token and the settings from storage.
- **Outside inputs.** The clock, the schedule caches, the device type and
  the HTTP status of a failed fetch are parameters.

## Model

| member | source | states |
|---|---|---|
| `Schedule.GetContent` | sm/schedule-play.ts:16-51 | a returned timeslot is one of today's candidates, is active now and has a type eligible for the location |
| `Schedule.CandidatesFromSources` | sm/schedule-play.ts:18-25 | candidates are weekday-for-today, then everyday, then events; a missing weekday schedule, a missing entry for today or a missing everyday schedule contributes nothing |
| `Schedule.SecondsOfMonotone` | sm/schedule-play.ts:26-33 | comparing projected bounds in seconds is the same as comparing them by hour, then minute |
| `Schedule.EmptyWindowNeverActive` | sm/schedule-play.ts:26-34 | a timeslot whose end is not after its start (empty window or one crossing midnight) is never active |
| `Schedule.ActiveCandidates` | sm/schedule-play.ts:25-35 | the filter keeps exactly the candidates strictly inside their window now |
| `Schedule.IndexOfType` | sm/schedule-play.ts:45 | the index found is that of the first timeslot of the type, or the length when there is none |
| `Schedule.Find` | sm/schedule-play.ts:45 | `find` returns a member of the list of the type asked for, and nothing exactly when no member has that type |
| `Schedule.ReduceByTier` | sm/schedule-play.ts:38-46 | the reduce over the priority order returns the first tier's match: events (only with a location), else date, else weekday, else day |
| `Schedule.SelectSound` | sm/schedule-play.ts:38-48 | the selected timeslot is one of the active ones and has an eligible type |
| `Schedule.SelectNoneIff` | sm/schedule-play.ts:38-48 | nothing is selected if and only if no active timeslot has an eligible type |
| `Schedule.SelectHighestPriority` | sm/schedule-play.ts:38-46 | the selected type ranks at least as high as that of every eligible active timeslot |
| `Schedule.SelectFirstOfTier` | sm/schedule-play.ts:38-46 | the selected timeslot is the first active one of its type |
| `Schedule.SelectTypeIgnoresOrder` | sm/schedule-play.ts:38-46 | reordering the active timeslots changes neither whether something is selected nor the winning type |
| `Schedule.FindActive` | sm/schedule-play.ts:25-45 | the first match in the filtered list is the first active timeslot of that type in the unfiltered candidate list |
| `Schedule.NothingActiveGivesNull` | sm/schedule-play.ts:37-50 | no timeslot covering now gives no timeslot |
| `Schedule.GetContentNoneIff` | sm/schedule-play.ts:37-50 | the resolver returns nothing if and only if no active candidate has an eligible type, e.g. only events without a location |
| `Schedule.EventsNeedLocation` | sm/schedule-play.ts:39-41 | without a non-empty location an events timeslot is never returned |
| `Schedule.GetContentPriority` | sm/schedule-play.ts:10-46 | the result has the best-ranked type of all eligible active candidates and is the first active candidate of that type in candidate order |
| `Schedule.EventsBeatWeekday` | sm/schedule-play.ts:38-46 | with a location, an active events timeslot makes the result an events timeslot |
| `Schedule.ActiveDayAlwaysPlays` | sm/schedule-play.ts:38-46 | an active day timeslot means something is returned, with or without a location |
| `Playback.Insert` | sm/timeslot.tsx:28 | inserting into a sorted list keeps it sorted and adds exactly that item |
| `Playback.SortBySequence` | sm/timeslot.tsx:28 | the ordered list is sorted by `sequence` and is a permutation of the items |
| `Playback.ListMedia` | sm/timeslot.tsx:26-28 | `listMedia` is a sorted permutation of the timeslot's items, empty for null data or null items |
| `Playback.InsertStable` | sm/timeslot.tsx:28 | insertion puts the new item ahead of the items with the same sequence |
| `Playback.SortIsStable` | sm/timeslot.tsx:28 | for each sequence value, the items with that value keep their original relative order |
| `Playback.TimerDelay` | sm/timeslot.tsx:67 | the delay is at least 3000 ms, 60000 ms for a missing or zero duration, `duration*1000` when that is at least 3000, and 3000 for any other non-zero duration |
| `Playback.IndexOf` | sm/timeslot.tsx:32 | the position found holds the item and no earlier position does |
| `Playback.NextItem` | sm/timeslot.tsx:31-33 | the successor is an item of the list, and a single-item list loops to the same item |
| `Playback.NextItemCycles` | sm/timeslot.tsx:31-33 | in a list without repeats the successor of the i-th item is the next one, wrapping to the first |
| `Playback.NextItemMoves` | sm/timeslot.tsx:31-33 | with two or more distinct items, advancing always changes the active item |
| `Playback.SelectContent` | sm/timeslot.tsx:35-49 | template first, then playlist, then media item (with `loopVideo` equal to `isLoop`), nothing otherwise |
| `Playback.WellFormedItemAdvances` | sm/timeslot.tsx:35-63 | an item with exactly one payload always has a way on: a timer, or a renderer holding `onPlaybackEnd` |
| `Playback.TimeslotPlayer.IdleWhenEmpty` | sm/timeslot.tsx:53-55 | with an empty list there is no active item, no timer and nothing rendered |
| `Playback.TimeslotPlayer.constructor` | sm/timeslot.tsx:52-74 | on mount the first ordered item becomes active and its timer, if any, is armed |
| `Playback.TimeslotPlayer.SetData` | sm/timeslot.tsx:72-74 | new data re-derives the list, drops the old timer, makes the first item active and arms only that item's timer |
| `Playback.TimeslotPlayer.Arm` | sm/timeslot.tsx:61-67 | no timer for a video or a playlist; otherwise one timer with the clamped delay |
| `Playback.TimeslotPlayer.MoveTo` | sm/timeslot.tsx:65-69 | a change of item replaces the pending timer by the new item's; re-setting the same item changes nothing |
| `Playback.TimeslotPlayer.TimerFired` | sm/timeslot.tsx:65-67 | an expiring timer advances to the successor of the item it was armed for; without a pending timer nothing happens |
| `Playback.TimeslotPlayer.PlaybackEnded` | sm/timeslot.tsx:31-33 | the end-of-playback signal of a playlist or media renderer advances to the successor; nothing else reacts to it |
| `Composition.SelectDevice` | sm/index.tsx:350-364 | the four platform names select their device; anything else is the fatal "Not find device in userAgent" |
| `Composition.SelectDeviceRoundTrip` | sm/index.tsx:350-364 | every device is selected by its own type name |
| `Composition.MigrateLegacyToken` | sm/index.tsx:90-95 | a legacy token moves to `token` only when that is absent or empty; an existing token is never overwritten; a token present before is present after |
| `Composition.MigrationIdempotent` | sm/index.tsx:90-95 | running the migration twice is the same as once |
| `Composition.RotationFor` | sm/index.tsx:292-298 | `rotate` is called if and only if the orientation is a number, differs from the stored one and the device is not webOS, and with that number |
| `Composition.MergedSettings` | sm/index.tsx:299-310 | undefined orientation, name and inversion keep the stored value, undefined debug becomes false, a value is taken as given, an explicit null clears each field, and the location is taken from the update alone (absent when it is undefined) |
| `Composition.DeviceUpdateIdempotent` | sm/index.tsx:286-311 | for the corrected merge (each update merged into the settings the previous one left): applying the same device-update twice writes the same settings and the second never rotates |
| `Composition.SameOrientationNeverRotates` | sm/index.tsx:292-298 | an orientation equal to the stored one never rotates the screen |
| `Composition.DeviceUpdatesAppend` | sm/index.tsx:286-311 | a run of device-updates is the composition of its parts |
| `Composition.UpdatesWithoutOrientationKeepIt` | sm/index.tsx:299-310 | updates that omit the orientation keep the current orientation |
| `Composition.OrientationIsNeverReverted` | sm/index.tsx:299-310 | once set, an orientation survives any later updates that omit it |
| `Composition.StaleDeviceUpdates` | sm/index.tsx:294-314 | as written, a run of updates merged against the captured settings leaves only the last update merged into that capture; an empty run changes nothing |
| `Composition.StaleSnapshotRevertsOrientation` | sm/index.tsx:294-310 | as written, an update without orientation writes back the orientation of the captured settings |
| `Composition.WithDeviceName` | sm/index.tsx:254 | the written blob carries the registered name |
| `Composition.RegistrationKeepsOtherFields` | sm/index.tsx:254 | orientation, inversion, location and debug of the stored blob survive registration; with no stored blob (after `clearData`) they are all absent |
| `Composition.ReRegistrationIdempotent` | sm/index.tsx:254 | registering the same name twice writes the same blob as once |
| `Composition.Chain.constructor` | sm/index.tsx:205-211 | start-up migrates the legacy token, then token and settings come from storage; not started, no timeslot |
| `Composition.Chain.ClearData` | sm/index.tsx:139-152 | token, stored token and database settings cleared, active timeslot null, schedule/media cleared, store purged, video stopped; settings state unchanged |
| `Composition.Chain.Refresh` | sm/index.tsx:333-339 | while started, the active timeslot is set to the resolver's result without comparing ids |
| `Composition.Chain.Connected` | sm/index.tsx:217-231 | with a token the device authorises and `waitConnect` is reset; without one only the connection flag changes |
| `Composition.Chain.Disconnected` | sm/index.tsx:233-239 | `waitConnect` becomes true and the connection is dropped |
| `Composition.Chain.DeviceRegistered` | sm/index.tsx:253-258 | the token is stored and set; the stored blob with the new name becomes both the database and the state settings; when its location differs from the state's while started, the layout effect (sm/index.tsx lines 333-339) re-resolves the timeslot for the new location |
| `Composition.Chain.DeviceReload` | sm/index.tsx:259-261 | only a reload call is issued |
| `Composition.Chain.DeviceReboot` | sm/index.tsx:262-264 | only a reboot call is issued |
| `Composition.Chain.DeviceRemoved` | sm/index.tsx:265-270 | without a token nothing changes; with one all of `clearData` happens |
| `Composition.Chain.UpdateSchedule` | sm/index.tsx:271-277 | refetch issued, active timeslot null, video stopped, `isStarting` false |
| `Composition.Chain.OverscanSettingsUpdate` | sm/index.tsx:278-281 | forwarded to the device on a Raspberry device only |
| `Composition.Chain.WifiSettingsUpdate` | sm/index.tsx:282-285 | forwarded to the device on a Raspberry device only |
| `Composition.Chain.DeviceUpdate` | sm/index.tsx:286-312 | a null payload changes nothing; otherwise the rotation rule, the merged settings in state and database, and re-resolution when the location changes while started |
| `Composition.Chain.StartSchedule` | sm/index.tsx:344-347 | `isStarting` becomes true and, if it was false, the timeslot is resolved at once |
| `Composition.Chain.DataArrived` | sm/index.tsx:333-339 | new data re-resolves the timeslot only while started |
| `Composition.Chain.Poll` | sm/index.tsx:316-331 | the poll does nothing unless started and replaces the timeslot only when the resolved id differs |
| `Composition.Chain.FetchError` | sm/index.tsx:175-203 | HTTP 403 clears all data; no response marks the download complete and starts the schedule; any other status changes nothing |

## Findings

| source | as written | input that shows it | evidently intended | confidence | as-written member | corrected member |
|---|---|---|---|---|---|---|
| sm/index.tsx:294-314 | the `device-update` handler reads `settings` from the closure of the socket effect, which re-runs only when the token or the connection changes, so every update compares and merges against the settings of that moment | captured orientation 0; update `{props: {orientation: 90}}`, then update `{}`: the second writes orientation 0 back, and the next render rotates the screen to 0 | merge into the settings the previous update left, so that 90 is kept | medium, not executed | `Composition.StaleSnapshotRevertsOrientation` | `Composition.OrientationIsNeverReverted` |

`Composition.Chain.DeviceUpdate` merges into the current settings, as the
corrected definition does.

## Left out

- Rendering, JSX, the context providers and the screen-ratio setup; also the render-time `screen.rotate(settings?.orientation || 0)` on every render.
- The socket.io transport: reconnection, the error-logging handlers, and the extra sockets and duplicate listeners that each re-run of the socket effect creates.
- The HTTP fetch and the URL construction. A refetch is recorded as an effect, and the arrival of data is the method `DataArrived`.
- The error reporting (Sentry) and the fatal-error boundary. The download progress update and the `file-load` event are one `FileLoadComplete` effect.
- Time-zone and calendar arithmetic (`tz.guess`, `.local()`, `isoWeekday`, `isoWeek`). The weekday and the second of the day are inputs. Daylight-saving jumps are not modelled.
- Real timers and `setInterval`. A timer is a stored delay that fires when `TimerFired` is called. The poll runs when `Poll` is called.
- The asynchrony of `getContent`: its result is applied at once, with no other event in between.
- The events schedule is taken as a sequence. A null events cache would make the spread at sm/schedule-play.ts:25 throw; the local-database functions are not part of this model.
- Value equality stands for object identity: two items equal in every field are the same item to `NextItem`.
- Orientation values that are neither numbers nor null nor undefined, and fractional durations.
- `Playback.NextItem`: states the assumed cyclic successor; the real `getNextItem` is not part of this model.
- `Composition.Chain.DeviceUpdate`: reads the current settings, not the stale closure of the source; the stale behaviour is the finding above.
- `Composition.Chain.ClearData`: `store.purge` and `stopVideo` are recorded as effects; what the device classes do with them is not part of this model.
- `Composition.Chain.FetchError`: the fetch-error effect also depends on `token` (sm/index.tsx:203), so it re-runs on every token change while the fetch status is still an error; after a 403 `clearData` would run again, and a later `device-registered` could have its new token cleared. Whether the status is still an error then depends on `useFetch`, which is not part of this model, so the re-runs are not modelled.
- `Playback.TimerDelay`: the delay `duration*1000` is unbounded; a `setTimeout` delay above 2147483647 ms fires at once in browsers, and that clamp is not modelled.
- `Composition.DeviceUpdateIdempotent`: states the corrected merge; as written both updates compare against the captured settings, so the same orientation sent twice rotates the screen twice (the finding above).
