/** The composition root of the signage client (sm/index.tsx): the state
    shared by the control channel, the fetch and the schedule poll. Device
    and player calls and local-database writes are appended to an effect log. */
module Composition {
  import opened Types
  import Schedule

  // ---------------------------------------------------------------------
  // Device selection

  datatype DeviceKind = Tizen | Web0s | Arm | Chrome

  datatype Result<T> = Ok(value: T) | Err(message: string)

  const UnsupportedDevice: string := "Not find device in userAgent"

  /** The `type` string each device class reports. */
  function TypeName(k: DeviceKind): string
  {
    match k
    case Tizen => "tizen"
    case Web0s => "web0s"
    case Arm => "arm"
    case Chrome => "chrome"
  }

  /** The switch on `Device.getType()`: any other platform is a fatal error. */
  function SelectDevice(deviceType: string): (r: Result<DeviceKind>)
    ensures r.Ok? <==> deviceType in {"tizen", "web0s", "arm", "chrome"}
    ensures r.Ok? ==> TypeName(r.value) == deviceType
    ensures r.Err? ==> r.message == UnsupportedDevice
  {
    if deviceType == "tizen" then Ok(Tizen)
    else if deviceType == "web0s" then Ok(Web0s)
    else if deviceType == "arm" then Ok(Arm)
    else if deviceType == "chrome" then Ok(Chrome)
    else Err(UnsupportedDevice)
  }

  lemma SelectDeviceRoundTrip(k: DeviceKind)
    ensures SelectDevice(TypeName(k)) == Ok(k)
  {
  }

  // ---------------------------------------------------------------------
  // Token

  /** A token is present only as a non-empty string. */
  predicate HasToken(t: Option<string>)
  {
    t.Some? && t.value != ""
  }

  /** Startup migration of `_immortal|token` (first component) to `token`
      (second component). */
  function MigrateLegacyToken(legacy: Option<string>, stored: Option<string>): (r: (Option<string>, Option<string>))
    ensures HasToken(stored) ==> r == (legacy, stored)
    ensures !HasToken(stored) && HasToken(legacy) ==> r == (None, legacy)
    ensures !HasToken(legacy) ==> r == (legacy, stored)
    ensures HasToken(legacy) || HasToken(stored) <==> HasToken(r.1)
  {
    if HasToken(legacy) && !HasToken(stored) then (None, legacy) else (legacy, stored)
  }

  lemma MigrationIdempotent(legacy: Option<string>, stored: Option<string>)
    ensures var r := MigrateLegacyToken(legacy, stored);
      MigrateLegacyToken(r.0, r.1) == r
  {
  }

  // ---------------------------------------------------------------------
  // Effects

  datatype Effect =
    | Authorize(token: string)
    | StopVideo
    | PurgeStore
    | Rotate(angle: int)
    | Reload
    | Reboot
    | SetOverscan(config: string)
    | WifiConfig(config: string)
    | Refetch
    | ClearEverydaySchedule
    | ClearDefaultMedia
    | ClearMediaFiles
    | FileLoadComplete

  /** `player?.stopVideo()`. */
  function StopEffects(hasPlayer: bool): seq<Effect>
  {
    if hasPlayer then [StopVideo] else []
  }

  /** The calls `clearData` makes besides the token and timeslot updates. */
  function ClearDataEffects(hasPlayer: bool): seq<Effect>
  {
    [ClearEverydaySchedule, ClearDefaultMedia, ClearMediaFiles, PurgeStore] + StopEffects(hasPlayer)
  }

  // ---------------------------------------------------------------------
  // device-update

  datatype Props = Props(orientation: Field<int>, debug: Field<bool>, invertVideoRotation: Field<bool>)

  datatype DeviceInfo = DeviceInfo(name: Field<string>, locationId: Field<string>, props: Option<Props>)

  /** `deviceInfo.props || {}`. */
  function PropsOf(info: DeviceInfo): Props
  {
    if info.props.Some? then info.props.value else Props(Undefined, Undefined, Undefined)
  }

  function OrientationOf(s: Option<Settings>): Option<int>
  {
    if s.Some? then s.value.orientation else None
  }

  function DeviceNameOf(s: Option<Settings>): Option<string>
  {
    if s.Some? then s.value.deviceName else None
  }

  function InvertOf(s: Option<Settings>): Option<bool>
  {
    if s.Some? then s.value.invertVideoRotation else None
  }

  /** `const { locationId = null } = settings || {}`. */
  function LocationOf(s: Option<Settings>): Option<string>
  {
    if s.Some? then s.value.locationId else None
  }

  /** `typeof f !== 'undefined' ? f : stored`. */
  function Keep<T>(f: Field<T>, stored: Option<T>): (r: Option<T>)
  {
    match f
    case Undefined => stored
    case Null => None
    case Value(v) => Some(v)
  }

  /** The angle passed to `screen.rotate`, if any: only a number that differs
      from the stored orientation, and never on a webOS device. */
  function RotationFor(base: Option<Settings>, info: DeviceInfo, device: DeviceKind): (r: Option<int>)
    ensures r.Some? ==> PropsOf(info).orientation == Value(r.value)
    ensures r.Some? ==> OrientationOf(base) != Some(r.value) && device != Web0s
    ensures (PropsOf(info).orientation.Value? && OrientationOf(base) != Some(PropsOf(info).orientation.v)
             && device != Web0s) ==> r.Some?
  {
    var o := PropsOf(info).orientation;
    if o.Value? && OrientationOf(base) != Some(o.v) && device != Web0s then Some(o.v) else None
  }

  /** The settings written by a device-update against `base`. */
  function MergedSettings(base: Option<Settings>, info: DeviceInfo): (s: Settings)
    ensures PropsOf(info).orientation.Undefined? ==> s.orientation == OrientationOf(base)
    ensures info.name.Undefined? ==> s.deviceName == DeviceNameOf(base)
    ensures PropsOf(info).invertVideoRotation.Undefined? ==> s.invertVideoRotation == InvertOf(base)
    ensures PropsOf(info).debug.Undefined? ==> s.debug == Some(false)
    ensures PropsOf(info).orientation.Value? ==> s.orientation == Some(PropsOf(info).orientation.v)
    ensures info.name.Value? ==> s.deviceName == Some(info.name.v)
    ensures PropsOf(info).invertVideoRotation.Value? ==>
      s.invertVideoRotation == Some(PropsOf(info).invertVideoRotation.v)
    ensures PropsOf(info).debug.Value? ==> s.debug == Some(PropsOf(info).debug.v)
    ensures PropsOf(info).orientation.Null? ==> s.orientation.None?
    ensures info.name.Null? ==> s.deviceName.None?
    ensures PropsOf(info).invertVideoRotation.Null? ==> s.invertVideoRotation.None?
    ensures PropsOf(info).debug.Null? ==> s.debug.None?
    ensures s.locationId == (if info.locationId.Value? then Some(info.locationId.v) else None)
  {
    var p := PropsOf(info);
    Settings(
      orientation := Keep(p.orientation, OrientationOf(base)),
      debug := if p.debug.Undefined? then Some(false) else Keep(p.debug, None),
      deviceName := Keep(info.name, DeviceNameOf(base)),
      locationId := Keep(info.locationId, None),
      invertVideoRotation := Keep(p.invertVideoRotation, InvertOf(base)))
  }

  /** Re-applying a device-update is a no-op: the same settings, and no rotation. */
  lemma DeviceUpdateIdempotent(base: Option<Settings>, info: DeviceInfo, device: DeviceKind)
    ensures MergedSettings(Some(MergedSettings(base, info)), info) == MergedSettings(base, info)
    ensures RotationFor(Some(MergedSettings(base, info)), info, device).None?
  {
  }

  /** An orientation equal to the stored one never rotates the screen. */
  lemma SameOrientationNeverRotates(base: Option<Settings>, info: DeviceInfo, device: DeviceKind)
    requires PropsOf(info).orientation.Value? && OrientationOf(base) == Some(PropsOf(info).orientation.v)
    ensures RotationFor(base, info, device).None?
  {
  }

  /** A sequence of device-updates, each merged into the settings the previous left. */
  function DeviceUpdates(current: Option<Settings>, infos: seq<DeviceInfo>): Option<Settings>
    decreases |infos|
  {
    if infos == [] then current
    else DeviceUpdates(Some(MergedSettings(current, infos[0])), infos[1..])
  }

  lemma {:induction false} DeviceUpdatesAppend(current: Option<Settings>, xs: seq<DeviceInfo>, ys: seq<DeviceInfo>)
    ensures DeviceUpdates(current, xs + ys) == DeviceUpdates(DeviceUpdates(current, xs), ys)
    decreases |xs|
  {
    if xs == [] {
      assert xs + ys == ys;
    } else {
      assert (xs + ys)[1..] == xs[1..] + ys;
      DeviceUpdatesAppend(Some(MergedSettings(current, xs[0])), xs[1..], ys);
    }
  }

  /** Updates that leave the orientation out keep the current one. */
  lemma {:induction false} UpdatesWithoutOrientationKeepIt(current: Option<Settings>, infos: seq<DeviceInfo>)
    requires forall i :: 0 <= i < |infos| ==> PropsOf(infos[i]).orientation.Undefined?
    ensures OrientationOf(DeviceUpdates(current, infos)) == OrientationOf(current)
    decreases |infos|
  {
    if infos != [] {
      UpdatesWithoutOrientationKeepIt(Some(MergedSettings(current, infos[0])), infos[1..]);
    }
  }

  /** An orientation, once set, survives later updates that omit it. */
  lemma OrientationIsNeverReverted(current: Option<Settings>, xs: seq<DeviceInfo>, n: int, ys: seq<DeviceInfo>)
    requires forall i :: 0 <= i < |ys| ==> PropsOf(ys[i]).orientation.Undefined?
    ensures var setN := DeviceInfo(Undefined, Undefined, Some(Props(Value(n), Undefined, Undefined)));
      OrientationOf(DeviceUpdates(current, xs + [setN] + ys)) == Some(n)
  {
    var setN := DeviceInfo(Undefined, Undefined, Some(Props(Value(n), Undefined, Undefined)));
    DeviceUpdatesAppend(current, xs + [setN], ys);
    DeviceUpdatesAppend(current, xs, [setN]);
    UpdatesWithoutOrientationKeepIt(DeviceUpdates(current, xs + [setN]), ys);
  }

  /** The handlers as written: every update of a run reads `settings` from
      the closure captured when the socket effect last ran (its dependencies
      are the token and the connection), not the settings the previous
      update left. So only the last update of a run counts. */
  function StaleDeviceUpdates(snapshot: Option<Settings>, current: Option<Settings>, infos: seq<DeviceInfo>): (r: Option<Settings>)
    ensures infos == [] ==> r == current
    ensures infos != [] ==> r == Some(MergedSettings(snapshot, infos[|infos| - 1]))
    decreases |infos|
  {
    if infos == [] then current
    else StaleDeviceUpdates(snapshot, Some(MergedSettings(snapshot, infos[0])), infos[1..])
  }

  /** With the closure's settings at orientation 0, an update to 90 followed
      by one without props writes 0 back; merging into the current settings keeps 90. */
  lemma StaleSnapshotRevertsOrientation()
    ensures var s0 := Some(NoSettings.(orientation := Some(0)));
      var infos := [DeviceInfo(Undefined, Undefined, Some(Props(Value(90), Undefined, Undefined))),
                    DeviceInfo(Undefined, Undefined, None)];
      && OrientationOf(StaleDeviceUpdates(s0, s0, infos)) == Some(0)
      && OrientationOf(DeviceUpdates(s0, infos)) == Some(90)
  {
    var s0 := Some(NoSettings.(orientation := Some(0)));
    var u1 := DeviceInfo(Undefined, Undefined, Some(Props(Value(90), Undefined, Undefined)));
    var u2 := DeviceInfo(Undefined, Undefined, None);
    var infos := [u1, u2];
    assert infos[1..] == [u2] && [u2][1..] == [];
    var s1 := Some(MergedSettings(s0, u1));
    assert DeviceUpdates(s0, infos) == DeviceUpdates(Some(MergedSettings(s1, u2)), []);
    assert StaleDeviceUpdates(s0, s0, infos) == StaleDeviceUpdates(s0, Some(MergedSettings(s0, u2)), []);
  }

  /** `updateSettingsInLocalDB({ deviceName })`, taken to overwrite the given field. */
  function WithDeviceName(stored: Option<Settings>, name: string): (s: Settings)
    ensures s.deviceName == Some(name)
  {
    (if stored.Some? then stored.value else NoSettings).(deviceName := Some(name))
  }

  /** Registration keeps every stored field but the name; after `clearData`
      (no stored blob) the location, orientation and inversion are gone. */
  lemma RegistrationKeepsOtherFields(stored: Option<Settings>, name: string)
    ensures var s := WithDeviceName(stored, name);
      && s.orientation == OrientationOf(stored)
      && s.invertVideoRotation == InvertOf(stored)
      && s.locationId == LocationOf(stored)
      && (stored.Some? ==> s.debug == stored.value.debug)
      && (stored.None? ==> s.debug.None?)
  {
  }

  /** Registering the same name again writes the same blob. */
  lemma ReRegistrationIdempotent(stored: Option<Settings>, name: string)
    ensures WithDeviceName(Some(WithDeviceName(stored, name)), name) == WithDeviceName(stored, name)
  {
  }

  function IdOf(t: Option<Timeslot>): Option<string>
  {
    if t.Some? then Some(t.value.id) else None
  }

  // ---------------------------------------------------------------------
  // State

  datatype ChainState = ChainState(
    token: Option<string>,
    storedToken: Option<string>,
    legacyToken: Option<string>,
    storedSettings: Option<Settings>,
    settings: Option<Settings>,
    isStarting: bool,
    activeTimeslot: Option<Timeslot>,
    connected: bool,
    waitConnect: bool,
    effects: seq<Effect>)

  /** The `Chain` component with the storage it reads and writes. */
  class Chain {
    const device: DeviceKind
    /** Whether the device exposes a player (`player?.`). */
    const hasPlayer: bool
    var token: Option<string>
    /** `localStorage` entries `token` and `_immortal|token`. */
    var storedToken: Option<string>
    var legacyToken: Option<string>
    /** The settings blob of the local database. */
    var storedSettings: Option<Settings>
    var settings: Option<Settings>
    var isStarting: bool
    var activeTimeslot: Option<Timeslot>
    var connected: bool
    /** `window.waitConnect`. */
    var waitConnect: bool
    var effects: seq<Effect>

    ghost function State(): ChainState
      reads this
    {
      ChainState(token, storedToken, legacyToken, storedSettings, settings, isStarting,
                 activeTimeslot, connected, waitConnect, effects)
    }

    /** The token in state is always the stored one, and a timeslot is
        active only once the schedule has started. */
    ghost predicate Valid()
      reads this
    {
      && token == storedToken
      && (activeTimeslot.Some? ==> isStarting)
    }

    /** Start-up: the legacy token migration, then the token and the
        settings are read from storage. */
    constructor (device: DeviceKind, hasPlayer: bool, legacyToken: Option<string>,
                 storedToken: Option<string>, storedSettings: Option<Settings>)
      ensures Valid()
      ensures this.device == device && this.hasPlayer == hasPlayer
      ensures (this.legacyToken, this.storedToken) == MigrateLegacyToken(legacyToken, storedToken)
      ensures State() == ChainState(this.storedToken, this.storedToken, this.legacyToken, storedSettings,
                                    storedSettings, false, None, false, false, [])
    {
      this.device := device;
      this.hasPlayer := hasPlayer;
      var migrated := MigrateLegacyToken(legacyToken, storedToken);
      this.legacyToken := migrated.0;
      this.storedToken := migrated.1;
      token := migrated.1;
      this.storedSettings := storedSettings;
      settings := storedSettings;
      isStarting := false;
      activeTimeslot := None;
      connected := false;
      waitConnect := false;
      effects := [];
    }

    /** `clearData`: the database entries, the stored token and the token go,
        the active timeslot is dropped and video stops; the `settings` state
        itself is left as it was. */
    method ClearData()
      modifies this
      ensures Valid()
      ensures State() == old(State()).(token := None, storedToken := None, storedSettings := None,
                                       activeTimeslot := None, effects := old(effects) + ClearDataEffects(hasPlayer))
    {
      storedSettings := None;
      storedToken := None;
      token := None;
      effects := effects + ClearDataEffects(hasPlayer);
      activeTimeslot := None;
    }

    /** The layout effect on `isStarting`, `data` and `locationId`. */
    method Refresh(clock: Clock, cache: ScheduleCache)
      modifies this`activeTimeslot
      ensures isStarting ==> activeTimeslot == Schedule.GetContent(clock, cache, LocationOf(settings))
      ensures !isStarting ==> activeTimeslot == old(activeTimeslot)
    {
      if isStarting {
        activeTimeslot := Schedule.GetContent(clock, cache, LocationOf(settings));
      }
    }

    /** `connect`: authorise when a token is present. */
    method Connected()
      requires Valid()
      modifies this
      ensures Valid()
      ensures HasToken(old(token)) ==>
        State() == old(State()).(connected := true, waitConnect := false,
                                 effects := old(effects) + [Authorize(old(token).value)])
      ensures !HasToken(old(token)) ==> State() == old(State()).(connected := true)
    {
      connected := true;
      if HasToken(token) {
        effects := effects + [Authorize(token.value)];
        waitConnect := false;
      }
    }

    /** `disconnect`. */
    method Disconnected()
      requires Valid()
      modifies this
      ensures Valid()
      ensures State() == old(State()).(connected := false, waitConnect := true)
    {
      waitConnect := true;
      connected := false;
    }

    /** `device-registered`: the name goes into the stored settings, which
        become the `settings` state, and the token into storage and state. A
        location that differs from the state's re-resolves the timeslot
        while the schedule runs. */
    method DeviceRegistered(newToken: string, name: string, clock: Clock, cache: ScheduleCache)
      requires Valid()
      modifies this
      ensures Valid()
      ensures var s := WithDeviceName(old(storedSettings), name);
        var relocated := old(isStarting) && s.locationId != LocationOf(old(settings));
        State() == old(State()).(
          storedSettings := Some(s), settings := Some(s),
          storedToken := Some(newToken), token := Some(newToken),
          activeTimeslot := if relocated then Schedule.GetContent(clock, cache, s.locationId)
                            else old(activeTimeslot))
    {
      var s := WithDeviceName(storedSettings, name);
      var relocated := s.locationId != LocationOf(settings);
      storedSettings := Some(s);
      settings := Some(s);
      storedToken := Some(newToken);
      token := Some(newToken);
      if relocated {
        Refresh(clock, cache);
      }
    }

    method DeviceReload()
      requires Valid()
      modifies this
      ensures Valid()
      ensures State() == old(State()).(effects := old(effects) + [Reload])
    {
      effects := effects + [Reload];
    }

    method DeviceReboot()
      requires Valid()
      modifies this
      ensures Valid()
      ensures State() == old(State()).(effects := old(effects) + [Reboot])
    {
      effects := effects + [Reboot];
    }

    /** `device-removed`: ignored without a token, otherwise `clearData`. */
    method DeviceRemoved()
      requires Valid()
      modifies this
      ensures Valid()
      ensures !HasToken(old(token)) ==> State() == old(State())
      ensures HasToken(old(token)) ==>
        State() == old(State()).(token := None, storedToken := None, storedSettings := None,
                                 activeTimeslot := None, effects := old(effects) + ClearDataEffects(hasPlayer))
    {
      if HasToken(token) {
        ClearData();
      }
    }

    /** `update-schedule`: refetch, drop the active timeslot, stop video and
        wait for the next `startSchedule`. */
    method UpdateSchedule()
      requires Valid()
      modifies this
      ensures Valid()
      ensures State() == old(State()).(activeTimeslot := None, isStarting := false,
                                       effects := old(effects) + [Refetch] + StopEffects(hasPlayer))
    {
      effects := effects + [Refetch];
      activeTimeslot := None;
      effects := effects + StopEffects(hasPlayer);
      isStarting := false;
    }

    /** `overscan-settings-update`, listened to only on a Raspberry device. */
    method OverscanSettingsUpdate(config: string)
      requires Valid()
      modifies this
      ensures Valid()
      ensures device == Arm ==> State() == old(State()).(effects := old(effects) + [SetOverscan(config)])
      ensures device != Arm ==> State() == old(State())
    {
      if device == Arm {
        effects := effects + [SetOverscan(config)];
      }
    }

    /** `wifi-settings-update`, listened to only on a Raspberry device. */
    method WifiSettingsUpdate(config: string)
      requires Valid()
      modifies this
      ensures Valid()
      ensures device == Arm ==> State() == old(State()).(effects := old(effects) + [WifiConfig(config)])
      ensures device != Arm ==> State() == old(State())
    {
      if device == Arm {
        effects := effects + [WifiConfig(config)];
      }
    }

    /** `device-update`: maybe rotate, then write the merged settings; a new
        location re-resolves the timeslot while the schedule runs. */
    method DeviceUpdate(info: Option<DeviceInfo>, clock: Clock, cache: ScheduleCache)
      requires Valid()
      modifies this
      ensures Valid()
      ensures info.None? ==> State() == old(State())
      ensures info.Some? ==>
        var merged := MergedSettings(old(settings), info.value);
        var rotation := RotationFor(old(settings), info.value, device);
        var relocated := old(isStarting) && merged.locationId != LocationOf(old(settings));
        State() == old(State()).(
          storedSettings := Some(merged), settings := Some(merged),
          activeTimeslot := if relocated then Schedule.GetContent(clock, cache, merged.locationId)
                            else old(activeTimeslot),
          effects := old(effects) + (if rotation.Some? then [Rotate(rotation.value)] else []))
    {
      if info.Some? {
        var rotation := RotationFor(settings, info.value, device);
        if rotation.Some? {
          effects := effects + [Rotate(rotation.value)];
        }
        var merged := MergedSettings(settings, info.value);
        var relocated := merged.locationId != LocationOf(settings);
        storedSettings := Some(merged);
        settings := Some(merged);
        if relocated {
          Refresh(clock, cache);
        }
      }
    }

    /** `deviceProps.startSchedule`: start the schedule and resolve at once. */
    method StartSchedule(clock: Clock, cache: ScheduleCache)
      requires Valid()
      modifies this
      ensures Valid()
      ensures isStarting
      ensures old(isStarting) ==> State() == old(State())
      ensures !old(isStarting) ==>
        State() == old(State()).(isStarting := true,
                                 activeTimeslot := Schedule.GetContent(clock, cache, LocationOf(old(settings))))
    {
      if !isStarting {
        isStarting := true;
        Refresh(clock, cache);
      }
    }

    /** New schedule data arrived from the fetch. */
    method DataArrived(clock: Clock, cache: ScheduleCache)
      requires Valid()
      modifies this
      ensures Valid()
      ensures old(isStarting) ==>
        State() == old(State()).(activeTimeslot := Schedule.GetContent(clock, cache, LocationOf(old(settings))))
      ensures !old(isStarting) ==> State() == old(State())
    {
      Refresh(clock, cache);
    }

    /** The one-second poll: only while the schedule runs, and the timeslot
        is replaced only when its id changes. */
    method Poll(clock: Clock, cache: ScheduleCache)
      requires Valid()
      modifies this
      ensures Valid()
      ensures var t := Schedule.GetContent(clock, cache, LocationOf(old(settings)));
        if old(isStarting) && IdOf(t) != IdOf(old(activeTimeslot))
        then State() == old(State()).(activeTimeslot := t)
        else State() == old(State())
    {
      if isStarting {
        var t := Schedule.GetContent(clock, cache, LocationOf(settings));
        if IdOf(t) != IdOf(activeTimeslot) {
          activeTimeslot := t;
        }
      }
    }

    /** The fetch failed: a 403 clears all data; no response at all marks the
        download complete and starts the local schedule. `response` is the
        HTTP status, `None` when there was no response. */
    method FetchError(response: Option<int>, clock: Clock, cache: ScheduleCache)
      requires Valid()
      modifies this
      ensures Valid()
      ensures response == Some(403) ==>
        State() == old(State()).(token := None, storedToken := None, storedSettings := None,
                                 activeTimeslot := None, effects := old(effects) + ClearDataEffects(hasPlayer))
      ensures response.None? ==>
        isStarting && effects == old(effects) + [FileLoadComplete]
        && State() == old(State()).(
             isStarting := true,
             activeTimeslot := if old(isStarting) then old(activeTimeslot)
                               else Schedule.GetContent(clock, cache, LocationOf(old(settings))),
             effects := old(effects) + [FileLoadComplete])
      ensures response.Some? && response != Some(403) ==> State() == old(State())
    {
      if response == Some(403) {
        ClearData();
      }
      if response.None? {
        effects := effects + [FileLoadComplete];
        StartSchedule(clock, cache);
      }
    }
  }
}
