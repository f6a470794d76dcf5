/** Entities shared by the schedule resolver, the timeslot player and the
    composition root of the signage client (src/types/main). */
module Types {

  datatype Option<T> = None | Some(value: T)

  /** A property of an inbound JSON message: left out, explicitly null, or set. */
  datatype Field<T> = Undefined | Null | Value(v: T)

  /** The local weekday of the device, the keys of the weekday schedule. */
  datatype DayName = Monday | Tuesday | Wednesday | Thursday | Friday | Saturday | Sunday

  /** The `type` of a timeslot; `Unrecognised` stands for any other string. */
  datatype PeriodType = Events | Date | Weekday | Day | Unrecognised

  type Hour = h: int | 0 <= h < 24
  type Minute = m: int | 0 <= m < 60
  type SecondOfDay = s: int | 0 <= s < 86400

  /** Hour and minute of a timeslot bound, read in the device's local zone. */
  datatype TimeOfDay = TimeOfDay(hour: Hour, minute: Minute)

  /** The current local time: today's weekday and the second of the day. */
  datatype Clock = Clock(weekday: DayName, second: SecondOfDay)

  datatype MediaItem = MediaItem(id: string, mediaType: string)
  datatype Playlist = Playlist(id: string)
  datatype Template = Template(id: string)

  /** One playable unit of a timeslot; `duration` is in seconds. */
  datatype TimeslotItem = TimeslotItem(
    id: string,
    sequence: int,
    duration: Option<int>,
    mediaItem: Option<MediaItem>,
    playlist: Option<Playlist>,
    template: Option<Template>)

  datatype Timeslot = Timeslot(
    id: string,
    periodType: PeriodType,
    start: TimeOfDay,
    end: TimeOfDay,
    items: Option<seq<TimeslotItem>>)

  /** The three schedules as the local database holds them; a missing
      weekday or everyday schedule is `None`. */
  datatype ScheduleCache = ScheduleCache(
    weekday: Option<map<DayName, seq<Timeslot>>>,
    everyday: Option<seq<Timeslot>>,
    events: seq<Timeslot>)

  /** Device settings; `None` is a property that is null or undefined. */
  datatype Settings = Settings(
    orientation: Option<int>,
    debug: Option<bool>,
    deviceName: Option<string>,
    locationId: Option<string>,
    invertVideoRotation: Option<bool>)

  /** The settings blob of a device whose database holds none. */
  const NoSettings := Settings(None, None, None, None, None)
}
