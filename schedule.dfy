/** The schedule resolver (sm/schedule-play.ts): which timeslot plays now. */
module Schedule {
  import opened Types

  /** Tiers tried in turn; the first tier with an active timeslot wins. */
  const PriorityOrder: seq<PeriodType> := [Events, Date, Weekday, Day]

  /** Position of a type in the priority order; `Unrecognised` is never picked. */
  function Rank(t: PeriodType): nat
  {
    match t
    case Events => 0
    case Date => 1
    case Weekday => 2
    case Day => 3
    case Unrecognised => 4
  }

  /** `!locationId` is false only for a non-empty string. */
  predicate HasLocation(locationId: Option<string>)
  {
    locationId.Some? && locationId.value != ""
  }

  /** The types the resolver may return for this location. */
  predicate Eligible(t: PeriodType, locationId: Option<string>)
  {
    match t
    case Events => HasLocation(locationId)
    case Date => true
    case Weekday => true
    case Day => true
    case Unrecognised => false
  }

  // ---------------------------------------------------------------------
  // Candidates

  /** Today's entry of the weekday schedule; a missing schedule or entry is empty. */
  function DayTimeslots(weekday: Option<map<DayName, seq<Timeslot>>>, today: DayName): seq<Timeslot>
  {
    match weekday
    case None => []
    case Some(m) => if today in m then m[today] else []
  }

  function EverydayTimeslots(everyday: Option<seq<Timeslot>>): seq<Timeslot>
  {
    match everyday
    case None => []
    case Some(s) => s
  }

  /** Today's weekday timeslots, then the everyday ones, then the events. */
  function Candidates(cache: ScheduleCache, today: DayName): seq<Timeslot>
  {
    DayTimeslots(cache.weekday, today) + EverydayTimeslots(cache.everyday) + cache.events
  }

  lemma CandidatesFromSources(cache: ScheduleCache, today: DayName)
    ensures cache.weekday.None? ==>
      Candidates(cache, today) == EverydayTimeslots(cache.everyday) + cache.events
    ensures cache.weekday.Some? && today !in cache.weekday.value ==>
      Candidates(cache, today) == EverydayTimeslots(cache.everyday) + cache.events
    ensures cache.everyday.None? ==>
      Candidates(cache, today) == DayTimeslots(cache.weekday, today) + cache.events
    ensures cache.weekday.Some? && today in cache.weekday.value && cache.everyday.Some? ==>
      Candidates(cache, today) == cache.weekday.value[today] + cache.everyday.value + cache.events
  {
  }

  // ---------------------------------------------------------------------
  // Time window

  /** A bound projected onto today, in seconds; the milliseconds of the
      current time are carried by both the bound and `now`, so they cancel. */
  function SecondsOf(t: TimeOfDay): nat
  {
    t.hour * 3600 + t.minute * 60
  }

  /** `isBetween` with exclusive bounds. */
  predicate ActiveAt(slot: Timeslot, now: SecondOfDay)
  {
    SecondsOf(slot.start) < now < SecondsOf(slot.end)
  }

  /** Wall-clock order of two bounds. */
  predicate Before(a: TimeOfDay, b: TimeOfDay)
  {
    a.hour < b.hour || (a.hour == b.hour && a.minute < b.minute)
  }

  lemma SecondsOfMonotone(a: TimeOfDay, b: TimeOfDay)
    ensures SecondsOf(a) < SecondsOf(b) <==> Before(a, b)
  {
    if a.hour < b.hour {
      calc {
        SecondsOf(a);
      <= a.hour * 3600 + 59 * 60;
      <  (a.hour + 1) * 3600;
      <= b.hour * 3600;
      <= SecondsOf(b);
      }
    } else if a.hour == b.hour {
    } else {
      calc {
        SecondsOf(b);
      <= b.hour * 3600 + 59 * 60;
      <  (b.hour + 1) * 3600;
      <= a.hour * 3600;
      <= SecondsOf(a);
      }
    }
  }

  /** A timeslot whose end is not after its start (an empty window, or one
      that crosses midnight) is never active. */
  lemma EmptyWindowNeverActive(slot: Timeslot, now: SecondOfDay)
    requires !Before(slot.start, slot.end)
    ensures !ActiveAt(slot, now)
  {
    SecondsOfMonotone(slot.start, slot.end);
  }

  /** The candidates that are active now, in their original order. */
  function ActiveCandidates(slots: seq<Timeslot>, now: SecondOfDay): (r: seq<Timeslot>)
    ensures forall t :: t in r <==> t in slots && ActiveAt(t, now)
    ensures |r| <= |slots|
  {
    if slots == [] then []
    else if ActiveAt(slots[0], now) then [slots[0]] + ActiveCandidates(slots[1..], now)
    else ActiveCandidates(slots[1..], now)
  }

  // ---------------------------------------------------------------------
  // Priority selection

  /** Index of the first timeslot of type `t`, or `|s|` when there is none. */
  function IndexOfType(s: seq<Timeslot>, t: PeriodType): (i: nat)
    ensures i <= |s|
    ensures forall j :: 0 <= j < i ==> s[j].periodType != t
    ensures i < |s| ==> s[i].periodType == t
  {
    if s == [] then 0
    else if s[0].periodType == t then 0
    else 1 + IndexOfType(s[1..], t)
  }

  /** `Array.prototype.find` on the type. */
  function Find(s: seq<Timeslot>, t: PeriodType): (r: Option<Timeslot>)
    ensures r.Some? ==> r.value in s && r.value.periodType == t
    ensures r.None? <==> forall u :: u in s ==> u.periodType != t
  {
    var i := IndexOfType(s, t);
    if i < |s| then Some(s[i]) else None
  }

  /** One step of the `reduce` over the priority order. */
  function Step(result: Option<Timeslot>, periodType: PeriodType, content: seq<Timeslot>,
                locationId: Option<string>): Option<Timeslot>
  {
    if !HasLocation(locationId) && periodType == Events then result
    else if result.Some? then result
    else Find(content, periodType)
  }

  function Reduce(order: seq<PeriodType>, result: Option<Timeslot>, content: seq<Timeslot>,
                  locationId: Option<string>): Option<Timeslot>
    decreases |order|
  {
    if order == [] then result
    else Reduce(order[1..], Step(result, order[0], content, locationId), content, locationId)
  }

  /** The selection applied to the filtered candidates `content`. */
  function Select(content: seq<Timeslot>, locationId: Option<string>): Option<Timeslot>
  {
    if |content| > 0 then Reduce(PriorityOrder, None, content, locationId) else None
  }

  /** The resolver: `getContent` with the cached schedules and the clock as inputs. */
  function GetContent(clock: Clock, cache: ScheduleCache, locationId: Option<string>): (r: Option<Timeslot>)
    ensures r.Some? ==> r.value in Candidates(cache, clock.weekday)
    ensures r.Some? ==> ActiveAt(r.value, clock.second)
    ensures r.Some? ==> Eligible(r.value.periodType, locationId)
  {
    var content := ActiveCandidates(Candidates(cache, clock.weekday), clock.second);
    SelectSound(content, locationId);
    Select(content, locationId)
  }

  /** The reduce tries the four tiers in turn. */
  lemma ReduceByTier(content: seq<Timeslot>, locationId: Option<string>)
    ensures Reduce(PriorityOrder, None, content, locationId) ==
      var e := if HasLocation(locationId) then Find(content, Events) else None;
      if e.Some? then e
      else if Find(content, Date).Some? then Find(content, Date)
      else if Find(content, Weekday).Some? then Find(content, Weekday)
      else Find(content, Day)
  {
    var a0 := Step(None, Events, content, locationId);
    var a1 := Step(a0, Date, content, locationId);
    var a2 := Step(a1, Weekday, content, locationId);
    var a3 := Step(a2, Day, content, locationId);
    assert PriorityOrder[1..] == [Date, Weekday, Day];
    assert PriorityOrder[1..][1..] == [Weekday, Day];
    assert PriorityOrder[1..][1..][1..] == [Day];
    assert PriorityOrder[1..][1..][1..][1..] == [];
    calc {
      Reduce(PriorityOrder, None, content, locationId);
      Reduce([Date, Weekday, Day], a0, content, locationId);
      Reduce([Weekday, Day], a1, content, locationId);
      Reduce([Day], a2, content, locationId);
      Reduce([], a3, content, locationId);
    }
  }

  lemma SelectSound(content: seq<Timeslot>, locationId: Option<string>)
    ensures Select(content, locationId).Some? ==> Select(content, locationId).value in content
    ensures Select(content, locationId).Some? ==> Eligible(Select(content, locationId).value.periodType, locationId)
  {
    if |content| > 0 {
      ReduceByTier(content, locationId);
    }
  }

  /** Nothing is selected exactly when no timeslot of an eligible type is active. */
  lemma SelectNoneIff(content: seq<Timeslot>, locationId: Option<string>)
    ensures Select(content, locationId).None? <==>
      forall t :: t in content ==> !Eligible(t.periodType, locationId)
  {
    if |content| > 0 {
      ReduceByTier(content, locationId);
      var r := Select(content, locationId);
      if r.None? {
        forall t | t in content ensures !Eligible(t.periodType, locationId) {
          assert t.periodType != Date && t.periodType != Weekday && t.periodType != Day;
        }
      }
    }
  }

  /** The selected timeslot has the best rank among the eligible active ones. */
  lemma SelectHighestPriority(content: seq<Timeslot>, locationId: Option<string>, u: Timeslot)
    requires Select(content, locationId).Some?
    requires u in content && Eligible(u.periodType, locationId)
    ensures Rank(Select(content, locationId).value.periodType) <= Rank(u.periodType)
  {
    ReduceByTier(content, locationId);
  }

  /** Within its tier, the selected timeslot is the first in list order. */
  lemma SelectFirstOfTier(content: seq<Timeslot>, locationId: Option<string>) returns (i: nat)
    requires Select(content, locationId).Some?
    ensures i < |content| && content[i] == Select(content, locationId).value
    ensures forall j :: 0 <= j < i ==> content[j].periodType != content[i].periodType
  {
    ReduceByTier(content, locationId);
    var t := Select(content, locationId).value.periodType;
    i := IndexOfType(content, t);
  }

  /** The winning type depends only on which timeslots are active, not on their order. */
  lemma SelectTypeIgnoresOrder(s1: seq<Timeslot>, s2: seq<Timeslot>, locationId: Option<string>)
    requires forall t :: t in s1 <==> t in s2
    ensures Select(s1, locationId).None? <==> Select(s2, locationId).None?
    ensures Select(s1, locationId).Some? ==>
      Select(s1, locationId).value.periodType == Select(s2, locationId).value.periodType
  {
    SelectNoneIff(s1, locationId);
    SelectNoneIff(s2, locationId);
    var r1, r2 := Select(s1, locationId), Select(s2, locationId);
    if r1.Some? && r2.Some? {
      SelectSound(s1, locationId);
      SelectSound(s2, locationId);
      SelectHighestPriority(s1, locationId, r2.value);
      SelectHighestPriority(s2, locationId, r1.value);
    }
  }

  // ---------------------------------------------------------------------
  // Properties of the resolver

  /** The first active timeslot of type `t` among `slots`, located in `slots` itself. */
  lemma {:induction false} FindActive(slots: seq<Timeslot>, now: SecondOfDay, t: PeriodType) returns (i: nat)
    requires Find(ActiveCandidates(slots, now), t).Some?
    ensures i < |slots| && slots[i] == Find(ActiveCandidates(slots, now), t).value
    ensures ActiveAt(slots[i], now) && slots[i].periodType == t
    ensures forall j :: 0 <= j < i ==> !(ActiveAt(slots[j], now) && slots[j].periodType == t)
  {
    var rest := ActiveCandidates(slots[1..], now);
    if ActiveAt(slots[0], now) && slots[0].periodType == t {
      assert ActiveCandidates(slots, now) == [slots[0]] + rest;
      i := 0;
    } else {
      assert ActiveAt(slots[0], now) ==> ActiveCandidates(slots, now) == [slots[0]] + rest;
      assert !ActiveAt(slots[0], now) ==> ActiveCandidates(slots, now) == rest;
      assert Find(ActiveCandidates(slots, now), t) == Find(rest, t) by {
        if ActiveAt(slots[0], now) {
          assert ([slots[0]] + rest)[1..] == rest;
        }
      }
      var k := FindActive(slots[1..], now, t);
      i := k + 1;
    }
  }

  /** Nothing plays when no timeslot covers the current time. */
  lemma NothingActiveGivesNull(clock: Clock, cache: ScheduleCache, locationId: Option<string>)
    requires forall t :: t in Candidates(cache, clock.weekday) ==> !ActiveAt(t, clock.second)
    ensures GetContent(clock, cache, locationId).None?
  {
  }

  /** `None` exactly when no eligible timeslot is active; in particular only
      events timeslots without a location give `None` although candidates exist. */
  lemma GetContentNoneIff(clock: Clock, cache: ScheduleCache, locationId: Option<string>)
    ensures GetContent(clock, cache, locationId).None? <==>
      forall t :: t in Candidates(cache, clock.weekday) && ActiveAt(t, clock.second) ==>
        !Eligible(t.periodType, locationId)
  {
    var content := ActiveCandidates(Candidates(cache, clock.weekday), clock.second);
    SelectNoneIff(content, locationId);
  }

  /** An events timeslot is never returned without a location. */
  lemma EventsNeedLocation(clock: Clock, cache: ScheduleCache, locationId: Option<string>)
    requires !HasLocation(locationId)
    ensures GetContent(clock, cache, locationId).None? ||
            GetContent(clock, cache, locationId).value.periodType != Events
  {
  }

  /** The returned timeslot has the highest-priority type of all active
      eligible candidates, and is the first active one of that type in the
      candidate order. */
  lemma GetContentPriority(clock: Clock, cache: ScheduleCache, locationId: Option<string>) returns (i: nat)
    requires GetContent(clock, cache, locationId).Some?
    ensures var slots := Candidates(cache, clock.weekday);
      var r := GetContent(clock, cache, locationId).value;
      && i < |slots| && slots[i] == r
      && (forall u :: u in slots && ActiveAt(u, clock.second) && Eligible(u.periodType, locationId) ==>
            Rank(r.periodType) <= Rank(u.periodType))
      && (forall j :: 0 <= j < i ==> !(ActiveAt(slots[j], clock.second) && slots[j].periodType == r.periodType))
  {
    var slots := Candidates(cache, clock.weekday);
    var content := ActiveCandidates(slots, clock.second);
    var r := Select(content, locationId).value;
    forall u | u in slots && ActiveAt(u, clock.second) && Eligible(u.periodType, locationId)
      ensures Rank(r.periodType) <= Rank(u.periodType)
    {
      SelectHighestPriority(content, locationId, u);
    }
    ReduceByTier(content, locationId);
    assert Find(content, r.periodType) == Some(r);
    i := FindActive(slots, clock.second, r.periodType);
  }

  /** Overlapping events and weekday timeslots with a location: the events one wins. */
  lemma EventsBeatWeekday(clock: Clock, cache: ScheduleCache, locationId: Option<string>, e: Timeslot)
    requires HasLocation(locationId)
    requires e in Candidates(cache, clock.weekday) && ActiveAt(e, clock.second) && e.periodType == Events
    ensures GetContent(clock, cache, locationId).Some?
    ensures GetContent(clock, cache, locationId).value.periodType == Events
  {
    GetContentNoneIff(clock, cache, locationId);
    var _ := GetContentPriority(clock, cache, locationId);
  }

  /** Only events are gated by the location: an active day timeslot means
      something plays, with or without a location. */
  lemma ActiveDayAlwaysPlays(clock: Clock, cache: ScheduleCache, locationId: Option<string>, d: Timeslot)
    requires d in Candidates(cache, clock.weekday) && ActiveAt(d, clock.second) && d.periodType == Day
    ensures GetContent(clock, cache, locationId).Some?
  {
    GetContentNoneIff(clock, cache, locationId);
  }
}
