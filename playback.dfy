/** The timeslot player (sm/timeslot.tsx): orders the items of the active
    timeslot and decides when to move on to the next one. */
module Playback {
  import opened Types

  /** Milliseconds an item without a usable duration stays on screen. */
  const DefaultItemDuration: int := 60000
  /** Shortest time, in milliseconds, an item stays on screen. */
  const MinItemDuration: int := 3000

  // ---------------------------------------------------------------------
  // Item list

  /** `data?.items || []`. */
  function ItemsOf(data: Option<Timeslot>): seq<TimeslotItem>
  {
    match data
    case None => []
    case Some(t) => match t.items
      case None => []
      case Some(xs) => xs
  }

  predicate SortedBySequence(s: seq<TimeslotItem>)
  {
    forall i, j :: 0 <= i < j < |s| ==> s[i].sequence <= s[j].sequence
  }

  /** Places `x` before the first item whose sequence is not smaller. */
  function Insert(x: TimeslotItem, s: seq<TimeslotItem>): (r: seq<TimeslotItem>)
    requires SortedBySequence(s)
    ensures SortedBySequence(r)
    ensures multiset(r) == multiset(s) + multiset{x}
    ensures |r| == |s| + 1
    ensures r[0] == x || (s != [] && r[0] == s[0])
  {
    if s == [] then [x]
    else if x.sequence <= s[0].sequence then
      SortedCons(x, s);
      [x] + s
    else
      var tail := Insert(x, s[1..]);
      assert s == [s[0]] + s[1..];
      assert multiset([s[0]] + tail) == multiset{s[0]} + multiset(tail);
      SortedCons(s[0], tail);
      [s[0]] + tail
  }

  lemma SortedCons(a: TimeslotItem, t: seq<TimeslotItem>)
    requires SortedBySequence(t)
    requires t != [] ==> a.sequence <= t[0].sequence
    ensures SortedBySequence([a] + t)
  {
    forall i, j | 0 <= i < j < |[a] + t| ensures ([a] + t)[i].sequence <= ([a] + t)[j].sequence {
      if i == 0 && j > 1 {
        assert t[0].sequence <= t[j - 1].sequence;
      }
    }
  }

  /** `orderBy(items, 'sequence', 'asc')`: a stable sort on `sequence`. */
  function SortBySequence(items: seq<TimeslotItem>): (r: seq<TimeslotItem>)
    ensures SortedBySequence(r)
    ensures multiset(r) == multiset(items)
    ensures |r| == |items|
  {
    if items == [] then []
    else
      assert items == [items[0]] + items[1..];
      Insert(items[0], SortBySequence(items[1..]))
  }

  /** The items of the timeslot in playing order. */
  function ListMedia(data: Option<Timeslot>): (r: seq<TimeslotItem>)
    ensures SortedBySequence(r)
    ensures multiset(r) == multiset(ItemsOf(data))
    ensures data.None? ==> r == []
    ensures data.Some? && data.value.items.None? ==> r == []
  {
    SortBySequence(ItemsOf(data))
  }

  /** The items of `s` whose sequence is `k`, in order. */
  function WithSequence(s: seq<TimeslotItem>, k: int): seq<TimeslotItem>
  {
    if s == [] then []
    else if s[0].sequence == k then [s[0]] + WithSequence(s[1..], k)
    else WithSequence(s[1..], k)
  }

  lemma {:induction false} InsertStable(x: TimeslotItem, s: seq<TimeslotItem>, k: int)
    requires SortedBySequence(s)
    ensures WithSequence(Insert(x, s), k) ==
      if x.sequence == k then [x] + WithSequence(s, k) else WithSequence(s, k)
  {
    if s == [] {
    } else if x.sequence <= s[0].sequence {
      assert ([x] + s)[1..] == s;
    } else {
      InsertStable(x, s[1..], k);
      var tail := Insert(x, s[1..]);
      assert ([s[0]] + tail)[1..] == tail;
      if x.sequence == k {
        assert s[0].sequence != k;
      }
    }
  }

  /** Items with equal sequence keep their original relative order. */
  lemma {:induction false} SortIsStable(items: seq<TimeslotItem>, k: int)
    ensures WithSequence(SortBySequence(items), k) == WithSequence(items, k)
  {
    if items != [] {
      SortIsStable(items[1..], k);
      InsertStable(items[0], SortBySequence(items[1..]), k);
    }
  }

  // ---------------------------------------------------------------------
  // Advancing

  /** How long, in milliseconds, a timer-driven item stays on screen:
      `Math.max(duration * 1000 || DEFAULT, MIN)`; an undefined duration
      gives `NaN`, which is falsy like 0. */
  function TimerDelay(duration: Option<int>): (d: int)
    ensures d >= MinItemDuration
    ensures duration.None? || duration == Some(0) ==> d == DefaultItemDuration
    ensures duration.Some? && duration.value * 1000 >= MinItemDuration ==> d == duration.value * 1000
    ensures duration.Some? && duration.value != 0 && duration.value * 1000 < MinItemDuration ==>
      d == MinItemDuration
  {
    var ms := match duration case None => 0 case Some(v) => v * 1000;
    var chosen := if ms != 0 then ms else DefaultItemDuration;
    if chosen > MinItemDuration then chosen else MinItemDuration
  }

  predicate IsVideo(item: TimeslotItem)
  {
    item.mediaItem.Some? && item.mediaItem.value.mediaType == "video"
  }

  /** Videos and playlists report their own end; every other item advances on a timer. */
  predicate TimerDriven(item: TimeslotItem)
  {
    !(IsVideo(item) || item.playlist.Some?)
  }

  /** The delay of the timer the layout effect arms for `active`, if any. */
  function ArmFor(active: Option<TimeslotItem>): Option<int>
  {
    if active.Some? && TimerDriven(active.value) then Some(TimerDelay(active.value.duration)) else None
  }

  /** Position of the first occurrence of `item`. */
  function IndexOf(list: seq<TimeslotItem>, item: TimeslotItem): (i: nat)
    requires item in list
    ensures i < |list| && list[i] == item
    ensures forall j :: 0 <= j < i ==> list[j] != item
  {
    if list[0] == item then 0 else 1 + IndexOf(list[1..], item)
  }

  /** `getNextItem`, taken to be the cyclic successor in the ordered list. */
  function NextItem(list: seq<TimeslotItem>, item: TimeslotItem): (r: TimeslotItem)
    requires item in list
    ensures r in list
    ensures |list| == 1 ==> r == item
  {
    var i := IndexOf(list, item) + 1;
    if i < |list| then list[i] else list[0]
  }

  predicate Distinct(list: seq<TimeslotItem>)
  {
    forall i, j :: 0 <= i < j < |list| ==> list[i] != list[j]
  }

  /** In a list without repeated items, the successor of the i-th item is the next one, wrapping. */
  lemma NextItemCycles(list: seq<TimeslotItem>, i: nat)
    requires Distinct(list) && i < |list|
    ensures NextItem(list, list[i]) == if i + 1 < |list| then list[i + 1] else list[0]
  {
    var k := IndexOf(list, list[i]);
    assert k == i;
  }

  /** With two or more distinct items, advancing always changes the item. */
  lemma NextItemMoves(list: seq<TimeslotItem>, item: TimeslotItem)
    requires Distinct(list) && |list| >= 2 && item in list
    ensures NextItem(list, item) != item
  {
    var i := IndexOf(list, item);
    NextItemCycles(list, i);
  }

  // ---------------------------------------------------------------------
  // Content

  /** What the player renders; `onPlaybackEnd` goes to playlists and media items. */
  datatype View =
    | Nothing
    | TemplateView(template: Template)
    | PlaylistView(playlist: Playlist)
    | MediaView(media: MediaItem, loopVideo: bool)

  predicate ReportsEnd(v: View)
  {
    v.PlaylistView? || v.MediaView?
  }

  /** Template first, then playlist, then media item; a media item loops
      exactly when it is the only item. */
  function SelectContent(active: Option<TimeslotItem>, isLoop: bool): (v: View)
    ensures v.TemplateView? <==> active.Some? && active.value.template.Some?
    ensures v.TemplateView? ==> v.template == active.value.template.value
    ensures v.PlaylistView? <==> active.Some? && active.value.template.None? && active.value.playlist.Some?
    ensures v.PlaylistView? ==> v.playlist == active.value.playlist.value
    ensures v.MediaView? <==> active.Some? && active.value.template.None? && active.value.playlist.None?
                              && active.value.mediaItem.Some?
    ensures v.MediaView? ==> v.media == active.value.mediaItem.value && v.loopVideo == isLoop
  {
    match active
    case None => Nothing
    case Some(item) =>
      if item.template.Some? then TemplateView(item.template.value)
      else if item.playlist.Some? then PlaylistView(item.playlist.value)
      else if item.mediaItem.Some? then MediaView(item.mediaItem.value, isLoop)
      else Nothing
  }

  predicate ExactlyOnePayload(item: TimeslotItem)
  {
    (if item.mediaItem.Some? then 1 else 0) + (if item.playlist.Some? then 1 else 0)
      + (if item.template.Some? then 1 else 0) == 1
  }

  /** An item with one payload can always move on: either a timer is armed
      for it or its renderer holds the end-of-playback callback. */
  lemma WellFormedItemAdvances(item: TimeslotItem, isLoop: bool)
    requires ExactlyOnePayload(item)
    ensures TimerDriven(item) || ReportsEnd(SelectContent(Some(item), isLoop))
  {
  }

  // ---------------------------------------------------------------------
  // State machine

  /** `TimeslotComponent`: the ordered list, the active item and the one live timer. */
  class TimeslotPlayer {
    var data: Option<Timeslot>
    var listMedia: seq<TimeslotItem>
    var activeItem: Option<TimeslotItem>
    /** Delay of the pending `setTimeout`, always armed for `activeItem`. */
    var pendingDelay: Option<int>

    ghost predicate Valid()
      reads this
    {
      && listMedia == ListMedia(data)
      && (activeItem.None? <==> listMedia == [])
      && (activeItem.Some? ==> activeItem.value in listMedia)
      && (pendingDelay.Some? ==>
            activeItem.Some? && TimerDriven(activeItem.value)
            && pendingDelay.value == TimerDelay(activeItem.value.duration))
    }

    /** `isLoop`. */
    function IsLoop(): bool
      reads this
    {
      |listMedia| == 1
    }

    function Content(): View
      reads this
    {
      SelectContent(activeItem, IsLoop())
    }

    /** With no items the player is idle: no item, no timer, nothing on screen. */
    lemma IdleWhenEmpty()
      requires Valid() && listMedia == []
      ensures activeItem.None? && pendingDelay.None? && Content() == Nothing
    {
    }

    /** Mounting with `data`: both effects make the first item active. */
    constructor (data: Option<Timeslot>)
      ensures Valid()
      ensures this.data == data && listMedia == ListMedia(data)
      ensures activeItem == (if listMedia == [] then None else Some(listMedia[0]))
      ensures pendingDelay == ArmFor(activeItem)
    {
      this.data := data;
      var list := ListMedia(data);
      var first := if list == [] then None else Some(list[0]);
      listMedia := list;
      activeItem := first;
      pendingDelay := ArmFor(first);
    }

    /** A new `data` prop: the list is re-derived, the pending timer is
        cleared and the first item becomes active. */
    method SetData(newData: Option<Timeslot>)
      modifies this
      ensures Valid()
      ensures data == newData && listMedia == ListMedia(newData)
      ensures activeItem == (if listMedia == [] then None else Some(listMedia[0]))
      ensures pendingDelay == ArmFor(activeItem)
    {
      data := newData;
      var list := ListMedia(newData);
      listMedia := list;
      activeItem := if list == [] then None else Some(list[0]);
      pendingDelay := ArmFor(activeItem);
    }

    /** The layout effect for a newly active item: arm a timer unless the
        item reports its own end. */
    method Arm()
      requires activeItem.Some?
      modifies this`pendingDelay
      ensures pendingDelay == ArmFor(activeItem)
    {
      pendingDelay := ArmFor(activeItem);
    }

    /** Moves to `next`; setting the same item again does not re-render, so
        nothing is re-armed. */
    method MoveTo(next: TimeslotItem)
      requires Valid() && next in listMedia && activeItem.Some?
      modifies this
      ensures Valid()
      ensures data == old(data) && listMedia == old(listMedia)
      ensures next == old(activeItem.value) ==> activeItem == old(activeItem) && pendingDelay == old(pendingDelay)
      ensures next != old(activeItem.value) ==> activeItem == Some(next) && pendingDelay == ArmFor(Some(next))
    {
      if next != activeItem.value {
        activeItem := Some(next);
        Arm();
      }
    }

    /** The pending timer expires. */
    method TimerFired()
      requires Valid()
      modifies this
      ensures Valid()
      ensures data == old(data) && listMedia == old(listMedia)
      ensures old(pendingDelay).None? ==> activeItem == old(activeItem) && pendingDelay == old(pendingDelay)
      ensures old(pendingDelay).Some? ==>
        var next := NextItem(old(listMedia), old(activeItem).value);
        if next == old(activeItem).value then activeItem == old(activeItem) && pendingDelay.None?
        else activeItem == Some(next) && pendingDelay == ArmFor(activeItem)
    {
      if pendingDelay.Some? {
        pendingDelay := None;
        MoveTo(NextItem(listMedia, activeItem.value));
      }
    }

    /** The renderer of a playlist or media item calls `onPlaybackEnd`;
        nothing else holds the callback. */
    method PlaybackEnded()
      requires Valid()
      modifies this
      ensures Valid()
      ensures data == old(data) && listMedia == old(listMedia)
      ensures !ReportsEnd(old(Content())) ==> activeItem == old(activeItem) && pendingDelay == old(pendingDelay)
      ensures ReportsEnd(old(Content())) ==>
        var next := NextItem(old(listMedia), old(activeItem).value);
        if next == old(activeItem).value then activeItem == old(activeItem) && pendingDelay == old(pendingDelay)
        else activeItem == Some(next) && pendingDelay == ArmFor(activeItem)
    {
      if ReportsEnd(Content()) {
        MoveTo(NextItem(listMedia, activeItem.value));
      }
    }
  }

  /** An image of five seconds followed by a video: the image leaves on its
      timer, the video only on the end-of-playback signal. */
  method ImageThenVideo()
  {
    var image := TimeslotItem("image", 1, Some(5), Some(MediaItem("m1", "image")), None, None);
    var video := TimeslotItem("video", 2, None, Some(MediaItem("m2", "video")), None, None);
    var slot := Timeslot("slot", Day, TimeOfDay(8, 0), TimeOfDay(18, 0), Some([video, image]));
    assert SortBySequence([image]) == [image];
    assert ListMedia(Some(slot)) == [image, video];
    var p := new TimeslotPlayer(Some(slot));
    assert p.activeItem == Some(image) && p.pendingDelay == Some(5000);
    p.TimerFired();
    assert p.activeItem == Some(video) && p.pendingDelay.None?;
    p.TimerFired();
    assert p.activeItem == Some(video);
    p.PlaybackEnded();
    assert p.activeItem == Some(image) && p.pendingDelay == Some(5000);
  }
}
