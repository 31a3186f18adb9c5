/**
 * The popup's load cycle (`fetchAndRender`) and its two triggers, the feed
 * tabs and the refresh button. `PopupState` and the functions over it say what
 * one cycle does; the class `Popup` performs the same steps on its fields in
 * the order the script does.
 */
module Controller {
  import opened Wrappers
  import opened Stories
  import opened Render
  import opened Cache

  const FETCHING: string := "Fetching stories…"
  const NO_STORIES: string := "No stories found."
  const FAILED: string := "Failed to fetch stories — showing cached (if any)."

  function Updated(localTime: string): string {
    "Updated " + localTime
  }

  /** The script's mutable state: current feed, displayed list, status line and local storage. */
  datatype PopupState = PopupState(feed: string, display: seq<Entry>, status: string, cache: Storage)

  /** The answers the network gives during one cycle, by request URL. */
  datatype Network = Network(idsAt: string -> IdsResponse, itemAt: string -> Option<Item>)

  /**
   * The clock readings of one cycle: when the cache is read and painted, when
   * the fetched page is rendered and saved, and the locale text of the latter.
   */
  datatype Clock = Clock(startMs: int, doneMs: int, localTime: string)

  /** Non-null items as the list `renderStories` receives. */
  function Lift(items: seq<Item>): (r: seq<Option<Item>>)
    ensures |r| == |items|
    ensures forall i :: 0 <= i < |items| ==> r[i] == Some(items[i])
  {
    seq(|items|, i requires 0 <= i < |items| => Some(items[i]))
  }

  /** Filtering a list of non-null items gives the items back. */
  lemma PresentOfLift(items: seq<Item>)
    ensures Present(Lift(items)) == items
  {
    AllPresent(Lift(items));
  }

  /** The effect of `renderStories(items)`; `None` is a `null` argument. */
  function Paint(s: PopupState, items: Option<seq<Option<Item>>>, nowMs: int): PopupState {
    s.(display := if items.Some? then Entries(Present(items.value), nowMs) else [],
       status := if items.None? || |items.value| == 0 then NO_STORIES else "")
  }

  /**
   * An empty or null list leaves the display empty with "No stories found.";
   * any other list replaces the display, whatever it held, by one entry per
   * non-null item in order, and clears the status.
   */
  lemma PaintReplaces(s: PopupState, items: Option<seq<Option<Item>>>, nowMs: int)
    ensures var p := Paint(s, items, nowMs);
      && p.feed == s.feed && p.cache == s.cache
      && (items.None? || items.value == [] ==> p.display == [] && p.status == NO_STORIES)
      && (items.Some? && items.value != [] ==>
            && p.status == ""
            && |p.display| == |items.value| - Missing(items.value)
            && forall i :: 0 <= i < |p.display| ==> p.display[i] == ToEntry(Present(items.value)[i], nowMs))
  {
  }

  /**
   * The state when the id list is requested: unless forced, a usable cached
   * page for the feed has been painted; the status says stories are being fetched.
   */
  function Optimistic(s: PopupState, force: bool, startMs: int): PopupState {
    var cached := if force then None else Load(s.cache, s.feed, startMs);
    var painted := if cached.Some? then Paint(s, Some(Lift(cached.value)), startMs) else s;
    painted.(status := FETCHING)
  }

  /** What the answer to the id-list request does to the state. */
  function Settle(s: PopupState, response: IdsResponse, itemAt: string -> Option<Item>, clock: Clock): PopupState {
    match response
    case FetchFailed => s.(status := FAILED)
    case Ids(list) =>
      var page := Page(list, itemAt);
      var shown := Paint(s, Some(Lift(page)), clock.doneMs);
      shown.(cache := Save(shown.cache, s.feed, clock.doneMs, page), status := Updated(clock.localTime))
  }

  /** One `fetchAndRender(force)` cycle. */
  function Cycle(s: PopupState, force: bool, net: Network, clock: Clock): PopupState {
    Settle(Optimistic(s, force, clock.startMs), net.idsAt(IdsUrl(s.feed)), net.itemAt, clock)
  }

  /** A tab click: the tab's feed becomes current and an unforced cycle runs. */
  function SwitchTab(s: PopupState, feed: string, net: Network, clock: Clock): PopupState {
    Cycle(s.(feed := feed), false, net, clock)
  }

  /** Before any answer arrives, an unforced cycle shows the usable cached page. */
  lemma OptimisticShowsCache(s: PopupState, startMs: int)
    requires Load(s.cache, s.feed, startMs).Some?
    ensures Optimistic(s, false, startMs).display == Entries(Load(s.cache, s.feed, startMs).value, startMs)
    ensures Optimistic(s, false, startMs).status == FETCHING
  {
    PresentOfLift(Load(s.cache, s.feed, startMs).value);
  }

  /**
   * The optimistic step in every case: it paints the usable cached page of an
   * unforced cycle and otherwise leaves the display alone; it always keeps the
   * feed and storage and sets the status to "Fetching stories…".
   */
  lemma OptimisticStep(s: PopupState, force: bool, startMs: int)
    ensures var o := Optimistic(s, force, startMs);
      var cached := Load(s.cache, s.feed, startMs);
      && o.feed == s.feed && o.cache == s.cache
      && o.status == FETCHING
      && o.display == (if !force && cached.Some? then Entries(cached.value, startMs) else s.display)
  {
    if !force && Load(s.cache, s.feed, startMs).Some? {
      PresentOfLift(Load(s.cache, s.feed, startMs).value);
    }
  }

  /** A forced cycle never reads the cache: its outcome is the same whatever storage holds. */
  lemma ForcedIgnoresCache(s: PopupState, other: Storage, net: Network, clock: Clock)
    ensures Optimistic(s, true, clock.startMs).display == s.display
    ensures Cycle(s, true, net, clock).display == Cycle(s.(cache := other), true, net, clock).display
    ensures Cycle(s, true, net, clock).status == Cycle(s.(cache := other), true, net, clock).status
  {
  }

  /**
   * When the id list cannot be fetched, the display stays as it was when the
   * request went out (the cached page, if one was painted), the status reports
   * the failure, and neither the feed nor the storage changes.
   */
  lemma FailureKeepsDisplay(s: PopupState, force: bool, net: Network, clock: Clock)
    requires net.idsAt(IdsUrl(s.feed)) == FetchFailed
    ensures var r := Cycle(s, force, net, clock);
      && r.display == Optimistic(s, force, clock.startMs).display
      && r.status == FAILED
      && r.cache == s.cache && r.feed == s.feed
    ensures force ==> Cycle(s, force, net, clock).display == s.display
  {
  }

  /**
   * When the id list arrives, the display and the cached page are the fetched
   * page in rank order, and the status is "Updated …" even when the page is
   * empty; when saved at a non-zero time, the page then reads back from the
   * cache for `CACHE_TTL`.
   */
  lemma SuccessShowsAndCachesPage(s: PopupState, force: bool, net: Network, clock: Clock, later: int)
    requires net.idsAt(IdsUrl(s.feed)).Ids?
    ensures var page := Page(net.idsAt(IdsUrl(s.feed)).list, net.itemAt);
      var r := Cycle(s, force, net, clock);
      && r.display == Entries(page, clock.doneMs)
      && r.status == Updated(clock.localTime)
      && r.feed == s.feed
      && (clock.doneMs != 0 && later - clock.doneMs <= CACHE_TTL ==> Load(r.cache, s.feed, later) == Some(page))
  {
    var page := Page(net.idsAt(IdsUrl(s.feed)).list, net.itemAt);
    PresentOfLift(page);
  }

  /** A cycle writes only the current feed's slot; every other key of storage is as it was. */
  lemma CycleKeepsOtherSlots(s: PopupState, force: bool, net: Network, clock: Clock)
    ensures var r := Cycle(s, force, net, clock);
      && r.cache.Keys <= s.cache.Keys + {Key(s.feed)}
      && forall k :: k in s.cache && k != Key(s.feed) ==> k in r.cache && r.cache[k] == s.cache[k]
  {
  }

  /** In particular, what any other feed would load is unchanged. */
  lemma CycleKeepsOtherFeeds(s: PopupState, force: bool, net: Network, clock: Clock, other: string, t: int)
    requires other != s.feed
    ensures Load(Cycle(s, force, net, clock).cache, other, t) == Load(s.cache, other, t)
  {
  }

  /**
   * A tab click makes its feed current, requests that feed's id list, and
   * leaves every other feed's cached page alone.
   */
  lemma SwitchTabLoadsFeed(s: PopupState, feed: string, net: Network, clock: Clock, t: int)
    ensures SwitchTab(s, feed, net, clock).feed == feed
    ensures net.idsAt(IdsUrl(feed)) == FetchFailed ==> SwitchTab(s, feed, net, clock).status == FAILED
    ensures net.idsAt(IdsUrl(feed)).Ids? ==>
      SwitchTab(s, feed, net, clock).display == Entries(Page(net.idsAt(IdsUrl(feed)).list, net.itemAt), clock.doneMs)
    ensures forall other :: other != feed ==>
      Load(SwitchTab(s, feed, net, clock).cache, other, t) == Load(s.cache, other, t)
  {
    var s' := s.(feed := feed);
    if net.idsAt(IdsUrl(feed)).Ids? {
      PresentOfLift(Page(net.idsAt(IdsUrl(feed)).list, net.itemAt));
    }
    forall other | other != feed
      ensures Load(SwitchTab(s, feed, net, clock).cache, other, t) == Load(s.cache, other, t)
    {
      CycleKeepsOtherFeeds(s', false, net, clock, other, t);
    }
  }

  /** One step of the render loop: the next item adds its entry, or nothing when it is null. */
  lemma RenderStep(xs: seq<Option<Item>>, i: nat, nowMs: int)
    requires i < |xs|
    ensures Entries(Present(xs[..i + 1]), nowMs)
         == Entries(Present(xs[..i]), nowMs) + if xs[i].Some? then [ToEntry(xs[i].value, nowMs)] else []
  {
    assert xs[..i + 1] == xs[..i] + [xs[i]];
    PresentSnoc(xs[..i], xs[i]);
    if xs[i].Some? {
      EntriesSnoc(Present(xs[..i]), xs[i].value, nowMs);
    } else {
      assert Present(xs[..i + 1]) == Present(xs[..i]);
    }
  }

  class Popup {
    var currentFeed: string
    var display: seq<Entry>
    var status: string
    var cache: Storage

    function Snapshot(): PopupState
      reads this
    {
      PopupState(currentFeed, display, status, cache)
    }

    /** The script as loaded: the "top" feed, nothing shown yet, storage as left by earlier sessions. */
    constructor (storage: Storage)
      ensures Snapshot() == PopupState("top", [], "", storage)
    {
      currentFeed := "top";
      display := [];
      status := "";
      cache := storage;
    }

    /** `renderStories(items)`: clears the list, then appends one entry per non-null item. */
    method RenderStories(items: Option<seq<Option<Item>>>, nowMs: int)
      modifies this`display, this`status
      ensures Snapshot() == Paint(old(Snapshot()), items, nowMs)
    {
      display := [];
      if items.None? || |items.value| == 0 {
        status := NO_STORIES;
        return;
      }
      status := "";
      var xs := items.value;
      for i := 0 to |xs|
        invariant display == Entries(Present(xs[..i]), nowMs)
        invariant status == ""
      {
        RenderStep(xs, i, nowMs);
        if xs[i].Some? {
          display := display + [ToEntry(xs[i].value, nowMs)];
        }
      }
      assert xs[..|xs|] == xs;
    }

    /** `saveCache(items)`. */
    method SaveCache(items: seq<Item>, nowMs: int)
      modifies this`cache
      ensures cache == Save(old(cache), currentFeed, nowMs, items)
    {
      cache := cache[Key(currentFeed) := Payload(Some(nowMs), Some(items))];
    }

    /** `loadCache()`. */
    method LoadCache(nowMs: int) returns (r: Option<seq<Item>>)
      ensures r == Load(cache, currentFeed, nowMs)
    {
      var key := Key(currentFeed);
      if key !in cache {
        return None;
      }
      var slot := cache[key];
      if !slot.Payload? || slot.ts.None? || slot.ts.value == 0 || slot.items.None? {
        return None;
      }
      if nowMs - slot.ts.value > CACHE_TTL {
        return None;
      }
      r := slot.items;
    }

    /** `fetchAndRender(force)`, step by step. */
    method FetchAndRender(force: bool, net: Network, clock: Clock)
      modifies this
      ensures Snapshot() == Cycle(old(Snapshot()), force, net, clock)
    {
      if !force {
        var cached := LoadCache(clock.startMs);
        if cached.Some? {
          RenderStories(Some(Lift(cached.value)), clock.startMs);
        }
      }
      status := FETCHING;
      var response := net.idsAt(IdsUrl(currentFeed));
      match response
      case FetchFailed =>
        status := FAILED;
      case Ids(list) =>
        var slice := Slice(list);
        var items := Fetched(slice, net.itemAt);
        var filtered := Present(items);
        RenderStories(Some(Lift(filtered)), clock.doneMs);
        SaveCache(filtered, clock.doneMs);
        status := Updated(clock.localTime);
    }

    /** A click on a feed tab. */
    method SelectTab(feed: string, net: Network, clock: Clock)
      modifies this
      ensures Snapshot() == SwitchTab(old(Snapshot()), feed, net, clock)
    {
      currentFeed := feed;
      FetchAndRender(false, net, clock);
    }

    /** A click on the refresh button. */
    method Refresh(net: Network, clock: Clock)
      modifies this
      ensures Snapshot() == Cycle(old(Snapshot()), true, net, clock)
    {
      FetchAndRender(true, net, clock);
    }
  }
}
