/**
 * Story records, the requests the popup makes for them, and the page step of
 * `fetchAndRender`: keep the first `TOP_COUNT` ids, look each one up, and drop
 * the look-ups that came back empty, keeping rank order.
 */
module Stories {
  import opened Wrappers
  import opened NumberText

  const API_BASE: string := "https://hacker-news.firebaseio.com/v0"
  const TOP_COUNT: nat := 30

  /**
   * An item record as the API returns it. Every field but the id may be
   * missing from the JSON object.
   */
  datatype Item = Item(
    id: int,
    title: Option<string>,
    url: Option<string>,
    score: Option<int>,
    author: Option<string>,  // the record's `by` field
    time: Option<int>,
    descendants: Option<int>)

  /**
   * The outcome of requesting a feed's id list: the request or its JSON failed
   * (the failure propagates to the load cycle), or it produced a value, which
   * may be JSON `null`.
   */
  datatype IdsResponse = FetchFailed | Ids(list: Option<seq<int>>)

  /** The id-list endpoint: the "top" feed reads topstories, every other feed newstories. */
  function Endpoint(feed: string): (e: string)
    ensures e == "topstories" <==> feed == "top"
    ensures e == "newstories" <==> feed != "top"
  {
    if feed == "top" then "topstories" else "newstories"
  }

  function IdsUrl(feed: string): string {
    API_BASE + "/" + Endpoint(feed) + ".json"
  }

  function ItemUrl(id: int): string {
    API_BASE + "/item/" + IntText(id) + ".json"
  }

  /** The two feeds request different lists. */
  lemma IdsUrlByFeed(feed: string)
    ensures IdsUrl(feed) == IdsUrl("top") <==> feed == "top"
  {
    if feed != "top" {
      assert IdsUrl(feed)[|API_BASE| + 1] == 'n' != IdsUrl("top")[|API_BASE| + 1];
    }
  }

  /** Each id is requested at its own URL, so no item is fetched in place of another. */
  lemma ItemUrlInjective(a: int, b: int)
    ensures ItemUrl(a) == ItemUrl(b) <==> a == b
  {
    var prefix := API_BASE + "/item/";
    if ItemUrl(a) == ItemUrl(b) {
      var ua, ub := ItemUrl(a), ItemUrl(b);
      assert IntText(a) == ua[|prefix|..|ua| - 5];
      assert IntText(b) == ub[|prefix|..|ub| - 5];
      IntTextInjective(a, b);
    }
  }

  /** `(ids && ids.slice(0, TOP_COUNT)) || []`. */
  function Slice(list: Option<seq<int>>): (r: seq<int>)
    ensures |r| <= TOP_COUNT
    ensures list.None? ==> r == []
    ensures list.Some? ==> r <= list.value
    ensures list.Some? ==> |r| == if |list.value| < TOP_COUNT then |list.value| else TOP_COUNT
  {
    match list
    case None => []
    case Some(ids) => if |ids| <= TOP_COUNT then ids else ids[..TOP_COUNT]
  }

  /** `slice.map(id => fetchItem(id))`, one look-up per id in order. */
  function Fetched(ids: seq<int>, itemAt: string -> Option<Item>): (r: seq<Option<Item>>)
    ensures |r| == |ids|
    ensures forall i :: 0 <= i < |ids| ==> r[i] == itemAt(ItemUrl(ids[i]))
  {
    seq(|ids|, i requires 0 <= i < |ids| => itemAt(ItemUrl(ids[i])))
  }

  /** The number of look-ups that came back empty. */
  function Missing(s: seq<Option<Item>>): nat {
    if s == [] then 0
    else Missing(s[..|s| - 1]) + (if s[|s| - 1].None? then 1 else 0)
  }

  /** `items.filter(Boolean)`: the records that are present, in their order. */
  function Present(s: seq<Option<Item>>): (r: seq<Item>)
    ensures |r| + Missing(s) == |s|
  {
    if s == [] then []
    else Present(s[..|s| - 1]) + (if s[|s| - 1].Some? then [s[|s| - 1].value] else [])
  }

  /** A record is on the filtered list exactly when some look-up returned it. */
  lemma {:induction false} PresentMembers(s: seq<Option<Item>>, x: Item)
    ensures x in Present(s) <==> Some(x) in s
  {
    if s != [] {
      var s' := s[..|s| - 1];
      PresentMembers(s', x);
      assert s == s' + [s[|s| - 1]];
    }
  }

  /** The page a load cycle renders and caches. */
  function Page(list: Option<seq<int>>, itemAt: string -> Option<Item>): seq<Item> {
    Present(Fetched(Slice(list), itemAt))
  }

  /** Filtering distributes over concatenation: it keeps the relative order of the parts. */
  lemma {:induction false} PresentAppend(a: seq<Option<Item>>, b: seq<Option<Item>>)
    ensures Present(a + b) == Present(a) + Present(b)
    decreases |b|
  {
    if b == [] {
      assert a + b == a;
    } else {
      var b' := b[..|b| - 1];
      var tail := if b[|b| - 1].Some? then [b[|b| - 1].value] else [];
      assert (a + b)[..|a + b| - 1] == a + b';
      assert (a + b)[|a + b| - 1] == b[|b| - 1];
      assert Present(a + b) == Present(a + b') + tail;
      assert Present(b) == Present(b') + tail;
      PresentAppend(a, b');
    }
  }

  /** Filtering one more look-up adds its record, if any, at the end. */
  lemma PresentSnoc(s: seq<Option<Item>>, o: Option<Item>)
    ensures Present(s + [o]) == Present(s) + if o.Some? then [o.value] else []
  {
  }

  /**
   * A failed look-up removes exactly its own entry: the page is the pages of
   * the parts on either side of it, and had the look-up succeeded with `x`,
   * the page would hold `x` between them.
   */
  lemma FailureRemovesOne(s: seq<Option<Item>>, k: nat, x: Item)
    requires k < |s| && s[k].None?
    ensures Present(s) == Present(s[..k]) + Present(s[k + 1..])
    ensures Present(s[k := Some(x)]) == Present(s[..k]) + [x] + Present(s[k + 1..])
  {
    var front, back := s[..k], s[k + 1..];
    Single(s[k]);
    Single(Some(x));
    assert s == front + [s[k]] + back;
    PresentAppend(front + [s[k]], back);
    PresentAppend(front, [s[k]]);
    assert s[k := Some(x)] == front + [Some(x)] + back;
    PresentAppend(front + [Some(x)], back);
    PresentAppend(front, [Some(x)]);
  }

  lemma Single(o: Option<Item>)
    ensures Present([o]) == if o.Some? then [o.value] else []
  {
  }

  /** The indices of the present records, in increasing order. */
  ghost function PresentIndices(s: seq<Option<Item>>): seq<nat> {
    if s == [] then []
    else PresentIndices(s[..|s| - 1]) + (if s[|s| - 1].Some? then [|s| - 1] else [])
  }

  /**
   * The filtered list is the subsequence of present records: entry `j` is the
   * record at the `j`-th present index, the indices increase, and an index is
   * chosen exactly when its record is present.
   */
  lemma {:induction false} PresentIsSubsequence(s: seq<Option<Item>>)
    ensures var idx := PresentIndices(s);
      && |idx| == |Present(s)|
      && (forall j :: 0 <= j < |idx| ==> idx[j] < |s| && s[idx[j]] == Some(Present(s)[j]))
      && (forall j, k :: 0 <= j < k < |idx| ==> idx[j] < idx[k])
      && (forall i :: 0 <= i < |s| ==> (i in idx <==> s[i].Some?))
  {
    if s != [] {
      var s' := s[..|s| - 1];
      PresentIsSubsequence(s');
      var idx' := PresentIndices(s');
      assert forall j :: 0 <= j < |idx'| ==> s[idx'[j]] == s'[idx'[j]];
    }
  }

  /** When every look-up succeeds, the page is the looked-up records themselves, one per id. */
  lemma {:induction false} AllPresent(s: seq<Option<Item>>)
    requires forall i :: 0 <= i < |s| ==> s[i].Some?
    ensures |Present(s)| == |s|
    ensures forall i :: 0 <= i < |s| ==> Present(s)[i] == s[i].value
  {
    if s != [] {
      AllPresent(s[..|s| - 1]);
    }
  }

  /**
   * The page holds at most `TOP_COUNT` records; each one was looked up from an
   * id among the first `TOP_COUNT` of the list, and one record is lost per
   * failed look-up.
   */
  lemma PageFacts(list: Option<seq<int>>, itemAt: string -> Option<Item>)
    ensures var page := Page(list, itemAt);
      && |page| + Missing(Fetched(Slice(list), itemAt)) == |Slice(list)|
      && |page| <= TOP_COUNT
      && (list.None? ==> page == [])
      && forall x :: x in page ==>
           exists i :: 0 <= i < |Slice(list)| && itemAt(ItemUrl(list.value[i])) == Some(x)
  {
    var fetched := Fetched(Slice(list), itemAt);
    forall x | x in Page(list, itemAt)
      ensures exists i :: 0 <= i < |Slice(list)| && itemAt(ItemUrl(list.value[i])) == Some(x)
    {
      PresentMembers(fetched, x);
      var i :| 0 <= i < |fetched| && fetched[i] == Some(x);
      assert Slice(list)[i] == list.value[i];
    }
  }
}
