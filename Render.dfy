/**
 * What `renderStories` shows for each story: the DOM list item is modelled as
 * an `Entry` record holding the texts and the link it displays.
 */
module Render {
  import opened Wrappers
  import opened NumberText
  import opened Stories
  import TimeAgo

  const NO_TITLE: string := "(no title)"
  const UNKNOWN_AUTHOR: string := "unknown"
  const DISCUSSION_BASE: string := "https://news.ycombinator.com/item?id="

  /** One displayed story: the title link's text and target, and the parts of its meta line. */
  datatype Entry = Entry(
    title: string,
    href: string,
    score: int,
    author: string,
    age: string,
    comments: string)

  /** JavaScript truthiness of an optional string: present and not empty. */
  predicate Truthy(s: Option<string>) {
    s.Some? && s.value != ""
  }

  function DiscussionUrl(id: int): string {
    DISCUSSION_BASE + IntText(id)
  }

  /** Each story's discussion page is its own: the id can be read back from the link. */
  lemma DiscussionUrlInjective(a: int, b: int)
    ensures DiscussionUrl(a) == DiscussionUrl(b) <==> a == b
  {
    if DiscussionUrl(a) == DiscussionUrl(b) {
      assert IntText(a) == DiscussionUrl(a)[|DISCUSSION_BASE|..];
      assert IntText(b) == DiscussionUrl(b)[|DISCUSSION_BASE|..];
      IntTextInjective(a, b);
    }
  }

  /**
   * `timeAgo(item.time)`. Without a submission time the arithmetic yields NaN,
   * which fails every `<` test and prints as "NaN", so the text is "NaNd".
   */
  function AgeText(nowMs: int, time: Option<int>): string {
    match time
    case Some(t) => TimeAgo.TimeAgo(nowMs, t)
    case None => "NaNd"
  }

  /** `item.descendants ? `${item.descendants} comments` : '0 comments'`. */
  function CommentsText(descendants: Option<int>): (r: string)
    ensures r == IntText(descendants.GetOr(0)) + " comments"
  {
    if descendants.Some? && descendants.value != 0 then IntText(descendants.value) + " comments"
    else "0 comments"
  }

  /** The entry for one non-null item, with the source's fallback for each missing field. */
  function ToEntry(item: Item, nowMs: int): Entry {
    Entry(
      if Truthy(item.title) then item.title.value else NO_TITLE,
      if Truthy(item.url) then item.url.value else DiscussionUrl(item.id),
      item.score.GetOr(0),
      if Truthy(item.author) then item.author.value else UNKNOWN_AUTHOR,
      AgeText(nowMs, item.time),
      CommentsText(item.descendants))
  }

  /**
   * Every displayed field is present: a non-empty title, author and link, each
   * taken from the item when it is truthy and from the fixed fallback otherwise,
   * a score that defaults to 0, a comment count that reads "0 comments" when
   * there is none, and the age of the item's submission time ("NaNd" without one).
   */
  lemma EntryFallbacks(item: Item, nowMs: int)
    ensures var e := ToEntry(item, nowMs);
      && e.title != [] && e.href != [] && e.author != []
      && (Truthy(item.title) ==> e.title == item.title.value)
      && (!Truthy(item.title) ==> e.title == NO_TITLE)
      && (Truthy(item.url) ==> e.href == item.url.value)
      && (!Truthy(item.url) ==> e.href == DiscussionUrl(item.id))
      && e.score == item.score.GetOr(0)
      && (Truthy(item.author) ==> e.author == item.author.value)
      && (!Truthy(item.author) ==> e.author == UNKNOWN_AUTHOR)
      && e.comments == IntText(item.descendants.GetOr(0)) + " comments"
      && (item.time.Some? ==> e.age == TimeAgo.TimeAgo(nowMs, item.time.value))
      && (item.time.None? ==> e.age == "NaNd")
  {
  }

  /** The meta line under the title: score, author, age and comment count. */
  function MetaLine(e: Entry): string {
    IntText(e.score) + " pts — by " + e.author + " — " + e.age + " — " + e.comments
  }

  /** The entries `forEach` appends for a list of non-null items, one per item. */
  function Entries(items: seq<Item>, nowMs: int): (r: seq<Entry>)
    ensures |r| == |items|
    ensures forall i :: 0 <= i < |items| ==> r[i] == ToEntry(items[i], nowMs)
  {
    if items == [] then []
    else
      var front := Entries(items[..|items| - 1], nowMs);
      var r := front + [ToEntry(items[|items| - 1], nowMs)];
      assert forall i :: 0 <= i < |items| - 1 ==> r[i] == front[i];
      r
  }

  /** Rendering one more item appends its entry. */
  lemma EntriesSnoc(items: seq<Item>, x: Item, nowMs: int)
    ensures Entries(items + [x], nowMs) == Entries(items, nowMs) + [ToEntry(x, nowMs)]
  {
  }

  /** Rendering distributes over concatenation, so entries keep the items' order. */
  lemma EntriesAppend(a: seq<Item>, b: seq<Item>, nowMs: int)
    ensures Entries(a + b, nowMs) == Entries(a, nowMs) + Entries(b, nowMs)
  {
    var whole, parts := Entries(a + b, nowMs), Entries(a, nowMs) + Entries(b, nowMs);
    forall i | 0 <= i < |whole|
      ensures whole[i] == parts[i]
    {
      if i >= |a| {
        assert (a + b)[i] == b[i - |a|];
      }
    }
  }
}
