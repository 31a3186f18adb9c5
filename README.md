# hn-quickview popup, modelled in Dafny

The popup script (`popup/popup.js`) shows the top or new Hacker News stories.
It does this in one load cycle:

- it may paint the feed's cached page from local storage;
- it fetches the feed's id list and looks up the first 30 stories;
- it drops the look-ups that failed;
- it renders the rest and caches them for two minutes;
- it reports the outcome on the status line.

This project models that cycle and proves what it promises.

- `Wrappers.dfy`: the `Option` type used for JavaScript's `null` and for missing JSON fields.
- `NumberText.dfy`: how an integer is written in a template string (`${n}`), with its parser. The round trip shows that each written number reads back as itself.
- `TimeAgo.dfy`: `timeAgo`, the floored elapsed seconds written in the coarsest fitting unit. It carries the threshold characterisation, the range bounds and the boundary values.
- `Stories.dfy`: the item record, the request URLs, and the page step of `fetchAndRender`. That step takes the first 30 ids, looks each one up and keeps the present results in rank order.
- `Render.dfy`: the entry `renderStories` displays for each item, with its fallbacks. The DOM list is modelled as a sequence of `Entry` records.
- `Cache.dfy`: `cacheKey`, `saveCache` and `loadCache` over a map from key to stored value. The clock is a parameter.
- `Controller.dfy`: the load cycle as a pure specification (`Optimistic`, `Settle`, `Cycle`, `SwitchTab`) and the class `Popup`. The class has the script's module-level state as fields: `currentFeed`, `display`, `status` and `cache`. Its methods perform the script's steps in the script's order, and each is proved to produce the state the specification gives.

The network is a pair of functions from request URL to answer: the id-list answer and the item answer. The clock is a record of readings: one for the cache read and the optimistic paint, one for the fetched render and the save, and the locale time text for the status line.

Notes on the script:

- It has no pagination, "load more", rank numbers, domain display or highlighting of new entries.
- A cache entry exactly `CACHE_TTL` (120000 ms) old is still valid.
- A cached empty list is truthy in JavaScript. It is therefore painted, which empties the display, and is not treated as absent.

## Model

| member | source | states |
|---|---|---|
| NumberText.NatText | popup/popup.js:29-35 | a natural number is written as at least one decimal digit, with no leading zero except for 0 itself |
| NumberText.NatTextRoundTrip | popup/popup.js:29-35 | reading the digits written for `n` gives back `n` |
| NumberText.IntText | popup/popup.js:29 | an integer's text is non-empty and starts with '-' exactly when the integer is negative |
| NumberText.IntTextRoundTrip | popup/popup.js:29-35 | the text written for any integer parses back to that integer |
| NumberText.IntTextInjective | popup/popup.js:53 | two integers are written the same exactly when they are equal |
| TimeAgo.ElapsedSeconds | popup/popup.js:27-28 | the result is the floor of the elapsed milliseconds over 1000: s·1000 ≤ now − t·1000 < s·1000 + 1000 |
| TimeAgo.AgeOf | popup/popup.js:28-35 | the cascade of floors; its unit and amount are stated by AgeOfByThresholds and AgeBounds |
| TimeAgo.Suffix | popup/popup.js:29-35 | the unit letters `s`, `m`, `h`, `d`; stated by FormatReadsBack |
| TimeAgo.Format | popup/popup.js:29-35 | the amount's text followed by the unit letter (Suffix); stated by FormatReadsBack |
| TimeAgo.TimeAgo | popup/popup.js:26-36 | the returned text parses back to exactly the age the cascade chooses |
| TimeAgo.AgeOfByThresholds | popup/popup.js:26-36 | with s the floored elapsed seconds, the age is s seconds below 60, s/60 minutes below 3600, s/3600 hours below 86400, and s/86400 days from there |
| TimeAgo.FormatReadsBack | popup/popup.js:29-35 | the age text names exactly one amount and one unit: parsing it gives back the age |
| TimeAgo.AgeBounds | popup/popup.js:28-35 | for a past submission the amount is in [0,59] seconds, [1,59] minutes, [1,23] hours, or at least 1 day |
| TimeAgo.FutureIsNegativeSeconds | popup/popup.js:27-29 | a submission after the clock reads as a negative number of seconds |
| TimeAgo.SecondsBoundaries | popup/popup.js:28-29 | 0 s gives "0s", 45 s gives "45s" and 59 s gives "59s" |
| TimeAgo.MinutesBoundaries | popup/popup.js:30-31 | 60 s gives "1m", 90 s gives "1m" and 3599 s gives "59m" |
| TimeAgo.HoursBoundaries | popup/popup.js:32-33 | 3600 s gives "1h", 7200 s gives "2h" and 86399 s gives "23h" |
| TimeAgo.DaysBoundaries | popup/popup.js:34-35 | 86400 s gives "1d" and 172800 s gives "2d" |
| TimeAgo.FutureBoundary | popup/popup.js:27-29 | a submission 1 ms in the future floors to "-1s" |
| Stories.Endpoint | popup/popup.js:105 | the endpoint is "topstories" exactly for the "top" feed and "newstories" for every other feed |
| Stories.IdsUrlByFeed | popup/popup.js:105-109 | a feed requests the top list's URL exactly when it is "top" |
| Stories.ItemUrlInjective | popup/popup.js:86-89 | distinct ids are requested at distinct URLs |
| Stories.IdsUrl | popup/popup.js:108 | the id-list URL for a feed; stated by IdsUrlByFeed |
| Stories.ItemUrl | popup/popup.js:88 | the item URL for an id; stated by ItemUrlInjective |
| Stories.Slice | popup/popup.js:111 | at most 30 ids are kept: a prefix of the list of length min(30, length), or none for a null list |
| Stories.Fetched | popup/popup.js:112 | one look-up per kept id, in the ids' order |
| Stories.Present | popup/popup.js:113 | the filtered list's length plus the number of failed look-ups equals the number of look-ups |
| Stories.Missing | popup/popup.js:113 | the number of failed look-ups; tied to the filtered list's length by Present and FailureRemovesOne |
| Stories.PresentMembers | popup/popup.js:113 | a record is on the filtered list exactly when some look-up returned it |
| Stories.PresentAppend | popup/popup.js:113 | filtering a concatenation concatenates the filtered parts, so relative order is kept |
| Stories.PresentSnoc | popup/popup.js:113 | one more look-up adds its record, if any, at the end |
| Stories.FailureRemovesOne | popup/popup.js:112-113 | a failed look-up removes exactly its own entry; had it succeeded with x, x would stand between the same neighbours |
| Stories.PresentIsSubsequence | popup/popup.js:113 | the filtered list is the subsequence of present records at strictly increasing indices, and an index is taken exactly when its record is present |
| Stories.AllPresent | popup/popup.js:112-113 | when every look-up succeeds the page is the looked-up records, one per id in order |
| Stories.Page | popup/popup.js:111-113 | slice, look up, filter; stated by PageFacts |
| Stories.PageFacts | popup/popup.js:111-113 | the page has at most 30 records, loses one per failed look-up, is empty for a null list, and each record was looked up from one of the first 30 ids |
| Render.DiscussionUrl | popup/popup.js:53 | the fallback discussion link for an id; stated by DiscussionUrlInjective and EntryFallbacks |
| Render.DiscussionUrlInjective | popup/popup.js:53 | two items' fallback discussion links are equal exactly when their ids are |
| Render.CommentsText | popup/popup.js:59 | the comment text is always the count (0 when absent or zero) followed by " comments" |
| Render.EntryFallbacks | popup/popup.js:52-60 | an entry's title, link and author are the item's when truthy and "(no title)", the discussion URL and "unknown" otherwise; the score defaults to 0; the age is "NaNd" without a time |
| Render.ToEntry | popup/popup.js:52-60 | the entry for one item; its fallbacks are stated by EntryFallbacks |
| Render.AgeText | popup/popup.js:60 | `timeAgo(item.time)`, "NaNd" without a time; stated by EntryFallbacks |
| Render.MetaLine | popup/popup.js:60 | the meta line: score, "pts — by", author, age and comment text joined by " — "; no lemma of its own, its parts are stated by EntryFallbacks |
| Render.Entries | popup/popup.js:45-65 | rendering gives exactly one entry per item, the i-th entry being the i-th item's |
| Render.EntriesSnoc | popup/popup.js:45-64 | rendering one more item appends its entry |
| Render.EntriesAppend | popup/popup.js:45-65 | rendering a concatenation concatenates the renderings, so entries keep the items' order |
| Cache.Key | popup/popup.js:22-24 | the key is the fixed prefix followed by the feed name, which can be read back from it |
| Cache.KeyInjective | popup/popup.js:22-24 | two feeds share a key exactly when they are the same feed |
| Cache.Usable | popup/popup.js:78-79 | the validity tests after parsing; stated through Load, SaveThenLoad and ExpiryBoundary |
| Cache.Load | popup/popup.js:73-84 | the stored items are returned exactly when the slot exists and parses, `ts` is present and non-zero, `items` is present, and the age is at most CACHE_TTL; otherwise absent |
| Cache.Save | popup/popup.js:68-71 | the feed's slot becomes {ts: now, items}; every other key keeps its value and no other key appears |
| Cache.SaveThenLoad | popup/popup.js:68-80 | a page saved at a non-zero time t loads back unchanged at any time at most CACHE_TTL after t |
| Cache.SaveThenExpire | popup/popup.js:79 | more than CACHE_TTL after saving, the page loads as absent |
| Cache.SaveAtEpochIsAbsent | popup/popup.js:69-78 | a page saved with timestamp 0 never loads, because 0 is falsy |
| Cache.ExpiryBoundary | popup/popup.js:79 | CACHE_TTL is 120000 ms; a page exactly that old loads, one 1 ms older does not |
| Cache.SaveKeepsOtherFeeds | popup/popup.js:68-71 | saving one feed's page leaves what every other feed loads unchanged |
| Controller.Lift | popup/popup.js:46 | the non-null items as the list `renderStories` receives, one `Some` per item in order |
| Controller.PresentOfLift | popup/popup.js:46 | filtering a list of non-null items gives the items back |
| Controller.Paint | popup/popup.js:38-66 | the effect of `renderStories`; stated by PaintReplaces |
| Controller.PaintReplaces | popup/popup.js:38-66 | an empty or null list empties the display and sets "No stories found."; any other list replaces the display with one entry per non-null item in order and clears the status |
| Controller.RenderStep | popup/popup.js:45-64 | each pass of the render loop appends the next item's entry, or nothing for a null item |
| Controller.Optimistic | popup/popup.js:97-104 | the state when the id list is requested; stated by OptimisticStep, OptimisticShowsCache and ForcedIgnoresCache |
| Controller.OptimisticStep | popup/popup.js:97-104 | in every case: an unforced cycle with a usable cached page paints it, otherwise (forced, or the cache missing, stale or corrupt) the display is left as it was; the feed and storage are kept and the status is "Fetching stories…" |
| Controller.Settle | popup/popup.js:107-120 | what the id-list answer does; stated by FailureKeepsDisplay and SuccessShowsAndCachesPage |
| Controller.Cycle | popup/popup.js:96-121 | one `fetchAndRender(force)`; stated by FailureKeepsDisplay, SuccessShowsAndCachesPage, ForcedIgnoresCache, CycleKeepsOtherSlots and CycleKeepsOtherFeeds |
| Controller.SwitchTab | popup/popup.js:13-20 | a tab click followed by an unforced cycle; stated by SwitchTabLoadsFeed |
| Controller.OptimisticShowsCache | popup/popup.js:97-104 | before any answer arrives, an unforced cycle shows the usable cached page and "Fetching stories…" |
| Controller.ForcedIgnoresCache | popup/popup.js:96-102 | a forced cycle does not paint from the cache, and its display and status do not depend on storage |
| Controller.FailureKeepsDisplay | popup/popup.js:117-120 | when the id list fails, the display is what was shown when the request went out, the status is the failure text, and feed and storage are unchanged |
| Controller.Updated | popup/popup.js:116 | "Updated " followed by the locale time text; stated by SuccessShowsAndCachesPage |
| Controller.SuccessShowsAndCachesPage | popup/popup.js:107-116 | when the id list arrives, the display is the rendered page, the status is "Updated …" even for an empty page, and, when the save time is non-zero, the page loads back from the cache for CACHE_TTL after it |
| Controller.CycleKeepsOtherSlots | popup/popup.js:115 | a cycle writes at most the current feed's slot; every other stored key keeps its value |
| Controller.CycleKeepsOtherFeeds | popup/popup.js:96-121 | a cycle leaves what every other feed loads unchanged |
| Controller.SwitchTabLoadsFeed | popup/popup.js:13-20 | a tab click makes its feed current, shows that feed's page or the failure text, and leaves other feeds' cached pages alone |
| Controller.Popup.constructor | popup/popup.js:3 | the script starts on the "top" feed with nothing displayed and storage as earlier sessions left it |
| Controller.Popup.RenderStories | popup/popup.js:38-66 | clearing the list and appending in a loop leaves exactly the state the render specification gives |
| Controller.Popup.SaveCache | popup/popup.js:68-71 | storage becomes the saved map for the current feed |
| Controller.Popup.LoadCache | popup/popup.js:73-84 | returns exactly what `Cache.Load` gives for the current feed at the given time |
| Controller.Popup.FetchAndRender | popup/popup.js:96-121 | the step-by-step cycle ends in the state the cycle specification gives |
| Controller.Popup.SelectTab | popup/popup.js:13-20 | sets the current feed and runs an unforced cycle |
| Controller.Popup.Refresh | popup/popup.js:11 | runs a forced cycle |

## Left out

- Network I/O and JSON decoding are not modelled. The answers are parameters, keyed by request URL.
- An item answer is either absent or a record whose fields have the expected types, with an id present. Other JSON shapes are not modelled.
- An id-list answer is a failure, `null`, or a list of integers. A value that makes `slice` or `map` throw behaves like the failure, and a falsy value behaves like `null`; neither is modelled separately.
- A cached `items` value that is truthy but not a list is not modelled. In the script it makes `renderStories` throw outside the `try`.
- `localStorage.setItem` throwing (for example, a full quota) is not modelled. In the script it would turn the status into the failure text after the page was rendered.
- `Promise.all` runs the look-ups concurrently; the model looks them up in sequence. Overlapping load cycles and their interleaved writes to the display are not modelled: each cycle runs to completion. The cache is affected too: `cacheKey()` reads the current feed when the save runs, so a "top" cycle that finishes after a switch to "new" saves the top page under the "new" key. Controller.CycleKeepsOtherFeeds and Controller.SwitchTabLoadsFeed hold only for cycles that do not overlap.
- The clock is read once per phase rather than at every `Date.now()` call: `startMs` serves the cache read and the ages of the cached paint, and `doneMs` serves the fetched render and the save.
- `toLocaleTimeString` is an opaque text parameter. `console.error` is left out.
- DOM mechanics are left out: the `active` class on the tab buttons, the `target`/`rel` link attributes, and element creation. The meta line's text is given by `Render.MetaLine` without a contract of its own.
- The initial call at line 123 is the constructor followed by `FetchAndRender(false, …)`. The page's initial status and list come from HTML outside the script, so the constructor starts them empty.
- NumberText.IntText: writes every digit. JavaScript uses exponent form from 10^21 and loses precision beyond 2^53; neither occurs for the timestamps, scores and counts involved.
