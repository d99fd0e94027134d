# Pen store model

A Dafny model of `PenService`, the in-memory store behind a CodePen-like
snippet playground. The store holds a mutable array of pens (each pen has an
id, a title, HTML/CSS/JavaScript text, an optional thumbnail, an embedded
author, view and like counters and two timestamps) and a counter that hands
out ids. Its operations are:

- reads: `getAll` (newest update first), `getById`, `getTrending` (top ten by
  likes plus views) and `search` (case-insensitive substring match on title or
  author name);
- writes: `create`, `update`, `delete`, `likePen` and `viewPen`.

Layout:

- `Text.dfy` (module `Text`): the whitespace set of JavaScript's `trim`, ASCII
  lower-casing, and a substring scan proved equal to "occurs at some position".
- `PenModel.dfy` (module `PenModel`): the `Pen`, `Author`, draft and patch
  records, the `||` defaulting used by `create`, the shallow merge used by
  `update`, the first-match `IndexOf`, `MaxId`, the id invariants and the
  timestamp invariant.
- `PenQueries.dfy` (module `PenQueries`): the read operations as functions of
  the stored sequence. A stable insertion sort serves as the reference for
  JavaScript's stable `Array.prototype.sort`.
- `PenStore.dfy` (module `PenStore`): class `PenService`, with a `seq<Pen>`
  field and an `int` counter that its methods update in place.
- `PenScenarios.dfy` (module `PenScenarios`): concrete examples of trending and
  search, plus two facts over any store: blank queries find nothing, and a
  delete followed by a create never reuses an id.

The store invariant `Valid()` says every stored id is below the counter.
The constructor sets it up. `Create`, `Delete`, `LikePen` and `ViewPen` keep it
unconditionally. `Update` keeps it when the patch does not supply an id at
or above the counter. The source spreads the caller's object over the stored
pen, so a caller can overwrite `Id`, `likes`, `views` and `createdAt`. The
model does not pretend those fields are protected.

Reads and in-place writes share pen objects in the code:

- `getAll`, `getTrending` and `search` return the store's own pen objects.
  Only the outer array is copied.
- `getById`, `create`, `update`, `likePen` and `viewPen` return `{ ...pen }`,
  which is shallow, so the nested author object stays shared.
- `likePen` and `viewPen` change the stored object in place. Any array an
  earlier read returned sees that change.

A value model cannot show this sharing; see "Left out".

A second invariant, `Stamped`, says no pen was updated before it was created.
The code does not enforce it, because it reads a wall clock and `update` may
overwrite `createdAt`. The model states when each write keeps it: `Create`
when its second clock reading is not earlier than its first, `LikePen` and
`ViewPen` when the clock is at or after every stored `updatedAt`, and `Update`
when in addition the patch's `createdAt` is absent or not after the clock.

## Model

| member | source | states |
|---|---|---|
| `PenStore.PenService.constructor` | src/services/api/penService.js:4-7 | the store starts as the seed pens; the counter is one past the largest seed id, so the counter is above every stored id |
| `PenStore.PenService.Create` | src/services/api/penService.js:43-70 | the new pen's id is the old counter, and the counter grows by exactly one; a missing or empty title becomes "Untitled Pen" and a non-empty one is kept; missing or empty html/css/javascript become "" and non-empty ones are kept; there is no thumbnail, the author is Anonymous, views and likes are 0; createdAt and updatedAt are the two clock readings; the pen goes in at index 0 with all earlier pens shifted unchanged; getById then finds it and getAll lists it; with the invariant, the id is larger than every earlier id, the invariant is kept, and unique ids stay unique; created-before-updated is kept when the second reading is not earlier |
| `PenStore.PenService.Update` | src/services/api/penService.js:72-90 | missing id: returns null and nothing changes; otherwise only the first matching index is replaced, by the merge of the patch over the old pen; the length and the counter are unchanged; updatedAt is now even if the patch supplies one; the id invariant is kept unless the patch supplies an id at or above the counter; unique ids stay unique unless the patch supplies a different id; created-before-updated is kept when the clock is at or after every stored updatedAt and the patch's createdAt is absent or not after it |
| `PenStore.PenService.Delete` | src/services/api/penService.js:92-102 | returns whether an id matched; removes exactly the first matching pen; the rest keep their relative order (a subsequence) and the length drops by one; the counter is untouched and above the deleted id, so that id is never handed out again; with unique ids, no pen with that id remains |
| `PenStore.PenService.LikePen` | src/services/api/penService.js:104-114 | missing id: returns null and nothing changes; otherwise the first matching pen's likes go up by exactly 1 and its updatedAt becomes now; every other field and every other pen is unchanged; the returned value is the stored record, and getById returns it; the id invariants are kept, and so is created-before-updated when the clock is at or after every stored updatedAt |
| `PenStore.PenService.ViewPen` | src/services/api/penService.js:116-126 | the same as LikePen for the views counter |
| `PenQueries.GetAll` | src/services/api/penService.js:14-17 | the result is a permutation of the store, sorted by non-increasing updatedAt; pens with equal updatedAt keep their store order |
| `PenQueries.GetById` | src/services/api/penService.js:19-23 | returns None exactly when no pen has the id; otherwise returns the pen at the first index with that id |
| `PenQueries.GetTrending` | src/services/api/penService.js:25-30 | returns min(10, n) pens, all drawn from the store (as a sub-multiset), in non-increasing likes+views; no pen left out is more popular than the last one kept; within one popularity, the kept pens are the earliest in store order |
| `PenQueries.SortDesc` | src/services/api/penService.js:27-28 | the stable sort's result is a permutation of its input, in non-increasing key order |
| `PenQueries.SortDescStable` | src/services/api/penService.js:27-28 | the sort keeps every class of equal keys in its original relative order |
| `PenQueries.Search` | src/services/api/penService.js:32-41 | a blank (all-whitespace) query gives []; otherwise the result is an order-preserving subsequence of the store; it holds every copy of each pen whose lower-cased title or author name contains the lower-cased, untrimmed query, and nothing else |
| `PenQueries.Filter` | src/services/api/penService.js:37-40 | the filter keeps the store order and keeps exactly the matching pens, each with its full multiplicity |
| `PenQueries.MatchesIsSubstring` | src/services/api/penService.js:37-40 | a pen matches exactly when the term occurs at some position of its lower-cased title or author name |
| `PenQueries.SearchIgnoresCase` | src/services/api/penService.js:34-39 | two queries that agree after ASCII lower-casing give the same result, blank check included |
| `Text.ContainsIsSubstring` | src/services/api/penService.js:38-39 | the `includes` scan is true exactly when the term occurs at some position |
| `Text.BlankLower` | src/services/api/penService.js:34-36 | a query is blank exactly when its lower-cased form is blank |
| `Text.LowerIdempotent` | src/services/api/penService.js:36 | lower-casing twice is lower-casing once |
| `Text.LowerChar` | src/services/api/penService.js:36 | A–Z move up by 32 code points, every other character is unchanged, and no result is upper-case |
| `PenModel.IndexOf` | src/services/api/penService.js:75 | -1 exactly when no pen has the id; otherwise a matching index with no match before it |
| `PenModel.IndexOfFirstMatch` | src/services/api/penService.js:107 | a matching index with no match before it is the one IndexOf (and so `find`) picks |
| `PenModel.MaxId` | src/services/api/penService.js:6 | the result is some stored id and at least every stored id |
| `PenModel.MergeNothing` | src/services/api/penService.js:78-82 | an empty patch only re-stamps updatedAt |
| `PenModel.MergeIgnoresUpdatedAt` | src/services/api/penService.js:78-82 | a patch's own updatedAt never reaches the stored pen |
| `PenModel.MergeIdempotent` | src/services/api/penService.js:78-82 | applying the same patch twice is applying it once, at the later instant |
| `PenModel.MergeFullPatch` | src/services/api/penService.js:78-82 | a patch that supplies every property decides the whole result; the old pen no longer shows through |
| `PenScenarios.TrendingOrdersByPopularity` | src/services/api/penService.js:27-29 | pens with likes+views 15 and 21 come back as [the 21 pen, the 15 pen] |
| `PenScenarios.SearchMatchesTitleOrAuthor` | src/services/api/penService.js:37-40 | "react" finds "React Tips" by its title and "Vue Basics" by its author "React Dev" |
| `PenScenarios.BlankQueriesFindNothing` | src/services/api/penService.js:34 | "" and "   " return [] on every store |
| `PenScenarios.DeleteThenCreate` | src/services/api/penService.js:47 | after a delete and a create, the new id differs from the deleted id and from every remaining id |

## Left out

- The simulated latency (`delay`) and the `async`/Promise wrapping are left out. Every operation is a synchronous method or function.
- The `localStorage` mirrors written by `create` and `update` and removed by `delete` are left out. They are browser I/O that no read consults.
- Timestamps are integer clock readings passed in by the caller (two for `create`, one for the other writes). The model does not cover ISO-8601 formatting or the `Date` parsing in `getAll`'s comparator.
- `parseInt(id)` is left out; ids are `int`. In the source, `parseInt` keeps the leading integer of a string id (`"7px"` and `"7.9"` give 7), and a string with no leading digits gives NaN and matches nothing.
- `Math.max` of an empty seed gives `-Infinity`. The constructor requires a non-empty seed instead.
- Lower-casing covers ASCII only. Full Unicode `toLowerCase` is not modelled. The whitespace test for `trim` does cover JavaScript's full set.
- Aliasing is left out. Pens are values, so the model cannot show two things sharing a pen: reads that hand out the store's own pen objects, the author object shared by a shallow `{ ...pen }` copy, or `likePen`/`viewPen` changing an object a caller already holds.
- Caller inputs of the wrong shape are left out. `create`'s draft is read only for title/html/css/javascript, and those are strings. `update`'s patch covers exactly the pen's own properties. Extra properties spread into a stored pen, and non-string values, are not modelled.
- The React hooks in `src/hooks/usePens.js` are not part of this model: loading/error state around the service.
- The debounced auto-save and the preview document in `src/components/organisms/CodeEditor.jsx` are not part of this model: a timer, plus string templating into an iframe.
- `src/components/pages/PenDetailPage.jsx`, `src/components/pages/SearchPage.jsx` and `src/components/molecules/SearchBar.jsx` are not part of this model: rendering, routing and the `pendingFork` hand-off.
- PenStore.PenService.Create: ids and the counter are unbounded integers. In the source they are JavaScript numbers. Once the largest id reaches 2^53, `Math.max(...) + 1` and `nextId++` stop growing, and a created id can repeat a stored one. Id freshness is proved only for unbounded integers.
- Storage failures are left out. `localStorage.setItem` can throw, for example when the quota is exceeded. `create` has already bumped the counter and inserted the pen at that point, and `update` has already replaced the pen. The caller then sees a rejected promise although the store has changed. In the model, `Create` and `Update` always succeed.
- PenStore.PenService.LikePen: likes are unbounded integers. In the source they are JavaScript numbers, so `likes += 1` is exact only below 2^53; at 2^53 the count stops growing, while the model still adds one.
- PenStore.PenService.ViewPen: views are unbounded integers. In the source `views += 1` is exact only below 2^53, as for likes.
- PenQueries.GetTrending: the popularity key `likes + views` is an exact integer sum. In the source it is a sum of JavaScript numbers, exact only while it stays below 2^53. Above that, two pens the source ties (and keeps in store order) can be ranked apart by the model.
- Non-integer counts are left out. A patch to `update` may store a fractional or NaN `likes`, `views`, `Id` or timestamp; the model's fields are integers and cannot hold such values.
