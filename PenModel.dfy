/** The pen record and the pure pieces the pen store is built from: the field
    defaults of a new pen, the shallow merge of an update, the first-match
    lookup by id, and the invariants the store keeps about ids. */
module PenModel {

  /** `null` / an absent property, or a present value. */
  datatype Option<T> = None | Some(value: T)

  /** The embedded author record `{ name, avatar, id }`. */
  datatype Author = Author(name: string, avatar: Option<string>, id: string)

  /** One pen. Timestamps are instants on an integer clock rather than ISO
      strings; counters and ids are unbounded integers. */
  datatype Pen = Pen(
    id: int,
    title: string,
    html: string,
    css: string,
    javascript: string,
    thumbnail: Option<string>,
    author: Author,
    views: int,
    likes: int,
    createdAt: int,
    updatedAt: int)

  /** What `create` reads from its argument: each field may be missing. */
  datatype PenDraft = PenDraft(
    title: Option<string>,
    html: Option<string>,
    css: Option<string>,
    javascript: Option<string>)

  /** The partial record given to `update`: every property a caller may spread
      over the stored pen, each present or absent. `thumbnail` is present-or-absent
      around a nullable value. */
  datatype PenPatch = PenPatch(
    id: Option<int>,
    title: Option<string>,
    html: Option<string>,
    css: Option<string>,
    javascript: Option<string>,
    thumbnail: Option<Option<string>>,
    author: Option<Author>,
    views: Option<int>,
    likes: Option<int>,
    createdAt: Option<int>,
    updatedAt: Option<int>)

  /** The patch that supplies nothing. */
  const NoChanges: PenPatch :=
    PenPatch(None, None, None, None, None, None, None, None, None, None, None)

  const DefaultTitle: string := "Untitled Pen"

  /** The author every created pen gets. */
  const Anonymous: Author := Author("Anonymous", None, "anonymous")

  /** JavaScript's `given || fallback` on a string property: a missing value and
      the empty string are both falsy and give way to the fallback. */
  function OrDefault(given: Option<string>, fallback: string): string {
    if given.Some? && given.value != "" then given.value else fallback
  }

  function Pick<T>(supplied: Option<T>, kept: T): T {
    if supplied.Some? then supplied.value else kept
  }

  /** `{ ...p, ...patch, updatedAt: now }`: supplied properties win, the rest of
      `p` is kept, and `updatedAt` is `now` whatever the patch says. */
  function Merge(p: Pen, patch: PenPatch, now: int): Pen {
    Pen(
      id := Pick(patch.id, p.id),
      title := Pick(patch.title, p.title),
      html := Pick(patch.html, p.html),
      css := Pick(patch.css, p.css),
      javascript := Pick(patch.javascript, p.javascript),
      thumbnail := Pick(patch.thumbnail, p.thumbnail),
      author := Pick(patch.author, p.author),
      views := Pick(patch.views, p.views),
      likes := Pick(patch.likes, p.likes),
      createdAt := Pick(patch.createdAt, p.createdAt),
      updatedAt := now)
  }

  /** An empty patch only re-stamps the pen. */
  lemma MergeNothing(p: Pen, now: int)
    ensures Merge(p, NoChanges, now) == p.(updatedAt := now)
  {
  }

  /** The patch's own `updatedAt` never reaches the stored pen. */
  lemma MergeIgnoresUpdatedAt(p: Pen, patch: PenPatch, stamp: Option<int>, now: int)
    ensures Merge(p, patch.(updatedAt := stamp), now) == Merge(p, patch, now)
  {
  }

  /** Applying the same patch twice is applying it once (at the later instant). */
  lemma MergeIdempotent(p: Pen, patch: PenPatch, first: int, now: int)
    ensures Merge(Merge(p, patch, first), patch, now) == Merge(p, patch, now)
  {
  }

  /** A patch that supplies every property replaces the whole pen: the old
      record no longer shows through. */
  lemma MergeFullPatch(p: Pen, q: Pen, patch: PenPatch, now: int)
    requires patch.id.Some? && patch.title.Some? && patch.html.Some? && patch.css.Some?
    requires patch.javascript.Some? && patch.thumbnail.Some? && patch.author.Some?
    requires patch.views.Some? && patch.likes.Some? && patch.createdAt.Some?
    ensures Merge(p, patch, now) == Merge(q, patch, now)
  {
  }

  /** Index of the first pen with id `id`, or -1: `findIndex(p => p.Id === id)`. */
  function IndexOf(pens: seq<Pen>, id: int): (r: int)
    ensures -1 <= r < |pens|
    ensures r == -1 <==> forall j :: 0 <= j < |pens| ==> pens[j].id != id
    ensures r >= 0 ==> pens[r].id == id && forall j :: 0 <= j < r ==> pens[j].id != id
  {
    if pens == [] then -1
    else if pens[0].id == id then 0
    else
      var k := IndexOf(pens[1..], id);
      if k < 0 then -1 else k + 1
  }

  /** The index of a match with no match before it is what `IndexOf` finds. */
  lemma IndexOfFirstMatch(pens: seq<Pen>, id: int, i: int)
    requires 0 <= i < |pens| && pens[i].id == id
    requires forall j :: 0 <= j < i ==> pens[j].id != id
    ensures IndexOf(pens, id) == i
  {
    var k := IndexOf(pens, id);
    assert k != -1 by { assert pens[i].id == id; }
  }

  /** The largest id in a non-empty collection: `Math.max(...ids)`. */
  function MaxId(pens: seq<Pen>): (m: int)
    requires pens != []
    ensures exists i :: 0 <= i < |pens| && pens[i].id == m
    ensures forall i :: 0 <= i < |pens| ==> pens[i].id <= m
  {
    if |pens| == 1 then pens[0].id
    else
      var rest := MaxId(pens[1..]);
      if pens[0].id >= rest then pens[0].id else rest
  }

  /** Every stored id is below the counter, so the counter's value is fresh. */
  ghost predicate IdsBelow(pens: seq<Pen>, next: int) {
    forall i :: 0 <= i < |pens| ==> pens[i].id < next
  }

  /** No two stored pens share an id. */
  ghost predicate UniqueIds(pens: seq<Pen>) {
    forall i, j :: 0 <= i < j < |pens| ==> pens[i].id != pens[j].id
  }

  /** Every stored pen was updated no earlier than it was created. The source
      does not enforce this: it holds while the clock does not run backwards
      and no update supplies a later `createdAt`. */
  ghost predicate Stamped(pens: seq<Pen>) {
    forall i :: 0 <= i < |pens| ==> pens[i].createdAt <= pens[i].updatedAt
  }

  /** The clock reads `now` or later than every stored `updatedAt`. */
  ghost predicate ClockAfter(pens: seq<Pen>, now: int) {
    forall i :: 0 <= i < |pens| ==> pens[i].updatedAt <= now
  }
}
