/** The in-memory pen store: a mutable sequence of pens and an id counter,
    with the operations that change them in place. Reads go through the
    functions of PenQueries over `pens`. */
module PenStore {
  import opened PenModel
  import opened PenQueries

  class PenService {
    /** The authoritative pens, newest creation first. */
    var pens: seq<Pen>
    /** The id the next created pen receives. */
    var nextId: int

    /** The counter is above every stored id, so the id it hands out is fresh. */
    ghost predicate Valid()
      reads this
    {
      IdsBelow(pens, nextId)
    }

    /** Starts from a copy of the seed pens, with the counter one past the
        largest seed id. */
    constructor (seed: seq<Pen>)
      requires seed != []
      ensures pens == seed
      ensures nextId == MaxId(seed) + 1
      ensures Valid()
    {
      pens := seed;
      nextId := MaxId(seed) + 1;
    }

    /** `create`: a pen with the counter's id and the draft's text (empty text
        falls back to the defaults) goes in at the head of the store. The
        source reads the clock twice, for `createdAt` and then `updatedAt`. */
    method Create(draft: PenDraft, created: int, updated: int) returns (p: Pen)
      modifies this
      ensures p.id == old(nextId) && nextId == old(nextId) + 1
      ensures draft.title.None? || draft.title == Some("") ==> p.title == DefaultTitle
      ensures draft.title.Some? && draft.title.value != "" ==> p.title == draft.title.value
      ensures draft.html.Some? && draft.html.value != "" ==> p.html == draft.html.value
      ensures draft.html.None? || draft.html == Some("") ==> p.html == ""
      ensures draft.css.Some? && draft.css.value != "" ==> p.css == draft.css.value
      ensures draft.css.None? || draft.css == Some("") ==> p.css == ""
      ensures draft.javascript.Some? && draft.javascript.value != "" ==> p.javascript == draft.javascript.value
      ensures draft.javascript.None? || draft.javascript == Some("") ==> p.javascript == ""
      ensures p.title != ""
      ensures p.thumbnail == None && p.author == Anonymous
      ensures p.views == 0 && p.likes == 0
      ensures p.createdAt == created && p.updatedAt == updated
      ensures pens == [p] + old(pens)
      ensures GetById(pens, p.id) == Some(p)
      ensures p in GetAll(pens)
      ensures old(Valid()) ==> Valid() && forall i :: 0 <= i < |old(pens)| ==> old(pens)[i].id < p.id
      ensures old(Valid()) && old(UniqueIds(pens)) ==> UniqueIds(pens)
      ensures old(Stamped(pens)) && created <= updated ==> Stamped(pens)
    {
      p := Pen(
        id := nextId,
        title := OrDefault(draft.title, DefaultTitle),
        html := OrDefault(draft.html, ""),
        css := OrDefault(draft.css, ""),
        javascript := OrDefault(draft.javascript, ""),
        thumbnail := None,
        author := Anonymous,
        views := 0,
        likes := 0,
        createdAt := created,
        updatedAt := updated);
      nextId := nextId + 1;
      ListedAtHead(p, pens);
      pens := [p] + pens;
      IndexOfFirstMatch(pens, p.id, 0);
    }

    /** `update`: the first pen with that id is replaced by the merge of the
        patch over it, stamped `now`; a missing id changes nothing. */
    method Update(id: int, patch: PenPatch, now: int) returns (r: Option<Pen>)
      modifies this
      ensures nextId == old(nextId) && |pens| == |old(pens)|
      ensures var i := IndexOf(old(pens), id);
        if i < 0 then r == None && pens == old(pens)
        else r == Some(Merge(old(pens)[i], patch, now)) && pens == old(pens)[i := r.value]
      ensures r.Some? ==> r.value.updatedAt == now
      ensures old(Valid()) && (patch.id.None? || patch.id.value < nextId) ==> Valid()
      ensures old(UniqueIds(pens)) && (patch.id.None? || patch.id == Some(id)) ==> UniqueIds(pens)
      ensures old(Stamped(pens)) && old(ClockAfter(pens, now)) && (patch.createdAt.None? || patch.createdAt.value <= now)
        ==> Stamped(pens)
    {
      var i := IndexOf(pens, id);
      if i < 0 {
        return None;
      }
      var updated := Merge(pens[i], patch, now);
      pens := pens[i := updated];
      r := Some(updated);
    }

    /** `delete`: the first pen with that id leaves the store, the others keep
        their order; the counter stays, so the id is never handed out again. */
    method Delete(id: int) returns (ok: bool)
      modifies this
      ensures nextId == old(nextId)
      ensures var i := IndexOf(old(pens), id);
        && ok == (i >= 0)
        && pens == if i < 0 then old(pens) else old(pens)[..i] + old(pens)[i + 1..]
      ensures ok ==> |pens| == |old(pens)| - 1
      ensures SubsequenceOf(pens, old(pens))
      ensures old(Valid()) ==> Valid() && (ok ==> id < nextId)
      ensures old(UniqueIds(pens)) ==> UniqueIds(pens) && GetById(pens, id) == None
    {
      var i := IndexOf(pens, id);
      if i < 0 {
        SubsequenceOfSelf(pens);
        return false;
      }
      DropIsSubsequence(pens, i);
      ghost var before := pens;
      pens := pens[..i] + pens[i + 1..];
      ok := true;
      if UniqueIds(before) {
        forall j | 0 <= j < |pens| ensures pens[j].id != id {
          if j < i {
            assert pens[j] == before[j];
          } else {
            assert pens[j] == before[j + 1];
          }
        }
      }
    }

    /** `likePen`: one more like and a fresh `updatedAt` on the first pen with
        that id; the new record is returned. */
    method LikePen(id: int, now: int) returns (r: Option<Pen>)
      modifies this
      ensures nextId == old(nextId) && |pens| == |old(pens)|
      ensures var i := IndexOf(old(pens), id);
        if i < 0 then r == None && pens == old(pens)
        else
          var q := old(pens)[i];
          r == Some(q.(likes := q.likes + 1, updatedAt := now)) && pens == old(pens)[i := r.value]
      ensures r.Some? ==> GetById(pens, id) == r
      ensures old(Valid()) ==> Valid()
      ensures old(UniqueIds(pens)) ==> UniqueIds(pens)
      ensures old(Stamped(pens)) && old(ClockAfter(pens, now)) ==> Stamped(pens)
    {
      var i := IndexOf(pens, id);
      if i < 0 {
        return None;
      }
      var liked := pens[i].(likes := pens[i].likes + 1, updatedAt := now);
      pens := pens[i := liked];
      r := Some(liked);
      IndexOfFirstMatch(pens, id, i);
    }

    /** `viewPen`: one more view and a fresh `updatedAt` on the first pen with
        that id; the new record is returned. */
    method ViewPen(id: int, now: int) returns (r: Option<Pen>)
      modifies this
      ensures nextId == old(nextId) && |pens| == |old(pens)|
      ensures var i := IndexOf(old(pens), id);
        if i < 0 then r == None && pens == old(pens)
        else
          var q := old(pens)[i];
          r == Some(q.(views := q.views + 1, updatedAt := now)) && pens == old(pens)[i := r.value]
      ensures r.Some? ==> GetById(pens, id) == r
      ensures old(Valid()) ==> Valid()
      ensures old(UniqueIds(pens)) ==> UniqueIds(pens)
      ensures old(Stamped(pens)) && old(ClockAfter(pens, now)) ==> Stamped(pens)
    {
      var i := IndexOf(pens, id);
      if i < 0 {
        return None;
      }
      var viewed := pens[i].(views := pens[i].views + 1, updatedAt := now);
      pens := pens[i := viewed];
      r := Some(viewed);
      IndexOfFirstMatch(pens, id, i);
    }
  }

  /** A pen put at the head of the store is among the pens `getAll` lists. */
  lemma ListedAtHead(p: Pen, rest: seq<Pen>)
    ensures p in GetAll([p] + rest)
  {
    assert p in multiset([p] + rest);
  }

  lemma {:induction false} SubsequenceOfSelf(s: seq<Pen>)
    ensures SubsequenceOf(s, s)
  {
    if s != [] {
      SubsequenceOfSelf(s[1..]);
    }
  }

  /** Dropping the pen at index `i` leaves a subsequence. */
  lemma {:induction false} DropIsSubsequence(s: seq<Pen>, i: nat)
    requires i < |s|
    ensures SubsequenceOf(s[..i] + s[i + 1..], s)
  {
    if i == 0 {
      assert s[..0] + s[1..] == s[1..];
      SubsequenceOfSelf(s[1..]);
    } else {
      var d := s[..i] + s[i + 1..];
      DropIsSubsequence(s[1..], i - 1);
      assert d[0] == s[0];
      assert d[1..] == s[1..][..i - 1] + s[1..][i..];
    }
  }
}
