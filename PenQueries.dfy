/** The read-only queries of the pen store: listing by recency, lookup by id,
    the trending top ten and text search. Each is a function of the stored
    sequence, so none of them can change the store. */
module PenQueries {
  import opened Text
  import opened PenModel

  /** How many pens the trending list holds at most. */
  const TrendingLimit: nat := 10

  /** The two orders the store sorts by, each descending. */
  datatype Order = ByRecency | ByPopularity

  /** The number an order compares: `updatedAt`, or `likes + views`. */
  function Key(o: Order, p: Pen): int {
    match o
    case ByRecency => p.updatedAt
    case ByPopularity => p.likes + p.views
  }

  /** Sorted by `o`, largest key first. */
  ghost predicate NonIncreasing(s: seq<Pen>, o: Order) {
    forall i, j :: 0 <= i < j < |s| ==> Key(o, s[i]) >= Key(o, s[j])
  }

  /** The pens of `s` whose key is `v`, in their order in `s`. A sort is stable
      exactly when it leaves every such class in its original order. */
  function WithKey(s: seq<Pen>, o: Order, v: int): seq<Pen> {
    if s == [] then []
    else if Key(o, s[0]) == v then [s[0]] + WithKey(s[1..], o, v)
    else WithKey(s[1..], o, v)
  }

  lemma {:induction false} WithKeyAppend(a: seq<Pen>, b: seq<Pen>, o: Order, v: int)
    ensures WithKey(a + b, o, v) == WithKey(a, o, v) + WithKey(b, o, v)
  {
    if a == [] {
      assert a + b == b;
    } else {
      assert (a + b)[1..] == a[1..] + b;
      WithKeyAppend(a[1..], b, o, v);
    }
  }

  /** Places `x` after every pen whose key is strictly larger and before the
      rest, so among equal keys `x` comes first. */
  function Insert(x: Pen, s: seq<Pen>, o: Order): (r: seq<Pen>)
    ensures multiset(r) == multiset(s) + multiset{x}
    ensures forall y :: y in r <==> y in s || y == x
  {
    if s == [] || Key(o, s[0]) <= Key(o, x) then [x] + s
    else
      assert s == [s[0]] + s[1..];
      [s[0]] + Insert(x, s[1..], o)
  }

  /** Inserting into a sorted sequence keeps it sorted. */
  lemma {:induction false} InsertSorted(x: Pen, s: seq<Pen>, o: Order)
    requires NonIncreasing(s, o)
    ensures NonIncreasing(Insert(x, s, o), o)
  {
    if s == [] || Key(o, s[0]) <= Key(o, x) {
      var r := [x] + s;
      forall i, j | 0 <= i < j < |r| ensures Key(o, r[i]) >= Key(o, r[j]) {
        if i > 0 { assert r[i] == s[i - 1] && r[j] == s[j - 1]; }
      }
    } else {
      var rest := Insert(x, s[1..], o);
      InsertSorted(x, s[1..], o);
      var r := [s[0]] + rest;
      forall i, j | 0 <= i < j < |r| ensures Key(o, r[i]) >= Key(o, r[j]) {
        if i == 0 {
          assert r[j] in rest;
          if r[j] != x {
            var k :| 0 <= k < |s[1..]| && s[1..][k] == r[j];
            assert s[k + 1] == r[j];
          }
        } else {
          assert r[i] == rest[i - 1] && r[j] == rest[j - 1];
        }
      }
    }
  }

  /** Inserting `x` adds it at the front of its own key class and leaves the
      other classes alone. */
  lemma {:induction false} InsertWithKey(x: Pen, s: seq<Pen>, o: Order, v: int)
    ensures WithKey(Insert(x, s, o), o, v)
         == if Key(o, x) == v then [x] + WithKey(s, o, v) else WithKey(s, o, v)
  {
    if s == [] || Key(o, s[0]) <= Key(o, x) {
      assert ([x] + s)[1..] == s;
    } else {
      var rest := Insert(x, s[1..], o);
      assert ([s[0]] + rest)[1..] == rest;
      InsertWithKey(x, s[1..], o, v);
    }
  }

  /** A stable descending sort by `o` (insertion sort), the behaviour of
      `[...pens].sort((a, b) => key(b) - key(a))` under a stable `sort`. */
  function SortDesc(s: seq<Pen>, o: Order): (r: seq<Pen>)
    ensures multiset(r) == multiset(s)
    ensures NonIncreasing(r, o)
  {
    if s == [] then []
    else
      var rest := SortDesc(s[1..], o);
      assert s == [s[0]] + s[1..];
      InsertSorted(s[0], rest, o);
      Insert(s[0], rest, o)
  }

  /** The sort keeps every class of equal keys in its original order. */
  lemma {:induction false} SortDescStable(s: seq<Pen>, o: Order, v: int)
    ensures WithKey(SortDesc(s, o), o, v) == WithKey(s, o, v)
  {
    if s != [] {
      SortDescStable(s[1..], o, v);
      InsertWithKey(s[0], SortDesc(s[1..], o), o, v);
    }
  }

  /** `getAll`: every stored pen, most recently updated first; pens updated at
      the same instant keep their store order. */
  function GetAll(pens: seq<Pen>): (r: seq<Pen>)
    ensures multiset(r) == multiset(pens)
    ensures NonIncreasing(r, ByRecency)
    ensures forall v :: WithKey(r, ByRecency, v) == WithKey(pens, ByRecency, v)
  {
    var r := SortDesc(pens, ByRecency);
    forall v ensures WithKey(r, ByRecency, v) == WithKey(pens, ByRecency, v) {
      SortDescStable(pens, ByRecency, v);
    }
    r
  }

  /** `getById`: the first pen with that id, or `null`. */
  function GetById(pens: seq<Pen>, id: int): (r: Option<Pen>)
    ensures r.None? <==> forall i :: 0 <= i < |pens| ==> pens[i].id != id
    ensures r.Some? ==> exists i :: 0 <= i < |pens| && pens[i] == r.value && r.value.id == id
                          && forall j :: 0 <= j < i ==> pens[j].id != id
  {
    var i := IndexOf(pens, id);
    if i < 0 then None else Some(pens[i])
  }

  function Min(a: int, b: int): int {
    if a <= b then a else b
  }

  /** `getTrending`: the ten most popular pens (by `likes + views`), most
      popular first. Every pen left out is at most as popular as the last one
      kept, and within one popularity the kept pens are the first ones in
      store order. */
  function GetTrending(pens: seq<Pen>): (r: seq<Pen>)
    ensures |r| == Min(TrendingLimit, |pens|)
    ensures multiset(r) <= multiset(pens)
    ensures NonIncreasing(r, ByPopularity)
    ensures forall p :: p in multiset(pens) - multiset(r) ==>
              |r| > 0 && Key(ByPopularity, p) <= Key(ByPopularity, r[|r| - 1])
    ensures forall v :: WithKey(r, ByPopularity, v) <= WithKey(pens, ByPopularity, v)
  {
    var sorted := SortDesc(pens, ByPopularity);
    forall v ensures WithKey(sorted, ByPopularity, v) == WithKey(pens, ByPopularity, v) {
      SortDescStable(pens, ByPopularity, v);
    }
    assert |sorted| == |multiset(sorted)| == |multiset(pens)| == |pens|;
    var n := Min(TrendingLimit, |pens|);
    SplitMultiset(sorted, n);
    PrefixSorted(sorted, n, ByPopularity);
    PrefixOutranksRest(sorted, n, ByPopularity);
    PrefixKeepsClassOrder(pens, sorted, n, ByPopularity);
    sorted[..n]
  }

  lemma PrefixSorted(sorted: seq<Pen>, n: nat, o: Order)
    requires NonIncreasing(sorted, o)
    requires n <= |sorted|
    ensures NonIncreasing(sorted[..n], o)
  {
  }

  /** Nothing after the first `n` pens of a sorted sequence outranks the
      `n`-th. */
  lemma PrefixOutranksRest(sorted: seq<Pen>, n: nat, o: Order)
    requires NonIncreasing(sorted, o)
    requires n == |sorted| || 0 < n <= |sorted|
    ensures forall p :: p in multiset(sorted[n..]) ==> n > 0 && Key(o, p) <= Key(o, sorted[n - 1])
  {
    forall p | p in multiset(sorted[n..])
      ensures n > 0 && Key(o, p) <= Key(o, sorted[n - 1])
    {
      var j :| 0 <= j < |sorted[n..]| && sorted[n..][j] == p;
      assert sorted[n + j] == p;
    }
  }

  /** Cutting a stable sort of `pens` after `n` pens keeps, of each class of
      equal keys, a prefix of that class in `pens`. */
  lemma PrefixKeepsClassOrder(pens: seq<Pen>, sorted: seq<Pen>, n: nat, o: Order)
    requires forall v :: WithKey(sorted, o, v) == WithKey(pens, o, v)
    requires n <= |sorted|
    ensures forall v :: WithKey(sorted[..n], o, v) <= WithKey(pens, o, v)
  {
    forall v ensures WithKey(sorted[..n], o, v) <= WithKey(pens, o, v) {
      assert sorted == sorted[..n] + sorted[n..];
      WithKeyAppend(sorted[..n], sorted[n..], o, v);
    }
  }

  lemma SplitMultiset(s: seq<Pen>, n: nat)
    requires n <= |s|
    ensures multiset(s[..n]) <= multiset(s)
    ensures multiset(s) - multiset(s[..n]) == multiset(s[n..])
  {
    assert s == s[..n] + s[n..];
    assert multiset(s) == multiset(s[..n]) + multiset(s[n..]);
  }

  /** Whether a pen answers a lower-cased search term: its lower-cased title
      or author name contains the term. */
  function Matches(p: Pen, term: string): bool {
    Contains(Lower(p.title), term) || Contains(Lower(p.author.name), term)
  }

  /** `a` is `b` with some elements dropped, order kept. */
  ghost predicate SubsequenceOf(a: seq<Pen>, b: seq<Pen>)
    decreases |b|
  {
    if a == [] then true
    else if b == [] then false
    else (a[0] == b[0] && SubsequenceOf(a[1..], b[1..])) || SubsequenceOf(a, b[1..])
  }

  /** The pens that match `term`, in store order. */
  function Filter(pens: seq<Pen>, term: string): (r: seq<Pen>)
    ensures SubsequenceOf(r, pens)
    ensures forall p :: multiset(r)[p] == if Matches(p, term) then multiset(pens)[p] else 0
  {
    if pens == [] then []
    else
      var rest := Filter(pens[1..], term);
      assert pens == [pens[0]] + pens[1..];
      if Matches(pens[0], term) then
        assert ([pens[0]] + rest)[1..] == rest;
        [pens[0]] + rest
      else rest
  }

  /** `search`: nothing for a blank query; otherwise, in store order, every pen
      whose title or author name contains the lower-cased (untrimmed) query,
      ignoring ASCII case. */
  function Search(pens: seq<Pen>, query: string): (r: seq<Pen>)
    ensures Blank(query) ==> r == []
    ensures SubsequenceOf(r, pens)
    ensures forall p :: multiset(r)[p] ==
              if !Blank(query) && Matches(p, Lower(query)) then multiset(pens)[p] else 0
  {
    if Blank(query) then [] else Filter(pens, Lower(query))
  }

  /** A pen matches a term exactly when the term occurs in its lower-cased
      title or author name. */
  lemma MatchesIsSubstring(p: Pen, term: string)
    ensures Matches(p, term) <==>
      IsSubstring(term, Lower(p.title)) || IsSubstring(term, Lower(p.author.name))
  {
    ContainsIsSubstring(Lower(p.title), term);
    ContainsIsSubstring(Lower(p.author.name), term);
  }

  /** Two queries that differ only in ASCII case find the same pens. */
  lemma SearchIgnoresCase(pens: seq<Pen>, q1: string, q2: string)
    requires Lower(q1) == Lower(q2)
    ensures Search(pens, q1) == Search(pens, q2)
  {
    BlankLower(q1);
    BlankLower(q2);
  }
}
