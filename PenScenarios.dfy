/** Concrete examples of trending and search, plus two facts over any store:
    blank queries find nothing, and a delete followed by a create never reuses
    an id. */
module PenScenarios {
  import opened Text
  import opened PenModel
  import opened PenQueries
  import opened PenStore

  function Sample(id: int, title: string, author: string, likes: int, views: int): Pen {
    Pen(id, title, "", "", "", None, Author(author, None, author), views, likes, 0, 0)
  }

  /** With popularities 15 and 21, the more popular second pen leads. */
  lemma TrendingOrdersByPopularity()
    ensures var p1 := Sample(1, "A", "Ana", 5, 10);
      var p2 := Sample(2, "B", "Bo", 20, 1);
      GetTrending([p1, p2]) == [p2, p1]
  {
    var p1 := Sample(1, "A", "Ana", 5, 10);
    var p2 := Sample(2, "B", "Bo", 20, 1);
    assert SortDesc([p2], ByPopularity) == [p2];
    assert [p1, p2][1..] == [p2];
  }

  /** "react" finds one pen by its title and another by its author's name. */
  lemma SearchMatchesTitleOrAuthor()
    ensures var tips := Sample(1, "React Tips", "Ana", 0, 0);
      var vue := Sample(2, "Vue Basics", "React Dev", 0, 0);
      Search([tips, vue], "react") == [tips, vue]
  {
    var tips := Sample(1, "React Tips", "Ana", 0, 0);
    var vue := Sample(2, "Vue Basics", "React Dev", 0, 0);
    assert !IsWhitespace("react"[0]);
    assert Lower("react") == "react";
    assert Lower(tips.title)[..5] == "react";
    assert Lower(vue.author.name)[..5] == "react";
    assert Matches(tips, "react") && Matches(vue, "react");
    assert [tips, vue][1..] == [vue];
  }

  /** Blank queries find nothing, even in a store where every pen would match
      the empty string. */
  lemma BlankQueriesFindNothing(pens: seq<Pen>)
    ensures Search(pens, "") == [] && Search(pens, "   ") == []
  {
  }

  /** A deleted pen's id is not handed out again: the next created pen gets a
      different id, and so does every pen still stored. */
  method DeleteThenCreate(store: PenService, id: int, draft: PenDraft, t0: int, t1: int)
    returns (deleted: bool, created: Pen)
    requires store.Valid()
    modifies store
    ensures deleted ==> created.id != id
    ensures store.Valid()
    ensures forall i :: 1 <= i < |store.pens| ==> store.pens[i].id != created.id
  {
    deleted := store.Delete(id);
    created := store.Create(draft, t0, t1);
  }
}
