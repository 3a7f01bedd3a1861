/**
 The favourites list kept by the opportunities and travel pages: a list of
 ids, where toggling an id removes every copy of it when present and appends
 it at the end otherwise.
 */
module Favorites {
  import opened Seqs

  /** `prev.includes(id) ? prev.filter(x => x !== id) : [...prev, id]`. */
  function Toggle(favorites: seq<string>, id: string): (r: seq<string>)
    ensures id in r <==> id !in favorites
    ensures forall x :: x != id ==> (x in r <==> x in favorites)
    ensures id !in favorites ==> r == favorites + [id]
    ensures id in favorites ==> |r| < |favorites|
  {
    if id in favorites then
      FilterShrinks(favorites, x => x != id, id);
      Filter(favorites, x => x != id)
    else favorites + [id]
  }

  /** Filtering out an element that is present makes the list strictly shorter. */
  lemma {:induction false} FilterShrinks(s: seq<string>, p: string -> bool, x: string)
    requires x in s && !p(x)
    ensures |Filter(s, p)| < |s|
  {
    if s[0] != x {
      FilterShrinks(s[1..], p, x);
    }
  }

  /** Removing an id keeps the remaining ids in their order, each as often as before. */
  lemma ToggleRemoves(favorites: seq<string>, id: string)
    requires id in favorites
    ensures SubsequenceOf(Toggle(favorites, id), favorites)
    ensures forall x :: x != id ==> multiset(Toggle(favorites, id))[x] == multiset(favorites)[x]
  {
    FilterSubsequence(favorites, x => x != id);
    FilterMultiset(favorites, x => x != id);
  }

  /** Every id occurs at most once. */
  ghost predicate Distinct(favorites: seq<string>) {
    forall x :: multiset(favorites)[x] <= 1
  }

  /** Toggling keeps a list free of duplicates. */
  lemma ToggleKeepsDistinct(favorites: seq<string>, id: string)
    requires Distinct(favorites)
    ensures Distinct(Toggle(favorites, id))
  {
    if id in favorites {
      FilterMultiset(favorites, x => x != id);
    } else {
      assert multiset(favorites + [id]) == multiset(favorites) + multiset{id};
    }
  }

  /** Adding an id and then toggling it again restores the list exactly. */
  lemma ToggleTwice(favorites: seq<string>, id: string)
    requires id !in favorites
    ensures Toggle(Toggle(favorites, id), id) == favorites
  {
    var p := (x: string) => x != id;
    FilterAppend(favorites, [id], p);
    FilterAll(favorites, p);
    assert Filter([id], p) == [];
  }
}
