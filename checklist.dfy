/** The document checklist toggle both checklist panels use: an id that is present is removed
    (every occurrence), an id that is absent is appended. */
module Checklist {
  import opened Lists

  function Differs(x: string): string -> bool
  {
    (y: string) => y != x
  }

  /** `ids.filter(id => id !== x)`. */
  function Without(ids: seq<string>, x: string): seq<string>
  {
    Filter(ids, Differs(x))
  }

  /** Toggle `x`: afterwards `x` is listed iff it was not before, and no other id changes its
      number of occurrences. */
  function Toggle(ids: seq<string>, x: string): (r: seq<string>)
    ensures x in r <==> x !in ids
    ensures x in ids ==> r == Without(ids, x)
    ensures x !in ids ==> r == ids + [x]
    ensures forall y :: y != x ==> multiset(r)[y] == multiset(ids)[y]
  {
    if x in ids then
      var r := Without(ids, x);
      forall y | y != x
        ensures multiset(r)[y] == multiset(ids)[y]
      {
        FilterMultiplicity(ids, Differs(x), y);
      }
      r
    else
      ids + [x]
  }

  /** Toggling an absent id twice gives back the original list. */
  lemma ToggleAbsentTwice(ids: seq<string>, x: string)
    requires x !in ids
    ensures Toggle(Toggle(ids, x), x) == ids
  {
    FilterAppend(ids, [x], Differs(x));
    FilterKeepsAll(ids, Differs(x));
    assert Filter([x], Differs(x)) == [];
  }
}
