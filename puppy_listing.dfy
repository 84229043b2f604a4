/** The pet listing page: a search box matched case-insensitively against
    breed and name, and a price band chosen from "all", "low", "mid" and
    "high" (any value other than the first three acts as "high"). */
module PuppyListing {
  import opened Common
  import opened Catalog

  /** The search term occurs in the lower-cased breed or name. */
  predicate MatchesSearch(p: Pet, term: string)
  {
    Includes(Lower(p.breed), Lower(term)) || Includes(Lower(p.name), Lower(term))
  }

  /** The price band test on `priceMin`. */
  predicate MatchesPrice(p: Pet, range: string)
  {
    if range == "all" then true
    else if range == "low" then p.priceMin < 20000
    else if range == "mid" then p.priceMin >= 20000 && p.priceMin < 30000
    else p.priceMin >= 30000
  }

  /** The pets the page shows: those that pass both tests, in list order. */
  function FilteredPets(pets: seq<Pet>, term: string, range: string): (r: seq<Pet>)
    ensures SubsequenceOf(r, pets)
    ensures forall p :: p in r <==> p in pets && MatchesSearch(p, term) && MatchesPrice(p, range)
  {
    Filter(pets, (p: Pet) => MatchesSearch(p, term) && MatchesPrice(p, range))
  }

  /** The search test holds exactly when the lower-cased term occurs at some
      position of the lower-cased breed or of the lower-cased name. */
  lemma SearchMeansOccurrence(p: Pet, term: string)
    ensures MatchesSearch(p, term) <==>
      OccursIn(Lower(p.breed), Lower(term)) || OccursIn(Lower(p.name), Lower(term))
  {
    IncludesIff(Lower(p.breed), Lower(term));
    IncludesIff(Lower(p.name), Lower(term));
  }

  /** The search ignores the case of the term. */
  lemma SearchIgnoresCase(p: Pet, term: string)
    ensures MatchesSearch(p, term) <==> MatchesSearch(p, Lower(term))
  {
    LowerIdempotent(term);
  }

  /** An empty search term matches every pet. */
  lemma EmptySearchMatchesAll(p: Pet)
    ensures MatchesSearch(p, "")
  {
    IncludesEmpty(Lower(p.breed));
  }

  /** The "all" band admits every pet, and "low", "mid" and "high" split the
      pets into three disjoint bands. */
  lemma PriceBandsPartition(p: Pet)
    ensures MatchesPrice(p, "all")
    ensures MatchesPrice(p, "low") || MatchesPrice(p, "mid") || MatchesPrice(p, "high")
    ensures !(MatchesPrice(p, "low") && MatchesPrice(p, "mid"))
    ensures !(MatchesPrice(p, "low") && MatchesPrice(p, "high"))
    ensures !(MatchesPrice(p, "mid") && MatchesPrice(p, "high"))
  {
  }

  /** "Clear all filters" (`""`, `"all"`) shows the whole list, in order. */
  lemma {:induction false} ClearedFiltersShowAll(pets: seq<Pet>)
    ensures FilteredPets(pets, "", "all") == pets
  {
    forall p | p in pets
      ensures MatchesSearch(p, "") && MatchesPrice(p, "all")
    {
      EmptySearchMatchesAll(p);
    }
    FilterKeepsAll(pets, (p: Pet) => MatchesSearch(p, "") && MatchesPrice(p, "all"));
  }
}
