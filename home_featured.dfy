/** The home page's featured pets: a copy of the stored list sorted by id,
    largest first (the latest added), of which the first three are shown.
    JavaScript's `sort` is stable, so pets with equal ids keep their list
    order; the sort is modelled as a stable insertion sort. */
module HomeFeatured {
  import opened Common
  import opened Catalog

  /** How many pets the home page features. */
  const FeaturedCount: nat := 3

  /** Ids never increase along the list. */
  predicate IdsNonIncreasing(s: seq<Pet>)
  {
    forall i, j :: 0 <= i < j < |s| ==> s[i].id >= s[j].id
  }

  /** The pets of `s` whose id is `v`, in list order. */
  function WithId(s: seq<Pet>, v: int): (r: seq<Pet>)
    ensures forall x :: x in r <==> x in s && x.id == v
    ensures forall x :: multiset(r)[x] == if x.id == v then multiset(s)[x] else 0
    ensures SubsequenceOf(r, s)
  {
    if s == [] then []
    else
      assert s == [s[0]] + s[1..];
      var rest := WithId(s[1..], v);
      if s[0].id == v then
        assert ([s[0]] + rest)[1..] == rest;
        [s[0]] + rest
      else rest
  }

  /** `p` placed into a list sorted largest-id first, ahead of the first pet
      whose id is not larger than its own. */
  function InsertById(p: Pet, t: seq<Pet>): (r: seq<Pet>)
    ensures |r| == |t| + 1
    ensures multiset(r) == multiset(t) + multiset{p}
  {
    if t == [] || p.id >= t[0].id then [p] + t
    else
      assert t == [t[0]] + t[1..];
      [t[0]] + InsertById(p, t[1..])
  }

  /** The first pet of a list sorted largest-id first has the largest id. */
  lemma SortedHeadIsLargest(t: seq<Pet>)
    requires IdsNonIncreasing(t) && t != []
    ensures forall x :: x in t ==> x.id <= t[0].id
  {
    forall x | x in t ensures x.id <= t[0].id {
      var k :| 0 <= k < |t| && t[k] == x;
    }
  }

  /** A pet whose id is at least every id of a sorted list may go first. */
  lemma ConsKeepsOrder(h: Pet, t: seq<Pet>)
    requires IdsNonIncreasing(t)
    requires forall x :: x in t ==> x.id <= h.id
    ensures IdsNonIncreasing([h] + t)
  {
    var r := [h] + t;
    forall i, j | 0 <= i < j < |r| ensures r[i].id >= r[j].id {
      assert r[j] == t[j - 1];
      if i > 0 {
        assert r[i] == t[i - 1];
      } else {
        assert t[j - 1] in t;
      }
    }
  }

  /** Inserting into a list sorted largest-id first keeps it sorted. */
  lemma {:induction false} InsertKeepsOrder(p: Pet, t: seq<Pet>)
    requires IdsNonIncreasing(t)
    ensures IdsNonIncreasing(InsertById(p, t))
    decreases |t|
  {
    if t == [] || p.id >= t[0].id {
      if t != [] {
        SortedHeadIsLargest(t);
      }
      ConsKeepsOrder(p, t);
    } else {
      var tail := t[1..];
      assert IdsNonIncreasing(tail) by {
        forall i, j | 0 <= i < j < |tail| ensures tail[i].id >= tail[j].id {
          assert tail[i] == t[i + 1] && tail[j] == t[j + 1];
        }
      }
      InsertKeepsOrder(p, tail);
      var rest := InsertById(p, tail);
      SortedHeadIsLargest(t);
      forall x | x in rest ensures x.id <= t[0].id {
        assert x in multiset(rest);
        if x != p {
          assert x in multiset(tail);
          assert x in t;
        }
      }
      ConsKeepsOrder(t[0], rest);
    }
  }

  /** A pet with a smaller id than every pet of the list goes to its end. */
  lemma {:induction false} InsertSmallestGoesLast(p: Pet, t: seq<Pet>)
    requires forall x :: x in t ==> x.id > p.id
    ensures InsertById(p, t) == t + [p]
    decreases |t|
  {
    if t != [] {
      assert t[0] in t;
      assert forall x :: x in t[1..] ==> x in t;
      InsertSmallestGoesLast(p, t[1..]);
      assert t == [t[0]] + t[1..];
    }
  }

  /** Inserting `p` adds it ahead of the pets that share its id and leaves
      the order among every other id alone. */
  lemma {:induction false} InsertKeepsEqualIdOrder(p: Pet, t: seq<Pet>, v: int)
    requires IdsNonIncreasing(t)
    ensures WithId(InsertById(p, t), v) == if p.id == v then [p] + WithId(t, v) else WithId(t, v)
    decreases |t|
  {
    if t == [] || p.id >= t[0].id {
      assert ([p] + t)[1..] == t;
      if p.id == v && t != [] && t[0].id != v {
        // p.id == v but t[0].id < v, so no pet of t has id v
        assert forall x :: x in t ==> x.id <= t[0].id by {
          forall x | x in t ensures x.id <= t[0].id {
            var k :| 0 <= k < |t| && t[k] == x;
          }
        }
      }
    } else {
      var rest := InsertById(p, t[1..]);
      assert ([t[0]] + rest)[1..] == rest;
      InsertKeepsEqualIdOrder(p, t[1..], v);
      if p.id == v {
        assert t[0].id > v;
      }
    }
  }

  /** `[...pets].sort((a, b) => b.id - a.id)`. */
  function SortByIdDesc(s: seq<Pet>): (r: seq<Pet>)
    ensures |r| == |s|
    ensures multiset(r) == multiset(s)
    ensures IdsNonIncreasing(r)
  {
    if s == [] then []
    else
      assert s == [s[0]] + s[1..];
      var sortedTail := SortByIdDesc(s[1..]);
      InsertKeepsOrder(s[0], sortedTail);
      InsertById(s[0], sortedTail)
  }

  /** The sort is stable: for every id, the pets with that id come out in
      the order they had in the list. */
  lemma {:induction false} SortIsStable(s: seq<Pet>, v: int)
    ensures WithId(SortByIdDesc(s), v) == WithId(s, v)
    decreases |s|
  {
    if s != [] {
      SortIsStable(s[1..], v);
      InsertKeepsEqualIdOrder(s[0], SortByIdDesc(s[1..]), v);
    }
  }

  /** The featured pets: the first three of the sorted copy. */
  function FeaturedPets(pets: seq<Pet>): (r: seq<Pet>)
    ensures |r| == if |pets| < FeaturedCount then |pets| else FeaturedCount
    ensures IdsNonIncreasing(r)
    ensures multiset(r) <= multiset(pets)
  {
    var sorted := SortByIdDesc(pets);
    var k := if |pets| < FeaturedCount then |pets| else FeaturedCount;
    assert sorted == sorted[..k] + sorted[k..];
    sorted[..k]
  }

  /** What a prefix leaves out of a list is the rest of the list. */
  lemma SplitMultiset(s: seq<Pet>, k: nat)
    requires k <= |s|
    ensures multiset(s) - multiset(s[..k]) == multiset(s[k..])
  {
    assert s == s[..k] + s[k..];
  }

  /** In a list sorted largest-id first, a pet past position `k` has an id no
      larger than any pet before it. */
  lemma PrefixHasLargestIds(sorted: seq<Pet>, k: nat, x: Pet, y: Pet)
    requires IdsNonIncreasing(sorted) && k <= |sorted|
    requires x in sorted[k..] && y in sorted[..k]
    ensures x.id <= y.id
  {
    var i :| 0 <= i < |sorted[k..]| && sorted[k..][i] == x;
    var j :| 0 <= j < k && sorted[..k][j] == y;
    assert sorted[k + i] == x && sorted[j] == y;
  }

  /** Every pet left out of the featured ones has an id no larger than any
      featured pet's: the featured pets are the ones with the largest ids. */
  lemma LeftOutPetsHaveSmallerIds(pets: seq<Pet>)
    ensures var r := FeaturedPets(pets);
      forall x, y :: x in multiset(pets) - multiset(r) && y in r ==> x.id <= y.id
  {
    var sorted := SortByIdDesc(pets);
    var r := FeaturedPets(pets);
    var k := |r|;
    assert r == sorted[..k];
    SplitMultiset(sorted, k);
    forall x, y | x in multiset(pets) - multiset(r) && y in r
      ensures x.id <= y.id
    {
      assert x in multiset(sorted[k..]);
      PrefixHasLargestIds(sorted, k, x, y);
    }
  }

  /** `s` back to front. */
  function Reversed(s: seq<Pet>): (r: seq<Pet>)
    ensures |r| == |s|
    ensures forall i :: 0 <= i < |s| ==> r[i] == s[|s| - 1 - i]
  {
    if s == [] then [] else Reversed(s[1..]) + [s[0]]
  }

  /** A list whose ids strictly increase (pets added one after another)
      sorts to its reverse: the latest added comes first. */
  lemma {:induction false} IncreasingIdsSortToReverse(s: seq<Pet>)
    requires forall i, j :: 0 <= i < j < |s| ==> s[i].id < s[j].id
    ensures SortByIdDesc(s) == Reversed(s)
    decreases |s|
  {
    if s != [] {
      var tail := s[1..];
      forall i, j | 0 <= i < j < |tail| ensures tail[i].id < tail[j].id {
        assert tail[i] == s[i + 1] && tail[j] == s[j + 1];
      }
      IncreasingIdsSortToReverse(tail);
      forall x | x in Reversed(tail) ensures x.id > s[0].id {
        var k :| 0 <= k < |tail| && Reversed(tail)[k] == x;
        assert x == tail[|tail| - 1 - k] == s[|tail| - k];
      }
      InsertSmallestGoesLast(s[0], Reversed(tail));
      assert SortByIdDesc(s) == InsertById(s[0], SortByIdDesc(tail));
      assert Reversed(s) == Reversed(tail) + [s[0]];
    }
  }

  /** When pets were added one after another with growing ids, the home
      page features the last three added, newest first. */
  lemma LatestAddedAreFeatured(pets: seq<Pet>)
    requires forall i, j :: 0 <= i < j < |pets| ==> pets[i].id < pets[j].id
    requires |pets| >= FeaturedCount
    ensures FeaturedPets(pets) == [pets[|pets| - 1], pets[|pets| - 2], pets[|pets| - 3]]
  {
    IncreasingIdsSortToReverse(pets);
  }

  /** With the seed list, the home page features Coco, Luna and Rocky. */
  lemma SeedFeatured(pets: seq<Pet>)
    requires pets == SeedPets
    ensures FeaturedPets(pets) == [Coco, Luna, Rocky]
  {
    assert forall i, j :: 0 <= i < j < |pets| ==> pets[i].id < pets[j].id;
    LatestAddedAreFeatured(pets);
  }
}
