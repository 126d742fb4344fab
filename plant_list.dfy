/** The plant-list screen: a search box and a row of type chips narrowing a
    fixed list of plants. */
module PlantList {
  import opened Strings

  /** A plant of the list; its picture is left out. */
  datatype Plant = Plant(id: int, name: string, plantType: string, daysPlanted: int)

  const SamplePlants: seq<Plant> := [
    Plant(1, "Tomato", "Fruit", 15),
    Plant(2, "Basil", "Herb", 30),
    Plant(3, "Lettuce", "Vegetable", 20),
    Plant(4, "Strawberry", "Fruit", 25),
    Plant(5, "Mint", "Herb", 12),
    Plant(6, "Carrot", "Vegetable", 18),
    Plant(7, "Pepper", "Fruit", 22),
    Plant(8, "Rosemary", "Herb", 35)
  ]

  const AllFilter: string := "All"

  /** The chips, in the order they are offered. */
  const Filters: seq<string> := [AllFilter, "Fruit", "Vegetable", "Herb"]

  /** The name or the type contains the query, ignoring case: the empty
      query matches every plant, and so does any exact part of its name or
      type. */
  predicate MatchesSearch(p: Plant, query: string)
    ensures query == "" ==> MatchesSearch(p, query)
    ensures Contains(p.name, query) || Contains(p.plantType, query) ==> MatchesSearch(p, query)
  {
    assert Lower("") == "";
    ContainsIgnoreCase(p.name, query) || ContainsIgnoreCase(p.plantType, query)
  }

  /** "All" lets every type through; any other chip needs that exact type. */
  predicate MatchesFilter(p: Plant, filter: string)
    ensures filter == AllFilter ==> MatchesFilter(p, filter)
    ensures filter != AllFilter ==> (MatchesFilter(p, filter) <==> p.plantType == filter)
  {
    filter == AllFilter || p.plantType == filter
  }

  /** A plant is listed when it passes both the search and the chip; with an
      empty query and the "All" chip every plant is. */
  predicate Matches(p: Plant, query: string, filter: string)
    ensures query == "" && filter == AllFilter ==> Matches(p, query, filter)
    ensures Matches(p, query, filter) ==> MatchesFilter(p, filter)
  {
    MatchesSearch(p, query) && MatchesFilter(p, filter)
  }

  /** `plants.filter { … }`: the matching plants, in list order. */
  function FilterPlants(plants: seq<Plant>, query: string, filter: string): (r: seq<Plant>)
    ensures |r| <= |plants|
    ensures forall i :: 0 <= i < |r| ==> r[i] in plants && Matches(r[i], query, filter)
    ensures forall i :: 0 <= i < |plants| && Matches(plants[i], query, filter) ==> plants[i] in r
    decreases |plants|
  {
    if |plants| == 0 then []
    else if Matches(plants[0], query, filter) then [plants[0]] + FilterPlants(plants[1..], query, filter)
    else FilterPlants(plants[1..], query, filter)
  }

  /** The filter works piece by piece, so it keeps the plants in their order. */
  lemma {:induction false} FilterConcat(a: seq<Plant>, b: seq<Plant>, query: string, filter: string)
    ensures FilterPlants(a + b, query, filter) == FilterPlants(a, query, filter) + FilterPlants(b, query, filter)
    decreases |a|
  {
    if |a| == 0 {
      assert a + b == b;
    } else {
      assert (a + b)[0] == a[0];
      assert (a + b)[1..] == a[1..] + b;
      FilterConcat(a[1..], b, query, filter);
    }
  }

  /** With an empty query and the "All" chip nothing is hidden. */
  lemma {:induction false} NothingHiddenByDefault(plants: seq<Plant>)
    ensures FilterPlants(plants, "", AllFilter) == plants
    decreases |plants|
  {
    if |plants| > 0 {
      NothingHiddenByDefault(plants[1..]);
      assert [plants[0]] + plants[1..] == plants;
    }
  }

  /** So the screen first shows all eight plants. */
  lemma InitiallyAllEightShown()
    ensures FilterPlants(SamplePlants, "", AllFilter) == SamplePlants
    ensures |SamplePlants| == 8
  {
    NothingHiddenByDefault(SamplePlants);
  }

  /** Lower-casing twice changes nothing more. */
  lemma LowerIdempotent(s: string)
    ensures Lower(Lower(s)) == Lower(s)
  {
  }

  /** The case of the query makes no difference. */
  lemma SearchIgnoresQueryCase(p: Plant, query: string)
    ensures MatchesSearch(p, query) <==> MatchesSearch(p, Lower(query))
  {
    LowerIdempotent(query);
  }

  /** Every sample plant has the type of one of the chips after "All". */
  lemma TypeChipsCoverSamples()
    ensures forall i :: 0 <= i < |SamplePlants| ==> SamplePlants[i].plantType in Filters[1..]
  {
  }

  /** The search box and the selected chip. */
  class PlantListScreen {
    var searchQuery: string
    var selectedFilter: string
    const plants: seq<Plant>

    constructor()
      ensures searchQuery == "" && selectedFilter == AllFilter && plants == SamplePlants
    {
      searchQuery := "";
      selectedFilter := AllFilter;
      plants := SamplePlants;
    }

    /** The plants on screen. */
    function Shown(): seq<Plant>
      reads this
    {
      FilterPlants(plants, searchQuery, selectedFilter)
    }

    /** The search box stores the text as typed. */
    method SetSearchQuery(query: string)
      modifies this
      ensures searchQuery == query && selectedFilter == old(selectedFilter)
    {
      searchQuery := query;
    }

    /** Choosing a chip changes only the selected filter. */
    method SelectFilter(filter: string)
      modifies this
      ensures selectedFilter == filter && searchQuery == old(searchQuery)
    {
      selectedFilter := filter;
    }
  }
}
