/** The strategy listing: the search, risk and category filters, the sort
    selected by the user, the risk badge colour, and the featured and full
    grids. The page keeps the listing in two arrays: the strategies it was
    given and the filtered list it shows. With no filter active the filtered
    list IS the strategies array, and the sort reorders that array in place. */
module StrategiesPage {
  import opened Wrappers
  import opened Text
  import opened Seqs
  import opened Sorting

  /** The fields of a strategy card the listing reads. APY and TVL are
      integers here (see the README). */
  datatype Card = Card(id: string, name: string, description: string, apy: int, risk: string,
                       tvl: int, category: string, tags: seq<string>, featured: bool)

  /** The value of a select that means "no filter". */
  const All := "all"

  // ------------------------------------------------------------- filters

  /** The search test: the lower-cased term occurs in the lower-cased name,
      description or some tag. */
  predicate MatchesSearch(c: Card, term: string): (r: bool)
    ensures term == "" ==> r
  {
    var t := ToLower(term);
    Contains(ToLower(c.name), t) || Contains(ToLower(c.description), t) || SomeLowerContains(c.tags, t)
  }

  function SearchHit(term: string): Card -> bool {
    (c: Card) => MatchesSearch(c, term)
  }

  function RiskIs(risk: string): Card -> bool {
    (c: Card) => ToLower(c.risk) == risk
  }

  function CategoryIs(category: string): Card -> bool {
    (c: Card) => c.category == category
  }

  /** The filter steps of the listing effect, each applied only when its
      control is set: a non-empty search term, a risk other than "all", a
      category other than "all". */
  function Select(s: seq<Card>, term: string, risk: string, category: string): (r: seq<Card>)
    ensures |r| <= |s|
    ensures forall c :: c in r <==> c in s && Keeps(c, term, risk, category)
  {
    var searched := if term != "" then Filter(s, SearchHit(term)) else s;
    var risked := if risk != All then Filter(searched, RiskIs(risk)) else searched;
    if category != All then Filter(risked, CategoryIs(category)) else risked
  }

  /** The conjunction of the active filters. */
  predicate Keeps(c: Card, term: string, risk: string, category: string) {
    (term == "" || MatchesSearch(c, term))
    && (risk == All || ToLower(c.risk) == risk)
    && (category == All || c.category == category)
  }

  function KeepsFn(term: string, risk: string, category: string): Card -> bool {
    (c: Card) => Keeps(c, term, risk, category)
  }

  /** The filter chain keeps exactly the cards that pass every active filter,
      in input order: it is one filter on the conjunction. */
  lemma SelectIsOneFilter(s: seq<Card>, term: string, risk: string, category: string)
    ensures Select(s, term, risk, category) == Filter(s, KeepsFn(term, risk, category))
  {
    assert Select(s, term, risk, category)
        == FilterIf(FilterIf(FilterIf(s, term != "", SearchHit(term)), risk != All, RiskIs(risk)),
                    category != All, CategoryIs(category));
    FilterChain(s, term != "", SearchHit(term), risk != All, RiskIs(risk), category != All, CategoryIs(category),
                KeepsFn(term, risk, category));
  }

  /** With no control set, nothing is filtered out. */
  lemma SelectNothing(s: seq<Card>)
    ensures Select(s, "", All, All) == s
  {
  }

  // ------------------------------------------------------------- sort

  /** `riskOrder[risk]`: undefined for any other spelling. */
  function RiskRank(risk: string): (r: Option<int>)
    ensures r.Some? <==> risk == "Low" || risk == "Medium" || risk == "High"
    ensures r.Some? ==> 1 <= r.value <= 3
  {
    if risk == "Low" then Some(1)
    else if risk == "Medium" then Some(2)
    else if risk == "High" then Some(3)
    else None
  }

  /** `riskOrder[a] - riskOrder[b]`; an undefined rank makes the difference
      `NaN`, which the sort reads as 0. */
  function RiskDiff(a: string, b: string): int {
    match (RiskRank(a), RiskRank(b))
    case (Some(x), Some(y)) => x - y
    case _ => 0
  }

  /** The comparator the listing sorts with for the selected key. */
  function Comparator(sortBy: string): (r: (Card, Card) -> int)
    ensures forall a, b :: r(a, b) == -r(b, a)
  {
    NamesAntisymmetric();
    if sortBy == "apy" then (a: Card, b: Card) => b.apy - a.apy
    else if sortBy == "tvl" then (a: Card, b: Card) => b.tvl - a.tvl
    else if sortBy == "risk" then (a: Card, b: Card) => RiskDiff(a.risk, b.risk)
    else if sortBy == "name" then (a: Card, b: Card) => Compare(a.name, b.name)
    else (a: Card, b: Card) => 0
  }

  /** Swapping two cards flips the sign of their name comparison. */
  lemma NamesAntisymmetric()
    ensures forall a: Card, b: Card :: Compare(a.name, b.name) == -Compare(b.name, a.name)
  {
    forall a: Card, b: Card ensures Compare(a.name, b.name) == -Compare(b.name, a.name) {
      CompareAntisymmetric(b.name, a.name);
    }
  }

  /** Sorting by "apy" gives non-increasing APY. */
  lemma ApyDescending(t: seq<Card>)
    ensures var r := SortSeq(t, Comparator("apy"));
      forall i, j :: 0 <= i < j < |r| ==> r[i].apy >= r[j].apy
  {
    SortSorts(t, Comparator("apy"), t);
  }

  /** Sorting by "tvl" gives non-increasing TVL. */
  lemma TvlDescending(t: seq<Card>)
    ensures var r := SortSeq(t, Comparator("tvl"));
      forall i, j :: 0 <= i < j < |r| ==> r[i].tvl >= r[j].tvl
  {
    SortSorts(t, Comparator("tvl"), t);
  }

  /** Sorting by "risk" orders Low before Medium before High, when every
      card has one of those three spellings. */
  lemma RiskAscending(t: seq<Card>)
    requires forall c :: c in t ==> RiskRank(c.risk).Some?
    ensures var r := SortSeq(t, Comparator("risk"));
      forall i, j :: 0 <= i < j < |r| ==> RiskRank(r[i].risk).GetOr(0) <= RiskRank(r[j].risk).GetOr(0)
  {
    var cmp := Comparator("risk");
    SortSorts(t, cmp, t);
    var r := SortSeq(t, cmp);
    forall i, j | 0 <= i < j < |r|
      ensures RiskRank(r[i].risk).GetOr(0) <= RiskRank(r[j].risk).GetOr(0)
    {
      SortMember(t, cmp, r[i]);
      SortMember(t, cmp, r[j]);
      assert cmp(r[i], r[j]) <= 0;
    }
  }

  /** Sorting by "name" orders names ascending, character by character. */
  lemma NameAscending(t: seq<Card>)
    ensures var r := SortSeq(t, Comparator("name"));
      forall i, j :: 0 <= i < j < |r| ==> Compare(r[i].name, r[j].name) <= 0
  {
    var cmp := Comparator("name");
    forall x, y | x in t && y in t ensures cmp(x, y) <= 0 || cmp(y, x) <= 0 {
      CompareAntisymmetric(x.name, y.name);
    }
    forall x, y, z | x in t && y in t && z in t && cmp(x, y) <= 0 && cmp(y, z) <= 0
      ensures cmp(x, z) <= 0
    {
      CompareTransitive(x.name, y.name, z.name);
    }
    SortSorts(t, cmp, t);
  }

  /** Any other key compares every pair as equal, so the order is kept. */
  lemma OtherKeyKeepsOrder(t: seq<Card>, sortBy: string)
    requires sortBy != "apy" && sortBy != "tvl" && sortBy != "risk" && sortBy != "name"
    ensures SortSeq(t, Comparator(sortBy)) == t
  {
    SortKeepsOrder(t, Comparator(sortBy));
  }

  /** Filters only remove and the sort only reorders: the listing is a
      permutation of the cards that pass every active filter. */
  lemma ListingIsFilteredPermutation(s: seq<Card>, term: string, risk: string, category: string, sortBy: string)
    ensures multiset(SortSeq(Select(s, term, risk, category), Comparator(sortBy)))
         == multiset(Filter(s, KeepsFn(term, risk, category)))
  {
    SelectIsOneFilter(s, term, risk, category);
    SortPermutes(Select(s, term, risk, category), Comparator(sortBy));
  }

  // ------------------------------------------------------------- badges

  const LowColor := "bg-green-500/20 text-green-400 border-green-500/30"
  const MediumColor := "bg-yellow-500/20 text-yellow-400 border-yellow-500/30"
  const HighColor := "bg-red-500/20 text-red-400 border-red-500/30"
  const OtherColor := "bg-gray-500/20 text-gray-400 border-gray-500/30"

  /** `getRiskColor`: the badge classes for a risk, ignoring case. */
  function RiskColor(risk: string): (r: string)
    ensures ToLower(risk) == "low" <==> r == LowColor
    ensures ToLower(risk) == "medium" <==> r == MediumColor
    ensures ToLower(risk) == "high" <==> r == HighColor
  {
    var k := ToLower(risk);
    if k == "low" then LowColor
    else if k == "medium" then MediumColor
    else if k == "high" then HighColor
    else OtherColor
  }

  /** The colour depends on the risk only up to case. */
  lemma RiskColorIgnoresCase(risk: string)
    ensures RiskColor(ToLower(risk)) == RiskColor(risk)
  {
    ToLowerIdempotent(risk);
  }

  // ------------------------------------------------------------- grids

  datatype AllGrid = Cards(cards: seq<Card>) | NoResults

  /** The two sections below the filters: the featured grid, shown only
      when some card is featured, and the grid of all cards, or the "No
      strategies found" panel when there is none. */
  datatype Listing = Listing(featured: Option<seq<Card>>, all: AllGrid)

  function IsFeatured(c: Card): bool {
    c.featured
  }

  function Sections(shown: seq<Card>): (r: Listing)
    ensures r.featured.Some? <==> exists i :: 0 <= i < |shown| && shown[i].featured
    ensures r.featured.Some? ==> forall c :: c in r.featured.value <==> c in shown && c.featured
    ensures r.featured.Some? ==> r.featured.value == Filter(shown, IsFeatured)
    ensures r.all == (if |shown| > 0 then Cards(shown) else NoResults)
  {
    var anyFeatured := exists i :: 0 <= i < |shown| && shown[i].featured;
    Listing(if anyFeatured then Some(Filter(shown, IsFeatured)) else None,
            if |shown| > 0 then Cards(shown) else NoResults)
  }

  /** A featured card is shown twice: in the featured grid and in the grid of
      all cards. */
  lemma FeaturedAlsoInAll(shown: seq<Card>, c: Card)
    requires Sections(shown).featured.Some? && c in Sections(shown).featured.value
    ensures Sections(shown).all.Cards? && c in Sections(shown).all.cards
  {
  }

  // ------------------------------------------------------------- the page

  class StrategiesView {
    /** The strategies state: never replaced, but reordered in place. */
    const strategies: array<Card>
    /** The filtered-strategies state. */
    var filtered: array<Card>
    var searchTerm: string
    var selectedRisk: string
    var selectedCategory: string
    var sortBy: string
    /** The list on screen: the contents of the filtered state at the last
        render. Sorting an array in place does not render the page again. */
    var shown: seq<Card>

    /** Both states start as the same array, so with no filter active the
        filtered state is the strategies array itself; with one active it is
        another array. */
    predicate Valid()
      reads this
    {
      (filtered == strategies) == !Active()
    }

    /** The first render shows `data` in its given order. The mount effect
        then sorts the strategies array by APY in place and hands the same
        array back, so React does not render again and the screen keeps the
        given order. */
    constructor (data: seq<Card>)
      ensures Valid() && fresh(strategies)
      ensures searchTerm == "" && selectedRisk == All && selectedCategory == All && sortBy == "apy"
      ensures filtered == strategies && strategies[..] == SortSeq(data, Comparator("apy"))
      ensures shown == data
    {
      strategies := new Card[|data|](i requires 0 <= i < |data| => data[i]);
      searchTerm, selectedRisk, selectedCategory, sortBy := "", All, All, "apy";
      shown := data;
      new;
      filtered := strategies;
      assert strategies[..] == data;
      Refresh();
      SelectNothing(data);
    }

    predicate Active()
      reads this
    {
      searchTerm != "" || selectedRisk != All || selectedCategory != All
    }

    /** The filtered state is `input` put through the filters and the sort. */
    ghost predicate Shows(input: seq<Card>)
      reads this, filtered
    {
      filtered[..] == SortSeq(Select(input, searchTerm, selectedRisk, selectedCategory), Comparator(sortBy))
    }

    /** The listing effect. With no filter active the strategies array is
        sorted in place and becomes the filtered state; otherwise a new array
        of the cards that pass is sorted, and the strategies array is left
        alone. Setting the filtered state renders the page only when the
        array is a different one. */
    method Refresh()
      modifies this, strategies
      ensures searchTerm == old(searchTerm) && selectedRisk == old(selectedRisk)
      ensures selectedCategory == old(selectedCategory) && sortBy == old(sortBy)
      ensures Shows(old(strategies[..]))
      ensures Valid()
      ensures !Active() ==> filtered == strategies
      ensures Active() ==> fresh(filtered) && strategies[..] == old(strategies[..])
      ensures filtered != old(filtered) ==> shown == filtered[..]
      ensures filtered == old(filtered) ==> shown == old(shown)
    {
      ghost var input := strategies[..];
      var previous := filtered;
      if !Active() {
        filtered := strategies;
        SelectNothing(input);
      } else {
        var s := Select(strategies[..], searchTerm, selectedRisk, selectedCategory);
        filtered := new Card[|s|](i requires 0 <= i < |s| => s[i]);
      }
      assert filtered[..] == Select(input, searchTerm, selectedRisk, selectedCategory);
      InsertionSort(filtered, Comparator(sortBy));
      if filtered != previous {
        shown := filtered[..];
      }
    }

    /** Typing a search term. The same term changes nothing (React skips the
        update); a different one always changes which array the filtered
        state is, so the effect's result reaches the screen. */
    method SetSearchTerm(term: string)
      requires Valid()
      modifies this, strategies
      ensures Valid()
      ensures searchTerm == term && selectedRisk == old(selectedRisk)
      ensures selectedCategory == old(selectedCategory) && sortBy == old(sortBy)
      ensures term == old(searchTerm) ==> filtered == old(filtered) && shown == old(shown)
                                          && strategies[..] == old(strategies[..])
      ensures term != old(searchTerm) ==> Shows(old(strategies[..])) && shown == filtered[..]
    {
      if term != searchTerm {
        searchTerm := term;
        shown := filtered[..];
        Refresh();
      }
    }

    /** Choosing a risk level; as for the search term. */
    method SetRisk(risk: string)
      requires Valid()
      modifies this, strategies
      ensures Valid()
      ensures selectedRisk == risk && searchTerm == old(searchTerm)
      ensures selectedCategory == old(selectedCategory) && sortBy == old(sortBy)
      ensures risk == old(selectedRisk) ==> filtered == old(filtered) && shown == old(shown)
                                            && strategies[..] == old(strategies[..])
      ensures risk != old(selectedRisk) ==> Shows(old(strategies[..])) && shown == filtered[..]
    {
      if risk != selectedRisk {
        selectedRisk := risk;
        shown := filtered[..];
        Refresh();
      }
    }

    /** Choosing a category; as for the search term. */
    method SetCategory(category: string)
      requires Valid()
      modifies this, strategies
      ensures Valid()
      ensures selectedCategory == category && searchTerm == old(searchTerm)
      ensures selectedRisk == old(selectedRisk) && sortBy == old(sortBy)
      ensures category == old(selectedCategory) ==> filtered == old(filtered) && shown == old(shown)
                                                    && strategies[..] == old(strategies[..])
      ensures category != old(selectedCategory) ==> Shows(old(strategies[..])) && shown == filtered[..]
    {
      if category != selectedCategory {
        selectedCategory := category;
        shown := filtered[..];
        Refresh();
      }
    }

    /** Choosing a sort key. The same key changes nothing. A new key renders
        the page before the effect runs; with a filter active the effect's
        new array then reaches the screen, but with none active the
        strategies array is sorted in place, handed back unchanged as a
        reference, and the screen keeps the order it had. */
    method SetSortBy(key: string)
      requires Valid()
      modifies this, strategies
      ensures Valid()
      ensures sortBy == key && searchTerm == old(searchTerm)
      ensures selectedRisk == old(selectedRisk) && selectedCategory == old(selectedCategory)
      ensures key == old(sortBy) ==> filtered == old(filtered) && shown == old(shown)
                                     && strategies[..] == old(strategies[..])
      ensures key != old(sortBy) ==> Shows(old(strategies[..]))
      ensures key != old(sortBy) && Active() ==> shown == filtered[..]
      ensures key != old(sortBy) && !Active() ==> shown == old(strategies[..])
    {
      if key != sortBy {
        sortBy := key;
        shown := filtered[..];
        Refresh();
      }
    }

    /** "Clear Filters", a button of the "No strategies found" panel only:
        search, risk and category go back to their initial values in one
        update; the sort key stays. When a filter was active the strategies
        array, sorted, becomes the filtered state and is shown; when none was,
        React skips the update. */
    method ClearFilters()
      requires Valid() && |shown| == 0
      modifies this, strategies
      ensures Valid()
      ensures searchTerm == "" && selectedRisk == All && selectedCategory == All
      ensures sortBy == old(sortBy) && filtered == strategies
      ensures old(Active()) ==> strategies[..] == SortSeq(old(strategies[..]), Comparator(sortBy))
                                && shown == strategies[..]
      ensures !old(Active()) ==> shown == old(shown) && strategies[..] == old(strategies[..])
    {
      if Active() {
        searchTerm, selectedRisk, selectedCategory := "", All, All;
        shown := filtered[..];
        Refresh();
        SelectNothing(old(strategies[..]));
      }
    }

    /** What the page shows below the filters. */
    function View(): (r: Listing)
      reads this
      ensures r.all.NoResults? <==> |shown| == 0
      ensures r.all.Cards? ==> r.all.cards == shown
    {
      Sections(shown)
    }
  }
}
