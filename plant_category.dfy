/** The plant-category screen: category cards and a trailing "Add Custom" card
    laid out four to a page, and the dialog that adds a category. */
module PlantCategory {
  import opened Strings

  datatype Card = CategoryCard(name: string) | AddCustomCard

  /** Cards per page: a 2 by 2 grid. */
  const CardsPerGrid: nat := 4

  const InitialCategories: seq<string> := ["Fruits", "Vegies", "Herbs"]

  function Min(a: int, b: int): int { if a < b then a else b }

  /** The card at position `i` of the strip: the categories in order, then the
      "Add Custom" card. */
  function CardAt(categories: seq<string>, i: nat): (c: Card)
    requires i <= |categories|
    ensures c == AddCustomCard <==> i == |categories|
    ensures i < |categories| ==> c == CategoryCard(categories[i])
  {
    if i < |categories| then CategoryCard(categories[i]) else AddCustomCard
  }

  /** `(totalCards + cardsPerGrid - 1) / cardsPerGrid`: the ceiling of the
      cards over four, the fewest pages that hold them all. */
  function PageCount(totalCards: nat): (pages: nat)
    ensures CardsPerGrid * (pages - 1) < totalCards || totalCards == 0
    ensures totalCards <= CardsPerGrid * pages
  {
    (totalCards + CardsPerGrid - 1) / CardsPerGrid
  }

  lemma PageStartBelowTotal(totalCards: nat, g: nat)
    requires g < PageCount(totalCards)
    ensures g * CardsPerGrid < totalCards
  {
  }

  /** The size of page `g`: `minOf(start + 4, total) - start`. */
  function PageSize(totalCards: nat, g: nat): (n: nat)
    requires g < PageCount(totalCards)
    ensures 1 <= n <= CardsPerGrid
  {
    PageStartBelowTotal(totalCards, g);
    Min(g * CardsPerGrid + CardsPerGrid, totalCards) - g * CardsPerGrid
  }

  /** The pages the screen draws, as a value: every page holds one to four
      cards, and only the last page may hold fewer than four. */
  function Pages(categories: seq<string>): (pages: seq<seq<Card>>)
    ensures |pages| == PageCount(|categories| + 1)
    ensures forall g :: 0 <= g < |pages| ==> 1 <= |pages[g]| <= CardsPerGrid
    ensures forall g :: 0 <= g < |pages| - 1 ==> |pages[g]| == CardsPerGrid
  {
    var total := |categories| + 1;
    seq(PageCount(total), g requires 0 <= g < PageCount(total) =>
      seq(PageSize(total, g), k requires 0 <= k < PageSize(total, g) => CardAt(categories, g * CardsPerGrid + k)))
  }

  /** Every card of the strip sits on exactly one page, at slot `i % 4` of page
      `i / 4`, so the pages cover the strip with no gap and no overlap. */
  lemma PagesPartition(categories: seq<string>, i: nat)
    requires i <= |categories|
    ensures i / CardsPerGrid < |Pages(categories)|
    ensures i % CardsPerGrid < |Pages(categories)[i / CardsPerGrid]|
    ensures Pages(categories)[i / CardsPerGrid][i % CardsPerGrid] == CardAt(categories, i)
  {
    var total := |categories| + 1;
    var g := i / CardsPerGrid;
    assert g < PageCount(total);
    assert i == g * CardsPerGrid + i % CardsPerGrid;
  }

  /** "Add Custom" is the last card of the last page. */
  lemma AddCustomLast(categories: seq<string>)
    ensures |Pages(categories)| > 0
    ensures var last := Pages(categories)[|Pages(categories)| - 1];
      |last| > 0 && last[|last| - 1] == AddCustomCard
  {
    var total := |categories| + 1;
    var g := PageCount(total) - 1;
    PagesPartition(categories, |categories|);
    assert |categories| / CardsPerGrid == g;
    assert PageSize(total, g) - 1 == |categories| % CardsPerGrid;
  }

  /** `repeat(numberOfGrids)` with `for (i in startIndex until endIndex)`. */
  method LayoutGrids(categories: seq<string>) returns (grids: seq<seq<Card>>)
    ensures grids == Pages(categories)
  {
    var totalCards := |categories| + 1;
    var numberOfGrids := (totalCards + CardsPerGrid - 1) / CardsPerGrid;
    grids := [];
    for gridIndex := 0 to numberOfGrids
      invariant grids == Pages(categories)[..gridIndex]
    {
      var startIndex := gridIndex * CardsPerGrid;
      var endIndex := Min(startIndex + CardsPerGrid, totalCards);
      PageStartBelowTotal(totalCards, gridIndex);
      var page: seq<Card> := [];
      for i := startIndex to endIndex
        invariant |page| == i - startIndex
        invariant forall k :: 0 <= k < |page| ==> page[k] == CardAt(categories, startIndex + k)
      {
        if i < |categories| {
          page := page + [CategoryCard(categories[i])];
        } else {
          page := page + [AddCustomCard];
        }
      }
      assert page == Pages(categories)[gridIndex];
      grids := grids + [page];
    }
  }

  /** The three starting categories and "Add Custom" fill one page. */
  lemma InitialLayout()
    ensures Pages(InitialCategories) ==
      [[CategoryCard("Fruits"), CategoryCard("Vegies"), CategoryCard("Herbs"), AddCustomCard]]
  {
    var p := Pages(InitialCategories);
    assert PageCount(4) == 1;
    assert PageSize(4, 0) == 4;
    assert p[0] == [CardAt(InitialCategories, 0), CardAt(InitialCategories, 1), CardAt(InitialCategories, 2), CardAt(InitialCategories, 3)];
  }

  /** `plantCategories`, `customPlantName` and `showAddDialog`. */
  class CategoryPicker {
    var categories: seq<string>
    var customPlantName: string
    var showAddDialog: bool

    constructor()
      ensures categories == InitialCategories && customPlantName == "" && !showAddDialog
    {
      categories := InitialCategories;
      customPlantName := "";
      showAddDialog := false;
    }

    /** Clicking the "Add Custom" card. */
    method OpenAddDialog()
      modifies this
      ensures showAddDialog && categories == old(categories) && customPlantName == old(customPlantName)
    {
      showAddDialog := true;
    }

    /** The name field stores what is typed. */
    method TypeName(name: string)
      modifies this
      ensures customPlantName == name && categories == old(categories) && showAddDialog == old(showAddDialog)
    {
      customPlantName := name;
    }

    /** "Add": a name that is not blank is appended, the field cleared and the
        dialog closed; a blank name changes nothing. */
    method Confirm()
      modifies this
      ensures !IsBlank(old(customPlantName)) ==>
        categories == old(categories) + [old(customPlantName)] && customPlantName == "" && !showAddDialog
      ensures IsBlank(old(customPlantName)) ==>
        categories == old(categories) && customPlantName == old(customPlantName) && showAddDialog == old(showAddDialog)
    {
      if !IsBlank(customPlantName) {
        categories := categories + [customPlantName];
        customPlantName := "";
        showAddDialog := false;
      }
    }

    /** "Cancel": the field is cleared and the dialog closed. */
    method Cancel()
      modifies this
      ensures categories == old(categories) && customPlantName == "" && !showAddDialog
    {
      customPlantName := "";
      showAddDialog := false;
    }

    /** Tapping outside the dialog closes it but keeps the typed name. */
    method Dismiss()
      modifies this
      ensures categories == old(categories) && customPlantName == old(customPlantName) && !showAddDialog
    {
      showAddDialog := false;
    }
  }

  /** A confirmed category takes the place just before "Add Custom", which
      moves one card along. */
  lemma ConfirmedCategoryPrecedesAddCustom(categories: seq<string>, name: string)
    ensures CardAt(categories + [name], |categories|) == CategoryCard(name)
    ensures CardAt(categories + [name], |categories| + 1) == AddCustomCard
    ensures forall i :: 0 <= i < |categories| ==> CardAt(categories + [name], i) == CardAt(categories, i)
  {
  }
}
