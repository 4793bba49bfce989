/**
 * The interest page: the user's favourite pets, narrowed by the same
 * location and category filters as the home feed, with an interest toggle
 * per card and an empty state that depends on whether any favourite exists.
 */
module InterestPage {
  import opened Filters
  import opened InterestCard

  predicate IsFavourite(pet: InterestPet) {
    pet.isFavourite
  }

  /** Both filters accept the pet (the home feed's rule on this page's record). */
  predicate FiltersMatch(categoryFilter: string, locationFilter: string, pet: InterestPet) {
    CategoryMatches(categoryFilter, pet.category) && LocationMatches(locationFilter, pet.location)
  }

  /** The page's filter callback: non-favourites are rejected first, then both filters apply. */
  predicate Shown(categoryFilter: string, locationFilter: string, pet: InterestPet) {
    if !pet.isFavourite then false else FiltersMatch(categoryFilter, locationFilter, pet)
  }

  /** The cards the grid shows, in list order. */
  function VisiblePets(pets: seq<InterestPet>, categoryFilter: string, locationFilter: string): (r: seq<InterestPet>)
    ensures forall i :: 0 <= i < |r| ==>
      r[i] in pets && r[i].isFavourite && FiltersMatch(categoryFilter, locationFilter, r[i])
    ensures forall i :: 0 <= i < |pets| && pets[i].isFavourite && FiltersMatch(categoryFilter, locationFilter, pets[i]) ==>
      pets[i] in r
  {
    Filter(pets, (p: InterestPet) => Shown(categoryFilter, locationFilter, p))
  }

  /** `pets.filter(p => p.isFavourite)`. */
  function Favourites(pets: seq<InterestPet>): seq<InterestPet> {
    Filter(pets, IsFavourite)
  }

  /** The page is the home feed's filter applied to the favourites, so its cards keep the favourites' order. */
  lemma VisibleFiltersFavourites(pets: seq<InterestPet>, categoryFilter: string, locationFilter: string)
    ensures VisiblePets(pets, categoryFilter, locationFilter)
      == Filter(Favourites(pets), (p: InterestPet) => FiltersMatch(categoryFilter, locationFilter, p))
    ensures Subsequence(VisiblePets(pets, categoryFilter, locationFilter), Favourites(pets))
  {
    var matches := (p: InterestPet) => FiltersMatch(categoryFilter, locationFilter, p);
    FilterFilter(pets, IsFavourite, matches, (p: InterestPet) => Shown(categoryFilter, locationFilter, p));
    FilterIsSubsequence(Favourites(pets), matches);
  }

  /** With the initial filters the page shows exactly the favourites. */
  lemma DefaultFiltersShowFavourites(pets: seq<InterestPet>)
    ensures VisiblePets(pets, "all", "") == Favourites(pets)
  {
    var matches := (p: InterestPet) => FiltersMatch("all", "", p);
    VisibleFiltersFavourites(pets, "all", "");
    FilterKeepsAll(Favourites(pets), matches);
  }

  /** The record after its interest button is pressed, when it carries that id. */
  function FlipInterest(id: string): InterestPet -> InterestPet {
    (p: InterestPet) => if p.id == id then p.(isInterested := !p.isInterested) else p
  }

  /** `prev.map(p => p.id === id ? { ...p, isInterested: !p.isInterested } : p)`. */
  function ToggleInterested(pets: seq<InterestPet>, id: string): (r: seq<InterestPet>)
    ensures |r| == |pets|
    ensures forall i :: 0 <= i < |r| ==> r[i].(isInterested := pets[i].isInterested) == pets[i]
    ensures forall i :: 0 <= i < |r| ==> (r[i].isInterested != pets[i].isInterested <==> pets[i].id == id)
  {
    MapSeq(pets, FlipInterest(id))
  }

  /** The interest button's label flips exactly on the card that was pressed. */
  lemma ToggleFlipsLabel(pets: seq<InterestPet>, id: string, i: nat)
    requires i < |pets|
    ensures InterestLabel(ToggleInterested(pets, id)[i]) != InterestLabel(pets[i]) <==> pets[i].id == id
  {
  }

  /** Toggling interest commutes with the page filter, since the filter never reads the interest flag. */
  lemma ToggleCommutesWithFilter(pets: seq<InterestPet>, id: string, categoryFilter: string, locationFilter: string)
    ensures VisiblePets(ToggleInterested(pets, id), categoryFilter, locationFilter)
      == ToggleInterested(VisiblePets(pets, categoryFilter, locationFilter), id)
  {
    var keep := (p: InterestPet) => Shown(categoryFilter, locationFilter, p);
    var flip := FlipInterest(id);
    forall p ensures keep(flip(p)) == keep(p) {
      assert flip(p).(isInterested := p.isInterested) == p;
    }
    FilterMapCommute(pets, flip, keep);
  }

  /** The same cards stay on the page, in the same order, after an interest toggle. */
  lemma ToggleKeepsVisiblePets(pets: seq<InterestPet>, id: string, categoryFilter: string, locationFilter: string)
    ensures |VisiblePets(ToggleInterested(pets, id), categoryFilter, locationFilter)| == |VisiblePets(pets, categoryFilter, locationFilter)|
    ensures forall i :: 0 <= i < |VisiblePets(pets, categoryFilter, locationFilter)| ==>
      VisiblePets(ToggleInterested(pets, id), categoryFilter, locationFilter)[i].id == VisiblePets(pets, categoryFilter, locationFilter)[i].id
  {
    ToggleCommutesWithFilter(pets, id, categoryFilter, locationFilter);
  }

  /** The two texts of the empty state. */
  datatype EmptyMessage = NoMatch | NoFavouritesYet

  /** What the page shows below its filters. */
  datatype PageView = Grid(cards: seq<InterestPet>) | NoFavouritesFound(message: EmptyMessage, clearButton: bool)

  /**
   * The grid when a card is visible. Otherwise: with some favourite, the
   * "no match" text and a Clear Filters button; with none, the "haven't
   * added any" text and no button.
   */
  function View(pets: seq<InterestPet>, categoryFilter: string, locationFilter: string): (v: PageView)
    ensures v.Grid? <==> VisiblePets(pets, categoryFilter, locationFilter) != []
    ensures v.Grid? ==> v.cards == VisiblePets(pets, categoryFilter, locationFilter)
    ensures v.NoFavouritesFound? ==>
      (v.message == NoMatch <==> exists i :: 0 <= i < |pets| && pets[i].isFavourite)
    ensures v.NoFavouritesFound? ==> (v.clearButton <==> v.message == NoMatch)
  {
    var shown := VisiblePets(pets, categoryFilter, locationFilter);
    if |shown| > 0 then Grid(shown)
    else
      var anyFavourite := |Favourites(pets)| > 0;
      assert anyFavourite ==> Favourites(pets)[0] in pets;
      NoFavouritesFound(if anyFavourite then NoMatch else NoFavouritesYet, anyFavourite)
  }

  /** When some favourite exists, pressing Clear Filters brings back a non-empty grid. */
  lemma ClearFiltersShowsFavourites(pets: seq<InterestPet>, i: nat)
    requires i < |pets| && pets[i].isFavourite
    ensures View(pets, "all", "") == Grid(Favourites(pets))
  {
    DefaultFiltersShowFavourites(pets);
    assert pets[i] in VisiblePets(pets, "all", "");
  }

  class InterestPageState {
    var pets: seq<InterestPet>
    var locationFilter: string
    var categoryFilter: string

    /** Starts from the given pets with the filters at "" and "all". */
    constructor(initial: seq<InterestPet>)
      ensures pets == initial && locationFilter == "" && categoryFilter == "all"
    {
      pets := initial;
      locationFilter := "";
      categoryFilter := "all";
    }

    /** What the page currently shows. */
    function Shown(): PageView
      reads this
    {
      View(pets, categoryFilter, locationFilter)
    }

    /** The card's interest button; the same cards stay visible. */
    method HandleToggleInterested(id: string)
      modifies this
      ensures pets == ToggleInterested(old(pets), id)
      ensures locationFilter == old(locationFilter) && categoryFilter == old(categoryFilter)
      ensures VisiblePets(pets, categoryFilter, locationFilter)
        == ToggleInterested(VisiblePets(old(pets), categoryFilter, locationFilter), id)
    {
      ToggleCommutesWithFilter(pets, id, categoryFilter, locationFilter);
      pets := ToggleInterested(pets, id);
    }

    /** The header's Reset and the empty state's Clear Filters: the favourites are shown again. */
    method HandleResetFilters()
      modifies this
      ensures locationFilter == "" && categoryFilter == "all" && pets == old(pets)
      ensures VisiblePets(pets, categoryFilter, locationFilter) == Favourites(pets)
    {
      locationFilter := "";
      categoryFilter := "all";
      DefaultFiltersShowFavourites(pets);
    }

    /** Typing in the location box. */
    method SetLocationFilter(value: string)
      modifies this
      ensures locationFilter == value && categoryFilter == old(categoryFilter) && pets == old(pets)
    {
      locationFilter := value;
    }

    /** Choosing a category. */
    method SetCategoryFilter(value: string)
      modifies this
      ensures categoryFilter == value && locationFilter == old(locationFilter) && pets == old(pets)
    {
      categoryFilter := value;
    }
  }
}
