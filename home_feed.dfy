/**
 * The "Available For Adoption" section of the home page: a list of pets,
 * a location text filter, a category select, favourite and interest
 * toggles, and a reset.
 */
module HomeFeed {
  import opened Text
  import opened Filters

  /** A pet on the home feed. */
  datatype Pet = Pet(
    id: string,
    name: string,
    breed: string,
    age: string,
    location: string,
    category: string,
    imageUrl: string,
    isFavourite: bool,
    isInterested: bool)

  /** Both filters accept the pet. */
  predicate PetMatches(categoryFilter: string, locationFilter: string, pet: Pet) {
    CategoryMatches(categoryFilter, pet.category) && LocationMatches(locationFilter, pet.location)
  }

  /** The pets the grid shows, in list order. */
  function VisiblePets(pets: seq<Pet>, categoryFilter: string, locationFilter: string): (r: seq<Pet>)
    ensures forall i :: 0 <= i < |r| ==> r[i] in pets && PetMatches(categoryFilter, locationFilter, r[i])
    ensures forall i :: 0 <= i < |pets| && PetMatches(categoryFilter, locationFilter, pets[i]) ==> pets[i] in r
  {
    Filter(pets, (p: Pet) => PetMatches(categoryFilter, locationFilter, p))
  }

  /** The shown pets keep the order they have in the list. */
  lemma VisibleIsSubsequence(pets: seq<Pet>, categoryFilter: string, locationFilter: string)
    ensures Subsequence(VisiblePets(pets, categoryFilter, locationFilter), pets)
  {
    FilterIsSubsequence(pets, (p: Pet) => PetMatches(categoryFilter, locationFilter, p));
  }

  /** With the initial filters ("all", "") every pet is shown. */
  lemma DefaultFiltersShowAll(pets: seq<Pet>)
    ensures VisiblePets(pets, "all", "") == pets
  {
    FilterKeepsAll(pets, (p: Pet) => PetMatches("all", "", p));
  }

  /**
   * The location rule folds case on both sides: "LaGoS" keeps a pet in
   * "Mainland, Lagos Nigeria" and drops one in "Abuja, Nigeria".
   */
  lemma LagosExample()
    ensures LocationMatches("LaGoS", "Mainland, Lagos Nigeria")
    ensures !LocationMatches("LaGoS", "Abuja, Nigeria")
  {
    var needle := Lower("LaGoS");
    assert needle == "lagos";
    var hay := Lower("Mainland, Lagos Nigeria");
    assert hay[10..15] == "lagos";
    assert OccursAt(hay, needle, 10);
    var other := Lower("Abuja, Nigeria");
    assert other == "abuja, nigeria";
    NotContainsByChar(other, needle);
  }

  /** The record after its heart is pressed, when it carries that id. */
  function FlipFavourite(id: string): Pet -> Pet {
    (p: Pet) => if p.id == id then p.(isFavourite := !p.isFavourite) else p
  }

  /** The record after its interest button is pressed, when it carries that id. */
  function FlipInterest(id: string): Pet -> Pet {
    (p: Pet) => if p.id == id then p.(isInterested := !p.isInterested) else p
  }

  /**
   * `prev.map(p => p.id === id ? { ...p, isFavourite: !p.isFavourite } : p)`:
   * every record with that id has its favourite flag negated; nothing else
   * changes, and the list keeps its length and order.
   */
  function ToggleFavourite(pets: seq<Pet>, id: string): (r: seq<Pet>)
    ensures |r| == |pets|
    ensures forall i :: 0 <= i < |r| ==> r[i].(isFavourite := pets[i].isFavourite) == pets[i]
    ensures forall i :: 0 <= i < |r| ==> (r[i].isFavourite != pets[i].isFavourite <==> pets[i].id == id)
  {
    MapSeq(pets, FlipFavourite(id))
  }

  /** The same for the interest flag; the favourite flag is never touched. */
  function ToggleInterested(pets: seq<Pet>, id: string): (r: seq<Pet>)
    ensures |r| == |pets|
    ensures forall i :: 0 <= i < |r| ==> r[i].(isInterested := pets[i].isInterested) == pets[i]
    ensures forall i :: 0 <= i < |r| ==> (r[i].isInterested != pets[i].isInterested <==> pets[i].id == id)
  {
    MapSeq(pets, FlipInterest(id))
  }

  /** A toggle for an id no pet has leaves the list as it is. */
  lemma ToggleAbsentId(pets: seq<Pet>, id: string)
    requires forall i :: 0 <= i < |pets| ==> pets[i].id != id
    ensures ToggleFavourite(pets, id) == pets
    ensures ToggleInterested(pets, id) == pets
  {
    assert forall i :: 0 <= i < |pets| ==> ToggleFavourite(pets, id)[i] == pets[i];
    assert forall i :: 0 <= i < |pets| ==> ToggleInterested(pets, id)[i] == pets[i];
  }

  /** Toggling the same id twice restores the original list. */
  lemma ToggleTwice(pets: seq<Pet>, id: string)
    ensures ToggleFavourite(ToggleFavourite(pets, id), id) == pets
    ensures ToggleInterested(ToggleInterested(pets, id), id) == pets
  {
    var f := ToggleFavourite(ToggleFavourite(pets, id), id);
    var g := ToggleInterested(ToggleInterested(pets, id), id);
    assert forall i :: 0 <= i < |pets| ==> f[i] == pets[i];
    assert forall i :: 0 <= i < |pets| ==> g[i] == pets[i];
  }

  /** What the section shows below its filters. */
  datatype FeedView = Grid(cards: seq<Pet>) | NoPetsFound

  /** The grid when a pet matches; otherwise the "No pets found" panel with its "Clear All Filters" button. */
  function View(pets: seq<Pet>, categoryFilter: string, locationFilter: string): (v: FeedView)
    ensures v.Grid? <==> VisiblePets(pets, categoryFilter, locationFilter) != []
    ensures v.Grid? ==> v.cards == VisiblePets(pets, categoryFilter, locationFilter)
  {
    var shown := VisiblePets(pets, categoryFilter, locationFilter);
    if |shown| > 0 then Grid(shown) else NoPetsFound
  }

  /** After a reset the empty panel can appear only for an empty list. */
  lemma ResetShowsEveryPet(pets: seq<Pet>)
    ensures View(pets, "all", "") == (if pets == [] then NoPetsFound else Grid(pets))
  {
    DefaultFiltersShowAll(pets);
  }

  class PetListingSection {
    var pets: seq<Pet>
    var locationFilter: string
    var categoryFilter: string

    /** Starts from the given listings with the filters at "" and "all". */
    constructor(listings: seq<Pet>)
      ensures pets == listings && locationFilter == "" && categoryFilter == "all"
    {
      pets := listings;
      locationFilter := "";
      categoryFilter := "all";
    }

    /** What the section currently shows. */
    function Shown(): FeedView
      reads this
    {
      View(pets, categoryFilter, locationFilter)
    }

    method HandleToggleFavourite(id: string)
      modifies this
      ensures pets == ToggleFavourite(old(pets), id)
      ensures locationFilter == old(locationFilter) && categoryFilter == old(categoryFilter)
    {
      pets := ToggleFavourite(pets, id);
    }

    method HandleToggleInterested(id: string)
      modifies this
      ensures pets == ToggleInterested(old(pets), id)
      ensures locationFilter == old(locationFilter) && categoryFilter == old(categoryFilter)
    {
      pets := ToggleInterested(pets, id);
    }

    /** The header's Reset and the empty panel's Clear All Filters: both filters back to their defaults, pets untouched. */
    method HandleResetFilters()
      modifies this
      ensures locationFilter == "" && categoryFilter == "all" && pets == old(pets)
      ensures Shown() == (if pets == [] then NoPetsFound else Grid(pets))
    {
      locationFilter := "";
      categoryFilter := "all";
      ResetShowsEveryPet(pets);
    }

    /** Typing in the location box. */
    method SetLocationFilter(value: string)
      modifies this
      ensures locationFilter == value && categoryFilter == old(categoryFilter) && pets == old(pets)
    {
      locationFilter := value;
    }

    /** Choosing a category. */
    method SetCategoryFilter(value: string)
      modifies this
      ensures categoryFilter == value && locationFilter == old(locationFilter) && pets == old(pets)
    {
      categoryFilter := value;
    }
  }
}
