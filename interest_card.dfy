/**
 * The card of the interest page: the pet record it shows, its status
 * banner, its action button and its interest toggle. The card keeps no
 * state; everything it shows is decided by the record.
 */
module InterestCard {
  /** The lister's answer to an adoption request. */
  datatype Consent = Awaiting | Granted

  /** A pet on the interest page: the home-feed fields plus the consent state and the adoption flag. */
  datatype InterestPet = InterestPet(
    id: string,
    name: string,
    breed: string,
    age: string,
    location: string,
    category: string,
    imageUrl: string,
    isFavourite: bool,
    isInterested: bool,
    consent: Consent,
    adoption: bool)

  datatype Banner = AwaitingConsent | ConsentGranted | AdoptionInProgress

  datatype ActionButton = StartAdoptionProcess | ConfirmedPetReceived

  /** What the interest button reports when pressed. */
  datatype CardEvent = InterestToggled(id: string)

  /**
   * The three banner conditions, each rendered when it holds. They form a
   * total decision table: for every record exactly one banner shows, and it
   * is the one its row names.
   */
  function Banners(pet: InterestPet): (r: seq<Banner>)
    ensures |r| == 1
    ensures r[0] == AwaitingConsent <==> pet.consent == Awaiting
    ensures r[0] == ConsentGranted <==> pet.consent == Granted && !pet.adoption
    ensures r[0] == AdoptionInProgress <==> pet.consent == Granted && pet.adoption
  {
    (if pet.consent == Awaiting then [AwaitingConsent] else [])
    + (if pet.consent == Granted && !pet.adoption then [ConsentGranted] else [])
    + (if pet.consent == Granted && pet.adoption then [AdoptionInProgress] else [])
  }

  /**
   * The two action-button conditions. At most one button shows; none while
   * consent is awaited, whatever the adoption flag says.
   */
  function Actions(pet: InterestPet): (r: seq<ActionButton>)
    ensures |r| <= 1
    ensures StartAdoptionProcess in r <==> pet.consent == Granted && !pet.adoption
    ensures ConfirmedPetReceived in r <==> pet.consent == Granted && pet.adoption
    ensures pet.consent == Awaiting ==> r == []
  {
    (if pet.consent == Granted && !pet.adoption then [StartAdoptionProcess] else [])
    + (if pet.consent == Granted && pet.adoption then [ConfirmedPetReceived] else [])
  }

  /** Each shown action button sits under the banner of the same row of the table. */
  lemma ActionMatchesBanner(pet: InterestPet)
    ensures StartAdoptionProcess in Actions(pet) <==> Banners(pet) == [ConsentGranted]
    ensures ConfirmedPetReceived in Actions(pet) <==> Banners(pet) == [AdoptionInProgress]
    ensures Actions(pet) == [] <==> Banners(pet) == [AwaitingConsent]
  {
    var b := Banners(pet);
    assert b == [b[0]];
  }

  /** The accessible name of the interest button. */
  function InterestLabel(pet: InterestPet): (text: string)
    ensures text == "Remove interest" <==> pet.isInterested
    ensures text == "Mark as interested" <==> !pet.isInterested
  {
    if pet.isInterested then "Remove interest" else "Mark as interested"
  }

  /** Pressing the interest button reports the pet's own id to the page. */
  function InterestClick(pet: InterestPet): (e: CardEvent)
    ensures e.id == pet.id
  {
    InterestToggled(pet.id)
  }
}
