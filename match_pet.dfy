/** The `/api/match-pet` endpoint: validate the request, narrow the catalogue
    to available pets of the requested species, hand the candidates to the
    recommendation model, and shape its reply (or its failure) into an HTTP
    response.

    The model call, the prompt it is given and `JSON.parse` are outside the
    model: the endpoint receives them as the function `oracle`, whose outcome
    is already classified as a parsed record, text that did not parse, or an
    exception message. */
module MatchPet {
  import opened Common
  import opened Catalog

  /** The quiz answers posted in `req.body.preferences`; every key may be
      missing. Only `petType` steers the endpoint; the rest go into the prompt. */
  datatype Preferences = Preferences(
    petType: Option<string>,
    budget: Option<string>,
    housing: Option<string>,
    exercise: Option<string>,
    temperament: Option<string>,
    kids: Option<string>,
    experience: Option<string>)

  /** The parsed reply of the model. `petId` is `None` when the key is missing
      or holds anything other than an integer (such a value is never `===` to a
      pet id). */
  datatype Recommendation = Recommendation(
    petId: Option<int>,
    matchReason: Option<string>,
    careTips: seq<string>)

  /** What the model call came to: a parsed record, text that `JSON.parse`
      rejected (or that parsed to `null`), or an exception with its message
      (`""` when the exception carried none). */
  datatype OracleOutcome =
    | Parsed(rec: Recommendation)
    | Unparseable
    | Threw(message: string)

  /** What `storage.getPets()` came to: the catalogue, or an exception. */
  datatype CatalogRead =
    | Loaded(pets: seq<Pet>)
    | ReadFailed(message: string)

  /** A JSON response body: `{ error }`, or the model's record spread out
      with the matched pet (left out when `pet` is undefined) and the number
      of candidates. */
  datatype Body =
    | ErrorBody(error: string)
    | MatchBody(rec: Recommendation, pet: Option<Pet>, candidatesFound: nat)

  datatype Response = Response(status: int, body: Body)

  const MissingPreferences := "Missing user preferences"
  const KeyNotConfigured := "Gemini API key not configured"
  const EmptyCatalog := "No pets available in the system."
  const ParseFailed := "AI response parsing failed"
  /** The rate-limit message ends with the four characters U+00F0 U+0178
      U+203A U+2018 exactly as the source file stores them (the UTF-8 bytes of
      a stop-sign emoji read as Windows-1252). */
  const RateLimitMessage := "Daily AI Limit Reached. Please try again tomorrow! \U{F0}\U{178}\U{203A}\U{2018}"

  predicate IsAvailable(p: Pet)
  {
    p.status == "Available"
  }

  /** `pets.filter(p => p.status === 'Available')`. */
  function AvailableOnly(pets: seq<Pet>): (r: seq<Pet>)
    ensures forall p :: p in r <==> p in pets && p.status == "Available"
    ensures SubsequenceOf(r, pets)
  {
    Filter(pets, IsAvailable)
  }

  /** The species filter runs only for the exact strings "Dog" and "Cat"
      (a case-sensitive test, although the comparison it then makes is not). */
  predicate NarrowsSpecies(petType: Option<string>)
  {
    petType == Some("Dog") || petType == Some("Cat")
  }

  /** The strict pet-type filter of the endpoint. */
  function SpeciesOnly(pets: seq<Pet>, petType: Option<string>): (r: seq<Pet>)
    ensures NarrowsSpecies(petType) ==>
      forall p :: p in r <==> p in pets && Lower(p.species) == Lower(petType.value)
    ensures !NarrowsSpecies(petType) ==> r == pets
    ensures SubsequenceOf(r, pets)
  {
    if NarrowsSpecies(petType) then
      Filter(pets, (p: Pet) => Lower(p.species) == Lower(petType.value))
    else
      SubsequenceReflexive(pets);
      pets
  }

  /** The candidates handed to the model: available pets, narrowed to the
      requested species when it is "Dog" or "Cat". */
  function Candidates(prefs: Preferences, pets: seq<Pet>): (r: seq<Pet>)
    ensures forall p :: p in r ==> p in pets && p.status == "Available"
    ensures forall p :: p in pets && p.status == "Available" && !NarrowsSpecies(prefs.petType) ==> p in r
    ensures NarrowsSpecies(prefs.petType) ==>
      forall p :: p in r <==> p in pets && p.status == "Available" && Lower(p.species) == Lower(prefs.petType.value)
    ensures SubsequenceOf(r, pets)
  {
    var available := AvailableOnly(pets);
    var r := SpeciesOnly(available, prefs.petType);
    SubsequenceTransitive(r, available, pets);
    r
  }

  /** The business "no match" body: `No available ${petType || 'pets'} found ...`. */
  function NoMatchMessage(petType: Option<string>): (msg: string)
    ensures petType.Some? && petType.value != "" ==>
      msg == "No available " + petType.value + " found matching your criteria."
    ensures petType.None? || petType == Some("") ==>
      msg == "No available " + "pets" + " found matching your criteria."
  {
    var what := if petType.Some? && petType.value != "" then petType.value else "pets";
    "No available " + what + " found matching your criteria."
  }

  /** `error.message || "Unknown error"`. */
  function ErrorText(message: string): (text: string)
    ensures text != ""
    ensures message != "" ==> text == message
  {
    if message == "" then "Unknown error" else message
  }

  /** The fallback text of a message-less exception mentions neither "429"
      nor "Quota". */
  lemma UnknownErrorIsNoRateLimit()
    ensures !Includes("Unknown error", "429") && !Includes("Unknown error", "Quota")
  {
    assert '4' !in "Unknown error" && 'Q' !in "Unknown error";
    NotIncludedWithoutFirstChar("Unknown error", "429");
    NotIncludedWithoutFirstChar("Unknown error", "Quota");
  }

  /** The outer `catch`: a message mentioning "429" or "Quota" is a rate
      limit; anything else is a 500 that quotes the message. */
  function ClassifyError(message: string): (r: Response)
    ensures r.status == 429 <==> OccursIn(ErrorText(message), "429") || OccursIn(ErrorText(message), "Quota")
    ensures r.status == 429 ==> r.body == ErrorBody(RateLimitMessage)
    ensures r.status != 429 ==> r == Response(500, ErrorBody("Matching failed: " + ErrorText(message)))
  {
    var text := ErrorText(message);
    IncludesIff(text, "429");
    IncludesIff(text, "Quota");
    if Includes(text, "429") || Includes(text, "Quota") then
      Response(429, ErrorBody(RateLimitMessage))
    else
      Response(500, ErrorBody("Matching failed: " + text))
  }

  /** An exception without a message is reported as a plain failure. */
  lemma MessagelessErrorIsFailure(message: string)
    requires message == ""
    ensures ClassifyError(message) == Response(500, ErrorBody("Matching failed: " + "Unknown error"))
  {
    UnknownErrorIsNoRateLimit();
  }

  /** The pet whose id is the one the model picked: `candidates.find(p =>
      p.id === petId)`. */
  function PickedPet(candidates: seq<Pet>, petId: Option<int>): (r: Option<Pet>)
    ensures r.Some? ==> r.value in candidates && Some(r.value.id) == petId
    ensures r.None? <==> forall p :: p in candidates ==> Some(p.id) != petId
    ensures r.Some? ==> exists k :: 0 <= k < |candidates| && candidates[k] == r.value &&
                                    forall j :: 0 <= j < k ==> Some(candidates[j].id) != petId
  {
    FindFirst(candidates, (p: Pet) => Some(p.id) == petId)
  }

  /** The inner `try` after the model answered: enrich a parsed reply with
      the matched pet and the candidate count, or report a parse failure; an
      exception from the call goes to the outer `catch`. */
  function ShapeReply(outcome: OracleOutcome, candidates: seq<Pet>): (r: Response)
    ensures outcome.Parsed? ==>
      r.status == 200 && r.body.MatchBody? && r.body.rec == outcome.rec &&
      r.body.candidatesFound == |candidates| &&
      r.body.pet == PickedPet(candidates, outcome.rec.petId)
    ensures outcome.Unparseable? ==> r == Response(500, ErrorBody(ParseFailed))
    ensures outcome.Threw? ==> r == ClassifyError(outcome.message)
    ensures r.body.MatchBody? ==> outcome.Parsed?
  {
    match outcome
    case Parsed(rec) => Response(200, MatchBody(rec, PickedPet(candidates, rec.petId), |candidates|))
    case Unparseable => Response(500, ErrorBody(ParseFailed))
    case Threw(message) => ClassifyError(message)
  }

  /** The endpoint, as the sequence of early returns the handler is.
      `consulted` is the candidate list the model was given, or `None` when
      the handler returned before calling it. */
  method HandleMatch(
    prefs: Option<Preferences>,
    apiKeyPresent: bool,
    catalog: CatalogRead,
    oracle: (Preferences, seq<Pet>) -> OracleOutcome)
    returns (resp: Response, consulted: Option<seq<Pet>>)
    // the checks happen in this order, each before anything later is read
    ensures prefs.None? ==> resp == Response(400, ErrorBody(MissingPreferences)) && consulted.None?
    ensures prefs.Some? && !apiKeyPresent ==>
      resp == Response(500, ErrorBody(KeyNotConfigured)) && consulted.None?
    ensures prefs.Some? && apiKeyPresent && catalog.ReadFailed? ==>
      resp == ClassifyError(catalog.message) && consulted.None?
    ensures prefs.Some? && apiKeyPresent && catalog == Loaded([]) ==>
      resp == Response(400, ErrorBody(EmptyCatalog)) && consulted.None?
    // an empty candidate list is a business answer, not a failure
    ensures prefs.Some? && apiKeyPresent && catalog.Loaded? && catalog.pets != [] &&
            Candidates(prefs.value, catalog.pets) == [] ==>
      resp == Response(200, ErrorBody(NoMatchMessage(prefs.value.petType))) && consulted.None?
    // the model is called exactly when there are candidates, and with them
    ensures consulted.Some? <==>
      prefs.Some? && apiKeyPresent && catalog.Loaded? && Candidates(prefs.value, catalog.pets) != []
    ensures consulted.Some? ==>
      consulted.value == Candidates(prefs.value, catalog.pets) &&
      resp == ShapeReply(oracle(prefs.value, consulted.value), consulted.value)
    // whatever the model says, a pet in a reply is an eligible candidate
    ensures resp.body.MatchBody? && resp.body.pet.Some? ==>
      var p := resp.body.pet.value;
      consulted.Some? && p in consulted.value && catalog.Loaded? && p in catalog.pets &&
      p.status == "Available" && Some(p.id) == resp.body.rec.petId &&
      (NarrowsSpecies(prefs.value.petType) ==> Lower(p.species) == Lower(prefs.value.petType.value))
  {
    consulted := None;
    if prefs.None? {
      return Response(400, ErrorBody(MissingPreferences)), consulted;
    }
    var preferences := prefs.value;
    if !apiKeyPresent {
      return Response(500, ErrorBody(KeyNotConfigured)), consulted;
    }
    if catalog.ReadFailed? {
      return ClassifyError(catalog.message), consulted;
    }
    var pets := catalog.pets;
    if |pets| == 0 {
      return Response(400, ErrorBody(EmptyCatalog)), consulted;
    }
    var availablePets := AvailableOnly(pets);
    if NarrowsSpecies(preferences.petType) {
      availablePets := Filter(availablePets, (p: Pet) => Lower(p.species) == Lower(preferences.petType.value));
    }
    assert availablePets == Candidates(preferences, pets);
    if |availablePets| == 0 {
      return Response(200, ErrorBody(NoMatchMessage(preferences.petType))), consulted;
    }
    consulted := Some(availablePets);
    resp := ShapeReply(oracle(preferences, availablePets), availablePets);
  }

  /** A request for a dog against a catalogue of one available dog and one
      available cat: the model is shown the dog alone. */
  lemma DogRequestShowsOnlyTheDog(prefs: Preferences, dog: Pet, cat: Pet)
    requires prefs.petType == Some("Dog")
    requires dog.species == "Dog" && dog.status == "Available"
    requires cat.species == "Cat" && cat.status == "Available"
    ensures Candidates(prefs, [dog, cat]) == [dog]
  {
    assert Lower(cat.species)[0] == 'c';
    assert Lower("Dog")[0] == 'd';
    var r := Candidates(prefs, [dog, cat]);
    assert dog in r && cat !in r;
    assert r[0] == dog;
  }

  /** The only dog is sold: nothing is left to recommend, and by the
      contract of `HandleMatch` the model is not called. */
  lemma SoldDogLeavesNoCandidates(prefs: Preferences, dog: Pet)
    requires prefs.petType == Some("Dog")
    requires dog.species == "Dog" && dog.status == "Sold"
    ensures Candidates(prefs, [dog]) == []
  {
    assert dog !in Candidates(prefs, [dog]);
  }

  /** The handler does not check the model's pick against the candidates:
      an id no candidate has still comes back as a 200 reply, without a pet. */
  lemma UnknownPickIsNotRejected(candidates: seq<Pet>, rec: Recommendation)
    requires rec.petId.Some?
    requires forall p :: p in candidates ==> p.id != rec.petId.value
    ensures ShapeReply(Parsed(rec), candidates) == Response(200, MatchBody(rec, None, |candidates|))
  {
  }
}
