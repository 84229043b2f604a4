# PawPrint pet shop — a verified model of its deterministic core

The pet shop is a small web application: a server with a pet-matching
endpoint backed by a language model, and a browser client with a pet
listing, an admin page for the pet list, a visit-booking form, a store with
an enquiry cart, a rule-based "PuppyMatch" quiz and a home page that
features the latest pets. This project models the parts of it that decide
something, and proves what they promise:

- `match_pet.dfy` (module `MatchPet`): the `/api/match-pet` endpoint. Its
  request checks run in a fixed order. It narrows the catalogue to available
  pets, and to one species when the request asks for exactly "Dog" or "Cat".
  It tells an empty catalogue (400) apart from an empty candidate list (200
  with an error body). It enriches the model's pick with the matching
  candidate and maps failures to 429 or 500. The language model is a
  function parameter (`oracle`) whose outcome is a parsed record, text that
  did not parse, or an exception message.
- `puppy_listing.dfy` (`PuppyListing`): the listing's search and price-band
  filter.
- `admin_pets.dfy` (`AdminPets`): delete, edit and add on the stored pet
  list, with the next id taken as the largest id plus one.
- `book_visit.dfy` (`BookVisit`): the selected pet and the pending visit a
  booking appends.
- `store.dfy` (`Store`): the enquiry cart, its total and the enquiry booking.
- `puppy_match_quiz.dfy` (`PuppyMatchQuiz`): the six-question quiz as a
  state machine and its breed rule.
- `home_featured.dfy` (`HomeFeatured`): the three featured pets.
- `catalog.dfy` (`Catalog`) holds the records (pet, product, booking) and the
  seed lists. `common.dfy` (`Common`) holds the JavaScript built-ins the code
  relies on: `filter`, `find`, `includes`, ASCII `toLowerCase`, `join`, and
  the `Math.max(...ids) + 1` id rule.

Where the page code changes state (`useState`, stored lists), the model is a
class whose fields are that state and whose methods are the handlers: the
admin pet list, the booking form, the store's enquiry cart and the quiz. The
listing and home pages only read their state. There the filter inputs and
the stored list are parameters of `PuppyListing.FilteredPets` and
`HomeFeatured.FeaturedPets`, and the listing's clear-filters button is the
lemma `PuppyListing.ClearedFiltersShowAll`. The pure computations behind the
handlers are functions, with lemmas relating them.

### Where the code departs from its intended design

The model follows the code:

- The endpoint does not check that the model's `petId` is one of the
  candidates. It returns the record as it came, and `pet` is simply absent
  (`MatchPet.UnknownPickIsNotRejected`). What the model does prove is that a
  `pet` in a reply is always an available candidate of the requested
  species (`MatchPet.HandleMatch`).
- The species filter runs only when `petType` is exactly "Dog" or "Cat". The
  test is case-sensitive; only the comparison it then makes ignores case.
  So "dog" does not narrow the list at all.
- The quiz component (`PuppyMatchChat`) asks six questions with no
  pet-type question, and it picks a breed locally by a fixed rule instead of
  calling the endpoint.

## Model

| member | source | states |
|---|---|---|
| Common.Filter | client/src/pages/Puppies.tsx:18 | `filter` keeps exactly the elements the predicate accepts, each as many times as the input holds it, and none other, as an order-preserving subsequence of the input |
| Common.FilterKeepsAll | client/src/pages/Puppies.tsx:18 | a filter whose predicate accepts every element returns the list unchanged |
| Common.FindFirst | client/src/pages/BookVisit.tsx:17 | `find` is absent iff no element matches; otherwise it is a matching element and no earlier element matches |
| Common.Lower | client/src/pages/Puppies.tsx:19-20 | ASCII `toLowerCase` keeps the length, lower-cases each letter and leaves no upper-case letter |
| Common.LowerIdempotent | client/src/pages/Puppies.tsx:19-20 | lower-casing twice is lower-casing once |
| Common.Includes | client/src/pages/Puppies.tsx:19-20 | `includes`, tried at each start position from the left; what it means is stated by `Common.IncludesIff` |
| Common.IncludesIff | client/src/pages/Puppies.tsx:19-20 | `includes` holds iff the needle occurs at some position of the string |
| Common.NotIncludedWithoutFirstChar | server/routes.ts:201 | a string lacking the needle's first character does not include the needle |
| Common.IncludesEmpty | client/src/pages/Puppies.tsx:19-20 | every string includes the empty string |
| Common.NextId | client/src/pages/admin/Pets.tsx:22 | `length ? Math.max(...ids) + 1 : 1` exceeds every id, is 1 for no ids, and is one more than some id otherwise |
| Common.Join | client/src/pages/Store.tsx:59 | `join(sep)`: the parts with the separator between neighbours; its emptiness and length are stated by `Common.JoinEmptyIff` and `Common.JoinLength` |
| Common.JoinEmptyIff | client/src/pages/Store.tsx:59 | with a non-empty separator, `join` is empty iff there are no parts or one empty part |
| Common.JoinLength | client/src/pages/Store.tsx:59 | the joined text's length is the parts' lengths plus one separator between each two parts |
| Catalog.PetIds | client/src/pages/admin/Pets.tsx:22 | `items.map(i => i.id)`: same length, position by position, and the same set of ids as the pets |
| Catalog.BookingIds | client/src/pages/BookVisit.tsx:33 | `bookings.map(b => b.id)`: same length, position by position, and the same set of ids as the bookings |
| MatchPet.AvailableOnly | server/routes.ts:123 | keeps exactly the pets whose status is "Available", in catalogue order |
| MatchPet.SpeciesOnly | server/routes.ts:128-130 | for petType "Dog" or "Cat", keeps exactly the pets whose lower-cased type equals the lower-cased petType; for any other or no petType, changes nothing |
| MatchPet.Candidates | server/routes.ts:122-130 | every candidate is an available catalogue pet; with narrowing, the candidates are exactly the available pets of that species; without it, every available pet is a candidate; order is kept |
| MatchPet.NoMatchMessage | server/routes.ts:132-134 | the no-match text names the requested petType, or "pets" when it is absent or empty |
| MatchPet.ErrorText | server/routes.ts:199 | the error text (the message, or "Unknown error" when there is none) is never empty, and is the message itself whenever that is not empty |
| MatchPet.UnknownErrorIsNoRateLimit | server/routes.ts:199-201 | the fallback text "Unknown error" contains neither "429" nor "Quota" |
| MatchPet.ClassifyError | server/routes.ts:197-205 | status 429 with the rate-limit text iff the message (or "Unknown error") contains "429" or "Quota"; otherwise 500 with "Matching failed: " and that text |
| MatchPet.MessagelessErrorIsFailure | server/routes.ts:199-205 | an exception without a message gives 500 "Matching failed: Unknown error" |
| MatchPet.PickedPet | server/routes.ts:186 | the enriched pet is the first candidate whose id equals petId, and absent iff no candidate has it |
| MatchPet.ShapeReply | server/routes.ts:183-195 | a parsed reply gives 200 with the record, the picked pet and the candidate count; unparseable text gives 500 "AI response parsing failed"; an exception goes to the error classification |
| MatchPet.HandleMatch | server/routes.ts:101-207 | missing preferences give 400 first, a missing key 500 next, a failed catalogue read is classified, an empty catalogue gives 400, an empty candidate list gives 200 with the no-match text; the model is called iff there are candidates, and with exactly them; any pet in a reply is an available candidate of the requested species |
| MatchPet.DogRequestShowsOnlyTheDog | server/routes.ts:128-130 | a Dog request over one available dog and one available cat hands the model the dog alone |
| MatchPet.SoldDogLeavesNoCandidates | server/routes.ts:123-134 | a Dog request whose only dog is sold leaves no candidates, so the model is never called |
| MatchPet.UnknownPickIsNotRejected | server/routes.ts:186-191 | a petId no candidate has still gives 200 with the record and no pet |
| PuppyListing.MatchesSearch | client/src/pages/Puppies.tsx:19-20 | the lower-cased term is included in the lower-cased breed or name; `PuppyListing.SearchMeansOccurrence` states it as an occurrence |
| PuppyListing.MatchesPrice | client/src/pages/Puppies.tsx:22-25 | the band test on `priceMin` with the bounds 20000 and 30000; `PuppyListing.PriceBandsPartition` states that the bands split the prices |
| PuppyListing.FilteredPets | client/src/pages/Puppies.tsx:18-28 | a pet is shown iff it matches both the search and the price band; the result keeps list order |
| PuppyListing.SearchMeansOccurrence | client/src/pages/Puppies.tsx:19-20 | the search matches iff the lower-cased term occurs in the lower-cased breed or the lower-cased name |
| PuppyListing.SearchIgnoresCase | client/src/pages/Puppies.tsx:19-20 | a term and its lower-cased form match the same pets |
| PuppyListing.EmptySearchMatchesAll | client/src/pages/Puppies.tsx:19-20 | the empty term matches every pet |
| PuppyListing.PriceBandsPartition | client/src/pages/Puppies.tsx:22-25 | "all" admits every pet; "low", "mid" and "high" are disjoint and cover every pet |
| PuppyListing.ClearedFiltersShowAll | client/src/pages/Puppies.tsx:85 | after clearing the filters (`""`, `"all"`) the whole list is shown, in order |
| AdminPets.WithoutId | client/src/pages/admin/Pets.tsx:21 | delete keeps exactly the pets with another id, in their original order |
| AdminPets.DeleteMissingIdChangesNothing | client/src/pages/admin/Pets.tsx:21 | deleting an id no pet has leaves the list as it was |
| AdminPets.DeleteKeepsIdsUnique | client/src/pages/admin/Pets.tsx:21 | deleting keeps ids unique |
| AdminPets.Replaced | client/src/pages/admin/Pets.tsx:22 | edit keeps the length, puts the edited pet at every position with its id and leaves every other position alone |
| AdminPets.ReplaceKeepsIds | client/src/pages/admin/Pets.tsx:22 | edit leaves the id sequence unchanged, so unique and positive ids stay so |
| AdminPets.Appended | client/src/pages/admin/Pets.tsx:22 | add keeps the old list as a prefix and appends the pet with an id above every existing id: 1 for an empty list, otherwise the largest id plus one |
| AdminPets.AppendKeepsIds | client/src/pages/admin/Pets.tsx:22 | add keeps ids unique and positive |
| AdminPets.SavedPet | client/src/pages/admin/Pets.tsx:162 | the saved pet carries every field of the form (name, breed, type, age, gender, both prices, status, image and description), is never featured, and has the edited pet's id, or -1 when adding or when that id is 0 |
| AdminPets.AddedPetGetsFreshId | client/src/pages/admin/Pets.tsx:22 | an added pet's placeholder id -1 is replaced by a positive id no existing pet has |
| AdminPets.SeedIdsAreValid | client/src/lib/data.ts:21-106 | the seed pets' ids are unique and positive |
| AdminPets.UpsertKeepsIds | client/src/pages/admin/Pets.tsx:22 | storing the dialog's pet, by replacing or by appending, keeps ids unique and positive |
| AdminPets.PetAdmin.constructor | client/src/pages/admin/Pets.tsx:15-17 | the page starts from the stored list with the dialog closed and nothing being edited |
| AdminPets.PetAdmin.OpenAdd | client/src/pages/admin/Pets.tsx:19 | opens the dialog with nothing being edited |
| AdminPets.PetAdmin.OpenEdit | client/src/pages/admin/Pets.tsx:20 | opens the dialog editing the given pet |
| AdminPets.PetAdmin.Close | client/src/pages/admin/Pets.tsx:149 | Cancel closes the dialog |
| AdminPets.PetAdmin.HandleDelete | client/src/pages/admin/Pets.tsx:21 | a confirmed delete stores the list without that id; an unconfirmed one changes nothing; unique and positive ids are kept |
| AdminPets.PetAdmin.Upsert | client/src/pages/admin/Pets.tsx:22 | replaces by id when editing, appends with a fresh id when adding, closes the dialog, and keeps unique and positive ids |
| AdminPets.PetAdmin.Save | client/src/pages/admin/Pets.tsx:150-163 | an empty name changes nothing; otherwise the form's pet is upserted and the dialog closes |
| BookVisit.TrimStart | client/src/pages/BookVisit.tsx:35 | removes exactly the leading ECMAScript white space |
| BookVisit.TrimEnd | client/src/pages/BookVisit.tsx:35 | removes exactly the trailing ECMAScript white space |
| BookVisit.Trim | client/src/pages/BookVisit.tsx:35 | `trim` leaves the slice of the string between its leading and its trailing white space; that slice neither starts nor ends with white space |
| BookVisit.TrimOfTrimmed | client/src/pages/BookVisit.tsx:35 | a string with no white space at either end is its own trim |
| BookVisit.TrimEmptyIff | client/src/pages/BookVisit.tsx:35 | the trim is empty iff the string is all white space |
| BookVisit.SelectedPet | client/src/pages/BookVisit.tsx:17 | the selected pet is the first pet whose id equals the numeric petId, and absent iff none has it |
| BookVisit.VisitTime | client/src/pages/BookVisit.tsx:35-36 | the booking time is never empty when the clock's text is not |
| BookVisit.FilledFormKeepsDateAndTime | client/src/pages/BookVisit.tsx:35 | with date and time filled in, the booking time is "date time" |
| BookVisit.NewVisit | client/src/pages/BookVisit.tsx:33-36 | the new booking's id exceeds every booking id (1 when there are none, else the largest plus one); detail is the pet's name or "Visit request"; name defaults to "Guest"; an empty phone is absent; type "Visit", status "Pending" |
| BookVisit.NewVisitKeepsIdsUnique | client/src/pages/BookVisit.tsx:33-37 | appending the new visit keeps booking ids unique |
| BookVisit.SeedBookingIds | client/src/lib/data.ts:169-173 | the seed bookings are numbered 1, 2 and 3 |
| BookVisit.SeedVisitIsNumberFour | client/src/pages/BookVisit.tsx:33 | with the seed bookings, the first visit booked gets id 4 |
| BookVisit.VisitForm.constructor | client/src/pages/BookVisit.tsx:15-25 | the page starts from the stored bookings with empty fields |
| BookVisit.VisitForm.Fill | client/src/pages/BookVisit.tsx:79-91 | the inputs' handlers set the four fields |
| BookVisit.VisitForm.Submit | client/src/pages/BookVisit.tsx:27-45 | appends exactly the new visit; earlier bookings are unchanged, the length grows by one, and unique ids stay unique |
| Store.Total | client/src/pages/Store.tsx:73 | `reduce((sum, item) => sum + item.price, 0)`, folded from the left; its value is stated by `Store.TotalConcat` and `Store.TotalIsSumOfPrices` |
| Store.TotalConcat | client/src/pages/Store.tsx:73 | the total of two carts end to end is the sum of their totals |
| Store.TotalIsSumOfPrices | client/src/pages/Store.tsx:73 | the total is 0 for an empty cart, adds each item's price once, and is not negative when no price is |
| Store.Names | client/src/pages/Store.tsx:59 | `cart.map(p => p.name)`: the names in cart order |
| Store.EnquiryDetail | client/src/pages/Store.tsx:59 | the detail is "Products Enquiry" iff the cart is empty, holds one nameless product, or its joined names are that text; otherwise it is the names joined with ", " |
| Store.Enquiry | client/src/pages/Store.tsx:58-68 | the enquiry has type "Enquiry", status "Pending", the given time, name defaulting to "Guest", phone absent when empty, and the cart's detail |
| Store.EnquiryCart.constructor | client/src/pages/Store.tsx:17-21 | the page starts with an empty cart, the sheet closed and empty fields |
| Store.EnquiryCart.AddToCart | client/src/pages/Store.tsx:47-53 | appends the product, keeping earlier items and duplicates; the length grows by one and the total by its price |
| Store.EnquiryCart.SetCartOpen | client/src/pages/Store.tsx:105 | opens or closes the enquiry sheet |
| Store.EnquiryCart.Fill | client/src/pages/Store.tsx:148-152 | the inputs' handlers set the name and phone |
| Store.EnquiryCart.SubmitEnquiry | client/src/pages/Store.tsx:28-71 | posts the enquiry built from the current cart and fields; on success the cart is emptied, the sheet closed and both fields cleared; on failure nothing changes |
| PuppyMatchQuiz.Recommend | client/src/components/PuppyMatchChat.tsx:90-114 | Golden Retriever iff housing is "Villa" and exercise "High (Active play)"; Shih Tzu iff "Apartment" and "Low (Short walks)"; Beagle otherwise; always three reasons |
| PuppyMatchQuiz.RecommendReadsHousingAndExercise | client/src/components/PuppyMatchChat.tsx:98-106 | two preference sets that agree on housing and exercise get the same recommendation |
| PuppyMatchQuiz.AnswerRecorded | client/src/components/PuppyMatchChat.tsx:72-73 | after n answers the preferences hold exactly the first n question keys, each with the answer given to it |
| PuppyMatchQuiz.QuizOutcome | client/src/components/PuppyMatchChat.tsx:90-114 | once housing and exercise are answered, the pick is decided by those two answers as the three-way rule says |
| PuppyMatchQuiz.QuizChat.constructor | client/src/components/PuppyMatchChat.tsx:33-36 | the quiz starts at step 0 with no preferences and no result |
| PuppyMatchQuiz.QuizChat.Answer | client/src/components/PuppyMatchChat.tsx:71-87 | stores the option under the current question's key, leaves every other key alone and advances one step (to loading after the last question); the step never passes 7 |
| PuppyMatchQuiz.QuizChat.CompleteLoading | client/src/components/PuppyMatchChat.tsx:88-118 | the timer sets the result from the preferences it closed over and moves to step 7; that result is the pick for all six answers |
| PuppyMatchQuiz.QuizChat.StartOver | client/src/components/PuppyMatchChat.tsx:225 | reloading starts the quiz afresh |
| PuppyMatchQuiz.QuizChat.View | client/src/components/PuppyMatchChat.tsx:124-235 | a question card iff step < 6 (numbered step + 1 of 6, with that question's text and options), the loading card iff step is 6, the result card iff step is past 6 with a result |
| PuppyMatchQuiz.RunQuiz | client/src/components/PuppyMatchChat.tsx:71-118 | answering all six questions from the start and letting the timer fire shows the pick the rule gives for the housing and exercise answers |
| HomeFeatured.WithId | client/src/pages/Home.tsx:15 | the pets with a given id, each as many times as the list holds it, as an order-preserving subsequence of the list |
| HomeFeatured.InsertById | client/src/pages/Home.tsx:15 | one insertion step of the sort adds the pet and nothing else |
| HomeFeatured.InsertKeepsOrder | client/src/pages/Home.tsx:15 | an insertion step keeps the list sorted by id, largest first |
| HomeFeatured.InsertSmallestGoesLast | client/src/pages/Home.tsx:15 | a pet with a smaller id than every sorted pet goes last |
| HomeFeatured.InsertKeepsEqualIdOrder | client/src/pages/Home.tsx:15 | an insertion step puts the pet ahead of those with its id and keeps every other id's order |
| HomeFeatured.SortByIdDesc | client/src/pages/Home.tsx:15 | the sorted copy is a permutation of the list with ids never increasing |
| HomeFeatured.SortIsStable | client/src/pages/Home.tsx:15 | the sort is stable: pets sharing an id keep their list order |
| HomeFeatured.FeaturedPets | client/src/pages/Home.tsx:15 | exactly min(3, length) pets, ids never increasing, each drawn from the list (as a sub-multiset) |
| HomeFeatured.LeftOutPetsHaveSmallerIds | client/src/pages/Home.tsx:15 | every pet not featured has an id no larger than any featured pet's |
| HomeFeatured.Reversed | client/src/pages/Home.tsx:14-15 | the list back to front |
| HomeFeatured.IncreasingIdsSortToReverse | client/src/pages/Home.tsx:14-15 | a list whose ids grow in order of addition sorts to its reverse |
| HomeFeatured.LatestAddedAreFeatured | client/src/pages/Home.tsx:14-15 | with ids growing in order of addition, the last three added are featured, newest first |
| HomeFeatured.SeedFeatured | client/src/pages/Home.tsx:13-15 | with the seed list the home page features Coco, Luna and Rocky |

## Left out

- The language-model call, its prompt and `JSON.parse` (server/routes.ts:138-181, 184) are the `oracle` parameter of `MatchPet.HandleMatch`. A reply that parses to `null` makes `recommendation.petId` throw inside the inner `try`, so it is `Unparseable` (500 "AI response parsing failed"). A reply that parses to any other non-object value, or whose `petId` is not an integer, is a record whose `petId` is absent.
- `console.log` and `console.error` calls have no effect on the responses and are not modelled.
- The database, `storage.getPets()` and the HTTP server are not part of this model. The catalogue read is a parameter: the pets, or the message of the exception it threw.
- Preferences are either absent or an object of optional strings. Other JSON values in `preferences` or `petType` (numbers, `false`, `null` fields) are not modelled.
- The `!pets` test of the endpoint: the catalogue is always a list here, so only its emptiness is tested.
- Browser storage (`useLocalStorage`), sessions, authentication, toasts, `alert` and `confirm` are not modelled. The answer to "Delete pet?" is the `confirmed` parameter. Whether the server accepted an enquiry is the `accepted` parameter.
- The `setTimeout` delays, the `isTyping` and `isSubmitting` flags and the animations are not modelled. Each delayed transition is one atomic method. A second click during a delay is therefore not modelled.
- `new Date().toLocaleDateString()` and `toLocaleString()` depend on the clock and the locale; they are the `today` and `now` parameters.
- `parseInt` in the admin form and `Number(petId)` in the booking page are not modelled: the numbers arrive already converted. Note that `Number(null)` and `Number("")` are 0, so a caller with no `petId` passes `Some(0)`.
- Numbers are unbounded integers. JavaScript's floating-point numbers, and `Math.max` running out of stack on very long lists, are not modelled.
- `Common.Lower`: `toLowerCase` is modelled on ASCII letters only; Unicode case mapping is not modelled.
- The admin page's image upload (`FileReader`) is not modelled; the image URL arrives as a form field.
- `PuppyMatchQuiz.QuizChat.StartOver`: `window.location.reload()` is modelled as a reset of the component's state.
- "Share Result" has no handler and the "View Available" link is navigation; neither is modelled.
- Static pages (layout, contact, about, reviews, banner, pet card, grooming, the admin dashboard and bookings pages), the admin products page and the admin login are not part of this model.
