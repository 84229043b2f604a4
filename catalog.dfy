/** The records the shop stores: pets, store products and bookings, with the
    fields of `shared/schema.ts` and `client/src/lib/data.ts`, and the seed
    lists the client starts from. Prices are whole rupees. */
module Catalog {
  import opened Common

  /** A pet in the catalogue. The source's `type` field is called `species`
      here (`type` is a Dafny keyword). */
  datatype Pet = Pet(
    id: int,
    name: string,
    breed: string,
    species: string,
    ageWeeks: int,
    gender: string,
    priceMin: int,
    priceMax: int,
    status: string,
    imageUrl: string,
    featured: bool,
    description: string)

  /** A store product. */
  datatype Product = Product(
    id: int,
    name: string,
    category: string,
    price: int,
    imageUrl: string,
    description: string)

  /** A stored booking (visit, grooming or enquiry). `kind` is the source's
      `type`; `phone` is absent when the customer left it blank. */
  datatype Booking = Booking(
    id: int,
    name: string,
    phone: Option<string>,
    kind: string,
    detail: string,
    time: string,
    status: string)

  /** A booking as posted to the server, before the database assigns its id
      (`Omit<Booking, "id">`). */
  datatype BookingRequest = BookingRequest(
    name: string,
    phone: Option<string>,
    kind: string,
    detail: string,
    time: string,
    status: string)

  const BeagleImage := "@assets/generated_images/cute_beagle_puppy.png"
  const KittenImage := "@assets/generated_images/fluffy_persian_kitten.png"
  const GoldenImage := "@assets/generated_images/golden_retriever_puppy_smiling.png"

  const Barney := Pet(1, "Barney", "Beagle", "dog", 8, "Male", 25000, 30000, "Available", BeagleImage, true,
                      "Playful and curious, loves to sniff around!")
  const Snowball := Pet(2, "Snowball", "Persian Cat", "cat", 10, "Female", 15000, 20000, "Available", KittenImage, true,
                        "Super fluffy and calm. Loves naps.")
  const Goldie := Pet(3, "Goldie", "Golden Retriever", "dog", 9, "Female", 30000, 35000, "Available", GoldenImage, true,
                      "The perfect family dog. Always smiling!")
  const Rocky := Pet(4, "Rocky", "Shih Tzu", "dog", 12, "Male", 18000, 22000, "Available", BeagleImage, false,
                     "Hypoallergenic and great for apartments.")
  const Luna := Pet(5, "Luna", "Labrador", "dog", 8, "Female", 20000, 25000, "Available", GoldenImage, false,
                    "Energetic and loves water.")
  const Coco := Pet(6, "Coco", "Poodle", "dog", 11, "Male", 28000, 32000, "Reserved", BeagleImage, false,
                    "Smart and easy to train.")

  /** The pet list every page starts from until the admin edits it. */
  const SeedPets: seq<Pet> := [Barney, Snowball, Goldie, Rocky, Luna, Coco]

  /** The booking list the booking pages start from. */
  const SeedBookings: seq<Booking> := [
    Booking(1, "Rahul Kumar", Some("+91 98765 43210"), "Visit", "Beagle Puppy", "Tomorrow, 10:00 AM", "Pending"),
    Booking(2, "Priya Sharma", Some("+91 98123 45678"), "Grooming", "Bath & Blow Dry", "Today, 2:00 PM", "Confirmed"),
    Booking(3, "Amit Patel", Some("+91 90000 11122"), "Enquiry", "3 Products", "Yesterday", "Completed")
  ]

  /** The ids of a pet list, in order (`items.map(i => i.id)`). */
  function PetIds(pets: seq<Pet>): (ids: seq<int>)
    ensures |ids| == |pets|
    ensures forall i :: 0 <= i < |pets| ==> ids[i] == pets[i].id
    ensures forall p :: p in pets ==> p.id in ids
    ensures forall x :: x in ids ==> exists p :: p in pets && p.id == x
  {
    if pets == [] then [] else [pets[0].id] + PetIds(pets[1..])
  }

  /** The ids of a booking list, in order (`bookings.map(b => b.id)`). */
  function BookingIds(bookings: seq<Booking>): (ids: seq<int>)
    ensures |ids| == |bookings|
    ensures forall i :: 0 <= i < |bookings| ==> ids[i] == bookings[i].id
    ensures forall b :: b in bookings ==> b.id in ids
    ensures forall x :: x in ids ==> exists b :: b in bookings && b.id == x
  {
    if bookings == [] then [] else [bookings[0].id] + BookingIds(bookings[1..])
  }
}
