/** The "Meet & Greet" booking page: the pet named by the `petId` query
    parameter, a form, and a submit handler that appends a pending visit to
    the stored booking list. The current date and time, which the handler
    reads from the browser clock, are parameters here. */
module BookVisit {
  import opened Common
  import opened Catalog

  /** The characters JavaScript's `trim` removes: the white-space and
      line-terminator code points of ECMAScript. */
  predicate IsJsSpace(c: char)
  {
    c == '\t' || c == '\n' || c == '\U{B}' || c == '\U{C}' || c == '\r' || c == ' ' ||
    c == '\U{A0}' || c == '\U{1680}' || ('\U{2000}' <= c <= '\U{200A}') ||
    c == '\U{2028}' || c == '\U{2029}' || c == '\U{202F}' || c == '\U{205F}' ||
    c == '\U{3000}' || c == '\U{FEFF}'
  }

  /** `s` with its leading white space removed. */
  function TrimStart(s: string): (r: string)
    ensures |r| <= |s| && r == s[|s| - |r|..]
    ensures forall k :: 0 <= k < |s| - |r| ==> IsJsSpace(s[k])
    ensures r == [] || !IsJsSpace(r[0])
  {
    if s != [] && IsJsSpace(s[0]) then TrimStart(s[1..]) else s
  }

  /** `s` with its trailing white space removed. */
  function TrimEnd(s: string): (r: string)
    ensures |r| <= |s| && r == s[..|r|]
    ensures forall k :: |r| <= k < |s| ==> IsJsSpace(s[k])
    ensures r == [] || !IsJsSpace(r[|r| - 1])
  {
    if s != [] && IsJsSpace(s[|s| - 1]) then TrimEnd(s[..|s| - 1]) else s
  }

  /** `r` is the slice of `s` starting at `i`, and everything of `s` before
      and after that slice is white space. */
  predicate SliceBetweenSpaces(s: string, r: string, i: int)
  {
    0 <= i && i + |r| <= |s| && r == s[i..i + |r|] &&
    (forall k :: 0 <= k < i ==> IsJsSpace(s[k])) &&
    (forall k :: i + |r| <= k < |s| ==> IsJsSpace(s[k]))
  }

  /** JavaScript's `String.prototype.trim`: the slice of `s` left once the
      white space at both ends is removed. */
  function Trim(s: string): (r: string)
    ensures r == [] || (!IsJsSpace(r[0]) && !IsJsSpace(r[|r| - 1]))
    ensures exists i :: SliceBetweenSpaces(s, r, i)
  {
    var t := TrimStart(s);
    var r := TrimEnd(t);
    PrefixOfSuffix(s, t, r);
    assert SliceBetweenSpaces(s, r, |s| - |t|);
    r
  }

  /** A prefix `r` of a suffix `t` of `s` is a slice of `s`; what `r` leaves
      of `t` is what follows the slice in `s`. */
  lemma PrefixOfSuffix(s: string, t: string, r: string)
    requires |t| <= |s| && t == s[|s| - |t|..]
    requires |r| <= |t| && r == t[..|r|]
    requires forall k :: |r| <= k < |t| ==> IsJsSpace(t[k])
    ensures r == s[|s| - |t|..|s| - |t| + |r|]
    ensures forall k :: |s| - |t| + |r| <= k < |s| ==> IsJsSpace(s[k])
  {
    var i := |s| - |t|;
    forall k | i + |r| <= k < |s| ensures IsJsSpace(s[k]) {
      assert s[k] == t[k - i];
    }
  }

  /** A string that neither starts nor ends with white space is its own trim. */
  lemma TrimOfTrimmed(s: string)
    requires s == [] || (!IsJsSpace(s[0]) && !IsJsSpace(s[|s| - 1]))
    ensures Trim(s) == s
  {
  }

  /** The trim is empty exactly when the string is all white space. */
  lemma TrimEmptyIff(s: string)
    ensures Trim(s) == "" <==> forall k :: 0 <= k < |s| ==> IsJsSpace(s[k])
  {
  }

  /** `pets.find(p => p.id === Number(petId))`; `petNumber` is the number the
      query parameter converts to, `None` when it is not an integer (NaN). */
  function SelectedPet(pets: seq<Pet>, petNumber: Option<int>): (r: Option<Pet>)
    ensures petNumber.None? ==> r.None?
    ensures r.Some? ==> r.value in pets && Some(r.value.id) == petNumber
    ensures r.None? <==> forall p :: p in pets ==> Some(p.id) != petNumber
    ensures r.Some? ==> exists k :: 0 <= k < |pets| && pets[k] == r.value &&
                                    forall j :: 0 <= j < k ==> Some(pets[j].id) != petNumber
  {
    FindFirst(pets, (p: Pet) => Some(p.id) == petNumber)
  }

  /** The booking's time text: the date (or today) and the time, trimmed;
      the current date-time when that comes out empty. */
  function VisitTime(date: string, time: string, today: string, now: string): (r: string)
    ensures now != "" ==> r != ""
  {
    var stamp := Trim((if date != "" then date else today) + " " + time);
    if stamp != "" then stamp else now
  }

  /** With both the date and the time filled in (as the form's `required`
      inputs ask), the booking's time is exactly "<date> <time>". */
  lemma FilledFormKeepsDateAndTime(date: string, time: string, today: string, now: string)
    requires date != "" && !IsJsSpace(date[0])
    requires time != "" && !IsJsSpace(time[|time| - 1])
    ensures VisitTime(date, time, today, now) == date + " " + time
  {
    TrimOfTrimmed(date + " " + time);
  }

  /** The booking a submit builds. */
  function NewVisit(bookings: seq<Booking>, selected: Option<Pet>, name: string, phone: string, time: string): (b: Booking)
    ensures forall x :: x in bookings ==> x.id < b.id
    ensures bookings == [] ==> b.id == 1
    ensures bookings != [] ==> exists x :: x in bookings && x.id == b.id - 1
    ensures b.kind == "Visit" && b.status == "Pending"
    ensures b.detail == if selected.Some? then selected.value.name else "Visit request"
    ensures b.name == if name != "" then name else "Guest"
    ensures b.phone == if phone != "" then Some(phone) else None
    ensures b.time == time
  {
    Booking(
      NextId(BookingIds(bookings)),
      if name != "" then name else "Guest",
      if phone != "" then Some(phone) else None,
      "Visit",
      if selected.Some? then selected.value.name else "Visit request",
      time,
      "Pending")
  }

  /** No two bookings share an id. */
  predicate UniqueBookingIds(bookings: seq<Booking>)
  {
    forall i, j :: 0 <= i < j < |bookings| ==> bookings[i].id != bookings[j].id
  }

  /** With the seed bookings (ids 1 to 3) the first visit booked is number 4. */
  lemma SeedVisitIsNumberFour(bookings: seq<Booking>, selected: Option<Pet>, name: string, phone: string, time: string)
    requires bookings == SeedBookings
    ensures NewVisit(bookings, selected, name, phone, time).id == 4
  {
    SeedBookingIds(bookings);
    NextIdAfterThree(BookingIds(bookings));
  }

  /** The seed bookings are numbered 1, 2 and 3. */
  lemma SeedBookingIds(bookings: seq<Booking>)
    requires bookings == SeedBookings
    ensures BookingIds(bookings) == [1, 2, 3]
  {
    var ids := BookingIds(bookings);
    assert |ids| == 3 && ids[0] == 1 && ids[1] == 2 && ids[2] == 3;
  }

  /** One step of the seed-bookings example: after the ids 1, 2 and 3, the
      id rule gives 4. */
  lemma NextIdAfterThree(ids: seq<int>)
    requires ids == [1, 2, 3]
    ensures NextId(ids) == 4
  {
    assert 3 in ids;
  }

  /** Appending a new visit keeps booking ids unique. */
  lemma NewVisitKeepsIdsUnique(bookings: seq<Booking>, selected: Option<Pet>, name: string, phone: string, time: string)
    requires UniqueBookingIds(bookings)
    ensures UniqueBookingIds(bookings + [NewVisit(bookings, selected, name, phone, time)])
  {
    var b := NewVisit(bookings, selected, name, phone, time);
    var r := bookings + [b];
    forall i, j | 0 <= i < j < |r| ensures r[i].id != r[j].id {
      assert r[i] == bookings[i];
      if j == |bookings| {
        assert bookings[i] in bookings;
      } else {
        assert r[j] == bookings[j];
      }
    }
  }

  /** The page's state: the pet list and the query parameter it was opened
      with, the stored bookings, and the form's four fields. */
  class VisitForm {
    const pets: seq<Pet>
    const petNumber: Option<int>
    var bookings: seq<Booking>
    var nameField: string
    var phoneField: string
    var dateField: string
    var timeField: string

    constructor (pets: seq<Pet>, petNumber: Option<int>, stored: seq<Booking>)
      ensures this.pets == pets && this.petNumber == petNumber && bookings == stored
      ensures nameField == "" && phoneField == "" && dateField == "" && timeField == ""
    {
      this.pets := pets;
      this.petNumber := petNumber;
      bookings := stored;
      nameField, phoneField, dateField, timeField := "", "", "", "";
    }

    /** The inputs' change handlers. */
    method Fill(name: string, phone: string, date: string, time: string)
      modifies this`nameField, this`phoneField, this`dateField, this`timeField
      ensures nameField == name && phoneField == phone && dateField == date && timeField == time
    {
      nameField, phoneField, dateField, timeField := name, phone, date, time;
    }

    /** The submit handler, once its delay has elapsed: append the new visit. */
    method Submit(today: string, now: string)
      modifies this`bookings
      ensures bookings == old(bookings) + [NewVisit(old(bookings), SelectedPet(pets, petNumber),
                                                    nameField, phoneField,
                                                    VisitTime(dateField, timeField, today, now))]
      ensures |bookings| == |old(bookings)| + 1 && bookings[..|old(bookings)|] == old(bookings)
      ensures UniqueBookingIds(old(bookings)) ==> UniqueBookingIds(bookings)
    {
      var selected := SelectedPet(pets, petNumber);
      var time := VisitTime(dateField, timeField, today, now);
      var booking := NewVisit(bookings, selected, nameField, phoneField, time);
      if UniqueBookingIds(bookings) {
        NewVisitKeepsIdsUnique(bookings, selected, nameField, phoneField, time);
      }
      bookings := bookings + [booking];
    }
  }
}
