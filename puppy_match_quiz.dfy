/** The PuppyMatch chat: six fixed questions, a loading step while the
    "analysis" timer runs, and a result step showing one of three breed
    recommendations chosen by a fixed rule on two of the answers. The timers
    and the typing indicator are left out; each delayed transition is one
    atomic step. */
module PuppyMatchQuiz {
  import opened Common

  /** A question: the preference key its answer is stored under, the text
      shown, and the options offered as buttons. */
  datatype Question = Question(key: string, text: string, options: seq<string>)

  /** The six questions, in the order they are asked. */
  const Questions: seq<Question> := [
    Question("budget", "Let's start with your budget for a furry friend! \U{1F4B0}",
             ["< \U{20B9}15k", "\U{20B9}15k \U{2013} \U{20B9}30k", "\U{20B9}30k+"]),
    Question("housing", "Where will your new best friend live? \U{1F3E0}",
             ["Apartment", "Villa", "Independent House"]),
    Question("exercise", "How much time can you dedicate to daily exercise? \U{1F3C3}\U{200D}\U{2642}\U{FE0F}",
             ["Low (Short walks)", "Medium (30-60 mins)", "High (Active play)"]),
    Question("temperament", "What kind of personality are you looking for? \U{1F3AD}",
             ["Calm & Chill", "Playful & Energetic", "Protective", "Doesn't matter"]),
    Question("kids", "Do you have young kids at home? \U{1F476}",
             ["Yes", "No", "Planning soon"]),
    Question("experience", "Have you owned a dog before? \U{1F393}",
             ["First-time owner", "Experienced"])
  ]

  /** The step that shows the loading card: one past the last question. */
  const LoadingStep: nat := 6

  /** The step that shows the result card. */
  const ResultStep: nat := 7

  /** A recommendation card. */
  datatype Recommendation = Recommendation(breed: string, desc: string, reasons: seq<string>, cost: string, img: string)

  const BeaglePick := Recommendation(
    "Beagle",
    "The merry Beagle is fun-loving and great with families!",
    ["Perfect size for apartments", "Great with kids", "Playful but manageable energy"],
    "\U{20B9}4,000 \U{2013} \U{20B9}6,000",
    "https://images.unsplash.com/photo-1537151608828-ea2b11777ee8?auto=format&fit=crop&w=600&q=80")

  const GoldenRetrieverPick := Recommendation(
    "Golden Retriever",
    "The ultimate family dog! Gentle, smart, and loves everyone.",
    ["Thrives in larger spaces", "Loves active play", "Ideally suited for families"],
    "\U{20B9}6,000 \U{2013} \U{20B9}9,000",
    "https://images.unsplash.com/photo-1633722715463-d30f4f325e24?auto=format&fit=crop&w=600&q=80")

  const ShihTzuPick := Recommendation(
    "Shih Tzu",
    "A royal companion that loves laps and indoor play.",
    ["Perfect apartment dweller", "Low exercise needs", "Hypoallergenic coat"],
    "\U{20B9}3,000 \U{2013} \U{20B9}5,000",
    "https://images.unsplash.com/photo-1583337130417-3346a1be7dee?auto=format&fit=crop&w=600&q=80")

  /** `preferences[key]`, absent (`undefined`) when not yet answered. */
  function Lookup(prefs: map<string, string>, key: string): Option<string>
  {
    if key in prefs then Some(prefs[key]) else None
  }

  /** The recommendation rule: Golden Retriever for a villa with active play,
      Shih Tzu for an apartment with short walks, Beagle otherwise. */
  function Recommend(prefs: map<string, string>): (r: Recommendation)
    ensures r == GoldenRetrieverPick || r == ShihTzuPick || r == BeaglePick
    ensures |r.reasons| == 3
    ensures r.breed == "Golden Retriever" <==>
      Lookup(prefs, "housing") == Some("Villa") && Lookup(prefs, "exercise") == Some("High (Active play)")
    ensures r.breed == "Shih Tzu" <==>
      Lookup(prefs, "housing") == Some("Apartment") && Lookup(prefs, "exercise") == Some("Low (Short walks)")
    ensures r.breed == "Beagle" <==> r != GoldenRetrieverPick && r != ShihTzuPick
  {
    if Lookup(prefs, "housing") == Some("Villa") && Lookup(prefs, "exercise") == Some("High (Active play)") then
      GoldenRetrieverPick
    else if Lookup(prefs, "housing") == Some("Apartment") && Lookup(prefs, "exercise") == Some("Low (Short walks)") then
      ShihTzuPick
    else
      BeaglePick
  }

  /** The recommendation reads only the housing and exercise answers. */
  lemma RecommendReadsHousingAndExercise(p: map<string, string>, q: map<string, string>)
    requires Lookup(p, "housing") == Lookup(q, "housing")
    requires Lookup(p, "exercise") == Lookup(q, "exercise")
    ensures Recommend(p) == Recommend(q)
  {
  }

  /** The preferences after answering the first `|answers|` questions in
      order, each answer stored under its question's key. */
  function AnswersMap(answers: seq<string>): (prefs: map<string, string>)
    requires |answers| <= |Questions|
  {
    if answers == [] then map[]
    else AnswersMap(answers[..|answers| - 1])[Questions[|answers| - 1].key := answers[|answers| - 1]]
  }

  /** After `n` answers the preferences hold exactly the first `n` keys, each
      with the answer given to its question. */
  lemma {:induction false} AnswerRecorded(answers: seq<string>)
    requires |answers| <= |Questions|
    ensures forall k :: k in AnswersMap(answers) <==> exists i :: 0 <= i < |answers| && Questions[i].key == k
    ensures forall i :: 0 <= i < |answers| ==> Questions[i].key in AnswersMap(answers)
    ensures forall i :: 0 <= i < |answers| ==> AnswersMap(answers)[Questions[i].key] == answers[i]
    decreases |answers|
  {
    if answers != [] {
      var init := answers[..|answers| - 1];
      AnswerRecorded(init);
      forall i | 0 <= i < |init| ensures init[i] == answers[i] && Questions[i].key != Questions[|init|].key {
      }
    }
  }

  /** Once housing and exercise have been answered (three answers or more),
      the pick depends on those two answers alone. */
  lemma QuizOutcome(answers: seq<string>)
    requires 3 <= |answers| <= |Questions|
    ensures var r := Recommend(AnswersMap(answers));
      (r == GoldenRetrieverPick <==> answers[1] == "Villa" && answers[2] == "High (Active play)") &&
      (r == ShihTzuPick <==> answers[1] == "Apartment" && answers[2] == "Low (Short walks)") &&
      (r == BeaglePick <==> !(answers[1] == "Villa" && answers[2] == "High (Active play)") &&
                            !(answers[1] == "Apartment" && answers[2] == "Low (Short walks)"))
  {
    AnswerRecorded(answers);
    HousingAndExerciseKeys();
    var m := AnswersMap(answers);
    assert Lookup(m, "housing") == Some(answers[1]);
    assert Lookup(m, "exercise") == Some(answers[2]);
  }

  /** The second and third questions store housing and exercise. */
  lemma HousingAndExerciseKeys()
    ensures Questions[1].key == "housing" && Questions[2].key == "exercise"
  {
  }

  /** The card the component renders. */
  datatype Screen =
    | AskQuestion(number: nat, total: nat, text: string, options: seq<string>)
    | Analyzing
    | ShowMatch(rec: Recommendation)
    | Blank

  /** The component's state: the step, the preferences gathered so far, the
      result, and the preferences the loading timer reads (the value the
      completion callback closed over, taken before the last answer was
      stored). `answers` records what was chosen at each step. */
  class QuizChat {
    var step: nat
    var preferences: map<string, string>
    var result: Option<Recommendation>
    var loadingPrefs: map<string, string>
    ghost var answers: seq<string>

    /** The step never passes the result step; the preferences are exactly
        the answers given; a result exists exactly at the result step and is
        the pick for those answers. */
    ghost predicate Valid()
      reads this
    {
      step <= ResultStep &&
      |answers| == (if step < |Questions| then step else |Questions|) &&
      preferences == AnswersMap(answers) &&
      (step == LoadingStep ==> loadingPrefs == AnswersMap(answers[..|Questions| - 1])) &&
      (result.Some? <==> step == ResultStep) &&
      (step == ResultStep ==> result == Some(Recommend(AnswersMap(answers))))
    }

    constructor ()
      ensures Valid()
      ensures step == 0 && preferences == map[] && result == None
    {
      step := 0;
      preferences := map[];
      result := None;
      loadingPrefs := map[];
      answers := [];
    }

    /** An option button: store the answer under the current question's key.
        Before the last question the chat moves to the next one; after it
        the chat moves to the loading step, whose timer will read the
        preferences as they were before this answer. */
    method Answer(option: string)
      requires Valid() && step < |Questions|
      modifies this
      ensures Valid()
      ensures preferences == old(preferences)[Questions[old(step)].key := option]
      ensures forall k :: k != Questions[old(step)].key ==> Lookup(preferences, k) == Lookup(old(preferences), k)
      ensures step == old(step) + 1 && result == old(result) && result.None?
      ensures answers == old(answers) + [option]
    {
      var current := Questions[step];
      var before := preferences;
      assert answers + [option] == old(answers) + [option];
      assert (answers + [option])[..|answers|] == answers;
      preferences := preferences[current.key := option];
      answers := answers + [option];
      if step < |Questions| - 1 {
        step := step + 1;
      } else {
        step := LoadingStep;
        loadingPrefs := before;
      }
    }

    /** The loading timer fires: the result is the pick for the preferences
        it closed over, and the chat shows it. Because the last answer is
        not one the rule reads, this is the pick for all six answers. */
    method CompleteLoading()
      requires Valid() && step == LoadingStep
      modifies this`step, this`result
      ensures Valid()
      ensures step == ResultStep
      ensures result == Some(Recommend(loadingPrefs))
      ensures result == Some(Recommend(preferences))
    {
      AnswerRecorded(answers);
      AnswerRecorded(answers[..|Questions| - 1]);
      assert answers[..|Questions| - 1][1] == answers[1] && answers[..|Questions| - 1][2] == answers[2];
      HousingAndExerciseKeys();
      RecommendReadsHousingAndExercise(loadingPrefs, preferences);
      result := Some(Recommend(loadingPrefs));
      step := ResultStep;
    }

    /** "Start Over" reloads the page, which starts the chat afresh. */
    method StartOver()
      modifies this
      ensures Valid()
      ensures step == 0 && preferences == map[] && result == None
    {
      step := 0;
      preferences := map[];
      result := None;
      loadingPrefs := map[];
      answers := [];
    }

    /** The card shown for the current state: the question card while a
        question is pending, the loading card at the loading step, the
        result card when there is a result, and nothing otherwise. */
    function View(): (s: Screen)
      reads this
      ensures s.AskQuestion? <==> step < |Questions|
      ensures s.Analyzing? <==> step == LoadingStep
      ensures s.ShowMatch? <==> step > LoadingStep && result.Some?
      ensures s.AskQuestion? ==> s.number == step + 1 && s.total == |Questions| &&
                                 s.text == Questions[step].text && s.options == Questions[step].options
      ensures s.ShowMatch? ==> Some(s.rec) == result
      ensures Valid() && s.ShowMatch? ==> s.rec == Recommend(preferences) && |s.rec.reasons| == 3
    {
      if step < |Questions| then
        AskQuestion(step + 1, |Questions|, Questions[step].text, Questions[step].options)
      else if step == |Questions| then Analyzing
      else if result.Some? then ShowMatch(result.value)
      else Blank
    }
  }

  /** Answering all six questions from the start and letting the timer fire
      shows the pick for the housing and exercise answers. */
  method RunQuiz(choices: seq<string>) returns (shown: Screen)
    requires |choices| == |Questions|
    ensures shown.ShowMatch?
    ensures shown.rec == GoldenRetrieverPick <==> choices[1] == "Villa" && choices[2] == "High (Active play)"
    ensures shown.rec == ShihTzuPick <==> choices[1] == "Apartment" && choices[2] == "Low (Short walks)"
    ensures shown.rec == BeaglePick <==> !(choices[1] == "Villa" && choices[2] == "High (Active play)") &&
                                         !(choices[1] == "Apartment" && choices[2] == "Low (Short walks)")
  {
    var chat := new QuizChat();
    var i := 0;
    while i < |choices|
      invariant 0 <= i <= |choices|
      invariant chat.Valid() && chat.step == i && chat.answers == choices[..i]
    {
      chat.Answer(choices[i]);
      assert choices[..i + 1] == choices[..i] + [choices[i]];
      i := i + 1;
    }
    assert choices[..|choices|] == choices;
    chat.CompleteLoading();
    QuizOutcome(choices);
    shown := chat.View();
  }
}
