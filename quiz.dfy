/** The quiz component (components/Quiz.tsx): six fixed questions answered one
    at a time, each answer trimmed and stored under the question's key, the
    ornament shape and colour answers normalised by keyword matching. */
module QuizComponent {
  import opened Types
  import opened JsString

  /** The keys of `UserPreferences`, named as the questions name them. */
  datatype PrefKey = FavoriteActivity | FavoriteFlavor | OrnamentShape | OrnamentColor | HolidayVibe | Wish

  /** The key of each question, in the order the quiz asks them. */
  const Questions: seq<PrefKey> := [FavoriteActivity, FavoriteFlavor, OrnamentShape, OrnamentColor, HolidayVibe, Wish]

  /** The colour tokens: the initial one, and the four the colour mapping produces. */
  const InitialColor: string := "bg-red-500"
  const Yellow: string := "bg-yellow-500"
  const Blue: string := "bg-blue-600"
  const Green: string := "bg-green-600"
  const Red: string := "bg-red-600"

  /** The record the quiz starts from. */
  const InitialPrefs: UserPreferences := UserPreferences("", "", "", "", Circle, InitialColor)

  /** Some piece of `answer` reads `w` once lower-cased. */
  ghost predicate MentionsAt(answer: string, w: string, i: nat) {
    i + |w| <= |answer| && ToLower(answer[i..i + |w|]) == w
  }

  ghost predicate Mentions(answer: string, w: string) {
    exists i: nat :: MentionsAt(answer, w, i)
  }

  /** Searching the lower-cased answer for a lower-case keyword is the same as
      looking for a piece of the answer that lower-cases to the keyword. */
  lemma IncludesLowerIffMentions(answer: string, w: string)
    ensures Includes(ToLower(answer), w) <==> Mentions(answer, w)
  {
    var lower := ToLower(answer);
    IncludesSpec(lower, w);
    ToLowerSpec(answer);
    forall i: nat ensures OccursAt(lower, w, i) <==> MentionsAt(answer, w, i) {
      if i + |w| <= |answer| { ToLowerSlice(answer, i, i + |w|); }
    }
  }

  /** The shape answer's mapping, `toLowerCase().includes(...)` tried in order. */
  function MapShape(answer: string): Shape {
    var lower := ToLower(answer);
    if Includes(lower, "star") then Star
    else if Includes(lower, "ginger") then Gingerbread
    else Circle
  }

  /** The shape mapping: "star" anywhere, in any case, wins; then "ginger"; everything
      else is a circle. */
  lemma MapShapeByKeyword(answer: string)
    ensures MapShape(answer) == Star <==> Mentions(answer, "star")
    ensures MapShape(answer) == Gingerbread <==> !Mentions(answer, "star") && Mentions(answer, "ginger")
    ensures MapShape(answer) == Circle <==> !Mentions(answer, "star") && !Mentions(answer, "ginger")
  {
    IncludesLowerIffMentions(answer, "star");
    IncludesLowerIffMentions(answer, "ginger");
  }

  /** The colour answer's mapping, `toLowerCase().includes(...)` tried in order. */
  function MapColor(answer: string): string {
    var lower := ToLower(answer);
    if Includes(lower, "gold") || Includes(lower, "yellow") then Yellow
    else if Includes(lower, "blue") then Blue
    else if Includes(lower, "green") then Green
    else Red
  }

  /** The colour mapping, rules tried in order: gold or yellow, then blue, then green,
      and red for everything else. */
  lemma MapColorByKeyword(answer: string)
    ensures MapColor(answer) == Yellow <==> Mentions(answer, "gold") || Mentions(answer, "yellow")
    ensures MapColor(answer) == Blue <==>
              !Mentions(answer, "gold") && !Mentions(answer, "yellow") && Mentions(answer, "blue")
    ensures MapColor(answer) == Green <==>
              !Mentions(answer, "gold") && !Mentions(answer, "yellow") && !Mentions(answer, "blue")
              && Mentions(answer, "green")
    ensures MapColor(answer) == Red <==>
              !Mentions(answer, "gold") && !Mentions(answer, "yellow") && !Mentions(answer, "blue")
              && !Mentions(answer, "green")
  {
    IncludesLowerIffMentions(answer, "gold");
    IncludesLowerIffMentions(answer, "yellow");
    IncludesLowerIffMentions(answer, "blue");
    IncludesLowerIffMentions(answer, "green");
  }

  /** The colour mapping always yields one of its four tokens, never the initial colour. */
  lemma MapColorRange(answer: string)
    ensures MapColor(answer) in {Yellow, Blue, Green, Red}
    ensures MapColor(answer) != InitialColor
  {
    assert InitialColor[7] == '5' && Red[7] == '6';
  }

  /** Both mappings ignore case: answers that agree once lower-cased map alike. */
  lemma {:induction false} MappingIgnoresCase(a: string, b: string)
    requires ToLower(a) == ToLower(b)
    ensures MapShape(a) == MapShape(b) && MapColor(a) == MapColor(b)
  {
  }

  /** The six questions ask for six different fields, so every field of the record is
      asked for exactly once. */
  lemma QuestionsAskEachKeyOnce()
    ensures |Questions| == 6
    ensures forall key: PrefKey :: key in Questions
    ensures forall i, j :: 0 <= i < j < |Questions| ==> Questions[i] != Questions[j]
  {
    assert Questions[0] == FavoriteActivity && Questions[1] == FavoriteFlavor && Questions[2] == OrnamentShape;
    assert Questions[3] == OrnamentColor && Questions[4] == HolidayVibe && Questions[5] == Wish;
    forall key: PrefKey ensures key in Questions {
      match key
      case FavoriteActivity => assert Questions[0] == key;
      case FavoriteFlavor => assert Questions[1] == key;
      case OrnamentShape => assert Questions[2] == key;
      case OrnamentColor => assert Questions[3] == key;
      case HolidayVibe => assert Questions[4] == key;
      case Wish => assert Questions[5] == key;
    }
  }

  /** `{ ...prefs, [key]: value }` with the shape and colour keys normalised. */
  function Assign(p: UserPreferences, key: PrefKey, value: string): UserPreferences {
    match key
    case FavoriteActivity => p.(favoriteActivity := value)
    case FavoriteFlavor => p.(favoriteFlavor := value)
    case OrnamentShape => p.(ornamentShape := MapShape(value))
    case OrnamentColor => p.(ornamentColor := MapColor(value))
    case HolidayVibe => p.(holidayVibe := value)
    case Wish => p.(wish := value)
  }

  /** `p` and `q` agree on every field other than the one `key` names. */
  predicate SameExcept(p: UserPreferences, q: UserPreferences, key: PrefKey) {
    (key == FavoriteActivity || p.favoriteActivity == q.favoriteActivity)
    && (key == FavoriteFlavor || p.favoriteFlavor == q.favoriteFlavor)
    && (key == OrnamentShape || p.ornamentShape == q.ornamentShape)
    && (key == OrnamentColor || p.ornamentColor == q.ornamentColor)
    && (key == HolidayVibe || p.holidayVibe == q.holidayVibe)
    && (key == Wish || p.wish == q.wish)
  }

  /** The field `key` names in `p` holds what answering `answer` to that question stores:
      the trimmed answer, or its shape or colour mapping. */
  predicate Stores(p: UserPreferences, key: PrefKey, answer: string) {
    match key
    case FavoriteActivity => p.favoriteActivity == Trim(answer)
    case FavoriteFlavor => p.favoriteFlavor == Trim(answer)
    case OrnamentShape => p.ornamentShape == MapShape(Trim(answer))
    case OrnamentColor => p.ornamentColor == MapColor(Trim(answer))
    case HolidayVibe => p.holidayVibe == Trim(answer)
    case Wish => p.wish == Trim(answer)
  }

  /** `!text.trim()`: the text is empty once trimmed. */
  predicate IsBlank(text: string) {
    Trim(text) == []
  }

  /** The component's state: the current question, the text box, the record so far. */
  datatype QuizState = QuizState(step: nat, input: string, prefs: UserPreferences)

  const InitialQuiz: QuizState := QuizState(0, "", InitialPrefs)

  /** What `handleNext` leaves behind: the new state, and the record passed to
      `onComplete` if it was called. */
  datatype StepResult = StepResult(state: QuizState, completed: Option<UserPreferences>)

  /** `handleNext` as a function of the state. */
  function Advance(s: QuizState): (r: StepResult)
    requires s.step < |Questions|
    ensures r.state.step < |Questions|
  {
    if IsBlank(s.input) then StepResult(s, None)
    else
      var updated := Assign(s.prefs, Questions[s.step], Trim(s.input));
      if s.step < |Questions| - 1 then StepResult(QuizState(s.step + 1, "", updated), None)
      else StepResult(QuizState(s.step, "", updated), Some(updated))
  }

  /** A blank answer (empty or all whitespace) changes nothing and completes nothing,
      and a state is left as it was only for a blank answer. */
  lemma BlankAnswerChangesNothing(s: QuizState)
    requires s.step < |Questions|
    ensures Advance(s) == StepResult(s, None) <==> IsBlank(s.input)
    ensures IsBlank(s.input) <==> AllWhitespace(s.input)
  {
    TrimSpec(s.input);
  }

  /** A non-blank answer writes the current question's field, as trimmed or mapped,
      and no other field. */
  lemma AnswerWritesOnlyCurrentKey(s: QuizState)
    requires s.step < |Questions| && !IsBlank(s.input)
    ensures Stores(Advance(s).state.prefs, Questions[s.step], s.input)
    ensures SameExcept(Advance(s).state.prefs, s.prefs, Questions[s.step])
  {
  }

  /** A non-blank answer clears the text box; before the last question it moves on by
      exactly one, on the last it stays put and hands the updated record to `onComplete`. */
  lemma AnswerAdvances(s: QuizState)
    requires s.step < |Questions| && !IsBlank(s.input)
    ensures Advance(s).state.input == ""
    ensures s.step < |Questions| - 1 ==> Advance(s).state.step == s.step + 1 && Advance(s).completed == None
    ensures s.step == |Questions| - 1 ==>
              Advance(s).state.step == s.step && Advance(s).completed == Some(Advance(s).state.prefs)
  {
  }

  /** The answers among `inputs` that `handleNext` accepts, in order. */
  function NonBlank(inputs: seq<string>): seq<string> {
    if inputs == [] then []
    else (if IsBlank(inputs[0]) then [] else [inputs[0]]) + NonBlank(inputs[1..])
  }

  /** The record `p` after answering questions `k`, `k + 1`, ... with `answers`. */
  function Answered(p: UserPreferences, k: nat, answers: seq<string>): UserPreferences
    requires k + |answers| <= |Questions|
    decreases |answers|
  {
    if answers == [] then p
    else Answered(Assign(p, Questions[k], Trim(answers[0])), k + 1, answers[1..])
  }

  /** Answering question `k` with `x`, then the following ones with `rest`. */
  lemma AnsweredCons(p: UserPreferences, k: nat, x: string, rest: seq<string>)
    requires k + 1 + |rest| <= |Questions|
    ensures Answered(p, k, [x] + rest) == Answered(Assign(p, Questions[k], Trim(x)), k + 1, rest)
  {
    assert ([x] + rest)[0] == x && ([x] + rest)[1..] == rest;
  }

  /** The record a complete quiz should produce, field by field from the six answers. */
  function Expected(answers: seq<string>): UserPreferences
    requires |answers| == |Questions|
  {
    UserPreferences(
      favoriteActivity := Trim(answers[0]),
      favoriteFlavor := Trim(answers[1]),
      holidayVibe := Trim(answers[4]),
      wish := Trim(answers[5]),
      ornamentShape := MapShape(Trim(answers[2])),
      ornamentColor := MapColor(Trim(answers[3])))
  }

  datatype RunResult = RunResult(state: QuizState, emitted: seq<UserPreferences>)

  /** Typing each of `inputs` into the box and pressing Next after each one; `emitted`
      lists the records passed to `onComplete`, in order. */
  function Run(s: QuizState, inputs: seq<string>): (r: RunResult)
    requires s.step < |Questions|
    ensures r.state.step < |Questions|
    decreases |inputs|
  {
    if inputs == [] then RunResult(s, [])
    else
      var first := Advance(s.(input := inputs[0]));
      var rest := Run(first.state, inputs[1..]);
      RunResult(rest.state, (if first.completed.Some? then [first.completed.value] else []) + rest.emitted)
  }

  /** Blank inputs alone move nothing and complete nothing. */
  lemma {:induction false} RunBlanks(s: QuizState, inputs: seq<string>)
    requires s.step < |Questions| && NonBlank(inputs) == []
    ensures Run(s, inputs).emitted == []
    ensures Run(s, inputs).state.step == s.step && Run(s, inputs).state.prefs == s.prefs
    decreases |inputs|
  {
    if inputs != [] {
      assert IsBlank(inputs[0]);
      RunBlanks(s.(input := inputs[0]), inputs[1..]);
    }
  }

  /** One blank input at the head of a run is skipped. */
  lemma RunSkipsBlank(s: QuizState, inputs: seq<string>)
    requires s.step < |Questions| && inputs != [] && IsBlank(inputs[0])
    ensures Run(s, inputs) == Run(s.(input := inputs[0]), inputs[1..])
    ensures NonBlank(inputs) == NonBlank(inputs[1..])
  {
  }

  /** One non-blank input at the head of a run is the next answer. */
  lemma RunTakesAnswer(s: QuizState, inputs: seq<string>)
    requires s.step < |Questions| && inputs != [] && !IsBlank(inputs[0])
    ensures var updated := Assign(s.prefs, Questions[s.step], Trim(inputs[0]));
            var last := s.step == |Questions| - 1;
            var next := QuizState(if last then s.step else s.step + 1, "", updated);
            Run(s, inputs).state == Run(next, inputs[1..]).state
            && Run(s, inputs).emitted == (if last then [updated] else []) + Run(next, inputs[1..]).emitted
    ensures NonBlank(inputs) == [inputs[0]] + NonBlank(inputs[1..])
  {
    var x := inputs[0];
    var updated := Assign(s.prefs, Questions[s.step], Trim(x));
    var last := s.step == |Questions| - 1;
    var next := QuizState(if last then s.step else s.step + 1, "", updated);
    var first := Advance(s.(input := x));
    assert Trim(x) != [];
    assert first == StepResult(next, if last then Some(updated) else None);
  }

  /** A run from `s` takes its non-blank inputs as the answers to the next questions, in
      order, skipping no question, and calls `onComplete` once, with the full record,
      exactly when the last question is answered. */
  ghost predicate FollowsAnswers(s: QuizState, inputs: seq<string>)
    requires s.step < |Questions| && s.step + |NonBlank(inputs)| <= |Questions|
  {
    var answers := NonBlank(inputs);
    var n := s.step + |answers|;
    (n < |Questions| ==>
       Run(s, inputs).emitted == [] && Run(s, inputs).state.step == n
       && Run(s, inputs).state.prefs == Answered(s.prefs, s.step, answers))
    && (n == |Questions| ==> Run(s, inputs).emitted == [Answered(s.prefs, s.step, answers)])
  }

  /** A blank input at the head of a run keeps the run following its answers. */
  lemma BlankKeepsFollowing(s: QuizState, inputs: seq<string>)
    requires s.step < |Questions| && inputs != [] && IsBlank(inputs[0])
    requires s.step + |NonBlank(inputs)| <= |Questions|
    requires s.step + |NonBlank(inputs[1..])| <= |Questions| && FollowsAnswers(s.(input := inputs[0]), inputs[1..])
    ensures FollowsAnswers(s, inputs)
  {
    RunSkipsBlank(s, inputs);
  }

  /** An answer to an earlier question at the head of a run, followed by a run that
      follows its answers from the next question, gives a run that follows its answers. */
  lemma AnswerKeepsFollowing(s: QuizState, inputs: seq<string>)
    requires s.step + 1 < |Questions| && inputs != [] && !IsBlank(inputs[0])
    requires s.step + |NonBlank(inputs)| <= |Questions|
    requires FollowsAnswers(QuizState(s.step + 1, "", Assign(s.prefs, Questions[s.step], Trim(inputs[0]))), inputs[1..])
    ensures FollowsAnswers(s, inputs)
  {
    RunTakesAnswer(s, inputs);
    var updated := Assign(s.prefs, Questions[s.step], Trim(inputs[0]));
    var next := QuizState(s.step + 1, "", updated);
    var rest := NonBlank(inputs[1..]);
    AnsweredCons(s.prefs, s.step, inputs[0], rest);
    assert NonBlank(inputs) == [inputs[0]] + rest;
    assert Answered(s.prefs, s.step, NonBlank(inputs)) == Answered(updated, s.step + 1, rest);
    assert Run(s, inputs).emitted == Run(next, inputs[1..]).emitted;
    assert Run(s, inputs).state == Run(next, inputs[1..]).state;
  }

  /** The answer to the last question at the head of a run completes the quiz with the
      record so far plus that answer; the blank inputs after it change nothing. */
  lemma LastAnswerCompletes(s: QuizState, inputs: seq<string>)
    requires s.step + 1 == |Questions| && inputs != [] && !IsBlank(inputs[0])
    requires s.step + |NonBlank(inputs)| <= |Questions|
    ensures FollowsAnswers(s, inputs)
  {
    RunTakesAnswer(s, inputs);
    var updated := Assign(s.prefs, Questions[s.step], Trim(inputs[0]));
    var next := QuizState(s.step, "", updated);
    var rest := NonBlank(inputs[1..]);
    assert rest == [];
    RunBlanks(next, inputs[1..]);
    AnsweredCons(s.prefs, s.step, inputs[0], rest);
    assert Answered(updated, s.step + 1, []) == updated;
    assert Run(s, inputs).emitted == [updated];
  }

  /** Every run within the six questions follows its answers. */
  lemma {:induction false} RunFollowsAnswers(s: QuizState, inputs: seq<string>)
    requires s.step < |Questions| && s.step + |NonBlank(inputs)| <= |Questions|
    ensures FollowsAnswers(s, inputs)
    decreases |inputs|
  {
    if inputs == [] {
    } else if IsBlank(inputs[0]) {
      RunSkipsBlank(s, inputs);
      RunFollowsAnswers(s.(input := inputs[0]), inputs[1..]);
      BlankKeepsFollowing(s, inputs);
    } else {
      RunTakesAnswer(s, inputs);
      if s.step + 1 < |Questions| {
        RunFollowsAnswers(QuizState(s.step + 1, "", Assign(s.prefs, Questions[s.step], Trim(inputs[0]))), inputs[1..]);
        AnswerKeepsFollowing(s, inputs);
      } else {
        LastAnswerCompletes(s, inputs);
      }
    }
  }

  /** Answering the last three questions sets the colour, the vibe and the wish. */
  lemma AnsweredLastThree(p: UserPreferences, a: seq<string>)
    requires |a| == 3
    ensures Answered(p, 3, a) == p.(ornamentColor := MapColor(Trim(a[0])), holidayVibe := Trim(a[1]), wish := Trim(a[2]))
  {
    assert Questions[3] == OrnamentColor && Questions[4] == HolidayVibe && Questions[5] == Wish;
    var p4 := p.(ornamentColor := MapColor(Trim(a[0])));
    assert Answered(p, 3, a) == Answered(p4, 4, a[1..]);
    var p5 := p4.(holidayVibe := Trim(a[1]));
    assert a[1..][0] == a[1] && a[1..][1..] == a[2..];
    assert Answered(p4, 4, a[1..]) == Answered(p5, 5, a[2..]);
    var p6 := p5.(wish := Trim(a[2]));
    assert a[2..][0] == a[2] && a[2..][1..] == [];
    assert Answered(p5, 5, a[2..]) == Answered(p6, 6, []);
  }

  /** Answering the first three questions sets the activity, the flavour and the shape. */
  lemma AnsweredFirstThree(p: UserPreferences, a: seq<string>)
    requires |a| == |Questions|
    ensures Answered(p, 0, a)
         == Answered(p.(favoriteActivity := Trim(a[0]), favoriteFlavor := Trim(a[1]),
                        ornamentShape := MapShape(Trim(a[2]))), 3, a[3..])
  {
    assert Questions[0] == FavoriteActivity && Questions[1] == FavoriteFlavor && Questions[2] == OrnamentShape;
    var p1 := p.(favoriteActivity := Trim(a[0]));
    assert Answered(p, 0, a) == Answered(p1, 1, a[1..]);
    var p2 := p1.(favoriteFlavor := Trim(a[1]));
    assert a[1..][0] == a[1] && a[1..][1..] == a[2..];
    assert Answered(p1, 1, a[1..]) == Answered(p2, 2, a[2..]);
    var p3 := p2.(ornamentShape := MapShape(Trim(a[2])));
    assert a[2..][0] == a[2] && a[2..][1..] == a[3..];
    assert Answered(p2, 2, a[2..]) == Answered(p3, 3, a[3..]);
  }

  /** Six answered questions give the record built field by field from the answers. */
  lemma AnsweredSix(answers: seq<string>)
    requires |answers| == |Questions|
    ensures Answered(InitialPrefs, 0, answers) == Expected(answers)
  {
    var a := answers;
    AnsweredFirstThree(InitialPrefs, a);
    var p3 := InitialPrefs.(favoriteActivity := Trim(a[0]), favoriteFlavor := Trim(a[1]),
                            ornamentShape := MapShape(Trim(a[2])));
    AnsweredLastThree(p3, a[3..]);
    assert a[3..][0] == a[3] && a[3..][1] == a[4] && a[3..][2] == a[5];
  }

  /** From a fresh quiz, any input sequence holding six non-blank answers ends in exactly
      one call of `onComplete`, whose record has each field from the answer at that key's
      place in the question order; the colour is therefore never the initial one. */
  lemma SixAnswersCompleteOnce(inputs: seq<string>)
    requires |NonBlank(inputs)| == |Questions|
    ensures Run(InitialQuiz, inputs).emitted == [Expected(NonBlank(inputs))]
    ensures Expected(NonBlank(inputs)).ornamentColor != InitialColor
  {
    MapColorRange(Trim(NonBlank(inputs)[3]));
    RunFollowsAnswers(InitialQuiz, inputs);
    AnsweredSix(NonBlank(inputs));
  }

  /** The quiz as the React component holds it: `step`, `inputValue` and `prefs`. */
  class Quiz {
    var step: nat
    var inputValue: string
    var prefs: UserPreferences

    ghost predicate Valid()
      reads this
    {
      step < |Questions|
    }

    function State(): QuizState
      reads this
    {
      QuizState(step, inputValue, prefs)
    }

    constructor ()
      ensures Valid() && State() == InitialQuiz
    {
      step := 0;
      inputValue := "";
      prefs := InitialPrefs;
    }

    /** The text box's `onChange`: the box holds the typed text. */
    method OnInputChange(text: string)
      requires Valid()
      modifies this
      ensures Valid()
      ensures State() == old(State()).(input := text)
    {
      inputValue := text;
    }

    /** `handleNext`: returns the record passed to `onComplete`, if it was called. */
    method HandleNext() returns (completed: Option<UserPreferences>)
      requires Valid()
      modifies this
      ensures Valid()
      ensures StepResult(State(), completed) == Advance(old(State()))
    {
      completed := None;
      if IsBlank(inputValue) {
        return;
      }
      var currentKey := Questions[step];
      var value := Trim(inputValue);
      var updatedPrefs := Assign(prefs, currentKey, value);
      prefs := updatedPrefs;
      inputValue := "";
      if step < |Questions| - 1 {
        step := step + 1;
      } else {
        completed := Some(updatedPrefs);
      }
    }
  }
}
