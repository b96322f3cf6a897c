/** The app shell (App.tsx): the stage machine START -> QUIZ -> GROWING -> TREE -> START,
    with the preference record and the generated messages it holds. Each handler, the
    continuation after the awaited generation call and the timer callback is an event;
    time is the timer's firing, not a clock. */
module AppComponent {
  import opened Types
  import opened GeminiService

  const PlantingText: string := "Planting your festive spirit..."
  const ConsultingText: string := "Consulting the magic list..."

  /** How the awaited `generateOrnamentMessages` call settled. */
  datatype Settlement = Resolved(result: GenerationResult) | Rejected

  /** The component state: `stage`, `genData`, `userPrefs`, `loadingText`, and the two
      pieces of pending work a handler leaves behind: the continuation waiting on the
      generation call, and the 2500 ms timer that moves to TREE. */
  datatype AppState = AppState(
    stage: AppStage,
    genData: Option<GenerationResult>,
    userPrefs: Option<UserPreferences>,
    loadingText: string,
    awaitingGeneration: bool,
    treeTimerPending: bool)

  const Initial: AppState := AppState(Start, None, None, PlantingText, false, false)

  /** What the page shows. The tree view, and the reset button inside it, appear only at
      TREE with both a record and messages present; otherwise TREE shows nothing. */
  datatype View = StartView | QuizView | GrowingView(text: string)
                | TreeView(prefs: UserPreferences, result: GenerationResult) | EmptyView

  function ViewOf(s: AppState): (v: View)
    ensures v.TreeView? <==> s.stage == Tree && s.userPrefs.Some? && s.genData.Some?
    ensures v.TreeView? ==> v.prefs == s.userPrefs.value && v.result == s.genData.value
  {
    match s.stage
    case Start => StartView
    case Quiz => QuizView
    case Growing => GrowingView(s.loadingText)
    case Tree =>
      if s.userPrefs.Some? && s.genData.Some? then TreeView(s.userPrefs.value, s.genData.value)
      else EmptyView
  }

  /** The events that drive the app: the start button, the quiz's `onComplete`, the
      generation call settling, the timer firing, and the reset button. */
  datatype Event = Begin | QuizComplete(prefs: UserPreferences) | GenerationSettled(outcome: Settlement)
                 | TimerFired | Reset

  /** An event can happen only when what fires it exists: a button on the current view,
      the mounted quiz, the pending continuation, the scheduled timer. */
  predicate Enabled(s: AppState, e: Event) {
    match e
    case Begin => ViewOf(s) == StartView
    case QuizComplete(_) => ViewOf(s) == QuizView
    case GenerationSettled(_) => s.awaitingGeneration
    case TimerFired => s.treeTimerPending
    case Reset => ViewOf(s).TreeView?
  }

  /** The effect of each event, as the handlers write it. */
  function Next(s: AppState, e: Event): AppState
    requires Enabled(s, e)
  {
    match e
    case Begin => s.(stage := Quiz)
    case QuizComplete(prefs) =>
      s.(userPrefs := Some(prefs), stage := Growing, loadingText := ConsultingText, awaitingGeneration := true)
    case GenerationSettled(Resolved(result)) =>
      s.(genData := Some(result), awaitingGeneration := false, treeTimerPending := true)
    case GenerationSettled(Rejected) =>
      s.(awaitingGeneration := false, treeTimerPending := true)
    case TimerFired => s.(stage := Tree, treeTimerPending := false)
    case Reset => s.(stage := Start)
  }

  /** The settlement the real service produces: `generateOrnamentMessages` never rejects. */
  function ServiceSettlement(outcome: CallOutcome): (st: Settlement)
    ensures st.Resolved? && |st.result.ornamentMessages| >= 5 && st.result.starMessage != ""
  {
    Resolved(GenerateOrnamentMessages(outcome))
  }

  /** A settlement whose result the tree can show: resolved, with a non-empty star message
      and at least five ornament messages. */
  predicate Displayable(r: GenerationResult) {
    |r.ornamentMessages| >= 5 && r.starMessage != ""
  }

  predicate Trusted(e: Event) {
    e.GenerationSettled? ==> e.outcome.Resolved? && Displayable(e.outcome.result)
  }

  /** Every settlement the real service produces is trusted. */
  lemma ServiceTrusted(outcome: CallOutcome)
    ensures Trusted(GenerationSettled(ServiceSettlement(outcome)))
  {
  }

  /** The states the app can be in when the generation call always resolves with a
      displayable result. */
  predicate Consistent(s: AppState) {
    !(s.awaitingGeneration && s.treeTimerPending)
    && (s.awaitingGeneration || s.treeTimerPending <==> s.stage == Growing)
    && (s.stage in {Growing, Tree} ==> s.userPrefs.Some?)
    && (s.stage == Tree || s.treeTimerPending ==> s.genData.Some?)
    && (s.genData.Some? ==> Displayable(s.genData.value))
  }

  lemma InitialConsistent()
    ensures Consistent(Initial) && ViewOf(Initial) == StartView
    ensures Initial.genData == None && Initial.userPrefs == None
  {
  }

  /** Every trusted event keeps the app consistent. */
  lemma NextConsistent(s: AppState, e: Event)
    requires Consistent(s) && Enabled(s, e) && Trusted(e)
    ensures Consistent(Next(s, e))
  {
  }

  /** The stage moves only START -> QUIZ, QUIZ -> GROWING, GROWING -> TREE and
      TREE -> START, each on its own event. */
  lemma StageChanges(s: AppState, e: Event)
    requires Consistent(s) && Enabled(s, e)
    ensures var t := Next(s, e);
            t.stage == s.stage
            || (s.stage == Start && t.stage == Quiz && e == Begin)
            || (s.stage == Quiz && t.stage == Growing && e.QuizComplete?)
            || (s.stage == Growing && t.stage == Tree && e == TimerFired)
            || (s.stage == Tree && t.stage == Start && e == Reset)
  {
  }

  /** TREE is entered only by the timer, which is pending only once the generation call
      has settled; so TREE is never reached while generation is in flight. */
  lemma TreeOnlyAfterSettled(s: AppState, e: Event)
    requires Consistent(s) && Enabled(s, e)
    ensures Next(s, e).stage == Tree && s.stage != Tree ==> e == TimerFired && !s.awaitingGeneration
    ensures Next(s, e).stage == Tree ==> !Next(s, e).awaitingGeneration
  {
  }

  /** `genData` changes only when the generation call resolves, and then to its result;
      a rejection leaves it as it was. */
  lemma GenDataOnlyOnResolve(s: AppState, e: Event)
    requires Enabled(s, e)
    ensures Next(s, e).genData != s.genData ==> e.GenerationSettled? && e.outcome.Resolved?
    ensures e.GenerationSettled? && e.outcome.Resolved? ==> Next(s, e).genData == Some(e.outcome.result)
    ensures e == GenerationSettled(Rejected) ==> Next(s, e).genData == s.genData
  {
  }

  /** Completing the quiz stores the record and shows GROWING before generation has
      settled. */
  lemma QuizCompleteStartsGrowing(s: AppState, prefs: UserPreferences)
    requires Enabled(s, QuizComplete(prefs))
    ensures var t := Next(s, QuizComplete(prefs));
            t.userPrefs == Some(prefs) && t.stage == Growing && t.awaitingGeneration
            && ViewOf(t) == GrowingView(ConsultingText) && t.genData == s.genData
  {
  }

  /** Reset returns to START and keeps the record and the messages of the finished run. */
  lemma ResetKeepsData(s: AppState)
    requires Enabled(s, Reset)
    ensures var t := Next(s, Reset);
            t.stage == Start && ViewOf(t) == StartView
            && t.userPrefs == s.userPrefs && t.genData == s.genData && t.userPrefs.Some? && t.genData.Some?
  {
  }

  /** Were the generation call to reject before any result was kept, the timer would
      still move to TREE, where the guard shows nothing and no button is left: no event
      is enabled any more. The real service never rejects (see `ServiceSettlement`). */
  lemma RejectionWithoutDataStrands(s: AppState)
    requires Enabled(s, GenerationSettled(Rejected)) && s.genData == None
    ensures var t := Next(Next(s, GenerationSettled(Rejected)), TimerFired);
            t.stage == Tree && ViewOf(t) == EmptyView && forall e :: !Enabled(t, e)
  {
  }

  /** Applying `events` one after another from `s`; None when one of them cannot happen. */
  function Run(s: AppState, events: seq<Event>): Option<AppState>
    decreases |events|
  {
    if events == [] then Some(s)
    else if Enabled(s, events[0]) then Run(Next(s, events[0]), events[1..])
    else None
  }

  /** Along any run of trusted events from a consistent state, the app stays consistent:
      at TREE the tree view is always shown, with at least five ornament messages and a
      non-empty star message. */
  lemma {:induction false} RunConsistent(s: AppState, events: seq<Event>)
    requires Consistent(s)
    requires forall k :: 0 <= k < |events| ==> Trusted(events[k])
    requires Run(s, events).Some?
    ensures Consistent(Run(s, events).value)
    ensures Run(s, events).value.stage == Tree ==>
              ViewOf(Run(s, events).value).TreeView?
              && |ViewOf(Run(s, events).value).result.ornamentMessages| >= 5
              && ViewOf(Run(s, events).value).result.starMessage != ""
    decreases |events|
  {
    if events != [] {
      NextConsistent(s, events[0]);
      RunConsistent(Next(s, events[0]), events[1..]);
    }
  }

  /** One enabled event, then the rest of the run. */
  lemma RunStep(s: AppState, e: Event, rest: seq<Event>)
    requires Enabled(s, e)
    ensures Run(s, [e] + rest) == Run(Next(s, e), rest)
  {
    assert ([e] + rest)[0] == e && ([e] + rest)[1..] == rest;
  }

  /** A full journey: begin, complete the quiz with `prefs`, let the service answer with
      `outcome`, let the timer fire. The tree then shows exactly `prefs` and the service's
      result; reset goes back to START with both kept. */
  lemma Journey(prefs: UserPreferences, outcome: CallOutcome)
    ensures var events := [Begin, QuizComplete(prefs), GenerationSettled(ServiceSettlement(outcome)), TimerFired];
            Run(Initial, events).Some?
            && ViewOf(Run(Initial, events).value) == TreeView(prefs, GenerateOrnamentMessages(outcome))
            && Run(Initial, events + [Reset]).Some?
            && Run(Initial, events + [Reset]).value.stage == Start
            && Run(Initial, events + [Reset]).value.userPrefs == Some(prefs)
  {
    var settled := GenerationSettled(ServiceSettlement(outcome));
    var s1 := Next(Initial, Begin);
    var s2 := Next(s1, QuizComplete(prefs));
    var s3 := Next(s2, settled);
    var s4 := Next(s3, TimerFired);
    var s5 := Next(s4, Reset);
    RunStep(s4, Reset, []);
    RunStep(s3, TimerFired, []);
    RunStep(s3, TimerFired, [Reset]);
    RunStep(s2, settled, [TimerFired]);
    RunStep(s2, settled, [TimerFired, Reset]);
    RunStep(s1, QuizComplete(prefs), [settled, TimerFired]);
    RunStep(s1, QuizComplete(prefs), [settled, TimerFired, Reset]);
    RunStep(Initial, Begin, [QuizComplete(prefs), settled, TimerFired]);
    RunStep(Initial, Begin, [QuizComplete(prefs), settled, TimerFired, Reset]);
    assert [Begin, QuizComplete(prefs), settled, TimerFired] + [Reset]
        == [Begin] + [QuizComplete(prefs), settled, TimerFired, Reset];
  }

  /** The app as the React component holds it. The continuation of `handleQuizComplete`
      after its `await`, and the timer's callback, are separate methods because the
      runtime calls them later, as separate events. */
  class App {
    var stage: AppStage
    var genData: Option<GenerationResult>
    var userPrefs: Option<UserPreferences>
    var loadingText: string
    var awaitingGeneration: bool
    var treeTimerPending: bool

    function State(): AppState
      reads this
    {
      AppState(stage, genData, userPrefs, loadingText, awaitingGeneration, treeTimerPending)
    }

    constructor ()
      ensures State() == Initial
    {
      stage := Start;
      genData := None;
      userPrefs := None;
      loadingText := PlantingText;
      awaitingGeneration := false;
      treeTimerPending := false;
    }

    /** `startJourney`, the start button's handler. */
    method StartJourney()
      requires Enabled(State(), Begin)
      modifies this
      ensures State() == Next(old(State()), Begin)
    {
      stage := Quiz;
    }

    /** `handleQuizComplete` up to its `await`: store the record, show GROWING, start the
      generation call. */
    method HandleQuizComplete(prefs: UserPreferences)
      requires Enabled(State(), QuizComplete(prefs))
      modifies this
      ensures State() == Next(old(State()), QuizComplete(prefs))
    {
      userPrefs := Some(prefs);
      stage := Growing;
      loadingText := ConsultingText;
      awaitingGeneration := true;
    }

    /** `handleQuizComplete` after its `await`: keep the result if the call resolved
        (a rejection is only logged), then schedule the timer. */
    method ResumeAfterGeneration(outcome: Settlement)
      requires Enabled(State(), GenerationSettled(outcome))
      modifies this
      ensures State() == Next(old(State()), GenerationSettled(outcome))
    {
      awaitingGeneration := false;
      match outcome {
        case Resolved(result) => genData := Some(result);
        case Rejected =>
      }
      treeTimerPending := true;
    }

    /** The timer's callback: show the tree. */
    method OnTreeTimer()
      requires Enabled(State(), TimerFired)
      modifies this
      ensures State() == Next(old(State()), TimerFired)
    {
      treeTimerPending := false;
      stage := Tree;
    }

    /** The reset button's handler. */
    method OnReset()
      requires Enabled(State(), Reset)
      modifies this
      ensures State() == Next(old(State()), Reset)
    {
      stage := Start;
    }
  }
}
