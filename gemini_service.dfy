/** What `generateOrnamentMessages` (services/geminiService.ts) makes of the model
    service's answer: the star message and ornament messages it hands back, repaired
    or replaced by fixed fallbacks so that every outcome can be displayed. The request
    itself (client, prompt, schema) is outside the model; its outcome is an input. */
module GeminiService {
  import opened Types

  /** The star message and ornament messages shown on the tree. */
  datatype GenerationResult = GenerationResult(starMessage: string, ornamentMessages: seq<string>)

  /** What `JSON.parse` made of a non-empty response text: a syntax error (which throws),
      `null` (whose property access throws), or a value whose two properties are present
      or not. A non-object value such as a number or an array has neither property. */
  datatype Parsed = SyntaxError | NullValue | Value(starMessage: Option<string>, ornamentMessages: Option<seq<string>>)

  /** How the call to the model service ended: it threw, or it returned a response whose
      `text` may be missing, together with what `JSON.parse` makes of that text. */
  datatype CallOutcome = Threw | Responded(text: Option<string>, parsed: Parsed)

  /** The star message used when the service gives none (lines 46 and 58). */
  const FallbackStar: string :=
    "You are a brilliant light in this world, and your kindness is the greatest gift of all."

  /** The ornament messages used when the service gives fewer than five (lines 48-52). */
  const ShortResponseOrnaments: seq<string> := [
    "So glad you're trying your best to be on the nice list this late in the game :)",
    "Santa saw that. But Santa also likes cookies, so we can negotiate.",
    "Note to self: This person needs extra cocoa and fewer adult responsibilities.",
    "Your holiday spirit is almost as loud as my reindeer's footsteps on a tin roof!",
    "I checked the list twice. You're still in the 'mostly okay' category. Good job!"
  ]

  /** The ornament messages of the `catch` branch (lines 60-64), written out separately
      in the source. */
  const CatchOrnaments: seq<string> := [
    "So glad you're trying your best to be on the nice list this late in the game :)",
    "Santa saw that. But Santa also likes cookies, so we can negotiate.",
    "Note to self: This person needs extra cocoa and fewer adult responsibilities.",
    "Your holiday spirit is almost as loud as my reindeer's footsteps on a tin roof!",
    "I checked the list twice. You're still in the 'mostly okay' category. Good job!"
  ]

  /** What the `catch` branch returns. */
  const CatchResult: GenerationResult := GenerationResult(FallbackStar, CatchOrnaments)

  /** A JavaScript string is truthy when it is present and not empty. */
  predicate Truthy(s: Option<string>) {
    s.Some? && s.value != ""
  }

  /** `JSON.parse(response.text || '{}')`: a missing or empty text parses as `{}`. */
  function ParsedData(text: Option<string>, parsed: Parsed): Parsed {
    if Truthy(text) then parsed else Value(None, None)
  }

  /** `generateOrnamentMessages`, with the service's outcome as its input. */
  function GenerateOrnamentMessages(outcome: CallOutcome): (r: GenerationResult)
    ensures |r.ornamentMessages| >= 5 && r.starMessage != ""
  {
    match outcome
    case Threw => CatchResult
    case Responded(text, parsed) =>
      match ParsedData(text, parsed)
      case SyntaxError => CatchResult
      case NullValue => CatchResult
      case Value(star, messages) =>
        GenerationResult(
          if Truthy(star) then star.value else FallbackStar,
          if messages.Some? && |messages.value| >= 5 then messages.value else ShortResponseOrnaments)
  }

  /** The data the service's answer supplied, when the answer got as far as a parsed value. */
  function ServiceData(outcome: CallOutcome): Option<Parsed> {
    if outcome.Responded? && ParsedData(outcome.text, outcome.parsed).Value?
    then Some(ParsedData(outcome.text, outcome.parsed)) else None
  }

  /** The star message is the service's own whenever it sent a non-empty one, and the
      fixed fallback otherwise. */
  lemma StarMessageChoice(outcome: CallOutcome)
    ensures var r := GenerateOrnamentMessages(outcome);
            var data := ServiceData(outcome);
            (data.Some? && Truthy(data.value.starMessage) ==> r.starMessage == data.value.starMessage.value)
            && (!(data.Some? && Truthy(data.value.starMessage)) ==> r.starMessage == FallbackStar)
  {
  }

  /** The ornament messages are the service's list, whole and in order, whenever it has
      at least five entries; any shorter or missing list is replaced in full by the
      fallback list. */
  lemma OrnamentMessagesChoice(outcome: CallOutcome)
    ensures var r := GenerateOrnamentMessages(outcome);
            var data := ServiceData(outcome);
            var given := data.Some? && data.value.ornamentMessages.Some?;
            (given && |data.value.ornamentMessages.value| >= 5 ==>
               r.ornamentMessages == data.value.ornamentMessages.value)
            && (given && |data.value.ornamentMessages.value| < 5 ==> r.ornamentMessages == ShortResponseOrnaments)
            && (data.Some? && data.value.ornamentMessages.None? ==> r.ornamentMessages == ShortResponseOrnaments)
  {
  }

  /** Every failure, whether the call, the parse or the property access throws, yields
      the same fallback result. */
  lemma FailuresGiveFallback(outcome: CallOutcome)
    requires ServiceData(outcome).None?
    ensures GenerateOrnamentMessages(outcome) == CatchResult
  {
  }

  /** A missing or empty response text gives both fallbacks, the same result as a failure. */
  lemma EmptyTextGivesFallback(text: Option<string>, parsed: Parsed)
    requires !Truthy(text)
    ensures GenerateOrnamentMessages(Responded(text, parsed)) == CatchResult
  {
    FallbackListsAgree();
  }

  /** The two fallback lists written out in the source are the same five messages in the
      same order, the first ending in ":)". */
  lemma FallbackListsAgree()
    ensures ShortResponseOrnaments == CatchOrnaments
    ensures |CatchOrnaments| == 5
    ensures CatchOrnaments[0][|CatchOrnaments[0]| - 2..] == ":)"
  {
  }
}
