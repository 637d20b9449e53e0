/** The persona chat flow: the input and output schemas, the two prompt
    templates as ordered lists of sections, and the dispatch on the role.
    Template rendering and the model call are opaque: the model is a function
    parameter from the rendered sections to an optional structured output. */
module PersonaChat {
  import opened Wrappers
  import opened Js

  /** The `role` enum of the input schema. */
  datatype Role = Brother | Friend | Girlfriend | Mother | Father

  /** The `language` enum of the input schema. */
  datatype Language = English | Hindi | Hinglish

  function RoleName(r: Role): string {
    match r
    case Brother => "Brother"
    case Friend => "Friend"
    case Girlfriend => "Girlfriend"
    case Mother => "Mother"
    case Father => "Father"
  }

  function LanguageName(l: Language): string {
    match l
    case English => "English"
    case Hindi => "Hindi"
    case Hinglish => "Hinglish"
  }

  /** Validation of a raw `role` string against the enum. */
  function ParseRole(s: string): (r: Option<Role>)
    ensures r.Some? ==> RoleName(r.value) == s
    ensures r.None? ==> forall role: Role :: RoleName(role) != s
  {
    if s == "Brother" then Some(Brother)
    else if s == "Friend" then Some(Friend)
    else if s == "Girlfriend" then Some(Girlfriend)
    else if s == "Mother" then Some(Mother)
    else if s == "Father" then Some(Father)
    else None
  }

  lemma RoleNameRoundTrip(r: Role)
    ensures ParseRole(RoleName(r)) == Some(r)
  {
    match r
    case Brother =>
    case Friend =>
    case Girlfriend =>
    case Mother =>
    case Father =>
  }

  datatype SchemaError = InvalidRole | InvalidLanguage

  /** Validation of the optional raw `language` string, with its declared
      default `'English'` when the field is absent. */
  function ParseLanguage(s: Option<string>): (r: Result<Language, SchemaError>)
    ensures s.None? ==> r == Success(English)
    ensures s.Some? && r.Success? ==> LanguageName(r.value) == s.value
    ensures s.Some? && r.Failure? ==> r.error == InvalidLanguage && forall l: Language :: LanguageName(l) != s.value
  {
    match s
    case None => Success(English)
    case Some(v) =>
      if v == "English" then Success(English)
      else if v == "Hindi" then Success(Hindi)
      else if v == "Hinglish" then Success(Hinglish)
      else Failure(InvalidLanguage)
  }

  /** An input as the caller passes it, before schema validation. */
  datatype RawInput = RawInput(
    role: string,
    message: string,
    chatHistory: Option<string>,
    language: Option<string>,
    conversationStyle: Option<string>)

  /** `PersonaChatInput` after validation. */
  datatype PersonaChatInput = PersonaChatInput(
    role: Role,
    message: string,
    chatHistory: Option<string>,
    language: Language,
    conversationStyle: Option<string>)

  /** `PersonaChatOutput`. */
  datatype PersonaChatOutput = PersonaChatOutput(response: string)

  /** Schema validation of the flow's input. */
  function ParseInput(raw: RawInput): (r: Result<PersonaChatInput, SchemaError>)
    ensures r.Success? <==> ParseRole(raw.role).Some? && ParseLanguage(raw.language).Success?
    ensures r.Success? ==>
      && RoleName(r.value.role) == raw.role
      && r.value.message == raw.message
      && r.value.chatHistory == raw.chatHistory
      && r.value.conversationStyle == raw.conversationStyle
      && r.value.language == ParseLanguage(raw.language).value
  {
    match ParseRole(raw.role)
    case None => Failure(InvalidRole)
    case Some(role) =>
      match ParseLanguage(raw.language)
      case Failure(e) => Failure(e)
      case Success(language) =>
        Success(PersonaChatInput(role, raw.message, raw.chatHistory, language, raw.conversationStyle))
  }

  /** The sections of a prompt template, in the order they are written. */
  datatype Section =
    | PersonaInstructions(role: Role, language: Language)  // the generic persona paragraph
    | GirlfriendInstructions                               // the fixed girlfriend paragraph
    | StyleInstruction(style: string)                      // "... This is the most important instruction."
    | ChatHistory(history: string)                         // "Consider the previous chat history ..."
    | UserMessage(message: string)
    | ResponseCue                                          // "Response:"

  datatype Prompt = PersonaChatPrompt | GirlfriendChatPrompt

  /** The dispatch of `personaChatFlow`. */
  function SelectPrompt(role: Role): (p: Prompt)
    ensures p == GirlfriendChatPrompt <==> role == Girlfriend
  {
    if role == Girlfriend then GirlfriendChatPrompt else PersonaChatPrompt
  }

  /** The template of prompt `p` with `input` interpolated, as a list of sections.
      `{{#if conversationStyle}}` keeps the style line only for a truthy style;
      an absent chat history renders as the empty string.
      Section order, in both templates: the persona instructions (the generic
      paragraph interpolates role and language), the optional style line, chat
      history, user message, the response cue. */
  function Render(p: Prompt, input: PersonaChatInput): (r: seq<Section>)
    ensures |r| == (if IsTruthy(input.conversationStyle) then 5 else 4)
    ensures r[0].GirlfriendInstructions? <==> p == GirlfriendChatPrompt
    ensures p == PersonaChatPrompt ==> r[0] == PersonaInstructions(input.role, input.language)
    ensures IsTruthy(input.conversationStyle) ==> r[1] == StyleInstruction(input.conversationStyle.value)
    ensures r[|r| - 3] == ChatHistory(input.chatHistory.GetOr(""))
    ensures r[|r| - 2] == UserMessage(input.message)
    ensures r[|r| - 1] == ResponseCue
  {
    var head := match p
      case PersonaChatPrompt => PersonaInstructions(input.role, input.language)
      case GirlfriendChatPrompt => GirlfriendInstructions;
    var style := if IsTruthy(input.conversationStyle) then [StyleInstruction(input.conversationStyle.value)] else [];
    [head] + style + [ChatHistory(input.chatHistory.GetOr("")), UserMessage(input.message), ResponseCue]
  }

  /** The style line appears iff `conversationStyle` is truthy, in either template,
      and it is the only style line. */
  lemma StyleLineIffTruthy(p: Prompt, input: PersonaChatInput, s: string)
    ensures StyleInstruction(s) in Render(p, input) <==> input.conversationStyle == Some(s) && s != ""
  {
    var r := Render(p, input);
    if StyleInstruction(s) in r {
      var i :| 0 <= i < |r| && r[i] == StyleInstruction(s);
      assert i == 1;
    }
  }

  /** The generic template interpolates both the role and the language: two inputs
      that render to the same generic prompt agree on both. */
  lemma GenericPromptDeterminesRoleAndLanguage(a: PersonaChatInput, b: PersonaChatInput)
    requires Render(PersonaChatPrompt, a) == Render(PersonaChatPrompt, b)
    ensures a.role == b.role && a.language == b.language
  {
    assert Render(PersonaChatPrompt, a)[0] == Render(PersonaChatPrompt, b)[0];
  }

  /** The girlfriend template interpolates neither, so the language setting does
      not change its text. */
  lemma GirlfriendPromptIgnoresLanguage(input: PersonaChatInput, l: Language)
    ensures Render(GirlfriendChatPrompt, input) == Render(GirlfriendChatPrompt, input.(language := l))
  {
  }

  datatype FlowError = NoOutput

  /** `personaChatFlow`: renders the prompt chosen by the role and returns the
      model's structured output; a null output (`output!`) is rejected by the
      output schema instead of being replaced by a default. */
  function PersonaChatFlow(input: PersonaChatInput, model: seq<Section> -> Option<PersonaChatOutput>)
    : (r: Result<PersonaChatOutput, FlowError>)
    ensures var rendered := Render(if input.role == Girlfriend then GirlfriendChatPrompt else PersonaChatPrompt, input);
      && (r.Success? <==> model(rendered).Some?)
      && (r.Success? ==> model(rendered) == Some(r.value))
  {
    match model(Render(SelectPrompt(input.role), input))
    case Some(output) => Success(output)
    case None => Failure(NoOutput)
  }
}
