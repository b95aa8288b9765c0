/** Calling the language model: the options and their defaults, the
    generation settings built from them, and what each generator asks for
    (prompt, system instruction, output budget and format). The model itself
    is not modelled: whether the call throws and what text it answers are
    parameters, and the answers of the four document generators are
    returned as the raw text the model gave. */
module Gemini {
  import opened Wrappers
  import opened Strings

  const DefaultModel: string := "gemini-2.5-flash"
  const DefaultTemperature: real := 0.7
  const DefaultMaxTokens: nat := 8192
  const JsonMimeType: string := "application/json"

  const MissingKeyMessage: string := "AI API key not configured. Please add GEMINI_API_KEY to your environment variables."
  const FailurePrefix: string := "Failed to generate content: "

  /** The output budgets of the generators. */
  const ReportMaxTokens: nat := 16384
  const PresentationMaxTokens: nat := 16384
  const ConferenceMaxTokens: nat := 32768
  const ThesisMaxTokens: nat := 65536
  const ChatMaxTokens: nat := 1024

  datatype ResponseFormat = TextFormat | JsonFormat

  /** `GenerateContentOptions`: every field may be left out. */
  datatype GenerateContentOptions = GenerateContentOptions(
    model: Option<string>,
    systemInstruction: Option<string>,
    temperature: Option<real>,
    maxTokens: Option<nat>,
    responseFormat: Option<ResponseFormat>)

  /** The `config` object sent with a request; an absent field is `None`. */
  datatype GenerationConfig = GenerationConfig(
    temperature: real,
    maxOutputTokens: nat,
    systemInstruction: Option<string>,
    responseMimeType: Option<string>)

  /** The request handed to the model. */
  datatype ModelRequest = ModelRequest(model: string, contents: string, config: GenerationConfig)

  /** How the call went: it threw, or it answered with an optional text. */
  datatype ModelOutcome = ModelThrew(reason: string) | ModelReplied(text: Option<string>)

  // ---------------------------------------------------------------------
  // The system instructions of the four generators and of the assistant:
  // their wording up to the description of the JSON layout they ask for
  // (the assistant's: its opening line).
  // ---------------------------------------------------------------------

  const ReportInstructionLine1: string := @"You are an expert technical report writer. Generate a comprehensive BET-standard technical report in JSON format."
  const ReportInstructionLine2: string := @"Include sections: Introduction, Project Plan, Budget, Methodology, Results, Conclusion, References, and Appendix."
  const ReportInstructionLine3: string := @"Use proper academic tone and include Gantt chart data and budget tables."
  const ReportInstruction: string :=
    ReportInstructionLine1 + "\n"
    + ReportInstructionLine2 + "\n"
    + ReportInstructionLine3

  const PresentationInstructionLine1: string := @"You are an expert presentation designer. Generate a professional presentation following the 6x6 rule (max 6 bullet points, max 6-7 words per bullet)."
  const PresentationInstructionLine2: string := @"Create engaging slides with clear structure. Include speaker notes for each slide."
  const PresentationInstruction: string :=
    PresentationInstructionLine1 + "\n"
    + PresentationInstructionLine2

  /** The conference instruction up to the citation style, and after it. */
  const ConferenceInstructionHeadLine1: string := @"You are an expert academic paper writer. Generate an IEEE-formatted conference paper with proper academic structure."
  const ConferenceInstructionHeadLine2: string := @"Include: Abstract, Introduction, Related Work, Methodology, Results, Discussion, Conclusion, References."
  const ConferenceInstructionHeadLine3: string := @"Use "
  const ConferenceInstructionHead: string :=
    ConferenceInstructionHeadLine1 + "\n"
    + ConferenceInstructionHeadLine2 + "\n"
    + ConferenceInstructionHeadLine3
  const ConferenceInstructionTail: string := @" citation format."

  /** The thesis instruction up to the citation style, and after it. */
  const ThesisInstructionHeadLine1: string := @"You are an expert thesis writer. Generate a comprehensive thesis/dissertation with proper academic structure."
  const ThesisInstructionHeadLine2: string := @"Include: Title Page, Abstract, Table of Contents, Introduction, Literature Review, Methodology, Results, Discussion, Conclusion, References, Appendices."
  const ThesisInstructionHeadLine3: string := @"Use "
  const ThesisInstructionHead: string :=
    ThesisInstructionHeadLine1 + "\n"
    + ThesisInstructionHeadLine2 + "\n"
    + ThesisInstructionHeadLine3
  const ThesisInstructionTail: string := @" citation format with author-date style."

  const ChatInstruction: string := @"You are a helpful assistant for PaperGen AI, an academic document generation platform. Your role is to:"

  // ---------------------------------------------------------------------
  // `generateContent`.
  // ---------------------------------------------------------------------

  /** Builds `config`: temperature and output budget always, the system
      instruction only when one is given and non-empty, and the JSON MIME
      type only when JSON output is asked for. */
  method BuildConfig(temperature: real, maxTokens: nat, systemInstruction: Option<string>, responseFormat: ResponseFormat)
    returns (config: GenerationConfig)
    ensures config.temperature == temperature && config.maxOutputTokens == maxTokens
    ensures config.systemInstruction.Some? <==> systemInstruction.Some? && systemInstruction.value != ""
    ensures config.systemInstruction.Some? ==> config.systemInstruction == systemInstruction
    ensures config.responseMimeType.Some? <==> responseFormat == JsonFormat
    ensures config.responseMimeType.Some? ==> config.responseMimeType.value == JsonMimeType
  {
    config := GenerationConfig(temperature, maxTokens, None, None);
    if systemInstruction.Some? && systemInstruction.value != "" {
      config := config.(systemInstruction := systemInstruction);
    }
    if responseFormat == JsonFormat {
      config := config.(responseMimeType := Some(JsonMimeType));
    }
  }

  /** What `generateContent` returns for a given outcome of the call: the
      missing key is reported before any call, a thrown error is wrapped,
      and a missing answer text is the empty string. */
  function Reply(apiKey: string, outcome: ModelOutcome): (r: Result<string, string>)
    ensures apiKey == "" ==> r == Failure(MissingKeyMessage)
    ensures r.Failure? <==> apiKey == "" || outcome.ModelThrew?
    ensures apiKey != "" && outcome.ModelThrew? ==> r.error == FailurePrefix + outcome.reason
    ensures r.Success? ==> r.value == if outcome.text.Some? then outcome.text.value else ""
  {
    if apiKey == "" then Failure(MissingKeyMessage)
    else match outcome
      case ModelThrew(reason) => Failure(FailurePrefix + reason)
      case ModelReplied(text) => Success(text.GetOr(""))
  }

  /** `generateContent`: fills in the defaults of the options left out,
      builds the configuration and sends the request, unless no API key is
      configured, in which case nothing is sent. */
  method GenerateContent(apiKey: string, prompt: string, options: GenerateContentOptions, outcome: ModelOutcome)
    returns (sent: Option<ModelRequest>, reply: Result<string, string>)
    ensures sent.None? <==> apiKey == ""
    ensures reply == Reply(apiKey, outcome)
    ensures sent.Some? ==>
      (sent.value.model == options.model.GetOr(DefaultModel)
       && sent.value.contents == prompt
       && sent.value.config.temperature == options.temperature.GetOr(DefaultTemperature)
       && sent.value.config.maxOutputTokens == options.maxTokens.GetOr(DefaultMaxTokens)
       && (sent.value.config.systemInstruction.Some? <==>
             options.systemInstruction.Some? && options.systemInstruction.value != "")
       && (sent.value.config.systemInstruction.Some? ==>
             sent.value.config.systemInstruction == options.systemInstruction)
       && (sent.value.config.responseMimeType.Some? <==> options.responseFormat == Some(JsonFormat))
       && (sent.value.config.responseMimeType.Some? ==> sent.value.config.responseMimeType.value == JsonMimeType))
  {
    if apiKey == "" {
      return None, Failure(MissingKeyMessage);
    }
    var model := options.model.GetOr(DefaultModel);
    var temperature := options.temperature.GetOr(DefaultTemperature);
    var maxTokens := options.maxTokens.GetOr(DefaultMaxTokens);
    var responseFormat := options.responseFormat.GetOr(TextFormat);
    var config := BuildConfig(temperature, maxTokens, options.systemInstruction, responseFormat);
    sent := Some(ModelRequest(model, prompt, config));
    match outcome
    case ModelThrew(reason) =>
      reply := Failure(FailurePrefix + reason);
    case ModelReplied(text) =>
      reply := Success(text.GetOr(""));
  }

  // ---------------------------------------------------------------------
  // The generators: prompts, instructions and options.
  // ---------------------------------------------------------------------

  function ReportPrompt(topic: string, targetLength: string, tone: string): string {
    "Generate a " + targetLength + " technical report on: " + topic + ". Writing tone: " + tone
      + ". Include all standard BET report sections with proper formatting."
  }

  function PresentationPrompt(topic: string, slideCount: string, tone: string): string {
    "Generate a " + slideCount + " presentation on: " + topic + ". Style: " + tone
      + ". Follow the 6x6 rule strictly."
  }

  function ConferencePrompt(topic: string, targetPages: string, citationStyle: string): string {
    "Generate a " + targetPages + " IEEE conference paper on: " + topic + ". Citation style: "
      + citationStyle + "."
  }

  function ThesisPrompt(topic: string, targetPages: string, citationStyle: string): string {
    "Generate a " + targetPages + " thesis/dissertation on: " + topic + ". Citation style: "
      + citationStyle + "."
  }

  function ConferenceInstruction(citationStyle: string): string {
    ConferenceInstructionHead + citationStyle + ConferenceInstructionTail
  }

  function ThesisInstruction(citationStyle: string): string {
    ThesisInstructionHead + citationStyle + ThesisInstructionTail
  }

  /** The options a document generator passes: its instruction, JSON output
      and its budget; model and temperature are left to their defaults. */
  function DocumentOptions(instruction: string, maxTokens: nat): GenerateContentOptions {
    GenerateContentOptions(None, Some(instruction), None, Some(maxTokens), Some(JsonFormat))
  }

  /** The request every document generator sends: default model and
      temperature, the given instruction and budget, JSON output. */
  predicate DocumentRequest(sent: ModelRequest, prompt: string, instruction: string, maxTokens: nat) {
    sent == ModelRequest(DefaultModel, prompt,
      GenerationConfig(DefaultTemperature, maxTokens, Some(instruction), Some(JsonMimeType)))
  }

  /** `generateReportContent`, up to the parsing of the answer. */
  method GenerateReportContent(apiKey: string, topic: string, targetLength: string, tone: string, outcome: ModelOutcome)
    returns (sent: Option<ModelRequest>, reply: Result<string, string>)
    ensures sent.None? <==> apiKey == ""
    ensures sent.Some? ==> DocumentRequest(sent.value, ReportPrompt(topic, targetLength, tone), ReportInstruction, ReportMaxTokens)
    ensures reply == Reply(apiKey, outcome)
  {
    sent, reply := GenerateContent(apiKey, ReportPrompt(topic, targetLength, tone),
      DocumentOptions(ReportInstruction, ReportMaxTokens), outcome);
  }

  /** `generatePresentationContent`, up to the parsing of the answer. */
  method GeneratePresentationContent(apiKey: string, topic: string, slideCount: string, tone: string, outcome: ModelOutcome)
    returns (sent: Option<ModelRequest>, reply: Result<string, string>)
    ensures sent.None? <==> apiKey == ""
    ensures sent.Some? ==> DocumentRequest(sent.value, PresentationPrompt(topic, slideCount, tone), PresentationInstruction, PresentationMaxTokens)
    ensures reply == Reply(apiKey, outcome)
  {
    sent, reply := GenerateContent(apiKey, PresentationPrompt(topic, slideCount, tone),
      DocumentOptions(PresentationInstruction, PresentationMaxTokens), outcome);
  }

  /** `generateConferencePaperContent`, up to the parsing of the answer. */
  method GenerateConferencePaperContent(apiKey: string, topic: string, targetPages: string, citationStyle: string, outcome: ModelOutcome)
    returns (sent: Option<ModelRequest>, reply: Result<string, string>)
    ensures sent.None? <==> apiKey == ""
    ensures sent.Some? ==> DocumentRequest(sent.value, ConferencePrompt(topic, targetPages, citationStyle), ConferenceInstruction(citationStyle), ConferenceMaxTokens)
    ensures reply == Reply(apiKey, outcome)
  {
    NonEmptyInstruction(ConferenceInstructionHead, citationStyle, ConferenceInstructionTail);
    sent, reply := GenerateContent(apiKey, ConferencePrompt(topic, targetPages, citationStyle),
      DocumentOptions(ConferenceInstruction(citationStyle), ConferenceMaxTokens), outcome);
  }

  /** `generateThesisContent`, up to the parsing of the answer. */
  method GenerateThesisContent(apiKey: string, topic: string, targetPages: string, citationStyle: string, outcome: ModelOutcome)
    returns (sent: Option<ModelRequest>, reply: Result<string, string>)
    ensures sent.None? <==> apiKey == ""
    ensures sent.Some? ==> DocumentRequest(sent.value, ThesisPrompt(topic, targetPages, citationStyle), ThesisInstruction(citationStyle), ThesisMaxTokens)
    ensures reply == Reply(apiKey, outcome)
  {
    NonEmptyInstruction(ThesisInstructionHead, citationStyle, ThesisInstructionTail);
    sent, reply := GenerateContent(apiKey, ThesisPrompt(topic, targetPages, citationStyle),
      DocumentOptions(ThesisInstruction(citationStyle), ThesisMaxTokens), outcome);
  }

  /** `generateChatResponse`: the user's message as the prompt, the
      assistant's instruction, temperature 0.7, a budget of 1024 and plain
      text output. */
  method GenerateChatResponse(apiKey: string, message: string, outcome: ModelOutcome)
    returns (sent: Option<ModelRequest>, reply: Result<string, string>)
    ensures sent.None? <==> apiKey == ""
    ensures sent.Some? ==> sent.value == ModelRequest(DefaultModel, message,
      GenerationConfig(0.7, ChatMaxTokens, Some(ChatInstruction), None))
    ensures reply == Reply(apiKey, outcome)
  {
    sent, reply := GenerateContent(apiKey, message,
      GenerateContentOptions(None, Some(ChatInstruction), Some(0.7), Some(ChatMaxTokens), None), outcome);
  }

  /** An instruction with a non-empty head is not empty, whatever is
      placed into it. */
  lemma NonEmptyInstruction(head: string, x: string, tail: string)
    requires head != ""
    ensures head + x + tail != ""
  {
    assert |head + x + tail| >= |head|;
  }

  // ---------------------------------------------------------------------
  // What the prompts and instructions carry.
  // ---------------------------------------------------------------------

  /** The report prompt carries the topic, the length and the tone verbatim. */
  lemma ReportPromptMentions(topic: string, targetLength: string, tone: string)
    ensures var p := ReportPrompt(topic, targetLength, tone);
      Contains(p, topic) && Contains(p, targetLength) && Contains(p, tone)
  {
    ContainsEach("Generate a ", targetLength, " technical report on: ", topic, ". Writing tone: ", tone,
      ". Include all standard BET report sections with proper formatting.");
  }

  /** The presentation prompt carries the topic, the slide count and the
      tone verbatim. */
  lemma PresentationPromptMentions(topic: string, slideCount: string, tone: string)
    ensures var p := PresentationPrompt(topic, slideCount, tone);
      Contains(p, topic) && Contains(p, slideCount) && Contains(p, tone)
  {
    ContainsEach("Generate a ", slideCount, " presentation on: ", topic, ". Style: ", tone,
      ". Follow the 6x6 rule strictly.");
  }

  /** The conference prompt carries the topic, the length and the citation
      style verbatim, and so does its instruction the citation style. */
  lemma ConferenceMentions(topic: string, targetPages: string, citationStyle: string)
    ensures var p := ConferencePrompt(topic, targetPages, citationStyle);
      Contains(p, topic) && Contains(p, targetPages) && Contains(p, citationStyle)
    ensures Contains(ConferenceInstruction(citationStyle), citationStyle)
  {
    ContainsEach("Generate a ", targetPages, " IEEE conference paper on: ", topic, ". Citation style: ",
      citationStyle, ".");
    ContainsPart(ConferenceInstructionHead, citationStyle, ConferenceInstructionTail);
  }

  /** The thesis prompt carries the topic, the length and the citation
      style verbatim, and so does its instruction the citation style. */
  lemma ThesisMentions(topic: string, targetPages: string, citationStyle: string)
    ensures var p := ThesisPrompt(topic, targetPages, citationStyle);
      Contains(p, topic) && Contains(p, targetPages) && Contains(p, citationStyle)
    ensures Contains(ThesisInstruction(citationStyle), citationStyle)
  {
    ContainsEach("Generate a ", targetPages, " thesis/dissertation on: ", topic, ". Citation style: ",
      citationStyle, ".");
    ContainsPart(ThesisInstructionHead, citationStyle, ThesisInstructionTail);
  }
}
