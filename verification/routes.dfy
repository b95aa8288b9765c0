/** The HTTP endpoints: each checks its required fields, answers 400 when
    one is missing, fills in defaults with `||`, calls the service behind
    it, and turns a thrown error into a 500 answer. A body field is either
    absent or the text the client sent; the services' outcomes (the model's
    answer, the image search's reply, the OCR text) are parameters. */
module Routes {
  import opened Wrappers
  import opened Schema
  import Gemini
  import Pixabay
  import FileProcessor
  import Storage

  /** JavaScript truthiness of a text field: present and not empty. */
  predicate Truthy(field: Option<string>) {
    field.Some? && field.value != ""
  }

  /** `field || fallback`. */
  function Or(field: Option<string>, fallback: string): (s: string)
    ensures Truthy(field) ==> s == field.value
    ensures !Truthy(field) ==> s == fallback
  {
    if Truthy(field) then field.value else fallback
  }

  /** An error answer: its status and the `error` text of its body. */
  datatype HttpError = HttpError(status: nat, error: string)

  /** The `catch` of every handler: status 500 with the error's message, or
      the handler's own text when the message is empty. */
  function ServerError(message: string, fallback: string): (e: HttpError)
    ensures e.status == 500
    ensures message != "" ==> e.error == message
    ensures message == "" ==> e.error == fallback
  {
    HttpError(500, if message != "" then message else fallback)
  }

  /** A service result as the handler answers it. */
  function Answer<T>(result: Result<T, string>, fallback: string): (r: Result<T, HttpError>)
    ensures result.Success? ==> r == Success(result.value)
    ensures result.Failure? ==> r == Failure(ServerError(result.error, fallback))
  {
    match result
    case Success(v) => Success(v)
    case Failure(m) => Failure(ServerError(m, fallback))
  }

  // ---------------------------------------------------------------------
  // The four generate endpoints.
  // ---------------------------------------------------------------------

  /** The body of a generate request: the topic, the length option
      (`targetLength`, `slideCount` or `targetPages`) and the style option
      (`tone` or `citationStyle`), by generator. */
  datatype GenerateBody = GenerateBody(topic: Option<string>, length: Option<string>, style: Option<string>)

  /** The arguments passed on to the generator. */
  datatype GenerateArgs = GenerateArgs(topic: string, length: string, style: string)

  const DefaultLength: string := "auto"

  /** The style each endpoint falls back to. */
  function DefaultStyle(kind: DocumentType): string {
    match kind
    case Report => "academic"
    case PowerPoint => "professional"
    case Conference => "ieee"
    case Thesis => "harvard"
  }

  /** The text answered when a generator fails with an empty message. */
  function GenerateFallback(kind: DocumentType): string {
    match kind
    case Report => "Failed to generate report"
    case PowerPoint => "Failed to generate presentation"
    case Conference => "Failed to generate conference paper"
    case Thesis => "Failed to generate thesis"
  }

  /** The guard and the defaults of a generate endpoint. */
  function GenerateArguments(kind: DocumentType, body: GenerateBody): (r: Result<GenerateArgs, HttpError>)
    ensures r.Failure? <==> !Truthy(body.topic)
    ensures r.Failure? ==> r.error == HttpError(400, "Topic is required")
    ensures r.Success? ==> r.value.topic == body.topic.value
    ensures r.Success? ==> r.value.length == Or(body.length, DefaultLength)
    ensures r.Success? ==> r.value.style == Or(body.style, DefaultStyle(kind))
  {
    if !Truthy(body.topic) then Failure(HttpError(400, "Topic is required"))
    else Success(GenerateArgs(body.topic.value, Or(body.length, DefaultLength), Or(body.style, DefaultStyle(kind))))
  }

  /** The prompt of the generator an endpoint calls. */
  function PromptFor(kind: DocumentType, a: GenerateArgs): string {
    match kind
    case Report => Gemini.ReportPrompt(a.topic, a.length, a.style)
    case PowerPoint => Gemini.PresentationPrompt(a.topic, a.length, a.style)
    case Conference => Gemini.ConferencePrompt(a.topic, a.length, a.style)
    case Thesis => Gemini.ThesisPrompt(a.topic, a.length, a.style)
  }

  /** The system instruction of the generator an endpoint calls. */
  function InstructionFor(kind: DocumentType, a: GenerateArgs): string {
    match kind
    case Report => Gemini.ReportInstruction
    case PowerPoint => Gemini.PresentationInstruction
    case Conference => Gemini.ConferenceInstruction(a.style)
    case Thesis => Gemini.ThesisInstruction(a.style)
  }

  /** The output budget of the generator an endpoint calls. */
  function BudgetFor(kind: DocumentType): nat {
    match kind
    case Report => Gemini.ReportMaxTokens
    case PowerPoint => Gemini.PresentationMaxTokens
    case Conference => Gemini.ConferenceMaxTokens
    case Thesis => Gemini.ThesisMaxTokens
  }

  /** Calls the generator of one document type with the endpoint's
      arguments. */
  method CallGenerator(kind: DocumentType, a: GenerateArgs, apiKey: string, outcome: Gemini.ModelOutcome)
    returns (sent: Option<Gemini.ModelRequest>, result: Result<string, string>)
    ensures sent.None? <==> apiKey == ""
    ensures sent.Some? ==> Gemini.DocumentRequest(sent.value, PromptFor(kind, a), InstructionFor(kind, a), BudgetFor(kind))
    ensures result == Gemini.Reply(apiKey, outcome)
  {
    match kind {
      case Report =>
        sent, result := Gemini.GenerateReportContent(apiKey, a.topic, a.length, a.style, outcome);
      case PowerPoint =>
        sent, result := Gemini.GeneratePresentationContent(apiKey, a.topic, a.length, a.style, outcome);
      case Conference =>
        sent, result := Gemini.GenerateConferencePaperContent(apiKey, a.topic, a.length, a.style, outcome);
      case Thesis =>
        sent, result := Gemini.GenerateThesisContent(apiKey, a.topic, a.length, a.style, outcome);
    }
  }

  /** `POST /api/generate/<kind>`: no topic is refused with 400 before any
      request to the model; otherwise the generator is called with the
      options or their defaults, and its answer or its error is returned. */
  method GenerateEndpoint(kind: DocumentType, body: GenerateBody, apiKey: string, outcome: Gemini.ModelOutcome)
    returns (sent: Option<Gemini.ModelRequest>, reply: Result<string, HttpError>)
    ensures !Truthy(body.topic) ==> sent.None? && reply == Failure(HttpError(400, "Topic is required"))
    ensures Truthy(body.topic) ==> (sent.None? <==> apiKey == "")
    ensures Truthy(body.topic) && sent.Some? ==>
      var a := GenerateArguments(kind, body).value;
      Gemini.DocumentRequest(sent.value, PromptFor(kind, a), InstructionFor(kind, a), BudgetFor(kind))
    ensures Truthy(body.topic) ==> reply == Answer(Gemini.Reply(apiKey, outcome), GenerateFallback(kind))
  {
    var checked := GenerateArguments(kind, body);
    if checked.Failure? {
      return None, Failure(checked.error);
    }
    var result;
    sent, result := CallGenerator(kind, checked.value, apiKey, outcome);
    reply := Answer(result, GenerateFallback(kind));
  }

  /** Options left out, or sent empty, take the endpoint's defaults:
      "auto" length everywhere, and the tone "academic" for reports,
      "professional" for presentations, the citation style "ieee" for
      conference papers and "harvard" for theses. */
  lemma OmittedOptionsDefault(topic: string, length: Option<string>, style: Option<string>)
    requires topic != "" && !Truthy(length) && !Truthy(style)
    ensures GenerateArguments(Report, GenerateBody(Some(topic), length, style))
      == Success(GenerateArgs(topic, "auto", "academic"))
    ensures GenerateArguments(PowerPoint, GenerateBody(Some(topic), length, style))
      == Success(GenerateArgs(topic, "auto", "professional"))
    ensures GenerateArguments(Conference, GenerateBody(Some(topic), length, style))
      == Success(GenerateArgs(topic, "auto", "ieee"))
    ensures GenerateArguments(Thesis, GenerateBody(Some(topic), length, style))
      == Success(GenerateArgs(topic, "auto", "harvard"))
  {
  }

  // ---------------------------------------------------------------------
  // Images and chat.
  // ---------------------------------------------------------------------

  /** `POST /api/images/search`: no query is refused with 400 before any
      search; otherwise the search for ten images is made (`sent`, none when
      no key is configured) and its images are answered. */
  function SearchImagesEndpoint(query: Option<string>, apiKey: string, outcome: Pixabay.FetchOutcome)
    : (reply: (Option<Pixabay.SearchParams>, Result<seq<Pixabay.PixabayImage>, HttpError>))
    ensures !Truthy(query) ==> reply.0.None? && reply.1 == Failure(HttpError(400, "Query is required"))
    ensures Truthy(query) ==> reply.0 == Pixabay.SearchRequest(apiKey, query.value, Pixabay.ImagesPerSearch)
    ensures Truthy(query) ==> (reply.0.None? <==> apiKey == "")
    ensures Truthy(query) && reply.0.Some? ==> reply.0.value.perPage == "10"
    ensures Truthy(query) ==> reply.1.Success?
    ensures reply.1.Success? ==> reply.1.value == Pixabay.SearchImages(apiKey, outcome)
  {
    if !Truthy(query) then (None, Failure(HttpError(400, "Query is required")))
    else (Pixabay.SearchRequest(apiKey, query.value, Pixabay.ImagesPerSearch), Success(Pixabay.SearchImages(apiKey, outcome)))
  }

  /** `POST /api/images/random`: no query is refused with 400; otherwise one
      random image of the topic's results or of the fall-back search. */
  function RandomImageEndpoint(query: Option<string>, apiKey: string, primary: Pixabay.FetchOutcome,
                               fallback: Pixabay.FetchOutcome, r: real)
    : (reply: Result<Option<Pixabay.PixabayImage>, HttpError>)
    requires 0.0 <= r < 1.0
    ensures !Truthy(query) ==> reply == Failure(HttpError(400, "Query is required"))
    ensures Truthy(query) ==> reply.Success?
    ensures reply.Success? && reply.value.Some? ==>
      reply.value.value in Pixabay.SearchImages(apiKey, primary) + Pixabay.SearchImages(apiKey, fallback)
  {
    if !Truthy(query) then Failure(HttpError(400, "Query is required"))
    else Success(Pixabay.GetRandomImage(apiKey, primary, fallback, r))
  }

  /** `POST /api/chat`: no message is refused with 400 before any request;
      otherwise the model's answer, or its error. */
  method ChatEndpoint(message: Option<string>, apiKey: string, outcome: Gemini.ModelOutcome)
    returns (sent: Option<Gemini.ModelRequest>, reply: Result<string, HttpError>)
    ensures !Truthy(message) ==> sent.None? && reply == Failure(HttpError(400, "Message is required"))
    ensures Truthy(message) ==> (sent.None? <==> apiKey == "")
    ensures Truthy(message) && sent.Some? ==> sent.value.contents == message.value
    ensures Truthy(message) ==> reply == Answer(Gemini.Reply(apiKey, outcome), "Failed to generate response")
  {
    if !Truthy(message) {
      return None, Failure(HttpError(400, "Message is required"));
    }
    var result;
    sent, result := Gemini.GenerateChatResponse(apiKey, message.value, outcome);
    reply := Answer(result, "Failed to generate response");
  }

  // ---------------------------------------------------------------------
  // File upload.
  // ---------------------------------------------------------------------

  const ImageMimePrefix: string := "image/"

  /** An uploaded file: its MIME type and its contents as each reader sees
      them. */
  datatype UploadedFile = UploadedFile(mimetype: string, input: FileProcessor.FileInput)

  /** The answer to a processed file: its text and which path it took. */
  datatype ProcessedFile = ProcessedFile(text: string, kind: string)

  /** A document extraction's result as the endpoint answers it. */
  function AsDocument(result: Result<string, string>): Result<ProcessedFile, HttpError> {
    match result
    case Success(text) => Success(ProcessedFile(text, "document"))
    case Failure(m) => Failure(ServerError(m, "Failed to process file"))
  }

  /** `POST /api/files/process`: no file is refused with 400; an image goes
      to text recognition (whose result `ocr` is) and is tagged "image";
      anything else goes to the document extractor and is tagged
      "document". */
  method ProcessFileEndpoint(file: Option<UploadedFile>, ocr: Result<string, string>)
    returns (reply: Result<ProcessedFile, HttpError>)
    ensures file.None? ==> reply == Failure(HttpError(400, "No file provided"))
    ensures file.Some? && ImageMimePrefix <= file.value.mimetype ==>
      reply == (match ocr
        case Success(text) => Success(ProcessedFile(text, "image"))
        case Failure(m) => Failure(ServerError(m, "Failed to process file")))
    ensures file.Some? && !(ImageMimePrefix <= file.value.mimetype) ==>
      var m := file.value.mimetype;
      var input := file.value.input;
      && (m == FileProcessor.PdfMime ==> reply == AsDocument(FileProcessor.PdfText(input.pdf)))
      && (m == FileProcessor.DocxMime ==> reply == AsDocument(FileProcessor.ExtractTextFromDocx(input.docx)))
      && (m != FileProcessor.PdfMime && m != FileProcessor.DocxMime && FileProcessor.TextMimePrefix <= m ==>
            reply == Success(ProcessedFile(input.utf8, "document")))
      && (m != FileProcessor.PdfMime && m != FileProcessor.DocxMime && !(FileProcessor.TextMimePrefix <= m) ==>
            reply == Failure(HttpError(500, FileProcessor.UnsupportedPrefix + m)))
  {
    if file.None? {
      return Failure(HttpError(400, "No file provided"));
    }
    var mimetype := file.value.mimetype;
    if ImageMimePrefix <= mimetype {
      match ocr {
        case Success(text) =>
          reply := Success(ProcessedFile(text, "image"));
        case Failure(m) =>
          reply := Failure(ServerError(m, "Failed to process file"));
      }
      return;
    }
    var text := FileProcessor.ExtractTextFromFile(file.value.input, mimetype);
    reply := AsDocument(text);
  }

  // ---------------------------------------------------------------------
  // Projects.
  // ---------------------------------------------------------------------

  /** The body of `POST /api/projects`. */
  datatype ProjectBody = ProjectBody(
    title: Option<string>,
    documentType: Option<string>,
    content: Option<ProjectContent>,
    userId: Option<string>)

  /** The guard of `POST /api/projects`: all four fields are required. */
  function ProjectInsert(body: ProjectBody): (r: Result<InsertDocument, HttpError>)
    ensures r.Success? <==>
      Truthy(body.title) && Truthy(body.documentType) && body.content.Some? && Truthy(body.userId)
    ensures r.Failure? ==> r.error == HttpError(400, "Missing required fields")
    ensures r.Success? ==>
      (r.value.title == body.title.value && r.value.documentType == body.documentType.value
       && r.value.content == body.content.value && r.value.userId == body.userId)
  {
    if !Truthy(body.title) || !Truthy(body.documentType) || body.content.None? || !Truthy(body.userId) then
      Failure(HttpError(400, "Missing required fields"))
    else
      Success(InsertDocument(body.userId, body.documentType.value, body.title.value, body.content.value))
  }

  /** `POST /api/projects`: a refused body leaves the store as it was;
      otherwise the project is stored under the new id and returned. */
  method CreateProjectEndpoint(store: Storage.MemStorage, body: ProjectBody, id: string, now: string)
    returns (reply: Result<Document, HttpError>)
    requires store.Valid()
    modifies store
    ensures store.Valid()
    ensures ProjectInsert(body).Failure? ==>
      (reply == Failure(ProjectInsert(body).error)
       && store.documents == old(store.documents) && store.order == old(store.order))
    ensures ProjectInsert(body).Success? ==>
      (reply == Success(Storage.NewDocument(ProjectInsert(body).value, id, now))
       && store.documents == old(store.documents)[id := reply.value])
    ensures ProjectInsert(body).Success? ==>
      store.order == if id in old(store.documents) then old(store.order) else old(store.order) + [id]
  {
    var checked := ProjectInsert(body);
    if checked.Failure? {
      return Failure(checked.error);
    }
    var project := store.CreateDocument(checked.value, id, now);
    reply := Success(project);
  }

  /** `GET /api/projects/:userId`: the user's stored projects. */
  method GetProjectsEndpoint(store: Storage.MemStorage, userId: string)
    returns (reply: Result<seq<Document>, HttpError>)
    ensures userId == "" ==> reply == Failure(HttpError(400, "User ID is required"))
    ensures userId != "" ==> reply == Success(Storage.OwnedBy(store.Values(), userId))
  {
    if userId == "" {
      return Failure(HttpError(400, "User ID is required"));
    }
    var projects := store.GetDocumentsByUserId(userId);
    reply := Success(projects);
  }

  /** `DELETE /api/projects/:id`: removes the project, if stored. */
  method DeleteProjectEndpoint(store: Storage.MemStorage, id: string)
    returns (reply: Result<(), HttpError>)
    requires store.Valid()
    modifies store
    ensures store.Valid()
    ensures id == "" ==>
      (reply == Failure(HttpError(400, "Project ID is required"))
       && store.documents == old(store.documents) && store.order == old(store.order))
    ensures id != "" ==> reply == Success(()) && store.documents == old(store.documents) - {id}
    ensures id != "" ==> store.order == Storage.Without(old(store.order), id)
  {
    if id == "" {
      return Failure(HttpError(400, "Project ID is required"));
    }
    store.DeleteDocument(id);
    reply := Success(());
  }
}
