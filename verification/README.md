# Academic Document Generator, modelled in Dafny

The Academic Document Generator lets a user describe a topic and get back AI-written structured
content: a technical report, a slide deck, a conference paper or a thesis. It can export that
content to Word and pull text out of uploaded files to use as extra context.

This project models the deterministic pieces around the AI and network calls, and proves what
they promise:

- **The Word export builder** (`DocumentExport`). It turns a title, an author, an abstract,
  sections with one level of subsections, and references into an ordered list of paragraphs.
  - A paragraph is a value with text, heading level and alignment.
  - The builder is a sequence of methods that append to a list. Each method is proved against a
    specification function.
- **Keyword extraction and image search** (`Pixabay`):
  - the keyword pipeline (lower-case, split on white space, filter, take 8, join, append
    `" technology"`);
  - the 100-character query;
  - the empty-result cases of the search;
  - the primary/fallback choice of a random image.
- **File-to-text extraction** (`FileProcessor`):
  - the MIME dispatch;
  - the page loop that accumulates PDF text;
  - trimming of the Word text;
  - the error prefixes.
- **The in-memory project store** (`Storage.MemStorage`). It is a class with a `map` from id to
  document, plus the insertion order of the keys, because a JavaScript `Map` lists its values in
  insertion order.
- **Request construction for the language model** (`Gemini`): option defaults, conditional
  configuration fields, and the prompt, instruction and budget of each document type.
- **The HTTP endpoints** (`Routes`): required-field checks answering 400, per-type defaults, the
  image/document branch of the upload endpoint, and the 500 answer built from an error's message.
- **Random topic selection** (`RandomTopics`): the 8×8 table and a lookup by two random numbers.
- **The client's state machines**, each modelled as a class whose fields its handlers update:
  - the upload accumulator (`FileUpload`);
  - the progress stepper of the generation hook (`DocumentGenerator`);
  - the conference page's author list (`GenerateConference`), which is never empty;
  - the project search filter (`MyProjects`).

Helper modules:

- `Wrappers`: `Option` and `Result`.
- `Sequences`: a block-by-block `FlatMap` with its lemmas, and index filtering.
- `Strings`: the JavaScript string operations the code relies on, including `trim`, `toLowerCase`,
  `split`, `join`, `includes` and the decimal rendering of numbers.
- `Chance`: `Math.floor(Math.random() * n)`, with the random number as a parameter.
- `Schema`: the stored document types.

Everything outside the program is a parameter of the model. This covers:

- the language model's answer;
- the image service's reply;
- the PDF and Word libraries' view of a file;
- the OCR result;
- random numbers, ids and timestamps.

### What the code does not do

- The generators call `JSON.parse` on the raw reply. They do not recover JSON from surrounding
  prose, fall back to the topic for a missing title, or coerce references to strings.
- A batch with one failing file fails as a whole and changes nothing
  (`FileUpload.FileUploadState.HandleFileUpload`).
- The project endpoint stores the body's `documentType` and does not validate `content`. The
  search page reads `content.topic` as optional, and so does the model.

## Model

| member | source | states |
|---|---|---|
| DocumentExport.CreateDocxDocument | server/lib/document-export.ts:17-134 | The paragraph list built step by step equals the specification `DocxParagraphs`, whose properties the lemmas below prove |
| DocumentExport.PushFrontMatter | server/lib/document-export.ts:18-55 | The title, the author line and the abstract block are the front matter `FrontMatter(options)` |
| DocumentExport.PushSections | server/lib/document-export.ts:57-105 | The loop over sections appends each section's block in input order |
| DocumentExport.PushSection | server/lib/document-export.ts:57-105 | One section contributes its heading, its chunk paragraphs and its subsection blocks |
| DocumentExport.PushSubsections | server/lib/document-export.ts:82-104 | The loop over subsections appends each subsection's block in input order |
| DocumentExport.PushSubsection | server/lib/document-export.ts:83-103 | A subsection contributes a second-level heading, then its own chunk paragraphs |
| DocumentExport.PushChunks | server/lib/document-export.ts:70-80 | The chunk loop appends one trimmed body paragraph per non-blank chunk |
| DocumentExport.PushReferences | server/lib/document-export.ts:107-124 | A "References" heading is followed by the numbered reference lines |
| DocumentExport.TitleFirst | server/lib/document-export.ts:22-29 | The first paragraph is always the title, at title level, centred |
| DocumentExport.AuthorLine | server/lib/document-export.ts:18-39 | An author line follows the title exactly when the effective author is non-empty. An omitted author defaults to "AI Generated", so the line is missing only when "" is passed |
| DocumentExport.AbstractPlacement | server/lib/document-export.ts:41-55 | The abstract heading appears only for a non-empty abstract, right after the front lines. The abstract paragraph follows it, and sections and references come after |
| DocumentExport.ChunkParagraphsTrimmed | server/lib/document-export.ts:70-80 | Every chunk paragraph is a body paragraph whose text is a non-empty, already trimmed chunk of the input |
| DocumentExport.ChunkParagraphsNonBlank | server/lib/document-export.ts:70-80 | Chunks that are all non-blank give one paragraph each, in order, holding the trimmed chunk |
| DocumentExport.ChunkParagraphsBlank | server/lib/document-export.ts:74-79 | Chunks that are blank after trimming give no paragraph |
| DocumentExport.BlankContentNoParagraphs | server/lib/document-export.ts:70-80 | Section content that is all white space gives no paragraph |
| DocumentExport.TwoParagraphs | server/lib/document-export.ts:70-80 | Two unpadded paragraphs separated by a blank line become exactly two body paragraphs |
| DocumentExport.SplitTwo | server/lib/document-export.ts:70 | Splitting on the blank line separates two single-line paragraphs |
| DocumentExport.SubsectionsIgnoreDeeper | server/lib/document-export.ts:82-104 | Subsections nested below the first level do not change the output |
| DocumentExport.SectionsAfterFront | server/lib/document-export.ts:57-105 | No section paragraph can be mistaken for a title, author or abstract paragraph |
| DocumentExport.BodyAfterFront | server/lib/document-export.ts:17-134 | The document is the front matter followed by a body that has no front-matter paragraph |
| DocumentExport.ReferenceLinesNumbered | server/lib/document-export.ts:110-123 | Reference k (from 1) reads "[k] " followed by the k-th reference, in array order |
| DocumentExport.ReferencesPlacement | server/lib/document-export.ts:107-124 | The references block closes the document and appears only when there are references. It is the heading, then "[k] ref_k" for every k |
| DocumentExport.CreatePptxPresentation | server/lib/document-export.ts:157-159 | The slide deck options are returned unchanged |
| Pixabay.ExtractKeywords | server/lib/pixabay.ts:17-33 | The keyword string always ends with " technology" |
| Pixabay.KeptWordsSpec | server/lib/pixabay.ts:18-30 | At most 8 words are kept. Each is lower-case, longer than 3 UTF-16 code units, not a generic term and free of white space, and they keep their order in the topic |
| Pixabay.FilterKeptMembers | server/lib/pixabay.ts:28 | A word survives the filter exactly when it is in the input, is longer than 3 UTF-16 code units and is not generic |
| Pixabay.KeptLength | server/lib/pixabay.ts:28 | `word.length` counts UTF-16 code units: for characters of the Basic Multilingual Plane the test is "more than 3 characters", and "ab" followed by an emoji (3 characters, 4 units) is kept |
| Pixabay.FilterKeptOrder | server/lib/pixabay.ts:28 | The filtered words are a subsequence of the input |
| Pixabay.Take | server/lib/pixabay.ts:29 | Taking the first n words yields a prefix of length min(n, length) |
| Pixabay.NothingKept | server/lib/pixabay.ts:26-32 | When no word survives, the keyword string is exactly " technology" |
| Pixabay.KeywordsReadBack | server/lib/pixabay.ts:26-32 | Splitting the keyword string, with the suffix cut off, on white space gives back exactly the kept words |
| Pixabay.SplitWsLower | server/lib/pixabay.ts:26-27 | Splitting a lower-case string yields lower-case words |
| Pixabay.SearchQuery | server/lib/pixabay.ts:41-42 | The query is the prefix of the keyword string of length min(length, 100): the whole string when it is short enough, exactly its first 100 characters otherwise |
| Pixabay.SearchRequest | server/lib/pixabay.ts:36-49 | No request is made without a key. Otherwise the request carries the key, the query, "photo", the page size and safe search |
| Pixabay.SearchImages | server/lib/pixabay.ts:35-64 | The result is empty without a key, when the fetch fails, when the status is not ok, or when there are no hits. Otherwise it is the hits |
| Pixabay.GetRandomImage | server/lib/pixabay.ts:66-76 | A non-empty primary search gives one of its images. Otherwise the result is one of the fallback images, or none only when both searches are empty |
| Pixabay.RandomImageSearches | server/lib/pixabay.ts:66-72 | The topic is searched first. "technology business" is searched second, only when the first search is empty |
| FileProcessor.ExtractTextFromPdf | server/lib/file-processor.ts:6-27 | The page loop yields `PdfText`: the trimmed text of all pages in order, or the first error with the PDF prefix |
| FileProcessor.FirstUnreadable | server/lib/file-processor.ts:13-20 | Finds the first page that cannot be read, or none exactly when every page reads |
| FileProcessor.PdfFailures | server/lib/file-processor.ts:23-26 | A PDF fails exactly when it cannot be loaded or a page cannot be read, and the error starts with the PDF prefix |
| FileProcessor.PdfTextTrimmed | server/lib/file-processor.ts:22 | Extracted PDF text neither starts nor ends with white space |
| FileProcessor.PdfPagesInOrder | server/lib/file-processor.ts:13-20 | The text of the first k pages precedes the text of the rest |
| FileProcessor.PdfSinglePage | server/lib/file-processor.ts:15-22 | A single unpadded page gives its items joined by single spaces, with the page break trimmed away |
| FileProcessor.ExtractTextFromDocx | server/lib/file-processor.ts:29-37 | A library failure gives the Word-prefixed error. Success gives the raw text with exactly its leading and trailing white space removed: what precedes and what follows the result is all white space, and the result neither starts nor ends with white space |
| FileProcessor.ExtractTextFromFile | server/lib/file-processor.ts:39-54 | PDF and the exact Word type go to their extractors, and any "text/" type returns the decoded text untouched. Every other type fails with "Unsupported file type: " and the type |
| Storage.NewDocument | server/storage.ts:29-36 | The new document has the given id, equal creation and update times, and the inserted fields |
| Storage.MemStorage.constructor | server/storage.ts:14-16 | The store starts empty |
| Storage.MemStorage.GetDocument | server/storage.ts:18-20 | An unknown id gives nothing. A known id gives its stored document |
| Storage.MemStorage.GetDocumentsByUserId | server/storage.ts:22-26 | The loop yields the stored documents of the user, filtered in insertion order |
| Storage.MemStorage.CreateDocument | server/storage.ts:28-39 | The document is stored under its id and `getDocument(id)` returns it. Every other entry is unchanged and the store invariant is kept |
| Storage.MemStorage.DeleteDocument | server/storage.ts:41-43 | Only `id` is removed; deleting an absent id changes nothing. The store invariant is kept |
| Storage.UserDocumentsExact | server/storage.ts:22-26 | The user's list holds exactly the stored documents whose owner is that user |
| Storage.OwnedMembers | server/storage.ts:24-25 | Filtering by owner keeps exactly the documents of that owner |
| Storage.ValuesMembers | server/storage.ts:24 | The list of values holds exactly the stored documents |
| Storage.OwnedInOrder | server/storage.ts:24-25 | The owner filter preserves insertion order |
| Storage.WithoutMembers | server/storage.ts:41-43 | Deleting keeps every other key and drops `id` |
| Storage.WithoutDistinct | server/storage.ts:41-43 | Deleting keeps the key order free of repeats |
| Storage.WithoutAbsent | server/storage.ts:41-43 | Deleting an absent key leaves the order as it was |
| Gemini.Reply | server/lib/gemini.ts:19-56 | A missing key fails before any call, and a thrown error is wrapped with "Failed to generate content: ". A missing answer text becomes "" |
| Gemini.BuildConfig | server/lib/gemini.ts:33-44 | The system instruction is set exactly when a non-empty one is given. The JSON MIME type is set exactly for JSON format |
| Gemini.GenerateContent | server/lib/gemini.ts:15-57 | Nothing is sent without a key. Unset options default to "gemini-2.5-flash", 0.7, 8192 and text format |
| Gemini.GenerateReportContent | server/lib/gemini.ts:59-86 | The report request has the report prompt and instruction, a budget of 16384 and JSON output |
| Gemini.GeneratePresentationContent | server/lib/gemini.ts:88-114 | The presentation request has the presentation prompt and instruction, a budget of 16384 and JSON output |
| Gemini.GenerateConferencePaperContent | server/lib/gemini.ts:116-144 | The conference request has the conference prompt, an instruction interpolating the citation style, a budget of 32768 and JSON output |
| Gemini.GenerateThesisContent | server/lib/gemini.ts:146-178 | The thesis request has the thesis prompt, an instruction interpolating the citation style, a budget of 65536 and JSON output |
| Gemini.GenerateChatResponse | server/lib/gemini.ts:202-242 | The chat request has the message as prompt, the assistant's instruction, temperature 0.7, a budget of 1024 and plain text |
| Gemini.ReportPromptMentions | server/lib/gemini.ts:77 | The report prompt contains the topic, the length and the tone verbatim |
| Gemini.PresentationPromptMentions | server/lib/gemini.ts:105 | The presentation prompt contains the topic, the slide count and the tone verbatim |
| Gemini.ConferenceMentions | server/lib/gemini.ts:119-135 | The conference prompt contains its three arguments, and the instruction contains the citation style |
| Gemini.ThesisMentions | server/lib/gemini.ts:149-169 | The thesis prompt contains its three arguments, and the instruction contains the citation style |
| Gemini.NonEmptyInstruction | server/lib/gemini.ts:38-40 | An interpolated instruction is never empty, so it is always set in the configuration |
| Routes.ServerError | server/routes.ts:28-31 | A thrown error answers 500 with its message, or with the handler's fallback text when the message is empty |
| Routes.GenerateArguments | server/routes.ts:13-95 | A falsy topic answers 400 "Topic is required". Otherwise the options pass through, or take the per-type defaults when falsy |
| Routes.CallGenerator | server/routes.ts:21-88 | Each document type calls its own generator with the endpoint's arguments |
| Routes.GenerateEndpoint | server/routes.ts:13-95 | A falsy topic answers 400 and nothing is sent to the model. Otherwise the generator's request is made, and its answer or its error, with the per-type fallback, is returned |
| Routes.OmittedOptionsDefault | server/routes.ts:21-88 | Omitted or empty options give "auto" with academic, professional, ieee and harvard respectively |
| Routes.SearchImagesEndpoint | server/routes.ts:97-111 | A falsy query answers 400 "Query is required" and sends no search. Otherwise it sends the search for the query with 10 per page (none without a key) and answers that search's images |
| Routes.RandomImageEndpoint | server/routes.ts:113-127 | A falsy query answers 400. Otherwise any image answered comes from the primary or the fallback search |
| Routes.ChatEndpoint | server/routes.ts:215-229 | A falsy message answers 400 "Message is required" and nothing is sent. Otherwise the model's answer or error is returned |
| Routes.ProcessFileEndpoint | server/routes.ts:129-149 | No file answers 400. An "image/" type takes the OCR path, tagged "image". Everything else goes to the document extractor, tagged "document" |
| Routes.ProjectInsert | server/routes.ts:163-174 | A project is accepted exactly when title, documentType, content and userId are all truthy; otherwise 400 "Missing required fields" |
| Routes.CreateProjectEndpoint | server/routes.ts:161-181 | A refused body leaves the store unchanged. An accepted one is stored under the new id and returned; a new id goes last in the listing order, and an existing id keeps its place |
| Routes.GetProjectsEndpoint | server/routes.ts:183-197 | An empty user id answers 400. Otherwise the answer is exactly the user's stored projects, in order |
| Routes.DeleteProjectEndpoint | server/routes.ts:199-213 | An empty id answers 400 and changes nothing. Otherwise exactly that project is removed, from the store and from the listing order |
| RandomTopics.GetRandomTopic | shared/random-topics.ts:84-94 | The category is one of the table's eight names, and the topic is in that category's list |
| RandomTopics.PickTopic | shared/random-topics.ts:85-93 | The chosen category and topic lie in any non-empty, stocked table |
| RandomTopics.TableShape | shared/random-topics.ts:1-82 | There are eight categories, with eight topics each |
| RandomTopics.EveryTopicReachable | shared/random-topics.ts:85-88 | Every topic of every category is chosen for some pair of random numbers in [0, 1) |
| RandomTopics.Names | shared/random-topics.ts:85 | The key list names the categories in table order |
| Chance.RandomIndex | shared/random-topics.ts:86-88 | `Math.floor(Math.random() * n)` lies in [0, n) |
| FileUpload.ProcessFile | client/src/hooks/use-file-upload.ts:10-25 | A reply that is not ok fails with "Failed to process file". A missing text becomes "" |
| FileUpload.FileUploadState.HandleFileUpload | client/src/hooks/use-file-upload.ts:27-51 | If every file succeeds, the files are appended and the text becomes previous + "\n\n" + texts joined by "\n\n". If any file fails, files and text are unchanged. Processing is off at the end |
| FileUpload.FileUploadState.RemoveFile | client/src/hooks/use-file-upload.ts:53-55 | Exactly the file at the index is dropped when the index is in range, and nothing otherwise. The text is untouched |
| FileUpload.FileUploadState.ClearAll | client/src/hooks/use-file-upload.ts:57-60 | The file list and the text are both emptied |
| FileUpload.TextsInOrder | client/src/hooks/use-file-upload.ts:32-33 | The texts of two batches laid end to end are the first batch's, then the second's |
| FileUpload.SingleUpload | client/src/hooks/use-file-upload.ts:33-36 | A one-file batch adds "\n\n" and exactly its text, even when there was no text before |
| Sequences.ExceptIndexSlices | client/src/hooks/use-file-upload.ts:54 | Filtering out an index removes exactly that element when the index is in range, and nothing otherwise |
| DocumentGenerator.Endpoint | client/src/hooks/use-document-generator.ts:51 | The request goes to "/api/generate/" followed by the document type |
| DocumentGenerator.GeneratorState.constructor | client/src/hooks/use-document-generator.ts:43-44 | There is no content and progress is 0 at first |
| DocumentGenerator.GeneratorState.MutationFn | client/src/hooks/use-document-generator.ts:48-64 | The progress values set are exactly [30] when the request fails, [30, 60] when it answers, and [30, 60, 90] when images were asked for and the answer has content |
| DocumentGenerator.GeneratorState.OnSuccess | client/src/hooks/use-document-generator.ts:65-72 | Progress is 100 and the answer's content is kept |
| DocumentGenerator.GeneratorState.OnError | client/src/hooks/use-document-generator.ts:73-80 | Progress returns to 0 and the content shown before stays |
| DocumentGenerator.GeneratorState.Reset | client/src/hooks/use-document-generator.ts:83-86 | The content is cleared and progress is 0 |
| DocumentGenerator.GeneratorState.Generate | client/src/hooks/use-document-generator.ts:47-81 | A successful run ends at 100 with the answer's content. A failed run ends at 0 with the earlier content. 90 is reached only on the images step |
| GenerateConference.ConferenceForm.constructor | client/src/pages/generate-conference.tsx:35 | The author list starts as exactly one blank author |
| GenerateConference.ConferenceForm.AddAuthor | client/src/pages/generate-conference.tsx:54-56 | One blank author is appended and the others are unchanged |
| GenerateConference.ConferenceForm.RemoveAuthor | client/src/pages/generate-conference.tsx:58-62 | The author at the index is removed only when there is more than one, so the list never becomes empty |
| GenerateConference.ConferenceForm.UpdateAuthor | client/src/pages/generate-conference.tsx:64-68 | Only the named field of the author at the index changes |
| GenerateConference.WithField | client/src/pages/generate-conference.tsx:66 | Setting one field leaves the other two as they were |
| GenerateConference.FinalTopicParts | client/src/pages/generate-conference.tsx:71 | With no uploaded text the topic is sent as typed. Otherwise it is the topic, the "Additional Context" heading, then the text |
| GenerateConference.Payload | client/src/pages/generate-conference.tsx:70-81 | The posted options carry the final topic and the settings. Authors are sent only when entered by hand, and the format only when customised |
| GenerateConference.CanGenerateExactly | client/src/pages/generate-conference.tsx:435 | The button is enabled exactly when the topic has a non-white-space character and nothing is generating or processing |
| MyProjects.FilteredMembers | client/src/pages/my-projects.tsx:58-61 | A project is listed exactly when its lower-cased title, or its lower-cased topic, contains the lower-cased query |
| MyProjects.EmptyQueryKeepsAll | client/src/pages/my-projects.tsx:58-61 | An empty query lists every project, in order |
| MyProjects.FilteredInOrder | client/src/pages/my-projects.tsx:58 | Filtering preserves the loaded order |
| MyProjects.NothingLoaded | client/src/pages/my-projects.tsx:36-61 | With nothing loaded, nothing is listed |
| MyProjects.NoTopicTitleOnly | client/src/pages/my-projects.tsx:60 | A project without a topic matches only through its title |
| MyProjects.QueryCaseIgnored | client/src/pages/my-projects.tsx:58-60 | Lower-casing the query lists the same projects |
| Strings.TrimSpec | server/lib/file-processor.ts:22 | `trim` removes white space from both ends only, and the result is unpadded |
| Strings.Utf16LengthBmp | server/lib/pixabay.ts:28 | A string of Basic Multilingual Plane characters has a JavaScript length equal to its number of characters |
| Strings.TrimIdempotent | server/lib/document-export.ts:72-75 | Trimming twice is trimming once |
| Strings.SplitOnJoin | server/lib/document-export.ts:70 | Joining the pieces of a split with the separator gives the string back |
| Strings.SplitWsJoin | server/lib/pixabay.ts:27-30 | Words free of white space, joined by single spaces, split back into the same words |
| Strings.ParseNatToString | server/lib/document-export.ts:119 | The decimal rendering of a number reads back as that number |

## Left out

- Parsing of the AI replies with `JSON.parse` (server/lib/gemini.ts:85,113,143,177). The generators return the raw reply text, and the generation endpoints answer with that text. So a reply that is not JSON, including the empty text of a missing answer, is answered with that text, where the source answers 500 with the parse error's message.
- The Gemini SDK call itself and the image OCR call (server/lib/gemini.ts:46-50,180-200). Their outcomes are parameters: `Gemini.ModelOutcome` and the `ocr` result of `Routes.ProcessFileEndpoint`.
- The system instructions are modelled verbatim only up to where each describes the JSON layout it asks for. The chat instruction is modelled only up to its first line. Beyond those points the long literals make proofs too costly, and nothing in the model depends on the wording.
- Strings.ToLower: lower-cases ASCII letters only, whereas JavaScript's `toLowerCase` also folds non-ASCII letters.
- Pixabay.ExtractKeywords: inherits the ASCII-only lower-casing of `Strings.ToLower`. The length filter does count UTF-16 code units, as `word.length` does.
- Pixabay.SearchQuery: cuts the keyword string after 100 characters (Unicode code points), whereas `substring(0, 100)` cuts after 100 UTF-16 code units. The two differ only when the keyword string holds characters outside the Basic Multilingual Plane. The JavaScript cut can then split a surrogate pair, which a string of code points cannot represent.
- The docx library: `Packer.toBuffer` and the heading numbering reference (server/lib/document-export.ts:136-139). Paragraphs are plain values.
- The pdfjs and mammoth libraries and the worker URL (server/lib/file-processor.ts:1-4,8-10,31). The pages, their text items and the raw Word text are inputs.
- Network and I/O, each an input or left out:
  - `fetch` to the image service, its URL encoding, and `urlToBase64` (server/lib/pixabay.ts:44-58,78-88);
  - the client's `fetch` calls;
  - multer's 10 MB upload limit (server/routes.ts:10);
  - Express wiring and the logging of errors.
- `Math.random`, `randomUUID` and `new Date()` are parameters.
- `Routes.SearchImagesEndpoint` and `Routes.RandomImageEndpoint` have no 500 path, because the search never throws. The random-topic endpoint (server/routes.ts:151-159) only wraps `RandomTopics.GetRandomTopic` and is not modelled separately.
- Body fields are absent or strings. A non-string JSON value in a request body (a number, an object) is not modelled.
- The time order of `Promise.all`. A batch is a sequence of per-file replies, and every failure gives the same message, so which failure comes first does not matter.
- The delay before progress 90 (client/src/hooks/use-document-generator.ts:57-59), and react-query's pending flag.
- The user-visible notices ("toasts") of the client handlers. `FileUpload.FileUploadState.HandleFileUpload` returns only whether the batch succeeded.
- DocumentGenerator.GeneratorState.MutationFn: content counts as present whenever the answer has a `content` field. A falsy JSON value there (`null`, `0`, `""`) is not told apart.
- GenerateConference.ConferenceForm.UpdateAuthor: the source writes into the shared author object in place, so the previous list sees the change too. The model treats authors as values. The source would throw on an index out of range, so the model requires a valid index.
- Firebase authentication and storage, the project-management hook, and the UI rendering of every page.
