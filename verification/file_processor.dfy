/** Turning an uploaded file into plain text, by MIME type: PDF pages are
    read one by one and their text laid end to end, a Word document's raw
    text is taken as the extraction library gives it, a text file is
    decoded, and anything else is refused. The PDF and Word libraries are
    not modelled: what they make of the file's bytes is an input. */
module FileProcessor {
  import opened Wrappers
  import opened Strings
  import opened Sequences

  const PdfMime: string := "application/pdf"
  const DocxMime: string := "application/vnd.openxmlformats-officedocument.wordprocessingml.document"
  const TextMimePrefix: string := "text/"

  /** Appended after the text of every PDF page. */
  const PageBreak: string := "\n\n"

  const PdfErrorPrefix: string := "Failed to extract text from PDF: "
  const DocxErrorPrefix: string := "Failed to extract text from DOCX: "
  const UnsupportedPrefix: string := "Unsupported file type: "

  /** What reading one page gives: the `str` of each of its text items, or
      the error raised while fetching the page or its text content. */
  datatype PageOutcome = PageRead(items: seq<string>) | PageUnreadable(reason: string)

  /** What the PDF library makes of the file: its pages, page 1 first, or
      the error raised while loading it. */
  datatype PdfLoad = PdfLoaded(pages: seq<PageOutcome>) | PdfFailed(reason: string)

  /** What the Word library makes of the file: its raw text, or an error. */
  datatype DocxRead = DocxRaw(value: string) | DocxFailed(reason: string)

  /** The uploaded file as each reader sees it. */
  datatype FileInput = FileInput(pdf: PdfLoad, docx: DocxRead, utf8: string)

  // ---------------------------------------------------------------------
  // PDF extraction.
  // ---------------------------------------------------------------------

  /** The text one page adds: its items joined with single spaces, then a
      page break. */
  function PageChunk(page: PageOutcome): string {
    match page
    case PageRead(items) => Join(items, " ") + PageBreak
    case PageUnreadable(_) => []
  }

  /** The text of all pages before trimming, page by page in order. */
  function RawPdfText(pages: seq<PageOutcome>): string {
    FlatMap(PageChunk, pages)
  }

  /** The index of the first page that cannot be read, if any. */
  function FirstUnreadable(pages: seq<PageOutcome>): (r: Option<nat>)
    ensures r.None? <==> forall j :: 0 <= j < |pages| ==> pages[j].PageRead?
    ensures r.Some? ==>
      (r.value < |pages| && pages[r.value].PageUnreadable?
       && forall j :: 0 <= j < r.value ==> pages[j].PageRead?)
  {
    if pages == [] then None
    else if pages[0].PageUnreadable? then Some(0)
    else match FirstUnreadable(pages[1..])
      case None => None
      case Some(k) => Some(k + 1)
  }

  /** What `extractTextFromPDF` yields: the trimmed text of all pages, or the
      first error met, with the PDF prefix. */
  function PdfText(load: PdfLoad): Result<string, string> {
    match load
    case PdfFailed(reason) => Failure(PdfErrorPrefix + reason)
    case PdfLoaded(pages) =>
      match FirstUnreadable(pages)
      case Some(i) => Failure(PdfErrorPrefix + pages[i].reason)
      case None => Success(Trim(RawPdfText(pages)))
  }

  /** `extractTextFromPDF`: visits the pages in order, appending each page's
      text and a page break, and trims the whole at the end. */
  method ExtractTextFromPdf(load: PdfLoad) returns (r: Result<string, string>)
    ensures r == PdfText(load)
  {
    if load.PdfFailed? {
      return Failure(PdfErrorPrefix + load.reason);
    }
    var pages := load.pages;
    var fullText := "";
    var pageNum := 0;
    while pageNum < |pages|
      invariant 0 <= pageNum <= |pages|
      invariant forall j :: 0 <= j < pageNum ==> pages[j].PageRead?
      invariant fullText == RawPdfText(pages[..pageNum])
    {
      var page := pages[pageNum];
      if page.PageUnreadable? {
        return Failure(PdfErrorPrefix + page.reason);
      }
      var pageText := Join(page.items, " ");
      FlatMapSnoc(PageChunk, [], fullText, pages, pageNum);
      fullText := fullText + (pageText + PageBreak);
      pageNum := pageNum + 1;
    }
    assert pages[..pageNum] == pages;
    return Success(Trim(fullText));
  }

  /** A PDF fails exactly when it cannot be loaded or one of its pages
      cannot be read, and the error names the PDF. */
  lemma PdfFailures(load: PdfLoad)
    ensures PdfText(load).Failure? <==>
      load.PdfFailed? || exists j :: 0 <= j < |load.pages| && load.pages[j].PageUnreadable?
    ensures PdfText(load).Failure? ==> PdfErrorPrefix <= PdfText(load).error
  {
  }

  /** The text of a readable PDF neither starts nor ends with white space. */
  lemma PdfTextTrimmed(load: PdfLoad)
    requires PdfText(load).Success?
    ensures var t := PdfText(load).value;
      t == [] || (!IsSpace(t[0]) && !IsSpace(t[|t| - 1]))
  {
    TrimSpec(RawPdfText(load.pages));
  }

  /** The pages' text is laid out in page order: the text of the first `k`
      pages comes first. */
  lemma PdfPagesInOrder(pages: seq<PageOutcome>, k: nat)
    requires k <= |pages|
    ensures RawPdfText(pages) == RawPdfText(pages[..k]) + RawPdfText(pages[k..])
  {
    assert pages == pages[..k] + pages[k..];
    FlatMapAppend(PageChunk, pages[..k], pages[k..]);
  }

  /** A PDF with no pages yields the empty text. */
  lemma PdfNoPages()
    ensures PdfText(PdfLoaded([])) == Success("")
  {
  }

  /** A single page whose joined items are unpadded yields exactly those
      items joined with spaces: the page break is trimmed away. */
  lemma PdfSinglePage(items: seq<string>)
    requires var t := Join(items, " "); t == [] || (!IsSpace(t[0]) && !IsSpace(t[|t| - 1]))
    ensures PdfText(PdfLoaded([PageRead(items)])) == Success(Join(items, " "))
  {
    var pages := [PageRead(items)];
    assert pages[..0] == [];
    assert FlatMap(PageChunk, pages) == FlatMap(PageChunk, pages[..0]) + PageChunk(pages[0]);
    EmptyThen(PageChunk(pages[0]));
    TrimPadded(Join(items, " "), PageBreak);
  }

  // ---------------------------------------------------------------------
  // Word extraction and dispatch.
  // ---------------------------------------------------------------------

  /** `extractTextFromDOCX`: the raw text trimmed, or the error with the
      Word prefix. */
  function ExtractTextFromDocx(read: DocxRead): (r: Result<string, string>)
    ensures read.DocxFailed? <==> r.Failure?
    ensures r.Failure? ==> r.error == DocxErrorPrefix + read.reason
    ensures r.Success? ==> r.value == [] || (!IsSpace(r.value[0]) && !IsSpace(r.value[|r.value| - 1]))
    ensures r.Success? ==> r.value <= read.value[LeadCount(read.value)..]
    ensures r.Success? ==> AllSpace(read.value[..LeadCount(read.value)])
    ensures r.Success? ==> AllSpace(read.value[LeadCount(read.value) + |r.value|..])
  {
    match read
    case DocxFailed(reason) => Failure(DocxErrorPrefix + reason)
    case DocxRaw(value) =>
      TrimSpec(value);
      Success(Trim(value))
  }

  /** `extractTextFromFile`: dispatch on the exact MIME type. A PDF or Word
      document goes to its extractor; any `text/` type is the decoded bytes,
      untouched; anything else is refused, naming the type. */
  method ExtractTextFromFile(input: FileInput, mimeType: string) returns (r: Result<string, string>)
    ensures mimeType == PdfMime ==> r == PdfText(input.pdf)
    ensures mimeType == DocxMime ==> r == ExtractTextFromDocx(input.docx)
    ensures mimeType != PdfMime && mimeType != DocxMime && TextMimePrefix <= mimeType ==>
      r == Success(input.utf8)
    ensures mimeType != PdfMime && mimeType != DocxMime && !(TextMimePrefix <= mimeType) ==>
      r == Failure(UnsupportedPrefix + mimeType)
  {
    if mimeType == PdfMime {
      r := ExtractTextFromPdf(input.pdf);
    } else if mimeType == DocxMime {
      r := ExtractTextFromDocx(input.docx);
    } else if TextMimePrefix <= mimeType {
      r := Success(input.utf8);
    } else {
      r := Failure(UnsupportedPrefix + mimeType);
    }
  }
}
