/** The shared record types: the stored project document, what a caller
    supplies to create one, and the enumerations the generators use. */
module Schema {
  import opened Wrappers

  /** The four generators, by the name used in their endpoint paths. */
  datatype DocumentType = Report | PowerPoint | Conference | Thesis

  function DocumentTypeName(t: DocumentType): string {
    match t
    case Report => "report"
    case PowerPoint => "powerpoint"
    case Conference => "conference"
    case Thesis => "thesis"
  }

  datatype ToneType = Academic | Professional | Essay | Creative

  function ToneName(t: ToneType): string {
    match t
    case Academic => "academic"
    case Professional => "professional"
    case Essay => "essay"
    case Creative => "creative"
  }

  /** The `content` object of a saved project: its optional `topic`, and the
      generated document itself, kept as its serialised JSON text. */
  datatype ProjectContent = ProjectContent(topic: Option<string>, generatedContent: string)

  /** What the project endpoint hands to storage: the four request fields,
      stored under the names the request uses. */
  datatype InsertDocument = InsertDocument(
    userId: Option<string>,
    documentType: string,
    title: string,
    content: ProjectContent)

  /** A stored project: the inserted fields plus the id and the two timestamps. */
  datatype Document = Document(
    id: string,
    userId: Option<string>,
    documentType: string,
    title: string,
    content: ProjectContent,
    createdAt: string,
    updatedAt: string)
}
