/** The conference-paper page: its editable author list, which never
    becomes empty, the topic it sends (with the uploaded files' text
    appended as context), the options it posts, and when its generate
    button is enabled. */
module GenerateConference {
  import opened Wrappers
  import opened Strings
  import opened Sequences
  import opened Schema
  import opened DocumentGenerator

  const BlankAuthor: Author := Author("", "", "")

  /** Put between the topic and the uploaded files' text. */
  const ContextHeading: string := "\n\nAdditional Context:\n"

  /** The three fields of an author. */
  datatype AuthorField = Name | Affiliation | Email

  function FieldOf(a: Author, field: AuthorField): string {
    match field
    case Name => a.name
    case Affiliation => a.affiliation
    case Email => a.email
  }

  /** `a` with one field set to `value`. */
  function WithField(a: Author, field: AuthorField, value: string): (b: Author)
    ensures FieldOf(b, field) == value
    ensures forall g :: g != field ==> FieldOf(b, g) == FieldOf(a, g)
  {
    match field
    case Name => a.(name := value)
    case Affiliation => a.(affiliation := value)
    case Email => a.(email := value)
  }

  class ConferenceForm {
    var authors: seq<Author>

    /** There is always an author to edit. */
    predicate Valid()
      reads this
    {
      |authors| >= 1
    }

    /** The page opens with one blank author. */
    constructor()
      ensures Valid() && authors == [BlankAuthor]
    {
      authors := [BlankAuthor];
    }

    /** `addAuthor`: one blank author after the others. */
    method AddAuthor()
      requires Valid()
      modifies this
      ensures Valid()
      ensures authors == old(authors) + [BlankAuthor]
    {
      authors := authors + [BlankAuthor];
    }

    /** `removeAuthor`: drops the author at `index`, unless it is the only
        one. */
    method RemoveAuthor(index: int)
      requires Valid()
      modifies this
      ensures Valid()
      ensures |old(authors)| > 1 ==> authors == ExceptIndex(old(authors), index)
      ensures |old(authors)| > 1 && 0 <= index < |old(authors)| ==>
        authors == old(authors)[..index] + old(authors)[index + 1..]
      ensures |old(authors)| == 1 || !(0 <= index < |old(authors)|) ==> authors == old(authors)
    {
      ExceptIndexSlices(authors, index);
      if |authors| > 1 {
        authors := ExceptIndex(authors, index);
      }
    }

    /** `updateAuthor`: sets one field of the author at `index`; every other
        field and every other author stays as it was. */
    method UpdateAuthor(index: nat, field: AuthorField, value: string)
      requires Valid()
      requires index < |authors|
      modifies this
      ensures Valid()
      ensures |authors| == |old(authors)|
      ensures FieldOf(authors[index], field) == value
      ensures forall g :: g != field ==> FieldOf(authors[index], g) == FieldOf(old(authors)[index], g)
      ensures forall j :: 0 <= j < |authors| && j != index ==> authors[j] == old(authors)[j]
    {
      authors := authors[index := WithField(authors[index], field, value)];
    }
  }

  /** The topic `handleGenerate` sends: the typed topic, followed by the
      uploaded files' text under a heading when there is any. */
  function FinalTopic(topic: string, extractedText: string): string {
    if extractedText != "" then topic + ContextHeading + extractedText else topic
  }

  /** With no uploaded text the topic is sent as typed; otherwise it starts
      with the typed topic and the heading and ends with the text. */
  lemma FinalTopicParts(topic: string, extractedText: string)
    ensures extractedText == "" ==> FinalTopic(topic, extractedText) == topic
    ensures extractedText != "" ==>
      (var t := FinalTopic(topic, extractedText);
       && topic + ContextHeading <= t
       && |t| == |topic| + |ContextHeading| + |extractedText|
       && t[|topic| + |ContextHeading|..] == extractedText)
  {
    if extractedText != "" {
      PrefixOfConcat(topic + ContextHeading, extractedText);
    }
  }

  /** The page's settings that go into a request. */
  datatype FormState = FormState(
    topic: string,
    targetPages: string,
    tone: ToneType,
    citationStyle: string,
    generateImages: bool,
    useManualAuthors: bool,
    authors: seq<Author>,
    useCustomFormatting: bool,
    customFormat: CustomFormat)

  /** The options `handleGenerate` posts: the final topic and the page's
      settings; the authors only when entered by hand, the formatting only
      when customised. */
  function Payload(form: FormState, extractedText: string): (o: GeneratorOptions)
    ensures o.topic == FinalTopic(form.topic, extractedText)
    ensures o.targetPages == Some(form.targetPages) && o.tone == Some(form.tone)
      && o.citationStyle == Some(form.citationStyle) && o.generateImages == Some(form.generateImages)
    ensures o.targetLength.None? && o.slideCount.None?
    ensures o.authors.Some? <==> form.useManualAuthors
    ensures o.authors.Some? ==> o.authors.value == form.authors
    ensures o.customFormat.Some? <==> form.useCustomFormatting
    ensures o.customFormat.Some? ==> o.customFormat.value == form.customFormat
  {
    GeneratorOptions(
      FinalTopic(form.topic, extractedText),
      None,
      Some(form.tone),
      Some(form.citationStyle),
      None,
      Some(form.targetPages),
      Some(form.generateImages),
      if form.useManualAuthors then Some(form.authors) else None,
      if form.useCustomFormatting then Some(form.customFormat) else None)
  }

  /** The generate button is enabled: the topic is not blank once trimmed,
      and nothing is being generated or processed. */
  predicate CanGenerate(topic: string, isGenerating: bool, isProcessing: bool) {
    Trim(topic) != "" && !isGenerating && !isProcessing
  }

  /** The button is enabled exactly when the topic has a character that is
      not white space and the page is idle. */
  lemma CanGenerateExactly(topic: string, isGenerating: bool, isProcessing: bool)
    ensures CanGenerate(topic, isGenerating, isProcessing) <==>
      (exists i :: 0 <= i < |topic| && !IsSpace(topic[i])) && !isGenerating && !isProcessing
  {
    TrimBlank(topic);
  }
}
