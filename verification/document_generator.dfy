/** The client's generation hook: it posts the options to the endpoint of
    its document type and walks a progress bar through the request, then
    keeps the generated content on success and resets the progress on
    failure. The server's answer is a parameter: the response body, or the
    error the request raised. */
module DocumentGenerator {
  import opened Wrappers
  import opened Schema

  datatype Author = Author(name: string, affiliation: string, email: string)

  datatype CustomFormat = CustomFormat(
    fontSize: string,
    lineSpacing: string,
    padding: string,
    textAlign: string,
    textColor: string,
    fontFamily: string)

  /** The options posted to a generate endpoint; an absent option is left
      out of the body. */
  datatype GeneratorOptions = GeneratorOptions(
    topic: string,
    targetLength: Option<string>,
    tone: Option<ToneType>,
    citationStyle: Option<string>,
    slideCount: Option<string>,
    targetPages: Option<string>,
    generateImages: Option<bool>,
    authors: Option<seq<Author>>,
    customFormat: Option<CustomFormat>)

  /** The generated document, as parsed from the server's answer. */
  datatype Content = Content(json: string)

  /** The server's answer: the body's `content`, when there is one. */
  datatype GeneratorResponse = GeneratorResponse(content: Option<Content>)

  const EndpointPrefix: string := "/api/generate/"

  /** The endpoint a hook posts to: the prefix, then its document type. */
  function Endpoint(documentType: DocumentType): (e: string)
    ensures EndpointPrefix <= e
    ensures e[|EndpointPrefix|..] == DocumentTypeName(documentType)
  {
    EndpointPrefix + DocumentTypeName(documentType)
  }

  /** The images step runs: images were asked for and the answer has
      content. */
  predicate ImagesStep(options: GeneratorOptions, response: GeneratorResponse) {
    options.generateImages == Some(true) && response.content.Some?
  }

  /** Each progress value set is larger than the one before. */
  predicate Rising(steps: seq<nat>) {
    forall i, j :: 0 <= i < j < |steps| ==> steps[i] < steps[j]
  }

  class GeneratorState {
    const documentType: DocumentType
    var generatedContent: Option<Content>
    var progress: nat

    constructor(documentType: DocumentType)
      ensures this.documentType == documentType
      ensures generatedContent.None? && progress == 0
    {
      this.documentType := documentType;
      generatedContent := None;
      progress := 0;
    }

    /** `mutationFn`: 30 before the request; when it answers, 60, then 90
        if images were asked for and the answer has content. `steps` are
        the progress values set, in order; the request raises `response`'s
        error, if any. */
    method MutationFn(options: GeneratorOptions, response: Result<GeneratorResponse, string>)
      returns (endpoint: string, steps: seq<nat>)
      modifies this
      ensures endpoint == Endpoint(documentType)
      ensures steps != [] && steps[0] == 30 && progress == steps[|steps| - 1]
      ensures Rising(steps)
      ensures response.Failure? ==> steps == [30]
      ensures response.Success? ==> |steps| >= 2 && steps[1] == 60
      ensures 90 in steps <==> response.Success? && ImagesStep(options, response.value)
      ensures progress <= 90
      ensures steps == if response.Failure? then [30]
        else if ImagesStep(options, response.value) then [30, 60, 90] else [30, 60]
      ensures generatedContent == old(generatedContent)
    {
      progress := 30;
      steps := [30];
      endpoint := Endpoint(documentType);
      if response.Failure? {
        return;
      }
      progress := 60;
      steps := steps + [60];
      if ImagesStep(options, response.value) {
        progress := 90;
        steps := steps + [90];
      }
    }

    /** `onSuccess`: the bar is full and the answer's content is kept. */
    method OnSuccess(data: GeneratorResponse)
      modifies this
      ensures progress == 100 && generatedContent == data.content
    {
      progress := 100;
      generatedContent := data.content;
    }

    /** `onError`: the bar goes back to zero; the content shown before is
        kept. */
    method OnError()
      modifies this
      ensures progress == 0 && generatedContent == old(generatedContent)
    {
      progress := 0;
    }

    /** `reset`: no content and an empty bar. */
    method Reset()
      modifies this
      ensures generatedContent.None? && progress == 0
    {
      generatedContent := None;
      progress := 0;
    }

    /** One call of `generate`: the request, then `onSuccess` or `onError`.
        A successful run ends full with the answer's content, a failed one
        empty with the content it had. */
    method Generate(options: GeneratorOptions, response: Result<GeneratorResponse, string>)
      returns (endpoint: string, steps: seq<nat>)
      modifies this
      ensures endpoint == Endpoint(documentType)
      ensures response.Success? ==> progress == 100 && generatedContent == response.value.content
      ensures response.Failure? ==> progress == 0 && generatedContent == old(generatedContent)
      ensures |steps| >= 2 && steps[0] == 30 && steps[|steps| - 1] == progress
      ensures 90 in steps <==> response.Success? && ImagesStep(options, response.value)
    {
      var requested: seq<nat>;
      endpoint, requested := MutationFn(options, response);
      if response.Success? {
        OnSuccess(response.value);
      } else {
        OnError();
      }
      steps := requested + [progress];
    }
  }
}
