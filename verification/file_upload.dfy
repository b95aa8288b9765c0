/** The upload accumulator of the generator pages: the files uploaded so
    far, the text extracted from them, and whether a batch is being
    processed. Each batch is sent file by file to the processing endpoint;
    the endpoint's replies are parameters, one per file. */
module FileUpload {
  import opened Wrappers
  import opened Strings
  import opened Sequences

  /** An uploaded file, as the accumulator sees it. */
  datatype UploadedFile = UploadedFile(name: string, mimetype: string)

  /** The endpoint's reply to one file: its `ok` flag and the `text` field
      of its body, when there is one. */
  datatype FileReply = FileReply(ok: bool, text: Option<string>)

  const ProcessFailure: string := "Failed to process file"

  /** Put between the texts of a batch, and between the previous text and
      the batch's. */
  const TextSeparator: string := "\n\n"

  /** `processFile`: a reply that is not ok fails; otherwise its text, or
      the empty string when it has none. */
  function ProcessFile(reply: FileReply): (r: Result<string, string>)
    ensures r.Failure? <==> !reply.ok
    ensures r.Failure? ==> r.error == ProcessFailure
    ensures r.Success? && reply.text.Some? ==> r.value == reply.text.value
    ensures r.Success? && reply.text.None? ==> r.value == ""
  {
    if !reply.ok then Failure(ProcessFailure) else Success(reply.text.GetOr(""))
  }

  /** Every file of the batch was processed. */
  predicate AllProcessed(replies: seq<FileReply>) {
    forall i :: 0 <= i < |replies| ==> replies[i].ok
  }

  /** The texts of a processed batch, file by file. */
  function Texts(replies: seq<FileReply>): (texts: seq<string>)
    ensures |texts| == |replies|
    ensures forall i :: 0 <= i < |replies| ==> texts[i] == replies[i].text.GetOr("")
  {
    seq(|replies|, i requires 0 <= i < |replies| => replies[i].text.GetOr(""))
  }

  class FileUploadState {
    var uploadedFiles: seq<UploadedFile>
    var isProcessing: bool
    var extractedText: string

    constructor()
      ensures uploadedFiles == [] && !isProcessing && extractedText == ""
    {
      uploadedFiles := [];
      isProcessing := false;
      extractedText := "";
    }

    /** `handleFileUpload`: processes the batch; when every file succeeds,
        the files are appended and their texts, joined by blank lines, are
        appended to the text after a blank line; when one fails, neither
        changes. Either way processing is over at the end. `ok` says which
        notice is shown. */
    method HandleFileUpload(files: seq<UploadedFile>, replies: seq<FileReply>) returns (ok: bool)
      requires |replies| == |files|
      modifies this
      ensures !isProcessing
      ensures ok <==> AllProcessed(replies)
      ensures ok ==> uploadedFiles == old(uploadedFiles) + files
      ensures ok ==> extractedText == old(extractedText) + TextSeparator + Join(Texts(replies), TextSeparator)
      ensures !ok ==> uploadedFiles == old(uploadedFiles) && extractedText == old(extractedText)
    {
      isProcessing := true;
      var texts: seq<string> := [];
      var i := 0;
      while i < |replies|
        invariant 0 <= i <= |replies|
        invariant AllProcessed(replies[..i])
        invariant |texts| == i
        invariant forall j :: 0 <= j < i ==> texts[j] == replies[j].text.GetOr("")
        invariant uploadedFiles == old(uploadedFiles) && extractedText == old(extractedText)
      {
        var text := ProcessFile(replies[i]);
        if text.Failure? {
          assert !AllProcessed(replies);
          isProcessing := false;
          return false;
        }
        texts := texts + [text.value];
        assert replies[..i + 1] == replies[..i] + [replies[i]];
        i := i + 1;
      }
      assert replies[..i] == replies;
      assert texts == Texts(replies);
      var combinedText := Join(texts, TextSeparator);
      uploadedFiles := uploadedFiles + files;
      extractedText := extractedText + TextSeparator + combinedText;
      isProcessing := false;
      return true;
    }

    /** `removeFile`: drops the file at `index`, when there is one; the
        extracted text stays as it is. */
    method RemoveFile(index: int)
      modifies this
      ensures uploadedFiles == ExceptIndex(old(uploadedFiles), index)
      ensures 0 <= index < |old(uploadedFiles)| ==>
        uploadedFiles == old(uploadedFiles)[..index] + old(uploadedFiles)[index + 1..]
      ensures !(0 <= index < |old(uploadedFiles)|) ==> uploadedFiles == old(uploadedFiles)
      ensures extractedText == old(extractedText) && isProcessing == old(isProcessing)
    {
      ExceptIndexSlices(uploadedFiles, index);
      uploadedFiles := ExceptIndex(uploadedFiles, index);
    }

    /** `clearAll`: forgets every file and all the text. */
    method ClearAll()
      modifies this
      ensures uploadedFiles == [] && extractedText == ""
      ensures isProcessing == old(isProcessing)
    {
      uploadedFiles := [];
      extractedText := "";
    }
  }

  /** A processed batch's texts keep the order of its files: the texts of
      one batch followed by another are the texts of the first, then those
      of the second. */
  lemma TextsInOrder(a: seq<FileReply>, b: seq<FileReply>)
    ensures Texts(a + b) == Texts(a) + Texts(b)
  {
  }

  /** A batch of one file adds a blank line and exactly its text. */
  lemma SingleUpload(previous: string, reply: FileReply)
    requires reply.ok
    ensures previous + TextSeparator + Join(Texts([reply]), TextSeparator) == previous + "\n\n" + reply.text.GetOr("")
  {
    assert Texts([reply]) == [reply.text.GetOr("")];
  }
}
