/** The submission flow (src/components/sections/upload-section.tsx): which
    dropped files are accepted, when the process button is enabled, and
    `handleProcess`, which calls the API layer and writes the result into
    the local store. */
module Upload {

  import opened Wrappers
  import opened Domain
  import opened Utils
  import opened EmailStore
  import opened Api

  datatype Tab = FileTab | TextTab

  /** `5 * 1024 * 1024` bytes. */
  const MaxFileSize: nat := 5 * 1024 * 1024

  function LowerAscii(c: char): char
  {
    if 'A' <= c <= 'Z' then (c as int - 'A' as int + 'a' as int) as char else c
  }

  function LowerAll(s: string): (r: string)
    ensures |r| == |s| && forall i :: 0 <= i < |s| ==> r[i] == LowerAscii(s[i])
  {
    if s == [] then [] else [LowerAscii(s[0])] + LowerAll(s[1..])
  }

  /** `name.match(/\.(txt|pdf)$/i)`: a dot, then "txt" or "pdf" in any
      letter case, at the very end of the name. */
  predicate HasAcceptedExtension(name: string)
    ensures HasAcceptedExtension(name) <==>
      |name| >= 4 && name[|name| - 4] == '.' &&
      (LowerAll(name[|name| - 3..]) == "txt" || LowerAll(name[|name| - 3..]) == "pdf")
  {
    assert |name| >= 4 ==> name[|name| - 4..] == [name[|name| - 4]] + name[|name| - 3..];
    assert |name| >= 4 ==> LowerAll(name[|name| - 4..])[1..] == LowerAll(name[|name| - 3..]);
    |name| >= 4 && (LowerAll(name[|name| - 4..]) == ".txt" || LowerAll(name[|name| - 4..]) == ".pdf")
  }

  /** Any name ending in ".txt" or ".pdf", in any mix of cases, is accepted. */
  lemma ExtensionIgnoresCase(stem: string, ext: string)
    requires |ext| == 4 && (LowerAll(ext) == ".txt" || LowerAll(ext) == ".pdf")
    ensures HasAcceptedExtension(stem + ext)
  {
    assert (stem + ext)[|stem + ext| - 4..] == ext;
  }

  /** A name whose last four characters are no such extension is refused. */
  lemma OtherExtensionsRefused(name: string)
    requires |name| >= 4 && name[|name| - 4] != '.'
    ensures !HasAcceptedExtension(name)
  {
    assert LowerAll(name[|name| - 4..])[0] == LowerAscii(name[|name| - 4]);
  }

  datatype DropOutcome = NothingDropped | UnsupportedType | TooLarge | Loaded

  /** What `handleProcess` does before any network call. */
  datatype Step = CallFile(file: File) | CallText(content: string) | Invalid(message: string) | NoContent

  /** The branching at the top of `handleProcess`. */
  function ProcessStep(tab: Tab, file: Option<File>, text: string): (s: Step)
    ensures s.CallFile? <==> tab == FileTab && file.Some?
    ensures s.CallFile? ==> s.file == file.value
    ensures s.CallText? <==> tab == TextTab && ValidateEmailContent(text).isValid
    ensures s.CallText? ==> s.content == text
    ensures s.Invalid? <==> tab == TextTab && text != "" && !ValidateEmailContent(text).isValid
    ensures s.Invalid? ==> Some(s.message) == ValidateEmailContent(text).error
    ensures s.NoContent? <==> (tab == FileTab && file.None?) || (tab == TextTab && text == "")
  {
    match tab
    case FileTab =>
      if file.Some? then CallFile(file.value) else NoContent
    case TextTab =>
      if text == "" then NoContent
      else
        var validation := ValidateEmailContent(text);
        if !validation.isValid then Invalid(validation.error.value) else CallText(text)
  }

  /** `canProcess`: a file on the file tab, or on the text tab a text whose
      trimmed `.length` reaches the minimum. On the text tab the button is
      enabled exactly when validation passes or fails only for length. */
  predicate CanProcess(tab: Tab, file: Option<File>, text: string)
    ensures tab == FileTab ==> (CanProcess(tab, file, text) <==> file.Some?)
    ensures tab == TextTab ==> (CanProcess(tab, file, text) <==>
      ValidateEmailContent(text).isValid || ValidateEmailContent(text).error == Some(TooLongError))
  {
    (tab == FileTab && file.Some?) || (tab == TextTab && Utf16Length(Trim(text)) >= MinContentLength)
  }

  /** An enabled button leads to a request unless the text is over the
      length limit, and every request is made from an enabled state. */
  lemma CanProcessMeansRequest(tab: Tab, file: Option<File>, text: string)
    ensures CanProcess(tab, file, text) && (tab == TextTab ==> Utf16Length(text) <= MaxContentLength) ==>
      ProcessStep(tab, file, text).CallFile? || ProcessStep(tab, file, text).CallText?
    ensures ProcessStep(tab, file, text).CallFile? || ProcessStep(tab, file, text).CallText? ==>
      CanProcess(tab, file, text)
  {
  }

  /** The result `handleProcess` stores for a successful response. */
  function ResultFrom(tab: Tab, file: Option<File>, text: string, response: EmailAnalysisResponse): (r: EmailResult)
    ensures r.id == response.id && r.classification == response.classification
    ensures r.suggestedResponse == response.suggestedResponse && r.fileName == response.fileName
    ensures r.confidence == ConfidencePercent(response.confidence)
    ensures tab == TextTab ==> r.content == text
    ensures tab == FileTab && file.Some? && file.value.name != "" ==> r.content == file.value.name
    ensures tab == FileTab && (file.None? || file.value.name == "") ==> r.content == "Arquivo"
    ensures r.timestamp == response.analysisTimestamp
    ensures file.Some? ==> r.fileType == Some(file.value.mimeType)
    ensures file.None? ==> r.fileType == None
  {
    EmailResult(
      response.id,
      if tab == TextTab then text
      else if file.Some? && file.value.name != "" then file.value.name
      else "Arquivo",
      response.classification,
      ConfidencePercent(response.confidence),
      response.suggestedResponse,
      response.analysisTimestamp,
      response.fileName,
      if file.Some? then Some(file.value.mimeType) else None)
  }

  /** What the user is told when `handleProcess` ends. */
  datatype ProcessOutcome = Analysed(result: EmailResult) | Rejected(message: string) | NoContentMessage | Failed(message: string)

  /** The `UploadSection` component over the shared store. */
  class UploadSection {
    const store: Store
    var activeTab: Tab
    var textCharCount: nat

    constructor (store: Store)
      ensures this.store == store && activeTab == FileTab && textCharCount == 0
    {
      this.store := store;
      activeTab := FileTab;
      textCharCount := 0;
    }

    method SetActiveTab(tab: Tab)
      modifies this`activeTab
      ensures activeTab == tab
    {
      activeTab := tab;
    }

    /** `onDrop`: only the first file is looked at; a wrong extension or a
        size over 5 MiB leaves the current file as it was. */
    method OnDrop(acceptedFiles: seq<File>) returns (outcome: DropOutcome)
      modifies store`currentFile
      ensures acceptedFiles == [] ==> outcome == NothingDropped
      ensures acceptedFiles != [] && !HasAcceptedExtension(acceptedFiles[0].name) ==> outcome == UnsupportedType
      ensures acceptedFiles != [] && HasAcceptedExtension(acceptedFiles[0].name) && acceptedFiles[0].size > MaxFileSize ==>
        outcome == TooLarge
      ensures outcome == Loaded <==>
        acceptedFiles != [] && HasAcceptedExtension(acceptedFiles[0].name) && acceptedFiles[0].size <= MaxFileSize
      ensures outcome == Loaded ==> store.currentFile == Some(acceptedFiles[0])
      ensures outcome != Loaded ==> store.currentFile == old(store.currentFile)
    {
      if acceptedFiles == [] {
        return NothingDropped;
      }
      var file := acceptedFiles[0];
      if !HasAcceptedExtension(file.name) {
        return UnsupportedType;
      }
      if file.size > MaxFileSize {
        return TooLarge;
      }
      store.SetCurrentFile(Some(file));
      outcome := Loaded;
    }

    /** `handleTextChange`. */
    method HandleTextChange(text: string)
      modifies store`currentText, this`textCharCount
      ensures store.currentText == text && textCharCount == Utf16Length(text)
    {
      store.SetCurrentText(text);
      textCharCount := Utf16Length(text);
    }

    /** `handleClear`. */
    method HandleClear()
      modifies store`currentFile, store`currentText, this`textCharCount
      ensures store.currentFile == None && store.currentText == "" && textCharCount == 0
    {
      store.ClearCurrentInput();
      textCharCount := 0;
    }

    /** `handleProcess`. `isProcessing` is raised first and lowered on every
        way out; the store changes only after a successful response. */
    method HandleProcess(client: APIClient, fetch: HttpRequest -> FetchOutcome<EmailAnalysisResponse>)
      returns (sent: Option<HttpRequest>, outcome: ProcessOutcome)
      requires store.Valid()
      modifies store, this`textCharCount
      ensures store.Valid() && !store.isProcessing
      ensures var step := ProcessStep(old(activeTab), old(store.currentFile), old(store.currentText));
        && (step.CallFile? ==> sent == Some(HttpRequest(client.baseURL + "/analyze/file", Some(Post), map[],
                                                        Some(FileForm(step.file)))))
        && (step.CallText? ==> sent == Some(HttpRequest(client.baseURL + "/analyze", Some(Post), JsonHeaders,
                                                        Some(AnalysisJson(step.content, None)))))
        && (step.Invalid? ==> sent == None && outcome == Rejected(step.message))
        && (step.NoContent? ==> sent == None && outcome == NoContentMessage)
      ensures sent.Some? && Normalize(fetch(sent.value)).Success? ==>
        && outcome == Analysed(ResultFrom(old(activeTab), old(store.currentFile), old(store.currentText),
                                          Normalize(fetch(sent.value)).value))
        && store.history == Prepend(old(store.history), outcome.result)
        && store.currentResult == Some(outcome.result)
        && store.currentFile == None && store.currentText == "" && textCharCount == 0
      ensures sent.Some? && Normalize(fetch(sent.value)).Failure? ==>
        outcome == Failed("Erro: " + Normalize(fetch(sent.value)).error.message)
      ensures sent.None? || Normalize(fetch(sent.value)).Failure? ==>
        && store.history == old(store.history) && store.stats == old(store.stats)
        && store.currentResult == old(store.currentResult)
        && store.currentFile == old(store.currentFile) && store.currentText == old(store.currentText)
        && textCharCount == old(textCharCount)
    {
      store.SetProcessing(true);
      var step := ProcessStep(activeTab, store.currentFile, store.currentText);
      var response: Result<EmailAnalysisResponse, Thrown>;
      match step {
        case CallFile(file) =>
          var request;
          request, response := AnalyzeEmailFile(client, file, fetch);
          sent := Some(request);
        case CallText(content) =>
          var request;
          request, response := AnalyzeEmail(client, content, None, fetch);
          sent := Some(request);
        case Invalid(message) =>
          sent, outcome := None, Rejected(message);
          store.SetProcessing(false);
          return;
        case NoContent =>
          sent, outcome := None, NoContentMessage;
          store.SetProcessing(false);
          return;
      }
      match response {
        case Success(apiResponse) =>
          var result := ResultFrom(activeTab, store.currentFile, store.currentText, apiResponse);
          store.AddResult(result);
          store.ClearCurrentInput();
          textCharCount := 0;
          outcome := Analysed(result);
        case Failure(error) =>
          outcome := Failed(if error.JsError? then "Erro: " + error.message else "Erro ao processar o email");
      }
      store.SetProcessing(false);
    }

    /** Whether the process button is enabled (`disabled={!canProcess ||
        isProcessing}`): never while a request is in flight, and a press
        then either sends a request or reports the text as too long. */
    predicate ProcessEnabled()
      reads this, store
      ensures ProcessEnabled() ==> !store.isProcessing
      ensures ProcessEnabled() ==>
        var step := ProcessStep(activeTab, store.currentFile, store.currentText);
        step.CallFile? || step.CallText? || step == Invalid(TooLongError)
    {
      CanProcess(activeTab, store.currentFile, store.currentText) && !store.isProcessing
    }
  }
}
