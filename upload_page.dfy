/**
 * The upload page (src/app/upload/page.tsx): the same input modes as the
 * content page, but generation goes through the `/api/generate` route in one
 * request, whose results replace the whole draft map. The route's answer,
 * the file and link extractors and the selected files are parameters; alerts
 * are returned as texts.
 */
module UploadPage {
  import opened Wrappers
  import Utils
  import FileProcessing
  import OpenRouter
  import opened InputModes

  const NoPlatformAlert := "请至少选择一个目标平台"
  const NoContentAlert := "请输入或上传内容"
  const FileAlert := "处理文件时出错，请重试或使用其他文件"
  const NoUrlAlert := "请输入有效的URL"
  const LinkAlert := "抓取链接内容时出错，请检查URL或稍后重试"
  const GenerateAlert := "生成内容时出错，请重试"
  const RegenerateAlert := "重新生成内容时出错，请重试"

  /** The body of a request to `/api/generate`. */
  datatype GenerateRequest = GenerateRequest(platforms: seq<string>, content: string, fileName: Option<string>,
                                             model: string, regenerate: bool)

  /**
   * The route's answer as the page reads it: the `results` of a successful
   * response, or a failure (a status that is not 2xx, a body without
   * `success` or `results`, or a request or parse that threw).
   */
  datatype GenerateReply = Results(results: map<string, string>) | Failed

  /**
   * The draft map after a regeneration: the one requested platform takes the
   * route's result for it (an absent result leaves it without a draft), and
   * every other platform keeps its draft.
   */
  function MergeOne(drafts: map<string, string>, platformId: string, results: map<string, string>): (r: map<string, string>)
    ensures platformId in r <==> platformId in results
    ensures platformId in r ==> r[platformId] == results[platformId]
    ensures forall k | k != platformId :: (k in r <==> k in drafts) && (k in r ==> r[k] == drafts[k])
  {
    if platformId in results then drafts[platformId := results[platformId]] else drafts - {platformId}
  }

  /** Regenerating a platform twice with the same answer is regenerating it once. */
  lemma MergeOneIdempotent(drafts: map<string, string>, platformId: string, results: map<string, string>)
    ensures MergeOne(MergeOne(drafts, platformId, results), platformId, results) == MergeOne(drafts, platformId, results)
  {
  }

  /**
   * The generate button's enablement: not generating, no file being
   * processed, the current mode has its input, and a platform is selected.
   */
  predicate Enabled(isGenerating: bool, isProcessingFile: bool, mode: InputType, extracted: string, linkUrl: string,
                    typed: string, selectedPlatforms: seq<string>) {
    !isGenerating && !isProcessingFile &&
    !(mode.Document? && extracted == "") &&
    !(mode.Link? && linkUrl == "") &&
    !((mode.Sentence? || mode.LongText?) && typed == "") &&
    selectedPlatforms != []
  }

  /**
   * An enabled button in a chosen mode always passes the guards of
   * `handleGenerate`; with no mode chosen it can be enabled while the typed
   * text is empty, and the click then only alerts.
   */
  lemma EnabledPassesGuards(isGenerating: bool, isProcessingFile: bool, mode: InputType, extracted: string,
                            linkUrl: string, linkContent: string, typed: string, selectedPlatforms: seq<string>)
    requires Enabled(isGenerating, isProcessingFile, mode, extracted, linkUrl, typed, selectedPlatforms)
    ensures !mode.NoInput? ==> ToProcess(mode, extracted, linkUrl, linkContent, typed) != ""
    ensures mode.NoInput? ==> (ToProcess(mode, extracted, linkUrl, linkContent, typed) == "" <==> typed == "")
  {
    if mode.Link? && linkContent == "" {
      assert |LinkLead + linkUrl| > 0;
    }
  }

  /** The page's state. Each handler names the fields it may change, so every other field is left as it was. */
  class Page {
    var files: seq<FileProcessing.File>
    var selectedPlatforms: seq<string>
    var selectedModel: string
    var inputContent: string
    var inputType: InputType
    var linkUrl: string
    var linkContent: string
    var extractedContent: string
    var generatedContent: map<string, string>
    var isGenerating: bool
    var generatingPlatform: Option<string>
    var isProcessingFile: bool
    var isChatOpen: bool
    var activePlatform: string
    var activePlatformId: string

    constructor ()
      ensures files == [] && selectedPlatforms == [] && selectedModel == OpenRouter.ModelIds[0]
      ensures inputContent == "" && inputType == NoInput && linkUrl == "" && linkContent == "" && extractedContent == ""
      ensures generatedContent == map[] && !isGenerating && generatingPlatform.None? && !isProcessingFile
      ensures !isChatOpen && activePlatform == "" && activePlatformId == ""
    {
      files, selectedPlatforms, selectedModel := [], [], OpenRouter.ModelIds[0];
      inputContent, inputType, linkUrl, linkContent, extractedContent := "", NoInput, "", "", "";
      generatedContent, isGenerating, generatingPlatform, isProcessingFile := map[], false, None, false;
      isChatOpen, activePlatform, activePlatformId := false, "", "";
    }

    /** `getContentToProcess`: the same three-way choice as on the content page. */
    function ContentToProcess(): string
      reads this
    {
      ToProcess(inputType, extractedContent, linkUrl, linkContent, inputContent)
    }

    /** Whether the generate button can be clicked. */
    predicate GenerateEnabled()
      reads this
    {
      Enabled(isGenerating, isProcessingFile, inputType, extractedContent, linkUrl, inputContent, selectedPlatforms)
    }

    /** The `files` effect (`processFiles`): no file empties the text; otherwise the first file's text, or an alert. */
    method ProcessFiles(src: FileProcessing.Sources) returns (alert: Option<string>)
      modifies this`extractedContent, this`isProcessingFile
      ensures files == [] ==> extractedContent == "" && alert.None? && isProcessingFile == old(isProcessingFile)
      ensures files != [] ==>
        var r := FileProcessing.ExtractTextFromFile(files[0], src);
        (r.Done? ==> extractedContent == r.value && alert.None?) &&
        (r.Threw? ==> extractedContent == old(extractedContent) && alert == Some(FileAlert)) &&
        !isProcessingFile
    {
      alert := None;
      if files == [] {
        extractedContent := "";
        return;
      }
      var r := FileProcessing.ExtractTextFromFile(files[0], src);
      if r.Done? {
        extractedContent := r.value;
      } else {
        alert := Some(FileAlert);
      }
      isProcessingFile := false;
    }

    /**
     * `handleFetchLink`: without an address only an alert; a fetched text
     * becomes the link text (the extracted text is left alone); a failure
     * empties the link text and alerts.
     */
    method FetchLink(proxy: FileProcessing.Settled<Option<string>>) returns (alert: Option<string>)
      modifies this`linkContent
      ensures linkUrl == "" ==> linkContent == old(linkContent) && alert == Some(NoUrlAlert)
      ensures linkUrl != "" ==>
        var r := FileProcessing.FetchContentFromUrl(proxy);
        (r.Done? ==> linkContent == r.value && alert.None?) &&
        (r.Threw? ==> linkContent == "" && alert == Some(LinkAlert))
    {
      if linkUrl == "" {
        return Some(NoUrlAlert);
      }
      var r := FileProcessing.FetchContentFromUrl(proxy);
      if r.Done? {
        linkContent := r.value;
        alert := None;
      } else {
        linkContent := "";
        alert := Some(LinkAlert);
      }
    }

    /** `handleFileSelect`: the files are kept and document mode is chosen; the effect then runs. */
    method FileSelect(selected: seq<FileProcessing.File>)
      modifies this`files, this`inputType
      ensures files == selected && inputType == Document
    {
      files, inputType := selected, Document;
    }

    /** `handlePlatformChange`: the selection is kept as given. */
    method PlatformChange(platforms: seq<string>)
      modifies this`selectedPlatforms
      ensures selectedPlatforms == platforms
    {
      selectedPlatforms := platforms;
    }

    /** `handleModelChange`. */
    method ModelChange(modelId: string)
      modifies this`selectedModel
      ensures selectedModel == modelId
    {
      selectedModel := modelId;
    }

    /** The body of every request: the first file's name when there is one. */
    function FileName(): (r: Option<string>)
      reads this
      ensures r.Some? <==> files != []
      ensures r.Some? ==> r.value == files[0].name
    {
      if |files| > 0 then Some(files[0].name) else None
    }

    /**
     * `handleGenerate`: without a selected platform, or with an empty text
     * (not trimmed), only an alert; otherwise one request for all selected
     * platforms, whose results replace the whole draft map, or whose failure
     * alerts and keeps it.
     */
    method Generate(reply: GenerateReply) returns (request: Option<GenerateRequest>, alert: Option<string>)
      modifies this`generatedContent, this`isGenerating, this`generatingPlatform
      ensures selectedPlatforms == [] ==>
                request.None? && alert == Some(NoPlatformAlert) && generatedContent == old(generatedContent) &&
                isGenerating == old(isGenerating) && generatingPlatform == old(generatingPlatform)
      ensures selectedPlatforms != [] && ContentToProcess() == "" ==>
                request.None? && alert == Some(NoContentAlert) && generatedContent == old(generatedContent) &&
                isGenerating == old(isGenerating) && generatingPlatform == old(generatingPlatform)
      ensures selectedPlatforms != [] && ContentToProcess() != "" ==>
                request == Some(GenerateRequest(selectedPlatforms, ContentToProcess(), FileName(), selectedModel, false)) &&
                (reply.Results? ==> generatedContent == reply.results && alert.None?) &&
                (reply.Failed? ==> generatedContent == old(generatedContent) && alert == Some(GenerateAlert)) &&
                !isGenerating && generatingPlatform.None?
    {
      if selectedPlatforms == [] {
        return None, Some(NoPlatformAlert);
      }
      var content := ContentToProcess();
      if content == "" {
        return None, Some(NoContentAlert);
      }
      request := Some(GenerateRequest(selectedPlatforms, content, FileName(), selectedModel, false));
      match reply {
        case Results(results) =>
          generatedContent := results;
          alert := None;
        case Failed =>
          alert := Some(GenerateAlert);
      }
      isGenerating, generatingPlatform := false, None;
    }

    /**
     * `handleRegenerate`: one request for the one platform, with no check of
     * the text; its result is merged into the draft map under that platform
     * only, or its failure alerts.
     */
    method Regenerate(platformId: string, reply: GenerateReply) returns (request: GenerateRequest, alert: Option<string>)
      modifies this`generatedContent, this`isGenerating, this`generatingPlatform
      ensures request == GenerateRequest([platformId], ContentToProcess(), FileName(), selectedModel, true)
      ensures reply.Results? ==> generatedContent == MergeOne(old(generatedContent), platformId, reply.results) && alert.None?
      ensures reply.Failed? ==> generatedContent == old(generatedContent) && alert == Some(RegenerateAlert)
      ensures !isGenerating && generatingPlatform.None?
    {
      request := GenerateRequest([platformId], ContentToProcess(), FileName(), selectedModel, true);
      match reply {
        case Results(results) =>
          generatedContent := MergeOne(generatedContent, platformId, results);
          alert := None;
        case Failed =>
          alert := Some(RegenerateAlert);
      }
      isGenerating, generatingPlatform := false, None;
    }

    /** `handleOptimizeWithAI`: only a registered platform opens the chat, under its name. */
    method OptimizeWithAI(platformId: string)
      modifies this`isChatOpen, this`activePlatform, this`activePlatformId
      ensures Utils.IsRegistered(platformId) ==>
                isChatOpen && activePlatform == Utils.FindPlatform(platformId).value.name && activePlatformId == platformId
      ensures !Utils.IsRegistered(platformId) ==>
                isChatOpen == old(isChatOpen) && activePlatform == old(activePlatform) && activePlatformId == old(activePlatformId)
    {
      match Utils.FindPlatform(platformId) {
        case Some(p) =>
          activePlatform, activePlatformId, isChatOpen := p.name, platformId, true;
        case None =>
      }
    }

    /** `handleOptimizedContent`: the chat's text replaces the active platform's draft, with no check of the id. */
    method OptimizedContent(text: string)
      modifies this`generatedContent
      ensures generatedContent == old(generatedContent)[activePlatformId := text]
    {
      generatedContent := generatedContent[activePlatformId := text];
    }

    /** `handleInputTypeSelect`: the mode is chosen and the inputs of every other mode are emptied. */
    method InputTypeSelect(mode: InputType)
      modifies this`inputType, this`files, this`extractedContent, this`linkUrl, this`linkContent, this`inputContent
      ensures inputType == mode
      ensures files == if KeepsDocument(mode) then old(files) else []
      ensures extractedContent == if KeepsDocument(mode) then old(extractedContent) else ""
      ensures linkUrl == if KeepsLink(mode) then old(linkUrl) else ""
      ensures linkContent == if KeepsLink(mode) then old(linkContent) else ""
      ensures inputContent == if KeepsTyped(mode) then old(inputContent) else ""
      ensures ContentToProcess() ==
                if mode.NoInput? then "" else ToProcess(mode, old(extractedContent), old(linkUrl), old(linkContent), old(inputContent))
    {
      ChoosingKeepsText(mode, extractedContent, linkUrl, linkContent, inputContent,
                        if KeepsDocument(mode) then extractedContent else "",
                        if KeepsLink(mode) then linkUrl else "", if KeepsLink(mode) then linkContent else "",
                        if KeepsTyped(mode) then inputContent else "");
      inputType := mode;
      if !mode.Document? {
        files, extractedContent := [], "";
      }
      if !mode.Link? {
        linkUrl, linkContent := "", "";
      }
      if !mode.Sentence? && !mode.LongText? {
        inputContent := "";
      }
    }

    /**
     * A close button of an input panel: only the mode is reset, so the typed
     * text, which the page then processes, is whatever it was.
     */
    method CloseMode()
      modifies this`inputType
      ensures inputType == NoInput
      ensures ContentToProcess() == inputContent
    {
      inputType := NoInput;
    }
  }
}
