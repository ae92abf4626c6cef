/**
 * The content creation page (src/app/content/page.tsx). Its state is a
 * platform-to-draft map, a platform-to-prompt map, the selected platforms
 * and the inputs of each input mode; its handlers generate a draft for each
 * selected platform, regenerate or replace one draft, and save the drafts
 * of the selected platforms. The generator, the file and link extractors,
 * the save request and the signed-in user are parameters; alerts are
 * returned as texts.
 */
module ContentPage {
  import opened Wrappers
  import opened Strings
  import Seqs
  import Utils
  import FileProcessing
  import OpenRouter
  import opened InputModes

  /** A platform's prompt choice: a custom prompt, or `null` for the default prompts. */
  type Choice = Option<OpenRouter.CustomPrompt>

  /** The model the page generates with. */
  const Model := "google/gemini-2.0-flash-001"

  const NoPlatformAlert := "请至少选择一个目标平台"
  const NoContentAlert := "请输入要处理的内容"
  const FileAlert := "处理文件时出错，请重试或使用其他文件"
  const NoUrlAlert := "请输入有效的URL"
  const LinkAlert := "抓取链接内容时出错，请检查URL或稍后重试"
  const RegenerateAlert := "重新生成内容时出错，请重试"

  const LoginError := "请先登录"
  const NoDraftsError := "请先生成内容"
  const NoTitleError := "请输入内容标题"
  const NothingToSave := "没有生成任何平台的内容"
  const SaveFailed := "保存失败"
  const NoIdError := "保存成功但无法获取内容ID"

  /** The page's model is the first model option. */
  lemma ModelIsFirstOption()
    ensures Model == OpenRouter.ModelIds[0]
  {
  }

  /** `platforms.find(p => p.id === platform)?.name`, which interpolates as "undefined" when missing. */
  function NameOrUndefined(platformId: string): (r: string)
    ensures Utils.IsRegistered(platformId) ==> r == Utils.FindPlatform(platformId).value.name
    ensures !Utils.IsRegistered(platformId) ==> r == "undefined"
  {
    match Utils.FindPlatform(platformId)
    case Some(p) => p.name
    case None => "undefined"
  }

  /** The alert for one platform whose generation failed. */
  function GenerateAlert(platformId: string): string {
    "为 " + NameOrUndefined(platformId) + " 生成内容时出错，请重试"
  }

  /** `selectedPrompts[platform] || null`: a missing entry means the default prompts. */
  function PromptFor(prompts: map<string, Choice>, platformId: string): (r: Choice)
    ensures r.Some? <==> platformId in prompts && prompts[platformId].Some?
    ensures r.Some? ==> r == prompts[platformId]
  {
    if platformId in prompts then prompts[platformId] else None
  }

  /** A generator: the content, the platform id, the model and the prompt choice to a text or an error. */
  type Generator = (string, string, string, Choice) -> Result<string>

  /** The generator the page calls: `generateOptimizedContent` over a completion service. */
  function Library(service: OpenRouter.Service): Generator {
    (content, platformId, model, custom) => OpenRouter.GenerateOptimizedContent(content, platformId, model, custom, service)
  }

  /** What the generator answers for each platform, for one content and one prompt map. */
  function Outcomes(content: string, prompts: map<string, Choice>, generate: Generator): string -> Result<string> {
    p => generate(content, p, Model, PromptFor(prompts, p))
  }

  /** With the library generator, an unregistered platform always fails, whatever the service answers. */
  lemma UnregisteredFails(content: string, prompts: map<string, Choice>, service: OpenRouter.Service, platformId: string)
    requires !Utils.IsRegistered(platformId)
    ensures Outcomes(content, prompts, Library(service))(platformId) == Err(OpenRouter.UnsupportedPlatform(platformId))
  {
    var custom := PromptFor(prompts, platformId);
    assert Library(service)(content, platformId, Model, custom) ==
           OpenRouter.GenerateOptimizedContent(content, platformId, Model, custom, service);
  }

  // ---------------------------------------------------------------------
  // Platform selection and prompt choices
  // ---------------------------------------------------------------------

  /**
   * The prompt map after `handlePlatformChange`: one entry per selected
   * platform, the previous choice where there was one and `null` for a
   * newly selected platform.
   */
  function PromptsFor(prev: map<string, Choice>, platforms: seq<string>): (r: map<string, Choice>)
    ensures forall p :: p in r <==> p in platforms
    ensures forall p | p in r && p in prev :: r[p] == prev[p]
    ensures forall p | p in r && p !in prev :: r[p] == None
  {
    map p | p in platforms :: if p in prev then prev[p] else None
  }

  /** A choice made for a platform survives every later selection that keeps the platform. */
  lemma ChoiceSurvives(prev: map<string, Choice>, platformId: string, c: Choice, platforms: seq<string>)
    requires platformId in platforms
    ensures PromptFor(PromptsFor(prev[platformId := c], platforms), platformId) == c
  {
  }

  /** Re-selecting the same platforms leaves the prompt map as it is. */
  lemma PromptsForIdempotent(prev: map<string, Choice>, platforms: seq<string>)
    ensures PromptsFor(PromptsFor(prev, platforms), platforms) == PromptsFor(prev, platforms)
  {
  }

  // ---------------------------------------------------------------------
  // Generation
  // ---------------------------------------------------------------------

  /**
   * The draft map after generating for `platforms` in order: a success
   * overwrites that platform's draft, a failure leaves it.
   */
  function Merged(drafts: map<string, string>, platforms: seq<string>, out: string -> Result<string>): map<string, string>
    decreases |platforms|
  {
    if platforms == [] then drafts
    else
      var prev := Merged(drafts, platforms[..|platforms| - 1], out);
      var p := platforms[|platforms| - 1];
      if out(p).Ok? then prev[p := out(p).value] else prev
  }

  /** The alerts of the failed platforms, in order: at most one per platform, and none when all succeed. */
  function FailAlerts(platforms: seq<string>, out: string -> Result<string>): (r: seq<string>)
    ensures |r| <= |platforms|
    ensures (forall i | 0 <= i < |platforms| :: out(platforms[i]).Ok?) ==> r == []
    ensures forall i | 0 <= i < |r| :: exists j | 0 <= j < |platforms| :: out(platforms[j]).Err? && r[i] == GenerateAlert(platforms[j])
    decreases |platforms|
  {
    if platforms == [] then []
    else
      var prev := FailAlerts(platforms[..|platforms| - 1], out);
      var p := platforms[|platforms| - 1];
      if out(p).Ok? then prev else prev + [GenerateAlert(p)]
  }

  /**
   * A generation run leaves a draft for exactly the old drafts and the
   * selected platforms that succeeded; a succeeded platform holds its
   * generated text, every other platform keeps its old draft.
   */
  lemma {:induction false} MergedSpec(drafts: map<string, string>, platforms: seq<string>, out: string -> Result<string>)
    ensures var r := Merged(drafts, platforms, out);
      (forall k :: k in r <==> k in drafts || (k in platforms && out(k).Ok?)) &&
      (forall k | k in r :: r[k] == if k in platforms && out(k).Ok? then out(k).value else drafts[k])
    decreases |platforms|
  {
    if platforms != [] {
      var init := platforms[..|platforms| - 1];
      MergedSpec(drafts, init, out);
      assert platforms == init + [platforms[|platforms| - 1]];
    }
  }

  // ---------------------------------------------------------------------
  // Saving
  // ---------------------------------------------------------------------

  /** The filter that keeps the platforms with a non-empty draft (`if (generatedContent[platform])`). */
  function HasDraft(drafts: map<string, string>): string -> bool {
    p => p in drafts && drafts[p] != ""
  }

  /** `generatedContentData`: the drafts of the saved platforms. */
  function DraftsOf(saved: seq<string>, drafts: map<string, string>): (r: map<string, string>)
    requires forall i | 0 <= i < |saved| :: saved[i] in drafts
    ensures forall p :: p in r <==> p in saved
  {
    map p | p in saved :: drafts[p]
  }

  /** `prompt ? prompt.id : null`. */
  function PromptId(c: Choice): Option<string> {
    match c
    case Some(p) => Some(p.id)
    case None => None
  }

  /** The `customPrompts` reduce: the choice's id, or `null`, for every chosen platform that is saved. */
  function PromptIds(prompts: map<string, Choice>, saved: seq<string>): (r: map<string, Option<string>>)
    ensures forall p :: p in r <==> p in prompts && p in saved
  {
    map p | p in prompts && p in saved :: PromptId(prompts[p])
  }

  /** The body of the save request. */
  datatype ContentData = ContentData(title: string, platforms: seq<string>, originalContent: string, model: string,
                                     generatedContent: map<string, string>, customPrompts: map<string, Option<string>>)

  /** The server's answer to the save request: a response (its status and fields) or a rejection. */
  datatype SaveReply = Responded(ok: bool, errorField: Option<string>, contentId: Option<string>) | SaveThrew(thrown: Thrown)

  /** The error the page shows after the request, if any. */
  function SaveError(reply: SaveReply): (r: Option<string>)
    ensures r.None? <==> reply.Responded? && reply.ok && reply.contentId.Some? && reply.contentId.value != ""
  {
    match reply
    case SaveThrew(e) => Some(MessageOr(e, SaveFailed))
    case Responded(ok, field, id) =>
      if !ok then Some(if field.Some? && field.value != "" then field.value else SaveFailed)
      else if id.Some? && id.value != "" then None
      else Some(NoIdError)
  }

  /** The page the browser is sent to after the request, if any. */
  function Destination(reply: SaveReply): (r: Option<string>)
    ensures r.Some? <==> SaveError(reply).None?
  {
    if reply.Responded? && reply.ok && reply.contentId.Some? && reply.contentId.value != ""
    then Some("/content/" + reply.contentId.value)
    else None
  }

  /** The saved platforms: the selected ones with a non-empty draft, in selection order. */
  function Saved(selected: seq<string>, drafts: map<string, string>): (r: seq<string>)
    ensures forall i | 0 <= i < |r| :: r[i] in drafts && drafts[r[i]] != ""
  {
    var r := Seqs.Filter(selected, HasDraft(drafts));
    assert forall i | 0 <= i < |r| :: HasDraft(drafts)(r[i]);
    r
  }

  /**
   * The request saves exactly the selected platforms with a draft, each
   * with its draft, and names a prompt (id or `null`) for exactly those of
   * them that have an entry in the prompt map; when the prompt map covers
   * the selection, as `handlePlatformChange` leaves it, that is every saved
   * platform.
   */
  lemma SavedCovered(selected: seq<string>, drafts: map<string, string>, prompts: map<string, Choice>)
    ensures var saved := Saved(selected, drafts);
      (forall p :: p in saved <==> p in selected && p in drafts && drafts[p] != "") &&
      (forall p | p in DraftsOf(saved, drafts) :: DraftsOf(saved, drafts)[p] == drafts[p]) &&
      ((forall p :: p in prompts <==> p in selected) ==> (forall p :: p in PromptIds(prompts, saved) <==> p in saved))
  {
    var f := HasDraft(drafts);
    var saved := Saved(selected, drafts);
    forall p | p in selected && p in drafts && drafts[p] != "" ensures p in saved {
      var i :| 0 <= i < |selected| && selected[i] == p;
      assert f(selected[i]);
    }
    forall p | p in saved ensures p in selected {
      var i :| 0 <= i < |saved| && saved[i] == p;
    }
  }

  /**
   * The two loops of `handlePlatformChange` on a copy of the prompt map: a
   * `null` entry for each selected platform without a choice, then the
   * removal of every key that is not selected.
   */
  method FollowSelection(prev: map<string, Choice>, platforms: seq<string>) returns (kept: map<string, Choice>)
    ensures kept == PromptsFor(prev, platforms)
  {
    var updated := prev;
    var i := 0;
    while i < |platforms|
      invariant 0 <= i <= |platforms|
      invariant forall k :: k in updated <==> k in prev || k in platforms[..i]
      invariant forall k | k in updated :: updated[k] == if k in prev then prev[k] else None
    {
      var p := platforms[i];
      if !(p in updated && updated[p].Some?) {
        updated := updated[p := None];
      }
      assert platforms[..i + 1] == platforms[..i] + [p];
      i := i + 1;
    }
    assert platforms[..i] == platforms;
    var keys := updated.Keys;
    kept := updated;
    while keys != {}
      invariant keys <= updated.Keys
      invariant forall k :: k in kept <==> k in updated && (k in keys || k in platforms)
      invariant forall k | k in kept :: kept[k] == updated[k]
      decreases |keys|
    {
      var k :| k in keys;
      if k !in platforms {
        kept := kept - {k};
      }
      keys := keys - {k};
    }
  }

  /**
   * The loop of `handleGenerate` on a copy of the draft map: one generation
   * per platform, in order; a success overwrites the platform's draft, a
   * failure adds its alert.
   */
  method GenerateAll(drafts: map<string, string>, platforms: seq<string>, out: string -> Result<string>)
    returns (merged: map<string, string>, alerts: seq<string>)
    ensures merged == Merged(drafts, platforms, out)
    ensures alerts == FailAlerts(platforms, out)
  {
    merged, alerts := drafts, [];
    var i := 0;
    while i < |platforms|
      invariant 0 <= i <= |platforms|
      invariant merged == Merged(drafts, platforms[..i], out)
      invariant alerts == FailAlerts(platforms[..i], out)
    {
      var p := platforms[i];
      var r := out(p);
      if r.Ok? {
        merged := merged[p := r.value];
      } else {
        alerts := alerts + [GenerateAlert(p)];
      }
      assert platforms[..i + 1][..i] == platforms[..i];
      i := i + 1;
    }
    assert platforms[..i] == platforms;
  }

  /** The loop of `handleSaveContent` that collects the selected platforms with a draft and their drafts. */
  method SavedDrafts(selected: seq<string>, drafts: map<string, string>) returns (saved: seq<string>, data: map<string, string>)
    ensures saved == Saved(selected, drafts)
    ensures data == DraftsOf(saved, drafts)
  {
    var f := HasDraft(drafts);
    saved, data := [], map[];
    var i := 0;
    while i < |selected|
      invariant 0 <= i <= |selected|
      invariant saved == Seqs.Filter(selected[..i], f)
      invariant forall j | 0 <= j < |saved| :: saved[j] in drafts
      invariant data == DraftsOf(saved, drafts)
    {
      var p := selected[i];
      Seqs.FilterConcat(selected[..i], [p], f);
      assert selected[..i + 1] == selected[..i] + [p];
      assert [p][1..] == [];
      assert Seqs.Filter([p], f) == if f(p) then [p] else [];
      if f(p) {
        data := data[p := drafts[p]];
        saved := saved + [p];
      }
      i := i + 1;
    }
    assert selected[..i] == selected;
  }

  /** The body of `handleRegenerateForPlatform` on a copy of the draft map: one generation for one platform. */
  method RegenerateOne(drafts: map<string, string>, platformId: string, out: string -> Result<string>)
    returns (merged: map<string, string>, alert: Option<string>)
    ensures out(platformId).Ok? ==> merged == drafts[platformId := out(platformId).value] && alert.None?
    ensures out(platformId).Err? ==> merged == drafts && alert == Some(RegenerateAlert)
  {
    var r := out(platformId);
    if r.Ok? {
      merged, alert := drafts[platformId := r.value], None;
    } else {
      merged, alert := drafts, Some(RegenerateAlert);
    }
  }

  // ---------------------------------------------------------------------
  // The page
  // ---------------------------------------------------------------------

  /**
   * The page's state. Each handler names the fields it may change, so every
   * other field is left as it was.
   */
  class Page {
    var title: string
    var files: seq<FileProcessing.File>
    var selectedPlatforms: seq<string>
    var inputContent: string
    var inputType: InputType
    var extractedContent: string
    var linkUrl: string
    var linkContent: string
    var generatedContent: map<string, string>
    var selectedPrompts: map<string, Choice>
    var isGenerating: bool
    var generatingPlatform: Option<string>
    var isSaving: bool
    var error: Option<string>
    var isChatOpen: bool
    var activeChatPlatform: string
    var activeChatPlatformId: string

    constructor ()
      ensures title == "" && files == [] && selectedPlatforms == [] && inputContent == "" && inputType == NoInput
      ensures extractedContent == "" && linkUrl == "" && linkContent == ""
      ensures generatedContent == map[] && selectedPrompts == map[]
      ensures !isGenerating && generatingPlatform.None? && !isSaving && error.None?
      ensures !isChatOpen && activeChatPlatform == "" && activeChatPlatformId == ""
    {
      title, files, selectedPlatforms, inputContent, inputType := "", [], [], "", NoInput;
      extractedContent, linkUrl, linkContent := "", "", "";
      generatedContent, selectedPrompts := map[], map[];
      isGenerating, generatingPlatform, isSaving, error := false, None, false, None;
      isChatOpen, activeChatPlatform, activeChatPlatformId := false, "", "";
    }

    /** `getContentToProcess`. */
    function ContentToProcess(): string
      reads this
    {
      ToProcess(inputType, extractedContent, linkUrl, linkContent, inputContent)
    }

    /** The `files` effect (`processFiles`): no file empties the text; otherwise the first file's text, or an alert. */
    method ProcessFiles(src: FileProcessing.Sources) returns (alert: Option<string>)
      modifies this`extractedContent
      ensures files == [] ==> extractedContent == "" && alert.None?
      ensures files != [] ==>
        var r := FileProcessing.ExtractTextFromFile(files[0], src);
        (r.Done? ==> extractedContent == r.value && alert.None?) &&
        (r.Threw? ==> extractedContent == old(extractedContent) && alert == Some(FileAlert))
    {
      alert := None;
      if files == [] {
        extractedContent := "";
      } else {
        var r := FileProcessing.ExtractTextFromFile(files[0], src);
        if r.Done? {
          extractedContent := r.value;
        } else {
          alert := Some(FileAlert);
        }
      }
    }

    /** `handleFileSelect`: the files are kept, document mode is chosen, and the effect runs. */
    method FileSelect(selected: seq<FileProcessing.File>, src: FileProcessing.Sources) returns (alert: Option<string>)
      modifies this`files, this`inputType, this`extractedContent
      ensures files == selected && inputType == Document
      ensures selected == [] ==> extractedContent == "" && alert.None?
      ensures selected != [] ==>
        var r := FileProcessing.ExtractTextFromFile(selected[0], src);
        (r.Done? ==> extractedContent == r.value && alert.None?) &&
        (r.Threw? ==> extractedContent == old(extractedContent) && alert == Some(FileAlert))
    {
      files, inputType := selected, Document;
      alert := ProcessFiles(src);
    }

    /** `handlePlatformChange`: the selection is kept and the prompt map follows it. */
    method PlatformChange(platforms: seq<string>)
      modifies this`selectedPlatforms, this`selectedPrompts
      ensures selectedPlatforms == platforms
      ensures selectedPrompts == PromptsFor(old(selectedPrompts), platforms)
    {
      var kept := FollowSelection(selectedPrompts, platforms);
      selectedPlatforms, selectedPrompts := platforms, kept;
    }

    /** `handleSelectPrompt`: one platform's choice is replaced. */
    method SelectPrompt(platformId: string, prompt: Choice)
      modifies this`selectedPrompts
      ensures selectedPrompts == old(selectedPrompts)[platformId := prompt]
    {
      selectedPrompts := selectedPrompts[platformId := prompt];
    }

    /**
     * `handleFetchLink`: without an address only an alert; a fetched text
     * becomes both the link text and the extracted text; a failure empties
     * the link text and alerts.
     */
    method FetchLink(proxy: FileProcessing.Settled<Option<string>>) returns (alert: Option<string>)
      modifies this`linkContent, this`extractedContent
      ensures linkUrl == "" ==>
        linkContent == old(linkContent) && extractedContent == old(extractedContent) && alert == Some(NoUrlAlert)
      ensures linkUrl != "" ==>
        var r := FileProcessing.FetchContentFromUrl(proxy);
        (r.Done? ==> linkContent == r.value && extractedContent == r.value && alert.None?) &&
        (r.Threw? ==> linkContent == "" && extractedContent == old(extractedContent) && alert == Some(LinkAlert))
    {
      if linkUrl == "" {
        return Some(NoUrlAlert);
      }
      var r := FileProcessing.FetchContentFromUrl(proxy);
      if r.Done? {
        linkContent, extractedContent := r.value, r.value;
        alert := None;
      } else {
        linkContent := "";
        alert := Some(LinkAlert);
      }
    }

    /**
     * `handleInputTypeSelect`: the mode is chosen and the inputs of every
     * other mode are emptied, so the text to process is the one the chosen
     * mode had.
     */
    method InputTypeSelect(mode: InputType)
      modifies this`inputType, this`files, this`extractedContent, this`linkUrl, this`linkContent, this`inputContent
      ensures inputType == mode
      ensures files == if KeepsDocument(mode) then old(files) else []
      ensures extractedContent == if KeepsDocument(mode) then old(extractedContent) else ""
      ensures linkUrl == if KeepsLink(mode) then old(linkUrl) else ""
      ensures linkContent == if KeepsLink(mode) then old(linkContent) else ""
      ensures inputContent == if KeepsTyped(mode) then old(inputContent) else ""
      ensures ContentToProcess() ==
                if mode.NoInput? then "" else ToProcess(mode, old(extractedContent), old(linkUrl), old(linkContent), old(inputContent))
    {
      ChoosingKeepsText(mode, extractedContent, linkUrl, linkContent, inputContent,
                        if KeepsDocument(mode) then extractedContent else "",
                        if KeepsLink(mode) then linkUrl else "", if KeepsLink(mode) then linkContent else "",
                        if KeepsTyped(mode) then inputContent else "");
      inputType := mode;
      if !mode.Document? {
        files, extractedContent := [], "";
      }
      if !mode.Link? {
        linkUrl, linkContent := "", "";
      }
      if !mode.Sentence? && !mode.LongText? {
        inputContent := "";
      }
    }

    /**
     * `handleGenerate`: without a selected platform, or with a blank text,
     * only an alert; otherwise one generation per selected platform, in
     * order, each success overwriting that platform's draft and each failure
     * alerting and keeping it.
     */
    method Generate(generate: Generator) returns (alerts: seq<string>)
      modifies this`generatedContent, this`isGenerating, this`generatingPlatform
      ensures selectedPlatforms == [] ==> alerts == [NoPlatformAlert] && generatedContent == old(generatedContent)
      ensures selectedPlatforms != [] && Blank(ContentToProcess()) ==>
                alerts == [NoContentAlert] && generatedContent == old(generatedContent)
      ensures selectedPlatforms == [] || Blank(ContentToProcess()) ==>
                isGenerating == old(isGenerating) && generatingPlatform == old(generatingPlatform)
      ensures selectedPlatforms != [] && !Blank(ContentToProcess()) ==>
                var out := Outcomes(ContentToProcess(), selectedPrompts, generate);
                generatedContent == Merged(old(generatedContent), selectedPlatforms, out) &&
                alerts == FailAlerts(selectedPlatforms, out) &&
                !isGenerating && generatingPlatform.None?
    {
      if selectedPlatforms == [] {
        return [NoPlatformAlert];
      }
      var content := ContentToProcess();
      if Blank(content) {
        return [NoContentAlert];
      }
      var out := Outcomes(content, selectedPrompts, generate);
      var drafts;
      drafts, alerts := GenerateAll(generatedContent, selectedPlatforms, out);
      generatedContent, isGenerating, generatingPlatform := drafts, false, None;
    }

    /**
     * `handleSaveContent`: the guards in order (signed in, some draft, a
     * non-blank title, some selected platform with a draft), then the save
     * request for the selected platforms with a draft, then the server's
     * answer: an error to show, or the saved content's page.
     */
    method Save(signedIn: bool, reply: SaveReply) returns (request: Option<ContentData>, navigate: Option<string>)
      modifies this`error, this`isSaving
      ensures !signedIn ==>
                error == Some(LoginError) && isSaving == old(isSaving) && request.None? && navigate == Some("/login")
      ensures signedIn && generatedContent == map[] ==>
                error == Some(NoDraftsError) && isSaving == old(isSaving) && request.None? && navigate.None?
      ensures signedIn && generatedContent != map[] && Blank(title) ==>
                error == Some(NoTitleError) && isSaving == old(isSaving) && request.None? && navigate.None?
      ensures signedIn && generatedContent != map[] && !Blank(title) && Saved(selectedPlatforms, generatedContent) == [] ==>
                error == Some(NothingToSave) && !isSaving && request.None? && navigate.None?
      ensures signedIn && generatedContent != map[] && !Blank(title) && Saved(selectedPlatforms, generatedContent) != [] ==>
                var saved := Saved(selectedPlatforms, generatedContent);
                request == Some(ContentData(Trim(title), saved, ContentToProcess(), Model,
                                            DraftsOf(saved, generatedContent), PromptIds(selectedPrompts, saved))) &&
                error == SaveError(reply) && !isSaving && navigate == Destination(reply)
    {
      request, navigate := None, None;
      if !signedIn {
        error := Some(LoginError);
        navigate := Some("/login");
        return;
      }
      if |generatedContent| == 0 {
        error := Some(NoDraftsError);
        return;
      }
      if Blank(title) {
        error := Some(NoTitleError);
        return;
      }
      var saved, data := SavedDrafts(selectedPlatforms, generatedContent);
      if saved == [] {
        error, isSaving := Some(NothingToSave), false;
        return;
      }
      request := Some(ContentData(Trim(title), saved, ContentToProcess(), Model, data, PromptIds(selectedPrompts, saved)));
      error, isSaving := SaveError(reply), false;
      navigate := Destination(reply);
    }

    /** `handleContentUpdate`: one platform's draft is replaced by the edited text. */
    method ContentUpdate(platformId: string, text: string)
      modifies this`generatedContent
      ensures generatedContent == old(generatedContent)[platformId := text]
    {
      generatedContent := generatedContent[platformId := text];
    }

    /**
     * `handleRegenerateForPlatform`: with a blank text only an alert;
     * otherwise one generation for the platform, whose success replaces that
     * one draft and whose failure alerts.
     */
    method Regenerate(platformId: string, generate: Generator) returns (alert: Option<string>)
      modifies this`generatedContent, this`isGenerating, this`generatingPlatform
      ensures Blank(ContentToProcess()) ==>
                generatedContent == old(generatedContent) && alert == Some(NoContentAlert) &&
                isGenerating == old(isGenerating) && generatingPlatform == old(generatingPlatform)
      ensures !Blank(ContentToProcess()) ==>
                var r := Outcomes(ContentToProcess(), selectedPrompts, generate)(platformId);
                (r.Ok? ==> generatedContent == old(generatedContent)[platformId := r.value] && alert.None?) &&
                (r.Err? ==> generatedContent == old(generatedContent) && alert == Some(RegenerateAlert)) &&
                !isGenerating && generatingPlatform.None?
    {
      var content := ContentToProcess();
      if Blank(content) {
        return Some(NoContentAlert);
      }
      var out := Outcomes(content, selectedPrompts, generate);
      var drafts;
      drafts, alert := RegenerateOne(generatedContent, platformId, out);
      generatedContent, isGenerating, generatingPlatform := drafts, false, None;
    }

    /** `handleOpenChat`: only a registered platform opens the chat, under its name. */
    method OpenChat(platformId: string)
      modifies this`isChatOpen, this`activeChatPlatform, this`activeChatPlatformId
      ensures Utils.IsRegistered(platformId) ==>
                isChatOpen && activeChatPlatform == Utils.FindPlatform(platformId).value.name &&
                activeChatPlatformId == platformId
      ensures !Utils.IsRegistered(platformId) ==>
                isChatOpen == old(isChatOpen) && activeChatPlatform == old(activeChatPlatform) &&
                activeChatPlatformId == old(activeChatPlatformId)
    {
      match Utils.FindPlatform(platformId) {
        case Some(p) =>
          activeChatPlatform, activeChatPlatformId, isChatOpen := p.name, platformId, true;
        case None =>
      }
    }

    /** `handleChatOptimizedContent`: the chat's text replaces the active platform's draft, if there is one. */
    method ChatOptimizedContent(text: string)
      modifies this`generatedContent
      ensures activeChatPlatformId == "" ==> generatedContent == old(generatedContent)
      ensures activeChatPlatformId != "" ==> generatedContent == old(generatedContent)[activeChatPlatformId := text]
    {
      if activeChatPlatformId != "" {
        generatedContent := generatedContent[activeChatPlatformId := text];
      }
    }
  }

  /** `handleCopyContent`: the text written to the clipboard, if the platform has a draft. */
  function CopyText(drafts: map<string, string>, platformId: string): (r: Option<string>)
    ensures r.Some? <==> HasDraft(drafts)(platformId)
    ensures r.Some? ==> r.value == drafts[platformId] && r.value != ""
  {
    if platformId in drafts && drafts[platformId] != "" then Some(drafts[platformId]) else None
  }

  /**
   * `handleExportContent`: the exported text and the file name (the
   * platform's name, "_内容_" and the date), if the platform has a draft
   * and is registered.
   */
  function ExportFile(drafts: map<string, string>, platformId: string, date: string): (r: Option<(string, string)>)
    ensures r.Some? <==> HasDraft(drafts)(platformId) && Utils.IsRegistered(platformId)
    ensures r.Some? ==> r.value.0 == drafts[platformId] &&
                        r.value.1 == Utils.FindPlatform(platformId).value.name + "_内容_" + date
  {
    match CopyText(drafts, platformId)
    case None => None
    case Some(text) =>
      match Utils.FindPlatform(platformId)
      case None => None
      case Some(p) => Some((text, p.name + "_内容_" + date))
  }

  /** Regenerating one platform is a generation run over that platform alone. */
  lemma RegenerateIsOneRun(drafts: map<string, string>, platformId: string, out: string -> Result<string>)
    ensures Merged(drafts, [platformId], out) == if out(platformId).Ok? then drafts[platformId := out(platformId).value] else drafts
  {
    assert [platformId][..0] == [];
  }
}
