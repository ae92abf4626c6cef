/**
 * The custom-prompt manager panel (src/components/features/PromptManagement.tsx):
 * it lists the user's prompts, edits one in a form, and creates, updates or
 * deletes prompts through the prompt API. Each HTTP call is an outcome the
 * caller supplies; each method returns the requests it makes. The abort
 * timer, the auth header and the confirmation dialog's text are left out.
 */
module PromptManagement {
  import opened Wrappers
  import opened Strings
  import opened Utils

  /** A prompt as the panel shows it. */
  datatype CustomPrompt = CustomPrompt(id: string, platform: string, name: string, systemPrompt: string, userPrompt: string)

  /** The editing form: the name, the two prompt texts and the platform id. */
  datatype Form = Form(name: string, systemPrompt: string, userPrompt: string, platform: string)

  /** An HTTP request the panel makes: its method, its URL and its JSON body. */
  datatype Request = Request(verb: string, url: string, body: Option<Form>)

  /** The answer to a list request: the prompts, a status that is not 2xx, or a thrown value. */
  datatype ListOutcome = Listed(prompts: seq<CustomPrompt>) | ListNotOk(status: int) | ListThrew(e: Thrown)

  /** The answer to a write request: success, a status that is not 2xx with the `error` field of its body, or a thrown value. */
  datatype WriteOutcome = Written | WriteNotOk(errorField: Option<string>) | WriteThrew(e: Thrown)

  const PromptsPath := "/api/platforms/prompts"
  const NoUser := "用户未登录，无法获取提示词"
  const Missing := "请填写所有必填字段"
  const Invalid := "无效的操作"

  /** The list URL: filtered by the panel's platform when it has one. */
  function ListUrl(platformId: string): (r: string)
    ensures platformId == "" <==> r == PromptsPath
    ensures platformId != "" ==> EndsWith(r, platformId)
  {
    if platformId != "" then
      var r := PromptsPath + "?platform=" + platformId;
      assert r[|r| - |platformId|..] == platformId;
      r
    else PromptsPath
  }

  /** The error text of a failed list request. */
  function ListErrorText(o: ListOutcome): string
    requires !o.Listed?
  {
    match o
    case ListNotOk(status) => "获取失败: " + IntToString(status)
    case ListThrew(e) => MessageOr(e, "获取提示词失败，请重试")
  }

  /** The error text of a failed write: the body's non-empty `error` field, else the fallback. */
  function WriteErrorText(o: WriteOutcome, notOk: string, threw: string): string
    requires !o.Written?
  {
    match o
    case WriteNotOk(field) => if field.Some? && field.value != "" then field.value else notOk
    case WriteThrew(e) => MessageOr(e, threw)
  }

  /**
   * Every field is filled: the three texts have something besides white
   * space (their trimmed text is not empty, by `Strings.Trim`'s contract)
   * and a platform is chosen.
   */
  predicate Filled(f: Form) {
    !Blank(f.name) && !Blank(f.systemPrompt) && !Blank(f.userPrompt) && f.platform != ""
  }

  /** Filled is the source's test on the trimmed texts. */
  lemma FilledIsTrimmed(f: Form)
    ensures Filled(f) <==> Trim(f.name) != "" && Trim(f.systemPrompt) != "" && Trim(f.userPrompt) != "" && f.platform != ""
  {
  }

  /** The write a save makes: a create while creating, else an update of the selected prompt, else the invalid-operation error. */
  function SaveRequest(form: Form, isCreating: bool, selected: Option<CustomPrompt>): (r: Result<Request>)
    ensures r.Err? <==> !isCreating && selected.None?
    ensures r.Ok? ==> r.value.body == Some(form)
    ensures r.Ok? ==> (r.value.verb == "POST" <==> isCreating)
    ensures r.Ok? && !isCreating ==> EndsWith(r.value.url, selected.value.id)
  {
    if isCreating then Ok(Request("POST", PromptsPath, Some(form)))
    else if selected.Some? then Ok(Request("PUT", IdUrl(selected.value.id), Some(form)))
    else Err(Invalid)
  }

  /** The URL addressing one prompt. */
  function IdUrl(id: string): (r: string)
    ensures StartsWith(r, PromptsPath) && EndsWith(r, id)
  {
    var r := PromptsPath + "?id=" + id;
    assert r[|r| - |id|..] == id;
    assert r[..|PromptsPath|] == PromptsPath;
    r
  }

  /** The form showing a prompt, or the empty form for the panel's platform. */
  function FormFor(selected: Option<CustomPrompt>, platformId: string): (r: Form)
    ensures selected.Some? ==> r.name == selected.value.name && r.platform == selected.value.platform &&
                               r.systemPrompt == selected.value.systemPrompt && r.userPrompt == selected.value.userPrompt
    ensures selected.None? ==> !Filled(r) && r.platform == platformId
  {
    match selected
    case Some(p) => Form(p.name, p.systemPrompt, p.userPrompt, p.platform)
    case None => Form("", "", "", platformId)
  }

  const UnknownPlatform := "未知平台"

  /** `getPlatformName`: the registered name, or the unknown-platform label. */
  function PlatformName(id: string): (r: string)
    ensures r == UnknownPlatform <==> !IsRegistered(id)
  {
    match FindPlatform(id)
    case Some(p) =>
      RegistryNamesKnown(p);
      p.name
    case None => UnknownPlatform
  }

  /** No registered platform is named like the unknown-platform label. */
  lemma RegistryNamesKnown(p: Platform)
    requires p in Registry
    ensures p.name != UnknownPlatform
  {
    assert UnknownPlatform[0] == '未';
    assert p.name[0] != '未';
  }

  class Panel {
    const userId: string
    const platformId: string
    var customPrompts: seq<CustomPrompt>
    var selectedPrompt: Option<CustomPrompt>
    var isLoading: bool
    var isEditing: bool
    var isCreating: bool
    var form: Form
    var error: Option<string>
    var isSaving: bool

    /** The state before the first fetch; an absent platform id is "". */
    constructor (userId: string, platformId: string)
      ensures this.userId == userId && this.platformId == platformId
      ensures customPrompts == [] && selectedPrompt.None? && isLoading && !isEditing && !isCreating
      ensures form == FormFor(None, platformId) && error.None? && !isSaving
    {
      this.userId := userId;
      this.platformId := platformId;
      customPrompts := [];
      selectedPrompt := None;
      isLoading := true;
      isEditing := false;
      isCreating := false;
      form := FormFor(None, platformId);
      error := None;
      isSaving := false;
    }

    /** `fetchCustomPrompts`: without a user nothing is requested; a failure keeps the list and sets the error. */
    method Fetch(outcome: ListOutcome) returns (request: Option<Request>)
      modifies this
      ensures userId == "" ==> request.None? && error == Some(NoUser) && customPrompts == old(customPrompts)
      ensures userId != "" ==> request == Some(Request("GET", ListUrl(platformId), None))
      ensures userId != "" && outcome.Listed? ==> customPrompts == outcome.prompts && error.None?
      ensures userId != "" && !outcome.Listed? ==>
                customPrompts == old(customPrompts) && error == Some(ListErrorText(outcome))
      ensures !isLoading
      ensures selectedPrompt == old(selectedPrompt) && form == old(form)
      ensures isEditing == old(isEditing) && isCreating == old(isCreating) && isSaving == old(isSaving)
    {
      isLoading := true;
      error := None;
      if userId == "" {
        error := Some(NoUser);
        isLoading := false;
        return None;
      }
      request := Some(Request("GET", ListUrl(platformId), None));
      match outcome {
        case Listed(ps) => customPrompts := ps;
        case _ => error := Some(ListErrorText(outcome));
      }
      isLoading := false;
    }

    /** `handleCreateNew`: an empty form for the panel's platform, in create mode. */
    method CreateNew()
      modifies this
      ensures error.None? && selectedPrompt.None? && form == FormFor(None, platformId)
      ensures isCreating && isEditing
      ensures customPrompts == old(customPrompts) && isLoading == old(isLoading) && isSaving == old(isSaving)
    {
      error := None;
      selectedPrompt := None;
      form := FormFor(None, platformId);
      isCreating := true;
      isEditing := true;
    }

    /** `handleSelectPrompt`: the prompt fills the form and is handed to the parent. */
    method SelectPrompt(p: CustomPrompt, hasHandler: bool) returns (notified: Option<CustomPrompt>)
      modifies this
      ensures error.None? && selectedPrompt == Some(p) && form == FormFor(Some(p), platformId) && !isCreating
      ensures notified == if hasHandler then Some(p) else None
      ensures customPrompts == old(customPrompts) && isEditing == old(isEditing)
      ensures isLoading == old(isLoading) && isSaving == old(isSaving)
    {
      error := None;
      selectedPrompt := Some(p);
      form := FormFor(Some(p), platformId);
      isCreating := false;
      notified := if hasHandler then Some(p) else None;
    }

    /** `handleEditPrompt`. */
    method EditPrompt()
      modifies this
      ensures error.None? && isEditing
      ensures customPrompts == old(customPrompts) && selectedPrompt == old(selectedPrompt) && form == old(form)
      ensures isCreating == old(isCreating) && isLoading == old(isLoading) && isSaving == old(isSaving)
    {
      error := None;
      isEditing := true;
    }

    /** A field typed into the form. */
    method Edit(f: Form)
      modifies this
      ensures form == f
      ensures customPrompts == old(customPrompts) && selectedPrompt == old(selectedPrompt) && error == old(error)
      ensures isEditing == old(isEditing) && isCreating == old(isCreating)
      ensures isLoading == old(isLoading) && isSaving == old(isSaving)
    {
      form := f;
    }

    /** `handleCancelEdit`: the form shows the selected prompt again, or is emptied; editing ends. */
    method CancelEdit()
      modifies this
      ensures error.None? && form == FormFor(selectedPrompt, platformId) && !isEditing && !isCreating
      ensures customPrompts == old(customPrompts) && selectedPrompt == old(selectedPrompt)
      ensures isLoading == old(isLoading) && isSaving == old(isSaving)
    {
      error := None;
      form := FormFor(selectedPrompt, platformId);
      isEditing := false;
      isCreating := false;
    }

    /**
     * `handleSavePrompt`: an unfilled form only sets the error; otherwise
     * the write is made, and on success the list is fetched again and
     * editing ends; a failure leaves the editing state and sets the error.
     */
    method Save(outcome: WriteOutcome, refetch: ListOutcome) returns (requests: seq<Request>)
      modifies this
      ensures !Filled(old(form)) ==>
                (requests == [] && error == Some(Missing) && isSaving == old(isSaving) &&
                 isEditing == old(isEditing) && isCreating == old(isCreating) && customPrompts == old(customPrompts))
      ensures Filled(old(form)) ==> !isSaving
      ensures var r := SaveRequest(old(form), old(isCreating), old(selectedPrompt));
        Filled(old(form)) && r.Err? ==>
          (requests == [] && error == Some(Invalid) && isEditing == old(isEditing) && isCreating == old(isCreating))
      ensures var r := SaveRequest(old(form), old(isCreating), old(selectedPrompt));
        Filled(old(form)) && r.Ok? ==> |requests| >= 1 && requests[0] == r.value
      ensures var r := SaveRequest(old(form), old(isCreating), old(selectedPrompt));
        Filled(old(form)) && r.Ok? && !outcome.Written? ==>
          (|requests| == 1 && error == Some(WriteErrorText(outcome, "操作失败", "保存提示词失败，请重试")) &&
           isEditing == old(isEditing) && isCreating == old(isCreating) && customPrompts == old(customPrompts))
      ensures var r := SaveRequest(old(form), old(isCreating), old(selectedPrompt));
        Filled(old(form)) && r.Ok? && outcome.Written? ==>
          (!isEditing && !isCreating && !isLoading &&
           requests == [r.value] + (if userId != "" then [Request("GET", ListUrl(platformId), None)] else []) &&
           (userId == "" ==> customPrompts == old(customPrompts) && error == Some(NoUser)) &&
           (userId != "" && refetch.Listed? ==> customPrompts == refetch.prompts && error.None?) &&
           (userId != "" && !refetch.Listed? ==> customPrompts == old(customPrompts) && error == Some(ListErrorText(refetch))))
      ensures !(Filled(old(form)) && SaveRequest(old(form), old(isCreating), old(selectedPrompt)).Ok? && outcome.Written?) ==>
                isLoading == old(isLoading)
      ensures selectedPrompt == old(selectedPrompt) && form == old(form)
    {
      if !Filled(form) {
        error := Some(Missing);
        return [];
      }
      isSaving := true;
      error := None;
      match SaveRequest(form, isCreating, selectedPrompt) {
        case Err(m) =>
          error := Some(m);
          requests := [];
        case Ok(req) =>
          requests := Write(req, outcome, refetch);
      }
      isSaving := false;
    }

    /** The write of a save and what follows it: on success a fresh list and the end of editing, else the error. */
    method Write(req: Request, outcome: WriteOutcome, refetch: ListOutcome) returns (requests: seq<Request>)
      modifies this
      ensures |requests| >= 1 && requests[0] == req
      ensures !outcome.Written? ==>
                (|requests| == 1 && error == Some(WriteErrorText(outcome, "操作失败", "保存提示词失败，请重试")) &&
                 isEditing == old(isEditing) && isCreating == old(isCreating) && customPrompts == old(customPrompts))
      ensures !outcome.Written? ==> isLoading == old(isLoading)
      ensures outcome.Written? ==>
                (!isEditing && !isCreating && !isLoading &&
                 requests == [req] + (if userId != "" then [Request("GET", ListUrl(platformId), None)] else []) &&
                 (userId == "" ==> customPrompts == old(customPrompts) && error == Some(NoUser)) &&
                 (userId != "" && refetch.Listed? ==> customPrompts == refetch.prompts && error.None?) &&
                 (userId != "" && !refetch.Listed? ==> customPrompts == old(customPrompts) && error == Some(ListErrorText(refetch))))
      ensures selectedPrompt == old(selectedPrompt) && form == old(form) && isSaving == old(isSaving)
    {
      requests := [req];
      if outcome.Written? {
        var listed := Fetch(refetch);
        if listed.Some? {
          requests := requests + [listed.value];
        }
        isEditing := false;
        isCreating := false;
      } else {
        error := Some(WriteErrorText(outcome, "操作失败", "保存提示词失败，请重试"));
      }
    }

    /**
     * `handleDeletePrompt`: a declined confirmation does nothing; a
     * confirmed delete that succeeds clears the selection and fetches the
     * list again; a failure sets the error.
     */
    method Delete(promptId: string, confirmed: bool, outcome: WriteOutcome, refetch: ListOutcome) returns (requests: seq<Request>)
      modifies this
      ensures !confirmed ==>
                (requests == [] && customPrompts == old(customPrompts) &&
                 selectedPrompt == old(selectedPrompt) && error == old(error) && isLoading == old(isLoading))
      ensures confirmed ==> |requests| >= 1 && requests[0] == Request("DELETE", IdUrl(promptId), None) && !isLoading
      ensures confirmed && !outcome.Written? ==>
                (|requests| == 1 && error == Some(WriteErrorText(outcome, "删除失败", "删除失败")) &&
                 customPrompts == old(customPrompts) && selectedPrompt == old(selectedPrompt))
      ensures confirmed && outcome.Written? ==>
                (selectedPrompt.None? &&
                 requests == [Request("DELETE", IdUrl(promptId), None)] + (if userId != "" then [Request("GET", ListUrl(platformId), None)] else []) &&
                 (userId == "" ==> customPrompts == old(customPrompts) && error == Some(NoUser)) &&
                 (userId != "" && refetch.Listed? ==> customPrompts == refetch.prompts && error.None?) &&
                 (userId != "" && !refetch.Listed? ==> customPrompts == old(customPrompts) && error == Some(ListErrorText(refetch))))
      ensures form == old(form) && isEditing == old(isEditing) && isCreating == old(isCreating) && isSaving == old(isSaving)
    {
      if !confirmed {
        return [];
      }
      isLoading := true;
      error := None;
      requests := [Request("DELETE", IdUrl(promptId), None)];
      if outcome.Written? {
        selectedPrompt := None;
        var listed := Fetch(refetch);
        if listed.Some? {
          requests := requests + [listed.value];
        }
      } else {
        error := Some(WriteErrorText(outcome, "删除失败", "删除失败"));
      }
      isLoading := false;
    }

    /** `handleUsePrompt`: the selected prompt goes to the parent, which closes the panel if it can. */
    function UsePrompt(hasHandler: bool): (r: Option<CustomPrompt>)
      reads this
      ensures r.Some? <==> hasHandler && selectedPrompt.Some?
      ensures r.Some? ==> r == selectedPrompt
    {
      if hasHandler then selectedPrompt else None
    }

    /** `handleRetry`: while editing the save is tried again, otherwise the list is fetched again. */
    method Retry(write: WriteOutcome, list: ListOutcome) returns (requests: seq<Request>)
      modifies this
      ensures old(isEditing) && !Filled(old(form)) ==> requests == [] && error == Some(Missing)
      ensures var r := SaveRequest(old(form), old(isCreating), old(selectedPrompt));
        old(isEditing) && Filled(old(form)) && r.Ok? ==> |requests| >= 1 && requests[0] == r.value
      ensures !old(isEditing) && userId == "" ==> requests == [] && error == Some(NoUser)
      ensures !old(isEditing) && userId != "" ==> requests == [Request("GET", ListUrl(platformId), None)]
      ensures !old(isEditing) && userId != "" && list.Listed? ==> customPrompts == list.prompts && error.None?
      ensures !old(isEditing) ==> !isEditing && form == old(form) && selectedPrompt == old(selectedPrompt)
    {
      if isEditing {
        requests := Save(write, list);
      } else {
        var request := Fetch(list);
        requests := if request.Some? then [request.value] else [];
      }
    }
  }
}
