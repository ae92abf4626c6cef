/**
 * The server-side generation handler: it validates the request, stores a
 * content record, asks the completion service once per requested platform
 * (a failure on one platform is recorded as that platform's result and the
 * loop goes on), and stores the successful texts in one batch.
 */
module GenerateRoute {
  import opened Wrappers
  import opened Strings
  import opened Store
  import opened Api
  import Utils

  const TwitterSystem := "你是一个专业的Twitter社交媒体经理。你的任务是将用户输入内容转化为引人入胜、符合Twitter特性的推文。推文应简洁有力，字数限制在280字以内，可适当使用emoji和hashtag增强表现力。注重传递核心信息，同时保持专业性与吸引力。"
  const XiaohongshuSystem := "你是一个专业的小红书内容创作者。你的任务是将用户输入内容转化为符合小红书平台特点的笔记。内容应该生动有趣，使用亲切自然的语气，适当加入emoji表情，分段清晰，标题吸引人。可以使用'#标签'形式添加3-5个相关话题标签增加曝光。重点突出核心内容的实用性和价值感。"
  const ZhihuSystem := "你是一个专业的知乎回答者。你的任务是将用户输入内容转化为专业、有深度的知乎回答。内容应该逻辑清晰，论证有力，语言表达要专业且权威，可以适当引用研究或数据支持观点。回答应该分段有序，使用小标题进行结构化，突出核心观点，同时保持客观中立的立场，展示专业知识和思考深度。"
  const WechatSystem := "你是一个专业的微信公众号内容编辑。你的任务是将用户输入内容转化为一篇完整的微信公众号文章。文章应该有吸引人的标题，开篇点明主题，内容层次分明，有小标题划分段落，语言风格可以正式也可以轻松，但要保持一致性。适当添加观点和见解，突出内容价值，结尾可以有号召性用语或总结，整体表现出专业性和可读性。"

  /** The built-in system prompts by platform; note `wechat`, which the platform registry does not know, and no `weibo`. */
  const TablePrompts: map<string, string> := map[
    "twitter" := TwitterSystem,
    "xiaohongshu" := XiaohongshuSystem,
    "zhihu" := ZhihuSystem,
    "wechat" := WechatSystem
  ]

  const GenericSystem := "请根据用户提供的内容，生成适合社交媒体发布的文案。"
  const EmptyReply := "内容生成失败，请重试。"
  const Marker := "${content}"
  const Untitled := "未命名内容"

  /** A stored custom prompt's two templates. */
  datatype Template = Template(systemPrompt: string, userPrompt: string)

  /** The completion service: system and user prompt in, reply text (empty when the reply had none) or an error out. */
  type Completion = (string, string) -> Result<string>

  /** System prompt precedence: a non-empty custom prompt, then the built-in table, then the generic sentence. */
  function SystemPromptFor(platform: string, custom: Option<Template>): (r: string)
    ensures r != ""
    ensures custom.Some? && custom.value.systemPrompt != "" ==> r == custom.value.systemPrompt
    ensures (custom.None? || custom.value.systemPrompt == "") && platform in TablePrompts ==> r == TablePrompts[platform]
    ensures (custom.None? || custom.value.systemPrompt == "") && platform !in TablePrompts ==> r == GenericSystem
  {
    if custom.Some? && custom.value.systemPrompt != "" then custom.value.systemPrompt
    else if platform in TablePrompts then
      assert TablePrompts[platform] != "" by { TableNonEmpty(platform); }
      TablePrompts[platform]
    else GenericSystem
  }

  lemma TableNonEmpty(platform: string)
    requires platform in TablePrompts
    ensures TablePrompts[platform] != ""
  {
    assert |TwitterSystem| > 0;
    assert |XiaohongshuSystem| > 0;
    assert |ZhihuSystem| > 0;
    assert |WechatSystem| > 0;
  }

  /** The table and the platform registry disagree: weibo is registered but falls back to the generic sentence, wechat has an entry but is not registered. */
  lemma TableVersusRegistry()
    ensures Utils.IsRegistered("weibo") && SystemPromptFor("weibo", None) == GenericSystem
    ensures !Utils.IsRegistered("wechat") && SystemPromptFor("wechat", None) == TablePrompts["wechat"]
  {
    Utils.RegisteredIff("weibo");
    Utils.RegisteredIff("wechat");
  }

  /** The user prompt: a non-empty custom template with its first `${content}` replaced, else a fixed text naming the platform. */
  function UserPromptFor(platform: string, content: string, custom: Option<Template>): (r: string)
    ensures custom.None? || custom.value.userPrompt == "" ==>
      r == "请根据以下内容生成适合" + platform + "平台的文案：\n\n" + content && EndsWith(r, content)
  {
    if custom.Some? && custom.value.userPrompt != "" then ReplaceFirst(custom.value.userPrompt, Marker, content)
    else
      var r := "请根据以下内容生成适合" + platform + "平台的文案：\n\n" + content;
      assert r[|r| - |content|..] == content;
      r
  }

  /** Only the first `${content}` of a custom template is replaced; later ones stay literally. */
  lemma UserPromptFirstMarker(platform: string, s: string, pre: string, post: string, content: string)
    requires '$' !in pre
    ensures UserPromptFor(platform, content, Some(Template(s, pre + Marker + post))) == pre + content + post
  {
    var u := pre + Marker + post;
    assert Marker[0] == '$';
    assert StartsAt(u, Marker, |pre|) by { assert u[|pre|..|pre| + |Marker|] == Marker; }
    forall j: nat | j < |pre| ensures !StartsAt(u, Marker, j) {
      if j + |Marker| <= |u| { assert u[j..j + |Marker|][0] == u[j] == pre[j]; }
    }
    assert IndexOf(u, Marker) == Some(|pre|);
    assert u[..|pre|] == pre;
    assert u[|pre| + |Marker|..] == post;
  }

  /** A custom template without the marker is sent as it is. */
  lemma UserPromptNoMarker(platform: string, s: string, u: string, content: string)
    requires u != "" && '$' !in u
    ensures UserPromptFor(platform, content, Some(Template(s, u))) == u
  {
    forall j: nat ensures !StartsAt(u, Marker, j) {
      if j + |Marker| <= |u| { assert u[j..j + |Marker|][0] == u[j]; }
    }
  }

  /** `generatePlatformContent`: an empty reply becomes the fixed retry text, a service error is passed on. */
  function GeneratePlatformContent(platform: string, content: string, custom: Option<Template>, complete: Completion): (r: Result<string>)
    ensures r.Ok? ==> r.value != ""
    ensures r.Err? <==> complete(SystemPromptFor(platform, custom), UserPromptFor(platform, content, custom)).Err?
  {
    match complete(SystemPromptFor(platform, custom), UserPromptFor(platform, content, custom))
    case Ok(reply) => Ok(if reply == "" then EmptyReply else reply)
    case Err(m) => Err(m)
  }

  /** What stays fixed while the loop runs: the text sent, the request's prompt choices, the stored prompts, the service. */
  datatype Context = Context(text: string, customPrompts: map<string, Id>, prompts: seq<Row<PromptData>>, complete: Completion)

  /** The custom prompt chosen for a platform, looked up by id alone (the owner is not compared). */
  function CustomFor(ctx: Context, platform: string): (r: Option<Template>)
    ensures r.Some? <==> platform in ctx.customPrompts && Find(ctx.prompts, ctx.customPrompts[platform]).Some?
    ensures r.Some? ==> var p := Find(ctx.prompts, ctx.customPrompts[platform]).value;
      p in ctx.prompts && p.id == ctx.customPrompts[platform] && r.value == Template(p.data.systemPrompt, p.data.userPrompt)
  {
    if platform in ctx.customPrompts then
      match Find(ctx.prompts, ctx.customPrompts[platform])
      case Some(p) => Some(Template(p.data.systemPrompt, p.data.userPrompt))
      case None => None
    else None
  }

  /** One platform's outcome. */
  function Outcome(ctx: Context, platform: string): Result<string> {
    GeneratePlatformContent(platform, ctx.text, CustomFor(ctx, platform), ctx.complete)
  }

  /** The text a platform's results entry holds. */
  function ResultText(o: Result<string>): string {
    match o
    case Ok(t) => t
    case Err(m) => "生成失败: " + m
  }

  /** The `results` object after visiting `ps` in order (a repeated platform keeps its last entry). */
  function ResultsOf(ctx: Context, ps: seq<string>): map<string, string>
    decreases |ps|
  {
    if ps == [] then map[]
    else ResultsOf(ctx, ps[..|ps| - 1])[ps[|ps| - 1] := ResultText(Outcome(ctx, ps[|ps| - 1]))]
  }

  /** The rows queued for the batch insert after visiting `ps`: one per successful platform, in order. */
  function QueuedOf(ctx: Context, rid: Id, ps: seq<string>): seq<GeneratedData>
    decreases |ps|
  {
    if ps == [] then [] else QueuedOf(ctx, rid, ps[..|ps| - 1]) + Queued(ctx, rid, ps[|ps| - 1])
  }

  /** The row one platform queues: its text and chosen prompt id when it succeeded, nothing when it failed. */
  function Queued(ctx: Context, rid: Id, p: string): seq<GeneratedData> {
    match Outcome(ctx, p)
    case Ok(t) => [NewGenerated(Some(rid), p, t, if p in ctx.customPrompts then Some(ctx.customPrompts[p]) else None, "")]
    case Err(_) => []
  }

  /** Visiting one more platform: its results entry is set and its row, if any, is queued last. */
  lemma GenerateStep(ctx: Context, rid: Id, ps: seq<string>, i: nat)
    requires i < |ps|
    ensures ResultsOf(ctx, ps[..i + 1]) == ResultsOf(ctx, ps[..i])[ps[i] := ResultText(Outcome(ctx, ps[i]))]
    ensures QueuedOf(ctx, rid, ps[..i + 1]) == QueuedOf(ctx, rid, ps[..i]) + Queued(ctx, rid, ps[i])
  {
    assert ps[..i + 1][..i] == ps[..i];
  }

  /** The `results` object described without the loop: each requested platform mapped to its own outcome's text. */
  function ResultsSpec(ctx: Context, ps: seq<string>): map<string, string> {
    map p | p in ps :: ResultText(Outcome(ctx, p))
  }

  lemma ResultsSpecSnoc(ctx: Context, init: seq<string>, last: string)
    ensures ResultsSpec(ctx, init + [last]) == ResultsSpec(ctx, init)[last := ResultText(Outcome(ctx, last))]
  {
    var ps := init + [last];
    assert forall p :: p in ps <==> p in init || p == last;
  }

  /** The loop's `results` equals the description: every requested platform has one entry, holding its own outcome, so a failure elsewhere does not change it. */
  lemma {:induction false} ResultsCoverPlatforms(ctx: Context, ps: seq<string>)
    ensures ResultsOf(ctx, ps) == ResultsSpec(ctx, ps)
    ensures forall p :: p in ResultsOf(ctx, ps) <==> p in ps
    ensures forall p | p in ps :: ResultsOf(ctx, ps)[p] == ResultText(Outcome(ctx, p))
    decreases |ps|
  {
    if ps != [] {
      var init, last := ps[..|ps| - 1], ps[|ps| - 1];
      ResultsCoverPlatforms(ctx, init);
      ResultsSpecSnoc(ctx, init, last);
      assert ps == init + [last];
    }
  }

  /** Exactly the successful platforms are queued, with their text and chosen prompt id, all attached to the record. */
  lemma QueuedAreSuccesses(ctx: Context, rid: Id, ps: seq<string>)
    ensures |QueuedOf(ctx, rid, ps)| <= |ps|
    ensures forall d | d in QueuedOf(ctx, rid, ps) ::
      d.platform in ps && d.recordId == Some(rid) && Outcome(ctx, d.platform) == Ok(d.content)
    ensures forall p | p in ps && Outcome(ctx, p).Ok? ::
      exists d | d in QueuedOf(ctx, rid, ps) :: d.platform == p && d.content == Outcome(ctx, p).value
  {
    QueuedOnlySuccesses(ctx, rid, ps);
    QueuedEverySuccess(ctx, rid, ps);
  }

  lemma {:induction false} QueuedOnlySuccesses(ctx: Context, rid: Id, ps: seq<string>)
    ensures |QueuedOf(ctx, rid, ps)| <= |ps|
    ensures forall d | d in QueuedOf(ctx, rid, ps) ::
      d.platform in ps && d.recordId == Some(rid) && Outcome(ctx, d.platform) == Ok(d.content)
    decreases |ps|
  {
    if ps != [] {
      var init, last := ps[..|ps| - 1], ps[|ps| - 1];
      QueuedOnlySuccesses(ctx, rid, init);
      assert ps == init + [last];
      forall d | d in QueuedOf(ctx, rid, ps)
        ensures d.platform in ps && d.recordId == Some(rid) && Outcome(ctx, d.platform) == Ok(d.content)
      {
        if d !in QueuedOf(ctx, rid, init) {
          assert d in Queued(ctx, rid, last);
        }
      }
    }
  }

  lemma {:induction false} QueuedEverySuccess(ctx: Context, rid: Id, ps: seq<string>)
    ensures forall p | p in ps && Outcome(ctx, p).Ok? ::
      exists d | d in QueuedOf(ctx, rid, ps) :: d.platform == p && d.content == Outcome(ctx, p).value
    decreases |ps|
  {
    if ps != [] {
      var init, last := ps[..|ps| - 1], ps[|ps| - 1];
      QueuedEverySuccess(ctx, rid, init);
      assert ps == init + [last];
      var q := QueuedOf(ctx, rid, ps);
      forall p | p in ps && Outcome(ctx, p).Ok?
        ensures exists d | d in q :: d.platform == p && d.content == Outcome(ctx, p).value
      {
        if p !in init {
          assert p == last;
          assert q[|q| - 1].platform == p;
        } else {
          var d :| d in QueuedOf(ctx, rid, init) && d.platform == p && d.content == Outcome(ctx, p).value;
          assert d in q;
        }
      }
    }
  }

  /** Every queued row is attached to the record. */
  lemma {:induction false} QueuedAttached(ctx: Context, rid: Id, ps: seq<string>)
    ensures forall i | 0 <= i < |QueuedOf(ctx, rid, ps)| :: QueuedOf(ctx, rid, ps)[i].recordId == Some(rid)
    decreases |ps|
  {
    if ps != [] {
      QueuedAttached(ctx, rid, ps[..|ps| - 1]);
    }
  }

  /** When every platform fails nothing is queued, so no batch insert happens. */
  lemma {:induction false} AllFailedQueuesNothing(ctx: Context, rid: Id, ps: seq<string>)
    requires forall i | 0 <= i < |ps| :: Outcome(ctx, ps[i]).Err?
    ensures QueuedOf(ctx, rid, ps) == []
    decreases |ps|
  {
    if ps != [] {
      AllFailedQueuesNothing(ctx, rid, ps[..|ps| - 1]);
    }
  }

  /** The per-platform loop: each platform's outcome goes into `results`, each success is queued for storage. */
  method GenerateAll(ctx: Context, rid: Id, ps: seq<string>) returns (results: map<string, string>, queued: seq<GeneratedData>)
    ensures results == ResultsOf(ctx, ps)
    ensures queued == QueuedOf(ctx, rid, ps)
  {
    results, queued := map[], [];
    var i := 0;
    while i < |ps|
      invariant 0 <= i <= |ps|
      invariant results == ResultsOf(ctx, ps[..i])
      invariant queued == QueuedOf(ctx, rid, ps[..i])
    {
      var p := ps[i];
      GenerateStep(ctx, rid, ps, i);
      var entry, row := GenerateOne(ctx, rid, p);
      results := results[p := entry];
      queued := queued + row;
      i := i + 1;
    }
    assert ps[..i] == ps;
  }

  /** One platform: call the service, then the text its results entry gets and the row it queues. */
  method GenerateOne(ctx: Context, rid: Id, p: string) returns (entry: string, row: seq<GeneratedData>)
    ensures entry == ResultText(Outcome(ctx, p))
    ensures row == Queued(ctx, rid, p)
  {
    var outcome := GeneratePlatformContent(p, ctx.text, CustomFor(ctx, p), ctx.complete);
    match outcome {
      case Ok(t) =>
        entry := t;
        row := [NewGenerated(Some(rid), p, t, if p in ctx.customPrompts then Some(ctx.customPrompts[p]) else None, "")];
      case Err(m) =>
        entry := "生成失败: " + m;
        row := [];
    }
  }

  /** The successful answer. */
  datatype GenerateReply = GenerateReply(results: map<string, string>, contentId: Id)

  /** `POST`: 401 without a session user, 400 without platforms, 400 without content and title; then the record, the loop and the batch insert. */
  method Post(db: Db, user: Option<string>, platforms: Option<seq<string>>, content: string, title: string,
              model: string, customPrompts: map<string, Id>, complete: Completion, now: int)
    returns (resp: Response<GenerateReply>)
    requires db.Valid()
    modifies db
    ensures db.Valid()
    ensures user.None? ==> resp == Failure(401, "请先登录") && unchanged(db)
    ensures user.Some? && (platforms.None? || platforms.value == []) ==>
      resp == Failure(400, "请提供至少一个目标平台") && unchanged(db)
    ensures user.Some? && platforms.Some? && platforms.value != [] && content == "" && title == "" ==>
      resp == Failure(400, "请提供内容或标题") && unchanged(db)
    ensures user.Some? && platforms.Some? && platforms.value != [] && (content != "" || title != "") ==>
      var rid := old(db.nextId);
      var ctx := Context(if content != "" then content else title, customPrompts, old(db.prompts), complete);
      resp == Success(GenerateReply(ResultsOf(ctx, platforms.value), rid)) &&
      db.records == old(db.records) + [Row(rid, user, now, RecordData(if title != "" then title else Untitled, content, model))] &&
      db.generated == old(db.generated) + Numbered(QueuedOf(ctx, rid, platforms.value), rid + 1, None, now) &&
      db.prompts == old(db.prompts) && db.auths == old(db.auths) && db.publishes == old(db.publishes)
  {
    if user.None? {
      return Failure(401, "请先登录");
    }
    if platforms.None? || platforms.value == [] {
      return Failure(400, "请提供至少一个目标平台");
    }
    if content == "" && title == "" {
      return Failure(400, "请提供内容或标题");
    }
    var reply := Generate(db, user.value, platforms.value, if content != "" then content else title,
                          RecordData(if title != "" then title else Untitled, content, model), customPrompts, complete, now);
    resp := Success(reply);
  }

  /** The accepted request: the record, the loop over the platforms, and the batch insert of the successful texts. */
  method Generate(db: Db, user: string, ps: seq<string>, text: string, record: RecordData,
                  customPrompts: map<string, Id>, complete: Completion, now: int) returns (reply: GenerateReply)
    requires db.Valid()
    modifies db
    ensures db.Valid()
    ensures var ctx := Context(text, customPrompts, old(db.prompts), complete);
      reply == GenerateReply(ResultsOf(ctx, ps), old(db.nextId)) &&
      db.records == old(db.records) + [Row(old(db.nextId), Some(user), now, record)] &&
      db.generated == old(db.generated) + Numbered(QueuedOf(ctx, old(db.nextId), ps), old(db.nextId) + 1, None, now) &&
      db.prompts == old(db.prompts) && db.auths == old(db.auths) && db.publishes == old(db.publishes)
  {
    var rid := db.CreateRecord(user, record, now);
    var ctx := Context(text, customPrompts, db.prompts, complete);
    var results, queued := GenerateAll(ctx, rid, ps);
    if |queued| > 0 {
      QueuedAttached(ctx, rid, ps);
      assert Find(db.records, rid).Some? by { assert db.records[|db.records| - 1].id == rid; }
      db.CreateGenerated(queued, None, now);
    } else {
      Seqs.AppendEmpty(db.generated, Numbered(queued, rid + 1, None, now));
    }
    reply := GenerateReply(results, rid);
  }
}
