/**
 * Prompt composition for the completion service (src/lib/openrouter.ts):
 * default prompts per registered platform, custom templates with
 * `{content}` / `{maxLength}` placeholders, the generation call (the service
 * itself is a parameter), and the optimisation chat prompt.
 */
module OpenRouter {
  import opened Wrappers
  import opened Strings
  import Utils
  import Prompts

  datatype Role = System | User | Assistant

  /** A part of a multi-part message; a missing `text` is the empty string. */
  datatype ContentPart = TextPart(text: string) | ImagePart(url: string)

  datatype Content = Str(s: string) | Parts(parts: seq<ContentPart>)

  datatype Message = Message(role: Role, content: Content)

  /** A user's custom prompt template for one platform. */
  datatype CustomPrompt = CustomPrompt(id: string, name: string, platform: string,
                                       systemPrompt: string, userPrompt: string)

  /** The service's answer: a string reply, a reply whose content is not a string, or a failure. */
  datatype Reply = TextReply(text: string) | OtherReply | Failed(msg: string)

  /** The completion service, as a function of the messages sent and the model id. */
  type Service = (seq<Message>, string) -> Reply

  /** Ids of `modelOptions`, in order. */
  const ModelIds: seq<string> := ["google/gemini-2.0-flash-001", "deepseek/deepseek-r1:free",
    "anthropic/claude-3.5-sonnet", "anthropic/claude-3.7-sonnet",
    "meta-llama/llama-3.3-70b-instruct", "openai/gpt-4o-mini"]

  const NonTextFallback := "生成内容失败，请重试"

  const PublishNote := "不要包含任何解释或前后缀。输出的内容应当可以直接复制粘贴发布。"

  function UnsupportedPlatform(platformId: string): string {
    "不支持的平台: " + platformId
  }

  /** The opening of a default user prompt, up to the length budget. */
  function DefaultLead(id: string): string {
    if id == "twitter" then "请基于以下内容，创作一条不超过"
    else if id == "xiaohongshu" then "请基于以下内容，创作一篇不超过"
    else if id == "zhihu" then "请基于以下内容，创作一篇不超过"
    else "请基于以下内容，创作一条不超过"
  }

  /** The instructions of a default user prompt between the budget and the content, per platform. */
  const TwitterAsk := "字符的专业推文，要求简洁有力、有话题性，适合在Twitter上获得高互动率:\n\n"
  const XiaohongshuAsk := "字符的小红书笔记，要求真实、生动、有情感，适当使用emoji表情符号点缀，带有强烈的个人体验感，结尾可以添加4-6个话题标签:\n\n"
  const ZhihuAsk := "字符的知乎回答，要求有理有据、逻辑清晰、专业性强，适当分段，可以加入自己的观点和分析，适合在知乎获得高赞:\n\n"
  const WeiboAsk := "字符的微博，要求简洁有趣、有话题性，适当使用emoji，容易引起转发和评论:\n\n"

  function DefaultAsk(id: string): string {
    if id == "twitter" then TwitterAsk
    else if id == "xiaohongshu" then XiaohongshuAsk
    else if id == "zhihu" then ZhihuAsk
    else WeiboAsk
  }

  /** The closing of a default user prompt. */
  function DefaultClose(id: string): string {
    if id == "twitter" then "\n\n请直接给出优化后的推文内容，" + PublishNote
    else "\n\n请直接给出优化后的内容，" + PublishNote
  }

  /** The default system prompts, per platform. */
  const TwitterSystem := "你是Twitter内容创作专家。请根据用户提供的内容，创作一条可以直接发布的专业推文。"
  const XiaohongshuSystem := "你是小红书内容创作专家。请根据用户提供的内容，创作一篇可以直接发布的小红书笔记。"
  const ZhihuSystem := "你是知乎内容创作专家。请根据用户提供的内容，创作一篇可以直接发布的知乎回答。"
  const WeiboSystem := "你是微博内容创作专家。请根据用户提供的内容，创作一条可以直接发布的微博。"

  function DefaultSystem(id: string): string {
    if id == "twitter" then TwitterSystem
    else if id == "xiaohongshu" then XiaohongshuSystem
    else if id == "zhihu" then ZhihuSystem
    else WeiboSystem
  }

  /** The prompt pair of a registered platform; the switch's default branch cannot be reached. */
  function DefaultPair(platformId: string, budget: nat, content: string): Prompts.PromptPair
    requires platformId in Utils.KnownIds
  {
    if platformId == "twitter" || platformId == "xiaohongshu" || platformId == "zhihu" || platformId == "weibo" then
      Prompts.PromptPair(DefaultSystem(platformId),
        DefaultLead(platformId) + NatToString(budget) + DefaultAsk(platformId) + content + DefaultClose(platformId))
    else
      assert false;
      Prompts.PromptPair("", "")
  }

  lemma DefaultPairEmbeds(platformId: string, budget: nat, content: string)
    requires platformId in Utils.KnownIds
    ensures Contains(DefaultPair(platformId, budget, content).userPrompt, content)
    ensures Contains(DefaultPair(platformId, budget, content).userPrompt, NatToString(budget))
  {
    var lead, n, ask, close := DefaultLead(platformId), NatToString(budget), DefaultAsk(platformId), DefaultClose(platformId);
    ContainsSelf(n);
    ContainsRight(lead, n, n);
    ContainsLeft(lead + n, ask, n);
    ContainsLeft(lead + n + ask, content, n);
    ContainsLeft(lead + n + ask + content, close, n);
    ContainsSelf(content);
    ContainsRight(lead + n + ask, content, content);
    ContainsLeft(lead + n + ask + content, close, content);
  }

  /**
   * `getDefaultPrompts`: unregistered ids are rejected; a registered id gets
   * its own system prompt and a user prompt naming its length budget and
   * embedding the content.
   */
  function GetDefaultPrompts(platformId: string, content: string): (r: Result<Prompts.PromptPair>)
    ensures r.Err? <==> !Utils.IsRegistered(platformId)
    ensures r.Err? ==> r.msg == UnsupportedPlatform(platformId)
    ensures r.Ok? ==> r.value.systemPrompt == DefaultSystem(platformId)
    ensures r.Ok? ==>
      Contains(r.value.userPrompt, content)
      && Contains(r.value.userPrompt, NatToString(Utils.FindPlatform(platformId).value.maxLength))
  {
    match Utils.FindPlatform(platformId)
    case None => Err(UnsupportedPlatform(platformId))
    case Some(platform) =>
      Utils.RegisteredIff(platformId);
      DefaultPairEmbeds(platformId, platform.maxLength, content);
      Ok(DefaultPair(platformId, platform.maxLength, content))
  }

  /** Different platforms get different system prompts. */
  lemma TwitterZhihuSystemsDiffer(content: string)
    ensures GetDefaultPrompts("twitter", content).Ok? && GetDefaultPrompts("zhihu", content).Ok?
    ensures GetDefaultPrompts("twitter", content).value.systemPrompt
         != GetDefaultPrompts("zhihu", content).value.systemPrompt
  {
    Utils.RegisteredIff("twitter");
    Utils.RegisteredIff("zhihu");
    SystemTextsDiffer();
  }

  lemma SystemTextsDiffer()
    ensures TwitterSystem != ZhihuSystem
  {
    assert TwitterSystem[2] != ZhihuSystem[2];
  }

  /** The budget a custom template's `{maxLength}` stands for: the registry's, or 2000. */
  function TemplateBudget(platform: string): (n: nat)
    ensures Utils.IsRegistered(platform) ==> n == Utils.FindPlatform(platform).value.maxLength
    ensures !Utils.IsRegistered(platform) ==> n == 2000
  {
    match Utils.FindPlatform(platform)
    case Some(p) => p.maxLength
    case None => 2000
  }

  /**
   * `processCustomPrompt`: the system prompt is kept; in the user prompt every
   * `{content}` is replaced by the content, and then every `{maxLength}` by the
   * template platform's budget.
   */
  function ProcessCustomPrompt(custom: CustomPrompt, content: string): (r: Prompts.PromptPair)
    ensures r.systemPrompt == custom.systemPrompt
  {
    var withContent := ReplaceAll(custom.userPrompt, Prompts.ContentSlot, content);
    Prompts.PromptPair(custom.systemPrompt,
      ReplaceAll(withContent, Prompts.MaxLengthSlot, NatToString(TemplateBudget(custom.platform))))
  }

  /**
   * A template with one `{content}` slot and brace-free surrounding text,
   * given brace-free content, becomes that text with the content in the slot.
   */
  lemma {:induction false} CustomContentSlot(custom: CustomPrompt, a: string, b: string, content: string)
    requires custom.userPrompt == a + Prompts.ContentSlot + b
    requires BraceFree(a) && BraceFree(b) && BraceFree(content)
    ensures ProcessCustomPrompt(custom, content).userPrompt == a + content + b
  {
    SingleSlot(a, Prompts.ContentSlot, b, content);
    BraceFreeConcat(a, content);
    BraceFreeConcat(a + content, b);
    BraceFreeNoSlot(a + content + b, Prompts.MaxLengthSlot);
  }

  /**
   * A template with one `{maxLength}` slot and brace-free surrounding text gets
   * the registry budget of its own platform there, or 2000 for an unregistered one.
   */
  lemma {:induction false} CustomBudgetSlot(custom: CustomPrompt, a: string, b: string, content: string)
    requires custom.userPrompt == a + Prompts.MaxLengthSlot + b
    requires BraceFree(a) && BraceFree(b)
    ensures ProcessCustomPrompt(custom, content).userPrompt
         == a + NatToString(TemplateBudget(custom.platform)) + b
  {
    var m := Prompts.MaxLengthSlot;
    var c := Prompts.ContentSlot;
    var s := a + m + b;
    assert m == ['{', 'm', 'a', 'x', 'L', 'e', 'n', 'g', 't', 'h', '}'];
    assert c == ['{', 'c', 'o', 'n', 't', 'e', 'n', 't', '}'];
    OtherSlotAbsent(a, m, b, c);
    ReplaceAllAbsent(s, c, content);
    SingleSlot(a, m, b, NatToString(TemplateBudget(custom.platform)));
  }

  /** Substitution is sequential: a `{maxLength}` brought in by the content is replaced too. */
  lemma BudgetInsideContent(content: string)
    requires content == Prompts.MaxLengthSlot
    ensures ProcessCustomPrompt(CustomPrompt("", "", "twitter", "", Prompts.ContentSlot), content).userPrompt == "280"
  {
    Utils.RegisteredMaxLength("twitter");
    assert TemplateBudget("twitter") == 280;
    assert NatToString(280) == "280";
    WholeSlot(Prompts.ContentSlot, content);
    WholeSlot(Prompts.MaxLengthSlot, "280");
  }

  /** The two messages sent for a generation: the composed system and user prompts. */
  function Compose(content: string, platformId: string, custom: Option<CustomPrompt>): (r: seq<Message>)
    requires Utils.IsRegistered(platformId)
    ensures |r| == 2 && r[0].role == System && r[1].role == User
    ensures custom.Some? ==>
      r[0].content == Str(custom.value.systemPrompt)
      && r[1].content == Str(ProcessCustomPrompt(custom.value, content).userPrompt)
    ensures custom.None? ==>
      r[0].content == Str(GetDefaultPrompts(platformId, content).value.systemPrompt)
      && r[1].content == Str(GetDefaultPrompts(platformId, content).value.userPrompt)
  {
    var pair := if custom.Some? then ProcessCustomPrompt(custom.value, content)
                else GetDefaultPrompts(platformId, content).value;
    [Message(System, Str(pair.systemPrompt)), Message(User, Str(pair.userPrompt))]
  }

  /**
   * `generateOptimizedContent`: an unregistered target is rejected whatever the
   * service would say; otherwise the composed pair is sent, a string reply is
   * returned, a non-string reply becomes the fallback text, and a failure is
   * passed on.
   */
  function GenerateOptimizedContent(content: string, platformId: string, model: string,
                                    custom: Option<CustomPrompt>, service: Service): (r: Result<string>)
    ensures !Utils.IsRegistered(platformId) ==> r == Err(UnsupportedPlatform(platformId))
    ensures Utils.IsRegistered(platformId) ==>
      var reply := service(Compose(content, platformId, custom), model);
      (reply.TextReply? ==> r == Ok(reply.text))
      && (reply.OtherReply? ==> r == Ok(NonTextFallback))
      && (reply.Failed? ==> r == Err(reply.msg))
  {
    if !Utils.IsRegistered(platformId) then Err(UnsupportedPlatform(platformId))
    else
      match service(Compose(content, platformId, custom), model)
      case TextReply(text) => Ok(text)
      case OtherReply => Ok(NonTextFallback)
      case Failed(msg) => Err(msg)
  }

  /** `generateContent`: the first model option, whatever temperature is passed. */
  function GenerateContent(content: string, platformId: string, temperature: real,
                           custom: Option<CustomPrompt>, service: Service): (r: Result<string>)
  {
    GenerateOptimizedContent(content, platformId, ModelIds[0], custom, service)
  }

  /** The temperature argument of `generateContent` has no effect, and the model is `modelOptions[0]`. */
  lemma GenerateContentIgnoresTemperature(content: string, platformId: string, t1: real, t2: real,
                                          custom: Option<CustomPrompt>, service: Service)
    ensures GenerateContent(content, platformId, t1, custom, service)
         == GenerateContent(content, platformId, t2, custom, service)
    ensures GenerateContent(content, platformId, t1, custom, service)
         == GenerateOptimizedContent(content, platformId, "google/gemini-2.0-flash-001", custom, service)
  {
  }

  /** The platform name used in the optimisation prompt. */
  function DisplayName(platform: string): (r: string)
    ensures platform == "twitter" ==> r == "Twitter"
    ensures platform == "xiaohongshu" ==> r == "小红书"
    ensures platform != "twitter" && platform != "xiaohongshu" ==> r == platform
  {
    if platform == "twitter" then "Twitter" else if platform == "xiaohongshu" then "小红书" else platform
  }

  function OptimizationSystem(name: string): string {
    "你是一位专业的社交媒体内容优化专家，精通各种平台的内容创作和优化。请帮助用户优化" + name
    + "平台的帖子，保持原始内容的核心观点和信息，并适应该平台的语言风格和格式。"
  }

  function OptimizationUser(name: string, content: string): string {
    "我希望你帮我将以下内容优化为适合" + name + "平台的帖子:\n\n" + content
    + "\n\n请保持原始内容的核心观点和信息，并适应" + name + "平台的语言风格和格式。如有必要，请添加适当的标点符号、分段和表情。"
  }

  lemma OptimizationTexts(name: string, content: string)
    ensures Contains(OptimizationSystem(name), name)
    ensures Contains(OptimizationUser(name, content), name)
    ensures Contains(OptimizationUser(name, content), content)
  {
    var sysHead := "你是一位专业的社交媒体内容优化专家，精通各种平台的内容创作和优化。请帮助用户优化";
    var sysTail := "平台的帖子，保持原始内容的核心观点和信息，并适应该平台的语言风格和格式。";
    ContainsSelf(name);
    ContainsRight(sysHead, name, name);
    ContainsLeft(sysHead + name, sysTail, name);
    var head := "我希望你帮我将以下内容优化为适合";
    var mid := "平台的帖子:\n\n";
    var ask := "\n\n请保持原始内容的核心观点和信息，并适应";
    var close := "平台的语言风格和格式。如有必要，请添加适当的标点符号、分段和表情。";
    ContainsRight(head, name, name);
    ContainsLeft(head + name, mid, name);
    ContainsLeft(head + name + mid, content, name);
    ContainsLeft(head + name + mid + content, ask, name);
    ContainsLeft(head + name + mid + content + ask, name, name);
    ContainsLeft(head + name + mid + content + ask + name, close, name);
    ContainsSelf(content);
    ContainsRight(head + name + mid, content, content);
    ContainsLeft(head + name + mid + content, ask, content);
    ContainsLeft(head + name + mid + content + ask, name, content);
    ContainsLeft(head + name + mid + content + ask + name, close, content);
  }

  /** `formatContentOptimizationPrompt`: a system message and a user message, both naming the platform. */
  function FormatContentOptimizationPrompt(content: string, platform: string): (r: seq<Message>)
    ensures |r| == 2 && r[0].role == System && r[1].role == User
    ensures r[0].content.Str? && Contains(r[0].content.s, DisplayName(platform))
    ensures r[1].content.Str? && Contains(r[1].content.s, content)
    ensures Contains(r[1].content.s, DisplayName(platform))
  {
    var name := DisplayName(platform);
    OptimizationTexts(name, content);
    [Message(System, Str(OptimizationSystem(name))), Message(User, Str(OptimizationUser(name, content)))]
  }
}
