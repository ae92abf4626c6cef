/**
 * The default prompt table and the prompt-store wrappers (src/lib/prompts.ts).
 * Each default user prompt is a fixed text with one `{content}` slot; the
 * length limits inside the texts are literal, not read from the registry.
 */
module Prompts {
  import opened Wrappers
  import opened Strings
  import Utils

  /** A system prompt and a user prompt template. */
  datatype PromptPair = PromptPair(systemPrompt: string, userPrompt: string)

  /** A stored custom prompt, in the store's own field naming. */
  datatype StoredPrompt = StoredPrompt(id: nat, userId: string, platformId: string, name: string,
                                       systemPrompt: string, userPrompt: string)

  const ContentSlot := "{content}"
  const MaxLengthSlot := "{maxLength}"

  const TwitterHead := "请基于以下内容，创作一条不超过" + "280" + "字符的专业推文，要求简洁有力、有话题性，"
                       + "适合在Twitter上获得高互动率:\n\n"
  const TwitterTail := "\n\n请直接给出优化后的推文内容，不要包含任何解释或前后缀。"
  const XiaohongshuHead := "请基于以下内容，创作一篇不超过" + "1000" + "字符的小红书笔记，要求真实、生动、有情感，"
                           + "适当使用emoji表情符号点缀，" + "带有强烈的个人体验感，结尾可以添加4-6个话题标签:\n\n"
  const ZhihuHead := "请基于以下内容，创作一个专业的知乎回答，" + "要求逻辑清晰、论述有力、观点独到，适当引用数据或案例支持论点:\n\n"
  const ZhihuTail := "\n\n请直接给出优化后的回答内容，不要包含任何解释或前后缀。"
  const WeiboHead := "请基于以下内容，创作一条不超过" + "2000" + "字符的微博，要求话题性强、易引发讨论，"
                     + "适当使用表情符号增加趣味性:\n\n"
  const CommonTail := "\n\n请直接给出优化后的内容，不要包含任何解释或前后缀。"

  /** `defaultPrompts`, keyed by platform id. */
  const DefaultPrompts: map<string, PromptPair> := map[
    "twitter" := PromptPair("你是Twitter内容创作专家。请根据用户提供的内容，创作一条可以直接发布的专业推文。",
                            TwitterHead + ContentSlot + TwitterTail),
    "xiaohongshu" := PromptPair("你是小红书内容创作专家。请根据用户提供的内容，创作一篇可以直接发布的小红书笔记。",
                                XiaohongshuHead + ContentSlot + CommonTail),
    "zhihu" := PromptPair("你是知乎内容创作专家。请根据用户提供的内容，创作一个专业的知乎回答。",
                          ZhihuHead + ContentSlot + ZhihuTail),
    "weibo" := PromptPair("你是微博内容创作专家。请根据用户提供的内容，创作一条引人关注的微博。",
                          WeiboHead + ContentSlot + CommonTail)
  ]

  /** `defaultPrompts[id]`: defined for the four registry ids and nothing else. */
  function DefaultPrompt(id: string): (r: Option<PromptPair>)
    ensures r.Some? <==> id in Utils.KnownIds
    ensures r.Some? ==> Contains(r.value.userPrompt, ContentSlot)
  {
    if id in DefaultPrompts then
      var pair := DefaultPrompts[id];
      assert pair.userPrompt == DefaultHead(id) + ContentSlot + DefaultTail(id);
      ContainsInfix(DefaultHead(id), ContentSlot, DefaultTail(id));
      Some(pair)
    else None
  }

  /** The text before the `{content}` slot of a default user prompt. */
  function DefaultHead(id: string): string {
    if id == "twitter" then TwitterHead
    else if id == "xiaohongshu" then XiaohongshuHead
    else if id == "zhihu" then ZhihuHead
    else WeiboHead
  }

  /** The text after the `{content}` slot of a default user prompt. */
  function DefaultTail(id: string): string {
    if id == "twitter" then TwitterTail else if id == "zhihu" then ZhihuTail else CommonTail
  }

  /** Outside its slot no default user prompt has a brace. */
  lemma SlotTextsBraceFree(id: string)
    ensures BraceFree(DefaultHead(id)) && BraceFree(DefaultTail(id))
  {
    HeadsBraceFree();
    TailsBraceFree();
  }

  lemma HeadsBraceFree()
    ensures BraceFree(TwitterHead) && BraceFree(XiaohongshuHead) && BraceFree(ZhihuHead) && BraceFree(WeiboHead)
  {
    TwitterHeadBraceFree();
    XiaohongshuHeadBraceFree();
    ZhihuHeadBraceFree();
    WeiboHeadBraceFree();
  }

  lemma TwitterHeadBraceFree()
    ensures BraceFree(TwitterHead)
  {
    BraceFreeParts3("请基于以下内容，创作一条不超过", "280", "字符的专业推文，要求简洁有力、有话题性，");
    BraceFreeConcat("请基于以下内容，创作一条不超过" + "280" + "字符的专业推文，要求简洁有力、有话题性，", "适合在Twitter上获得高互动率:\n\n");
  }

  lemma XiaohongshuHeadBraceFree()
    ensures BraceFree(XiaohongshuHead)
  {
    XiaohongshuAskBraceFree();
    BraceFreeParts3("请基于以下内容，创作一篇不超过" + "1000" + "字符的小红书笔记，要求真实、生动、有情感，",
                    "适当使用emoji表情符号点缀，", "带有强烈的个人体验感，结尾可以添加4-6个话题标签:\n\n");
  }

  /** The first sentence of the Xiaohongshu request, with its literal limit, has no brace. */
  lemma XiaohongshuAskBraceFree()
    ensures BraceFree("请基于以下内容，创作一篇不超过" + "1000" + "字符的小红书笔记，要求真实、生动、有情感，")
  {
    BraceFreeParts3("请基于以下内容，创作一篇不超过", "1000", "字符的小红书笔记，要求真实、生动、有情感，");
  }

  lemma ZhihuHeadBraceFree()
    ensures BraceFree(ZhihuHead)
  {
    BraceFreeConcat("请基于以下内容，创作一个专业的知乎回答，", "要求逻辑清晰、论述有力、观点独到，适当引用数据或案例支持论点:\n\n");
  }

  lemma WeiboHeadBraceFree()
    ensures BraceFree(WeiboHead)
  {
    BraceFreeParts3("请基于以下内容，创作一条不超过", "2000", "字符的微博，要求话题性强、易引发讨论，");
    BraceFreeConcat("请基于以下内容，创作一条不超过" + "2000" + "字符的微博，要求话题性强、易引发讨论，", "适当使用表情符号增加趣味性:\n\n");
  }

  /** Three brace-free texts make a brace-free text. */
  lemma BraceFreeParts3(a: string, b: string, c: string)
    requires BraceFree(a) && BraceFree(b) && BraceFree(c)
    ensures BraceFree(a + b + c)
  {
    BraceFreeConcat(a, b);
    BraceFreeConcat(a + b, c);
  }

  lemma TailsBraceFree()
    ensures BraceFree(TwitterTail) && BraceFree(ZhihuTail) && BraceFree(CommonTail)
  {
  }

  /**
   * Each default user prompt has exactly one `{content}` slot and no
   * `{maxLength}` one: filling the slot puts the content, once, between the
   * fixed texts around it.
   */
  lemma DefaultSlotOnce(id: string, content: string)
    requires id in DefaultPrompts
    ensures var u := DefaultPrompts[id].userPrompt;
      ReplaceAll(u, ContentSlot, content) == DefaultHead(id) + content + DefaultTail(id) &&
      !Contains(u, MaxLengthSlot)
  {
    var head, tail := DefaultHead(id), DefaultTail(id);
    assert DefaultPrompts[id].userPrompt == head + ContentSlot + tail;
    SlotTextsBraceFree(id);
    assert ContentSlot == ['{', 'c', 'o', 'n', 't', 'e', 'n', 't', '}'];
    assert MaxLengthSlot == ['{', 'm', 'a', 'x', 'L', 'e', 'n', 'g', 't', 'h', '}'];
    SingleSlot(head, ContentSlot, tail, content);
    OtherSlotAbsent(head, ContentSlot, tail, MaxLengthSlot);
  }

  /**
   * The limits inside the default prompts are literal text, not the
   * registry's budgets: twitter's prompt says 280, xiaohongshu's 1000 and
   * weibo's 2000, where the registry allows weibo 280.
   */
  lemma LiteralLimits(id: string, prompt: string, limit: string)
    requires id == "twitter" || id == "xiaohongshu" || id == "weibo"
    requires prompt == DefaultPrompts[id].userPrompt
    requires limit == if id == "twitter" then "280" else if id == "xiaohongshu" then "1000" else "2000"
    ensures Contains(prompt, limit)
    ensures id == "weibo" ==> Utils.FindPlatform(id).Some? && Utils.FindPlatform(id).value.maxLength == 280
  {
    if id == "twitter" {
      ContainsInfix("请基于以下内容，创作一条不超过", limit, "字符的专业推文，要求简洁有力、有话题性，");
      ContainsLeft("请基于以下内容，创作一条不超过" + limit + "字符的专业推文，要求简洁有力、有话题性，", "适合在Twitter上获得高互动率:\n\n", limit);
      LimitInPrompt(TwitterHead, TwitterTail, limit);
    } else if id == "xiaohongshu" {
      var ask := "请基于以下内容，创作一篇不超过" + limit + "字符的小红书笔记，要求真实、生动、有情感，";
      ContainsInfix("请基于以下内容，创作一篇不超过", limit, "字符的小红书笔记，要求真实、生动、有情感，");
      ContainsLeft(ask, "适当使用emoji表情符号点缀，", limit);
      ContainsLeft(ask + "适当使用emoji表情符号点缀，", "带有强烈的个人体验感，结尾可以添加4-6个话题标签:\n\n", limit);
      LimitInPrompt(XiaohongshuHead, CommonTail, limit);
    } else {
      ContainsInfix("请基于以下内容，创作一条不超过", limit, "字符的微博，要求话题性强、易引发讨论，");
      ContainsLeft("请基于以下内容，创作一条不超过" + limit + "字符的微博，要求话题性强、易引发讨论，", "适当使用表情符号增加趣味性:\n\n", limit);
      LimitInPrompt(WeiboHead, CommonTail, limit);
      Utils.RegisteredMaxLength(id);
    }
  }

  /** Text in the head of a user prompt is in the user prompt. */
  lemma LimitInPrompt(head: string, tail: string, limit: string)
    requires Contains(head, limit)
    ensures Contains(head + ContentSlot + tail, limit)
  {
    ContainsLeft(head, ContentSlot, limit);
    ContainsLeft(head + ContentSlot, tail, limit);
  }

  /** `getUserPrompts` / `getPlatformPrompts`: a failed store read yields the empty list. */
  function ListOrEmpty(read: Result<seq<StoredPrompt>>): (r: seq<StoredPrompt>)
    ensures read.Err? ==> r == []
    ensures read.Ok? ==> r == read.value
  {
    match read
    case Ok(ps) => ps
    case Err(_) => []
  }

  /** `savePrompt`: the store's new id, or the store's failure passed on unchanged. */
  function SavePrompt(insert: Result<nat>): (r: Result<nat>)
    ensures r.Ok? <==> insert.Ok?
    ensures r.Ok? ==> r.value == insert.value
    ensures r.Err? ==> r.msg == insert.msg
  {
    insert
  }
}
