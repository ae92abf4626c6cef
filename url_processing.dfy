/**
 * The simulated link fetch of the client (src/lib/urlProcessing.ts): the
 * URL's host name picks one of five canned pages, each embedding the URL.
 * Parsing the URL is not modelled: the caller gives the host name `new URL`
 * would find, or `None` when it would throw. The simulated delay is left out.
 */
module UrlProcessing {
  import opened Wrappers
  import opened Strings

  /** The canned page a host gets. */
  datatype PageKind = ExamplePage | GithubPage | NewsPage | BlogPage | GenericPage

  /** The host tests in source order; the first that holds decides. */
  function KindOfHost(host: string): PageKind {
    if Contains(host, "example.com") || Contains(host, "smartpost.example.com") then ExamplePage
    else if Contains(host, "github.com") then GithubPage
    else if Contains(host, "news") then NewsPage
    else if Contains(host, "blog") then BlogPage
    else GenericPage
  }

  const ExampleHead: string :=
      "# SmartPost示例网页内容\n" +
      "\n" +
      "这是从 "
  const ExampleTail: string :=
      " 抓取的示例内容。\n" +
      "\n" +
      "## 欢迎使用SmartPost\n" +
      "\n" +
      "SmartPost是一个AI驱动的内容优化平台，旨在帮助用户为不同的社交媒体平台创建优质内容。\n" +
      "\n" +
      "### 主要功能\n" +
      "\n" +
      "- 多平台内容优化\n" +
      "- AI智能推荐\n" +
      "- 文本、图片和链接分析\n" +
      "- 用户行为数据分析\n" +
      "\n" +
      "这是一个模拟内容，实际项目中将抓取真实网页内容。"

  const GithubHead: string :=
      "# GitHub项目: SmartPost内容优化平台\n" +
      "\n" +
      "这是从 "
  const GithubTail: string :=
      " 抓取的模拟GitHub内容。\n" +
      "\n" +
      "## 项目概述\n" +
      "\n" +
      "SmartPost是一个基于AI的社交媒体内容优化平台，使用Next.js和React构建。\n" +
      "\n" +
      "### 技术栈\n" +
      "\n" +
      "- Next.js\n" +
      "- React\n" +
      "- TypeScript\n" +
      "- Firebase\n" +
      "- OpenRouter API\n" +
      "\n" +
      "### 安装说明\n" +
      "\n" +
      "```bash\n" +
      "git clone https://github.com/username/smartpost.git\n" +
      "cd smartpost\n" +
      "npm install\n" +
      "npm run dev\n" +
      "```\n" +
      "\n" +
      "这是一个模拟内容，实际项目中将抓取真实GitHub页面内容。"

  const NewsHead: string :=
      "# AI技术革新内容创作行业\n" +
      "\n" +
      "这是从 "
  const NewsTail: string :=
      " 抓取的模拟新闻内容。\n" +
      "\n" +
      "## AI驱动的内容创作工具改变市场格局\n" +
      "\n" +
      "最近的研究表明，AI驱动的内容创作工具如SmartPost正在彻底改变数字营销和社交媒体行业。这些工具能够根据不同平台的特点，自动生成定制化内容，提高内容的传播效果和用户互动率。\n" +
      "\n" +
      "### 专家观点\n" +
      "\n" +
      "\"AI内容工具不仅提高了效率，还提供了基于数据的智能建议，这是传统内容创作方法无法比拟的。\" - 张教授，数字媒体研究中心\n" +
      "\n" +
      "### 市场趋势\n" +
      "\n" +
      "- 预计到2025年，75%的企业将采用AI内容工具\n" +
      "- 内容创作效率提升35-50%\n" +
      "- 用户互动率平均提高28%\n" +
      "\n" +
      "这是一个模拟内容，实际项目中将抓取真实新闻网站内容。"

  const BlogHead: string :=
      "# 如何利用AI优化你的社交媒体内容策略\n" +
      "\n" +
      "这是从 "
  const BlogTail: string :=
      " 抓取的模拟博客内容。\n" +
      "\n" +
      "## 引言\n" +
      "\n" +
      "在当今竞争激烈的社交媒体环境中，创建引人注目的内容变得越来越具有挑战性。幸运的是，像SmartPost这样的AI工具可以帮助我们简化这一过程。\n" +
      "\n" +
      "## 内容优化的5个关键步骤\n" +
      "\n" +
      "1. **了解你的目标受众**\n" +
      "   分析受众的兴趣、行为和偏好是成功的第一步。\n" +
      "\n" +
      "2. **选择合适的平台**\n" +
      "   每个社交媒体平台都有其独特的特点和受众群体。\n" +
      "\n" +
      "3. **利用AI生成内容创意**\n" +
      "   通过SmartPost等AI工具获取针对特定平台的内容建议和创意。\n" +
      "\n" +
      "4. **优化内容格式**\n" +
      "   根据不同平台的最佳实践调整内容格式、长度和视觉元素。\n" +
      "\n" +
      "5. **分析和迭代**\n" +
      "   持续分析内容表现，并根据数据调整你的策略。\n" +
      "\n" +
      "这是一个模拟内容，实际项目中将抓取真实博客内容。"

  const GenericHead: string :=
      "# 网页内容抓取结果\n" +
      "\n" +
      "这是从 "
  const GenericTail: string :=
      " 抓取的模拟内容。\n" +
      "\n" +
      "## 网页概览\n" +
      "\n" +
      "这是一个示例内容，模拟从指定URL抓取的网页内容。在实际项目中，这里将显示真实抓取的内容。\n" +
      "\n" +
      "### 主要内容\n" +
      "\n" +
      "本页面包含有关某主题的信息，可能涉及以下几个方面：\n" +
      "\n" +
      "- 主题介绍和背景\n" +
      "- 相关概念和术语解释\n" +
      "- 实用指南和建议\n" +
      "- 参考资料和延伸阅读\n" +
      "\n" +
      "### 技术说明\n" +
      "\n" +
      "在实际项目中，网页内容抓取通常需要处理以下几个方面：\n" +
      "\n" +
      "1. 跨域资源共享(CORS)问题处理\n" +
      "2. 网页内容解析和结构化\n" +
      "3. 主要文本内容提取\n" +
      "4. 格式转换和清理\n" +
      "\n" +
      "这是一个模拟内容，实际项目中将抓取真实网页内容。"

  /** The text of a canned page before the URL. */
  function Head(kind: PageKind): string {
    match kind
    case ExamplePage => ExampleHead
    case GithubPage => GithubHead
    case NewsPage => NewsHead
    case BlogPage => BlogHead
    case GenericPage => GenericHead
  }

  /** The text of a canned page after the URL. */
  function Tail(kind: PageKind): string {
    match kind
    case ExamplePage => ExampleTail
    case GithubPage => GithubTail
    case NewsPage => NewsTail
    case BlogPage => BlogTail
    case GenericPage => GenericTail
  }

  /** A canned page for a URL. */
  function CannedPage(kind: PageKind, url: string): (r: string)
    ensures InfixAt(url, r, |Head(kind)|)
  {
    var r := Head(kind) + url + Tail(kind);
    assert r[|Head(kind)|..|Head(kind)| + |url|] == url;
    r
  }

  /** `simulateFetchContent`: the canned page for the host, or the invalid-URL error. */
  function SimulateFetchContent(url: string, host: Option<string>): (r: Result<string>)
    ensures r.Err? <==> host.None?
    ensures r.Ok? ==> r.value == CannedPage(KindOfHost(host.value), url)
  {
    match host
    case None => Err("无效的URL: " + url)
    case Some(h) => Ok(CannedPage(KindOfHost(h), url))
  }

  const FetchLead := "无法抓取链接内容: "

  /** `fetchContentFromUrl`: the simulated fetch, its error message wrapped. */
  function FetchContentFromUrl(url: string, host: Option<string>): (r: Result<string>)
    ensures r.Ok? <==> host.Some?
    ensures r.Ok? ==> InfixAt(url, r.value, |Head(KindOfHost(host.value))|)
    ensures r.Err? ==> r.msg == FetchLead + "无效的URL: " + url
  {
    match SimulateFetchContent(url, host)
    case Ok(page) => Ok(page)
    case Err(m) => Err(FetchLead + m)
  }

  /** The refusal of a malformed URL names the URL after both leads. */
  lemma InvalidUrlNamed(url: string)
    ensures var r := FetchContentFromUrl(url, None);
      r.Err? && StartsWith(r.msg, FetchLead) && EndsWith(r.msg, url)
  {
    var m := FetchContentFromUrl(url, None).msg;
    assert m[..|FetchLead|] == FetchLead;
    assert m[|m| - |url|..] == url;
  }

  /**
   * A host gets the example page exactly when it contains "example.com",
   * whatever else it contains ("news", "blog", "github.com").
   */
  lemma ExampleFirst(host: string)
    ensures KindOfHost(host) == ExamplePage <==> Contains(host, "example.com")
  {
    if Contains(host, "smartpost.example.com") {
      SmartpostTestRedundant(host);
    }
  }

  /** The second host test is redundant: a host containing "smartpost.example.com" contains "example.com". */
  lemma SmartpostTestRedundant(host: string)
    requires Contains(host, "smartpost.example.com")
    ensures Contains(host, "example.com")
  {
    var i := IndexOf(host, "smartpost.example.com").value;
    var long, short := "smartpost.example.com", "example.com";
    assert host[i..i + |long|] == long;
    assert host[i + 10..i + 10 + |short|] == host[i..i + |long|][10..];
    assert long[10..] == short;
    ContainsAt(host, short, i + 10);
  }

}
