/**
 * Text extraction from uploaded files and the client side of the link fetch
 * (src/lib/fileProcessing.ts). The file reader, the document parsers, the OCR
 * engine and the HTTP client are not modelled: each call is an outcome the
 * caller supplies, and the dispatch, the fallbacks, the error texts and the
 * PDF page loop are modelled over those outcomes.
 */
module FileProcessing {
  import opened Wrappers
  import opened Strings

  /** An uploaded file: its name and its media type (`file.type`). */
  datatype File = File(name: string, mediaType: string)

  /** A settled promise: its value, or what it was rejected with. */
  datatype Settled<+T> = Done(value: T) | Threw(thrown: Thrown)

  /** `error instanceof Error ? error.message : '未知错误'`. */
  function Reason(e: Thrown): string {
    MessageOr(e, "未知错误")
  }

  /** A `FileReader` run: the `result` it loaded, or its `onerror` event. */
  datatype ReadOutcome<+T> = Loaded(result: T) | ReadFailed

  const ReadEmpty := "读取文件失败"
  const ReadError := "读取文件时发生错误"

  /**
   * `readTextFile` and `readFileAsBase64`: an empty result is falsy and
   * rejects like a reader error, with its own message.
   */
  function ReadText(read: ReadOutcome<string>): (r: Settled<string>)
    ensures r.Done? <==> read.Loaded? && read.result != ""
    ensures r.Done? ==> r.value == read.result
  {
    match read
    case ReadFailed => Threw(ErrorObject(ReadError))
    case Loaded(t) => if t == "" then Threw(ErrorObject(ReadEmpty)) else Done(t)
  }

  /** `readFileAsArrayBuffer`: a buffer is an object, so only a reader error rejects. */
  function ReadBuffer(read: ReadOutcome<()>): (r: Settled<()>)
    ensures r.Done? <==> read.Loaded?
  {
    match read
    case ReadFailed => Threw(ErrorObject(ReadError))
    case Loaded(_) => Done(())
  }

  // ---------------------------------------------------------------------
  // Dispatch
  // ---------------------------------------------------------------------

  /** The branch of `extractTextFromFile` a file takes. */
  datatype Kind = PlainText | Markdown | Pdf | Word | Html | Image | Unsupported

  predicate IsMarkdown(mediaType: string, name: string) {
    mediaType == "text/markdown" || EndsWith(name, ".md")
  }

  predicate IsPdf(mediaType: string, name: string) {
    mediaType == "application/pdf" || EndsWith(name, ".pdf")
  }

  predicate IsWord(mediaType: string, name: string) {
    mediaType == "application/msword" ||
    mediaType == "application/vnd.openxmlformats-officedocument.wordprocessingml.document" ||
    EndsWith(name, ".doc") || EndsWith(name, ".docx")
  }

  predicate IsHtml(mediaType: string, name: string) {
    mediaType == "text/html" || EndsWith(name, ".html") || EndsWith(name, ".htm")
  }

  predicate IsImage(mediaType: string, name: string) {
    StartsWith(mediaType, "image/") || EndsWith(name, ".png") || EndsWith(name, ".jpg") || EndsWith(name, ".jpeg")
  }

  /** The tests in source order, on the media type and the lower-cased name; the first that holds decides. */
  function KindOf(mediaType: string, name: string): Kind {
    if mediaType == "text/plain" then PlainText
    else if IsMarkdown(mediaType, name) then Markdown
    else if IsPdf(mediaType, name) then Pdf
    else if IsWord(mediaType, name) then Word
    else if IsHtml(mediaType, name) then Html
    else if IsImage(mediaType, name) then Image
    else Unsupported
  }

  /** The branch of a file: the extension tests see `file.name.toLowerCase()`. */
  function FileKind(f: File): Kind {
    KindOf(f.mediaType, ToLower(f.name))
  }

  lemma ToLowerIdempotent(s: string)
    ensures ToLower(ToLower(s)) == ToLower(s)
  {
    var t := ToLower(s);
    forall i | 0 <= i < |s| ensures ToLower(t)[i] == t[i] {
      assert LowerChar(LowerChar(s[i])) == LowerChar(s[i]);
    }
    assert ToLower(t) == t;
  }

  /** Upper-case letters in a name do not change the branch: "REPORT.PDF" goes where "report.pdf" goes. */
  lemma KindIgnoresCase(name: string, mediaType: string)
    ensures FileKind(File(name, mediaType)) == FileKind(File(ToLower(name), mediaType))
  {
    ToLowerIdempotent(name);
  }

  /** The tests run in source order: a name ending in ".pdf" is read as a PDF even when its type says HTML. */
  lemma PdfNameBeforeHtmlType(name: string, mediaType: string)
    requires mediaType == "text/html" && EndsWith(name, ".pdf")
    ensures KindOf(mediaType, name) == Pdf
  {
    assert name[|name| - 1] == 'f';
  }

  // ---------------------------------------------------------------------
  // Extractors
  // ---------------------------------------------------------------------

  /** A text item of a PDF page (`'str' in item`), or a marked-content item without text. */
  datatype Item = TextItem(str: string) | MarkedContent

  function ItemText(item: Item): string {
    match item
    case TextItem(s) => s
    case MarkedContent => ""
  }

  function ItemTexts(items: seq<Item>): (r: seq<string>)
    ensures |r| == |items| && forall k | 0 <= k < |items| :: r[k] == ItemText(items[k])
    decreases |items|
  {
    if items == [] then [] else [ItemText(items[0])] + ItemTexts(items[1..])
  }

  /** The text of one page: its items' strings joined by single spaces, an item without text giving "". */
  function PageText(items: seq<Item>): string {
    Join(ItemTexts(items), " ")
  }

  /** Without spaces inside the items, the page text splits back into the items' strings. */
  lemma PageTextSplits(items: seq<Item>)
    requires items != []
    requires forall k | 0 <= k < |items| :: ' ' !in ItemText(items[k])
    ensures Split(PageText(items), " ") == ItemTexts(items)
  {
    SplitJoinChar(ItemTexts(items), ' ');
  }

  /** The marker before page `i`. */
  function Marker(i: nat): string {
    "\n--- 第 " + NatToString(i) + " 页 ---\n"
  }

  /** What page `i` adds to the accumulated text. */
  function Segment(i: nat, items: seq<Item>): string {
    Marker(i) + PageText(items) + "\n"
  }

  /** The accumulated text after the pages, numbered from 1. */
  function Accumulated(pages: seq<seq<Item>>): (r: string)
    decreases |pages|
  {
    if pages == [] then ""
    else Accumulated(pages[..|pages| - 1]) + Segment(|pages|, pages[|pages| - 1])
  }

  const NoPdfText := "PDF文件中未检测到文本内容。"

  /** `extractedText.trim() || 'PDF文件中未检测到文本内容。'`. */
  function PdfText(pages: seq<seq<Item>>): string {
    var t := Trim(Accumulated(pages));
    if t == "" then NoPdfText else t
  }

  /** The accumulated text after the first `m` pages begins the accumulated text of all of them. */
  lemma {:induction false} AccumulatedPrefix(pages: seq<seq<Item>>, m: nat)
    requires m <= |pages|
    ensures var a := Accumulated(pages[..m]); |a| <= |Accumulated(pages)| && Accumulated(pages)[..|a|] == a
    decreases |pages| - m
  {
    if m < |pages| {
      AccumulatedPrefix(pages, m + 1);
      var b := pages[..m + 1];
      assert b[..|b| - 1] == pages[..m];
      var a := Accumulated(pages[..m]);
      var a1 := Accumulated(b);
      assert a1 == a + Segment(m + 1, pages[m]);
      assert a1[..|a|] == a;
    } else {
      assert pages[..m] == pages;
    }
  }

  /** Page `k + 1`'s marker and text sit right after the text of the pages before it: one marker per page, in page order. */
  lemma SegmentInPlace(pages: seq<seq<Item>>, k: nat)
    requires k < |pages|
    ensures InfixAt(Segment(k + 1, pages[k]), Accumulated(pages), |Accumulated(pages[..k])|)
  {
    var b := pages[..k + 1];
    assert b[..|b| - 1] == pages[..k];
    AccumulatedPrefix(pages, k + 1);
    var a := Accumulated(pages[..k]);
    var seg := Segment(k + 1, pages[k]);
    var whole := Accumulated(pages);
    assert whole[..|a| + |seg|] == a + seg;
    assert whole[|a|..|a| + |seg|] == (a + seg)[|a|..];
  }

  /** Every non-empty accumulation opens with the first page's marker: a line break, then a dash. */
  lemma AccumulatedStart(pages: seq<seq<Item>>)
    requires pages != []
    ensures var acc := Accumulated(pages); |acc| >= 2 && acc[0] == '\n' && acc[1] == '-'
  {
    AccumulatedPrefix(pages, 1);
    var b := pages[..1];
    assert b[..0] == [];
    var seg := Segment(1, pages[0]);
    assert Accumulated(b) == seg;
    assert seg[0] == '\n' && seg[1] == '-';
  }

  /** The trimmed accumulation is empty exactly when the document has no pages: a marker is never blank. */
  lemma PdfBlankIff(pages: seq<seq<Item>>)
    ensures Trim(Accumulated(pages)) == "" <==> pages == []
    ensures PdfText(pages) == NoPdfText <==> pages == []
  {
    if pages != [] {
      TrimmedStart(pages);
      assert NoPdfText[0] == 'P';
    }
  }

  /** The trimmed accumulation of a document with pages starts with its first marker's dash. */
  lemma TrimmedStart(pages: seq<seq<Item>>)
    requires pages != []
    ensures var r := Trim(Accumulated(pages)); r != [] && r[0] == '-'
  {
    var acc := Accumulated(pages);
    AccumulatedStart(pages);
    assert TrimStart(acc[1..]) == acc[1..];
    assert TrimStart(acc) == acc[1..];
    assert !IsSpace(acc[1]);
  }

  /** `extractPdfText` after the document loaded: the page loop, then the trim-or-fallback. */
  method ExtractPdfPages(pages: seq<seq<Item>>) returns (text: string)
    ensures text == PdfText(pages)
  {
    var extracted := "";
    var i := 1;
    while i <= |pages|
      invariant 1 <= i <= |pages| + 1
      invariant extracted == Accumulated(pages[..i - 1])
    {
      var pageText := PageText(pages[i - 1]);
      assert pages[..i][..i - 1] == pages[..i - 1];
      extracted := extracted + Marker(i) + pageText + "\n";
      i := i + 1;
    }
    assert pages[..i - 1] == pages;
    var t := Trim(extracted);
    text := if t == "" then NoPdfText else t;
  }

  /** `extractPdfText`: the buffer is read, the document parsed, and the pages accumulated; failures are rethrown. */
  function ExtractPdfText(buffer: ReadOutcome<()>, document: Settled<seq<seq<Item>>>): (r: Settled<string>)
    ensures r.Done? <==> buffer.Loaded? && document.Done?
    ensures r.Done? ==> r.value == PdfText(document.value)
  {
    match ReadBuffer(buffer)
    case Threw(e) => Threw(e)
    case Done(_) =>
      match document
      case Threw(e) => Threw(e)
      case Done(pages) => Done(PdfText(pages))
  }

  const NoWordText := "无法从Word文档提取文本。"

  /** `extractWordText`: the extracted value, or the fallback when it is empty. */
  function ExtractWordText(buffer: ReadOutcome<()>, extracted: Settled<string>): (r: Settled<string>)
    ensures r.Done? <==> buffer.Loaded? && extracted.Done?
    ensures r.Done? ==> r.value == if extracted.value == "" then NoWordText else extracted.value
  {
    match ReadBuffer(buffer)
    case Threw(e) => Threw(e)
    case Done(_) =>
      match extracted
      case Threw(e) => Threw(e)
      case Done(v) => Done(if v == "" then NoWordText else v)
  }

  const NoImageText := "图片中未检测到文本内容。"

  /** `extractTextFromImage`: the recognised text as it is when it has a visible character, else the fallback. */
  function ExtractTextFromImage(dataUrl: ReadOutcome<string>, recognised: Settled<string>): (r: Settled<string>)
    ensures r.Done? <==> ReadText(dataUrl).Done? && recognised.Done?
    ensures r.Done? ==> (Blank(recognised.value) ==> r.value == NoImageText)
    ensures r.Done? ==> (!Blank(recognised.value) ==> r.value == recognised.value)
  {
    match ReadText(dataUrl)
    case Threw(e) => Threw(e)
    case Done(_) =>
      match recognised
      case Threw(e) => Threw(e)
      case Done(t) =>
        TrimFacts(t);
        Done(if t != "" && Trim(t) != "" then t else NoImageText)
  }

  /** The server branch of `extractTextFromHtml`: tags become spaces, white-space runs one space, then trim. */
  function HtmlText(html: string): string {
    Trim(CollapseSpaces(StripTags(html)))
  }

  /** White space in `r` is only ' ', never two in a row. */
  predicate SingleSpaced(r: string) {
    (forall i | 0 <= i < |r| && IsSpace(r[i]) :: r[i] == ' ') &&
    (forall i | 0 <= i < |r| - 1 :: !(IsSpace(r[i]) && IsSpace(r[i + 1])))
  }

  /** Character `i` of the trimmed text is the character `i` places after the leading white space. */
  lemma TrimAt(c: string, i: nat)
    requires i < |Trim(c)|
    ensures Trim(c)[i] == c[|c| - |TrimStart(c)| + i]
  {
    var k := |c| - |TrimStart(c)|;
    assert c[k..k + |Trim(c)|][i] == c[k + i];
  }

  /** Trimming keeps a text single-spaced. */
  lemma TrimSingleSpaced(c: string)
    requires SingleSpaced(c)
    ensures SingleSpaced(Trim(c))
  {
    var r := Trim(c);
    forall i | 0 <= i < |r| && IsSpace(r[i]) ensures r[i] == ' ' {
      TrimAt(c, i);
    }
    forall i | 0 <= i < |r| - 1 ensures !(IsSpace(r[i]) && IsSpace(r[i + 1])) {
      TrimAt(c, i);
      TrimAt(c, i + 1);
    }
  }

  /** Stripped HTML neither starts nor ends with white space, holds no white space but ' ', and no two spaces in a row. */
  lemma HtmlTextShape(html: string)
    ensures var r := HtmlText(html); r != [] ==> !IsSpace(r[0]) && !IsSpace(r[|r| - 1])
    ensures SingleSpaced(HtmlText(html))
  {
    TrimSingleSpaced(CollapseSpaces(StripTags(html)));
  }

  /** Stripping HTML keeps every visible character of the tag-free text, in order. */
  lemma HtmlTextVisible(html: string)
    ensures Visible(HtmlText(html)) == Visible(StripTags(html))
  {
    var c := CollapseSpaces(StripTags(html));
    CollapseKeepsVisible(StripTags(html));
    TrimKeepsVisible(c);
  }

  // ---------------------------------------------------------------------
  // extractTextFromFile
  // ---------------------------------------------------------------------

  /** What the outside world answers for one file: the reader, the parsers and the OCR engine. */
  datatype Sources = Sources(text: ReadOutcome<string>, buffer: ReadOutcome<()>, dataUrl: ReadOutcome<string>,
                             pdf: Settled<seq<seq<Item>>>, word: Settled<string>, ocr: Settled<string>)

  /** The in-band error text of a failed extractor, naming the lower-cased file name. */
  function Failure(lead: string, name: string, e: Thrown): (r: string)
    ensures InfixAt(name, r, |lead|)
  {
    var r := lead + name + "，错误信息: " + Reason(e);
    assert r[|lead|..|lead| + |name|] == name;
    r
  }

  const PdfLead := "解析PDF文件时出错: "
  const WordLead := "无法解析Word文档: "
  const HtmlLead := "无法解析HTML文件: "
  const ImageLead := "解析图片文本时出错: "

  function UnsupportedText(mediaType: string): string {
    "不支持的文件类型: " + mediaType + "。请上传文本、Markdown、PDF、Word文档或图片。"
  }

  /** An extractor's failure becomes its text; its success passes through. */
  function Caught(r: Settled<string>, lead: string, name: string): string {
    match r
    case Done(t) => t
    case Threw(e) => Failure(lead, name, e)
  }

  /**
   * `extractTextFromFile`: only the plain-text and Markdown branches can
   * reject (their read is not caught); every other branch answers a text.
   */
  function ExtractTextFromFile(f: File, src: Sources): (r: Settled<string>)
    ensures r.Threw? ==> FileKind(f) in {PlainText, Markdown}
    ensures FileKind(f) in {PlainText, Markdown} ==> r == ReadText(src.text)
  {
    var name := ToLower(f.name);
    match FileKind(f)
    case PlainText => ReadText(src.text)
    case Markdown => ReadText(src.text)
    case Pdf => Done(Caught(ExtractPdfText(src.buffer, src.pdf), PdfLead, name))
    case Word => Done(Caught(ExtractWordText(src.buffer, src.word), WordLead, name))
    case Html =>
      Done(match ReadText(src.text)
        case Done(h) => HtmlText(h)
        case Threw(e) => Failure(HtmlLead, name, e))
    case Image => Done(Caught(ExtractTextFromImage(src.dataUrl, src.ocr), ImageLead, name))
    case Unsupported => Done(UnsupportedText(f.mediaType))
  }

  /** A failing PDF parse is reported in-band, with the lower-cased file name and the error's message. */
  lemma PdfFailureNamed(f: File, src: Sources, e: Thrown)
    requires FileKind(f) == Pdf && src.buffer.Loaded? && src.pdf == Threw(e)
    ensures ExtractTextFromFile(f, src) == Done(Failure(PdfLead, ToLower(f.name), e))
    ensures InfixAt(ToLower(f.name), ExtractTextFromFile(f, src).value, |PdfLead|)
  {
  }

  /** A loaded PDF answers its pages' text; the fallback message only for a document without pages. */
  lemma PdfLoaded(f: File, src: Sources)
    requires FileKind(f) == Pdf && src.buffer.Loaded? && src.pdf.Done?
    ensures ExtractTextFromFile(f, src) == Done(PdfText(src.pdf.value))
    ensures ExtractTextFromFile(f, src) == Done(NoPdfText) <==> src.pdf.value == []
  {
    PdfBlankIff(src.pdf.value);
  }

  /** Any other file type is refused in-band, naming the type. */
  lemma UnsupportedNamed(f: File, src: Sources)
    requires FileKind(f) == Unsupported
    ensures ExtractTextFromFile(f, src).Done?
    ensures InfixAt(f.mediaType, ExtractTextFromFile(f, src).value, |"不支持的文件类型: "|)
  {
  }

  // ---------------------------------------------------------------------
  // fetchContentFromUrl
  // ---------------------------------------------------------------------

  const NoPageContent := "无法获取页面内容"
  const UrlLead := "无法从URL获取内容: "

  /**
   * `fetchContentFromUrl`: the proxy's `content` when it is a non-empty
   * text; its absence and any request failure are rethrown wrapped.
   */
  function FetchContentFromUrl(proxy: Settled<Option<string>>): (r: Settled<string>)
    ensures r.Done? <==> proxy.Done? && proxy.value.Some? && proxy.value.value != ""
    ensures r.Done? ==> r.value == proxy.value.value
    ensures r.Threw? ==> r.thrown.ErrorObject? && StartsWith(r.thrown.message, UrlLead)
  {
    match proxy
    case Done(Some(c)) =>
      if c != "" then Done(c) else Threw(ErrorObject(UrlLead + NoPageContent))
    case Done(None) => Threw(ErrorObject(UrlLead + NoPageContent))
    case Threw(e) => Threw(ErrorObject(UrlLead + Reason(e)))
  }
}
